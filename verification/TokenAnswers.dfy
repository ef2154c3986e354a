/** What an uplink join is answered, and by what: one cause for each refusal and for the acceptance. */
module TokenAnswers {
  import opened Common
  import opened Tokens

  /** A worker id of the allowed form: 1 to 128 letters, digits, underscores and hyphens. */
  ghost predicate AllowedId(worker: Option<string>) {
    && worker.Some? && 1 <= |worker.value| <= 128
    && forall k :: 0 <= k < |worker.value| ==>
         var c := worker.value[k];
         'A' <= c <= 'Z' || 'a' <= c <= 'z' || '0' <= c <= '9' || c in {'_', '-'}
  }

  lemma AllowedIsOk(worker: Option<string>)
    ensures AllowedId(worker) <==> worker.Some? && WorkerIdOk(worker.value)
  {
  }

  /** What a join is answered when it is resumed: each outcome has its own causes. */
  ghost predicate AnsweredFor(join: Join, outcome: Outcome) {
    match outcome
    case Unauthenticated => join.phase == Verified(None)
    case Forbidden => join.phase.Verified? && join.phase.record.Some? && join.phase.record.value.row.role != Worker
    case Mismatch =>
      || (join.phase.Pinning? && !join.phase.pinned)
      || (WorkerToken(join)
          && (!AllowedId(join.worker)
              || (join.phase.record.value.row.pin.Some? && join.phase.record.value.row.pin != join.worker)))
    case Accept(token) =>
      || join.phase == Pinning(token, true)
      || (WorkerToken(join) && join.phase.record.value.id == token
          && AllowedId(join.worker) && join.phase.record.value.row.pin == join.worker)
  }

  /** The record read is of a worker token. */
  predicate WorkerToken(join: Join) {
    join.phase.Verified? && join.phase.record.Some? && join.phase.record.value.row.role == Worker
  }

  /** The join is answered with an outcome in the step exactly when the outcome's cause holds of it. */
  ghost predicate AnswersRight(s: State, r: State, e: Event, j: nat)
    requires j < |s.joins|
  {
    && j < |r.joins|
    && forall outcome ::
         r.joins[j].phase == Answered(outcome) && s.joins[j].phase != Answered(outcome)
         <==> e == Resume(j) && AnsweredFor(s.joins[j], outcome)
  }

  lemma {:induction false} ResumedAnswers(rows: Table, join: Join, outcome: Outcome)
    ensures Resumed(rows, join).1.phase == Answered(outcome) && join.phase != Answered(outcome)
            <==> AnsweredFor(join, outcome)
  {
    AllowedIsOk(join.worker);
  }

  lemma AllAnswers(rows: Table, join: Join)
    ensures forall outcome ::
              Resumed(rows, join).1.phase == Answered(outcome) && join.phase != Answered(outcome)
              <==> AnsweredFor(join, outcome)
  {
    forall outcome
      ensures Resumed(rows, join).1.phase == Answered(outcome) && join.phase != Answered(outcome)
              <==> AnsweredFor(join, outcome)
    {
      ResumedAnswers(rows, join, outcome);
    }
  }

  lemma StepAnswers(s: State, e: Event, j: nat)
    requires j < |s.joins|
    ensures AnswersRight(s, Step(s, e), e, j)
  {
    var r := Step(s, e);
    if e == Resume(j) {
      assert r.joins[j] == Resumed(s.rows, s.joins[j]).1;
      AllAnswers(s.rows, s.joins[j]);
    } else {
      assert r.joins[j] == s.joins[j];
    }
  }

  /**
   * In every run and for every next event: a join is answered exactly by its own resumption. It is
   * unauthenticated exactly when no token has the credential, forbidden exactly when the token is not a
   * worker's, and mismatched exactly when the worker id is not allowed, or the token is pinned to another, or
   * the pin was not taken.
   */
  lemma {:induction false} JoinAnsweredExactly(events: seq<Event>, e: Event, j: nat)
    requires j < |Run(Initial, events).joins|
    ensures AnswersRight(Run(Initial, events), Step(Run(Initial, events), e), e, j)
  {
    StepAnswers(Run(Initial, events), e, j);
  }

  /**
   * In every run a join begins with what the table says at that moment: answered at once without a
   * credential, and otherwise with the row that has its hash, if there is one.
   */
  lemma {:induction false} JoinBeginsWithTheRow(
    events: seq<Event>, credential: Option<string>, worker: Option<string>)
    ensures var s := Run(Initial, events);
            var r := Step(s, Begin(credential, worker));
            && |r.joins| == |s.joins| + 1 && r.rows == s.rows
            && var join := r.joins[|s.joins|];
            && join.worker == worker
            && (credential.None? <==> join.phase == Answered(Unauthenticated))
            && (credential.Some? ==> join.phase.Verified?)
            && (credential.Some? ==> forall id ::
                  (id in s.rows && s.rows[id].hash == credential.value
                   <==> id in s.rows && join.phase.record == Some(Record(id, s.rows[id]))))
            && (credential.Some? && join.phase.record.Some? ==> join.phase.record.value.id in s.rows)
  {
    var s := Run(Initial, events);
    RunOk(events);
    if credential.Some? {
      var found := Lookup(s.rows, credential.value);
      forall id | id in s.rows && s.rows[id].hash == credential.value
        ensures found == Some(Record(id, s.rows[id]))
      {
        assert HashTaken(s.rows, credential.value);
      }
    }
  }
}
