/** What becomes of an envelope, by the answers that came: delivered, given up or posted again. */
module AlertOutcomes {
  import opened Common
  import opened Alerts
  import opened AlertRuns

  // ---------------------------------------------------------------- causes

  /** The answer of this POST is the one the message in flight waits for. */
  predicate Awaited(s: State, post: nat, t: nat) {
    && s.current.Some? && s.current.value.ticket == t
    && post < |s.posts| && s.posts[post].ticket == t && !s.posts[post].settled
  }

  /** A try fails so that another may help: no answer, an answer of 429 or of 500 and above, or none in time. */
  predicate FailsForNow(s: State, e: Event, post: nat) {
    || e == PostSettled(post, Failure)
    || (e.PostSettled? && e.post == post && e.outcome.Status? && (e.outcome.status == 429 || e.outcome.status >= 500))
    || (e.TimerFires? && s.current.Some? && s.current.value.timer.Some?
        && s.current.value.timer.value.TryTimeout? && s.current.value.timer.value.post == post)
  }

  /** An answer that says no for good. */
  predicate Refuses(e: Event, post: nat) {
    && e.PostSettled? && e.post == post && e.outcome.Status?
    && !(200 <= e.outcome.status < 300) && e.outcome.status != 429 && e.outcome.status < 500
  }

  /** The newest POST. */
  function Newest(s: State): nat {
    if s.posts == [] then 0 else |s.posts| - 1
  }

  predicate Delivers(s: State, e: Event, t: nat) {
    e.PostSettled? && Awaited(s, e.post, t) && e.outcome.Status? && 200 <= e.outcome.status < 300
  }

  /** Building the request failed, the answer was no for good, or the third try failed. */
  predicate GivesUp(s: State, e: Event, t: nat) {
    || (e == Microtask(false) && s.current.Some? && s.current.value.ticket == t)
    || (Awaited(s, Newest(s), t) && Refuses(e, Newest(s)))
    || (Awaited(s, Newest(s), t) && FailsForNow(s, e, Newest(s)) && s.posts[Newest(s)].attempt == 3)
  }

  /** The event can happen and gives the envelope this fate: each fate has its own causes. */
  ghost predicate EndsAs(s: State, e: Event, t: nat, fate: Fate)
    requires t < |s.fates|
  {
    && Enabled(s, e)
    && match fate
       case Queued => false
       case InFlight =>
         && s.waiting != [] && s.waiting[0] == t && s.current.Some?
         && (Delivers(s, e, s.current.value.ticket) || GivesUp(s, e, s.current.value.ticket))
       case Delivered => Delivers(s, e, t)
       case GaveUp => GivesUp(s, e, t)
       case Dropped => e == EnqueueCalled && !s.stopped && |s.waiting| == 100 && s.waiting[0] == t
       case Discarded => e == StopCalled && s.fates[t] in {Queued, InFlight}
  }

  ghost predicate FateRight(s: State, r: State, e: Event, t: nat)
    requires t < |s.fates|
  {
    && t < |r.fates|
    && forall fate :: r.fates[t] == fate && s.fates[t] != fate <==> EndsAs(s, e, t, fate)
  }

  // ---------------------------------------------------------------- steps

  /** The message in flight ended with a fate, and the next one waiting took its place. */
  ghost predicate Ended(s: State, r: State, fate: Fate) {
    && s.current.Some? && |r.fates| == |s.fates|
    && forall t: nat :: t < |s.fates| ==>
         r.fates[t] == if t == s.current.value.ticket then fate
                       else if s.waiting != [] && s.waiting[0] == t then InFlight else s.fates[t]
  }

  lemma FinishGives(s: State, fate: Fate)
    requires FatesOk(s) && s.current.Some?
    ensures Ended(s, Finish(s, fate), fate)
  {
    assert s.waiting != [] ==> s.waiting[0] in s.waiting;
  }

  lemma EndedRight(s: State, r: State, e: Event, fate: Fate, t: nat)
    requires Inv(s) && t < |s.fates| && Enabled(s, e) && Ended(s, r, fate)
    requires !e.EnqueueCalled? && !e.StopCalled?
    requires forall u: nat :: Delivers(s, e, u) <==> fate == Delivered && u == s.current.value.ticket
    requires forall u: nat :: GivesUp(s, e, u) <==> fate == GaveUp && u == s.current.value.ticket
    requires fate in {Delivered, GaveUp}
    ensures FateRight(s, r, e, t)
  {
    assert s.waiting != [] ==> s.waiting[0] in s.waiting;
  }

  lemma KeptRight(s: State, r: State, e: Event, t: nat)
    requires t < |s.fates| && r.fates == s.fates
    requires forall u: nat :: !Delivers(s, e, u) && !GivesUp(s, e, u)
    requires !e.EnqueueCalled? && !e.StopCalled?
    ensures FateRight(s, r, e, t)
  {
  }

  lemma EnqueueRight(s: State, t: nat)
    requires Inv(s) && t < |s.fates|
    ensures FateRight(s, Enqueue(s), EnqueueCalled, t)
  {
    var r := Enqueue(s);
    if !s.stopped {
      assert s.waiting != [] ==> s.waiting[0] in s.waiting;
      assert r.fates[t] == if |s.waiting| == 100 && s.waiting[0] == t then Dropped else s.fates[t];
    }
  }

  lemma StopRight(s: State, t: nat)
    requires Inv(s) && t < |s.fates|
    ensures FateRight(s, Stop(s), StopCalled, t)
  {
    var gone := s.waiting + (if s.current.Some? then [s.current.value.ticket] else []);
    assert t in gone <==> t in s.waiting || (s.current.Some? && t == s.current.value.ticket);
    assert Stop(s).fates[t] == if s.fates[t] in {Queued, InFlight} then Discarded else s.fates[t];
  }

  lemma StartRight(s: State, built: bool, t: nat)
    requires Inv(s) && t < |s.fates| && Enabled(s, Microtask(built))
    ensures FateRight(s, Start(s, built), Microtask(built), t)
  {
    if built {
      KeptRight(s, Start(s, built), Microtask(built), t);
    } else {
      FinishGives(s, GaveUp);
      EndedRight(s, Start(s, built), Microtask(built), GaveUp, t);
    }
  }

  /** The event settles this POST with this outcome: its answer, or the failure of its timeout. */
  ghost predicate Settles(s: State, e: Event, post: nat, outcome: Outcome) {
    || e == PostSettled(post, outcome)
    || (e == TimerFires && outcome == Failure && s.current.Some? && s.current.value.timer.Some?
        && s.current.value.timer.value.TryTimeout? && s.current.value.timer.value.post == post)
  }

  /** The same message waits for its next try, which is due after this time. */
  ghost predicate WaitsAgain(s: State, r: State, attempt: nat, wait: nat) {
    && s.current.Some? && |r.posts| == |s.posts|
    && r.current == Some(s.current.value.(timer := Some(Retry(attempt, s.now + wait))))
  }

  /** What a settled POST leads to, told by the outcome alone. */
  ghost predicate DecidedRight(s: State, r: State, post: nat, outcome: Outcome)
    requires post < |s.posts|
  {
    var attempt := s.posts[post].attempt;
    if outcome.Status? && 200 <= outcome.status < 300 then Ended(s, r, Delivered)
    else if (outcome.Status? && outcome.status != 429 && outcome.status < 500) || attempt == 3 then Ended(s, r, GaveUp)
    else r.fates == s.fates && WaitsAgain(s, r, attempt, if attempt == 1 then 1_000 else 5_000)
  }

  lemma DecideDecides(s: State, post: nat, outcome: Outcome, aborted: bool, answered: bool)
    requires Inv(s) && Counts(s, post) && (aborted || answered)
    ensures var settled := SettledBy(s, post, aborted, answered);
            DecidedRight(s, Decide(settled, s.posts[post].attempt, outcome), post, outcome)
  {
    var settled := SettledBy(s, post, aborted, answered);
    SettledByOk(s, post, aborted, answered);
    if outcome.Status? && 200 <= outcome.status < 300 {
      FinishGives(settled, Delivered);
    } else if (outcome.Status? && outcome.status != 429 && outcome.status < 500) || s.posts[post].attempt == 3 {
      FinishGives(settled, GaveUp);
    }
  }

  lemma AnswerDecides(s: State, post: nat, outcome: Outcome)
    requires Inv(s) && Counts(s, post)
    ensures DecidedRight(s, Answer(s, post, outcome), post, outcome)
  {
    var answered := s.(posts := s.posts[post := s.posts[post].(answered := true)]);
    DecideDecides(s, post, outcome, s.posts[post].aborted, true);
    assert answered.posts[post := answered.posts[post].(settled := true)]
        == SettledBy(s, post, s.posts[post].aborted, true).posts;
  }

  lemma TimeoutDecides(s: State, post: nat)
    requires Inv(s) && Counts(s, post)
    ensures DecidedRight(s, Timeout(s, post), post, Failure)
  {
    DecideDecides(s, post, Failure, true, s.posts[post].answered);
    var aborted := s.(posts := s.posts[post := s.posts[post].(aborted := true)]);
    assert aborted.posts[post := aborted.posts[post].(settled := true)]
        == SettledBy(s, post, true, s.posts[post].answered).posts;
  }

  /** The causes of an end, when a POST that counts is settled. */
  lemma SettledCauses(s: State, e: Event, post: nat, outcome: Outcome, u: nat)
    requires Inv(s) && Counts(s, post) && Settles(s, e, post, outcome)
    ensures Delivers(s, e, u) <==>
              u == s.current.value.ticket && outcome.Status? && 200 <= outcome.status < 300
    ensures GivesUp(s, e, u) <==>
              && u == s.current.value.ticket && !(outcome.Status? && 200 <= outcome.status < 300)
              && ((outcome.Status? && outcome.status != 429 && outcome.status < 500) || s.posts[post].attempt == 3)
  {
    CountsIsCurrent(s, post);
  }

  lemma SettledRight(s: State, r: State, e: Event, post: nat, outcome: Outcome, t: nat)
    requires Inv(s) && t < |s.fates| && Enabled(s, e)
    requires Counts(s, post) && Settles(s, e, post, outcome) && DecidedRight(s, r, post, outcome)
    ensures FateRight(s, r, e, t)
  {
    forall u: nat
      ensures Delivers(s, e, u) <==>
                u == s.current.value.ticket && outcome.Status? && 200 <= outcome.status < 300
      ensures GivesUp(s, e, u) <==>
                && u == s.current.value.ticket && !(outcome.Status? && 200 <= outcome.status < 300)
                && ((outcome.Status? && outcome.status != 429 && outcome.status < 500) || s.posts[post].attempt == 3)
    {
      SettledCauses(s, e, post, outcome, u);
    }
    if outcome.Status? && 200 <= outcome.status < 300 {
      EndedRight(s, r, e, Delivered, t);
    } else if (outcome.Status? && outcome.status != 429 && outcome.status < 500) || s.posts[post].attempt == 3 {
      EndedRight(s, r, e, GaveUp, t);
    } else {
      KeptRight(s, r, e, t);
    }
  }

  /** The answer of a POST that no longer counts ends nothing. */
  lemma LateEndsNothing(s: State, post: nat, outcome: Outcome, u: nat)
    requires Inv(s) && !Counts(s, post)
    ensures !Delivers(s, PostSettled(post, outcome), u) && !GivesUp(s, PostSettled(post, outcome), u)
  {
  }

  lemma AnswerRight(s: State, post: nat, outcome: Outcome, t: nat)
    requires Inv(s) && t < |s.fates| && Enabled(s, PostSettled(post, outcome))
    ensures FateRight(s, Answer(s, post, outcome), PostSettled(post, outcome), t)
  {
    if Counts(s, post) {
      AnswerDecides(s, post, outcome);
      SettledRight(s, Answer(s, post, outcome), PostSettled(post, outcome), post, outcome, t);
    } else {
      forall u: nat
        ensures !Delivers(s, PostSettled(post, outcome), u) && !GivesUp(s, PostSettled(post, outcome), u)
      {
        LateEndsNothing(s, post, outcome, u);
      }
      KeptRight(s, Answer(s, post, outcome), PostSettled(post, outcome), t);
    }
  }

  lemma TimeoutCounts(s: State)
    requires Inv(s) && Enabled(s, TimerFires) && s.current.value.timer.value.TryTimeout?
    ensures Counts(s, s.current.value.timer.value.post) && s.current.value.timer.value.post == Newest(s)
    ensures Step(s, TimerFires) == Timeout(s, s.current.value.timer.value.post)
  {
    FireIgnoresTimer(s);
  }

  lemma FireRight(s: State, t: nat)
    requires Inv(s) && t < |s.fates| && Enabled(s, TimerFires)
    ensures FateRight(s, Step(s, TimerFires), TimerFires, t)
  {
    if s.current.value.timer.value.TryTimeout? {
      var post := s.current.value.timer.value.post;
      TimeoutCounts(s);
      TimeoutDecides(s, post);
      SettledRight(s, Timeout(s, post), TimerFires, post, Failure, t);
    } else {
      FireIgnoresTimer(s);
      KeptRight(s, Step(s, TimerFires), TimerFires, t);
    }
  }

  lemma StepRight(s: State, e: Event, t: nat)
    requires Inv(s) && t < |s.fates|
    ensures FateRight(s, Step(s, e), e, t)
  {
    if Enabled(s, e) {
      match e
      case EnqueueCalled => EnqueueRight(s, t);
      case StopCalled => StopRight(s, t);
      case Microtask(built) => StartRight(s, built, t);
      case PostSettled(post, outcome) => AnswerRight(s, post, outcome, t);
      case TimerFires => FireRight(s, t);
      case Tick(_) => KeptRight(s, Step(s, e), e, t);
    }
  }

  // ---------------------------------------------------------------- theorems

  /**
   * In every run and for every next event: an envelope gets a fate exactly by the causes of that fate. It is
   * delivered exactly when the POST it waits for is answered with a status from 200 to 299; it is given up
   * exactly when its request cannot be built, the answer is no for good, or the third try failed.
   */
  lemma {:induction false} FateChangesExactly(events: seq<Event>, e: Event, t: nat)
    requires t < |Run(events).fates|
    ensures FateRight(Run(events), Step(Run(events), e), e, t)
  {
    RunOk(events);
    StepRight(Run(events), e, t);
  }

  /**
   * In every run, when the first or second try of the message in flight fails for now, by its answer or its
   * timeout, the message stays in flight and its next try is due after 1000 or 5000 ms.
   */
  lemma {:induction false} FailedTryWaits(events: seq<Event>, e: Event, t: nat)
    requires var s := Run(events);
             && Enabled(s, e) && Awaited(s, Newest(s), t) && FailsForNow(s, e, Newest(s))
             && s.posts[Newest(s)].attempt < 3
    ensures var s := Run(events);
            var attempt := s.posts[Newest(s)].attempt;
            && Step(s, e).fates == s.fates
            && WaitsAgain(s, Step(s, e), attempt, if attempt == 1 then 1_000 else 5_000)
  {
    RunOk(events);
    var s := Run(events);
    var post := Newest(s);
    assert Counts(s, post);
    if e == TimerFires {
      TimeoutCounts(s);
      TimeoutDecides(s, post);
    } else {
      AnswerDecides(s, post, e.outcome);
    }
  }

  /** The message in flight is posted once more, with its timeout armed. */
  ghost predicate Posted(s: State, r: State, attempt: nat) {
    && s.current.Some? && r.fates == s.fates
    && r.posts == s.posts + [Post(s.current.value.ticket, attempt, false, false, false)]
    && r.current.Some? && r.current.value.ticket == s.current.value.ticket
    && r.current.value.timer == Some(TryTimeout(|s.posts|, s.now + 10_000))
  }

  /** In every run the wait for the next try ends exactly when it is due, by posting the message again. */
  lemma {:induction false} WaitEndsInAPost(events: seq<Event>)
    requires Enabled(Run(events), TimerFires) && Run(events).current.value.timer.value.Retry?
    ensures var s := Run(events);
            var timer := s.current.value.timer.value;
            s.now == timer.due && Posted(s, Step(s, TimerFires), timer.attempt + 1)
  {
    RunOk(events);
    FireIgnoresTimer(Run(events));
  }

  /** In every run a message whose request was built is posted a first time. */
  lemma {:induction false} BuiltIsPosted(events: seq<Event>)
    requires Enabled(Run(events), Microtask(true))
    ensures Posted(Run(events), Step(Run(events), Microtask(true)), 1)
  {
  }

  /** Event `k` of the run gave the envelope its fate. */
  ghost predicate EndedAt(events: seq<Event>, k: nat, t: nat, fate: Fate) {
    k < |events| && t < |Run(events[..k]).fates| && EndsAs(Run(events[..k]), events[k], t, fate)
  }

  lemma NewIsUndecided(s: State, e: Event, t: nat)
    requires Inv(s) && |s.fates| <= t < |Step(s, e).fates|
    ensures Step(s, e).fates[t] in {Queued, InFlight}
  {
    if e != EnqueueCalled {
      SameTickets(s, e);
    }
  }

  lemma SameTickets(s: State, e: Event)
    requires Inv(s) && e != EnqueueCalled
    ensures |Step(s, e).fates| == |s.fates|
  {
    if Enabled(s, e) && e.PostSettled? && Counts(s, e.post) {
      AnswerDecides(s, e.post, e.outcome);
    } else if Enabled(s, e) && e == TimerFires {
      FireIgnoresTimer(s);
      if s.current.value.timer.value.TryTimeout? {
        TimeoutCounts(s);
        TimeoutDecides(s, s.current.value.timer.value.post);
      }
    }
  }

  /** A final fate after a step was there before, or the step is a cause of it. */
  ghost predicate FateBefore(s: State, r: State, e: Event, t: nat)
    requires t < |r.fates|
  {
    t < |s.fates| && (s.fates[t] == r.fates[t] || EndsAs(s, e, t, r.fates[t]))
  }

  lemma StepFateBefore(s: State, e: Event, t: nat)
    requires Inv(s) && t < |Step(s, e).fates| && Final(Step(s, e).fates[t])
    ensures FateBefore(s, Step(s, e), e, t)
  {
    if t >= |s.fates| {
      NewIsUndecided(s, e, t);
    } else {
      StepRight(s, e, t);
    }
  }

  lemma EndedEarlier(events: seq<Event>, k: nat, t: nat, fate: Fate)
    requires events != [] && EndedAt(events[..|events| - 1], k, t, fate)
    ensures EndedAt(events, k, t, fate)
  {
    assert events[..|events| - 1][..k] == events[..k];
  }

  /** In every run an envelope that has a final fate was given it by one event, a cause of that fate. */
  lemma {:induction false} FateHasACause(events: seq<Event>, t: nat) returns (k: nat)
    requires t < |Run(events).fates| && Final(Run(events).fates[t])
    ensures EndedAt(events, k, t, Run(events).fates[t])
  {
    assert events != [];
    var before, e := events[..|events| - 1], events[|events| - 1];
    var s, fate := Run(before), Run(events).fates[t];
    RunOk(before);
    StepFateBefore(s, e, t);
    if s.fates[t] == fate {
      k := FateHasACause(before, t);
      EndedEarlier(events, k, t, fate);
    } else {
      k := |events| - 1;
    }
  }
}
