/**
 * Worker tokens: the `tokens` table of `src/auth/token-store.ts` and the uplink joins of
 * `src/auth/index.ts` that verify a credential and then pin its token to a worker id.
 *
 * A join is three steps, one for each stretch between two awaits, and steps of different joins,
 * creates and revokes interleave freely. Hashes stand for the secrets they are made from.
 */
module Tokens {
  import opened Common

  datatype Role = Agent | Operator | Worker

  /** A row without its id, label and time. */
  datatype Row = Row(hash: string, role: Role, pin: Option<string>)

  type Table = map<string, Row>

  /** The unique index on `worker_id`: no two rows hold one id, and nulls do not count. */
  ghost predicate PinsUnique(rows: Table) {
    forall a, b | a in rows && b in rows && rows[a].pin.Some? && rows[a].pin == rows[b].pin :: a == b
  }

  /** The `UNIQUE` of the hash column. */
  ghost predicate HashesUnique(rows: Table) {
    forall a, b | a in rows && b in rows && rows[a].hash == rows[b].hash :: a == b
  }

  ghost predicate TableOk(rows: Table) {
    PinsUnique(rows) && HashesUnique(rows)
  }

  predicate HashTaken(rows: Table, hash: string) {
    exists id :: id in rows && rows[id].hash == hash
  }

  predicate PinTaken(rows: Table, worker: string) {
    exists id :: id in rows && rows[id].pin == Some(worker)
  }

  /** The insert of `create`; a taken id or hash makes it throw, and nothing is stored. */
  function Inserted(rows: Table, id: string, hash: string, role: Role): Option<Table> {
    if id in rows || HashTaken(rows, hash) then None else Some(rows[id := Row(hash, role, None)])
  }

  /** The `UPDATE OR IGNORE` of `pinWorker`. */
  function Updated(rows: Table, id: string, worker: string): Table {
    if id in rows && rows[id].pin.None? && !PinTaken(rows, worker)
    then rows[id := rows[id].(pin := Some(worker))]
    else rows
  }

  /** The re-read of `pinWorker`. */
  predicate PinnedTo(rows: Table, id: string, worker: string) {
    id in rows && rows[id].pin == Some(worker)
  }

  lemma UpdatedOk(rows: Table, id: string, worker: string)
    requires TableOk(rows)
    ensures TableOk(Updated(rows, id, worker))
    ensures PinnedTo(Updated(rows, id, worker), id, worker)
            <==> id in rows
                 && (rows[id].pin == Some(worker) || (rows[id].pin.None? && !PinTaken(rows, worker)))
  {
  }

  // ---------------------------------------------------------------- a join

  datatype Outcome = Unauthenticated | Forbidden | Mismatch | Accept(token: string)

  /** What `verify` returned: the id and the row as it was then. */
  datatype Record = Record(id: string, row: Row)

  /** Where a join is: before the answer of `verify`, before the answer of `pinWorker`, or over. */
  datatype Phase =
    | Verified(record: Option<Record>)
    | Pinning(id: string, pinned: bool)
    | Answered(outcome: Outcome)

  datatype Join = Join(worker: Option<string>, phase: Phase)

  predicate WordChar(c: char) {
    'A' <= c <= 'Z' || 'a' <= c <= 'z' || '0' <= c <= '9' || c == '_' || c == '-'
  }

  /** `WORKER_ID_PATTERN` */
  predicate WorkerIdOk(id: string) {
    1 <= |id| <= 128 && forall k :: 0 <= k < |id| ==> WordChar(id[k])
  }

  /** `verify`: the row with that hash. Hashes are unique, so there is at most one. */
  ghost function Lookup(rows: Table, hash: string): (r: Option<Record>)
    ensures r.Some? ==> r.value.id in rows && rows[r.value.id] == r.value.row && r.value.row.hash == hash
    ensures r.None? <==> !HashTaken(rows, hash)
  {
    if HashTaken(rows, hash)
    then var id :| id in rows && rows[id].hash == hash; Some(Record(id, rows[id]))
    else None
  }

  /** The first stretch of `authenticateUplink`, up to the await of `verify`. */
  ghost function Begun(rows: Table, credential: Option<string>, worker: Option<string>): Join {
    match credential
    case None => Join(worker, Answered(Unauthenticated))
    case Some(hash) => Join(worker, Verified(Lookup(rows, hash)))
  }

  /** The stretches after an await: the table and the join they leave. */
  function Resumed(rows: Table, join: Join): (Table, Join) {
    match join.phase
    case Verified(None) => (rows, join.(phase := Answered(Unauthenticated)))
    case Verified(Some(record)) =>
      if record.row.role != Worker then (rows, join.(phase := Answered(Forbidden)))
      else if join.worker.None? || !WorkerIdOk(join.worker.value) then
        (rows, join.(phase := Answered(Mismatch)))
      else if record.row.pin.None? then
        var now := Updated(rows, record.id, join.worker.value);
        (now, join.(phase := Pinning(record.id, PinnedTo(now, record.id, join.worker.value))))
      else
        (rows, join.(phase := Answered(if record.row.pin == join.worker then Accept(record.id) else Mismatch)))
    case Pinning(id, pinned) => (rows, join.(phase := Answered(if pinned then Accept(id) else Mismatch)))
    case Answered(_) => (rows, join)
  }

  // ---------------------------------------------------------------- runs

  /** The table, the ids ever generated, and the joins in the order they began. */
  datatype State = State(rows: Table, issued: set<string>, joins: seq<Join>)

  /** `Create` carries the generated id and the hash of the generated secret. */
  datatype Event =
    | Create(id: string, hash: string, role: Role)
    | Revoke(id: string)
    | Begin(credential: Option<string>, worker: Option<string>)
    | Resume(join: nat)

  const Initial := State(map[], {}, [])

  /** One step. The id generator gives no id twice, and only a join there is can be resumed. */
  ghost function Step(s: State, e: Event): State {
    match e
    case Create(id, hash, role) =>
      if id in s.issued then s
      else
        var rows := Inserted(s.rows, id, hash, role);
        s.(rows := if rows.Some? then rows.value else s.rows, issued := s.issued + {id})
    case Revoke(id) => s.(rows := s.rows - {id})
    case Begin(credential, worker) => s.(joins := s.joins + [Begun(s.rows, credential, worker)])
    case Resume(j) =>
      if j >= |s.joins| then s
      else
        var (rows, join) := Resumed(s.rows, s.joins[j]);
        s.(rows := rows, joins := s.joins[j := join])
  }

  ghost function Run(s: State, events: seq<Event>): State {
    if events == [] then s else Step(Run(s, events[..|events| - 1]), events[|events| - 1])
  }

  /** A join that has been, or is about to be, accepted for a token. */
  predicate Wins(join: Join, token: string) {
    join.phase == Pinning(token, true) || join.phase == Answered(Accept(token))
  }

  /**
   * What a row can still become: gone, or the same with a pin where it had none.
   */
  ghost predicate RowMoves(was: State, now: State, id: string)
  {
    && was.issued <= now.issued
    && (id in was.issued && id !in was.rows ==> id !in now.rows)
    && (id in was.rows && id in now.rows ==>
          && now.rows[id].hash == was.rows[id].hash
          && now.rows[id].role == was.rows[id].role
          && (was.rows[id].pin.Some? ==> now.rows[id].pin == was.rows[id].pin))
  }

  /** A record a join holds was in the table, and what its row now says agrees with it. */
  ghost predicate RecordOk(s: State, r: Record) {
    && r.id in s.issued
    && (r.id in s.rows ==>
          && s.rows[r.id].hash == r.row.hash && s.rows[r.id].role == r.row.role
          && (r.row.pin.Some? ==> s.rows[r.id].pin == r.row.pin))
  }

  /** A winning join: its worker id has the right form, and is the pin of its token while that lives. */
  ghost predicate WinOk(s: State, join: Join, token: string) {
    && token in s.issued
    && join.worker.Some? && WorkerIdOk(join.worker.value)
    && (token in s.rows ==> s.rows[token].pin == join.worker && s.rows[token].role == Worker)
  }

  /** Every worker id a token was ever seen with: the pin of a row, of a record, or of a win. */
  ghost predicate SeenWith(s: State, token: string, worker: string) {
    || PinnedTo(s.rows, token, worker)
    || (exists j :: 0 <= j < |s.joins| && JoinShows(s.joins[j], token, worker))
  }

  predicate JoinShows(join: Join, token: string, worker: string) {
    || (Wins(join, token) && join.worker == Some(worker))
    || (join.phase.Verified? && join.phase.record.Some? && join.phase.record.value.id == token
        && join.phase.record.value.row.pin == Some(worker))
  }

  ghost predicate JoinOk(s: State, join: Join) {
    && (join.phase.Verified? && join.phase.record.Some? ==> RecordOk(s, join.phase.record.value))
    && (forall token | Wins(join, token) :: WinOk(s, join, token))
  }

  ghost predicate JoinsOk(s: State) {
    forall j :: 0 <= j < |s.joins| ==> JoinOk(s, s.joins[j])
  }

  ghost predicate OnePinEver(s: State) {
    forall t, w, v | SeenWith(s, t, w) && SeenWith(s, t, v) :: w == v
  }

  ghost predicate Ok(s: State) {
    TableOk(s.rows) && s.rows.Keys <= s.issued && JoinsOk(s) && OnePinEver(s)
  }

  lemma StepMoves(s: State, e: Event, id: string)
    requires Ok(s)
    ensures RowMoves(s, Step(s, e), id)
  {
  }

  lemma StepTable(s: State, e: Event)
    requires Ok(s)
    ensures TableOk(Step(s, e).rows) && Step(s, e).rows.Keys <= Step(s, e).issued
  {
  }

  lemma StepJoins(s: State, e: Event)
    requires Ok(s)
    ensures JoinsOk(Step(s, e))
  {
    var t := Step(s, e);
    forall j | 0 <= j < |t.joins|
      ensures JoinOk(t, t.joins[j])
    {
      if j < |s.joins| && t.joins[j] == s.joins[j] {
        Unmoved(s, e, s.joins[j]);
      } else if e.Begin? {
        assert t.joins[j] == Begun(s.rows, e.credential, e.worker);
      } else {
        MovedOn(s, e.join);
      }
    }
  }

  /** Steps keep what is said of a join they do not move. */
  lemma Unmoved(s: State, e: Event, join: Join)
    requires Ok(s) && JoinOk(s, join)
    ensures JoinOk(Step(s, e), join)
  {
    var t := Step(s, e);
    if join.phase.Verified? && join.phase.record.Some? {
      StepMoves(s, e, join.phase.record.value.id);
    }
    forall token | Wins(join, token)
      ensures WinOk(t, join, token)
    {
      StepMoves(s, e, token);
    }
  }

  /** And what is said of a join holds of it when it is resumed. */
  lemma MovedOn(s: State, j: nat)
    requires Ok(s) && j < |s.joins|
    ensures JoinOk(Step(s, Resume(j)), Step(s, Resume(j)).joins[j])
  {
    assert JoinOk(s, s.joins[j]);
    var join := s.joins[j];
    var t := Step(s, Resume(j));
    var now := t.joins[j];
    assert (t.rows, now) == Resumed(s.rows, join);
    if join.phase.Pinning? && join.phase.pinned {
      assert Wins(join, join.phase.id);
    }
    forall token | Wins(now, token)
      ensures WinOk(t, now, token)
    {
      if join.phase.Pinning? || join.phase.Answered? {
        assert Wins(join, token);
      } else {
        UpdatedOk(s.rows, token, join.worker.value);
      }
    }
  }

  /** A token that is live and unpinned was never seen with a worker id. */
  lemma UnpinnedIsUnseen(s: State, token: string, worker: string)
    requires Ok(s) && token in s.rows && s.rows[token].pin.None?
    ensures !SeenWith(s, token, worker)
  {
    forall j | 0 <= j < |s.joins|
      ensures !JoinShows(s.joins[j], token, worker)
    {
      assert JoinOk(s, s.joins[j]);
    }
  }

  /** A join that shows a token that is not pinned so now showed it before it was resumed. */
  lemma ShownBefore(s: State, j: nat, token: string, worker: string)
    requires j < |s.joins| && JoinShows(Step(s, Resume(j)).joins[j], token, worker)
    requires !PinnedTo(Step(s, Resume(j)).rows, token, worker)
    ensures JoinShows(s.joins[j], token, worker)
  {
    var t := Step(s, Resume(j));
    assert (t.rows, t.joins[j]) == Resumed(s.rows, s.joins[j]);
  }

  /** A step shows a token with a new worker id only by pinning it. */
  lemma Sighting(s: State, e: Event, token: string, worker: string)
    requires Ok(s) && SeenWith(Step(s, e), token, worker)
    ensures || SeenWith(s, token, worker)
            || (token in s.rows && s.rows[token].pin.None? && PinnedTo(Step(s, e).rows, token, worker))
  {
    var t := Step(s, e);
    if !PinnedTo(t.rows, token, worker) {
      var j :| 0 <= j < |t.joins| && JoinShows(t.joins[j], token, worker);
      if j < |s.joins| && t.joins[j] != s.joins[j] {
        ShownBefore(s, j, token, worker);
      }
    }
  }

  lemma StepOk(s: State, e: Event)
    requires Ok(s)
    ensures Ok(Step(s, e))
  {
    var t := Step(s, e);
    StepTable(s, e);
    StepJoins(s, e);
    forall token, w, v | SeenWith(t, token, w) && SeenWith(t, token, v)
      ensures w == v
    {
      Sighting(s, e, token, w);
      Sighting(s, e, token, v);
      if token in s.rows && s.rows[token].pin.None? {
        UnpinnedIsUnseen(s, token, w);
        UnpinnedIsUnseen(s, token, v);
      }
    }
  }

  lemma {:induction false} RunOk(events: seq<Event>)
    ensures Ok(Run(Initial, events))
  {
    if events != [] {
      RunOk(events[..|events| - 1]);
      StepOk(Run(Initial, events[..|events| - 1]), events[|events| - 1]);
    }
  }

  // ---------------------------------------------------------------- what holds of every run

  /** No two live tokens share a pin, nor a hash. */
  lemma {:induction false} LivePinsAreUnique(events: seq<Event>)
    ensures TableOk(Run(Initial, events).rows)
  {
    RunOk(events);
  }

  /** A pin once set stays for as long as its token lives, and a revoked token stays revoked. */
  lemma {:induction false} PinNeverChanges(events: seq<Event>, more: seq<Event>, id: string)
    ensures RowMoves(Run(Initial, events), Run(Initial, events + more), id)
  {
    if more == [] {
      assert events + more == events;
    } else {
      var before := events + more[..|more| - 1];
      LastOf(events, more);
      PinNeverChanges(events, more[..|more| - 1], id);
      RunOk(before);
      RunOk(events);
      StepMoves(Run(Initial, before), more[|more| - 1], id);
    }
  }

  predicate Won(s: State, j: nat, token: string) {
    j < |s.joins| && Wins(s.joins[j], token)
  }

  /** Two wins with one token are under one worker id; two under one worker id with different
      tokens only if one of the tokens is revoked by now. */
  ghost predicate OneWinner(s: State) {
    forall i: nat, j: nat, t, u | Won(s, i, t) && Won(s, j, u) ::
      && (t == u ==> s.joins[i].worker == s.joins[j].worker)
      && (t != u && s.joins[i].worker == s.joins[j].worker ==> t !in s.rows || u !in s.rows)
  }

  /** Every worker id that wins has the allowed form. */
  ghost predicate WinnersWellFormed(s: State) {
    forall j: nat, t | Won(s, j, t) :: s.joins[j].worker.Some? && WorkerIdOk(s.joins[j].worker.value)
  }

  /**
   * Over every run: two racing first joins, one token with two worker ids or one worker id with two
   * tokens, are never both accepted.
   */
  lemma {:induction false} JoinsNeverBothWin(events: seq<Event>)
    ensures OneWinner(Run(Initial, events)) && WinnersWellFormed(Run(Initial, events))
  {
    var s := Run(Initial, events);
    RunOk(events);
    forall i: nat, j: nat, t, u | Won(s, i, t) && Won(s, j, u)
      ensures s.joins[i].worker.Some? && WorkerIdOk(s.joins[i].worker.value)
      ensures t == u ==> s.joins[i].worker == s.joins[j].worker
      ensures t != u && s.joins[i].worker == s.joins[j].worker ==> t !in s.rows || u !in s.rows
    {
      assert JoinOk(s, s.joins[i]) && JoinOk(s, s.joins[j]);
      var w, v := s.joins[i].worker.value, s.joins[j].worker.value;
      assert JoinShows(s.joins[i], t, w) && JoinShows(s.joins[j], u, v);
      assert SeenWith(s, t, w) && SeenWith(s, u, v);
    }
  }

  predicate ClaimsWellFormedId(join: Join) {
    join.worker.Some? && WorkerIdOk(join.worker.value)
  }

  /** Two joins holding the same unpinned record of a live worker token; nobody has the first one's id. */
  ghost predicate Racing(s: State, i: nat, j: nat) {
    && i < |s.joins| && j < |s.joins| && i != j && s.joins[i].phase == s.joins[j].phase
    && s.joins[i].phase.Verified? && s.joins[i].phase.record.Some?
    && var r := s.joins[i].phase.record.value;
    && r.row.role == Worker && r.id in s.rows && s.rows[r.id].pin.None?
    && ClaimsWellFormedId(s.joins[i]) && ClaimsWellFormedId(s.joins[j])
    && !PinTaken(s.rows, s.joins[i].worker.value)
  }

  /**
   * The race in full: of two joins that read the same unpinned record, the first to be resumed with
   * a free worker id wins, and the other loses unless it claims the same id.
   */
  lemma {:induction false} FirstToPinWins(events: seq<Event>, i: nat, j: nat)
    ensures var s := Run(Initial, events);
            Racing(s, i, j) ==>
              var token := s.joins[i].phase.record.value.id;
              var one := Step(s, Resume(i));
              && one.joins[i].phase == Pinning(token, true)
              && Step(one, Resume(j)).joins[j].phase == Pinning(token, s.joins[j].worker == s.joins[i].worker)
  {
    RunOk(events);
    if Racing(Run(Initial, events), i, j) {
      PinInTurn(Run(Initial, events), i, j);
    }
  }

  lemma PinInTurn(s: State, i: nat, j: nat)
    requires Ok(s) && Racing(s, i, j)
    ensures var token := s.joins[i].phase.record.value.id;
            var one := Step(s, Resume(i));
            && one.joins[i].phase == Pinning(token, true)
            && Step(one, Resume(j)).joins[j].phase == Pinning(token, s.joins[j].worker == s.joins[i].worker)
  {
    assert JoinOk(s, s.joins[i]);
    var r := s.joins[i].phase.record.value;
    var one := Step(s, Resume(i));
    assert (one.rows, one.joins[i]) == Resumed(s.rows, s.joins[i]);
    assert PinnedTo(one.rows, r.id, s.joins[i].worker.value);
    assert one.joins[j] == s.joins[j];
    assert Step(one, Resume(j)).joins[j] == Resumed(one.rows, one.joins[j]).1;
  }

  /** A join that has yet to be answered, and a token that is not in the table. */
  ghost predicate WaitsOnRevoked(s: State, j: nat, token: string) {
    j < |s.joins| && !s.joins[j].phase.Answered? && token !in s.rows
  }

  /** What the join has already read or done decides then: its pin was taken, or the record it holds was
      pinned to the worker id it claims. */
  predicate AcceptsRegardless(join: Join, token: string) {
    || join.phase == Pinning(token, true)
    || (join.phase.Verified? && join.phase.record.Some? && RecordAccepts(join, join.phase.record.value, token))
  }

  predicate RecordAccepts(join: Join, record: Record, token: string) {
    && record.id == token && record.row.role == Worker
    && record.row.pin.Some? && record.row.pin == join.worker && WorkerIdOk(record.row.pin.value)
  }

  /**
   * The exact condition, for every run, every join not yet answered and every token that is gone: the
   * next step has the join won for the token if and only if its pin was taken before the token went, or
   * the record it read was pinned to the id it claims. A join that has yet to pin needs a live token.
   */
  lemma {:induction false} RevokedSinceRead(events: seq<Event>, j: nat, token: string)
    ensures var s := Run(Initial, events);
            WaitsOnRevoked(s, j, token) ==>
              (Won(Step(s, Resume(j)), j, token) <==> AcceptsRegardless(s.joins[j], token))
  {
    var s := Run(Initial, events);
    if WaitsOnRevoked(s, j, token) {
      ResumesOnRevoked(s, j, token);
    }
  }

  lemma ResumesOnRevoked(s: State, j: nat, token: string)
    requires WaitsOnRevoked(s, j, token)
    ensures Won(Step(s, Resume(j)), j, token) <==> AcceptsRegardless(s.joins[j], token)
  {
    assert Step(s, Resume(j)).joins[j] == Resumed(s.rows, s.joins[j]).1;
  }

  // ---------------------------------------------------------------- a revoked token accepted

  lemma {:induction false} RunExtends(events: seq<Event>, e: Event)
    ensures Run(Initial, events + [e]) == Step(Run(Initial, events), e)
  {
    assert (events + [e])[..|events|] == events;
  }

  /** The one row of a table. */
  lemma LookupOnly(id: string, row: Row)
    ensures Lookup(map[id := row], row.hash) == Some(Record(id, row))
  {
    var rows := map[id := row];
    assert id in rows && rows[id].hash == row.hash;
    assert HashTaken(rows, row.hash);
  }

  function Unpinned(id: string, hash: string): Table {
    map[id := Row(hash, Worker, None)]
  }

  lemma FirstCreate(id: string, hash: string)
    ensures Step(Initial, Create(id, hash, Worker)) == State(Unpinned(id, hash), {id}, [])
  {
    assert !HashTaken(map[], hash);
  }

  lemma FirstBegin(id: string, hash: string, worker: string)
    ensures Step(State(Unpinned(id, hash), {id}, []), Begin(Some(hash), Some(worker)))
            == State(Unpinned(id, hash), {id},
                     [Join(Some(worker), Verified(Some(Record(id, Row(hash, Worker, None)))))])
  {
    LookupOnly(id, Row(hash, Worker, None));
  }

  lemma FirstPin(id: string, hash: string, worker: string)
    requires WorkerIdOk(worker)
    ensures var join := Join(Some(worker), Verified(Some(Record(id, Row(hash, Worker, None)))));
            Step(State(Unpinned(id, hash), {id}, [join]), Resume(0))
            == State(map[id := Row(hash, Worker, Some(worker))], {id}, [Join(Some(worker), Pinning(id, true))])
  {
    assert !PinTaken(Unpinned(id, hash), worker);
    assert Updated(Unpinned(id, hash), id, worker) == map[id := Row(hash, Worker, Some(worker))];
  }

  /** A worker token and the join that has pinned it. */
  lemma FirstJoin(id: string, hash: string, worker: string) returns (events: seq<Event>)
    requires WorkerIdOk(worker)
    ensures Run(Initial, events)
            == State(map[id := Row(hash, Worker, Some(worker))], {id}, [Join(Some(worker), Pinning(id, true))])
  {
    var e0, e1, e2 := Create(id, hash, Worker), Begin(Some(hash), Some(worker)), Resume(0);
    events := [] + [e0] + [e1] + [e2];
    RunExtends([], e0);
    RunExtends([] + [e0], e1);
    RunExtends([] + [e0] + [e1], e2);
    FirstCreate(id, hash);
    FirstBegin(id, hash, worker);
    FirstPin(id, hash, worker);
  }

  /**
   * Both families `RevokedSinceRead` names are real, for every token and worker id of the allowed form:
   * a run in which a join read a pinned record before its token was revoked, and is accepted after.
   */
  lemma RevokedTokenIsAccepted(id: string, hash: string, worker: string) returns (events: seq<Event>)
    requires WorkerIdOk(worker)
    ensures WaitsOnRevoked(Run(Initial, events), 1, id) && Run(Initial, events).joins[1].phase.Verified?
    ensures var r := Run(Initial, events + [Resume(1)]);
            id !in r.rows && |r.joins| == 2 && r.joins[1].phase == Answered(Accept(id))
  {
    var first := FirstJoin(id, hash, worker);
    var row := Row(hash, Worker, Some(worker));
    var e1, e2 := Begin(Some(hash), Some(worker)), Revoke(id);
    events := first + [e1] + [e2];
    RunExtends(first, e1);
    RunExtends(first + [e1], e2);
    LookupOnly(id, row);
    var revoked := Run(Initial, events);
    assert revoked.rows == map[];
    assert revoked.joins[1] == Join(Some(worker), Verified(Some(Record(id, row))));
    RunExtends(events, Resume(1));
  }

  /** And a run in which a join read an unpinned record and pinned it, and its token was revoked before
      the answer. */
  lemma RevokedAfterPinIsAccepted(id: string, hash: string, worker: string) returns (events: seq<Event>)
    requires WorkerIdOk(worker)
    ensures WaitsOnRevoked(Run(Initial, events), 0, id)
    ensures Run(Initial, events).joins[0].phase == Pinning(id, true)
    ensures var r := Run(Initial, events + [Resume(0)]);
            id !in r.rows && |r.joins| == 1 && r.joins[0].phase == Answered(Accept(id))
  {
    var first := FirstJoin(id, hash, worker);
    events := first + [Revoke(id)];
    RunExtends(first, Revoke(id));
    assert Run(Initial, events).rows == map[];
    RunExtends(events, Resume(0));
  }
}
