/** What every run of the install queues keeps about the calls, and the theorems over all runs. */
module InstallCallRuns {
  import opened Common
  import opened InstallQueue
  import opened InstallQueueRuns

  ghost predicate Over(point: RunPoint) {
    point == Succeeded || point == Gone
  }

  /** An install lists calls that are open, each once. */
  ghost predicate ListOk(s: State, i: nat)
    requires i < |s.installs|
  {
    var list := s.installs[i].calls;
    && Distinct(list)
    && forall k :: 0 <= k < |list| ==> Open(s, list[k])
  }

  /** A call is listed, and its timer armed, while it is open; it is open no longer than its budget
      and is settled at most once. A call joins no install that has gone; one that joined after its install's success
      was settled ends by its timer or by close alone, and no other is open once its install is
      over. */
  ghost predicate CallOk(s: State, c: nat)
    requires c < |s.calls|
  {
    var call := s.calls[c];
    var install := s.installs[call.install];
    && call.arrivedAt <= s.now
    && (call.settlements == [] ==> c in install.calls && s.now <= call.arrivedAt + s.timeoutMs)
    && call.timer == (if call.settlements == [] then Some(call.arrivedAt + s.timeoutMs) else None)
    && |call.settlements| <= 1
    && (call.settlements != [] ==>
          call.arrivedAt <= call.settlements[0].at <= call.arrivedAt + s.timeoutMs)
    && call.joinedAt != Gone
    && (call.joinedAt == Succeeded ==>
          Over(install.point) && (call.settlements != [] ==> call.settlements[0].outcome in {TimedOut, Closed}))
    && (call.settlements == [] && Over(install.point) ==> call.joinedAt == Succeeded)
  }

  ghost predicate CallsOk(s: State) {
    && (forall i: nat :: i < |s.installs| ==> ListOk(s, i))
    && (forall c: nat :: c < |s.calls| ==> CallOk(s, c))
  }

  /** A call that was settled: its promise fired once more, its timer cancelled. */
  function SettledCall(call: Call, outcome: Outcome, at: nat): Call {
    call.(timer := None, settlements := call.settlements + [Settlement(outcome, at)])
  }

  /** The calls in `list` settled with `outcome` in this step, every other call as it was. */
  ghost predicate Settled(s: State, r: State, list: seq<nat>, outcome: Outcome) {
    && |r.calls| == |s.calls|
    && forall c: nat :: c < |s.calls| ==>
         r.calls[c] == if c in list then SettledCall(s.calls[c], outcome, s.now) else s.calls[c]
  }

  /** One call settled, and then the others. */
  lemma SettledChain(s: State, next: State, r: State, list: seq<nat>, outcome: Outcome)
    requires list != [] && Distinct(list) && list[0] < |s.calls| && next.now == s.now
    requires next.calls == s.calls[list[0] := SettledCall(s.calls[list[0]], outcome, s.now)]
    requires Settled(next, r, list[1..], outcome)
    ensures Settled(s, r, list, outcome)
  {
    assert forall c :: c in list <==> c == list[0] || c in list[1..];
    assert list[0] !in list[1..];
  }

  /** `#settleAll` empties the install's list, settling each call on it exactly once. */
  lemma {:induction false} SettleAllEffect(s: State, i: nat, outcome: Outcome)
    requires i < |s.installs| && Distinct(s.installs[i].calls)
    ensures var r := SettleAll(s, i, outcome);
            && SameInstalls(s, r)
            && r.installs == s.installs[i := s.installs[i].(calls := [])]
            && Settled(s, r, s.installs[i].calls, outcome)
    decreases |s.installs[i].calls|
  {
    var list := s.installs[i].calls;
    SettleAllKeeps(s, i, outcome);
    if list != [] {
      var next := Settle(s, list[0], outcome);
      assert CallOf(s.calls, list[0], i);
      assert Without(list, list[0]) == list[1..];
      SettleAllEffect(next, i, outcome);
      SettledChain(s, next, SettleAll(s, i, outcome), list, outcome);
    }
  }

  /** `r` is `s` with calls marked checked and install `i` moved to another point. */
  ghost predicate PointMoved(s: State, r: State, i: nat) {
    && r.now == s.now && r.timeoutMs == s.timeoutMs
    && i < |s.installs| == |r.installs| && |r.calls| == |s.calls|
    && (forall c: nat :: c < |s.calls| ==> r.calls[c] == s.calls[c].(checked := r.calls[c].checked))
    && (forall j: nat :: j < |s.installs| ==>
          r.installs[j].calls == s.installs[j].calls && (j != i ==> r.installs[j].point == s.installs[j].point))
    && (Over(s.installs[i].point) ==> Over(r.installs[i].point))
    && (Over(r.installs[i].point) ==> Over(s.installs[i].point) || s.installs[i].calls == [])
  }

  lemma PointMovedOk(s: State, r: State, i: nat)
    requires CallsOk(s) && PointMoved(s, r, i)
    ensures CallsOk(r)
  {
    forall j: nat | j < |r.installs|
      ensures ListOk(r, j)
    {
      assert ListOk(s, j);
    }
    forall c: nat | c < |r.calls|
      ensures CallOk(r, c)
    {
      assert CallOk(s, c);
    }
  }

  lemma SettleAllLists(s: State, i: nat, outcome: Outcome, j: nat)
    requires CallsOk(s) && i < |s.installs| && j < |s.installs| && Distinct(s.installs[i].calls)
    ensures SameInstalls(s, SettleAll(s, i, outcome)) && ListOk(SettleAll(s, i, outcome), j)
  {
    SettleAllEffect(s, i, outcome);
    assert ListOk(s, j);
    assert CallsOf(s.calls, s.installs[j].calls, j) && CallsOf(s.calls, s.installs[i].calls, i);
    if j != i {
      forall k | 0 <= k < |s.installs[j].calls|
        ensures s.installs[j].calls[k] !in s.installs[i].calls
      {
        assert CallOf(s.calls, s.installs[j].calls[k], j);
      }
    }
  }

  /** Settling the open calls of one install keeps the calls in order, whatever the outcome, as
      long as an install that is over is settled only by a timeout or by close. */
  lemma SettleAllOk(s: State, i: nat, outcome: Outcome)
    requires CallsOk(s) && i < |s.installs|
    requires Over(s.installs[i].point) ==> outcome in {TimedOut, Closed}
    ensures CallsOk(SettleAll(s, i, outcome))
    ensures SettleAll(s, i, outcome).installs == s.installs[i := s.installs[i].(calls := [])]
  {
    assert ListOk(s, i);
    SettleAllEffect(s, i, outcome);
    var r := SettleAll(s, i, outcome);
    forall j: nat | j < |r.installs|
      ensures ListOk(r, j)
    {
      SettleAllLists(s, i, outcome, j);
    }
    forall c: nat | c < |r.calls|
      ensures CallOk(r, c)
    {
      SettleAllCall(s, i, outcome, c);
    }
  }

  lemma SettleAllCall(s: State, i: nat, outcome: Outcome, c: nat)
    requires CallsOk(s) && i < |s.installs| && Distinct(s.installs[i].calls) && c < |s.calls|
    requires Over(s.installs[i].point) ==> outcome in {TimedOut, Closed}
    ensures SameInstalls(s, SettleAll(s, i, outcome)) && CallOk(SettleAll(s, i, outcome), c)
  {
    SettleAllEffect(s, i, outcome);
    assert CallOk(s, c);
    if c in s.installs[i].calls {
      assert CallsOf(s.calls, s.installs[i].calls, i);
      assert ListOk(s, i);
    }
  }

  lemma SettleLists(s: State, c: nat, outcome: Outcome, j: nat)
    requires CallsOk(s) && c < |s.calls| && j < |s.installs|
    ensures ListOk(Settle(s, c, outcome), j)
  {
    var r := Settle(s, c, outcome);
    assert ListOk(s, j);
    WithoutDistinct(s.installs[j].calls, c);
    assert CallsOf(s.calls, s.installs[j].calls, j);
    var list := r.installs[j].calls;
    forall k | 0 <= k < |list|
      ensures Open(r, list[k])
    {
      assert list[k] in list;
      assert list[k] in s.installs[j].calls;
    }
  }

  lemma SettleOk(s: State, c: nat, outcome: Outcome)
    requires CallsOk(s) && c < |s.calls|
    requires Over(s.installs[s.calls[c].install].point) ==> outcome in {TimedOut, Closed}
    ensures CallsOk(Settle(s, c, outcome))
    ensures SameInstalls(s, Settle(s, c, outcome))
  {
    var r := Settle(s, c, outcome);
    forall j: nat | j < |r.installs|
      ensures ListOk(r, j)
    {
      SettleLists(s, c, outcome, j);
    }
    assert ListOk(s, s.calls[c].install);
    WithoutDistinct(s.installs[s.calls[c].install].calls, c);
    forall d: nat | d < |r.calls|
      ensures CallOk(r, d)
    {
      assert CallOk(s, d) && CallOk(s, c);
    }
  }

  lemma PumpCalls(s: State, p: Platform)
    requires CallsOk(s)
    requires forall i: nat :: i < |s.installs| ==> Consistent(s.installs[i])
    ensures CallsOk(Pump(s, p))
  {
    var q := Queue(s, p);
    if q != [] && s.installs[q[0]].state == Waiting && p !in s.turns {
      assert Consistent(s.installs[q[0]]);
      var started := SetRun(s, q[0], Front, Checked);
      ContinueChecksEffect(started, q[0], 0);
      PointMovedOk(s, Pump(s, p), q[0]);
    }
  }

  lemma LeaveCalls(s: State, i: nat)
    requires CallsOk(s) && i < |s.installs|
    requires forall j: nat :: j < |s.installs| ==> Consistent(s.installs[j])
    requires Over(s.installs[i].point) || s.installs[i].calls == []
    ensures CallsOk(Leave(s, i))
  {
    var p := s.installs[i].platform;
    WithoutKeeps(Queue(s, p), i);
    var left: State := SetRun(s, i, Ended, Gone).(queues := s.queues[p := Without(Queue(s, p), i)]);
    PointMovedOk(s, left, i);
    PumpCalls(left, p);
  }

  lemma SettleThenLeaveCalls(s: State, i: nat, outcome: Outcome)
    requires CallsOk(s) && i < |s.installs|
    requires forall j: nat :: j < |s.installs| ==> Consistent(s.installs[j])
    requires !Over(s.installs[i].point)
    ensures |SettleAll(s, i, outcome).installs| == |s.installs|
    ensures CallsOk(Leave(SettleAll(s, i, outcome), i))
  {
    SettleAllOk(s, i, outcome);
    var r := SettleAll(s, i, outcome);
    forall j: nat | j < |r.installs|
      ensures Consistent(r.installs[j])
    {
      assert Consistent(s.installs[j]);
    }
    LeaveCalls(r, i);
  }

  lemma JoinCalls(s: State, i: nat, hasCheck: bool)
    requires CallsOk(s) && i < |s.installs| && s.installs[i].point != Gone
    ensures CallsOk(Join(s, i, hasCheck))
  {
    var r := Join(s, i, hasCheck);
    forall j: nat | j < |r.installs|
      ensures ListOk(r, j)
    {
      assert ListOk(s, j);
      assert CallsOf(s.calls, s.installs[j].calls, j);
      assert forall k :: 0 <= k < |s.installs[j].calls| ==> CallOf(s.calls, s.installs[j].calls[k], j);
    }
    forall c: nat | c < |r.calls|
      ensures CallOk(r, c)
    {
      if c < |s.calls| {
        assert CallOk(s, c);
      } else {
        assert r.installs[i].calls[|s.installs[i].calls|] == c;
      }
    }
  }

  lemma EnqueueCalls(s: State, p: Platform, component: string)
    requires CallsOk(s)
    ensures CallsOk(Enqueue(s, p, component))
  {
    var r := Enqueue(s, p, component);
    forall j: nat | j < |r.installs|
      ensures ListOk(r, j)
    {
      assert j < |s.installs| ==> ListOk(s, j);
    }
    forall c: nat | c < |r.calls|
      ensures CallOk(r, c)
    {
      assert CallOk(s, c);
    }
  }

  lemma JoinAndPumpCalls(s: State, i: nat, hasCheck: bool, p: Platform)
    requires CallsOk(s) && QueuesOk(s) && i < |s.installs| && s.installs[i].point != Gone
    ensures CallsOk(Pump(Join(s, i, hasCheck), p))
  {
    JoinCalls(s, i, hasCheck);
    JoinOk(s, i, hasCheck);
    PumpCalls(Join(s, i, hasCheck), p);
  }

  lemma ArriveCalls(s: State, p: Platform, component: string, hasCheck: bool)
    requires CallsOk(s) && QueuesOk(s) && AllMoving(s)
    ensures CallsOk(Arrive(s, p, component, hasCheck))
  {
    var found := Joinable(s, Queue(s, p), component);
    if found.Some? {
      assert Consistent(s.installs[found.value]);
      JoinAndPumpCalls(s, found.value, hasCheck, p);
    } else {
      EnqueueOk(s, p, component);
      EnqueueCalls(s, p, component);
      JoinAndPumpCalls(Enqueue(s, p, component), |s.installs|, hasCheck, p);
    }
  }

  lemma {:induction false} CloseQueueCalls(s: State, q: seq<nat>)
    requires CallsOk(s) && Below(q, |s.installs|)
    ensures CallsOk(CloseQueue(s, q))
    ensures forall i: nat :: i < |s.installs| && (i in q || s.installs[i].calls == []) ==>
              i < |CloseQueue(s, q).installs| && CloseQueue(s, q).installs[i].calls == []
    ensures forall i: nat :: i < |s.installs| && i !in q ==>
              i < |CloseQueue(s, q).installs| && CloseQueue(s, q).installs[i] == s.installs[i]
    decreases |q|
  {
    if q != [] {
      var next := SettleAll(s, q[0], Closed);
      SettleAllOk(s, q[0], Closed);
      CloseQueueCalls(next, q[1..]);
      assert forall i :: i in q <==> i == q[0] || i in q[1..];
      forall i: nat | i < |s.installs|
        ensures i != q[0] ==> next.installs[i] == s.installs[i]
        ensures i == q[0] || s.installs[i].calls == [] ==> next.installs[i].calls == []
      {
      }
    }
  }

  lemma {:induction false} CloseQueuesCalls(s: State, platforms: seq<Platform>)
    requires CallsOk(s)
    ensures CallsOk(CloseQueues(s, platforms)) && SameInstalls(s, CloseQueues(s, platforms))
    ensures forall i: nat | i < |s.installs| ::
              (s.installs[i].calls == [] || exists p :: p in platforms && i in Queue(s, p)) ==>
                CloseQueues(s, platforms).installs[i].calls == []
    ensures forall i: nat | i < |s.installs| ::
              (forall p :: p in platforms ==> i !in Queue(s, p)) ==>
                CloseQueues(s, platforms).installs[i] == s.installs[i]
    decreases |platforms|
  {
    CloseQueuesKeeps(s, platforms);
    if platforms != [] {
      var q := Queue(s, platforms[0]);
      var next := CloseQueue(s, q);
      CloseQueueKeeps(s, q);
      CloseQueueCalls(s, q);
      CloseQueuesCalls(next, platforms[1..]);
      assert forall p :: Queue(next, p) == Queue(s, p);
      assert forall p :: p in platforms <==> p == platforms[0] || p in platforms[1..];
    }
  }

  lemma SettleThenSucceedCalls(s: State, i: nat, outcome: Outcome, state: InstallState)
    requires CallsOk(s) && i < |s.installs| && !Over(s.installs[i].point)
    ensures |SettleAll(s, i, outcome).installs| == |s.installs|
    ensures CallsOk(SetRun(SettleAll(s, i, outcome), i, state, Succeeded))
  {
    SettleAllOk(s, i, outcome);
    var settled := SettleAll(s, i, outcome);
    PointMovedOk(settled, SetRun(settled, i, state, Succeeded), i);
  }

  lemma AfterDriverCalls(s: State, i: nat, result: DriverResult)
    requires CallsOk(s) && At(s, i, Driving)
    ensures CallsOk(AfterDriver(s, i, result))
  {
    if result == DriverAlreadyInstalled {
      SettleThenSucceedCalls(s, i, AlreadyInstalled, s.installs[i].state);
    } else {
      PointMovedOk(s, AfterDriver(s, i, result), i);
    }
  }

  lemma AfterCommitCalls(s: State, i: nat, ok: bool)
    requires CallsOk(s) && At(s, i, Committing)
    ensures CallsOk(AfterCommit(s, i, ok))
  {
    if ok {
      SettleThenSucceedCalls(s, i, Installed, s.installs[i].state);
    } else {
      PointMovedOk(s, AfterCommit(s, i, ok), i);
    }
  }

  lemma AfterChecksCalls(s: State, i: nat)
    requires CallsOk(s) && QueuesOk(s) && At(s, i, Checked)
    ensures CallsOk(AfterChecks(s, i))
  {
    if s.installs[i].calls == [] {
      LeaveCalls(s, i);
    } else {
      PointMovedOk(s, AfterChecks(s, i), i);
    }
  }

  lemma AfterFindCalls(s: State, i: nat, found: FindResult)
    requires CallsOk(s) && QueuesOk(s) && At(s, i, Finding)
    ensures CallsOk(AfterFind(s, i, found))
  {
    if found != MissingComponent {
      SettleThenLeaveCalls(s, i, if found == FoundComponent then AlreadyInstalled else InstallError);
    } else if s.installs[i].calls == [] {
      LeaveCalls(s, i);
    } else {
      PointMovedOk(s, AfterFind(s, i, found), i);
    }
  }

  lemma AfterReserveCalls(s: State, i: nat, ok: bool)
    requires CallsOk(s) && QueuesOk(s) && At(s, i, Reserving)
    ensures CallsOk(AfterReserve(s, i, ok))
  {
    if !ok {
      SettleThenLeaveCalls(s, i, InstallError);
    } else if s.installs[i].calls == [] {
      LeaveCalls(s, i);
    } else {
      PointMovedOk(s, AfterReserve(s, i, ok), i);
    }
  }

  lemma ExpireCalls(s: State, c: nat)
    requires CallsOk(s) && c < |s.calls|
    ensures CallsOk(Expire(s, c))
  {
    var i := s.calls[c].install;
    if s.installs[i].state == Running {
      var ended := SetRun(s, i, Ended, s.installs[i].point);
      PointMovedOk(s, ended, i);
      SettleAllOk(ended, i, TimedOut);
    } else {
      SettleOk(s, c, TimedOut);
    }
  }

  lemma SettleAllIgnoresTimer(s: State, i: nat, c: nat, outcome: Outcome)
    requires i < |s.installs| && Distinct(s.installs[i].calls) && c in s.installs[i].calls && c < |s.calls|
    ensures SettleAll(Disarmed(s, c), i, outcome) == SettleAll(s, i, outcome)
  {
    SettleAllEffect(s, i, outcome);
    SettleAllEffect(Disarmed(s, c), i, outcome);
    assert SettleAll(Disarmed(s, c), i, outcome).calls == SettleAll(s, i, outcome).calls;
  }

  /** Settling a call cancels its timer, so expiry leaves the same state whether or not the timer
      that fired was still armed. */
  lemma ExpireIgnoresTimer(s: State, c: nat)
    requires CallsOk(s) && Open(s, c)
    ensures Expire(Disarmed(s, c), c) == Expire(s, c)
  {
    var i := s.calls[c].install;
    assert CallOk(s, c) && ListOk(s, i);
    if s.installs[i].state == Running {
      var ended := SetRun(s, i, Ended, s.installs[i].point);
      SettleAllIgnoresTimer(ended, i, c, TimedOut);
    }
  }

  lemma TimerCalls(s: State, c: nat)
    requires CallsOk(s) && Enabled(s, Timer(c))
    ensures CallsOk(Step(s, Timer(c)))
  {
    assert CallOk(s, c);
    ExpireIgnoresTimer(s, c);
    ExpireCalls(s, c);
  }

  lemma CheckCalls(s: State, i: nat, answer: CheckAnswer)
    requires CallsOk(s) && i < |s.installs| && s.installs[i].point.Checking?
    ensures CallsOk(AfterCheck(s, i, answer))
  {
    var c := s.installs[i].point.call;
    var outcome := if answer == NoLongerNeeded then NotNeeded else InstallError;
    assert CallOf(s.calls, c, i);
    SettleOk(s, c, outcome);
    var settled := if answer == StillNeeded then s else Settle(s, c, outcome);
    ContinueChecksEffect(settled, i, 0);
    PointMovedOk(settled, AfterCheck(s, i, answer), i);
  }

  lemma ClockCalls(s: State, r: State)
    requires CallsOk(s) && r.installs == s.installs && r.calls == s.calls && r.timeoutMs == s.timeoutMs
    requires s.now <= r.now && NoTimerDueBefore(s, r.now)
    ensures CallsOk(r)
  {
    forall j: nat | j < |r.installs|
      ensures ListOk(r, j)
    {
      assert ListOk(s, j);
    }
    forall c: nat | c < |r.calls|
      ensures CallOk(r, c)
    {
      assert CallOk(s, c);
      assert Armed(s, c) ==> r.now <= s.calls[c].timer.value;
    }
  }

  lemma TimersNotDue(s: State)
    requires CallsOk(s)
    ensures NoTimerDueBefore(s, s.now)
  {
    forall c: nat | Armed(s, c)
      ensures s.now <= s.calls[c].timer.value
    {
      assert CallOk(s, c);
    }
  }

  lemma RunCallStep(s: State, e: Event)
    requires CallsOk(s) && QueuesOk(s) && AllMoving(s) && Enabled(s, e) && OfRun(e)
    ensures CallsOk(Step(s, e))
  {
    match e
    case CheckReturned(i, answer) => CheckCalls(s, i, answer);
    case ChecksDone(i) => AfterChecksCalls(s, i);
    case FindReturned(i, found) => AfterFindCalls(s, i, found);
    case ReserveReturned(i, ok) => AfterReserveCalls(s, i, ok);
    case DriverReturned(i, result) => AfterDriverCalls(s, i, result);
    case CommitReturned(i, ok) => AfterCommitCalls(s, i, ok);
    case Resume(i) => AfterRunDriverCalls(s, i);
  }

  lemma TurnCalls(s: State, p: Platform)
    requires CallsOk(s) && QueuesOk(s)
    ensures CallsOk(s.(turns := s.turns + {p})) && CallsOk(Pump(s.(turns := s.turns - {p}), p))
  {
    TimersNotDue(s);
    ClockCalls(s, s.(turns := s.turns + {p}));
    ClockCalls(s, s.(turns := s.turns - {p}));
    PumpCalls(s.(turns := s.turns - {p}), p);
  }

  lemma CloseCalls(s: State, platforms: seq<Platform>)
    requires CallsOk(s)
    ensures CallsOk(CloseQueues(s.(closed := true), platforms))
  {
    TimersNotDue(s);
    ClockCalls(s, s.(closed := true));
    CloseQueuesCalls(s.(closed := true), platforms);
  }

  lemma CallStep(s: State, e: Event)
    requires CallsOk(s) && QueuesOk(s) && AllMoving(s)
    ensures CallsOk(Step(s, e))
  {
    if Enabled(s, e) {
      match e
      case Arrival(p, component, hasCheck) => ArriveCalls(s, p, component, hasCheck);
      case Timer(c) => TimerCalls(s, c);
      case Tick(to) => ClockCalls(s, s.(now := to));
      case TakeTurn(p) => TurnCalls(s, p);
      case GiveTurn(p) => TurnCalls(s, p);
      case Close(platforms) => CloseCalls(s, platforms);
      case _ => RunCallStep(s, e);
    }
  }

  lemma AfterRunDriverCalls(s: State, i: nat)
    requires CallsOk(s) && QueuesOk(s) && AllMoving(s)
    requires At(s, i, Succeeded) || At(s, i, Failed)
    ensures CallsOk(AfterRunDriver(s, i))
  {
    if s.installs[i].point == Succeeded {
      LeaveCalls(s, i);
    } else {
      SettleThenLeaveCalls(s, i, InstallError);
    }
  }

  /** What starting the head of a queue can change: which calls are checked, and a waiting install. */
  ghost predicate Pumped(s: State, r: State) {
    && r.now == s.now && r.timeoutMs == s.timeoutMs && r.queues == s.queues && r.turns == s.turns
    && |r.calls| == |s.calls| && |r.installs| == |s.installs|
    && (forall c: nat :: c < |s.calls| ==> r.calls[c] == s.calls[c].(checked := r.calls[c].checked))
    && (forall i: nat :: i < |s.installs| ==>
          r.installs[i] == s.installs[i].(state := r.installs[i].state, point := r.installs[i].point))
    && (forall i: nat :: i < |s.installs| ==>
          r.installs[i] == s.installs[i] || (s.installs[i].state == Waiting && r.installs[i].state == Front))
  }

  lemma PumpEffect(s: State, p: Platform)
    ensures Pumped(s, Pump(s, p))
  {
    var q := Queue(s, p);
    if q != [] && s.installs[q[0]].state == Waiting && p !in s.turns {
      ContinueChecksEffect(SetRun(s, q[0], Front, Checked), q[0], 0);
    }
  }

  lemma LeaveTimeout(s: State, i: nat)
    requires i < |s.installs|
    ensures Leave(s, i).timeoutMs == s.timeoutMs
  {
    var p := s.installs[i].platform;
    WithoutKeeps(Queue(s, p), i);
    PumpEffect(SetRun(s, i, Ended, Gone).(queues := s.queues[p := Without(Queue(s, p), i)]), p);
  }

  lemma ArriveTimeout(s: State, p: Platform, component: string, hasCheck: bool)
    ensures Arrive(s, p, component, hasCheck).timeoutMs == s.timeoutMs
  {
    match Joinable(s, Queue(s, p), component)
    case Some(i) => PumpEffect(Join(s, i, hasCheck), p);
    case None => PumpEffect(Join(Enqueue(s, p, component), |s.installs|, hasCheck), p);
  }

  lemma CheckTimeout(s: State, i: nat, answer: CheckAnswer)
    requires i < |s.installs| && s.installs[i].point.Checking?
    ensures AfterCheck(s, i, answer).timeoutMs == s.timeoutMs
  {
    var outcome := if answer == NoLongerNeeded then NotNeeded else InstallError;
    ContinueChecksEffect(if answer == StillNeeded then s else Settle(s, s.installs[i].point.call, outcome), i, 0);
  }

  lemma ExpireTimeout(s: State, c: nat)
    requires c < |s.calls|
    ensures Expire(s, c).timeoutMs == s.timeoutMs
  {
    var i := s.calls[c].install;
    SettleAllKeeps(SetRun(s, i, Ended, s.installs[i].point), i, TimedOut);
  }

  lemma RunKeepsTimeout(s: State, e: Event)
    requires Enabled(s, e) && OfRun(e)
    ensures Step(s, e).timeoutMs == s.timeoutMs
  {
    match e
    case CheckReturned(i, answer) => CheckTimeout(s, i, answer);
    case ChecksDone(i) => LeaveTimeout(s, i);
    case FindReturned(i, found) => FindTimeout(s, i, found);
    case ReserveReturned(i, ok) => ReserveTimeout(s, i, ok);
    case DriverReturned(i, _) => SettleAllKeeps(s, i, AlreadyInstalled);
    case CommitReturned(i, _) => SettleAllKeeps(s, i, Installed);
    case Resume(i) => RunDriverTimeout(s, i);
  }

  lemma StepKeepsTimeout(s: State, e: Event)
    ensures Step(s, e).timeoutMs == s.timeoutMs
  {
    if Enabled(s, e) {
      match e
      case Arrival(p, component, hasCheck) => ArriveTimeout(s, p, component, hasCheck);
      case Timer(c) => ExpireTimeout(Disarmed(s, c), c);
      case Tick(_) =>
      case TakeTurn(_) =>
      case GiveTurn(p) => PumpEffect(s.(turns := s.turns - {p}), p);
      case Close(platforms) => CloseQueuesKeeps(s.(closed := true), platforms);
      case _ => RunKeepsTimeout(s, e);
    }
  }

  lemma SettledLeaveTimeout(s: State, i: nat, outcome: Outcome)
    requires i < |s.installs|
    ensures |SettleAll(s, i, outcome).installs| == |s.installs|
    ensures Leave(SettleAll(s, i, outcome), i).timeoutMs == s.timeoutMs
  {
    SettleAllKeeps(s, i, outcome);
    LeaveTimeout(SettleAll(s, i, outcome), i);
  }

  lemma FindTimeout(s: State, i: nat, found: FindResult)
    requires i < |s.installs|
    ensures AfterFind(s, i, found).timeoutMs == s.timeoutMs
  {
    LeaveTimeout(s, i);
    SettledLeaveTimeout(s, i, if found == FoundComponent then AlreadyInstalled else InstallError);
  }

  lemma ReserveTimeout(s: State, i: nat, ok: bool)
    requires i < |s.installs|
    ensures AfterReserve(s, i, ok).timeoutMs == s.timeoutMs
  {
    LeaveTimeout(s, i);
    SettledLeaveTimeout(s, i, InstallError);
  }

  lemma RunDriverTimeout(s: State, i: nat)
    requires i < |s.installs|
    ensures AfterRunDriver(s, i).timeoutMs == s.timeoutMs
  {
    LeaveTimeout(s, i);
    SettledLeaveTimeout(s, i, InstallError);
  }

  // ---------------------------------------------------------------- theorems over every run

  lemma {:induction false} RunOk(timeoutMs: nat, events: seq<Event>)
    ensures var s := Run(timeoutMs, events);
            QueuesOk(s) && AllMoving(s) && CallsOk(s) && s.timeoutMs == timeoutMs
  {
    if events == [] {
      var s := Initial(timeoutMs);
      forall p
        ensures QueueOk(s, p) && Moving(s, p)
      {
      }
    } else {
      var before := events[..|events| - 1];
      RunOk(timeoutMs, before);
      QueueStep(Run(timeoutMs, before), events[|events| - 1]);
      CallStep(Run(timeoutMs, before), events[|events| - 1]);
      StepKeepsTimeout(Run(timeoutMs, before), events[|events| - 1]);
    }
  }

  ghost predicate Started(install: Install) {
    install.point != NotStarted
  }

  /** An install run is active from its start until it leaves the queue. */
  ghost predicate Active(s: State, i: nat) {
    i < |s.installs| && Started(s.installs[i]) && s.installs[i].point != Gone
  }

  /**
   * Per platform, at most one of {an install run, a removal} is active; the active install is the
   * head of the queue, even after it timed out; and an install starts only after every install
   * made before it on its platform has left. A free platform never sits on a waiting queue.
   */
  lemma {:induction false} OneAtATimeInArrivalOrder(timeoutMs: nat, events: seq<Event>)
    ensures var s := Run(timeoutMs, events);
            && (forall i: nat, j: nat | Active(s, i) && Active(s, j) ::
                  s.installs[i].platform == s.installs[j].platform ==> i == j)
            && (forall i: nat | Active(s, i) ::
                  && s.installs[i].platform !in s.turns
                  && Queue(s, s.installs[i].platform) != []
                  && Queue(s, s.installs[i].platform)[0] == i)
            && (forall i: nat, j: nat | i < j < |s.installs| && s.installs[i].platform == s.installs[j].platform ::
                  Started(s.installs[j]) ==> s.installs[i].point == Gone)
            && (forall p | p !in s.turns && Queue(s, p) != [] :: Active(s, Queue(s, p)[0]))
  {
    var s := Run(timeoutMs, events);
    RunOk(timeoutMs, events);
    forall i: nat | Active(s, i)
      ensures s.installs[i].platform !in s.turns
      ensures Queue(s, s.installs[i].platform) != [] && Queue(s, s.installs[i].platform)[0] == i
    {
      StartedIsHead(s, i);
    }
    forall i: nat, j: nat | i < j < |s.installs| && s.installs[i].platform == s.installs[j].platform
                            && Started(s.installs[j])
      ensures s.installs[i].point == Gone
    {
      if Active(s, j) {
        StartedIsHead(s, j);
        assert QueueOk(s, s.installs[j].platform);
      }
    }
    forall p | p !in s.turns && Queue(s, p) != []
      ensures Active(s, Queue(s, p)[0])
    {
      assert QueueOk(s, p) && Moving(s, p);
    }
  }

  /**
   * Every admitted call is settled at most once, is in its install's list and has its timer armed
   * exactly while it is not settled, and is settled no later than `timeoutMs` after it arrived.
   * `InstallTime` shows that timers do the settling and that time is never stuck before one.
   */
  lemma {:induction false} CallsSettledOnceInTime(timeoutMs: nat, events: seq<Event>, c: nat)
    requires c < |Run(timeoutMs, events).calls|
    ensures InBudget(Run(timeoutMs, events), c, timeoutMs)
  {
    RunOk(timeoutMs, events);
    CallInBudget(Run(timeoutMs, events), c);
  }

  ghost predicate InBudget(s: State, c: nat, timeoutMs: nat)
    requires c < |s.calls|
  {
    var call := s.calls[c];
    && |call.settlements| <= 1
    && (call.settlements == [] <==> c in s.installs[call.install].calls)
    && call.timer == (if call.settlements == [] then Some(call.arrivedAt + timeoutMs) else None)
    && (s.now > call.arrivedAt + timeoutMs ==> |call.settlements| == 1)
    && (|call.settlements| == 1 ==> call.settlements[0].at <= call.arrivedAt + timeoutMs)
  }

  lemma CallInBudget(s: State, c: nat)
    requires CallsOk(s) && c < |s.calls|
    ensures InBudget(s, c, s.timeoutMs)
  {
    assert CallOk(s, c);
    assert ListOk(s, s.calls[c].install);
  }

  /**
   * An admitted call joins the one live install of its component when there is one, and never an
   * install that has ended. The new call is the last one.
   */
  lemma {:induction false} JoinsTheLiveInstall(
    timeoutMs: nat, events: seq<Event>, p: Platform, component: string, hasCheck: bool)
    requires !Run(timeoutMs, events).closed
    ensures var s := Run(timeoutMs, events);
            JoinedLive(s, Step(s, Arrival(p, component, hasCheck)), p, component)
  {
    RunOk(timeoutMs, events);
    ArriveJoins(Run(timeoutMs, events), p, component, hasCheck);
  }

  lemma JoinsAt(s: State, i: nat, hasCheck: bool, p: Platform)
    requires i < |s.installs|
    ensures var r := Pump(Join(s, i, hasCheck), p);
            && |r.calls| == |s.calls| + 1 && |r.installs| == |s.installs| && r.calls[|s.calls|].install == i
            && r.installs[i].platform == s.installs[i].platform
            && r.installs[i].component == s.installs[i].component
  {
    PumpEffect(Join(s, i, hasCheck), p);
  }

  lemma ArriveJoins(s: State, p: Platform, component: string, hasCheck: bool)
    requires QueuesOk(s)
    ensures JoinedLive(s, Arrive(s, p, component, hasCheck), p, component)
  {
    var found := Joinable(s, Queue(s, p), component);
    if found.Some? {
      assert QueueOk(s, p);
      JoinsAt(s, found.value, hasCheck, p);
    } else {
      JoinsAt(Enqueue(s, p, component), |s.installs|, hasCheck, p);
      NoneJoinable(s, p, component);
    }
  }

  /** The new call, the last one, is on an install that has not ended, or on a new one when all had. */
  ghost predicate JoinedLive(s: State, r: State, p: Platform, component: string) {
    && |r.calls| == |s.calls| + 1
    && var i := r.calls[|s.calls|].install;
    && r.installs[i].platform == p && r.installs[i].component == component
    && (i < |s.installs| ==> s.installs[i].state != Ended)
    && (i >= |s.installs| ==> AllEnded(s, p, component))
  }

  /** Every install of a component has ended. */
  ghost predicate AllEnded(s: State, p: Platform, component: string) {
    forall j: nat | j < |s.installs| && s.installs[j].platform == p && s.installs[j].component == component ::
      s.installs[j].state == Ended
  }

  lemma NoneJoinable(s: State, p: Platform, component: string)
    requires Global(s) && Joinable(s, Queue(s, p), component).None?
    ensures AllEnded(s, p, component)
  {
    forall j: nat | j < |s.installs| && s.installs[j].platform == p && s.installs[j].component == component
      ensures s.installs[j].state == Ended
    {
      assert Consistent(s.installs[j]);
      assert s.installs[j].point != Gone ==> j in Queue(s, p);
    }
  }

  /**
   * The source promises that close rejects every open call. It does so exactly for the calls
   * whose install is still in a queue: a call stays open if and only if its install had left.
   */
  lemma {:induction false} CloseSettlesExactlyTheQueued(
    timeoutMs: nat, events: seq<Event>, platforms: seq<Platform>, c: nat)
    requires Enabled(Run(timeoutMs, events), Close(platforms)) && Open(Run(timeoutMs, events), c)
    ensures var s := Run(timeoutMs, events);
            var r := Step(s, Close(platforms));
            Open(r, c) <==> s.installs[s.calls[c].install].point == Gone
  {
    RunOk(timeoutMs, events);
    CloseSettlesQueued(Run(timeoutMs, events), platforms, c);
  }

  lemma CloseSettlesQueued(s: State, platforms: seq<Platform>, c: nat)
    requires QueuesOk(s) && AllMoving(s) && CallsOk(s) && Enabled(s, Close(platforms)) && Open(s, c)
    ensures Open(Step(s, Close(platforms)), c) <==> s.installs[s.calls[c].install].point == Gone
  {
    var i := s.calls[c].install;
    var p := s.installs[i].platform;
    var closed: State := s.(closed := true);
    TimersNotDue(s);
    ClockCalls(s, closed);
    CloseQueuesCalls(closed, platforms);
    var r := Step(s, Close(platforms));
    assert CallOk(s, c) && CallOk(r, c);
    if s.installs[i].point != Gone {
      assert i in Queue(closed, p);
    } else {
      forall o | o in platforms
        ensures i !in Queue(closed, o)
      {
        assert QueueOk(s, o);
      }
      assert ListOk(r, i);
    }
  }

  /**
   * The family `CloseSettlesExactlyTheQueued` leaves out is real, and it is this one: an install
   * that has gone has an open call only if the call joined after the success of the install was
   * settled and before the install left its queue, and such a call ends only by its timer or by
   * a close that comes before the install leaves.
   */
  lemma GoneInstallsHoldOnlyLateCalls(timeoutMs: nat, events: seq<Event>, c: nat)
    requires c < |Run(timeoutMs, events).calls|
    ensures var s := Run(timeoutMs, events);
            var call := s.calls[c];
            && (Open(s, c) && s.installs[call.install].point == Gone ==> call.joinedAt == Succeeded)
            && (call.joinedAt == Succeeded && !Open(s, c) ==> call.settlements[0].outcome in {TimedOut, Closed})
  {
    RunOk(timeoutMs, events);
    assert CallOk(Run(timeoutMs, events), c);
  }

  lemma RunExtends(timeoutMs: nat, events: seq<Event>, e: Event)
    ensures Run(timeoutMs, events + [e]) == Step(Run(timeoutMs, events), e)
  {
    assert (events + [e])[..|events|] == events;
  }

  lemma LateCallJoins(s: State, i: nat, hasCheck: bool)
    requires QueuesOk(s) && At(s, i, Succeeded) && s.installs[i].state != Ended
    ensures Arrive(s, s.installs[i].platform, s.installs[i].component, hasCheck) == Join(s, i, hasCheck)
  {
    var p, component := s.installs[i].platform, s.installs[i].component;
    StartedIsHead(s, i);
    assert Joinable(s, Queue(s, p), component) == Some(i);
    assert s.installs[i].state != Waiting by { assert Consistent(s.installs[i]); }
  }

  lemma ResumeLeaves(s: State, i: nat)
    requires At(s, i, Succeeded)
    ensures Step(s, Resume(i)) == Leave(s, i)
  {
  }

  lemma LateArrival(s: State, i: nat, hasCheck: bool)
    requires QueuesOk(s) && !s.closed && At(s, i, Succeeded) && s.installs[i].state != Ended
    ensures Step(s, Arrival(s.installs[i].platform, s.installs[i].component, hasCheck)) == Join(s, i, hasCheck)
  {
    LateCallJoins(s, i, hasCheck);
  }

  lemma {:induction false} LateCallSteps(s: State, i: nat, hasCheck: bool)
    requires QueuesOk(s) && !s.closed && At(s, i, Succeeded) && s.installs[i].state != Ended
    ensures var joined := Step(s, Arrival(s.installs[i].platform, s.installs[i].component, hasCheck));
            var r := Step(joined, Resume(i));
            Open(r, |s.calls|) && r.calls[|s.calls|].install == i && At(r, i, Gone)
  {
    var joined := Join(s, i, hasCheck);
    LateArrival(s, i, hasCheck);
    ResumeLeaves(joined, i);
    LeaveKeepsCalls(joined, i);
  }

  /**
   * Any call that arrives for a component while its install is between settling its success and
   * leaving the queue is left open by the install's end and by a close after it.
   */
  lemma {:induction false} LateCallOutlivesInstallAndClose(
    timeoutMs: nat, events: seq<Event>, i: nat, hasCheck: bool, platforms: seq<Platform>)
    requires var s := Run(timeoutMs, events);
             !s.closed && At(s, i, Succeeded) && s.installs[i].state != Ended
    ensures var s := Run(timeoutMs, events);
            var left := events + [Arrival(s.installs[i].platform, s.installs[i].component, hasCheck)] + [Resume(i)];
            Open(Run(timeoutMs, left + [Close(platforms)]), |s.calls|)
  {
    var s := Run(timeoutMs, events);
    var arrival := Arrival(s.installs[i].platform, s.installs[i].component, hasCheck);
    var left := events + [arrival] + [Resume(i)];
    RunOk(timeoutMs, events);
    RunExtends(timeoutMs, events, arrival);
    RunExtends(timeoutMs, events + [arrival], Resume(i));
    LateCallSteps(s, i, hasCheck);
    RunExtends(timeoutMs, left, Close(platforms));
    if Enabled(Run(timeoutMs, left), Close(platforms)) {
      CloseSettlesExactlyTheQueued(timeoutMs, left, platforms, |s.calls|);
    }
  }

  lemma LeaveKeepsCalls(s: State, i: nat)
    requires i < |s.installs|
    ensures var r := Leave(s, i);
            && |r.calls| == |s.calls| && |r.installs| == |s.installs| && At(r, i, Gone)
            && forall c: nat :: c < |s.calls| ==> r.calls[c] == s.calls[c].(checked := r.calls[c].checked)
  {
    var p := s.installs[i].platform;
    WithoutKeeps(Queue(s, p), i);
    PumpEffect(SetRun(s, i, Ended, Gone).(queues := s.queues[p := Without(Queue(s, p), i)]), p);
  }

  /** A state with one install and one call. */
  function OneOfEach(install: Install, call: Call): State
    requires install.calls in {[], [0]} && !install.point.Checking? && call.install == 0
  {
    Raw(0, 60000, false, map["ios" := [0]], [install], [call], {})
  }

  const First: Install := Install("ios", "18", 0, [0], Front, Checked)
  const Caller: Call := Call(0, 0, false, true, NotStarted, Some(60000), [])

  const Unchecked: Call := Caller.(checked := false)

  lemma EnqueuesAlone()
    ensures var queued := Enqueue(Initial(60000), "ios", "18");
            && queued == Initial(60000).(installs := queued.installs, queues := map["ios" := [0]])
            && queued.installs == [First.(state := Waiting, point := NotStarted, calls := [])]
  {
    assert [] + [0] == [0];
    assert map[]["ios" := [0]] == map["ios" := [0]];
  }

  lemma JoinsAlone()
    ensures Join(Enqueue(Initial(60000), "ios", "18"), 0, false)
            == OneOfEach(First.(state := Waiting, point := NotStarted), Unchecked)
  {
    EnqueuesAlone();
    var waiting := First.(state := Waiting, point := NotStarted);
    assert [waiting.(calls := [])][0 := waiting] == [waiting];
    assert [] + [0] == [0] && [] + [Unchecked] == [Unchecked];
  }

  lemma ChecksAlone()
    ensures ContinueChecks(OneOfEach(First, Unchecked), 0, 0) == OneOfEach(First, Caller)
  {
    var s, marked := OneOfEach(First, Unchecked), OneOfEach(First, Caller);
    assert s.calls[0 := Caller] == [Caller];
    assert ContinueChecks(s, 0, 0) == ContinueChecks(marked, 0, 1);
    assert marked.installs[0 := First] == [First];
  }

  lemma StartsAlone()
    ensures Pump(OneOfEach(First.(state := Waiting, point := NotStarted), Unchecked), "ios")
            == OneOfEach(First, Caller)
  {
    var s := OneOfEach(First.(state := Waiting, point := NotStarted), Unchecked);
    assert SetRun(s, 0, Front, Checked) == OneOfEach(First, Unchecked) by {
      assert s.installs[0 := First] == [First];
    }
    ChecksAlone();
  }

  lemma ArrivesAlone()
    ensures Step(Initial(60000), Arrival("ios", "18", false)) == OneOfEach(First, Caller)
  {
    JoinsAlone();
    StartsAlone();
  }

  /** The steps of the run up to the driver. */
  lemma PassesChecks()
    ensures Step(OneOfEach(First, Caller), ChecksDone(0)) == OneOfEach(First.(point := Finding), Caller)
  {
    assert [First][0 := First.(point := Finding)] == [First.(point := Finding)];
  }

  lemma FindsNothing()
    ensures Step(OneOfEach(First.(point := Finding), Caller), FindReturned(0, MissingComponent))
            == OneOfEach(First.(point := Reserving), Caller)
  {
    assert [First.(point := Finding)][0 := First.(point := Reserving)] == [First.(point := Reserving)];
  }

  lemma GetsToTheDriver()
    ensures Step(OneOfEach(First.(point := Reserving), Caller), ReserveReturned(0, true))
            == OneOfEach(First.(state := Running, point := Driving), Caller)
  {
    var driving := First.(state := Running, point := Driving);
    assert [First.(point := Reserving)][0 := driving] == [driving];
  }

  const Served: Call := Caller.(timer := None, settlements := [Settlement(AlreadyInstalled, 0)])

  lemma SettlesAlone(install: Install)
    requires install.calls == [0] && !install.point.Checking?
    ensures SettleAll(OneOfEach(install, Caller), 0, AlreadyInstalled) == OneOfEach(install.(calls := []), Served)
  {
    var s := OneOfEach(install, Caller);
    assert Without([0], 0) == [] && [] + [Settlement(AlreadyInstalled, 0)] == [Settlement(AlreadyInstalled, 0)];
    assert Settle(s, 0, AlreadyInstalled) == OneOfEach(install.(calls := []), Served) by {
      assert s.calls[0 := Served] == [Served];
      assert s.installs[0 := install.(calls := [])] == [install.(calls := [])];
    }
  }

  lemma DriverServes()
    ensures var driving := First.(state := Running, point := Driving);
            Step(OneOfEach(driving, Caller), DriverReturned(0, DriverAlreadyInstalled))
            == OneOfEach(driving.(point := Succeeded, calls := []), Served)
  {
    var driving := First.(state := Running, point := Driving);
    SettlesAlone(driving);
    var served := driving.(point := Succeeded, calls := []);
    assert [driving.(calls := [])][0 := served] == [served];
  }

  /** The state `LateCallOutlivesInstallAndClose` starts from is reached. */
  lemma SuccessIsReached() returns (events: seq<Event>)
    ensures var s := Run(60000, events);
            !s.closed && At(s, 0, Succeeded) && s.installs[0].state != Ended
  {
    var e0, e1, e2 := Arrival("ios", "18", false), ChecksDone(0), FindReturned(0, MissingComponent);
    var e3, e4 := ReserveReturned(0, true), DriverReturned(0, DriverAlreadyInstalled);
    events := [] + [e0] + [e1] + [e2] + [e3] + [e4];
    RunExtends(60000, [], e0);
    RunExtends(60000, [] + [e0], e1);
    RunExtends(60000, [] + [e0] + [e1], e2);
    RunExtends(60000, [] + [e0] + [e1] + [e2], e3);
    RunExtends(60000, [] + [e0] + [e1] + [e2] + [e3], e4);
    ArrivesAlone();
    PassesChecks();
    FindsNothing();
    GetsToTheDriver();
    DriverServes();
  }
}
