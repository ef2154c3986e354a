/** What every run of the install queues keeps. */
module InstallQueueRuns {
  import opened Common
  import opened InstallQueue

  // ---------------------------------------------------------------- queues and turns

  ghost predicate Consistent(install: Install) {
    match install.point
    case NotStarted => install.state == Waiting
    case Checking(_) => install.state == Front
    case Checked => install.state == Front
    case Finding => install.state == Front
    case Reserving => install.state == Front
    case Driving => install.state in {Running, Ended}
    case Committing => install.state in {Recording, Ended}
    case Succeeded => install.state in {Running, Recording, Ended}
    case Failed => install.state in {Running, Recording, Ended}
    case Gone => install.state == Ended
  }

  /** A queue holds its platform's installs in the order they were made; only the head has
      started, and not even the head while a removal holds the turn. */
  ghost predicate QueueOk(s: State, p: Platform) {
    var q := Queue(s, p);
    && Ascending(q)
    && (forall k :: 0 <= k < |q| ==> s.installs[q[k]].platform == p && s.installs[q[k]].point != Gone)
    && (forall k :: 0 < k < |q| ==> s.installs[q[k]].point == NotStarted)
    && (q != [] && p in s.turns ==> s.installs[q[0]].point == NotStarted)
  }

  /** Nothing waits at the head of a queue whose turn is free. */
  ghost predicate Moving(s: State, p: Platform) {
    Queue(s, p) != [] && p !in s.turns ==> s.installs[Queue(s, p)[0]].point != NotStarted
  }

  ghost predicate Placed(s: State) {
    forall i: nat :: i < |s.installs| && s.installs[i].point != Gone ==>
      i in Queue(s, s.installs[i].platform)
  }

  ghost predicate StartOrder(s: State) {
    forall i: nat, j: nat ::
      (i < j < |s.installs| && s.installs[i].platform == s.installs[j].platform && s.installs[j].point == Gone) ==>
        s.installs[i].point == Gone
  }

  ghost predicate OneJoinable(s: State) {
    forall i: nat, j: nat ::
      (i < j < |s.installs| && s.installs[i].platform == s.installs[j].platform
       && s.installs[i].component == s.installs[j].component) ==>
        s.installs[i].state == Ended || s.installs[j].state == Ended
  }

  ghost predicate Global(s: State) {
    && (forall i: nat :: i < |s.installs| ==> Consistent(s.installs[i]))
    && Placed(s) && StartOrder(s) && OneJoinable(s)
  }

  ghost predicate QueuesOk(s: State) {
    && Global(s)
    && forall p :: QueueOk(s, p)
  }

  ghost predicate AllMoving(s: State) {
    forall p :: Moving(s, p)
  }

  /** `r` has the installs of `s` except for install `i`, which is where `state` and `point` say. */
  ghost predicate Moved(s: State, r: State, i: nat, state: InstallState, point: RunPoint) {
    && i < |s.installs| == |r.installs|
    && r.queues == s.queues && r.turns == s.turns
    && (forall j: nat :: j < |s.installs| && j != i ==>
          r.installs[j] == s.installs[j].(calls := r.installs[j].calls))
    && r.installs[i] == s.installs[i].(calls := r.installs[i].calls, state := state, point := point)
  }

  lemma GlobalMoved(s: State, r: State, i: nat, state: InstallState, point: RunPoint)
    requires Global(s) && Moved(s, r, i, state, point)
    requires point == s.installs[i].point || (s.installs[i].point != Gone && point != Gone)
    requires state == Ended || s.installs[i].state != Ended
    requires Consistent(r.installs[i])
    ensures Global(r)
  {
  }

  lemma MovedQueue(s: State, r: State, i: nat, state: InstallState, point: RunPoint, p: Platform)
    requires QueueOk(s, p) && Moving(s, p) && Moved(s, r, i, state, point)
    requires || point == s.installs[i].point
             || (s.installs[i].point !in {NotStarted, Gone} && point !in {NotStarted, Gone})
    ensures QueueOk(r, p) && Moving(r, p)
  {
    assert Queue(r, p) == Queue(s, p);
  }

  lemma MovedOk(s: State, r: State, i: nat, state: InstallState, point: RunPoint)
    requires QueuesOk(s) && AllMoving(s)
    requires Moved(s, r, i, state, point)
    requires || point == s.installs[i].point
             || (s.installs[i].point !in {NotStarted, Gone} && point !in {NotStarted, Gone})
    requires state == Ended || s.installs[i].state != Ended
    requires Consistent(r.installs[i])
    ensures QueuesOk(r) && AllMoving(r)
  {
    GlobalMoved(s, r, i, state, point);
    forall p
      ensures QueueOk(r, p) && Moving(r, p)
    {
      assert QueueOk(s, p) && Moving(s, p);
      MovedQueue(s, r, i, state, point, p);
    }
  }

  lemma SameOk(s: State, r: State)
    requires QueuesOk(s) && AllMoving(s)
    requires SameInstalls(s, r)
    ensures QueuesOk(r) && AllMoving(r)
  {
    forall p
      ensures QueueOk(r, p) && Moving(r, p)
    {
      assert QueueOk(s, p) && Moving(s, p);
    }
  }

  /** What `ContinueChecks` changes: the point of `i`, and which calls are checked. */
  ghost predicate ChecksOnly(s: State, r: State, i: nat) {
    && i < |s.installs|
    && r.now == s.now && r.timeoutMs == s.timeoutMs && r.closed == s.closed
    && r.queues == s.queues && r.turns == s.turns
    && |r.calls| == |s.calls|
    && (forall c: nat :: c < |s.calls| ==> r.calls[c] == s.calls[c].(checked := r.calls[c].checked))
    && |r.installs| == |s.installs|
    && (forall j: nat :: j < |s.installs| && j != i ==> r.installs[j] == s.installs[j])
    && r.installs[i] == s.installs[i].(point := r.installs[i].point)
    && (r.installs[i].point == Checked || r.installs[i].point.Checking?)
  }

  lemma {:induction false} ContinueChecksEffect(s: State, i: nat, k: nat)
    requires i < |s.installs| && k <= |s.installs[i].calls|
    ensures ChecksOnly(s, ContinueChecks(s, i, k), i)
    decreases |s.installs[i].calls| - k
  {
    if k < |s.installs[i].calls| {
      var c := s.installs[i].calls[k];
      if s.calls[c].checked {
        ContinueChecksEffect(s, i, k + 1);
      } else if !s.calls[c].hasCheck {
        var marked := s.(calls := s.calls[c := s.calls[c].(checked := true)]);
        assert WellFormed(marked);
        ContinueChecksEffect(marked, i, k + 1);
      }
    }
  }

  lemma PumpOk(s: State, p: Platform)
    requires QueuesOk(s)
    requires forall o :: o != p ==> Moving(s, o)
    ensures QueuesOk(Pump(s, p)) && AllMoving(Pump(s, p))
  {
    var r := Pump(s, p);
    var q := Queue(s, p);
    if q != [] {
      assert QueueOk(s, p);
      assert Consistent(s.installs[q[0]]);
    }
    if q != [] && s.installs[q[0]].state == Waiting && p !in s.turns {
      PumpStarts(s, p, q[0]);
    } else {
      assert Moving(s, p);
    }
  }

  /** Starting the head of one queue keeps every queue in order. */
  lemma StartedQueue(s: State, r: State, p: Platform, point: RunPoint, o: Platform)
    requires QueueOk(s, p) && QueueOk(s, o)
    requires Queue(s, p) != [] && p !in s.turns && point !in {NotStarted, Gone}
    requires Moved(s, r, Queue(s, p)[0], Front, point)
    ensures QueueOk(r, o)
    ensures o == p || Moving(s, o) ==> Moving(r, o)
  {
    assert Queue(r, o) == Queue(s, o);
  }

  lemma PumpStarts(s: State, p: Platform, head: nat)
    requires QueuesOk(s)
    requires forall o :: o != p ==> Moving(s, o)
    requires Queue(s, p) != [] && head == Queue(s, p)[0]
    requires s.installs[head].state == Waiting && p !in s.turns
    ensures QueuesOk(Pump(s, p)) && AllMoving(Pump(s, p))
  {
    var r := Pump(s, p);
    ContinueChecksEffect(SetRun(s, head, Front, Checked), head, 0);
    var point := r.installs[head].point;
    assert Moved(s, r, head, Front, point);
    assert QueueOk(s, p) && s.installs[head].platform == p;
    GlobalMoved(s, r, head, Front, point);
    forall o
      ensures QueueOk(r, o) && Moving(r, o)
    {
      assert QueueOk(s, o);
      assert o != p ==> Moving(s, o);
      StartedQueue(s, r, p, point, o);
    }
  }

  /** An install past `waiting` is the head of its queue. */
  lemma StartedIsHead(s: State, i: nat)
    requires QueuesOk(s)
    requires i < |s.installs| && s.installs[i].point !in {NotStarted, Gone}
    ensures Queue(s, s.installs[i].platform) != [] && Queue(s, s.installs[i].platform)[0] == i
    ensures s.installs[i].platform !in s.turns
  {
    assert QueueOk(s, s.installs[i].platform);
  }

  /** `left` is `s` with the started install `i` ended and off its queue. */
  ghost predicate Left(s: State, left: State, i: nat) {
    && i < |s.installs| && s.installs[i].point !in {NotStarted, Gone}
    && left.installs == s.installs[i := s.installs[i].(state := Ended, point := Gone)]
    && var p := s.installs[i].platform;
    && Queue(s, p) != [] && Queue(s, p)[0] == i
    && left.queues == s.queues[p := Queue(s, p)[1..]] && left.turns == s.turns
  }

  lemma LeftPlaced(s: State, left: State, i: nat)
    requires Placed(s) && Left(s, left, i)
    ensures Placed(left)
  {
    var p := s.installs[i].platform;
    forall j: nat | j < |left.installs| && left.installs[j].point != Gone
      ensures j in Queue(left, left.installs[j].platform)
    {
      assert j in Queue(s, s.installs[j].platform);
      assert Queue(s, p) == [i] + Queue(s, p)[1..];
    }
  }

  lemma LeftStartOrder(s: State, left: State, i: nat)
    requires Left(s, left, i) && Placed(s) && StartOrder(s) && QueueOk(s, s.installs[i].platform)
    ensures StartOrder(left)
  {
    forall a: nat, b: nat | a < b < |left.installs| && left.installs[a].platform == left.installs[b].platform
                            && left.installs[b].point == Gone
      ensures left.installs[a].point == Gone
    {
      if b == i {
        assert a !in Queue(s, s.installs[i].platform);
      }
    }
  }

  lemma LeftOneJoinable(s: State, left: State, i: nat)
    requires OneJoinable(s) && Left(s, left, i)
    ensures OneJoinable(left)
  {
  }

  lemma LeftGlobal(s: State, left: State, i: nat)
    requires Left(s, left, i) && Global(s) && QueueOk(s, s.installs[i].platform)
    ensures Global(left)
  {
    LeftPlaced(s, left, i);
    LeftStartOrder(s, left, i);
    LeftOneJoinable(s, left, i);
    forall j: nat | j < |left.installs|
      ensures Consistent(left.installs[j])
    {
      assert Consistent(s.installs[j]);
    }
  }

  lemma LeftOwnQueue(s: State, left: State, i: nat)
    requires Left(s, left, i) && QueueOk(s, s.installs[i].platform)
    ensures QueueOk(left, s.installs[i].platform)
  {
    var p := s.installs[i].platform;
    var q, rest := Queue(s, p), Queue(left, p);
    assert rest == q[1..];
    assert forall k :: 0 <= k < |rest| ==> rest[k] == q[k + 1] && rest[k] > i;
  }

  lemma LeftOtherQueue(s: State, left: State, i: nat, o: Platform)
    requires Left(s, left, i) && QueueOk(s, o) && o != s.installs[i].platform
    ensures QueueOk(left, o)
    ensures Moving(s, o) ==> Moving(left, o)
  {
    assert Queue(left, o) == Queue(s, o);
    assert i !in Queue(s, o);
    assert forall k :: 0 <= k < |Queue(s, o)| ==> Queue(s, o)[k] in Queue(s, o);
  }

  lemma LeaveOk(s: State, i: nat)
    requires QueuesOk(s) && AllMoving(s)
    requires i < |s.installs| && s.installs[i].point !in {NotStarted, Gone}
    ensures QueuesOk(Leave(s, i)) && AllMoving(Leave(s, i))
  {
    var p := s.installs[i].platform;
    var q := Queue(s, p);
    StartedIsHead(s, i);
    WithoutKeeps(q, i);
    var left: State := SetRun(s, i, Ended, Gone).(queues := s.queues[p := Without(q, i)]);
    assert Left(s, left, i) && QueueOk(s, p);
    LeftGlobal(s, left, i);
    forall o
      ensures QueueOk(left, o)
      ensures o != p ==> Moving(left, o)
    {
      assert QueueOk(s, o) && Moving(s, o);
      if o == p {
        LeftOwnQueue(s, left, i);
      } else {
        LeftOtherQueue(s, left, i, o);
      }
    }
    PumpOk(left, p);
  }

  lemma EnqueuePlaced(s: State, p: Platform, component: string)
    requires Placed(s)
    ensures Placed(Enqueue(s, p, component))
  {
    var r := Enqueue(s, p, component);
    var q := Queue(s, p);
    assert (q + [|s.installs|])[|q|] == |s.installs|;
    forall i: nat | i < |s.installs| && s.installs[i].point != Gone
      ensures i in Queue(r, s.installs[i].platform)
    {
      assert i in Queue(s, s.installs[i].platform);
    }
  }

  lemma EnqueueJoinable(s: State, p: Platform, component: string)
    requires Global(s)
    requires Joinable(s, Queue(s, p), component).None?
    ensures OneJoinable(Enqueue(s, p, component))
  {
    forall i: nat | i < |s.installs| && s.installs[i].platform == p && s.installs[i].component == component
      ensures s.installs[i].state == Ended
    {
      assert Consistent(s.installs[i]);
      assert s.installs[i].point != Gone ==> i in Queue(s, p);
    }
  }

  lemma EnqueueGlobal(s: State, p: Platform, component: string)
    requires Global(s)
    requires Joinable(s, Queue(s, p), component).None?
    ensures Global(Enqueue(s, p, component))
  {
    EnqueuePlaced(s, p, component);
    EnqueueJoinable(s, p, component);
  }

  lemma EnqueueOther(s: State, p: Platform, component: string, o: Platform)
    requires QueueOk(s, o) && o != p
    ensures QueueOk(Enqueue(s, p, component), o)
    ensures Moving(s, o) ==> Moving(Enqueue(s, p, component), o)
  {
    assert Below(Queue(s, o), |s.installs|);
  }

  lemma EnqueueOwn(s: State, p: Platform, component: string)
    requires QueueOk(s, p)
    ensures QueueOk(Enqueue(s, p, component), p)
  {
    var r := Enqueue(s, p, component);
    var q := Queue(s, p);
    assert Below(q, |s.installs|);
    var longer := q + [|s.installs|];
    assert Queue(r, p) == longer;
    assert forall k :: 0 <= k < |q| ==> longer[k] == q[k] && r.installs[q[k]] == s.installs[q[k]];
    assert longer[|q|] == |s.installs| && r.installs[|s.installs|].point == NotStarted;
  }

  lemma {:induction false} EnqueueOk(s: State, p: Platform, component: string)
    requires QueuesOk(s) && AllMoving(s)
    requires Joinable(s, Queue(s, p), component).None?
    ensures QueuesOk(Enqueue(s, p, component))
    ensures forall o :: o != p ==> Moving(Enqueue(s, p, component), o)
  {
    EnqueueGlobal(s, p, component);
    forall o
      ensures QueueOk(Enqueue(s, p, component), o)
      ensures o != p ==> Moving(Enqueue(s, p, component), o)
    {
      assert QueueOk(s, o) && Moving(s, o);
      if o == p {
        EnqueueOwn(s, p, component);
      } else {
        EnqueueOther(s, p, component, o);
      }
    }
  }

  lemma JoinOk(s: State, i: nat, hasCheck: bool)
    requires QueuesOk(s) && i < |s.installs|
    ensures QueuesOk(Join(s, i, hasCheck))
    ensures forall o :: Moving(s, o) ==> Moving(Join(s, i, hasCheck), o)
  {
    var r := Join(s, i, hasCheck);
    assert Moved(s, r, i, s.installs[i].state, s.installs[i].point);
    GlobalMoved(s, r, i, s.installs[i].state, s.installs[i].point);
    forall o
      ensures QueueOk(r, o)
      ensures Moving(s, o) ==> Moving(r, o)
    {
      assert QueueOk(s, o);
    }
  }

  lemma ArriveOk(s: State, p: Platform, component: string, hasCheck: bool)
    requires QueuesOk(s) && AllMoving(s)
    ensures QueuesOk(Arrive(s, p, component, hasCheck)) && AllMoving(Arrive(s, p, component, hasCheck))
  {
    match Joinable(s, Queue(s, p), component)
    case Some(i) =>
      JoinOk(s, i, hasCheck);
      PumpOk(Join(s, i, hasCheck), p);
    case None =>
      EnqueueOk(s, p, component);
      JoinOk(Enqueue(s, p, component), |s.installs|, hasCheck);
      PumpOk(Join(Enqueue(s, p, component), |s.installs|, hasCheck), p);
  }

  lemma TakenOk(s: State, p: Platform)
    requires QueuesOk(s) && AllMoving(s) && Queue(s, p) == []
    ensures QueuesOk(s.(turns := s.turns + {p})) && AllMoving(s.(turns := s.turns + {p}))
  {
    var taken: State := s.(turns := s.turns + {p});
    forall o
      ensures QueueOk(taken, o) && Moving(taken, o)
    {
      assert QueueOk(s, o) && Moving(s, o);
    }
  }

  lemma GivenOk(s: State, p: Platform)
    requires QueuesOk(s) && AllMoving(s)
    ensures QueuesOk(Pump(s.(turns := s.turns - {p}), p)) && AllMoving(Pump(s.(turns := s.turns - {p}), p))
  {
    var given: State := s.(turns := s.turns - {p});
    forall o
      ensures QueueOk(given, o)
      ensures o != p ==> Moving(given, o)
    {
      assert QueueOk(s, o) && Moving(s, o);
    }
    PumpOk(given, p);
  }

  lemma {:induction false} CloseQueueKeeps(s: State, q: seq<nat>)
    requires Below(q, |s.installs|)
    ensures SameInstalls(s, CloseQueue(s, q))
    decreases |q|
  {
    if q != [] {
      SettleAllKeeps(s, q[0], Closed);
      CloseQueueKeeps(SettleAll(s, q[0], Closed), q[1..]);
    }
  }

  lemma {:induction false} CloseQueuesKeeps(s: State, platforms: seq<Platform>)
    ensures SameInstalls(s, CloseQueues(s, platforms))
    decreases |platforms|
  {
    if platforms != [] {
      CloseQueueKeeps(s, Queue(s, platforms[0]));
      CloseQueuesKeeps(CloseQueue(s, Queue(s, platforms[0])), platforms[1..]);
    }
  }

  lemma SettleThenLeaveOk(s: State, i: nat, outcome: Outcome)
    requires QueuesOk(s) && AllMoving(s)
    requires i < |s.installs| && s.installs[i].point !in {NotStarted, Gone}
    ensures |SettleAll(s, i, outcome).installs| == |s.installs|
    ensures QueuesOk(Leave(SettleAll(s, i, outcome), i)) && AllMoving(Leave(SettleAll(s, i, outcome), i))
  {
    SettleAllKeeps(s, i, outcome);
    SameOk(s, SettleAll(s, i, outcome));
    LeaveOk(SettleAll(s, i, outcome), i);
  }

  lemma {:induction false} SettleThenMoveOk(s: State, i: nat, outcome: Outcome, state: InstallState, point: RunPoint)
    requires QueuesOk(s) && AllMoving(s)
    requires i < |s.installs| && s.installs[i].point !in {NotStarted, Gone} && point !in {NotStarted, Gone}
    requires !point.Checking? && (state == Ended || s.installs[i].state != Ended)
    requires Consistent(s.installs[i].(state := state, point := point))
    ensures |SettleAll(s, i, outcome).installs| == |s.installs|
    ensures QueuesOk(SetRun(s, i, state, point)) && AllMoving(SetRun(s, i, state, point))
    ensures var r := SetRun(SettleAll(s, i, outcome), i, state, point); QueuesOk(r) && AllMoving(r)
  {
    SettleAllKeeps(s, i, outcome);
    MovedOk(s, SetRun(s, i, state, point), i, state, point);
    MovedOk(s, SetRun(SettleAll(s, i, outcome), i, state, point), i, state, point);
  }

  lemma AfterChecksOk(s: State, i: nat)
    requires QueuesOk(s) && AllMoving(s)
    requires At(s, i, Checked)
    ensures QueuesOk(AfterChecks(s, i)) && AllMoving(AfterChecks(s, i))
  {
    assert Consistent(s.installs[i]);
    if s.installs[i].calls == [] {
      LeaveOk(s, i);
    } else {
      SettleThenMoveOk(s, i, InstallError, Front, Finding);
    }
  }

  lemma AfterFindOk(s: State, i: nat, found: FindResult)
    requires QueuesOk(s) && AllMoving(s)
    requires At(s, i, Finding)
    ensures QueuesOk(AfterFind(s, i, found)) && AllMoving(AfterFind(s, i, found))
  {
    assert Consistent(s.installs[i]);
    if found != MissingComponent {
      SettleThenLeaveOk(s, i, if found == FoundComponent then AlreadyInstalled else InstallError);
    } else if s.installs[i].calls == [] {
      LeaveOk(s, i);
    } else {
      SettleThenMoveOk(s, i, InstallError, Front, Reserving);
    }
  }

  lemma AfterReserveOk(s: State, i: nat, ok: bool)
    requires QueuesOk(s) && AllMoving(s)
    requires At(s, i, Reserving)
    ensures QueuesOk(AfterReserve(s, i, ok)) && AllMoving(AfterReserve(s, i, ok))
  {
    assert Consistent(s.installs[i]);
    if !ok {
      SettleThenLeaveOk(s, i, InstallError);
    } else if s.installs[i].calls == [] {
      LeaveOk(s, i);
    } else {
      SettleThenMoveOk(s, i, InstallError, Running, Driving);
    }
  }

  lemma AfterDriverOk(s: State, i: nat, result: DriverResult)
    requires QueuesOk(s) && AllMoving(s)
    requires At(s, i, Driving)
    ensures QueuesOk(AfterDriver(s, i, result)) && AllMoving(AfterDriver(s, i, result))
  {
    assert Consistent(s.installs[i]);
    var state := s.installs[i].state;
    match result
    case DriverFailed => SettleThenMoveOk(s, i, Installed, state, Failed);
    case DriverAlreadyInstalled => SettleThenMoveOk(s, i, AlreadyInstalled, state, Succeeded);
    case DriverInstalled =>
      SettleThenMoveOk(s, i, Installed, if state == Running then Recording else state, Committing);
  }

  lemma AfterCommitOk(s: State, i: nat, ok: bool)
    requires QueuesOk(s) && AllMoving(s)
    requires At(s, i, Committing)
    ensures QueuesOk(AfterCommit(s, i, ok)) && AllMoving(AfterCommit(s, i, ok))
  {
    assert Consistent(s.installs[i]);
    SettleThenMoveOk(s, i, Installed, s.installs[i].state, if ok then Succeeded else Failed);
  }

  lemma {:induction false} AfterRunDriverOk(s: State, i: nat)
    requires QueuesOk(s) && AllMoving(s)
    requires At(s, i, Succeeded) || At(s, i, Failed)
    ensures QueuesOk(AfterRunDriver(s, i)) && AllMoving(AfterRunDriver(s, i))
  {
    if s.installs[i].point == Failed {
      SettleThenLeaveOk(s, i, InstallError);
    } else {
      LeaveOk(s, i);
    }
  }

  /** Steps of an install's run. */
  predicate OfRun(e: Event) {
    || e.CheckReturned? || e.ChecksDone? || e.FindReturned? || e.ReserveReturned? || e.DriverReturned?
    || e.CommitReturned? || e.Resume?
  }

  lemma RunQueueStep(s: State, e: Event)
    requires QueuesOk(s) && AllMoving(s) && Enabled(s, e) && OfRun(e)
    ensures QueuesOk(Step(s, e)) && AllMoving(Step(s, e))
  {
    match e
    case CheckReturned(i, answer) =>
      assert Consistent(s.installs[i]);
      CheckReturnedOk(s, i, answer);
    case ChecksDone(i) => AfterChecksOk(s, i);
    case FindReturned(i, found) => AfterFindOk(s, i, found);
    case ReserveReturned(i, ok) => AfterReserveOk(s, i, ok);
    case DriverReturned(i, result) => AfterDriverOk(s, i, result);
    case CommitReturned(i, ok) => AfterCommitOk(s, i, ok);
    case Resume(i) => AfterRunDriverOk(s, i);
  }

  /** Every step keeps the queues in order. */
  lemma QueueStep(s: State, e: Event)
    requires QueuesOk(s) && AllMoving(s)
    ensures QueuesOk(Step(s, e)) && AllMoving(Step(s, e))
  {
    if Enabled(s, e) {
      match e
      case Arrival(p, component, hasCheck) => ArriveOk(s, p, component, hasCheck);
      case Timer(c) => TimerOk(s, c);
      case Tick(to) => TickOk(s, to);
      case TakeTurn(p) => TakenOk(s, p);
      case GiveTurn(p) => GivenOk(s, p);
      case Close(platforms) => CloseOk(s, platforms);
      case _ => RunQueueStep(s, e);
    }
  }

  lemma TickOk(s: State, to: nat)
    requires QueuesOk(s) && AllMoving(s)
    ensures QueuesOk(s.(now := to)) && AllMoving(s.(now := to))
  {
    var later: State := s.(now := to);
    forall p
      ensures QueueOk(later, p) && Moving(later, p)
    {
      assert QueueOk(s, p) && Moving(s, p);
    }
  }

  lemma CheckReturnedOk(s: State, i: nat, answer: CheckAnswer)
    requires QueuesOk(s) && AllMoving(s)
    requires i < |s.installs| && s.installs[i].point.Checking? && s.installs[i].state == Front
    ensures QueuesOk(AfterCheck(s, i, answer)) && AllMoving(AfterCheck(s, i, answer))
  {
    var c := s.installs[i].point.call;
    var settled :=
      if answer == StillNeeded then s
      else Settle(s, c, if answer == NoLongerNeeded then NotNeeded else InstallError);
    assert SameInstalls(s, settled);
    SameOk(s, settled);
    ContinueChecksEffect(settled, i, 0);
    var r := ContinueChecks(settled, i, 0);
    MovedOk(settled, r, i, Front, r.installs[i].point);
  }

  lemma ExpireOk(s: State, c: nat)
    requires QueuesOk(s) && AllMoving(s) && c < |s.calls|
    ensures QueuesOk(Expire(s, c)) && AllMoving(Expire(s, c))
  {
    var i := s.calls[c].install;
    assert Consistent(s.installs[i]);
    if s.installs[i].state == Running {
      var ended := SetRun(s, i, Ended, s.installs[i].point);
      MovedOk(s, ended, i, Ended, s.installs[i].point);
      SettleAllKeeps(ended, i, TimedOut);
      SameOk(ended, SettleAll(ended, i, TimedOut));
    } else {
      SameOk(s, Settle(s, c, TimedOut));
    }
  }

  lemma TimerOk(s: State, c: nat)
    requires QueuesOk(s) && AllMoving(s) && c < |s.calls|
    ensures QueuesOk(Expire(Disarmed(s, c), c)) && AllMoving(Expire(Disarmed(s, c), c))
  {
    SameOk(s, Disarmed(s, c));
    ExpireOk(Disarmed(s, c), c);
  }

  lemma {:induction false} CloseOk(s: State, platforms: seq<Platform>)
    requires QueuesOk(s) && AllMoving(s)
    ensures var r := CloseQueues(s.(closed := true), platforms); QueuesOk(r) && AllMoving(r)
  {
    var closed: State := s.(closed := true);
    forall p
      ensures QueueOk(closed, p) && Moving(closed, p)
    {
      assert QueueOk(s, p) && Moving(s, p);
    }
    CloseQueuesKeeps(closed, platforms);
    SameOk(closed, CloseQueues(closed, platforms));
  }
}
