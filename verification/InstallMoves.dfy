/** How the installs of a run go on: which answer moves an install where. */
module InstallMoves {
  import opened Common
  import opened InstallQueue
  import opened InstallQueueRuns
  import opened InstallCallRuns
  import opened InstallTime

  /** Points up to the end of the checks. */
  predicate BeforeFinding(point: RunPoint) {
    point == NotStarted || point.Checking? || point == Checked
  }

  /** The event can happen and takes the install to this point: each point has its own causes. */
  ghost predicate MovesTo(s: State, e: Event, i: nat, point: RunPoint)
    requires i < |s.installs| && !BeforeFinding(point)
  {
    var idle := s.installs[i].calls == [];
    && Enabled(s, e)
    && match point
       case Finding => e == ChecksDone(i) && !idle
       case Reserving => e == FindReturned(i, MissingComponent) && !idle
       case Driving => e == ReserveReturned(i, true) && !idle
       case Committing => e == DriverReturned(i, DriverInstalled)
       case Succeeded => e == DriverReturned(i, DriverAlreadyInstalled) || e == CommitReturned(i, true)
       case Failed => e == DriverReturned(i, DriverFailed) || e == CommitReturned(i, false)
       case Gone =>
         || e == Resume(i) || e == FindReturned(i, FoundComponent) || e == FindReturned(i, FindFailed)
         || e == ReserveReturned(i, false)
         || (idle && (e == ChecksDone(i) || e == FindReturned(i, MissingComponent) || e == ReserveReturned(i, true)))
  }

  /** In the step from `s` to `r` an install comes to a point past its checks exactly when the event is
      a cause of that; otherwise it stays where it is, or is still in its checks. */
  ghost predicate MovesRight(s: State, r: State, e: Event, i: nat)
    requires i < |s.installs|
  {
    && i < |r.installs|
    && var was, now := s.installs[i].point, r.installs[i].point;
    && (forall point :: !BeforeFinding(point) ==>
          (now == point && was != point <==> MovesTo(s, e, i, point)))
    && (BeforeFinding(now) ==> BeforeFinding(was))
  }

  /** An install no event of its own moves: at most its checks begin. */
  ghost predicate LeftThere(s: State, r: State, i: nat)
    requires i < |s.installs|
  {
    && i < |r.installs|
    && (r.installs[i].point == s.installs[i].point
        || (s.installs[i].point == NotStarted && BeforeFinding(r.installs[i].point)))
  }

  /** The install an event is an answer for. */
  predicate OfInstall(e: Event, i: nat) {
    OfRun(e) && e.i == i
  }

  /** Only an answer for the install takes it past its checks. */
  lemma OwnMoves(s: State, e: Event, i: nat, point: RunPoint)
    requires i < |s.installs| && !BeforeFinding(point) && MovesTo(s, e, i, point)
    ensures OfInstall(e, i)
  {
  }

  lemma OthersRight(s: State, r: State, e: Event, i: nat)
    requires i < |s.installs| && LeftThere(s, r, i) && !OfInstall(e, i)
    ensures MovesRight(s, r, e, i)
  {
    forall point | !BeforeFinding(point)
      ensures !MovesTo(s, e, i, point)
    {
      if MovesTo(s, e, i, point) {
        OwnMoves(s, e, i, point);
      }
    }
  }

  ghost predicate AllConsistent(s: State) {
    forall i: nat :: i < |s.installs| ==> Consistent(s.installs[i])
  }

  lemma PumpPoints(s: State, p: Platform, i: nat)
    requires AllConsistent(s) && i < |s.installs|
    ensures LeftThere(s, Pump(s, p), i)
  {
    var q := Queue(s, p);
    if q != [] && s.installs[q[0]].state == Waiting && p !in s.turns {
      assert Consistent(s.installs[q[0]]);
      ContinueChecksEffect(SetRun(s, q[0], Front, Checked), q[0], 0);
    }
  }

  /** What leaving its queue does: the install is gone, and no other moves past its checks. */
  lemma LeavePoints(s: State, i: nat, j: nat)
    requires AllConsistent(s) && i < |s.installs| && j < |s.installs|
    ensures j == i ==> At(Leave(s, i), i, Gone)
    ensures j != i ==> LeftThere(s, Leave(s, i), j)
  {
    var p := s.installs[i].platform;
    WithoutKeeps(Queue(s, p), i);
    LeaveKeepsCalls(s, i);
    PumpPoints(SetRun(s, i, Ended, Gone).(queues := s.queues[p := Without(Queue(s, p), i)]), p, j);
  }

  lemma SettledLeavePoints(s: State, i: nat, outcome: Outcome, j: nat)
    requires AllConsistent(s) && i < |s.installs| && j < |s.installs|
    ensures |SettleAll(s, i, outcome).installs| == |s.installs|
    ensures j == i ==> At(Leave(SettleAll(s, i, outcome), i), i, Gone)
    ensures j != i ==> LeftThere(s, Leave(SettleAll(s, i, outcome), i), j)
  {
    SettleAllKeeps(s, i, outcome);
    LeavePoints(SettleAll(s, i, outcome), i, j);
  }

  /** The point an answer takes its install to, past the checks. */
  function PointAfter(s: State, e: Event): RunPoint
    requires OfRun(e) && !e.CheckReturned? && e.i < |s.installs|
  {
    var idle := s.installs[e.i].calls == [];
    match e
    case ChecksDone(_) => if idle then Gone else Finding
    case FindReturned(_, found) => if found != MissingComponent || idle then Gone else Reserving
    case ReserveReturned(_, ok) => if !ok || idle then Gone else Driving
    case DriverReturned(_, result) =>
      if result == DriverFailed then Failed else if result == DriverInstalled then Committing else Succeeded
    case CommitReturned(_, ok) => if ok then Succeeded else Failed
    case Resume(_) => Gone
  }

  /** The two tables agree: the causes of a point, and the point after an answer. */
  lemma PointAfterRight(s: State, e: Event, point: RunPoint)
    requires OfRun(e) && !e.CheckReturned? && Enabled(s, e) && !BeforeFinding(point)
    ensures MovesTo(s, e, e.i, point) <==> point == PointAfter(s, e)
    ensures s.installs[e.i].point != PointAfter(s, e) && !BeforeFinding(PointAfter(s, e))
  {
  }

  lemma OwnRight(s: State, r: State, e: Event)
    requires OfRun(e) && !e.CheckReturned? && Enabled(s, e) && At(r, e.i, PointAfter(s, e))
    ensures MovesRight(s, r, e, e.i)
  {
    forall point | !BeforeFinding(point)
      ensures r.installs[e.i].point == point && s.installs[e.i].point != point <==> MovesTo(s, e, e.i, point)
    {
      PointAfterRight(s, e, point);
    }
    PointAfterRight(s, e, Gone);
  }

  /** An answer takes its own install to its next point and no other past its checks. */
  ghost predicate MovesOwn(s: State, r: State, e: Event, j: nat)
    requires OfRun(e) && !e.CheckReturned? && e.i < |s.installs| && j < |s.installs|
  {
    if j == e.i then At(r, e.i, PointAfter(s, e)) else LeftThere(s, r, j)
  }

  lemma ChecksMove(s: State, i: nat, j: nat)
    requires AllConsistent(s) && At(s, i, Checked) && j < |s.installs|
    ensures MovesOwn(s, AfterChecks(s, i), ChecksDone(i), j)
  {
    LeavePoints(s, i, j);
  }

  lemma FindMoves(s: State, i: nat, found: FindResult, j: nat)
    requires AllConsistent(s) && At(s, i, Finding) && j < |s.installs|
    ensures MovesOwn(s, AfterFind(s, i, found), FindReturned(i, found), j)
  {
    if found == MissingComponent {
      LeavePoints(s, i, j);
    } else {
      SettledLeavePoints(s, i, if found == FoundComponent then AlreadyInstalled else InstallError, j);
    }
  }

  lemma ReserveMoves(s: State, i: nat, ok: bool, j: nat)
    requires AllConsistent(s) && At(s, i, Reserving) && j < |s.installs|
    ensures MovesOwn(s, AfterReserve(s, i, ok), ReserveReturned(i, ok), j)
  {
    if ok {
      LeavePoints(s, i, j);
    } else {
      SettledLeavePoints(s, i, InstallError, j);
    }
  }

  lemma DriverMoves(s: State, i: nat, result: DriverResult, j: nat)
    requires At(s, i, Driving) && j < |s.installs|
    ensures MovesOwn(s, AfterDriver(s, i, result), DriverReturned(i, result), j)
  {
    SettleAllKeeps(s, i, AlreadyInstalled);
  }

  lemma CommitMoves(s: State, i: nat, ok: bool, j: nat)
    requires At(s, i, Committing) && j < |s.installs|
    ensures MovesOwn(s, AfterCommit(s, i, ok), CommitReturned(i, ok), j)
  {
    SettleAllKeeps(s, i, Installed);
  }

  lemma ResumeMoves(s: State, i: nat, j: nat)
    requires AllConsistent(s) && (At(s, i, Succeeded) || At(s, i, Failed)) && j < |s.installs|
    ensures MovesOwn(s, AfterRunDriver(s, i), Resume(i), j)
  {
    if At(s, i, Failed) {
      SettledLeavePoints(s, i, InstallError, j);
    } else {
      LeavePoints(s, i, j);
    }
  }

  lemma AnswerMovesOwn(s: State, e: Event, j: nat)
    requires AllConsistent(s) && OfRun(e) && !e.CheckReturned? && Enabled(s, e) && j < |s.installs|
    ensures MovesOwn(s, Step(s, e), e, j)
  {
    match e
    case ChecksDone(i) => ChecksMove(s, i, j);
    case FindReturned(i, found) => FindMoves(s, i, found, j);
    case ReserveReturned(i, ok) => ReserveMoves(s, i, ok, j);
    case DriverReturned(i, result) => DriverMoves(s, i, result, j);
    case CommitReturned(i, ok) => CommitMoves(s, i, ok, j);
    case Resume(i) => ResumeMoves(s, i, j);
  }

  lemma CheckMoves(s: State, i: nat, answer: CheckAnswer, j: nat)
    requires i < |s.installs| && s.installs[i].point.Checking? && j < |s.installs|
    ensures var r := AfterCheck(s, i, answer);
            j < |r.installs| && if j == i then BeforeFinding(r.installs[j].point) else LeftThere(s, r, j)
  {
    var c := s.installs[i].point.call;
    var settled :=
      if answer == StillNeeded then s
      else Settle(s, c, if answer == NoLongerNeeded then NotNeeded else InstallError);
    assert CallOf(s.calls, c, i);
    ContinueChecksEffect(settled, i, 0);
  }

  lemma CheckRight(s: State, i: nat, answer: CheckAnswer, j: nat)
    requires i < |s.installs| && s.installs[i].point.Checking? && j < |s.installs|
    ensures MovesRight(s, AfterCheck(s, i, answer), CheckReturned(i, answer), j)
  {
    CheckMoves(s, i, answer, j);
    forall point | !BeforeFinding(point)
      ensures !MovesTo(s, CheckReturned(i, answer), j, point)
    {
    }
  }

  lemma JoinedPoints(s: State, i: nat, p: Platform, hasCheck: bool, j: nat)
    requires AllConsistent(s) && i < |s.installs| && j < |s.installs|
    ensures LeftThere(s, Pump(Join(s, i, hasCheck), p), j)
  {
    PumpPoints(Join(s, i, hasCheck), p, j);
  }

  lemma ArrivalPoints(s: State, p: Platform, component: string, hasCheck: bool, j: nat)
    requires AllConsistent(s) && j < |s.installs|
    ensures LeftThere(s, Arrive(s, p, component, hasCheck), j)
  {
    match Joinable(s, Queue(s, p), component)
    case Some(i) => JoinedPoints(s, i, p, hasCheck, j);
    case None => JoinedPoints(Enqueue(s, p, component), |s.installs|, p, hasCheck, j);
  }

  lemma TimerPoints(s: State, c: nat, j: nat)
    requires c < |s.calls| && j < |s.installs|
    ensures LeftThere(s, Expire(Disarmed(s, c), c), j)
  {
    var i := s.calls[c].install;
    SettleAllKeeps(SetRun(Disarmed(s, c), i, Ended, s.installs[i].point), i, TimedOut);
  }

  lemma OtherPoints(s: State, e: Event, j: nat)
    requires AllConsistent(s) && Enabled(s, e) && !OfRun(e) && j < |s.installs|
    ensures LeftThere(s, Step(s, e), j)
  {
    match e
    case Arrival(p, component, hasCheck) => ArrivalPoints(s, p, component, hasCheck, j);
    case Timer(c) => TimerPoints(s, c, j);
    case Close(platforms) => CloseQueuesKeeps(s.(closed := true), platforms);
    case Tick(_) =>
    case TakeTurn(_) =>
    case GiveTurn(p) => PumpPoints(s.(turns := s.turns - {p}), p, j);
  }

  lemma StepMoves(s: State, e: Event, j: nat)
    requires Good(s) && j < |s.installs|
    ensures MovesRight(s, Step(s, e), e, j)
  {
    if !Enabled(s, e) {
    } else if !OfRun(e) {
      OtherPoints(s, e, j);
      OthersRight(s, Step(s, e), e, j);
    } else if e.CheckReturned? {
      CheckRight(s, e.i, e.answer, j);
    } else {
      AnswerMovesOwn(s, e, j);
      if j == e.i {
        OwnRight(s, Step(s, e), e);
      } else {
        OthersRight(s, Step(s, e), e, j);
      }
    }
  }

  // ---------------------------------------------------------------- new installs and calls

  /** Installs that were not there before the step are at the most in their checks, and calls open. */
  ghost predicate NewAtStart(s: State, r: State) {
    && |s.installs| <= |r.installs| && |s.calls| <= |r.calls|
    && (forall i: nat :: |s.installs| <= i < |r.installs| ==> BeforeFinding(r.installs[i].point))
    && (forall c: nat :: |s.calls| <= c < |r.calls| ==> Open(r, c))
  }

  lemma PumpNew(s: State, m: State, p: Platform)
    requires AllConsistent(m) && NewAtStart(s, m)
    ensures NewAtStart(s, Pump(m, p))
  {
    PumpEffect(m, p);
    forall i: nat | |s.installs| <= i < |m.installs|
      ensures BeforeFinding(Pump(m, p).installs[i].point)
    {
      PumpPoints(m, p, i);
      assert BeforeFinding(m.installs[i].point);
    }
    forall c: nat | |s.calls| <= c < |m.calls|
      ensures Open(Pump(m, p), c)
    {
      assert Open(m, c);
    }
  }

  lemma JoinNew(s: State, m: State, i: nat, hasCheck: bool)
    requires NewAtStart(s, m) && i < |m.installs|
    ensures NewAtStart(s, Join(m, i, hasCheck))
  {
    var r := Join(m, i, hasCheck);
    forall j: nat | |s.installs| <= j < |r.installs|
      ensures BeforeFinding(r.installs[j].point)
    {
      assert BeforeFinding(m.installs[j].point);
    }
    forall c: nat | |s.calls| <= c < |r.calls|
      ensures Open(r, c)
    {
      assert c < |m.calls| ==> Open(m, c);
    }
  }

  lemma JoinedNew(s: State, m: State, i: nat, p: Platform, hasCheck: bool)
    requires AllConsistent(m) && NewAtStart(s, m) && i < |m.installs|
    ensures NewAtStart(s, Pump(Join(m, i, hasCheck), p))
  {
    JoinNew(s, m, i, hasCheck);
    PumpNew(s, Join(m, i, hasCheck), p);
  }

  lemma ArrivalNew(s: State, p: Platform, component: string, hasCheck: bool)
    requires AllConsistent(s)
    ensures NewAtStart(s, Arrive(s, p, component, hasCheck))
  {
    match Joinable(s, Queue(s, p), component)
    case Some(i) => JoinedNew(s, s, i, p, hasCheck);
    case None => JoinedNew(s, Enqueue(s, p, component), |s.installs|, p, hasCheck);
  }

  lemma LeaveNew(s: State, i: nat, outcome: Outcome)
    requires i < |s.installs|
    ensures NewAtStart(s, Leave(s, i)) && |SettleAll(s, i, outcome).installs| == |s.installs|
    ensures NewAtStart(s, Leave(SettleAll(s, i, outcome), i))
  {
    SettleAllKeeps(s, i, outcome);
    LeaveKeepsCalls(s, i);
    LeaveKeepsCalls(SettleAll(s, i, outcome), i);
  }

  lemma FindNew(s: State, i: nat, found: FindResult)
    requires i < |s.installs|
    ensures NewAtStart(s, AfterFind(s, i, found))
  {
    LeaveNew(s, i, if found == FoundComponent then AlreadyInstalled else InstallError);
  }

  lemma ReserveNew(s: State, i: nat, ok: bool)
    requires i < |s.installs|
    ensures NewAtStart(s, AfterReserve(s, i, ok))
  {
    LeaveNew(s, i, InstallError);
  }

  lemma ResumeNew(s: State, i: nat)
    requires i < |s.installs|
    ensures NewAtStart(s, AfterRunDriver(s, i))
  {
    LeaveNew(s, i, InstallError);
  }

  lemma CheckNew(s: State, i: nat, answer: CheckAnswer)
    requires i < |s.installs| && s.installs[i].point.Checking?
    ensures NewAtStart(s, AfterCheck(s, i, answer))
  {
    var outcome := if answer == NoLongerNeeded then NotNeeded else InstallError;
    ContinueChecksEffect(if answer == StillNeeded then s else Settle(s, s.installs[i].point.call, outcome), i, 0);
  }

  lemma ChecksDoneNew(s: State, i: nat)
    requires i < |s.installs|
    ensures NewAtStart(s, AfterChecks(s, i))
  {
    LeaveNew(s, i, InstallError);
  }

  lemma TimerNew(s: State, c: nat)
    requires c < |s.calls|
    ensures NewAtStart(s, Expire(Disarmed(s, c), c))
  {
    var i := s.calls[c].install;
    SettleAllKeeps(SetRun(Disarmed(s, c), i, Ended, s.installs[i].point), i, TimedOut);
  }

  lemma RunNew(s: State, e: Event)
    requires Enabled(s, e) && OfRun(e)
    ensures NewAtStart(s, Step(s, e))
  {
    match e
    case CheckReturned(i, answer) => CheckNew(s, i, answer);
    case ChecksDone(i) => ChecksDoneNew(s, i);
    case FindReturned(i, found) => FindNew(s, i, found);
    case ReserveReturned(i, ok) => ReserveNew(s, i, ok);
    case DriverReturned(i, _) => SettleAllKeeps(s, i, AlreadyInstalled);
    case CommitReturned(i, _) => SettleAllKeeps(s, i, Installed);
    case Resume(i) => ResumeNew(s, i);
  }

  lemma StepNew(s: State, e: Event)
    requires AllConsistent(s)
    ensures NewAtStart(s, Step(s, e))
  {
    if Enabled(s, e) {
      match e
      case Arrival(p, component, hasCheck) => ArrivalNew(s, p, component, hasCheck);
      case Timer(c) => TimerNew(s, c);
      case Close(platforms) => CloseQueuesKeeps(s.(closed := true), platforms);
      case Tick(_) =>
      case TakeTurn(_) =>
      case GiveTurn(p) => PumpEffect(s.(turns := s.turns - {p}), p);
      case _ => RunNew(s, e);
    }
  }

  // ---------------------------------------------------------------- theorems

  /**
   * In every run and for every next event: an install comes to a point past its checks exactly by the
   * answers that lead there. It fails exactly when its driver or the writing of its record failed, and
   * succeeds exactly when the driver found the component installed or the record was written.
   */
  lemma {:induction false} InstallMovesExactly(timeoutMs: nat, events: seq<Event>, e: Event, i: nat)
    requires i < |Run(timeoutMs, events).installs|
    ensures MovesRight(Run(timeoutMs, events), Step(Run(timeoutMs, events), e), e, i)
  {
    RunOk(timeoutMs, events);
    StepMoves(Run(timeoutMs, events), e, i);
  }

  /** The event came as number `k` of the run, when it could happen. */
  ghost predicate TookAt(timeoutMs: nat, events: seq<Event>, k: nat, e: Event) {
    k < |events| && events[k] == e && Enabled(Run(timeoutMs, events[..k]), e)
  }

  ghost predicate Took(timeoutMs: nat, events: seq<Event>, e: Event) {
    exists k: nat :: TookAt(timeoutMs, events, k, e)
  }

  /** The component was looked for and not found, and disk space was reserved. */
  ghost predicate Prepared(timeoutMs: nat, events: seq<Event>, i: nat) {
    Took(timeoutMs, events, FindReturned(i, MissingComponent)) && Took(timeoutMs, events, ReserveReturned(i, true))
  }

  /** What must have been answered for an install to be at a point. */
  ghost predicate Behind(timeoutMs: nat, events: seq<Event>, i: nat, point: RunPoint) {
    match point
    case Reserving => Took(timeoutMs, events, FindReturned(i, MissingComponent))
    case Driving => Prepared(timeoutMs, events, i)
    case Committing =>
      Prepared(timeoutMs, events, i) && Took(timeoutMs, events, DriverReturned(i, DriverInstalled))
    case Succeeded =>
      && Prepared(timeoutMs, events, i)
      && (|| Took(timeoutMs, events, DriverReturned(i, DriverAlreadyInstalled))
          || (Took(timeoutMs, events, DriverReturned(i, DriverInstalled))
              && Took(timeoutMs, events, CommitReturned(i, true))))
    case Failed =>
      && Prepared(timeoutMs, events, i)
      && (|| Took(timeoutMs, events, DriverReturned(i, DriverFailed))
          || (Took(timeoutMs, events, DriverReturned(i, DriverInstalled))
              && Took(timeoutMs, events, CommitReturned(i, false))))
    case _ => true
  }

  lemma TookStays(timeoutMs: nat, events: seq<Event>, e: Event)
    requires events != [] && Took(timeoutMs, events[..|events| - 1], e)
    ensures Took(timeoutMs, events, e)
  {
    var before := events[..|events| - 1];
    var k: nat :| TookAt(timeoutMs, before, k, e);
    assert before[..k] == events[..k];
    assert TookAt(timeoutMs, events, k, e);
  }

  lemma TookLast(timeoutMs: nat, events: seq<Event>)
    requires events != [] && Enabled(Run(timeoutMs, events[..|events| - 1]), events[|events| - 1])
    ensures Took(timeoutMs, events, events[|events| - 1])
  {
    assert TookAt(timeoutMs, events, |events| - 1, events[|events| - 1]);
  }

  lemma BehindStays(timeoutMs: nat, events: seq<Event>, i: nat, point: RunPoint)
    requires events != [] && Behind(timeoutMs, events[..|events| - 1], i, point)
    ensures Behind(timeoutMs, events, i, point)
  {
    forall e | Took(timeoutMs, events[..|events| - 1], e)
      ensures Took(timeoutMs, events, e)
    {
      TookStays(timeoutMs, events, e);
    }
  }

  /** The last event takes an install from one point to the next. */
  lemma BehindMoved(timeoutMs: nat, events: seq<Event>, i: nat, point: RunPoint)
    requires events != [] && !BeforeFinding(point)
    requires var s := Run(timeoutMs, events[..|events| - 1]);
             && i < |s.installs| && MovesTo(s, events[|events| - 1], i, point)
             && Behind(timeoutMs, events[..|events| - 1], i, s.installs[i].point)
    ensures Behind(timeoutMs, events, i, point)
  {
    BehindStays(timeoutMs, events, i, Run(timeoutMs, events[..|events| - 1]).installs[i].point);
    TookLast(timeoutMs, events);
  }

  /**
   * In every run, where an install is tells what was answered before: its driver runs only after the
   * component was not found and disk space was reserved, its record is written only after the driver
   * installed it, and it has failed only by the driver or by the writing of its record.
   */
  lemma {:induction false} StagesBehind(timeoutMs: nat, events: seq<Event>, i: nat)
    requires i < |Run(timeoutMs, events).installs|
    ensures Behind(timeoutMs, events, i, Run(timeoutMs, events).installs[i].point)
  {
    if events != [] {
      var before, e := events[..|events| - 1], events[|events| - 1];
      var s, point := Run(timeoutMs, before), Run(timeoutMs, events).installs[i].point;
      RunOk(timeoutMs, before);
      StepNew(s, e);
      if i < |s.installs| {
        StagesBehind(timeoutMs, before, i);
        StepMoves(s, e, i);
        if BeforeFinding(point) {
        } else if point == s.installs[i].point {
          BehindStays(timeoutMs, events, i, point);
        } else {
          BehindMoved(timeoutMs, events, i, point);
        }
      }
    }
  }
}
