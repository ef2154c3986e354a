/** The `stillNeeded` of each call: asked once at the most, and by all that are there when checks end. */
module InstallChecks {
  import opened Common
  import opened InstallQueue
  import opened InstallQueueRuns
  import opened InstallCallRuns
  import opened InstallTime
  import opened InstallMoves

  /** The call has a `stillNeeded` and it was called. */
  predicate Asked(s: Raw, c: nat) {
    c < |s.calls| && s.calls[c].hasCheck && s.calls[c].checked
  }

  /** Its answer is being waited for. */
  predicate BeingAsked(s: State, c: nat) {
    c < |s.calls| && At(s, s.calls[c].install, Checking(c))
  }

  ghost predicate AskedIsMarked(s: State) {
    forall c: nat :: BeingAsked(s, c) ==> Asked(s, c)
  }

  /** What a step does to a call's `stillNeeded`: it is called when it was not yet, and is waited for in the
      step that calls it; one that was called is never called again. */
  ghost predicate AskedRight(s: State, r: State, c: nat) {
    && (Asked(s, c) ==> Asked(r, c))
    && (Asked(r, c) && !Asked(s, c) ==> BeingAsked(r, c))
    && (BeingAsked(r, c) && !BeingAsked(s, c) ==> Asked(r, c) && !Asked(s, c))
  }

  /** Every call on an install's list has been checked. */
  ghost predicate ListChecked(s: State, i: nat) {
    i < |s.installs| && forall k :: 0 <= k < |s.installs[i].calls| ==> s.calls[s.installs[i].calls[k]].checked
  }

  /** What going on with the checks of install `i` does. */
  ghost predicate Goes(s: State, r: State, i: nat) {
    && ChecksOnly(s, r, i)
    && (forall c: nat :: c < |s.calls| && s.calls[c].checked ==> r.calls[c].checked)
    && (forall c: nat :: c < |s.calls| && r.calls[c].checked && !s.calls[c].checked ==>
          s.calls[c].install == i && (s.calls[c].hasCheck ==> r.installs[i].point == Checking(c)))
    && (r.installs[i].point.Checking? ==>
          var c := r.installs[i].point.call;
          CallOf(s.calls, c, i) && s.calls[c].hasCheck && !s.calls[c].checked && r.calls[c].checked)
    && (r.installs[i].point == Checked ==> ListChecked(r, i))
  }

  lemma GoesChain(s: State, marked: State, r: State, i: nat, c: nat)
    requires CallOf(s.calls, c, i) && !s.calls[c].hasCheck && !s.calls[c].checked
    requires marked == s.(calls := s.calls[c := s.calls[c].(checked := true)]) && Goes(marked, r, i)
    ensures Goes(s, r, i)
  {
  }

  /** No call is left to check. */
  lemma GoesEnds(s: State, r: State, i: nat)
    requires ListChecked(s, i) && r == s.(installs := s.installs[i := s.installs[i].(point := Checked)])
    ensures Goes(s, r, i)
  {
  }

  /** A call with a `stillNeeded` is next. */
  lemma GoesAsks(s: State, r: State, i: nat, c: nat)
    requires i < |s.installs| && CallOf(s.calls, c, i) && s.calls[c].hasCheck && !s.calls[c].checked
    requires r == s.(calls := s.calls[c := s.calls[c].(checked := true)],
                     installs := s.installs[i := s.installs[i].(point := Checking(c))])
    ensures Goes(s, r, i)
  {
  }

  /** The checks of an install go on from place `k` of its list: they call what was not called, in no case
      twice, and end only when every call on the list is checked. */
  lemma {:induction false} ChecksGo(s: State, i: nat, k: nat)
    requires i < |s.installs| && k <= |s.installs[i].calls|
    requires forall j :: 0 <= j < k ==> s.calls[s.installs[i].calls[j]].checked
    ensures Goes(s, ContinueChecks(s, i, k), i)
    decreases |s.installs[i].calls| - k
  {
    if k == |s.installs[i].calls| {
      GoesEnds(s, ContinueChecks(s, i, k), i);
    } else {
      var c := s.installs[i].calls[k];
      assert CallOf(s.calls, c, i);
      if s.calls[c].checked {
        ChecksGo(s, i, k + 1);
      } else if s.calls[c].hasCheck {
        GoesAsks(s, ContinueChecks(s, i, k), i, c);
      } else {
        var marked: State := s.(calls := s.calls[c := s.calls[c].(checked := true)]);
        ChecksGo(marked, i, k + 1);
        GoesChain(s, marked, ContinueChecks(s, i, k), i, c);
      }
    }
  }

  // ---------------------------------------------------------------- steps

  /** No check is called, and none that is not being waited for begins to be. */
  ghost predicate NoneAsked(s: State, m: State) {
    && (forall c: nat :: Asked(m, c) <==> Asked(s, c))
    && (forall c: nat :: BeingAsked(m, c) ==> BeingAsked(s, c))
  }

  /** The whole of what a step keeps and does about the checks. */
  ghost predicate ChecksRight(s: State, r: State) {
    AskedIsMarked(r) && forall c: nat :: AskedRight(s, r, c)
  }

  lemma NoneRight(s: State, r: State)
    requires AskedIsMarked(s) && NoneAsked(s, r)
    ensures ChecksRight(s, r)
  {
    forall c: nat
      ensures AskedRight(s, r, c) && (BeingAsked(r, c) ==> Asked(r, c))
    {
      assert BeingAsked(r, c) ==> BeingAsked(s, c);
    }
  }

  /** Checks of install `i` go on from `m`, which asks nothing more than `s`. */
  lemma GoesRight(s: State, m: State, r: State, i: nat)
    requires AskedIsMarked(s) && NoneAsked(s, m) && Goes(m, r, i)
    ensures ChecksRight(s, r)
  {
    forall c: nat
      ensures AskedRight(s, r, c) && (BeingAsked(r, c) ==> Asked(r, c))
    {
      assert BeingAsked(m, c) ==> BeingAsked(s, c);
      if BeingAsked(r, c) && r.calls[c].install != i {
        assert BeingAsked(m, c);
      }
    }
  }

  lemma SameNone(s: State, m: State, r: State)
    requires NoneAsked(s, m) && SameInstalls(m, r)
    ensures NoneAsked(s, r)
  {
    forall c: nat
      ensures Asked(r, c) <==> Asked(m, c)
      ensures BeingAsked(r, c) ==> BeingAsked(m, c)
    {
    }
  }

  lemma MovedNone(s: State, m: State, i: nat, state: InstallState, point: RunPoint)
    requires NoneAsked(s, m) && i < |m.installs| && !point.Checking?
    ensures NoneAsked(s, SetRun(m, i, state, point))
  {
    var r := SetRun(m, i, state, point);
    forall c: nat
      ensures Asked(r, c) <==> Asked(m, c)
      ensures BeingAsked(r, c) ==> BeingAsked(m, c)
    {
    }
  }

  lemma PumpChecks(s: State, m: State, p: Platform)
    requires AskedIsMarked(s) && NoneAsked(s, m)
    ensures ChecksRight(s, Pump(m, p))
  {
    var q := Queue(m, p);
    if q == [] || m.installs[q[0]].state != Waiting || p in m.turns {
      NoneRight(s, m);
    } else {
      var started := SetRun(m, q[0], Front, Checked);
      MovedNone(s, m, q[0], Front, Checked);
      ChecksGo(started, q[0], 0);
      GoesRight(s, started, Pump(m, p), q[0]);
    }
  }

  lemma QueuesNone(s: State, m: State, r: State)
    requires NoneAsked(s, m) && r.calls == m.calls && r.installs == m.installs
    ensures NoneAsked(s, r)
  {
    forall c: nat
      ensures Asked(r, c) <==> Asked(m, c)
      ensures BeingAsked(r, c) ==> BeingAsked(m, c)
    {
    }
  }

  lemma LeaveChecks(s: State, m: State, i: nat)
    requires AskedIsMarked(s) && NoneAsked(s, m) && i < |m.installs|
    ensures ChecksRight(s, Leave(m, i))
  {
    var p := m.installs[i].platform;
    var ended := SetRun(m, i, Ended, Gone);
    WithoutKeeps(Queue(ended, p), i);
    var left: State := ended.(queues := ended.queues[p := Without(Queue(ended, p), i)]);
    MovedNone(s, m, i, Ended, Gone);
    QueuesNone(s, ended, left);
    PumpChecks(s, left, p);
  }

  lemma SettledLeaveChecks(s: State, i: nat, outcome: Outcome)
    requires AskedIsMarked(s) && i < |s.installs|
    ensures |SettleAll(s, i, outcome).installs| == |s.installs|
    ensures ChecksRight(s, Leave(SettleAll(s, i, outcome), i))
  {
    SettleAllKeeps(s, i, outcome);
    SameNone(s, s, SettleAll(s, i, outcome));
    LeaveChecks(s, SettleAll(s, i, outcome), i);
  }

  lemma SettledMoveChecks(s: State, i: nat, outcome: Outcome, state: InstallState, point: RunPoint)
    requires AskedIsMarked(s) && i < |s.installs| && !point.Checking?
    ensures |SettleAll(s, i, outcome).installs| == |s.installs|
    ensures ChecksRight(s, SetRun(s, i, state, point))
    ensures ChecksRight(s, SetRun(SettleAll(s, i, outcome), i, state, point))
  {
    SettleAllKeeps(s, i, outcome);
    SameNone(s, s, SettleAll(s, i, outcome));
    MovedNone(s, s, i, state, point);
    MovedNone(s, SettleAll(s, i, outcome), i, state, point);
    NoneRight(s, SetRun(s, i, state, point));
    NoneRight(s, SetRun(SettleAll(s, i, outcome), i, state, point));
  }

  lemma JoinNone(s: State, m: State, i: nat, hasCheck: bool)
    requires NoneAsked(s, m) && i < |m.installs|
    ensures NoneAsked(s, Join(m, i, hasCheck))
  {
    var r := Join(m, i, hasCheck);
    forall c: nat
      ensures Asked(r, c) <==> Asked(m, c)
      ensures BeingAsked(r, c) ==> BeingAsked(m, c)
    {
      if c == |m.calls| {
        assert forall j: nat :: j < |m.installs| && m.installs[j].point.Checking? ==>
            CallOf(m.calls, m.installs[j].point.call, j);
      }
    }
  }

  lemma EnqueueNone(s: State, p: Platform, component: string)
    ensures NoneAsked(s, Enqueue(s, p, component))
  {
    var r := Enqueue(s, p, component);
    forall c: nat
      ensures Asked(r, c) <==> Asked(s, c)
      ensures BeingAsked(r, c) ==> BeingAsked(s, c)
    {
    }
  }

  lemma ArrivalChecks(s: State, p: Platform, component: string, hasCheck: bool)
    requires AskedIsMarked(s)
    ensures ChecksRight(s, Arrive(s, p, component, hasCheck))
  {
    match Joinable(s, Queue(s, p), component)
    case Some(i) =>
      JoinNone(s, s, i, hasCheck);
      PumpChecks(s, Join(s, i, hasCheck), p);
    case None =>
      EnqueueNone(s, p, component);
      JoinNone(s, Enqueue(s, p, component), |s.installs|, hasCheck);
      PumpChecks(s, Join(Enqueue(s, p, component), |s.installs|, hasCheck), p);
  }

  /** The state whose checks go on after an answer. */
  function Answered(s: State, i: nat, answer: CheckAnswer): State
    requires i < |s.installs| && s.installs[i].point.Checking?
  {
    if answer == StillNeeded then s
    else Settle(s, s.installs[i].point.call, if answer == NoLongerNeeded then NotNeeded else InstallError)
  }

  lemma AnsweredSame(s: State, i: nat, answer: CheckAnswer)
    requires i < |s.installs| && s.installs[i].point.Checking?
    ensures SameInstalls(s, Answered(s, i, answer))
  {
  }

  lemma AnsweredGoes(s: State, i: nat, answer: CheckAnswer)
    requires i < |s.installs| && s.installs[i].point.Checking?
    ensures i < |Answered(s, i, answer).installs| && Goes(Answered(s, i, answer), AfterCheck(s, i, answer), i)
  {
    AnsweredSame(s, i, answer);
    ChecksGo(Answered(s, i, answer), i, 0);
  }

  /** An answer that came is not waited for again. */
  lemma CheckChecks(s: State, i: nat, answer: CheckAnswer)
    requires AskedIsMarked(s) && i < |s.installs| && s.installs[i].point.Checking?
    ensures ChecksRight(s, AfterCheck(s, i, answer))
    ensures !BeingAsked(AfterCheck(s, i, answer), s.installs[i].point.call)
  {
    var c := s.installs[i].point.call;
    assert CallOf(s.calls, c, i) && BeingAsked(s, c);
    AnsweredSame(s, i, answer);
    AnsweredGoes(s, i, answer);
    SameNone(s, s, Answered(s, i, answer));
    GoesRight(s, Answered(s, i, answer), AfterCheck(s, i, answer), i);
  }

  lemma EndedNone(s: State, i: nat)
    requires i < |s.installs|
    ensures NoneAsked(s, SetRun(s, i, Ended, s.installs[i].point))
  {
    var r := SetRun(s, i, Ended, s.installs[i].point);
    forall c: nat
      ensures Asked(r, c) <==> Asked(s, c)
      ensures BeingAsked(r, c) ==> BeingAsked(s, c)
    {
    }
  }

  lemma ExpireNone(s: State, c: nat)
    requires c < |s.calls|
    ensures NoneAsked(s, Expire(s, c))
  {
    var i := s.calls[c].install;
    if s.installs[i].state == Running {
      var ended := SetRun(s, i, Ended, s.installs[i].point);
      EndedNone(s, i);
      SettleAllKeeps(ended, i, TimedOut);
      SameNone(s, ended, SettleAll(ended, i, TimedOut));
    } else {
      SameNone(s, s, Settle(s, c, TimedOut));
    }
  }

  lemma ExpireChecks(s: State, c: nat)
    requires AskedIsMarked(s) && c < |s.calls|
    ensures ChecksRight(s, Expire(Disarmed(s, c), c))
  {
    SameNone(s, s, Disarmed(s, c));
    ExpireNone(Disarmed(s, c), c);
    NoneRight(s, Expire(Disarmed(s, c), c));
  }

  lemma FindChecks(s: State, i: nat, found: FindResult)
    requires AskedIsMarked(s) && i < |s.installs|
    ensures ChecksRight(s, AfterFind(s, i, found))
  {
    if found == MissingComponent {
      LeaveChecks(s, s, i);
      SettledMoveChecks(s, i, InstallError, Front, Reserving);
    } else {
      SettledLeaveChecks(s, i, if found == FoundComponent then AlreadyInstalled else InstallError);
    }
  }

  lemma ReserveChecks(s: State, i: nat, ok: bool)
    requires AskedIsMarked(s) && i < |s.installs|
    ensures ChecksRight(s, AfterReserve(s, i, ok))
  {
    if ok {
      LeaveChecks(s, s, i);
      SettledMoveChecks(s, i, InstallError, Running, Driving);
    } else {
      SettledLeaveChecks(s, i, InstallError);
    }
  }

  lemma DriverChecks(s: State, i: nat, result: DriverResult)
    requires AskedIsMarked(s) && i < |s.installs|
    ensures ChecksRight(s, AfterDriver(s, i, result))
  {
    var state := s.installs[i].state;
    match result
    case DriverFailed => SettledMoveChecks(s, i, InstallError, state, Failed);
    case DriverAlreadyInstalled => SettledMoveChecks(s, i, AlreadyInstalled, state, Succeeded);
    case DriverInstalled =>
      SettledMoveChecks(s, i, InstallError, if state == Running then Recording else state, Committing);
  }

  lemma CommitChecks(s: State, i: nat, ok: bool)
    requires AskedIsMarked(s) && i < |s.installs|
    ensures ChecksRight(s, AfterCommit(s, i, ok))
  {
    SettledMoveChecks(s, i, Installed, s.installs[i].state, if ok then Succeeded else Failed);
  }

  lemma ResumeChecks(s: State, i: nat)
    requires AskedIsMarked(s) && i < |s.installs|
    ensures ChecksRight(s, AfterRunDriver(s, i))
  {
    LeaveChecks(s, s, i);
    SettledLeaveChecks(s, i, InstallError);
  }

  lemma ChecksDoneChecks(s: State, i: nat)
    requires AskedIsMarked(s) && i < |s.installs|
    ensures ChecksRight(s, AfterChecks(s, i))
  {
    LeaveChecks(s, s, i);
    SettledMoveChecks(s, i, InstallError, Front, Finding);
  }

  lemma RunChecks(s: State, e: Event)
    requires AskedIsMarked(s) && Enabled(s, e) && OfRun(e)
    ensures ChecksRight(s, Step(s, e))
  {
    match e
    case CheckReturned(i, answer) => CheckChecks(s, i, answer);
    case ChecksDone(i) => ChecksDoneChecks(s, i);
    case FindReturned(i, found) => FindChecks(s, i, found);
    case ReserveReturned(i, ok) => ReserveChecks(s, i, ok);
    case DriverReturned(i, result) => DriverChecks(s, i, result);
    case CommitReturned(i, ok) => CommitChecks(s, i, ok);
    case Resume(i) => ResumeChecks(s, i);
  }

  lemma CloseChecks(s: State, platforms: seq<Platform>)
    requires AskedIsMarked(s)
    ensures ChecksRight(s, CloseQueues(s.(closed := true), platforms))
  {
    QueuesNone(s, s, s.(closed := true));
    CloseQueuesKeeps(s.(closed := true), platforms);
    SameNone(s, s.(closed := true), CloseQueues(s.(closed := true), platforms));
    NoneRight(s, CloseQueues(s.(closed := true), platforms));
  }

  /** Time passing and a removal's turn. */
  lemma PlainChecks(s: State, e: Event)
    requires AskedIsMarked(s) && Enabled(s, e) && (e.Tick? || e.TakeTurn? || e.GiveTurn?)
    ensures ChecksRight(s, Step(s, e))
  {
    match e
    case Tick(to) =>
      QueuesNone(s, s, s.(now := to));
      NoneRight(s, s.(now := to));
    case TakeTurn(p) =>
      QueuesNone(s, s, s.(turns := s.turns + {p}));
      NoneRight(s, s.(turns := s.turns + {p}));
    case GiveTurn(p) =>
      QueuesNone(s, s, s.(turns := s.turns - {p}));
      PumpChecks(s, s.(turns := s.turns - {p}), p);
  }

  lemma StepChecks(s: State, e: Event)
    requires AskedIsMarked(s)
    ensures ChecksRight(s, Step(s, e))
  {
    if !Enabled(s, e) {
      NoneRight(s, s);
    } else {
      match e
      case Arrival(p, component, hasCheck) => ArrivalChecks(s, p, component, hasCheck);
      case Timer(c) => ExpireChecks(s, c);
      case Close(platforms) => CloseChecks(s, platforms);
      case Tick(_) => PlainChecks(s, e);
      case TakeTurn(_) => PlainChecks(s, e);
      case GiveTurn(_) => PlainChecks(s, e);
      case _ => RunChecks(s, e);
    }
  }

  // ---------------------------------------------------------------- theorems

  lemma {:induction false} RunAskedIsMarked(timeoutMs: nat, events: seq<Event>)
    ensures AskedIsMarked(Run(timeoutMs, events))
  {
    if events != [] {
      RunAskedIsMarked(timeoutMs, events[..|events| - 1]);
      StepChecks(Run(timeoutMs, events[..|events| - 1]), events[|events| - 1]);
    }
  }

  /**
   * In every run and for every next event: a call's `stillNeeded` is called only if it was not called before,
   * the install waits for it from the step that calls it, and it waits for no other; the answer ends the wait.
   */
  lemma {:induction false} StillNeededCalledOnce(timeoutMs: nat, events: seq<Event>, e: Event, c: nat)
    ensures var s := Run(timeoutMs, events);
            && AskedRight(s, Step(s, e), c)
            && (BeingAsked(s, c) && e.CheckReturned? && e.i == s.calls[c].install ==> !BeingAsked(Step(s, e), c))
  {
    var s := Run(timeoutMs, events);
    RunAskedIsMarked(timeoutMs, events);
    StepChecks(s, e);
    if BeingAsked(s, c) && e.CheckReturned? && e.i == s.calls[c].install {
      CheckChecks(s, e.i, e.answer);
    }
  }
}
