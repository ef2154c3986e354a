/** Which calls an ended install can have: the source says none. */
module InstallEnded {
  import opened Common
  import opened InstallQueue
  import opened InstallQueueRuns
  import opened InstallCallRuns
  import opened InstallTime

  /** Ended by a timeout, and still at the head of its queue because its driver runs on. */
  predicate EndedInQueue(install: Install) {
    install.state == Ended && install.point != Gone
  }

  ghost predicate EndedIdle(s: State) {
    forall i: nat :: i < |s.installs| && EndedInQueue(s.installs[i]) ==> s.installs[i].calls == []
  }

  lemma PumpIdle(s: State, p: Platform)
    requires EndedIdle(s)
    ensures EndedIdle(Pump(s, p))
  {
    PumpEffect(s, p);
  }

  lemma LeaveIdle(s: State, i: nat)
    requires EndedIdle(s) && i < |s.installs|
    ensures EndedIdle(Leave(s, i))
  {
    var p := s.installs[i].platform;
    WithoutKeeps(Queue(s, p), i);
    PumpIdle(SetRun(s, i, Ended, Gone).(queues := s.queues[p := Without(Queue(s, p), i)]), p);
  }

  lemma SettleAllIdle(s: State, i: nat, outcome: Outcome)
    requires CallsOk(s) && i < |s.installs| && EndedIdle(s)
    ensures SettleAll(s, i, outcome).installs == s.installs[i := s.installs[i].(calls := [])]
    ensures EndedIdle(SettleAll(s, i, outcome))
  {
    assert ListOk(s, i);
    SettleAllEffect(s, i, outcome);
  }

  lemma SettledLeaveIdle(s: State, i: nat, outcome: Outcome)
    requires CallsOk(s) && i < |s.installs| && EndedIdle(s)
    ensures |SettleAll(s, i, outcome).installs| == |s.installs|
    ensures EndedIdle(Leave(SettleAll(s, i, outcome), i))
  {
    SettleAllIdle(s, i, outcome);
    LeaveIdle(SettleAll(s, i, outcome), i);
  }

  /** A call joins an install that has not ended. */
  lemma JoinIdle(s: State, i: nat, hasCheck: bool)
    requires EndedIdle(s) && i < |s.installs| && s.installs[i].state != Ended
    ensures EndedIdle(Join(s, i, hasCheck))
  {
  }

  lemma ArriveIdle(s: State, p: Platform, component: string, hasCheck: bool)
    requires EndedIdle(s)
    ensures EndedIdle(Arrive(s, p, component, hasCheck))
  {
    var found := Joinable(s, Queue(s, p), component);
    if found.Some? {
      JoinIdle(s, found.value, hasCheck);
      PumpIdle(Join(s, found.value, hasCheck), p);
    } else {
      var queued := Enqueue(s, p, component);
      JoinIdle(queued, |s.installs|, hasCheck);
      PumpIdle(Join(queued, |s.installs|, hasCheck), p);
    }
  }

  lemma CheckIdle(s: State, i: nat, answer: CheckAnswer)
    requires EndedIdle(s) && i < |s.installs| && s.installs[i].point.Checking?
    ensures EndedIdle(AfterCheck(s, i, answer))
  {
    var c := s.installs[i].point.call;
    var settled :=
      if answer == StillNeeded then s
      else Settle(s, c, if answer == NoLongerNeeded then NotNeeded else InstallError);
    assert EndedIdle(settled);
    ContinueChecksEffect(settled, i, 0);
  }

  lemma ExpireIdle(s: State, c: nat)
    requires CallsOk(s) && EndedIdle(s) && Open(s, c)
    ensures EndedIdle(Expire(s, c))
  {
    var i := s.calls[c].install;
    if s.installs[i].state == Running {
      var ended := SetRun(s, i, Ended, s.installs[i].point);
      assert ListOk(s, i);
      SettleAllEffect(ended, i, TimedOut);
    }
  }

  lemma TimerIdle(s: State, c: nat)
    requires CallsOk(s) && EndedIdle(s) && Enabled(s, Timer(c))
    ensures EndedIdle(Step(s, Timer(c)))
  {
    assert CallOk(s, c);
    ExpireIgnoresTimer(s, c);
    ExpireIdle(s, c);
  }

  lemma CloseIdle(s: State, platforms: seq<Platform>)
    requires CallsOk(s) && EndedIdle(s)
    ensures EndedIdle(CloseQueues(s.(closed := true), platforms))
  {
    var closed: State := s.(closed := true);
    TimersNotDue(s);
    ClockCalls(s, closed);
    CloseQueuesCalls(closed, platforms);
  }

  lemma DriverIdle(s: State, i: nat, result: DriverResult)
    requires CallsOk(s) && EndedIdle(s) && At(s, i, Driving)
    ensures EndedIdle(AfterDriver(s, i, result))
  {
    SettleAllIdle(s, i, AlreadyInstalled);
  }

  lemma CommitIdle(s: State, i: nat, ok: bool)
    requires CallsOk(s) && EndedIdle(s) && At(s, i, Committing)
    ensures EndedIdle(AfterCommit(s, i, ok))
  {
    SettleAllIdle(s, i, Installed);
  }

  lemma FindIdle(s: State, i: nat, found: FindResult)
    requires CallsOk(s) && EndedIdle(s) && At(s, i, Finding)
    ensures EndedIdle(AfterFind(s, i, found))
  {
    if found == MissingComponent {
      LeaveIdle(s, i);
    } else {
      SettledLeaveIdle(s, i, if found == FoundComponent then AlreadyInstalled else InstallError);
    }
  }

  lemma ReserveIdle(s: State, i: nat, ok: bool)
    requires CallsOk(s) && EndedIdle(s) && At(s, i, Reserving)
    ensures EndedIdle(AfterReserve(s, i, ok))
  {
    if ok {
      LeaveIdle(s, i);
    } else {
      SettledLeaveIdle(s, i, InstallError);
    }
  }

  lemma ResumeIdle(s: State, i: nat)
    requires CallsOk(s) && EndedIdle(s) && i < |s.installs|
    ensures EndedIdle(AfterRunDriver(s, i))
  {
    if s.installs[i].point == Failed {
      SettledLeaveIdle(s, i, InstallError);
    } else {
      LeaveIdle(s, i);
    }
  }

  lemma RunIdle(s: State, e: Event)
    requires CallsOk(s) && EndedIdle(s) && Enabled(s, e) && OfRun(e)
    ensures EndedIdle(Step(s, e))
  {
    match e
    case CheckReturned(i, answer) => CheckIdle(s, i, answer);
    case ChecksDone(i) => LeaveIdle(s, i);
    case FindReturned(i, found) => FindIdle(s, i, found);
    case ReserveReturned(i, ok) => ReserveIdle(s, i, ok);
    case DriverReturned(i, result) => DriverIdle(s, i, result);
    case CommitReturned(i, ok) => CommitIdle(s, i, ok);
    case Resume(i) => ResumeIdle(s, i);
  }

  lemma StepIdle(s: State, e: Event)
    requires Good(s) && EndedIdle(s)
    ensures EndedIdle(Step(s, e))
  {
    if Enabled(s, e) {
      match e
      case Arrival(p, component, hasCheck) => ArriveIdle(s, p, component, hasCheck);
      case Timer(c) => TimerIdle(s, c);
      case Tick(_) =>
      case TakeTurn(_) =>
      case GiveTurn(p) => PumpIdle(s.(turns := s.turns - {p}), p);
      case Close(platforms) => CloseIdle(s, platforms);
      case _ => RunIdle(s, e);
    }
  }

  lemma {:induction false} RunEndedIdle(timeoutMs: nat, events: seq<Event>)
    ensures EndedIdle(Run(timeoutMs, events))
  {
    if events != [] {
      var before := events[..|events| - 1];
      RunEndedIdle(timeoutMs, before);
      RunOk(timeoutMs, before);
      StepIdle(Run(timeoutMs, before), events[|events| - 1]);
    }
  }

  // ---------------------------------------------------------------- theorems

  /** A call of install `i` that joined it after its success was settled and is still open. */
  ghost predicate LateOpen(s: State, i: nat, c: nat) {
    Open(s, c) && s.calls[c].install == i && s.calls[c].joinedAt == Succeeded
  }

  ghost predicate HasLateCall(s: State, i: nat) {
    exists c: nat :: LateOpen(s, i, c)
  }

  lemma EndedCalls(s: State, i: nat)
    requires CallsOk(s) && EndedIdle(s) && i < |s.installs| && s.installs[i].state == Ended
    ensures s.installs[i].calls != [] <==> s.installs[i].point == Gone && HasLateCall(s, i)
  {
    var list := s.installs[i].calls;
    if list != [] {
      assert ListOk(s, i) && CallsOf(s.calls, list, i);
      assert CallOf(s.calls, list[0], i) && Open(s, list[0]) && CallOk(s, list[0]);
      assert LateOpen(s, i, list[0]);
    }
    if HasLateCall(s, i) {
      var c: nat :| LateOpen(s, i, c);
      assert CallOk(s, c);
    }
  }

  /**
   * The source says that an ended install never has a call. In every run that holds of an ended install
   * that is still in its queue; and an ended install has a call if and only if it has left its queue and a
   * call that joined it after its success was settled is still open.
   */
  lemma {:induction false} EndedHasACallExactlyWhenLate(timeoutMs: nat, events: seq<Event>, i: nat)
    requires i < |Run(timeoutMs, events).installs| && Run(timeoutMs, events).installs[i].state == Ended
    ensures var s := Run(timeoutMs, events);
            && (s.installs[i].point != Gone ==> s.installs[i].calls == [])
            && (s.installs[i].calls != [] <==> s.installs[i].point == Gone && HasLateCall(s, i))
  {
    RunOk(timeoutMs, events);
    RunEndedIdle(timeoutMs, events);
    EndedCalls(Run(timeoutMs, events), i);
  }
}
