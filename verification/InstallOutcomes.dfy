/** How the calls of a run end: which answer gives which outcome, and what lies behind an outcome. */
module InstallOutcomes {
  import opened Common
  import opened InstallQueue
  import opened InstallQueueRuns
  import opened InstallCallRuns
  import opened InstallTime
  import opened InstallMoves

  // ---------------------------------------------------------------- how a call ends

  /** The event can happen and ends an open call with this outcome: each outcome has its own causes. */
  ghost predicate EndsWith(s: State, e: Event, c: nat, outcome: Outcome)
    requires c < |s.calls|
  {
    var i := s.calls[c].install;
    var install := s.installs[i];
    && Enabled(s, e)
    && match outcome
       case Installed => e == CommitReturned(i, true)
       case AlreadyInstalled =>
         e == FindReturned(i, FoundComponent) || e == DriverReturned(i, DriverAlreadyInstalled)
       case NotNeeded => e == CheckReturned(i, NoLongerNeeded) && install.point == Checking(c)
       case InstallError =>
         || (e == CheckReturned(i, CheckThrew) && install.point == Checking(c))
         || e == FindReturned(i, FindFailed) || e == ReserveReturned(i, false)
         || (e == Resume(i) && install.point == Failed)
       case TimedOut =>
         e.Timer? && (e.c == c || (s.calls[e.c].install == i && install.state == Running))
       case Closed => e.Close? && install.point != Gone
  }

  /** The call is settled in the step from `s` to `r`, with this outcome. */
  ghost predicate EndedNow(s: State, r: State, c: nat, outcome: Outcome) {
    c < |r.calls| && r.calls[c].settlements == [Settlement(outcome, s.now)]
  }

  /** An open call ends in the step with an outcome exactly when the event is a cause of it, and
      otherwise stays open on its install. */
  ghost predicate EndsRight(s: State, r: State, e: Event, c: nat)
    requires c < |s.calls|
  {
    && c < |r.calls| && r.calls[c].install == s.calls[c].install
    && (forall outcome :: EndedNow(s, r, c, outcome) <==> EndsWith(s, e, c, outcome))
    && (Open(r, c) || exists outcome :: EndedNow(s, r, c, outcome))
  }

  /** The one outcome a step gave the call, or none; a call that has ended stays as it ended. */
  ghost predicate Given(s: State, r: State, c: nat, given: Option<Outcome>)
    requires c < |s.calls|
  {
    && c < |r.calls| && r.calls[c].install == s.calls[c].install
    && r.calls[c].settlements
       == s.calls[c].settlements + if given.Some? then [Settlement(given.value, s.now)] else []
  }

  /** The outcome an event gives an open call, event by event. */
  function Caused(s: State, e: Event, c: nat): Option<Outcome>
    requires c < |s.calls|
  {
    var i := s.calls[c].install;
    if !Open(s, c) then None
    else match e
      case CheckReturned(j, answer) =>
        if !At(s, j, Checking(c)) || answer == StillNeeded then None
        else Some(if answer == NoLongerNeeded then NotNeeded else InstallError)
      case FindReturned(j, found) =>
        if j != i || found == MissingComponent then None
        else Some(if found == FoundComponent then AlreadyInstalled else InstallError)
      case ReserveReturned(j, ok) => if j == i && !ok then Some(InstallError) else None
      case DriverReturned(j, result) =>
        if j == i && result == DriverAlreadyInstalled then Some(AlreadyInstalled) else None
      case CommitReturned(j, ok) => if j == i && ok then Some(Installed) else None
      case Resume(j) => if j == i && At(s, i, Failed) then Some(InstallError) else None
      case Timer(d) =>
        if d == c || (d < |s.calls| && s.calls[d].install == i && s.installs[i].state == Running) then Some(TimedOut)
        else None
      case Close(_) => if At(s, i, Gone) then None else Some(Closed)
      case _ => None
  }

  /** The two tables agree: the causes of an outcome, and the outcome of an event. */
  lemma CausedRight(s: State, e: Event, c: nat, outcome: Outcome)
    requires Open(s, c) && Enabled(s, e)
    ensures EndsWith(s, e, c, outcome) <==> Caused(s, e, c) == Some(outcome)
  {
    if e.CheckReturned? && At(s, e.i, Checking(c)) {
      assert CallOf(s.calls, c, e.i);
    }
  }

  lemma GivenRight(s: State, r: State, e: Event, c: nat)
    requires Open(s, c) && Enabled(s, e) && Given(s, r, c, Caused(s, e, c))
    ensures EndsRight(s, r, e, c)
  {
    var caused := Caused(s, e, c);
    if caused.Some? {
      assert [] + [Settlement(caused.value, s.now)] == [Settlement(caused.value, s.now)];
      assert EndedNow(s, r, c, caused.value);
    }
    forall outcome
      ensures EndedNow(s, r, c, outcome) <==> EndsWith(s, e, c, outcome)
    {
      CausedRight(s, e, c, outcome);
      assert EndedNow(s, r, c, outcome) ==> r.calls[c].settlements[0].outcome == outcome;
    }
  }

  /** Nothing but the marks of the checks changed on the calls there were. */
  ghost predicate SameSettlements(s: State, r: State) {
    && |s.calls| <= |r.calls|
    && forall c: nat :: c < |s.calls| ==> r.calls[c] == s.calls[c].(checked := r.calls[c].checked)
  }

  lemma SameGives(s: State, r: State, c: nat)
    requires c < |s.calls| && SameSettlements(s, r)
    ensures Given(s, r, c, None)
  {
  }

  /** An install's open calls are its list. */
  lemma OpenIsListed(s: State, c: nat, i: nat)
    requires CallsOk(s) && c < |s.calls| && i < |s.installs|
    ensures c in s.installs[i].calls <==> Open(s, c) && s.calls[c].install == i
  {
    assert CallOk(s, c) && ListOk(s, i) && CallsOf(s.calls, s.installs[i].calls, i);
    if c in s.installs[i].calls {
      var k :| 0 <= k < |s.installs[i].calls| && s.installs[i].calls[k] == c;
      assert CallOf(s.calls, s.installs[i].calls[k], i);
    }
  }

  /** What settling all calls of an install gives each open call. */
  lemma SettledGives(s: State, i: nat, c: nat, outcome: Outcome)
    requires CallsOk(s) && c < |s.calls| && i < |s.installs|
    ensures Given(s, SettleAll(s, i, outcome), c, if Open(s, c) && s.calls[c].install == i then Some(outcome) else None)
    ensures |SettleAll(s, i, outcome).installs| == |s.installs|
  {
    assert ListOk(s, i);
    SettleAllEffect(s, i, outcome);
    OpenIsListed(s, c, i);
  }

  lemma LeftGives(s: State, i: nat, c: nat, outcome: Outcome)
    requires CallsOk(s) && c < |s.calls| && i < |s.installs|
    ensures |SettleAll(s, i, outcome).installs| == |s.installs|
    ensures Given(s, Leave(SettleAll(s, i, outcome), i), c,
                  if Open(s, c) && s.calls[c].install == i then Some(outcome) else None)
  {
    SettledGives(s, i, c, outcome);
    LeaveKeepsCalls(SettleAll(s, i, outcome), i);
  }

  lemma LeftAlone(s: State, i: nat)
    requires i < |s.installs|
    ensures SameSettlements(s, Leave(s, i))
  {
    LeaveKeepsCalls(s, i);
  }

  lemma CheckGives(s: State, i: nat, answer: CheckAnswer, c: nat)
    requires CallsOk(s) && c < |s.calls| && Enabled(s, CheckReturned(i, answer))
    ensures Given(s, AfterCheck(s, i, answer), c, Caused(s, CheckReturned(i, answer), c))
  {
    var d := s.installs[i].point.call;
    var settled :=
      if answer == StillNeeded then s
      else Settle(s, d, if answer == NoLongerNeeded then NotNeeded else InstallError);
    assert CallOf(s.calls, d, i);
    OpenIsListed(s, c, i);
    ContinueChecksEffect(settled, i, 0);
  }

  lemma ChecksDoneGives(s: State, i: nat, c: nat)
    requires c < |s.calls| && At(s, i, Checked)
    ensures Given(s, AfterChecks(s, i), c, None)
  {
    LeftAlone(s, i);
    SameGives(s, AfterChecks(s, i), c);
  }

  /** A lookup that found the component, or failed. */
  lemma FoundGives(s: State, i: nat, found: FindResult, c: nat)
    requires CallsOk(s) && c < |s.calls| && At(s, i, Finding) && found != MissingComponent
    ensures Given(s, AfterFind(s, i, found), c, Caused(s, FindReturned(i, found), c))
  {
    LeftGives(s, i, c, if found == FoundComponent then AlreadyInstalled else InstallError);
  }

  lemma MissingGives(s: State, i: nat, c: nat)
    requires c < |s.calls| && At(s, i, Finding)
    ensures Given(s, AfterFind(s, i, MissingComponent), c, None)
  {
    LeftAlone(s, i);
    SameGives(s, AfterFind(s, i, MissingComponent), c);
  }

  lemma RefusedGives(s: State, i: nat, c: nat)
    requires CallsOk(s) && c < |s.calls| && At(s, i, Reserving)
    ensures Given(s, AfterReserve(s, i, false), c, Caused(s, ReserveReturned(i, false), c))
  {
    LeftGives(s, i, c, InstallError);
  }

  lemma ReservedGives(s: State, i: nat, c: nat)
    requires c < |s.calls| && At(s, i, Reserving)
    ensures Given(s, AfterReserve(s, i, true), c, None)
  {
    LeftAlone(s, i);
    SameGives(s, AfterReserve(s, i, true), c);
  }

  lemma DriverGives(s: State, i: nat, result: DriverResult, c: nat)
    requires CallsOk(s) && c < |s.calls| && At(s, i, Driving)
    ensures Given(s, AfterDriver(s, i, result), c, Caused(s, DriverReturned(i, result), c))
  {
    SettledGives(s, i, c, AlreadyInstalled);
  }

  lemma CommitGives(s: State, i: nat, ok: bool, c: nat)
    requires CallsOk(s) && c < |s.calls| && At(s, i, Committing)
    ensures Given(s, AfterCommit(s, i, ok), c, Caused(s, CommitReturned(i, ok), c))
  {
    SettledGives(s, i, c, Installed);
  }

  lemma ThrewGives(s: State, i: nat, c: nat)
    requires CallsOk(s) && c < |s.calls| && At(s, i, Failed)
    ensures Given(s, AfterRunDriver(s, i), c, Caused(s, Resume(i), c))
  {
    LeftGives(s, i, c, InstallError);
  }

  lemma ReturnedGives(s: State, i: nat, c: nat)
    requires c < |s.calls| && At(s, i, Succeeded)
    ensures Given(s, AfterRunDriver(s, i), c, None)
  {
    LeftAlone(s, i);
    SameGives(s, AfterRunDriver(s, i), c);
  }

  lemma ExpireGives(s: State, d: nat, c: nat)
    requires CallsOk(s) && c < |s.calls| && Open(s, d)
    ensures Given(s, Expire(s, d), c, Caused(s, Timer(d), c))
  {
    var j := s.calls[d].install;
    OpenIsListed(s, d, j);
    if s.installs[j].state == Running {
      var ended := SetRun(s, j, Ended, s.installs[j].point);
      assert ListOk(s, j);
      SettleAllEffect(ended, j, TimedOut);
      OpenIsListed(s, c, j);
    }
  }

  lemma TimerGives(s: State, d: nat, c: nat)
    requires CallsOk(s) && c < |s.calls| && Enabled(s, Timer(d))
    ensures Given(s, Expire(Disarmed(s, d), d), c, Caused(s, Timer(d), c))
  {
    assert CallOk(s, d);
    ExpireIgnoresTimer(s, d);
    ExpireGives(s, d, c);
  }

  /** Whatever settles calls in a close settles them as closed. */
  ghost predicate OnlyClosed(s: State, r: State) {
    && r.now == s.now && |r.calls| == |s.calls|
    && forall c: nat :: c < |s.calls| ==>
         && r.calls[c].install == s.calls[c].install
         && (|| r.calls[c].settlements == s.calls[c].settlements
             || (s.calls[c].settlements == [] && r.calls[c].settlements == [Settlement(Closed, s.now)]))
  }

  lemma ClosesAll(s: State, i: nat)
    requires CallsOk(s) && i < |s.installs|
    ensures OnlyClosed(s, SettleAll(s, i, Closed))
  {
    assert ListOk(s, i);
    SettleAllEffect(s, i, Closed);
  }

  lemma ClosedChain(s: State, next: State, r: State)
    requires OnlyClosed(s, next) && OnlyClosed(next, r)
    ensures OnlyClosed(s, r)
  {
  }

  lemma {:induction false} CloseQueueOnlyClosed(s: State, q: seq<nat>)
    requires CallsOk(s) && Below(q, |s.installs|)
    ensures OnlyClosed(s, CloseQueue(s, q))
    decreases |q|
  {
    if q != [] {
      var next := SettleAll(s, q[0], Closed);
      ClosesAll(s, q[0]);
      SettleAllOk(s, q[0], Closed);
      CloseQueueOnlyClosed(next, q[1..]);
      ClosedChain(s, next, CloseQueue(s, q));
    }
  }

  lemma {:induction false} CloseQueuesOnlyClosed(s: State, platforms: seq<Platform>)
    requires CallsOk(s)
    ensures OnlyClosed(s, CloseQueues(s, platforms))
    decreases |platforms|
  {
    if platforms != [] {
      var q := Queue(s, platforms[0]);
      var next := CloseQueue(s, q);
      CloseQueueOnlyClosed(s, q);
      CloseQueueCalls(s, q);
      CloseQueuesOnlyClosed(next, platforms[1..]);
      ClosedChain(s, next, CloseQueues(s, platforms));
    }
  }

  lemma CloseGives(s: State, platforms: seq<Platform>, c: nat)
    requires Good(s) && c < |s.calls| && Enabled(s, Close(platforms))
    ensures Given(s, Step(s, Close(platforms)), c, Caused(s, Close(platforms), c))
  {
    var closed: State := s.(closed := true);
    TimersNotDue(s);
    ClockCalls(s, closed);
    CloseQueuesOnlyClosed(closed, platforms);
    if Open(s, c) {
      CloseSettlesQueued(s, platforms, c);
    }
  }

  lemma ArrivalGives(s: State, p: Platform, component: string, hasCheck: bool, c: nat)
    requires c < |s.calls|
    ensures Given(s, Arrive(s, p, component, hasCheck), c, None)
  {
    match Joinable(s, Queue(s, p), component)
    case Some(i) => PumpEffect(Join(s, i, hasCheck), p);
    case None => PumpEffect(Join(Enqueue(s, p, component), |s.installs|, hasCheck), p);
  }

  /** The steps of an install that settle no call by themselves. */
  lemma AnswerGives(s: State, e: Event, c: nat)
    requires CallsOk(s) && c < |s.calls| && Enabled(s, e)
    requires e.CheckReturned? || e.ChecksDone? || e.DriverReturned? || e.CommitReturned?
    ensures Given(s, Step(s, e), c, Caused(s, e, c))
  {
    match e
    case CheckReturned(i, answer) => CheckGives(s, i, answer, c);
    case ChecksDone(i) => ChecksDoneGives(s, i, c);
    case DriverReturned(i, result) => DriverGives(s, i, result, c);
    case CommitReturned(i, ok) => CommitGives(s, i, ok, c);
  }

  lemma LeaverGives(s: State, e: Event, c: nat)
    requires CallsOk(s) && c < |s.calls| && Enabled(s, e)
    requires e.FindReturned? || e.ReserveReturned? || e.Resume?
    ensures Given(s, Step(s, e), c, Caused(s, e, c))
  {
    match e
    case FindReturned(i, found) =>
      if found == MissingComponent {
        MissingGives(s, i, c);
      } else {
        FoundGives(s, i, found, c);
      }
    case ReserveReturned(i, ok) =>
      if ok {
        ReservedGives(s, i, c);
      } else {
        RefusedGives(s, i, c);
      }
    case Resume(i) =>
      if At(s, i, Failed) {
        ThrewGives(s, i, c);
      } else {
        ReturnedGives(s, i, c);
      }
  }

  lemma OtherGives(s: State, e: Event, c: nat)
    requires Good(s) && c < |s.calls| && Enabled(s, e) && !OfRun(e)
    ensures Given(s, Step(s, e), c, Caused(s, e, c))
  {
    match e
    case Arrival(p, component, hasCheck) => ArrivalGives(s, p, component, hasCheck, c);
    case Timer(d) => TimerGives(s, d, c);
    case Close(platforms) => CloseGives(s, platforms, c);
    case Tick(_) =>
    case TakeTurn(_) =>
    case GiveTurn(p) => PumpEffect(s.(turns := s.turns - {p}), p);
  }

  lemma StepGives(s: State, e: Event, c: nat)
    requires Good(s) && c < |s.calls|
    ensures Given(s, Step(s, e), c, if Enabled(s, e) then Caused(s, e, c) else None)
  {
    if Enabled(s, e) {
      if !OfRun(e) {
        OtherGives(s, e, c);
      } else if e.FindReturned? || e.ReserveReturned? || e.Resume? {
        LeaverGives(s, e, c);
      } else {
        AnswerGives(s, e, c);
      }
    }
  }

  lemma StepEnds(s: State, e: Event, c: nat)
    requires Good(s) && Open(s, c)
    ensures EndsRight(s, Step(s, e), e, c)
  {
    StepGives(s, e, c);
    if Enabled(s, e) {
      GivenRight(s, Step(s, e), e, c);
    }
  }

  /** What the answer of a `stillNeeded` tells the calls: the one asked ends, unless it is still needed. */
  ghost predicate CheckTold(s: State, r: State, asked: nat, answer: CheckAnswer) {
    && |r.calls| == |s.calls|
    && forall c: nat :: c < |s.calls| ==>
         r.calls[c].settlements ==
           if c != asked || !Open(s, c) || answer == StillNeeded then s.calls[c].settlements
           else [Settlement(if answer == NoLongerNeeded then NotNeeded else InstallError, s.now)]
  }

  lemma CheckTells(s: State, i: nat, answer: CheckAnswer)
    requires Good(s) && Enabled(s, CheckReturned(i, answer))
    ensures CheckTold(s, Step(s, CheckReturned(i, answer)), s.installs[i].point.call, answer)
  {
    var settled :=
      if answer == StillNeeded then s
      else Settle(s, s.installs[i].point.call, if answer == NoLongerNeeded then NotNeeded else InstallError);
    ContinueChecksEffect(settled, i, 0);
    var asked := s.installs[i].point.call;
    forall c: nat | c < |s.calls|
      ensures AfterCheck(s, i, answer).calls[c].settlements ==
                if c != asked || !Open(s, c) || answer == StillNeeded then s.calls[c].settlements
                else [Settlement(if answer == NoLongerNeeded then NotNeeded else InstallError, s.now)]
    {
      CheckGives(s, i, answer, c);
      assert s.calls[c].settlements + [] == s.calls[c].settlements;
      assert forall x: Settlement :: [] + [x] == [x];
    }
  }

  // ---------------------------------------------------------------- theorems

  /**
   * In every run and for every next event: an open call ends with an outcome exactly by the causes of
   * that outcome. It ends `Installed` exactly when the record of its own install is written; a driver that
   * failed, and a record that could not be written, settle no call.
   */
  lemma {:induction false} CallEndsExactly(timeoutMs: nat, events: seq<Event>, e: Event, c: nat)
    requires Open(Run(timeoutMs, events), c)
    ensures EndsRight(Run(timeoutMs, events), Step(Run(timeoutMs, events), e), e, c)
  {
    RunOk(timeoutMs, events);
    StepEnds(Run(timeoutMs, events), e, c);
  }

  /** Event `k` of the run ended the call, with the outcome `call` has. */
  ghost predicate EndedAt(timeoutMs: nat, events: seq<Event>, k: nat, c: nat, call: Call)
    requires call.settlements != []
  {
    && k < |events|
    && var s := Run(timeoutMs, events[..k]);
    && Open(s, c) && s.calls[c].install == call.install && EndsWith(s, events[k], c, call.settlements[0].outcome)
  }

  lemma EndedEarlier(timeoutMs: nat, events: seq<Event>, k: nat, c: nat, call: Call)
    requires events != [] && call.settlements != []
    requires EndedAt(timeoutMs, events[..|events| - 1], k, c, call)
    ensures EndedAt(timeoutMs, events, k, c, call)
  {
    assert events[..|events| - 1][..k] == events[..k];
  }

  /** What a call that has ended after a step was before it: open, and ended by its cause, or ended already. */
  ghost predicate WasBefore(s: State, r: State, e: Event, c: nat)
    requires c < |r.calls| && r.calls[c].settlements != []
  {
    && c < |s.calls| && s.calls[c].install == r.calls[c].install
    && if Open(s, c) then EndsWith(s, e, c, r.calls[c].settlements[0].outcome)
       else s.calls[c].settlements == r.calls[c].settlements
  }

  lemma OutcomeHasACause(s: State, r: State, e: Event, c: nat)
    requires Open(s, c) && EndsRight(s, r, e, c) && !Open(r, c)
    ensures WasBefore(s, r, e, c)
  {
    var outcome :| EndedNow(s, r, c, outcome);
  }

  lemma StepWasBefore(s: State, e: Event, c: nat)
    requires Good(s) && c < |Step(s, e).calls| && !Open(Step(s, e), c)
    ensures WasBefore(s, Step(s, e), e, c)
  {
    StepNew(s, e);
    if Open(s, c) {
      StepEnds(s, e, c);
      OutcomeHasACause(s, Step(s, e), e, c);
    } else {
      StepGives(s, e, c);
    }
  }

  /** Every call that has ended was ended by one event of the run, a cause of the outcome it has. */
  lemma {:induction false} EndedByACause(timeoutMs: nat, events: seq<Event>, c: nat) returns (k: nat)
    requires c < |Run(timeoutMs, events).calls| && !Open(Run(timeoutMs, events), c)
    ensures EndedAt(timeoutMs, events, k, c, Run(timeoutMs, events).calls[c])
  {
    assert events != [];
    var before, e := events[..|events| - 1], events[|events| - 1];
    var s := Run(timeoutMs, before);
    RunOk(timeoutMs, before);
    StepWasBefore(s, e, c);
    if Open(s, c) {
      k := |events| - 1;
    } else {
      k := EndedByACause(timeoutMs, before, c);
      EndedSame(timeoutMs, before, k, c, s.calls[c], Step(s, e).calls[c]);
      EndedEarlier(timeoutMs, events, k, c, Step(s, e).calls[c]);
    }
  }

  lemma EndedSame(timeoutMs: nat, events: seq<Event>, k: nat, c: nat, was: Call, now: Call)
    requires was.settlements != [] && was.settlements == now.settlements && was.install == now.install
    requires EndedAt(timeoutMs, events, k, c, was)
    ensures EndedAt(timeoutMs, events, k, c, now)
  {
  }

  /**
   * In every run, a call that ended `Installed` was ended by the writing of its install's record, after the
   * component was not found, disk space was reserved and the driver installed it.
   */
  lemma {:induction false} InstalledMeansRecorded(timeoutMs: nat, events: seq<Event>, c: nat) returns (k: nat)
    requires c < |Run(timeoutMs, events).calls| && !Open(Run(timeoutMs, events), c)
    requires Run(timeoutMs, events).calls[c].settlements[0].outcome == Installed
    ensures var i := Run(timeoutMs, events).calls[c].install;
            && TookAt(timeoutMs, events, k, CommitReturned(i, true))
            && Open(Run(timeoutMs, events[..k]), c)
            && Took(timeoutMs, events[..k], FindReturned(i, MissingComponent))
            && Took(timeoutMs, events[..k], ReserveReturned(i, true))
            && Took(timeoutMs, events[..k], DriverReturned(i, DriverInstalled))
  {
    k := EndedByACause(timeoutMs, events, c);
    StagesBehind(timeoutMs, events[..k], Run(timeoutMs, events).calls[c].install);
  }

  /** A call of an install that failed: still open there, or ended by an error, its timer or close. */
  ghost predicate NotServed(s: State, c: nat, i: nat) {
    && c < |s.calls| && s.calls[c].install == i && i < |s.installs|
    && if Open(s, c) then s.installs[i].point == Failed
       else s.calls[c].settlements[0].outcome in {InstallError, TimedOut, Closed}
  }

  lemma FailedEnds(s: State, e: Event, c: nat, outcome: Outcome)
    requires c < |s.calls| && At(s, s.calls[c].install, Failed) && EndsWith(s, e, c, outcome)
    ensures outcome in {InstallError, TimedOut, Closed}
  {
  }

  lemma FailedLeaves(s: State, r: State, e: Event, i: nat)
    requires At(s, i, Failed) && MovesRight(s, r, e, i)
    ensures At(r, i, Failed) || (e == Resume(i) && Enabled(s, e))
  {
    var now := r.installs[i].point;
    assert BeforeFinding(now) || now == Failed || MovesTo(s, e, i, now);
  }

  lemma NotServedStep(s: State, e: Event, c: nat, i: nat)
    requires Good(s) && NotServed(s, c, i)
    ensures NotServed(Step(s, e), c, i)
  {
    StepGives(s, e, c);
    StepMoves(s, e, i);
    if Open(s, c) {
      StepEnds(s, e, c);
      FailedLeaves(s, Step(s, e), e, i);
      OpenNotServed(s, Step(s, e), e, c);
    }
  }

  lemma OpenNotServed(s: State, r: State, e: Event, c: nat)
    requires Open(s, c) && At(s, s.calls[c].install, Failed) && EndsRight(s, r, e, c)
    requires s.calls[c].install < |r.installs|
    requires At(r, s.calls[c].install, Failed) || (e == Resume(s.calls[c].install) && Enabled(s, e))
    ensures NotServed(r, c, s.calls[c].install)
  {
    if Open(r, c) {
      assert EndsWith(s, e, c, InstallError) ==> EndedNow(s, r, c, InstallError);
    } else {
      var outcome :| EndedNow(s, r, c, outcome);
      FailedEnds(s, e, c, outcome);
    }
  }

  lemma {:induction false} NotServedAfter(s: State, more: seq<Event>, c: nat, i: nat)
    requires Good(s) && NotServed(s, c, i)
    ensures NotServed(After(s, more), c, i)
    decreases |more|
  {
    if more != [] {
      StepGood(s, more[0]);
      NotServedStep(s, more[0], c, i);
      NotServedAfter(Step(s, more[0]), more[1..], c, i);
    }
  }

  /**
   * In every run, a call that is open when the driver of its install fails, or when its record cannot be
   * written, is not settled by that, and whatever comes after it is never settled as installed: it
   * waits for `#run` to resume, or ends by an error, its timer or close.
   */
  lemma {:induction false} FailedInstallServesNoCall(
    timeoutMs: nat, events: seq<Event>, e: Event, c: nat, more: seq<Event>)
    requires Open(Run(timeoutMs, events), c) && Enabled(Run(timeoutMs, events), e)
    requires var i := Run(timeoutMs, events).calls[c].install;
             e == DriverReturned(i, DriverFailed) || e == CommitReturned(i, false)
    ensures Open(Run(timeoutMs, events + [e]), c)
    ensures NotServed(Run(timeoutMs, events + [e] + more), c, Run(timeoutMs, events).calls[c].install)
  {
    var s := Run(timeoutMs, events);
    var i := s.calls[c].install;
    RunOk(timeoutMs, events);
    RunExtends(timeoutMs, events, e);
    StepGood(s, e);
    StepEnds(s, e, c);
    StepMoves(s, e, i);
    assert MovesTo(s, e, i, Failed);
    NotServedAfter(Step(s, e), more, c, i);
    RunAfter(timeoutMs, events + [e], more);
  }
}
