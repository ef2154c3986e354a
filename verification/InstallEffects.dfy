/** What a step of the installer gives the calls it is about, in every state a run can be in. */
module InstallEffects {
  import opened Common
  import opened InstallQueue
  import opened InstallQueueRuns
  import opened InstallCallRuns
  import opened InstallTime

  /** Every listed call has been settled, once, with this outcome and at this time. */
  ghost predicate EachSettled(r: State, list: seq<nat>, outcome: Outcome, at: nat) {
    forall k :: 0 <= k < |list| ==>
      list[k] < |r.calls| && r.calls[list[k]].settlements == [Settlement(outcome, at)]
  }

  lemma ListIsOpen(s: State, i: nat)
    requires CallsOk(s) && i < |s.installs|
    ensures Distinct(s.installs[i].calls)
    ensures forall k :: 0 <= k < |s.installs[i].calls| ==> Open(s, s.installs[i].calls[k])
  {
    assert ListOk(s, i);
  }

  lemma SettledEach(s: State, i: nat, outcome: Outcome)
    requires CallsOk(s) && i < |s.installs|
    ensures EachSettled(SettleAll(s, i, outcome), s.installs[i].calls, outcome, s.now)
  {
    ListIsOpen(s, i);
    SettleAllEffect(s, i, outcome);
  }

  lemma SettledAndLeft(s: State, i: nat, outcome: Outcome)
    requires Good(s) && i < |s.installs| && s.installs[i].point !in {NotStarted, Gone}
    ensures i < |SettleAll(s, i, outcome).installs|
    ensures var r := Leave(SettleAll(s, i, outcome), i);
            At(r, i, Gone) && EachSettled(r, s.installs[i].calls, outcome, s.now)
  {
    var settled := SettleAll(s, i, outcome);
    SettledEach(s, i, outcome);
    SettleAllKeeps(s, i, outcome);
    LeaveKeepsCalls(settled, i);
  }

  lemma FindFails(s: State, i: nat)
    requires At(s, i, Finding)
    ensures i < |SettleAll(s, i, InstallError).installs|
    ensures Step(s, FindReturned(i, FindFailed)) == Leave(SettleAll(s, i, InstallError), i)
  {
    SettleAllKeeps(s, i, InstallError);
  }

  lemma FindEffect(s: State, i: nat, found: FindResult)
    requires Good(s) && At(s, i, Finding)
    ensures var r := Step(s, FindReturned(i, found));
            && (found == FoundComponent ==> EachSettled(r, s.installs[i].calls, AlreadyInstalled, s.now))
            && (found == FindFailed ==> EachSettled(r, s.installs[i].calls, InstallError, s.now))
  {
    SettledAndLeft(s, i, if found == FoundComponent then AlreadyInstalled else InstallError);
  }

  lemma ReserveFails(s: State, i: nat)
    requires At(s, i, Reserving)
    ensures i < |SettleAll(s, i, InstallError).installs|
    ensures Step(s, ReserveReturned(i, false)) == Leave(SettleAll(s, i, InstallError), i)
  {
    SettleAllKeeps(s, i, InstallError);
  }

  lemma ReserveEffect(s: State, i: nat, ok: bool)
    requires Good(s) && At(s, i, Reserving)
    ensures !ok ==> EachSettled(Step(s, ReserveReturned(i, ok)), s.installs[i].calls, InstallError, s.now)
  {
    if !ok {
      ReserveFails(s, i);
      SettledAndLeft(s, i, InstallError);
    }
  }

  lemma ResumeEffect(s: State, i: nat)
    requires Good(s) && Enabled(s, Resume(i))
    ensures var r := Step(s, Resume(i));
            && At(r, i, Gone)
            && (At(s, i, Failed) ==> EachSettled(r, s.installs[i].calls, InstallError, s.now))
  {
    if At(s, i, Failed) {
      SettledAndLeft(s, i, InstallError);
    } else {
      LeaveKeepsCalls(s, i);
    }
  }

  /** A new call is open, with its timer armed for the whole budget. */
  ghost predicate NewCall(s: State, r: State, p: Platform, component: string) {
    && |r.calls| == |s.calls| + 1
    && var call := r.calls[|s.calls|];
    && call.settlements == [] && call.timer == Some(s.now + s.timeoutMs)
    && r.installs[call.install].platform == p && r.installs[call.install].component == component
  }

  lemma JoinedOpens(s: State, i: nat, p: Platform, component: string, hasCheck: bool)
    requires i < |s.installs| && s.installs[i].platform == p && s.installs[i].component == component
    ensures NewCall(s, Pump(Join(s, i, hasCheck), p), p, component)
  {
    PumpEffect(Join(s, i, hasCheck), p);
  }

  lemma ArrivalOpens(s: State, p: Platform, component: string, hasCheck: bool)
    requires QueuesOk(s)
    ensures NewCall(s, Arrive(s, p, component, hasCheck), p, component)
  {
    var found := Joinable(s, Queue(s, p), component);
    if found.Some? {
      assert QueueOk(s, p);
      JoinedOpens(s, found.value, p, component, hasCheck);
    } else {
      JoinedOpens(Enqueue(s, p, component), |s.installs|, p, component, hasCheck);
    }
  }

  /** After close, exactly the calls of installs that had left their queue are still open. */
  ghost predicate OnlyLateOpen(s: State, r: State) {
    forall c: nat | Open(s, c) :: Open(r, c) <==> s.installs[s.calls[c].install].point == Gone
  }

  lemma CloseLeavesLate(s: State, platforms: seq<Platform>)
    requires Good(s) && Enabled(s, Close(platforms))
    ensures OnlyLateOpen(s, Step(s, Close(platforms)))
  {
    forall c: nat | Open(s, c)
      ensures Open(Step(s, Close(platforms)), c) <==> s.installs[s.calls[c].install].point == Gone
    {
      CloseSettlesQueued(s, platforms, c);
    }
  }

  lemma InitialGood(timeoutMs: nat)
    ensures Good(Initial(timeoutMs))
  {
    RunOk(timeoutMs, []);
  }
}
