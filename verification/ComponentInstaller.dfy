/**
 * `ComponentInstaller` of `src/core/component-installer.ts`, as a class whose methods run the
 * stretches between two awaits. Each method is tied to the step it takes in `InstallQueue`, or to
 * the change it makes to `Worker.Components`, so what is proved of every run of those step systems
 * is about these methods.
 */
module ComponentInstaller {
  import opened Common
  import opened InstallQueue
  import opened InstallQueueRuns
  import opened InstallCallRuns
  import opened InstallTime
  import opened InstallEffects
  import opened InstallMoves
  import opened InstallOutcomes
  import Worker

  /** What `claimProvision` answers: the key, and whether its release has run. */
  class ProvisionClaim {
    const key: Worker.Key
    var released: bool

    constructor (key: Worker.Key)
      ensures this.key == key && !released
    {
      this.key := key;
      released := false;
    }
  }

  class Installer {
    const timeoutMs: nat
    var now: nat
    var closed: bool
    var queues: map<Platform, seq<nat>>
    var installs: seq<Install>
    var calls: seq<Call>
    var removals: map<Platform, Worker.Removal>
    var provisioning: map<Worker.Key, nat>

    ghost function Contents(): Raw
      reads this
    {
      Raw(now, timeoutMs, closed, queues, installs, calls, removals.Keys)
    }

    /** What the methods inside a step need: every number names something. */
    ghost predicate Formed()
      reads this
    {
      WellFormed(Contents())
    }

    /** Between two steps: all that holds of every reachable state of the queues and calls. */
    ghost predicate Valid()
      reads this
    {
      Formed() && Good(View())
    }

    /** The queues, installs, calls and turns. */
    ghost function View(): State
      requires Formed()
      reads this
    {
      Contents()
    }

    /** The claims and removals. */
    ghost function Components(): Worker.Components
      reads this
    {
      Worker.Components(provisioning, removals)
    }

    constructor (timeoutMs: nat)
      ensures Valid() && View() == Initial(timeoutMs)
      ensures Components() == Worker.Components(map[], map[])
    {
      InitialGood(timeoutMs);
      this.timeoutMs := timeoutMs;
      now := 0;
      closed := false;
      queues := map[];
      installs := [];
      calls := [];
      removals := map[];
      provisioning := map[];
    }

    method QueueOf(p: Platform) returns (q: seq<nat>)
      ensures q == Queue(Contents(), p)
    {
      q := if p in queues then queues[p] else [];
    }

    /** `#settle` */
    method SettleCall(c: nat, outcome: Outcome)
      requires Formed() && c < |calls|
      modifies this`installs, this`calls
      ensures Formed() && View() == Settle(old(View()), c, outcome)
    {
      var i := calls[c].install;
      var list := installs[i].calls;
      if c !in list {
        return;
      }
      WithoutKeeps(list, c);
      installs := installs[i := installs[i].(calls := Without(list, c))];
      calls := calls[c := calls[c].(timer := None, settlements := calls[c].settlements + [Settlement(outcome, now)])];
    }

    /** `#settleAll` */
    method SettleEvery(i: nat, outcome: Outcome)
      requires Formed() && i < |installs|
      modifies this`installs, this`calls
      ensures Formed() && View() == SettleAll(old(View()), i, outcome)
      ensures |installs| == |old(installs)| && SameInstalls(old(View()), View())
      ensures Distinct(old(installs)[i].calls) ==>
                installs[i].calls == [] && Settled(old(View()), View(), old(installs)[i].calls, outcome)
    {
      SettleAllKeeps(View(), i, outcome);
      if Distinct(installs[i].calls) {
        SettleAllEffect(View(), i, outcome);
      }
      while installs[i].calls != []
        invariant Formed() && |installs| == |old(installs)|
        invariant SettleAll(View(), i, outcome) == SettleAll(old(View()), i, outcome)
        decreases |installs[i].calls|
      {
        ghost var list := installs[i].calls;
        assert CallOf(calls, list[0], i);
        WithoutKeeps(list, list[0]);
        SettleCall(installs[i].calls[0], outcome);
      }
    }

    /** `#checkStillNeeded`, from its start or from the answer of a `stillNeeded`. */
    method CheckStillNeeded(i: nat)
      requires Formed() && i < |installs|
      modifies this`installs, this`calls
      ensures Formed() && View() == ContinueChecks(old(View()), i, 0)
    {
      var k := 0;
      while k < |installs[i].calls|
        invariant Formed() && i < |installs| && k <= |installs[i].calls|
        invariant ContinueChecks(View(), i, k) == ContinueChecks(old(View()), i, 0)
        decreases |installs[i].calls| - k
      {
        var c := installs[i].calls[k];
        assert CallOf(calls, c, i);
        if !calls[c].checked {
          calls := calls[c := calls[c].(checked := true)];
          if calls[c].hasCheck {
            installs := installs[i := installs[i].(point := Checking(c))];
            return;
          }
        }
        k := k + 1;
      }
      installs := installs[i := installs[i].(point := Checked)];
    }

    method SetInstall(i: nat, state: InstallState, point: RunPoint)
      requires Formed() && i < |installs| && (point.Checking? ==> point == installs[i].point)
      modifies this`installs
      ensures Formed() && View() == SetRun(old(View()), i, state, point)
    {
      installs := installs[i := installs[i].(state := state, point := point)];
    }

    /** `#pump` */
    method PumpQueue(p: Platform)
      requires Formed()
      modifies this`installs, this`calls
      ensures Formed() && View() == Pump(old(View()), p)
    {
      var q := QueueOf(p);
      if q == [] || installs[q[0]].state != Waiting || p in removals {
        return;
      }
      SetInstall(q[0], Front, Checked);
      CheckStillNeeded(q[0]);
    }

    /** The `finally` of `#run`. */
    method LeaveQueue(i: nat)
      requires Formed() && i < |installs|
      modifies this`installs, this`calls, this`queues
      ensures Formed() && View() == Leave(old(View()), i)
    {
      SetInstall(i, Ended, Gone);
      var p := installs[i].platform;
      var q := QueueOf(p);
      WithoutKeeps(q, i);
      queues := queues[p := Without(q, i)];
      PumpQueue(p);
    }

    /** `#joinable` */
    method FindJoinable(q: seq<nat>, component: string) returns (found: Option<nat>)
      requires Formed() && Below(q, |installs|)
      ensures found == Joinable(View(), q, component)
    {
      var k := 0;
      while k < |q|
        invariant k <= |q| && Joinable(View(), q[k..], component) == Joinable(View(), q, component)
      {
        if installs[q[k]].component == component && installs[q[k]].state != Ended {
          return Some(q[k]);
        }
        assert q[k..][1..] == q[k + 1..];
        k := k + 1;
      }
      return None;
    }

    /** `install` for a platform with a driver; false is the refusal of a closed installer. */
    method RequestInstall(p: Platform, component: string, hasCheck: bool) returns (admitted: bool)
      requires Valid()
      modifies this`installs, this`calls, this`queues
      ensures Valid() && admitted == !old(closed)
      ensures View() == Step(old(View()), Arrival(p, component, hasCheck))
      ensures admitted ==> NewCall(old(View()), View(), p, component)
    {
      StepGood(View(), Arrival(p, component, hasCheck));
      ArrivalOpens(View(), p, component, hasCheck);
      if closed {
        return false;
      }
      admitted := true;
      var q := QueueOf(p);
      var found := FindJoinable(q, component);
      var i := |installs|;
      if found.Some? {
        i := found.value;
      } else {
        AddInstall(p, component);
      }
      AddCall(i, hasCheck);
      PumpQueue(p);
    }

    /** `#enqueue` */
    method AddInstall(p: Platform, component: string)
      requires Formed()
      modifies this`installs, this`queues
      ensures Formed() && View() == Enqueue(old(View()), p, component)
    {
      var q := QueueOf(p);
      queues := queues[p := q + [|installs|]];
      installs := installs + [Install(p, component, now, [], Waiting, NotStarted)];
    }

    /** The call's entry in its install. */
    method AddCall(i: nat, hasCheck: bool)
      requires Formed() && i < |installs|
      modifies this`installs, this`calls
      ensures Formed() && View() == Join(old(View()), i, hasCheck)
    {
      var call := Call(i, now, hasCheck, false, installs[i].point, Some(now + timeoutMs), []);
      installs := installs[i := installs[i].(calls := installs[i].calls + [|calls|])];
      calls := calls + [call];
    }

    /** `#expire`, when the timer of an open call is due. */
    method ExpireCall(c: nat)
      requires Valid() && Enabled(View(), Timer(c))
      modifies this`installs, this`calls
      ensures Valid() && View() == Step(old(View()), Timer(c))
      ensures now == old(calls)[c].arrivedAt + timeoutMs && TimedOutAlone(old(View()), View(), c)
    {
      StepGood(View(), Timer(c));
      TimerSettles(View(), c);
      calls := calls[c := calls[c].(timer := None)];
      var i := calls[c].install;
      if installs[i].state == Running {
        SetInstall(i, Ended, installs[i].point);
        SettleEvery(i, TimedOut);
      } else {
        SettleCall(c, TimedOut);
      }
    }

    /** Time passes, up to the first armed timer at most. */
    method Advance(to: nat)
      requires Valid() && Enabled(View(), Tick(to))
      modifies this`now
      ensures Valid() && View() == Step(old(View()), Tick(to))
    {
      StepGood(View(), Tick(to));
      now := to;
    }

    /** The installs of one queue, in the loop of `close`. */
    method CloseOne(p: Platform)
      requires Formed()
      modifies this`installs, this`calls
      ensures Formed() && View() == CloseQueue(old(View()), Queue(old(View()), p))
    {
      var q := QueueOf(p);
      var k := 0;
      assert q[0..] == q;
      while k < |q|
        invariant k <= |q| && Formed() && Below(q, |installs|)
        invariant CloseFrom(View(), q, k) == CloseQueue(old(View()), q)
      {
        CloseNext(View(), q, k);
        SettleEvery(q[k], Closed);
        k := k + 1;
      }
    }

    /** The loop of `close` over the queues. */
    method CloseEach(platforms: seq<Platform>)
      requires Formed()
      modifies this`installs, this`calls
      ensures Formed() && View() == CloseQueues(old(View()), platforms)
    {
      var k := 0;
      while k < |platforms|
        invariant k <= |platforms| && Formed()
        invariant CloseQueues(View(), platforms[k..]) == CloseQueues(old(View()), platforms)
      {
        CloseOne(platforms[k]);
        assert platforms[k..][1..] == platforms[k + 1..];
        k := k + 1;
      }
    }

    /** `close`, up to its await of the runs; it goes over the queues in the order of `platforms`. */
    method CloseAll() returns (platforms: seq<Platform>)
      requires Valid()
      modifies this`closed, this`installs, this`calls
      ensures Valid() && Enabled(old(View()), Close(platforms))
      ensures View() == Step(old(View()), Close(platforms)) && OnlyLateOpen(old(View()), View())
    {
      platforms := Order(queues.Keys);
      StepGood(View(), Close(platforms));
      CloseLeavesLate(View(), platforms);
      closed := true;
      CloseEach(platforms);
    }

    /** The platforms of a set, each once. */
    method Order(all: set<Platform>) returns (platforms: seq<Platform>)
      ensures Distinct(platforms) && forall p :: p in all <==> p in platforms
    {
      platforms := [];
      var rest := all;
      while rest != {}
        invariant Distinct(platforms) && rest <= all
        invariant forall p :: p in platforms <==> p in all && p !in rest
      {
        var p :| p in rest;
        rest := rest - {p};
        platforms := platforms + [p];
      }
    }

    // -------------------------------------------------------------- the stretches of `#run`

    /** `#settleAll` and the way out of `#run`. */
    method SettleAndLeave(i: nat, outcome: Outcome)
      requires Formed() && i < |installs|
      modifies this`installs, this`calls, this`queues
      ensures Formed() && i < |SettleAll(old(View()), i, outcome).installs|
      ensures View() == Leave(SettleAll(old(View()), i, outcome), i)
    {
      SettleEvery(i, outcome);
      LeaveQueue(i);
    }

    /** A `stillNeeded` answered. */
    method CheckAnswered(i: nat, answer: CheckAnswer)
      requires Valid() && Enabled(View(), CheckReturned(i, answer))
      modifies this`installs, this`calls
      ensures Valid() && View() == Step(old(View()), CheckReturned(i, answer))
      ensures CheckTold(old(View()), View(), old(installs)[i].point.call, answer)
    {
      StepGood(View(), CheckReturned(i, answer));
      CheckTells(View(), i, answer);
      var c := installs[i].point.call;
      if answer == NoLongerNeeded {
        SettleCall(c, NotNeeded);
      } else if answer == CheckThrew {
        SettleCall(c, InstallError);
      }
      CheckStillNeeded(i);
    }

    /** All checks are over. */
    method ChecksOver(i: nat)
      requires Valid() && Enabled(View(), ChecksDone(i))
      modifies this`installs, this`calls, this`queues
      ensures Valid() && View() == Step(old(View()), ChecksDone(i))
      ensures At(View(), i, if old(installs)[i].calls == [] then Gone else Finding)
    {
      StepGood(View(), ChecksDone(i));
      ChecksMove(View(), i, i);
      if installs[i].calls == [] {
        LeaveQueue(i);
      } else {
        SetInstall(i, Front, Finding);
      }
    }

    /** `findComponent` answered. */
    method FindAnswered(i: nat, found: FindResult)
      requires Valid() && Enabled(View(), FindReturned(i, found))
      modifies this`installs, this`calls, this`queues
      ensures Valid() && View() == Step(old(View()), FindReturned(i, found))
      ensures found == FoundComponent ==> EachSettled(View(), old(installs)[i].calls, AlreadyInstalled, now)
      ensures found == FindFailed ==> EachSettled(View(), old(installs)[i].calls, InstallError, now)
      ensures At(View(), i, if found == MissingComponent && old(installs)[i].calls != [] then Reserving else Gone)
    {
      StepGood(View(), FindReturned(i, found));
      FindEffect(View(), i, found);
      FindMoves(View(), i, found, i);
      if found == FoundComponent {
        SettleAndLeave(i, AlreadyInstalled);
      } else if found == FindFailed {
        SettleAndLeave(i, InstallError);
      } else if installs[i].calls == [] {
        LeaveQueue(i);
      } else {
        SetInstall(i, Front, Reserving);
      }
    }

    /** The disk reservation answered. */
    method ReserveAnswered(i: nat, ok: bool)
      requires Valid() && Enabled(View(), ReserveReturned(i, ok))
      modifies this`installs, this`calls, this`queues
      ensures Valid() && View() == Step(old(View()), ReserveReturned(i, ok))
      ensures !ok ==> EachSettled(View(), old(installs)[i].calls, InstallError, now)
      ensures At(View(), i, if ok && old(installs)[i].calls != [] then Driving else Gone)
    {
      StepGood(View(), ReserveReturned(i, ok));
      ReserveEffect(View(), i, ok);
      ReserveMoves(View(), i, ok, i);
      if !ok {
        SettleAndLeave(i, InstallError);
      } else if installs[i].calls == [] {
        LeaveQueue(i);
      } else {
        SetInstall(i, Running, Driving);
      }
    }

    /** `installComponent` answered: a failure, and an install whose record is not written yet, settle no call. */
    method DriverAnswered(i: nat, result: DriverResult)
      requires Valid() && Enabled(View(), DriverReturned(i, result))
      modifies this`installs, this`calls
      ensures Valid() && View() == Step(old(View()), DriverReturned(i, result))
      ensures result == DriverAlreadyInstalled ==>
                EachSettled(View(), old(installs)[i].calls, AlreadyInstalled, now) && At(View(), i, Succeeded)
      ensures result != DriverAlreadyInstalled ==>
                && calls == old(calls) && At(View(), i, if result == DriverFailed then Failed else Committing)
                && installs[i].calls == old(installs)[i].calls
    {
      StepGood(View(), DriverReturned(i, result));
      var state := installs[i].state;
      SettledEach(View(), i, AlreadyInstalled);
      match result
      case DriverFailed => SetInstall(i, state, Failed);
      case DriverAlreadyInstalled =>
        SettleEvery(i, AlreadyInstalled);
        SetInstall(i, state, Succeeded);
      case DriverInstalled =>
        SetInstall(i, if state == Running then Recording else state, Committing);
    }

    /** The record was written, or writing it failed. */
    method CommitAnswered(i: nat, ok: bool)
      requires Valid() && Enabled(View(), CommitReturned(i, ok))
      modifies this`installs, this`calls
      ensures Valid() && View() == Step(old(View()), CommitReturned(i, ok))
      ensures ok ==> EachSettled(View(), old(installs)[i].calls, Installed, now) && At(View(), i, Succeeded)
      ensures !ok ==> calls == old(calls) && At(View(), i, Failed) && installs[i].calls == old(installs)[i].calls
    {
      StepGood(View(), CommitReturned(i, ok));
      var state := installs[i].state;
      SettledEach(View(), i, Installed);
      if ok {
        SettleEvery(i, Installed);
        SetInstall(i, state, Succeeded);
      } else {
        SetInstall(i, state, Failed);
      }
    }

    /** `#run` resumes after `#runDriver`. */
    method DriverRunOver(i: nat)
      requires Valid() && Enabled(View(), Resume(i))
      modifies this`installs, this`calls, this`queues
      ensures Valid() && View() == Step(old(View()), Resume(i))
      ensures At(View(), i, Gone)
      ensures old(installs)[i].point == Failed ==> EachSettled(View(), old(installs)[i].calls, InstallError, now)
    {
      StepGood(View(), Resume(i));
      ResumeEffect(View(), i);
      if installs[i].point == Failed {
        SettleAndLeave(i, InstallError);
      } else {
        LeaveQueue(i);
      }
    }

    // -------------------------------------------------------------- removals and claims

    /** `remove` takes the platform's turn, or refuses: closed, or something runs or waits there. */
    method TakeTurnFor(p: Platform, version: string) returns (taken: bool)
      requires Valid()
      modifies this`removals
      ensures Valid() && View() == Step(old(View()), TakeTurn(p))
      ensures taken <==> !closed && (p !in queues || queues[p] == []) && p !in old(removals)
      ensures provisioning == old(provisioning)
      ensures removals == if taken then old(removals)[p := Worker.Removal(version, false, Worker.AwaitingMark)]
                          else old(removals)
    {
      StepGood(View(), TakeTurn(p));
      var q := QueueOf(p);
      taken := !closed && q == [] && p !in removals;
      if taken {
        removals := removals[p := Worker.Removal(version, false, Worker.AwaitingMark)];
        assert removals.Keys == old(removals.Keys) + {p};
      }
    }

    /** The first gate section of `#removeHoldingTurn`, with the registry's live devices of the key. */
    method CountAndMark(p: Platform, registered: nat) returns (marked: bool)
      requires Valid() && p in removals
      modifies this`removals
      ensures Valid() && View() == old(View())
      ensures marked <==> registered + Worker.Count(provisioning, Worker.Key(p, old(removals)[p].version)) == 0
      ensures removals == old(removals)[
                p := if marked then old(removals)[p].(marked := true, point := Worker.DriverRemoving)
                     else old(removals)[p].(point := Worker.Ending)]
    {
      var removal := removals[p];
      var key := Worker.Key(p, removal.version);
      marked := registered + Worker.Count(provisioning, key) == 0;
      if marked {
        removals := removals[p := removal.(marked := true, point := Worker.DriverRemoving)];
      } else {
        removals := removals[p := removal.(point := Worker.Ending)];
      }
      assert removals.Keys == old(removals.Keys);
    }

    /** The `finally` of `remove`. */
    method GiveTurnBack(p: Platform)
      requires Valid() && p in removals
      modifies this`removals, this`installs, this`calls
      ensures Valid() && View() == Step(old(View()), GiveTurn(p))
      ensures Components() == old(Components()).(removals := old(removals) - {p})
    {
      StepGood(View(), GiveTurn(p));
      removals := removals - {p};
      assert removals.Keys == old(removals.Keys) - {p};
      PumpQueue(p);
    }

    /** `claimProvision`; no claim is the refusal of a version being removed. */
    method ClaimProvision(key: Worker.Key) returns (claim: Option<ProvisionClaim>)
      modifies this`provisioning
      ensures claim.None? <==>
                && key.platform in removals && removals[key.platform].marked
                && removals[key.platform].version == key.version
      ensures claim.None? ==> Components() == old(Components())
      ensures claim.Some? ==>
        && fresh(claim.value) && claim.value.key == key && !claim.value.released
        && Components() == Worker.Claim(old(Components()), key)
        && Worker.Count(provisioning, key) == Worker.Count(old(provisioning), key) + 1
    {
      if key.platform in removals && removals[key.platform].marked && removals[key.platform].version == key.version {
        return None;
      }
      provisioning := provisioning[key := (if key in provisioning then provisioning[key] else 0) + 1];
      var made := new ProvisionClaim(key);
      return Some(made);
    }

    /** The release a claim answered with; only its first run counts. */
    method Release(claim: ProvisionClaim)
      modifies this`provisioning, claim
      ensures claim.released
      ensures Components() == if old(claim.released) then old(Components())
                              else Worker.ReleaseClaim(old(Components()), claim.key)
      ensures var was := Worker.Count(old(provisioning), claim.key);
              Worker.Count(provisioning, claim.key) == if old(claim.released) || was == 0 then was else was - 1
      ensures provisioning - {claim.key} == old(provisioning) - {claim.key}
    {
      if claim.released {
        return;
      }
      claim.released := true;
      var key := claim.key;
      var remaining := Worker.Count(provisioning, key) - 1;
      if remaining > 0 {
        provisioning := provisioning[key := remaining];
      } else {
        provisioning := provisioning - {key};
      }
    }
  }

  /** The rest of a queue closed, from a place on. */
  ghost function CloseFrom(s: State, q: seq<nat>, k: nat): State
    requires k <= |q| && Below(q, |s.installs|)
  {
    CloseQueue(s, q[k..])
  }

  lemma CloseNext(s: State, q: seq<nat>, k: nat)
    requires k < |q| && Below(q, |s.installs|)
    ensures |SettleAll(s, q[k], Closed).installs| == |s.installs|
    ensures CloseFrom(s, q, k) == CloseFrom(SettleAll(s, q[k], Closed), q, k + 1)
  {
    SettleAllKeeps(s, q[k], Closed);
    assert q[k..][1..] == q[k + 1..];
  }
}
