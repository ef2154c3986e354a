/**
 * When a drop pass takes a version a live device was copied from. The pass reads the device list once
 * and awaits a destroy between two rows, so a copy that gets its record meanwhile is not seen.
 */
module BaselineDrops {
  import opened Common
  import opened Worker
  import opened WorkerRuns
  import opened BaselineRuns
  import opened ProvisionProgress

  ghost predicate Good(s: State) {
    Inv(s) && BaselinesOk(s) && GateOk(s)
  }

  lemma StepGood(s: State, e: Event)
    requires Good(s)
    ensures Good(Step(s, e))
  {
    StepOk(s, e);
    BaselineStepOk(s, e);
    StepGateOk(s, e);
  }

  lemma AfterOne(s: State, e: Event)
    ensures After(s, [e]) == Step(s, e)
  {
    assert [e][1..] == [];
  }

  lemma {:induction false} AfterBoth(s: State, first: seq<Event>, second: seq<Event>)
    ensures After(s, first + second) == After(After(s, first), second)
    decreases |first|
  {
    if first == [] {
      assert first + second == second;
    } else {
      AfterBoth(Step(s, first[0]), first[1..], second);
      RestOf(first, second);
    }
  }

  lemma {:induction false} AfterGood(s: State, events: seq<Event>)
    requires Good(s)
    ensures Good(After(s, events))
    decreases |events|
  {
    if events != [] {
      StepGood(s, events[0]);
      AfterGood(Step(s, events[0]), events[1..]);
    }
  }

  // ---------------------------------------------------------------- devices of a version

  ghost predicate LiveOf(s: State, version: HoldKey, d: nat) {
    d in s.devices && s.devices[d].live && s.devices[d].baseline == Some(version)
  }

  ghost predicate HasLive(s: State, version: HoldKey) {
    exists d: nat :: LiveOf(s, version, d)
  }

  /** A provision that holds the version and has yet to commit its record. */
  ghost predicate ComingOf(s: State, version: HoldKey, id: nat) {
    id in s.provisions && InFlight(s.provisions[id]) && s.provisions[id].made == Some(version)
  }

  ghost predicate Coming(s: State, version: HoldKey) {
    exists id: nat :: ComingOf(s, version, id)
  }

  /** A replaced version with no live device and none on its way: it never gets one again. */
  ghost predicate Clear(s: State, version: HoldKey) {
    version.version < NewestVersion(s.baselines, version.name) && !Coming(s, version) && !HasLive(s, version)
  }

  /** A record is only made of a provision in flight, and a deleted one never comes back. */
  lemma DevicesComeInFlight(s: State, e: Event, version: HoldKey)
    requires !HasLive(s, version) && !Coming(s, version)
    ensures !HasLive(Step(s, e), version)
  {
    var r := Step(s, e);
    forall d: nat | d in r.devices && r.devices[d].live
      ensures r.devices[d].baseline != Some(version)
    {
      if Enabled(s, e) && e.RegisterCommits? && d == e.device {
        assert !ComingOf(s, version, e.id);
      } else {
        assert !LiveOf(s, version, d);
      }
    }
  }

  /** Its claim is the only step that gives a provision a version, or brings it into flight. */
  lemma OnlyItsClaim(s: State, e: Event, version: HoldKey, id: nat)
    requires Of(e) == Some(id) && !e.ClaimGate? && ComingOf(Step(s, e), version, id)
    ensures ComingOf(s, version, id)
  {
  }

  /** And then the version is the newest. */
  lemma ClaimsNewest(s: State, version: HoldKey, id: nat)
    requires Inv(s) && ComingOf(Step(s, ClaimGate(id)), version, id) && !ComingOf(s, version, id)
    ensures version.version == NewestVersion(s.baselines, version.name)
  {
    assert id in s.provisions ==> LedgerOk(s.provisions[id]);
  }

  lemma ComesByItsClaim(s: State, e: Event, version: HoldKey, id: nat)
    requires !ComingOf(s, version, id) && ComingOf(Step(s, e), version, id)
    requires Inv(s)
    ensures version.version == NewestVersion(s.baselines, version.name)
  {
    if Of(e) != Some(id) {
      OnlyOwnProvision(s, e, id);
    } else if e.ClaimGate? {
      ClaimsNewest(s, version, id);
    } else {
      OnlyItsClaim(s, e, version, id);
    }
  }

  lemma OnlyOwnProvision(s: State, e: Event, id: nat)
    requires Of(e) != Some(id)
    ensures id in Step(s, e).provisions <==> id in s.provisions
    ensures id in s.provisions ==> Step(s, e).provisions[id] == s.provisions[id]
  {
    if Of(e).None? {
      OthersUntouched(s, e);
    } else if Enabled(s, e) {
      OwnStep(s, e, Of(e).value);
    }
  }

  lemma StepClear(s: State, e: Event, version: HoldKey)
    requires Good(s) && Clear(s, version)
    requires s.serial != Removing(version.name)
    ensures Clear(Step(s, e), version)
  {
    DevicesComeInFlight(s, e, version);
    NewestSurvives(s, e, version.name);
    forall id: nat
      ensures !ComingOf(Step(s, e), version, id)
    {
      if ComingOf(Step(s, e), version, id) {
        assert !ComingOf(s, version, id);
        ComesByItsClaim(s, e, version, id);
      }
    }
  }

  // ---------------------------------------------------------------- one pass

  ghost predicate NoNewPass(events: seq<Event>) {
    forall k :: 0 <= k < |events| ==> !events[k].DropStarts?
  }

  /** The rows a pass has still to deal with. */
  function PassRows(s: State): set<HoldKey> {
    if s.serial.Dropping? then {s.serial.row} + (set key | key in s.serial.pending) else {}
  }

  lemma {:induction false} NextDropRows(b: Baselines, pending: seq<HoldKey>, list: map<nat, Device>)
    ensures var next := NextDrop(b, pending, list);
            next.Dropping? ==>
              && next.list == list && next.row in pending
              && forall key :: key in next.pending ==> key in pending
  {
    if pending != [] && InUse(b, pending[0], list) {
      NextDropRows(b, pending[1..], list);
    }
  }

  lemma StepInPass(s: State, e: Event)
    requires !e.DropStarts?
    ensures var r := Step(s, e);
            r.serial.Dropping? ==>
              s.serial.Dropping? && r.serial.list == s.serial.list && PassRows(r) <= PassRows(s)
  {
    if !OfBaselines(e) {
      OthersKeepSerial(s, e);
    } else if s.serial.Dropping? && e == SourceDestroyed(true) {
      SourceStep(s);
      NextDropRows(DeleteRow(s.baselines, s.serial.row), s.serial.pending, s.serial.list);
    }
  }

  /** While one pass goes on: its list stays, its rows get fewer, and a clear version stays clear. */
  lemma {:induction false} PassKeeps(s: State, events: seq<Event>, version: HoldKey)
    requires Good(s) && NoNewPass(events) && After(s, events).serial.Dropping?
    ensures var r := After(s, events);
            && s.serial.Dropping? && r.serial.list == s.serial.list && PassRows(r) <= PassRows(s)
            && (Clear(s, version) ==> Clear(r, version))
    decreases |events|
  {
    if events != [] {
      var e := events[0];
      assert !e.DropStarts?;
      StepGood(s, e);
      PassKeeps(Step(s, e), events[1..], version);
      StepInPass(s, e);
      if Clear(s, version) {
        StepClear(s, e, version);
      }
    }
  }

  /** A pass is at a version that has a live device. */
  ghost predicate DropsUnderADevice(s: State, version: HoldKey) {
    s.serial.Dropping? && s.serial.row == version && HasLive(s, version)
  }

  /**
   * What can be told when the pass reads its list: the version has no live device, a provision that
   * holds it has yet to commit its record, and an earlier row of the pass is not in use.
   */
  ghost predicate AtRisk(s: State, order: seq<HoldKey>, version: HoldKey) {
    && !HasLive(s, version) && Coming(s, version)
    && var first := NextDrop(s.baselines, order, s.devices);
    first.Dropping? && version in first.pending
  }

  /** A provision in flight counts among the holds. */
  lemma ComingIsHeld(s: State, version: HoldKey)
    requires Inv(s) && Coming(s, version)
    ensures version in s.baselines.holds
  {
    var id: nat :| ComingOf(s, version, id);
    assert LedgerOk(s.provisions[id]) && HoldsCounted(s, version);
    assert id in OpenHolds(s.provisions, version);
  }

  lemma DropNeedsRisk(s: State, order: seq<HoldKey>, after: seq<Event>, version: HoldKey)
    requires Good(s) && Enabled(s, DropStarts(order)) && NoNewPass(after)
    requires DropsUnderADevice(After(Step(s, DropStarts(order)), after), version)
    ensures AtRisk(s, order, version)
  {
    var t := Step(s, DropStarts(order));
    PassStarts(s, order);
    PassKeeps(t, after, version);
    AfterGood(t, after);
    ListedNotLive(s, After(t, after), version);
    if !Coming(s, version) {
      ClearAtStart(s, t, version);
      assert false;
    }
    ComingIsHeld(s, version);
  }

  /** The state a pass begins in. */
  lemma PassStarts(s: State, order: seq<HoldKey>)
    requires Good(s) && Enabled(s, DropStarts(order))
    ensures var t := Step(s, DropStarts(order));
            && Good(t) && t == s.(serial := NextDrop(s.baselines, order, s.devices))
            && (t.serial.Dropping? ==> t.serial.list == s.devices)
  {
    StepGood(s, DropStarts(order));
    NextDropRows(s.baselines, order, s.devices);
  }

  lemma ClearAtStart(s: State, t: State, version: HoldKey)
    requires Good(t) && t.serial.Dropping? && version in PassRows(t)
    requires t.devices == s.devices && t.provisions == s.provisions
    requires !Coming(s, version) && !HasLive(s, version)
    ensures Clear(t, version)
  {
    SameDevices(s, t, version);
    assert Replaced(t.baselines, version);
  }

  lemma ListedNotLive(s: State, r: State, version: HoldKey)
    requires BaselinesOk(r) && r.serial.Dropping? && r.serial.row == version && r.serial.list == s.devices
    ensures !HasLive(s, version)
  {
    forall d: nat
      ensures !LiveOf(s, version, d)
    {
      assert d in r.serial.list ==> !(r.serial.list[d].live && r.serial.list[d].baseline == Some(version));
    }
  }

  lemma SameDevices(s: State, t: State, version: HoldKey)
    requires t.devices == s.devices && t.provisions == s.provisions
    ensures HasLive(t, version) <==> HasLive(s, version)
    ensures Coming(t, version) <==> Coming(s, version)
  {
    assert forall d: nat :: LiveOf(t, version, d) <==> LiveOf(s, version, d);
    assert forall id: nat :: ComingOf(t, version, id) <==> ComingOf(s, version, id);
  }

  // ---------------------------------------------------------------- from risk to a drop

  lemma {:induction false} AboveAll(xs: set<nat>) returns (n: nat)
    ensures forall x :: x in xs ==> x < n
  {
    if xs == {} {
      return 0;
    }
    var x :| x in xs;
    var rest := AboveAll(xs - {x});
    n := if x < rest then rest else x + 1;
    forall y | y in xs
      ensures y < n
    {
      assert y == x || y in xs - {x};
    }
  }

  /** `r` follows `s` with the pass where it was, no device lost, and no hold on the version begun. */
  ghost predicate Quiet(s: State, r: State, version: HoldKey) {
    && Good(r) && r.serial == s.serial
    && (HasLive(s, version) ==> HasLive(r, version))
    && OpenHolds(r.provisions, version) <= OpenHolds(s.provisions, version)
  }

  lemma QuietBoth(s: State, r: State, t: State, version: HoldKey)
    requires Quiet(s, r, version) && Quiet(r, t, version)
    ensures Quiet(s, t, version)
  {
  }

  lemma LiveStays(s: State, r: State, version: HoldKey)
    requires forall d :: d in s.devices ==> d in r.devices && r.devices[d] == s.devices[d]
    ensures HasLive(s, version) ==> HasLive(r, version)
  {
    if HasLive(s, version) {
      var d: nat :| LiveOf(s, version, d);
      assert LiveOf(r, version, d);
    }
  }

  /** A holder's driver answers, or it enters the gate: nothing of the version changes. */
  lemma MovesUp(s: State, id: nat, e: Event, version: HoldKey)
    requires Good(s) && Enabled(s, e) && (e == DriverProvisioned(id, true) || e == RegisterEnters(id))
    ensures var r := Step(s, e);
            && Quiet(s, r, version) && OpenHolds(r.provisions, version) == OpenHolds(s.provisions, version)
            && r.gate == (if e.RegisterEnters? then Some(id) else s.gate)
            && id in r.provisions && r.provisions[id].made == s.provisions[id].made
            && r.provisions[id].point == if e.RegisterEnters? then Registering else Provisioned
  {
    var r := Step(s, e);
    StepGood(s, e);
    LiveStays(s, r, version);
    HoldsChanged(s.provisions, id, r.provisions[id], version);
    assert OpenHolds(r.provisions, version) == OpenHolds(s.provisions, version);
  }

  lemma Commits(s: State, id: nat, device: nat, version: HoldKey)
    requires Good(s) && At(s, id, Registering) && device !in s.devices
    ensures var r := Step(s, RegisterCommits(id, device));
            && Quiet(s, r, version) && OpenHolds(r.provisions, version) == OpenHolds(s.provisions, version)
            && At(r, id, Committed(device)) && r.provisions[id].made == s.provisions[id].made
            && (s.provisions[id].made == Some(version) ==> HasLive(r, version))
  {
    var r := Step(s, RegisterCommits(id, device));
    StepGood(s, RegisterCommits(id, device));
    LiveStays(s, r, version);
    HoldsChanged(s.provisions, id, r.provisions[id], version);
    assert OpenHolds(r.provisions, version) == OpenHolds(s.provisions, version);
    if s.provisions[id].made == Some(version) {
      assert LiveOf(r, version, device);
    }
  }

  lemma Leaves(s: State, id: nat, device: nat, version: HoldKey)
    requires Good(s) && At(s, id, Committed(device))
    ensures var r := Step(s, RegisterLeaves(id));
            && Quiet(s, r, version) && OpenHolds(r.provisions, version) == OpenHolds(s.provisions, version) - {id}
            && r.gate == None
  {
    var r := Step(s, RegisterLeaves(id));
    StepGood(s, RegisterLeaves(id));
    LiveStays(s, r, version);
    assert LedgerOk(s.provisions[id]);
    HoldsChanged(s.provisions, id, r.provisions[id], version);
  }

  /** The provision inside the gate commits and leaves. */
  lemma LeavesTheGate(s: State, id: nat, version: HoldKey) returns (more: seq<Event>, r: State)
    requires Good(s) && id in s.provisions && Inside(s.provisions[id])
    ensures NoNewPass(more) && r == After(s, more) && Quiet(s, r, version) && r.gate == None
    ensures OpenHolds(r.provisions, version) == OpenHolds(s.provisions, version) - {id}
    ensures ComingOf(s, version, id) ==> HasLive(r, version)
  {
    if s.provisions[id].point.Committed? {
      Leaves(s, id, s.provisions[id].point.device, version);
      more, r := [RegisterLeaves(id)], Step(s, RegisterLeaves(id));
      AfterOne(s, RegisterLeaves(id));
    } else {
      var device := AboveAll(s.devices.Keys);
      var committed := Step(s, RegisterCommits(id, device));
      Commits(s, id, device, version);
      Leaves(committed, id, device, version);
      r := Step(committed, RegisterLeaves(id));
      more := [RegisterCommits(id, device)] + [RegisterLeaves(id)];
      AfterOne(s, RegisterCommits(id, device));
      AfterOne(committed, RegisterLeaves(id));
      AfterBoth(s, [RegisterCommits(id, device)], [RegisterLeaves(id)]);
      QuietBoth(s, committed, r, version);
    }
  }

  /** With the gate free, a holder of the version goes in. */
  lemma EntersTheGate(s: State, id: nat, version: HoldKey) returns (more: seq<Event>, r: State)
    requires Good(s) && s.gate == None && id in OpenHolds(s.provisions, version)
    ensures NoNewPass(more) && r == After(s, more) && Quiet(s, r, version)
    ensures At(r, id, Registering) && r.provisions[id].made == Some(version)
    ensures OpenHolds(r.provisions, version) == OpenHolds(s.provisions, version)
  {
    assert LedgerOk(s.provisions[id]) && !Inside(s.provisions[id]);
    if s.provisions[id].point == Provisioned {
      more, r := [RegisterEnters(id)], Step(s, RegisterEnters(id));
      MovesUp(s, id, RegisterEnters(id), version);
      AfterOne(s, RegisterEnters(id));
    } else {
      var provisioned := Step(s, DriverProvisioned(id, true));
      MovesUp(s, id, DriverProvisioned(id, true), version);
      MovesUp(provisioned, id, RegisterEnters(id), version);
      r := Step(provisioned, RegisterEnters(id));
      more := [DriverProvisioned(id, true)] + [RegisterEnters(id)];
      AfterOne(s, DriverProvisioned(id, true));
      AfterOne(provisioned, RegisterEnters(id));
      AfterBoth(s, [DriverProvisioned(id, true)], [RegisterEnters(id)]);
      QuietBoth(s, provisioned, r, version);
    }
  }

  lemma JoinedPass(a: seq<Event>, b: seq<Event>)
    requires NoNewPass(a) && NoNewPass(b)
    ensures NoNewPass(a + b)
  {
  }

  /** With the gate free, a holder of the version commits its record and ends its hold. */
  lemma FinishesHolder(s: State, id: nat, version: HoldKey) returns (more: seq<Event>, r: State)
    requires Good(s) && s.gate == None && id in OpenHolds(s.provisions, version)
    ensures NoNewPass(more) && r == After(s, more) && Quiet(s, r, version) && r.gate == None
    ensures HasLive(r, version) && OpenHolds(r.provisions, version) == OpenHolds(s.provisions, version) - {id}
  {
    var first, inside := EntersTheGate(s, id, version);
    assert ComingOf(inside, version, id);
    var second: seq<Event>;
    second, r := LeavesTheGate(inside, id, version);
    more := first + second;
    JoinedPass(first, second);
    AfterBoth(s, first, second);
    QuietBoth(s, inside, r, version);
  }

  /** With the gate free, every holder in turn, until nothing holds the version. */
  lemma {:induction false} FinishesHolders(s: State, version: HoldKey) returns (more: seq<Event>, r: State)
    requires Good(s) && s.gate == None && (HasLive(s, version) || OpenHolds(s.provisions, version) != {})
    ensures NoNewPass(more) && r == After(s, more) && Quiet(s, r, version)
    ensures HasLive(r, version) && OpenHolds(r.provisions, version) == {}
    decreases |OpenHolds(s.provisions, version)|
  {
    if OpenHolds(s.provisions, version) == {} {
      return [], s;
    }
    var id :| id in OpenHolds(s.provisions, version);
    var first, next := FinishesHolder(s, id, version);
    var rest: seq<Event>;
    rest, r := FinishesHolders(next, version);
    more := first + rest;
    JoinedPass(first, rest);
    AfterBoth(s, first, rest);
    QuietBoth(s, next, r, version);
  }

  /** Whoever is in the gate, the copies under way get their records and end their holds. */
  lemma CopiesArrive(s: State, version: HoldKey) returns (more: seq<Event>, r: State)
    requires Good(s) && Coming(s, version)
    ensures NoNewPass(more) && r == After(s, more) && Quiet(s, r, version)
    ensures HasLive(r, version) && OpenHolds(r.provisions, version) == {}
  {
    var id: nat :| ComingOf(s, version, id);
    assert LedgerOk(s.provisions[id]);
    assert id in OpenHolds(s.provisions, version);
    if s.gate.None? {
      more, r := FinishesHolders(s, version);
    } else {
      var first, free := LeavesTheGate(s, s.gate.value, version);
      assert id != s.gate.value ==> id in OpenHolds(free.provisions, version);
      var rest: seq<Event>;
      rest, r := FinishesHolders(free, version);
      more := first + rest;
      JoinedPass(first, rest);
      AfterBoth(s, first, rest);
      QuietBoth(s, free, r, version);
    }
  }

  lemma {:induction false} NextDropReaches(
    b: Baselines, pending: seq<HoldKey>, list: map<nat, Device>, version: HoldKey)
    requires version in pending && !InUse(b, version, list)
    ensures var next := NextDrop(b, pending, list);
            && next.Dropping? && next.list == list && |next.pending| < |pending|
            && (next.row == version || version in next.pending)
  {
    if pending[0] != version && InUse(b, pending[0], list) {
      NextDropReaches(b, pending[1..], list, version);
    }
  }

  /** Nothing holds the version, a device of it lives, and the pass has yet to come to it. */
  ghost predicate Doomed(s: State, version: HoldKey) {
    && Good(s) && s.serial.Dropping? && version in s.serial.pending && HasLive(s, version)
    && !InUse(s.baselines, version, s.serial.list)
  }

  lemma SourceGoes(s: State, version: HoldKey)
    requires Doomed(s, version)
    ensures var r := Step(s, SourceDestroyed(true));
            DropsUnderADevice(r, version) || (Doomed(r, version) && |r.serial.pending| < |s.serial.pending|)
  {
    var left := DeleteRow(s.baselines, s.serial.row);
    var r := Step(s, SourceDestroyed(true));
    SourceStep(s);
    StepGood(s, SourceDestroyed(true));
    SameUse(s.baselines, left, version, s.serial.list);
    NextDropReaches(left, s.serial.pending, s.serial.list, version);
    LiveStays(s, r, version);
    if r.serial.row != version {
      SameUse(left, r.baselines, version, r.serial.list);
    }
  }

  lemma SourceStep(s: State)
    requires s.serial.Dropping?
    ensures var left := DeleteRow(s.baselines, s.serial.row);
            Step(s, SourceDestroyed(true))
            == s.(baselines := left, serial := NextDrop(left, s.serial.pending, s.serial.list))
  {
  }

  /** Whether a version is in use depends on the holds and the list alone. */
  lemma SameUse(b: Baselines, c: Baselines, version: HoldKey, list: map<nat, Device>)
    requires b.holds == c.holds
    ensures InUse(b, version, list) <==> InUse(c, version, list)
  {
  }

  lemma {:induction false} PassComesToIt(s: State, version: HoldKey) returns (more: seq<Event>)
    requires Doomed(s, version)
    ensures NoNewPass(more) && DropsUnderADevice(After(s, more), version)
    decreases |s.serial.pending|
  {
    var r := Step(s, SourceDestroyed(true));
    SourceGoes(s, version);
    AfterOne(s, SourceDestroyed(true));
    more := [SourceDestroyed(true)];
    if !DropsUnderADevice(r, version) {
      var rest := PassComesToIt(r, version);
      AfterBoth(s, more, rest);
      JoinedPass(more, rest);
      more := more + rest;
    }
  }

  lemma RiskLeadsToDrop(s: State, order: seq<HoldKey>, version: HoldKey) returns (after: seq<Event>)
    requires Good(s) && Enabled(s, DropStarts(order)) && AtRisk(s, order, version)
    ensures NoNewPass(after) && DropsUnderADevice(After(Step(s, DropStarts(order)), after), version)
  {
    var t := Step(s, DropStarts(order));
    PassStarts(s, order);
    SameDevices(s, t, version);
    var first, r := CopiesArrive(t, version);
    assert HoldsCounted(r, version);
    forall d | d in r.serial.list && r.serial.list[d].live
      ensures r.serial.list[d].baseline != Some(version)
    {
      assert !LiveOf(s, version, d);
    }
    var rest := PassComesToIt(r, version);
    after := first + rest;
    JoinedPass(first, rest);
    AfterBoth(t, first, rest);
  }

  // ---------------------------------------------------------------- theorems

  lemma RunGood(start: State, events: seq<Event>)
    requires Initial(start)
    ensures Good(Run(start, events))
  {
    RunOk(start, events);
    BaselineRunOk(start, events);
    RunGateOk(start, events);
  }

  lemma PassOfRun(start: State, before: seq<Event>, order: seq<HoldKey>, after: seq<Event>)
    ensures Run(start, before + [DropStarts(order)] + after)
            == After(Step(Run(start, before), DropStarts(order)), after)
  {
    RunExtends(start, before, DropStarts(order));
    RunAfter(start, before + [DropStarts(order)], after);
  }

  /**
   * The exact boundary, checkable when a pass reads its list, for every run up to then and every
   * version: the pass can come to drop the version under a live device if and only if the version has
   * no live device yet, a provision that holds it has yet to commit its record, and an earlier row of
   * the pass is not in use, so that the pass waits for a destroy before it looks at the version.
   */
  lemma {:induction false} DroppedUnderADeviceExactly(
    start: State, before: seq<Event>, order: seq<HoldKey>, version: HoldKey)
    requires Initial(start) && Enabled(Run(start, before), DropStarts(order))
    ensures (exists after :: NoNewPass(after)
                             && DropsUnderADevice(Run(start, before + [DropStarts(order)] + after), version))
            <==> AtRisk(Run(start, before), order, version)
  {
    var s := Run(start, before);
    RunGood(start, before);
    if after :| NoNewPass(after) && DropsUnderADevice(Run(start, before + [DropStarts(order)] + after), version) {
      PassOfRun(start, before, order, after);
      DropNeedsRisk(s, order, after, version);
    }
    if AtRisk(s, order, version) {
      var after := RiskLeadsToDrop(s, order, version);
      PassOfRun(start, before, order, after);
    }
  }

  /** In particular, a version that no provision holds when the list is read never goes under a device. */
  lemma {:induction false} UnheldNeverDroppedUnderADevice(
    start: State, before: seq<Event>, order: seq<HoldKey>, after: seq<Event>, version: HoldKey)
    requires Initial(start) && Enabled(Run(start, before), DropStarts(order)) && NoNewPass(after)
    requires OpenHolds(Run(start, before).provisions, version) == {}
    ensures !DropsUnderADevice(Run(start, before + [DropStarts(order)] + after), version)
  {
    var s := Run(start, before);
    RunGood(start, before);
    PassOfRun(start, before, order, after);
    assert HoldsCounted(s, version);
    if DropsUnderADevice(After(Step(s, DropStarts(order)), after), version) {
      DropNeedsRisk(s, order, after, version);
      ComingIsHeld(s, version);
      assert false;
    }
  }

  // ---------------------------------------------------------------- a run

  /** A worker with an old version of `a` not yet dropped and one version of `b`. */
  function DropStart(): State {
    State(Components(map[], map[]),
          Baselines(map["a" := [Row(1, 1), Row(2, 2)], "b" := [Row(1, 3)]], map[]),
          map[], map[], None, Idle, {"ios"})
  }

  function Copy(): Spec {
    Spec("ios", "18", Some("b"))
  }

  /** The state after a copy of `b` is claimed, and after `b` is saved again meanwhile. */
  function CopyClaimed(): State {
    State(Components(map[Key("ios", "18") := 1], map[]),
          Baselines(map["a" := [Row(1, 1), Row(2, 2)], "b" := [Row(1, 3)]], map[HoldKey("b", 1) := 1]),
          map[],
          map[0 := Provision(Copy(), Some(HoldKey("b", 1)), Driving, Ledger(1, 0, 1, 0, 0))],
          None, Idle, {"ios"})
  }

  function SavedAgain(): State {
    CopyClaimed().(
      baselines := Baselines(map["a" := [Row(1, 1), Row(2, 2)], "b" := [Row(1, 3), Row(2, 4)]],
                             map[HoldKey("b", 1) := 1]),
      serial := Saved)
  }

  lemma ClaimsCopy()
    ensures Step(Step(DropStart(), Request(0, Copy())), ClaimGate(0)) == CopyClaimed()
  {
    var s := DropStart();
    var s1 := Step(s, Request(0, Copy()));
    assert s1 == s.(provisions := map[0 := Requested(Copy(), {"ios"})]);
    assert Current(s1.baselines, "b") == Some(Row(1, 3));
    var s2 := Step(s1, ClaimGate(0));
    assert s2.provisions == CopyClaimed().provisions;
    assert s2.baselines.holds == map[HoldKey("b", 1) := 1];
  }

  lemma SavesAgain()
    ensures Step(Step(CopyClaimed(), SaveStarts("b")), SaveInserts(4)) == SavedAgain()
  {
    var s := Step(CopyClaimed(), SaveStarts("b"));
    assert RowsOf(s.baselines, "b") + [Row(2, 4)] == [Row(1, 3), Row(2, 4)];
  }

  lemma ReachesSave() returns (events: seq<Event>)
    ensures Initial(DropStart()) && Run(DropStart(), events) == SavedAgain()
  {
    var e0, e1, e2, e3 := Request(0, Copy()), ClaimGate(0), SaveStarts("b"), SaveInserts(4);
    events := [] + [e0] + [e1] + [e2] + [e3];
    RunExtends(DropStart(), [], e0);
    RunExtends(DropStart(), [] + [e0], e1);
    RunExtends(DropStart(), [] + [e0] + [e1], e2);
    RunExtends(DropStart(), [] + [e0] + [e1] + [e2], e3);
    ClaimsCopy();
    SavesAgain();
  }

  const BothRows: seq<HoldKey> := [HoldKey("a", 1), HoldKey("b", 1)]

  lemma RowsToDrop()
    ensures Enabled(SavedAgain(), DropStarts(BothRows))
  {
    var s := SavedAgain();
    forall key
      ensures key in BothRows <==> Replaced(s.baselines, key)
    {
      assert RowsOf(s.baselines, "a")[0].version == 1 && RowsOf(s.baselines, "a")[1].version == 2;
      assert RowsOf(s.baselines, "b")[0].version == 1 && RowsOf(s.baselines, "b")[1].version == 2;
      assert key.name !in {"a", "b"} ==> RowsOf(s.baselines, key.name) == [];
    }
  }

  /** A run from a fresh start in which a pass drops a version under a live device. */
  lemma LiveVersionCanBeDropped() returns (before: seq<Event>, after: seq<Event>)
    ensures Initial(DropStart())
    ensures DropsUnderADevice(Run(DropStart(), before + [DropStarts(BothRows)] + after), HoldKey("b", 1))
  {
    var s := SavedAgain();
    before := ReachesSave();
    RowsToDrop();
    assert ComingOf(s, HoldKey("b", 1), 0);
    assert !HasLive(s, HoldKey("b", 1));
    assert BothRows[1..] == [HoldKey("b", 1)];
    RunGood(DropStart(), before);
    after := RiskLeadsToDrop(s, BothRows, HoldKey("b", 1));
    PassOfRun(DropStart(), before, BothRows, after);
  }
}
