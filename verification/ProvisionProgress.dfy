/** A provision always comes to its end: no run leaves it stuck, and every step of it counts down. */
module ProvisionProgress {
  import opened Common
  import opened Worker
  import opened WorkerRuns

  /** Inside the gate section of `#register`. */
  predicate Inside(v: Provision) {
    v.point == Registering || v.point.Committed?
  }

  /** The gate is held by the one provision that is inside a section, if any is. */
  ghost predicate GateOk(s: State) {
    && (s.gate.Some? ==> s.gate.value in s.provisions && Inside(s.provisions[s.gate.value]))
    && (forall id :: id in s.provisions && Inside(s.provisions[id]) ==> s.gate == Some(id))
  }

  /** The call has returned or thrown. */
  predicate Over(v: Provision) {
    v.point == Done || v.point == NoDriver
  }

  /** How many steps of its own a provision has left at most. */
  function StepsLeft(v: Provision): nat {
    match v.point
    case Claiming => 7
    case Driving => 6
    case Provisioned => 5
    case Registering => 4
    case Committed(_) => 3
    case MakingReady(_) => 2
    case Destroying(_) => 1
    case Refused => 1
    case Unregistered => 1
    case Done => 0
    case NoDriver => 0
  }

  /** The provision an event is a step of. */
  function Of(e: Event): Option<nat> {
    match e
    case Request(id, _) => Some(id)
    case ClaimGate(id) => Some(id)
    case ClaimCaught(id) => Some(id)
    case DriverProvisioned(id, _) => Some(id)
    case RegisterEnters(id) => Some(id)
    case RegisterCommits(id, _) => Some(id)
    case RegisterFails(id) => Some(id)
    case RegisterLeaves(id) => Some(id)
    case RegisterCaught(id) => Some(id)
    case ReadyReturned(id, _) => Some(id)
    case DestroyReturned(id, _) => Some(id)
    case _ => None
  }

  lemma OthersUntouched(s: State, e: Event)
    requires Of(e).None?
    ensures Step(s, e).provisions == s.provisions && Step(s, e).gate == s.gate && Step(s, e).drivers == s.drivers
  {
  }

  /** The gate after a step of a provision. */
  function GateAfter(gate: Option<nat>, e: Event): Option<nat> {
    match e
    case RegisterEnters(id) => Some(id)
    case RegisterFails(_) => None
    case RegisterLeaves(_) => None
    case _ => gate
  }

  /** Steps of a provision inside the gate section, or out of it. */
  predicate InSection(e: Event) {
    e.RegisterCommits? || e.RegisterFails? || e.RegisterLeaves?
  }

  /** What a step of a provision does: to itself alone, bringing it nearer to its end. */
  ghost predicate OwnEffect(s: State, r: State, e: Event, id: nat) {
    && id in r.provisions && r.provisions == s.provisions[id := r.provisions[id]]
    && r.gate == GateAfter(s.gate, e) && r.drivers == s.drivers
    && (Inside(r.provisions[id]) <==> e.RegisterEnters? || e.RegisterCommits?)
    && (InSection(e) <==> id in s.provisions && Inside(s.provisions[id]))
    && (e.RegisterEnters? ==> s.gate == None)
    && (id in s.provisions ==>
          && StepsLeft(r.provisions[id]) < StepsLeft(s.provisions[id])
          && r.provisions[id].spec == s.provisions[id].spec
          && r.provisions[id].point != NoDriver && s.provisions[id].point != NoDriver)
  }

  lemma ClaimPhase(s: State, e: Event, id: nat)
    requires Of(e) == Some(id) && Enabled(s, e)
    requires e.ClaimGate? || e.ClaimCaught? || e.DriverProvisioned?
    ensures OwnEffect(s, Step(s, e), e, id)
  {
    match e
    case ClaimGate(_) =>
    case ClaimCaught(_) =>
    case DriverProvisioned(_, _) =>
  }

  lemma RegisterPhase(s: State, e: Event, id: nat)
    requires Of(e) == Some(id) && Enabled(s, e)
    requires e.RegisterEnters? || InSection(e) || e.RegisterCaught?
    ensures OwnEffect(s, Step(s, e), e, id)
  {
    match e
    case RegisterEnters(_) =>
    case RegisterCommits(_, _) =>
    case RegisterFails(_) =>
    case RegisterLeaves(_) =>
    case RegisterCaught(_) =>
  }

  lemma ReadyPhase(s: State, e: Event, id: nat)
    requires Of(e) == Some(id) && Enabled(s, e)
    requires e.ReadyReturned? || e.DestroyReturned?
    ensures OwnEffect(s, Step(s, e), e, id)
  {
    match e
    case ReadyReturned(_, _) =>
    case DestroyReturned(_, _) =>
  }

  lemma RequestPhase(s: State, e: Event, id: nat)
    requires Of(e) == Some(id) && Enabled(s, e) && e.Request?
    ensures OwnEffect(s, Step(s, e), e, id)
    ensures Step(s, e).provisions[id] == Requested(e.spec, s.drivers)
  {
  }

  lemma OwnStep(s: State, e: Event, id: nat)
    requires Of(e) == Some(id) && Enabled(s, e)
    ensures OwnEffect(s, Step(s, e), e, id)
  {
    if e.Request? {
      RequestPhase(s, e, id);
    } else if e.ReadyReturned? || e.DestroyReturned? {
      ReadyPhase(s, e, id);
    } else if e.ClaimGate? || e.ClaimCaught? || e.DriverProvisioned? {
      ClaimPhase(s, e, id);
    } else {
      RegisterPhase(s, e, id);
    }
  }

  /** Every step leaves a provision as it is or brings it nearer to its end. */
  lemma StepCountsDown(s: State, e: Event, id: nat)
    requires id in s.provisions
    ensures id in Step(s, e).provisions
    ensures || Step(s, e).provisions[id] == s.provisions[id]
            || StepsLeft(Step(s, e).provisions[id]) < StepsLeft(s.provisions[id])
  {
    if Of(e).None? {
      OthersUntouched(s, e);
    } else if Enabled(s, e) {
      OwnStep(s, e, Of(e).value);
    }
  }

  lemma StepGateOk(s: State, e: Event)
    requires GateOk(s)
    ensures GateOk(Step(s, e))
  {
    if Of(e).None? {
      OthersUntouched(s, e);
    } else if Enabled(s, e) {
      OwnStep(s, e, Of(e).value);
    }
  }

  lemma {:induction false} RunGateOk(start: State, events: seq<Event>)
    requires Initial(start)
    ensures GateOk(Run(start, events))
  {
    if events != [] {
      RunGateOk(start, events[..|events| - 1]);
      StepGateOk(Run(start, events[..|events| - 1]), events[|events| - 1]);
    }
  }

  /** The step a provision waits to take, with one of the outcomes it may have. */
  function NextStep(id: nat, v: Provision): Event {
    match v.point
    case Claiming => ClaimGate(id)
    case Driving => DriverProvisioned(id, true)
    case Provisioned => RegisterEnters(id)
    case Registering => RegisterFails(id)
    case Committed(_) => RegisterLeaves(id)
    case MakingReady(_) => ReadyReturned(id, true)
    case Destroying(_) => DestroyReturned(id, true)
    case Refused => ClaimCaught(id)
    case Unregistered => RegisterCaught(id)
    case Done => ClaimGate(id)
    case NoDriver => ClaimGate(id)
  }

  /**
   * In every reachable state, an unfinished provision can take its next step, or waits for the gate
   * and the one other provision inside it can; and the step taken counts that provision down.
   */
  lemma {:induction false} NeverStuck(start: State, events: seq<Event>, id: nat)
    requires Initial(start) && id in Run(start, events).provisions
    requires !Over(Run(start, events).provisions[id])
    ensures CanMove(Run(start, events), id)
  {
    RunGateOk(start, events);
    MoverMoves(Run(start, events), id);
  }

  /** Who moves next for a provision to get on: the one inside the gate it waits for, or itself. */
  function Mover(s: State, id: nat): nat
    requires id in s.provisions
  {
    if s.gate.Some? && s.provisions[id].point in {Claiming, Provisioned} then s.gate.value else id
  }

  ghost predicate CanMove(s: State, id: nat)
    requires id in s.provisions
  {
    var mover := Mover(s, id);
    && mover in s.provisions && (mover != id ==> Inside(s.provisions[mover]))
    && var e := NextStep(mover, s.provisions[mover]);
    && Of(e) == Some(mover) && Enabled(s, e)
    && mover in Step(s, e).provisions
    && StepsLeft(Step(s, e).provisions[mover]) < StepsLeft(s.provisions[mover])
  }

  lemma MoverMoves(s: State, id: nat)
    requires GateOk(s) && id in s.provisions && !Over(s.provisions[id])
    ensures CanMove(s, id)
  {
    var mover := Mover(s, id);
    var e := NextStep(mover, s.provisions[mover]);
    assert Enabled(s, e);
    OwnStep(s, e, mover);
  }

  /** From every reachable state a provision can be brought to its end, whoever else is under way. */
  lemma {:induction false} CanFinish(start: State, events: seq<Event>, id: nat) returns (more: seq<Event>)
    requires Initial(start) && id in Run(start, events).provisions
    ensures id in Run(start, events + more).provisions && Over(Run(start, events + more).provisions[id])
  {
    RunGateOk(start, events);
    more := CanFinishFrom(Run(start, events), id);
    RunAfter(start, events, more);
  }

  /** The state after more events. */
  ghost function After(s: State, events: seq<Event>): State
    decreases |events|
  {
    if events == [] then s else After(Step(s, events[0]), events[1..])
  }

  lemma {:induction false} RunAfter(start: State, events: seq<Event>, more: seq<Event>)
    ensures Run(start, events + more) == After(Run(start, events), more)
    decreases |more|
  {
    if more == [] {
      assert events + more == events;
    } else {
      var next := events + [more[0]];
      assert next[..|events|] == events;
      RunAfter(start, next, more[1..]);
      FirstOf(events, more);
    }
  }

  lemma {:induction false} CanFinishFrom(s: State, id: nat) returns (more: seq<Event>)
    requires GateOk(s) && id in s.provisions
    ensures id in After(s, more).provisions && Over(After(s, more).provisions[id])
    decreases StepsLeft(s.provisions[id]), if s.gate.Some? then StepsLeft(s.provisions[s.gate.value]) else 0
  {
    if Over(s.provisions[id]) {
      return [];
    }
    var mover := Mover(s, id);
    MoverMoves(s, id);
    var e := NextStep(mover, s.provisions[mover]);
    var r := Step(s, e);
    OwnStep(s, e, mover);
    StepGateOk(s, e);
    var rest := CanFinishFrom(r, id);
    more := [e] + rest;
    assert more[1..] == rest;
  }

  // ---------------------------------------------------------------- the reservation

  /** A provision keeps its platform, and is without a driver exactly when its platform is. */
  ghost predicate DriversOk(s: State) {
    forall id :: id in s.provisions ==>
      (s.provisions[id].point == NoDriver <==> s.provisions[id].spec.platform !in s.drivers)
  }

  lemma StepDriversOk(s: State, e: Event)
    requires DriversOk(s)
    ensures DriversOk(Step(s, e)) && Step(s, e).drivers == s.drivers
  {
    if Of(e).None? {
      OthersUntouched(s, e);
    } else if Enabled(s, e) {
      OwnStep(s, e, Of(e).value);
      if e.Request? {
        RequestPhase(s, e, e.id);
      }
    }
  }

  lemma {:induction false} RunDriversOk(start: State, events: seq<Event>)
    requires Initial(start)
    ensures DriversOk(Run(start, events)) && Run(start, events).drivers == start.drivers
  {
    if events != [] {
      RunDriversOk(start, events[..|events| - 1]);
      StepDriversOk(Run(start, events[..|events| - 1]), events[|events| - 1]);
    }
  }

  /**
   * In every run, a provision that is over has released its reservation exactly once if and only if
   * its platform has a driver, and otherwise not at all.
   */
  lemma {:induction false} ReservationReleasedExactlyWithADriver(start: State, events: seq<Event>, id: nat)
    requires Initial(start) && id in Run(start, events).provisions && Over(Run(start, events).provisions[id])
    ensures var v := Run(start, events).provisions[id];
            v.ledger.reservationEnds == if v.spec.platform in start.drivers then 1 else 0
  {
    RunDriversOk(start, events);
    RunOk(start, events);
    assert LedgerOk(Run(start, events).provisions[id]);
  }

  /** The failing run: a request for a platform without a driver is over with its reservation held. */
  lemma NoDriverKeepsTheReservation(spec: Spec)
    ensures var start := State(Components(map[], map[]), Baselines(map[], map[]), map[], map[], None, Idle, {});
            && Initial(start)
            && var s := Run(start, [Request(0, spec)]);
            && 0 in s.provisions && Over(s.provisions[0]) && s.provisions[0].ledger.reservationEnds == 0
  {
    var start := State(Components(map[], map[]), Baselines(map[], map[]), map[], map[], None, Idle, {});
    assert Run(start, []) == start;
    assert [Request(0, spec)][..0] == [];
    assert Run(start, [Request(0, spec)]) == Step(start, Request(0, spec));
  }
}
