/**
 * `DeviceProvisioner.provision` of `src/core/device-provisioner.ts`: one call as an object whose
 * methods run the stretches between two awaits. `Moves` ties each to the step it takes in `Worker`.
 */
module DeviceProvisioner {
  import opened Common
  import opened Worker
  import ComponentInstaller
  import BaselineService

  /** The parts of a worker's state one provision reads and writes. */
  datatype Part = Part(components: Components, baselines: Baselines, provision: Provision)

  ghost predicate Shows(s: State, id: nat, part: Part) {
    s.components == part.components && s.baselines == part.baselines
    && id in s.provisions && s.provisions[id] == part.provision
  }

  ghost function With(s: State, id: nat, part: Part): State {
    s.(components := part.components, baselines := part.baselines,
       provisions := s.provisions[id := part.provision])
  }

  /** A part goes from one to the other as the gate section of `#claim` does, in every state it is part of. */
  ghost predicate ClaimsAs(before: Part, after: Part) {
    forall s, id | Shows(s, id, before) :: ClaimSection(s, id) == With(s, id, after)
  }

  lemma ClaimRefused(before: Part, after: Part)
    requires BeingRemoved(before.components, KeyOf(before.provision.spec))
    requires after == before.(provision := before.provision.(point := Refused))
    ensures ClaimsAs(before, after)
  {
  }

  lemma ClaimGivenBack(before: Part, after: Part)
    requires !BeingRemoved(before.components, KeyOf(before.provision.spec))
    requires var v := before.provision;
             && v.spec.baseline.Some? && Current(before.baselines, v.spec.baseline.value).None?
             && after == before.(
                  components := ReleaseClaim(Claim(before.components, KeyOf(v.spec)), KeyOf(v.spec)),
                  provision := v.(point := Refused, ledger := v.ledger.(
                                  claims := v.ledger.claims + 1, claimEnds := v.ledger.claimEnds + 1)))
    ensures ClaimsAs(before, after)
  {
  }

  lemma ClaimAlone(before: Part, after: Part)
    requires !BeingRemoved(before.components, KeyOf(before.provision.spec))
    requires var v := before.provision;
             && v.spec.baseline.None?
             && after == before.(
                  components := Claim(before.components, KeyOf(v.spec)),
                  provision := v.(point := Driving, ledger := v.ledger.(claims := v.ledger.claims + 1)))
    ensures ClaimsAs(before, after)
  {
  }

  lemma ClaimWithHold(before: Part, after: Part)
    requires !BeingRemoved(before.components, KeyOf(before.provision.spec))
    requires var v := before.provision;
             && v.spec.baseline.Some? && Current(before.baselines, v.spec.baseline.value).Some?
             && var made := HoldKey(v.spec.baseline.value,
                                    Current(before.baselines, v.spec.baseline.value).value.version);
             && after == Part(
                  Claim(before.components, KeyOf(v.spec)), Hold(before.baselines, made),
                  v.(point := Driving, made := Some(made), ledger := v.ledger.(
                     claims := v.ledger.claims + 1, holds := v.ledger.holds + 1)))
    ensures ClaimsAs(before, after)
  {
  }

  /** A part whose claim ended once and whose hold ended when there was one. */
  ghost predicate EndsBoth(before: Part, after: Part, next: Point) {
    var v := before.provision;
    var released := v.ledger.claimEnds > 0;
    && after.components == (if released then before.components else ReleaseClaim(before.components, KeyOf(v.spec)))
    && after.baselines == (if v.made.None? then before.baselines else ReleaseHold(before.baselines, v.made.value))
    && after.provision == v.(point := next, ledger := v.ledger.(
                             claimEnds := v.ledger.claimEnds + (if released then 0 else 1),
                             holdEnds := v.ledger.holdEnds + (if v.made.None? then 0 else 1)))
  }

  lemma EndsAsStep(before: Part, after: Part, next: Point)
    requires EndsBoth(before, after, next)
    ensures forall s, id | Shows(s, id, before) :: EndClaimAndHold(s, id, next) == With(s, id, after)
  {
  }

  /** One call of `provision`. Its reservation is counted in the ledger only. */
  class Call {
    const installer: ComponentInstaller.Installer
    const baselines: BaselineService.Service
    const spec: Spec
    var made: Option<HoldKey>
    var claim: Option<ComponentInstaller.ProvisionClaim>
    var point: Point
    ghost var ledger: Ledger

    ghost function View(): Part
      reads this, installer, baselines
    {
      Part(installer.Components(), baselines.View(), Provision(spec, made, point, ledger))
    }

    /** The claim is kept from the gate section on, and its flag says whether it was ended. */
    ghost predicate Valid()
      reads this, if claim.Some? then {claim.value} else {}
    {
      && (point == Claiming ==> claim.None? && ledger.claimEnds == 0)
      && (point == Driving || point == Provisioned || point == Registering || point.Committed? ==> claim.Some?)
      && (claim.Some? ==> claim.value.key == KeyOf(spec) && (claim.value.released <==> ledger.claimEnds > 0))
    }

    /** Up to the gate, or to the throw of the driver lookup. */
    constructor (
      installer: ComponentInstaller.Installer, baselines: BaselineService.Service, spec: Spec, drivers: set<Platform>)
      ensures Valid() && this.installer == installer && this.baselines == baselines
      ensures point == if spec.platform in drivers then Claiming else NoDriver
      ensures View() == Part(installer.Components(), baselines.View(), Requested(spec, drivers))
    {
      this.installer := installer;
      this.baselines := baselines;
      this.spec := spec;
      made := None;
      claim := None;
      point := if spec.platform in drivers then Claiming else NoDriver;
      ledger := Ledger(0, 0, 0, 0, 0);
    }

    /** What `#claim` refuses: a version being removed, or a baseline without versions. */
    ghost predicate Refuses()
      reads this, installer, baselines
    {
      || (&& spec.platform in installer.removals && installer.removals[spec.platform].marked
          && installer.removals[spec.platform].version == spec.version)
      || (spec.baseline.Some? && RowsOf(baselines.View(), spec.baseline.value) == [])
    }

    /** Reads the newest version of the baseline and holds it; false when the name is unknown. */
    method HoldCurrent(name: string) returns (held: bool)
      modifies this`made, this`ledger, baselines`holds
      ensures held <==> Current(old(baselines.View()), name).Some?
      ensures !held ==> made == old(made) && ledger == old(ledger) && baselines.View() == old(baselines.View())
      ensures held ==>
                var key := HoldKey(name, Current(old(baselines.View()), name).value.version);
                && made == Some(key) && baselines.View() == Hold(old(baselines.View()), key)
                && ledger == old(ledger).(holds := old(ledger).holds + 1)
    {
      var current := baselines.CurrentVersion(name);
      held := current.Some?;
      if held {
        var key := HoldKey(name, current.value.version);
        made := Some(key);
        baselines.HoldVersion(key);
        ledger := ledger.(holds := ledger.holds + 1);
      }
    }

    /** The gate section of `#claim`, and the throw that leaves it. */
    method ClaimInGate()
      requires Valid() && point == Claiming
      modifies this`made, this`claim, this`point, this`ledger, installer`provisioning, baselines`holds
      ensures Valid() && point == if old(Refuses()) then Refused else Driving
      ensures ClaimsAs(old(View()), View())
    {
      ghost var before := View();
      var taken := installer.ClaimProvision(KeyOf(spec));
      point := Refused;
      if taken.None? {
        ClaimRefused(before, View());
        return;
      }
      ledger := ledger.(claims := ledger.claims + 1);
      if spec.baseline.Some? {
        var held := HoldCurrent(spec.baseline.value);
        if !held {
          installer.Release(taken.value);
          ledger := ledger.(claimEnds := ledger.claimEnds + 1);
          ClaimGivenBack(before, View());
          return;
        }
        claim, point := taken, Driving;
        ClaimWithHold(before, View());
      } else {
        claim, point := taken, Driving;
        ClaimAlone(before, View());
      }
    }

    /** `options.reservation.release()`, the last thing every path does. */
    method ReleaseReservation()
      requires Valid()
      modifies this`point, this`ledger
      ensures Valid() && point == Done
      ensures ledger == old(ledger).(reservationEnds := old(ledger).reservationEnds + 1)
      ensures forall s, id | Shows(s, id, old(View())) :: EndReservation(s, id) == With(s, id, View())
    {
      ledger := ledger.(reservationEnds := ledger.reservationEnds + 1);
      point := Done;
    }

    /** `releaseClaim()` */
    method EndClaim()
      requires Valid() && claim.Some?
      modifies this`ledger, installer`provisioning, claim.value
      ensures Valid() && claim.value.released
      ensures installer.Components() == if old(claim.value.released) then old(installer.Components())
                                        else ReleaseClaim(old(installer.Components()), KeyOf(spec))
      ensures ledger == old(ledger).(
                          claimEnds := old(ledger).claimEnds + (if old(claim.value.released) then 0 else 1))
    {
      if !claim.value.released {
        ledger := ledger.(claimEnds := ledger.claimEnds + 1);
      }
      installer.Release(claim.value);
    }

    /** `made.hold()`, which does nothing without a baseline. */
    method EndHold()
      modifies this`ledger, baselines`holds
      ensures baselines.View() == if made.None? then old(baselines.View())
                                  else ReleaseHold(old(baselines.View()), made.value)
      ensures ledger == old(ledger).(holdEnds := old(ledger).holdEnds + (if made.None? then 0 else 1))
    {
      if made.Some? {
        baselines.ReleaseVersion(made.value);
        ledger := ledger.(holdEnds := ledger.holdEnds + 1);
      }
    }

    /** `releaseClaim(); made.hold();` */
    method ReleaseClaimAndHold(next: Point)
      requires Valid() && claim.Some? && next != Claiming
      modifies this`point, this`ledger, installer`provisioning, baselines`holds, claim.value
      ensures Valid() && point == next && claim.value.released && EndsBoth(old(View()), View(), next)
      ensures forall s, id | Shows(s, id, old(View())) :: EndClaimAndHold(s, id, next) == With(s, id, View())
    {
      EndClaim();
      EndHold();
      point := next;
      EndsAsStep(old(View()), View(), next);
    }

    /** `driver.provision` answered, or threw. */
    method DriverAnswered(ok: bool)
      requires Valid() && point == Driving
      modifies this`point, this`ledger, installer`provisioning, baselines`holds, claim.value
      ensures Valid() && point == if ok then Provisioned else Done
      ensures ok ==> ledger == old(ledger) && claim.value.released == old(claim.value.released)
      ensures !ok ==> claim.value.released && ledger.reservationEnds == old(ledger).reservationEnds + 1
      ensures forall s, id | Shows(s, id, old(View())) ::
                Step(s, DriverProvisioned(id, ok)) == With(s, id, View())
    {
      if ok {
        point := Provisioned;
      } else {
        ReleaseClaimAndHold(Done);
        ReleaseReservation();
      }
    }

    /** The catch of a claim that was refused, or of a register section that threw. */
    method CaughtThrow()
      requires Valid() && (point == Refused || point == Unregistered)
      modifies this`point, this`ledger
      ensures Valid() && point == Done
      ensures forall s, id | Shows(s, id, old(View())) ::
                Step(s, if old(point) == Refused then ClaimCaught(id) else RegisterCaught(id)) == With(s, id, View())
    {
      ReleaseReservation();
    }

    /** `decisions.run` lets the register section in; the claim and the hold are still there. */
    method EntersRegister()
      requires Valid() && point == Provisioned
      modifies this`point
      ensures Valid() && point == Registering && claim == old(claim)
      ensures forall s, id | Shows(s, id, old(View())) && s.gate == None ::
                Step(s, RegisterEnters(id)) == With(s, id, View()).(gate := Some(id))
    {
      point := Registering;
    }

    /** The registry's commit: the record has the version that was held, and the claim still counts. */
    method RecordCommitted(device: nat)
      requires Valid() && point == Registering
      modifies this`point
      ensures Valid() && point == Committed(device) && claim == old(claim)
      ensures forall s, id | Shows(s, id, old(View())) && device !in s.devices ::
                Step(s, RegisterCommits(id, device))
                == With(s, id, View()).(devices := s.devices[device := Device(KeyOf(spec), made, true)])
    {
      point := Committed(device);
    }

    /** `registerDevice` committed the record, or threw; the `finally` in the gate section ends both. */
    method RegisterAnswered(ok: bool)
      requires Valid() && (if ok then point.Committed? else point == Registering)
      modifies this`point, this`ledger, installer`provisioning, baselines`holds, claim.value
      ensures Valid() && claim.value.released
      ensures point == if ok then MakingReady(old(point).device) else Unregistered
      ensures forall s, id | Shows(s, id, old(View())) ::
                Step(s, if ok then RegisterLeaves(id) else RegisterFails(id)) == With(s, id, View()).(gate := None)
    {
      ReleaseClaimAndHold(if ok then MakingReady(point.device) else Unregistered);
    }

    /** `readyProvisionedForLease` answered with a device, which ends the call, or with none, or threw. */
    method ReadyAnswered(ok: bool)
      requires Valid() && point.MakingReady?
      modifies this`point, this`ledger
      ensures Valid() && point == if ok then Done else Destroying(old(point).device)
      ensures ledger.reservationEnds == old(ledger).reservationEnds + if ok then 1 else 0
      ensures forall s, id | Shows(s, id, old(View())) ::
                Step(s, ReadyReturned(id, ok)) == With(s, id, View())
    {
      if ok {
        ReleaseReservation();
      } else {
        point := Destroying(point.device);
      }
    }

    /** `destroy` of a device that did not become ready returned or threw; the reservation ends either way,
        and a record that was not deleted stays. */
    method DestroyAnswered(deleted: bool)
      requires Valid() && point.Destroying?
      modifies this`point, this`ledger
      ensures Valid() && point == Done
      ensures forall s, id | Shows(s, id, old(View())) ::
                Step(s, DestroyReturned(id, deleted))
                == With(if deleted then Delete(s, old(point).device) else s, id, View())
    {
      ReleaseReservation();
    }
  }
}
