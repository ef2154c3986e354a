/**
 * How provisions, device records and removals of a run go on: which answer moves what where, and
 * when a device's record is deleted.
 */
module ProvisionOutcomes {
  import opened Common
  import opened Worker
  import opened WorkerRuns
  import opened ProvisionProgress

  // ---------------------------------------------------------------- where a provision goes

  /** `claim` refuses: the version is marked by a removal, or the baseline has no version. */
  ghost predicate ClaimRefused(s: State, spec: Spec) {
    || (&& spec.platform in s.components.removals && s.components.removals[spec.platform].marked
        && s.components.removals[spec.platform].version == spec.version)
    || (&& spec.baseline.Some?
        && (spec.baseline.value !in s.baselines.rows || s.baselines.rows[spec.baseline.value] == []))
  }

  /** The event can happen and takes the provision to this point: each point has its own causes. */
  ghost predicate MovesTo(s: State, e: Event, id: nat, point: Point)
    requires id in s.provisions
  {
    var v := s.provisions[id];
    && Enabled(s, e)
    && match point
       case Claiming => false
       case NoDriver => false
       case Refused => e == ClaimGate(id) && ClaimRefused(s, v.spec)
       case Driving => e == ClaimGate(id) && !ClaimRefused(s, v.spec)
       case Provisioned => e == DriverProvisioned(id, true)
       case Registering => e == RegisterEnters(id)
       case Committed(d) => e == RegisterCommits(id, d)
       case Unregistered => e == RegisterFails(id)
       case MakingReady(d) => e == RegisterLeaves(id) && v.point == Committed(d)
       case Destroying(d) => e == ReadyReturned(id, false) && v.point == MakingReady(d)
       case Done =>
         || e == ClaimCaught(id) || e == DriverProvisioned(id, false) || e == RegisterCaught(id)
         || e == ReadyReturned(id, true) || e == DestroyReturned(id, true) || e == DestroyReturned(id, false)
  }

  /** A provision comes to a point in the step exactly when the event is a cause of that. */
  ghost predicate MovesRight(s: State, r: State, e: Event, id: nat)
    requires id in s.provisions
  {
    && id in r.provisions
    && forall point ::
         (r.provisions[id].point == point && s.provisions[id].point != point <==> MovesTo(s, e, id, point))
  }

  /** Only a step of the provision itself moves it. */
  lemma OwnMoves(s: State, e: Event, id: nat, point: Point)
    requires id in s.provisions && MovesTo(s, e, id, point)
    ensures Of(e) == Some(id) && Enabled(s, e)
  {
  }

  lemma OthersMove(s: State, r: State, e: Event, id: nat)
    requires id in s.provisions && id in r.provisions && r.provisions[id] == s.provisions[id]
    requires Of(e) != Some(id) || !Enabled(s, e)
    ensures MovesRight(s, r, e, id)
  {
    forall point
      ensures !MovesTo(s, e, id, point)
    {
      if MovesTo(s, e, id, point) {
        OwnMoves(s, e, id, point);
      }
    }
  }

  lemma ClaimMoves(s: State, id: nat)
    requires id in s.provisions && Enabled(s, ClaimGate(id))
    ensures MovesRight(s, ClaimSection(s, id), ClaimGate(id), id)
  {
    var v := s.provisions[id];
    var r := ClaimSection(s, id);
    assert r.provisions[id].point == if ClaimRefused(s, v.spec) then Refused else Driving;
  }

  lemma EarlyMoves(s: State, e: Event, id: nat)
    requires id in s.provisions && Of(e) == Some(id) && Enabled(s, e)
    requires e.ClaimCaught? || e.DriverProvisioned? || e.RegisterEnters? || e.RegisterCommits?
    ensures MovesRight(s, Step(s, e), e, id)
  {
    match e
    case ClaimCaught(_) =>
    case DriverProvisioned(_, _) =>
    case RegisterEnters(_) =>
    case RegisterCommits(_, _) =>
  }

  lemma LateMoves(s: State, e: Event, id: nat)
    requires id in s.provisions && Of(e) == Some(id) && Enabled(s, e)
    requires e.RegisterFails? || e.RegisterLeaves? || e.RegisterCaught? || e.ReadyReturned? || e.DestroyReturned?
    ensures MovesRight(s, Step(s, e), e, id)
  {
    match e
    case RegisterFails(_) =>
    case RegisterLeaves(_) =>
    case RegisterCaught(_) =>
    case ReadyReturned(_, _) =>
    case DestroyReturned(_, _) =>
  }

  lemma StepMoves(s: State, e: Event, id: nat)
    requires id in s.provisions
    ensures MovesRight(s, Step(s, e), e, id)
  {
    if !Enabled(s, e) {
      OthersMove(s, s, e, id);
    } else if Of(e).None? {
      OthersUntouched(s, e);
      OthersMove(s, Step(s, e), e, id);
    } else if Of(e) != Some(id) {
      OwnStep(s, e, Of(e).value);
      OthersMove(s, Step(s, e), e, id);
    } else if e.ClaimGate? {
      ClaimMoves(s, id);
    } else if e.ClaimCaught? || e.DriverProvisioned? || e.RegisterEnters? || e.RegisterCommits? {
      EarlyMoves(s, e, id);
    } else {
      LateMoves(s, e, id);
    }
  }

  // ---------------------------------------------------------------- what becomes of a record

  /** The event deletes the record of a device: from outside, or by the provision whose device did not
      become ready. */
  ghost predicate Deletes(s: State, e: Event, d: nat) {
    && Enabled(s, e)
    && (e == DeviceDeleted(d) || (e.DestroyReturned? && e.deleted && s.provisions[e.id].point == Destroying(d)))
  }

  /** Records are added by a commit, go from live to deleted by what deletes them, and else stay. */
  ghost predicate RecordsRight(s: State, r: State, e: Event) {
    && s.devices.Keys <= r.devices.Keys
    && (forall d :: d in r.devices && d !in s.devices ==>
          e.RegisterCommits? && e.device == d && e.id in s.provisions
          && r.devices[d] == Device(KeyOf(s.provisions[e.id].spec), s.provisions[e.id].made, true))
    && (forall d :: d in s.devices ==>
          r.devices[d] == if Deletes(s, e, d) then s.devices[d].(live := false) else s.devices[d])
  }

  lemma RecordsUntouched(s: State, r: State, e: Event)
    requires r.devices == s.devices && (forall d :: d in s.devices ==> !Deletes(s, e, d))
    ensures RecordsRight(s, r, e)
  {
  }

  /** Every step but a commit, a delete and a destroy leaves the records alone. */
  lemma OthersKeepRecords(s: State, e: Event)
    requires !e.RegisterCommits? && !e.DeviceDeleted? && !e.DestroyReturned?
    ensures Step(s, e).devices == s.devices
  {
  }

  lemma StepRecords(s: State, e: Event)
    ensures RecordsRight(s, Step(s, e), e)
  {
    if !Enabled(s, e) {
    } else if e.RegisterCommits? {
    } else if e.DeviceDeleted? {
    } else if e.DestroyReturned? {
    } else {
      OthersKeepRecords(s, e);
      RecordsUntouched(s, Step(s, e), e);
    }
  }

  // ---------------------------------------------------------------- where a removal goes

  /** A live device of the version, or an open claim on it. */
  ghost predicate VersionUsed(s: State, p: Platform, version: string) {
    || (exists d :: d in s.devices && s.devices[d].live && s.devices[d].key == Key(p, version))
    || (Key(p, version) in s.components.provisioning && s.components.provisioning[Key(p, version)] > 0)
  }

  /** The event can happen and takes the removal of a platform to this point. */
  ghost predicate RemovalMovesTo(s: State, e: Event, p: Platform, point: RemovalPoint)
    requires p in s.components.removals
  {
    var used := VersionUsed(s, p, s.components.removals[p].version);
    && Enabled(s, e)
    && match point
       case AwaitingMark => false
       case DriverRemoving => e == MarkGate(p) && !used
       case AwaitingDelete => e == DriverRemoved(p, true)
       case Ending => (e == MarkGate(p) && used) || e == DriverRemoved(p, false) || e == DeleteGate(p)
  }

  /** A removal comes to a point in the step exactly when the event is a cause of that; it is gone exactly
      when it ended. */
  ghost predicate RemovalRight(s: State, r: State, e: Event, p: Platform)
    requires p in s.components.removals
  {
    && (p !in r.components.removals <==> e == RemoveEnds(p) && Enabled(s, e))
    && (p in r.components.removals ==> forall point ::
          r.components.removals[p].point == point && s.components.removals[p].point != point
          <==> RemovalMovesTo(s, e, p, point))
  }

  lemma OthersKeepRemovals(s: State, e: Event)
    requires !OfRemoval(e)
    ensures Step(s, e).components.removals == s.components.removals
  {
  }

  lemma MarkMoves(s: State, p: Platform)
    requires Enabled(s, MarkGate(p))
    ensures RemovalRight(s, MarkSection(s, p), MarkGate(p), p)
  {
    var version := s.components.removals[p].version;
    var live := LiveDevices(s.devices, Key(p, version));
    if VersionUsed(s, p, version) && Count(s.components.provisioning, Key(p, version)) == 0 {
      var d :| d in s.devices && s.devices[d].live && s.devices[d].key == Key(p, version);
      assert d in live;
    }
    if |live| > 0 {
      var d :| d in live;
      assert VersionUsed(s, p, version);
    }
    assert SimlockDevices(s, Key(p, version)) > 0 <==> VersionUsed(s, p, version);
  }

  /** Only a step of the removal itself moves it. */
  lemma OwnRemovalMoves(s: State, e: Event, p: Platform, point: RemovalPoint)
    requires p in s.components.removals && RemovalMovesTo(s, e, p, point)
    ensures OfRemoval(e) && e.platform == p && Enabled(s, e)
  {
  }

  lemma RemovalKept(s: State, r: State, e: Event, p: Platform)
    requires p in s.components.removals && p in r.components.removals
    requires r.components.removals[p] == s.components.removals[p]
    requires !OfRemoval(e) || e.platform != p || !Enabled(s, e)
    ensures RemovalRight(s, r, e, p)
  {
    forall point
      ensures !RemovalMovesTo(s, e, p, point)
    {
      if RemovalMovesTo(s, e, p, point) {
        OwnRemovalMoves(s, e, p, point);
      }
    }
  }

  lemma OtherPlatforms(s: State, e: Event, p: Platform)
    requires p in s.components.removals && OfRemoval(e) && e.platform != p
    ensures p in Step(s, e).components.removals && Step(s, e).components.removals[p] == s.components.removals[p]
  {
  }

  /** The removal goes on with this point. */
  lemma RemovalMoved(s: State, r: State, e: Event, p: Platform, next: RemovalPoint)
    requires p in s.components.removals && p in r.components.removals && Enabled(s, e)
    requires e == DriverRemoved(p, true) || e == DriverRemoved(p, false) || e == DeleteGate(p)
    requires next == if e == DriverRemoved(p, true) then AwaitingDelete else Ending
    requires r.components.removals[p].point == next
    ensures RemovalRight(s, r, e, p)
  {
  }

  lemma StepRemoval(s: State, e: Event, p: Platform)
    requires p in s.components.removals
    ensures RemovalRight(s, Step(s, e), e, p)
  {
    if !Enabled(s, e) {
      RemovalKept(s, s, e, p);
    } else if !OfRemoval(e) {
      OthersKeepRemovals(s, e);
      RemovalKept(s, Step(s, e), e, p);
    } else if e.platform != p {
      OtherPlatforms(s, e, p);
      RemovalKept(s, Step(s, e), e, p);
    } else {
      match e
      case MarkGate(_) => MarkMoves(s, p);
      case DriverRemoved(_, ok) => RemovalMoved(s, Step(s, e), e, p, if ok then AwaitingDelete else Ending);
      case DeleteGate(_) => RemovalMoved(s, Step(s, e), e, p, Ending);
      case RemoveEnds(_) =>
    }
  }

  // ---------------------------------------------------------------- theorems

  /**
   * In every run and for every next event: a provision comes to each point exactly by the answers that lead
   * there. A device that became ready ends the call, and one that did not is destroyed.
   */
  lemma {:induction false} ProvisionMovesExactly(start: State, events: seq<Event>, e: Event, id: nat)
    requires id in Run(start, events).provisions
    ensures MovesRight(Run(start, events), Step(Run(start, events), e), e, id)
  {
    StepMoves(Run(start, events), e, id);
  }

  /**
   * In every run a provision that ends because its device became ready leaves every record as it was, and
   * a record that stops being live was deleted from outside, or by a provision that is destroying it.
   */
  lemma {:induction false} RecordsChangeExactly(start: State, events: seq<Event>, e: Event)
    ensures var s := Run(start, events);
            && RecordsRight(s, Step(s, e), e)
            && (e.ReadyReturned? ==> Step(s, e).devices == s.devices)
  {
    StepRecords(Run(start, events), e);
  }

  /** In every run the removal of a platform goes on exactly by the answers that lead there. */
  lemma {:induction false} RemovalMovesExactly(start: State, events: seq<Event>, e: Event, p: Platform)
    requires p in Run(start, events).components.removals
    ensures RemovalRight(Run(start, events), Step(Run(start, events), e), e, p)
  {
    StepRemoval(Run(start, events), e, p);
  }

  /** The event came as number `k` of the run, when it could happen. */
  ghost predicate TookAt(start: State, events: seq<Event>, k: nat, e: Event) {
    k < |events| && events[k] == e && Enabled(Run(start, events[..k]), e)
  }

  ghost predicate Took(start: State, events: seq<Event>, e: Event) {
    exists k: nat :: TookAt(start, events, k, e)
  }

  /** What must have been answered for a provision to be at a point. */
  ghost predicate Behind(start: State, events: seq<Event>, id: nat, point: Point) {
    match point
    case Driving => Took(start, events, ClaimGate(id))
    case Provisioned => Took(start, events, DriverProvisioned(id, true))
    case Registering => Took(start, events, DriverProvisioned(id, true))
    case Committed(d) => Took(start, events, RegisterCommits(id, d))
    case MakingReady(d) => Took(start, events, RegisterCommits(id, d))
    case Destroying(d) => Took(start, events, RegisterCommits(id, d)) && Took(start, events, ReadyReturned(id, false))
    case _ => true
  }

  lemma TookStays(start: State, events: seq<Event>, e: Event)
    requires events != [] && Took(start, events[..|events| - 1], e)
    ensures Took(start, events, e)
  {
    var before := events[..|events| - 1];
    var k: nat :| TookAt(start, before, k, e);
    assert before[..k] == events[..k];
    assert TookAt(start, events, k, e);
  }

  lemma TookLast(start: State, events: seq<Event>)
    requires events != [] && Enabled(Run(start, events[..|events| - 1]), events[|events| - 1])
    ensures Took(start, events, events[|events| - 1])
  {
    assert TookAt(start, events, |events| - 1, events[|events| - 1]);
  }

  lemma BehindStays(start: State, events: seq<Event>, id: nat, point: Point)
    requires events != [] && Behind(start, events[..|events| - 1], id, point)
    ensures Behind(start, events, id, point)
  {
    forall e | Took(start, events[..|events| - 1], e)
      ensures Took(start, events, e)
    {
      TookStays(start, events, e);
    }
  }

  lemma BehindMoved(start: State, events: seq<Event>, id: nat, point: Point)
    requires events != []
    requires var s := Run(start, events[..|events| - 1]);
             && id in s.provisions && MovesTo(s, events[|events| - 1], id, point)
             && Behind(start, events[..|events| - 1], id, s.provisions[id].point)
    ensures Behind(start, events, id, point)
  {
    BehindStays(start, events, id, Run(start, events[..|events| - 1]).provisions[id].point);
    TookLast(start, events);
  }

  lemma NewProvision(s: State, e: Event, id: nat)
    requires id !in s.provisions && id in Step(s, e).provisions
    ensures Step(s, e).provisions[id].point in {Claiming, NoDriver}
  {
    if Of(e).None? {
      OthersUntouched(s, e);
    } else if Enabled(s, e) {
      OwnStep(s, e, Of(e).value);
    }
  }

  /**
   * In every run, where a provision is tells what was answered before: a device is registered only after the
   * driver provisioned it, and is being destroyed only after it was registered and did not become ready.
   */
  lemma {:induction false} StagesBehind(start: State, events: seq<Event>, id: nat)
    requires Initial(start) && id in Run(start, events).provisions
    ensures Behind(start, events, id, Run(start, events).provisions[id].point)
  {
    if events != [] {
      var before, e := events[..|events| - 1], events[|events| - 1];
      var s, point := Run(start, before), Run(start, events).provisions[id].point;
      if id in s.provisions {
        StagesBehind(start, before, id);
        StepMoves(s, e, id);
        if point == s.provisions[id].point {
          BehindStays(start, events, id, point);
        } else {
          BehindMoved(start, events, id, point);
        }
      } else {
        NewProvision(s, e, id);
      }
    }
  }
}
