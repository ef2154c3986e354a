/** What every run of provisions, removals and baseline tasks keeps. */
module WorkerRuns {
  import opened Common
  import opened Worker

  // ---------------------------------------------------------------- the invariant

  ghost predicate ClaimOpen(v: Provision) {
    v.ledger.claimEnds < v.ledger.claims
  }

  ghost predicate HoldOpen(v: Provision) {
    v.ledger.holdEnds < v.ledger.holds
  }

  ghost function OpenClaims(provisions: map<nat, Provision>, key: Key): set<nat> {
    set id | id in provisions && ClaimOpen(provisions[id]) && KeyOf(provisions[id].spec) == key
  }

  ghost function OpenHolds(provisions: map<nat, Provision>, key: HoldKey): set<nat> {
    set id | id in provisions && HoldOpen(provisions[id]) && provisions[id].made == Some(key)
  }

  /** The counter of a key is the number of claims, or holds, open on it; no entry is zero. */
  ghost predicate ClaimsCounted(s: State, key: Key) {
    && Count(s.components.provisioning, key) == |OpenClaims(s.provisions, key)|
    && (key in s.components.provisioning ==> s.components.provisioning[key] > 0)
  }

  ghost predicate HoldsCounted(s: State, key: HoldKey) {
    && Count(s.baselines.holds, key) == |OpenHolds(s.provisions, key)|
    && (key in s.baselines.holds ==> s.baselines.holds[key] > 0)
  }

  ghost predicate CountsOk(s: State) {
    && (forall key: Key :: ClaimsCounted(s, key))
    && (forall key: HoldKey :: HoldsCounted(s, key))
  }

  /** What a provision has taken and ended at each point. */
  ghost predicate LedgerOk(v: Provision) {
    var l := v.ledger;
    && l.holds == (if v.made.Some? then 1 else 0)
    && match v.point
       case Claiming => l == Ledger(0, 0, 0, 0, 0)
       case Refused => l.claims == l.claimEnds <= 1 && l.holds == 0 == l.holdEnds == l.reservationEnds
       case Driving => l.claims == 1 && l.claimEnds == 0 == l.holdEnds == l.reservationEnds
       case Provisioned => l.claims == 1 && l.claimEnds == 0 == l.holdEnds == l.reservationEnds
       case Registering => l.claims == 1 && l.claimEnds == 0 == l.holdEnds == l.reservationEnds
       case Committed(_) => l.claims == 1 && l.claimEnds == 0 == l.holdEnds == l.reservationEnds
       case Unregistered => l.claims == 1 == l.claimEnds && l.holds == l.holdEnds && l.reservationEnds == 0
       case MakingReady(_) => l.claims == 1 == l.claimEnds && l.holds == l.holdEnds && l.reservationEnds == 0
       case Destroying(_) => l.claims == 1 == l.claimEnds && l.holds == l.holdEnds && l.reservationEnds == 0
       case NoDriver => l == Ledger(0, 0, 0, 0, 0)
       case Done => l.claims == l.claimEnds <= 1 && l.holds == l.holdEnds && l.reservationEnds == 1
  }

  /** The registered device of a provision that has one. */
  function DeviceOf(point: Point): Option<nat> {
    match point
    case Committed(d) => Some(d)
    case MakingReady(d) => Some(d)
    case Destroying(d) => Some(d)
    case _ => None
  }

  ghost predicate Recorded(s: State, v: Provision) {
    match DeviceOf(v.point)
    case None => true
    case Some(d) => d in s.devices && s.devices[d].key == KeyOf(v.spec) && s.devices[d].baseline == v.made
  }

  ghost predicate ProvisionsOk(s: State) {
    forall id :: id in s.provisions ==> LedgerOk(s.provisions[id]) && Recorded(s, s.provisions[id])
  }

  ghost predicate RemovalOk(s: State, p: Platform)
    requires p in s.components.removals
  {
    var removal := s.components.removals[p];
    && (removal.point in {DriverRemoving, AwaitingDelete} ==> removal.marked)
    && (removal.point == AwaitingMark ==> !removal.marked)
    && (removal.marked ==> LiveDevices(s.devices, Key(p, removal.version)) == {})
    && (removal.marked ==> OpenClaims(s.provisions, Key(p, removal.version)) == {})
  }

  ghost predicate MarksOk(s: State) {
    forall p :: p in s.components.removals ==> RemovalOk(s, p)
  }

  ghost predicate Inv(s: State) {
    CountsOk(s) && ProvisionsOk(s) && MarksOk(s)
  }

  // ---------------------------------------------------------------- counting

  /** One provision changed: the sets differ in it alone. */
  lemma ClaimsChanged(provisions: map<nat, Provision>, id: nat, v: Provision, key: Key)
    ensures OpenClaims(provisions[id := v], key)
            == if ClaimOpen(v) && KeyOf(v.spec) == key
               then OpenClaims(provisions, key) + {id} else OpenClaims(provisions, key) - {id}
  {
  }

  lemma HoldsChanged(provisions: map<nat, Provision>, id: nat, v: Provision, key: HoldKey)
    ensures OpenHolds(provisions[id := v], key)
            == if HoldOpen(v) && v.made == Some(key)
               then OpenHolds(provisions, key) + {id} else OpenHolds(provisions, key) - {id}
  {
  }

  /** How a counter and its set move together: one more, one fewer, or neither. */
  ghost predicate Together<K>(m: map<K, nat>, m': map<K, nat>, k: K, open: set<nat>, open': set<nat>, id: nat) {
    || (Count(m', k) == Count(m, k) && open' == open)
    || (Count(m', k) == Count(m, k) + 1 && id !in open && open' == open + {id})
    || (Count(m', k) + 1 == Count(m, k) && id in open && open' == open - {id})
  }

  lemma TogetherCounts<K>(m: map<K, nat>, m': map<K, nat>, k: K, open: set<nat>, open': set<nat>, id: nat)
    requires Count(m, k) == |open| && Together(m, m', k, open, open', id)
    ensures Count(m', k) == |open'|
  {
  }

  lemma CountsMove(s: State, r: State, id: nat)
    requires CountsOk(s)
    requires forall key: Key ::
               && Together(s.components.provisioning, r.components.provisioning, key,
                           OpenClaims(s.provisions, key), OpenClaims(r.provisions, key), id)
               && (key in r.components.provisioning ==> r.components.provisioning[key] > 0)
    requires forall key: HoldKey ::
               && Together(s.baselines.holds, r.baselines.holds, key,
                           OpenHolds(s.provisions, key), OpenHolds(r.provisions, key), id)
               && (key in r.baselines.holds ==> r.baselines.holds[key] > 0)
    ensures CountsOk(r)
  {
    forall key: Key
      ensures ClaimsCounted(r, key)
    {
      assert ClaimsCounted(s, key);
      TogetherCounts(s.components.provisioning, r.components.provisioning, key,
                     OpenClaims(s.provisions, key), OpenClaims(r.provisions, key), id);
    }
    forall key: HoldKey
      ensures HoldsCounted(r, key)
    {
      assert HoldsCounted(s, key);
      TogetherCounts(s.baselines.holds, r.baselines.holds, key,
                     OpenHolds(s.provisions, key), OpenHolds(r.provisions, key), id);
    }
  }

  /** A step that opens and closes nothing keeps both counts. */
  lemma NothingOpened(s: State, r: State, id: nat)
    requires CountsOk(s) && id in s.provisions
    requires r.components.provisioning == s.components.provisioning && r.baselines.holds == s.baselines.holds
    requires id in r.provisions && r.provisions == s.provisions[id := r.provisions[id]]
    requires ClaimOpen(r.provisions[id]) == ClaimOpen(s.provisions[id])
    requires HoldOpen(r.provisions[id]) == HoldOpen(s.provisions[id])
    requires r.provisions[id].spec == s.provisions[id].spec
    requires HoldOpen(s.provisions[id]) ==> r.provisions[id].made == s.provisions[id].made
    ensures CountsOk(r)
    ensures forall key :: OpenClaims(r.provisions, key) == OpenClaims(s.provisions, key)
  {
    forall key: Key
      ensures OpenClaims(r.provisions, key) == OpenClaims(s.provisions, key)
      ensures ClaimsCounted(r, key)
    {
      ClaimsChanged(s.provisions, id, r.provisions[id], key);
      assert ClaimsCounted(s, key);
    }
    forall key: HoldKey
      ensures HoldsCounted(r, key)
    {
      HoldsChanged(s.provisions, id, r.provisions[id], key);
      assert HoldsCounted(s, key);
    }
  }

  /** Opening a claim and perhaps a hold, with the counters. */
  lemma {:induction false} ClaimOpens(s: State, id: nat, key: Key)
    requires ClaimsCounted(s, key) && At(s, id, Claiming) && LedgerOk(s.provisions[id])
    ensures var r := ClaimSection(s, id);
            && Together(s.components.provisioning, r.components.provisioning, key,
                        OpenClaims(s.provisions, key), OpenClaims(r.provisions, key), id)
            && (key in r.components.provisioning ==> r.components.provisioning[key] > 0)
  {
    var r := ClaimSection(s, id);
    var v := r.provisions[id];
    ClaimSectionCounts(s, id, key);
    ClaimsChanged(s.provisions, id, v, key);
    assert id !in OpenClaims(s.provisions, key);
    assert OpenClaims(s.provisions, key) - {id} == OpenClaims(s.provisions, key);
  }

  /** What the gate section does to one key's counter. */
  lemma ClaimSectionCounts(s: State, id: nat, key: Key)
    requires ClaimsCounted(s, key) && At(s, id, Claiming) && LedgerOk(s.provisions[id])
    ensures var r := ClaimSection(s, id);
            && id in r.provisions && r.provisions == s.provisions[id := r.provisions[id]]
            && Count(r.components.provisioning, key)
               == Count(s.components.provisioning, key)
                  + (if ClaimOpen(r.provisions[id]) && KeyOf(r.provisions[id].spec) == key then 1 else 0)
            && (key in r.components.provisioning ==> r.components.provisioning[key] > 0)
  {
  }

  lemma HoldOpens(s: State, id: nat, key: HoldKey)
    requires HoldsCounted(s, key) && At(s, id, Claiming) && LedgerOk(s.provisions[id])
    ensures var r := ClaimSection(s, id);
            && Together(s.baselines.holds, r.baselines.holds, key,
                        OpenHolds(s.provisions, key), OpenHolds(r.provisions, key), id)
            && (key in r.baselines.holds ==> r.baselines.holds[key] > 0)
  {
    var r := ClaimSection(s, id);
    var v := r.provisions[id];
    HoldSectionCounts(s, id, key);
    HoldsChanged(s.provisions, id, v, key);
    assert id !in OpenHolds(s.provisions, key);
    assert OpenHolds(s.provisions, key) - {id} == OpenHolds(s.provisions, key);
  }

  lemma HoldSectionCounts(s: State, id: nat, key: HoldKey)
    requires HoldsCounted(s, key) && At(s, id, Claiming) && LedgerOk(s.provisions[id])
    ensures var r := ClaimSection(s, id);
            && id in r.provisions && r.provisions == s.provisions[id := r.provisions[id]]
            && Count(r.baselines.holds, key)
               == Count(s.baselines.holds, key)
                  + (if HoldOpen(r.provisions[id]) && r.provisions[id].made == Some(key) then 1 else 0)
            && (key in r.baselines.holds ==> r.baselines.holds[key] > 0)
  {
  }

  lemma ClaimCounted(s: State, id: nat)
    requires CountsOk(s) && At(s, id, Claiming) && LedgerOk(s.provisions[id])
    ensures CountsOk(ClaimSection(s, id))
  {
    var r := ClaimSection(s, id);
    forall key: Key
      ensures Together(s.components.provisioning, r.components.provisioning, key,
                       OpenClaims(s.provisions, key), OpenClaims(r.provisions, key), id)
      ensures key in r.components.provisioning ==> r.components.provisioning[key] > 0
    {
      assert ClaimsCounted(s, key);
      ClaimOpens(s, id, key);
    }
    forall key: HoldKey
      ensures Together(s.baselines.holds, r.baselines.holds, key,
                       OpenHolds(s.provisions, key), OpenHolds(r.provisions, key), id)
      ensures key in r.baselines.holds ==> r.baselines.holds[key] > 0
    {
      assert HoldsCounted(s, key);
      HoldOpens(s, id, key);
    }
    CountsMove(s, r, id);
  }

  /** Ending the claim and the hold, with the counters. */
  lemma EndCounted(s: State, id: nat, point: Point)
    requires CountsOk(s) && id in s.provisions && LedgerOk(s.provisions[id])
    requires s.provisions[id].ledger.claims == 1
    requires s.provisions[id].ledger.claimEnds == 0 == s.provisions[id].ledger.holdEnds
    ensures CountsOk(EndClaimAndHold(s, id, point))
    ensures forall key :: OpenClaims(EndClaimAndHold(s, id, point).provisions, key) <= OpenClaims(s.provisions, key)
  {
    var r := EndClaimAndHold(s, id, point);
    forall key: Key
      ensures OpenClaims(r.provisions, key) <= OpenClaims(s.provisions, key)
      ensures Together(s.components.provisioning, r.components.provisioning, key,
                       OpenClaims(s.provisions, key), OpenClaims(r.provisions, key), id)
      ensures key in r.components.provisioning ==> r.components.provisioning[key] > 0
    {
      ClaimsChanged(s.provisions, id, r.provisions[id], key);
      ClaimEnded(s, id, key);
    }
    forall key: HoldKey
      ensures Together(s.baselines.holds, r.baselines.holds, key,
                       OpenHolds(s.provisions, key), OpenHolds(r.provisions, key), id)
      ensures key in r.baselines.holds ==> r.baselines.holds[key] > 0
    {
      HoldsChanged(s.provisions, id, r.provisions[id], key);
      HoldEnded(s, id, key);
    }
    CountsMove(s, r, id);
  }

  lemma ClaimEnded(s: State, id: nat, key: Key)
    requires CountsOk(s) && id in s.provisions && ClaimOpen(s.provisions[id])
    ensures var m := ReleaseClaim(s.components, KeyOf(s.provisions[id].spec)).provisioning;
            && (key in m ==> m[key] > 0)
            && Count(m, key)
               == Count(s.components.provisioning, key) - (if key == KeyOf(s.provisions[id].spec) then 1 else 0)
  {
    var own := KeyOf(s.provisions[id].spec);
    assert ClaimsCounted(s, key) && ClaimsCounted(s, own);
    assert id in OpenClaims(s.provisions, own);
  }

  lemma HoldEnded(s: State, id: nat, key: HoldKey)
    requires CountsOk(s) && id in s.provisions
    requires s.provisions[id].made.Some? ==> HoldOpen(s.provisions[id])
    ensures s.provisions[id].made.Some? ==>
              var m := ReleaseHold(s.baselines, s.provisions[id].made.value).holds;
              && (key in m ==> m[key] > 0)
              && Count(m, key) == Count(s.baselines.holds, key) - (if s.provisions[id].made == Some(key) then 1 else 0)
    ensures key in s.baselines.holds ==> s.baselines.holds[key] > 0
  {
    assert HoldsCounted(s, key);
    if s.provisions[id].made.Some? {
      var own := s.provisions[id].made.value;
      assert HoldsCounted(s, own);
      assert id in OpenHolds(s.provisions, own);
    }
  }

  // ---------------------------------------------------------------- steps

  /** Marks survive when no claim or live device appears under a marked key. */
  lemma MarksKept(s: State, r: State)
    requires MarksOk(s) && r.components.removals == s.components.removals
    requires forall key ::
               OpenClaims(r.provisions, key) <= OpenClaims(s.provisions, key) || !BeingRemoved(s.components, key)
    requires forall key ::
               LiveDevices(r.devices, key) <= LiveDevices(s.devices, key) || !BeingRemoved(s.components, key)
    ensures MarksOk(r)
  {
    forall p | p in r.components.removals
      ensures RemovalOk(r, p)
    {
      assert RemovalOk(s, p);
      var key := Key(p, s.components.removals[p].version);
      if s.components.removals[p].marked {
        assert BeingRemoved(s.components, key);
        assert OpenClaims(r.provisions, key) <= OpenClaims(s.provisions, key);
        assert LiveDevices(r.devices, key) <= LiveDevices(s.devices, key);
      }
    }
  }

  /** Steps that move one provision and neither open nor close anything. */
  lemma QuietStep(s: State, r: State, id: nat)
    requires Inv(s) && id in s.provisions
    requires r.components == s.components && r.baselines.holds == s.baselines.holds && r.devices == s.devices
    requires id in r.provisions && r.provisions == s.provisions[id := r.provisions[id]]
    requires r.provisions[id].spec == s.provisions[id].spec && r.provisions[id].made == s.provisions[id].made
    requires ClaimOpen(r.provisions[id]) == ClaimOpen(s.provisions[id])
    requires HoldOpen(r.provisions[id]) == HoldOpen(s.provisions[id])
    requires LedgerOk(r.provisions[id])
    requires DeviceOf(r.provisions[id].point) in {None, DeviceOf(s.provisions[id].point)}
    ensures Inv(r)
  {
    NothingOpened(s, r, id);
    MarksKept(s, r);
  }

  /** `EndClaimAndHold` followed by a change of gate, in every place the source ends a claim. */
  lemma EndStep(s: State, id: nat, point: Point, gate: Option<nat>)
    requires Inv(s) && id in s.provisions
    requires s.provisions[id].ledger.claims == 1
    requires s.provisions[id].ledger.claimEnds == 0 == s.provisions[id].ledger.holdEnds
    requires s.provisions[id].ledger.reservationEnds == 0
    requires point == Unregistered || (point.MakingReady? && DeviceOf(point) == DeviceOf(s.provisions[id].point))
    ensures Inv(EndClaimAndHold(s, id, point).(gate := gate))
  {
    var r := EndClaimAndHold(s, id, point);
    var g := r.(gate := gate);
    EndCounted(s, id, point);
    assert CountsOk(g) by {
      assert forall key: Key :: ClaimsCounted(r, key) ==> ClaimsCounted(g, key);
      assert forall key: HoldKey :: HoldsCounted(r, key) ==> HoldsCounted(g, key);
    }
    MarksKept(s, g);
  }

  lemma DriverFailedStep(s: State, id: nat)
    requires Inv(s) && At(s, id, Driving)
    ensures Inv(EndReservation(EndClaimAndHold(s, id, Done), id))
  {
    var r := EndClaimAndHold(s, id, Done);
    var done := EndReservation(r, id);
    EndCounted(s, id, Done);
    NothingOpened(r, done, id);
    MarksKept(s, done);
  }

  /** The gate section keeps the ledger, and opens a claim only on a key that is not being removed. */
  lemma ClaimSectionKeeps(s: State, id: nat)
    requires At(s, id, Claiming) && LedgerOk(s.provisions[id])
    ensures var r := ClaimSection(s, id);
            && id in r.provisions && r.provisions == s.provisions[id := r.provisions[id]]
            && LedgerOk(r.provisions[id]) && DeviceOf(r.provisions[id].point).None?
            && r.devices == s.devices && r.components.removals == s.components.removals
            && (ClaimOpen(r.provisions[id]) ==> !BeingRemoved(s.components, KeyOf(r.provisions[id].spec)))
  {
  }

  lemma ClaimStep(s: State, id: nat)
    requires Inv(s) && At(s, id, Claiming)
    ensures Inv(ClaimSection(s, id))
  {
    var r := ClaimSection(s, id);
    ClaimCounted(s, id);
    ClaimSectionKeeps(s, id);
    forall key
      ensures OpenClaims(r.provisions, key) <= OpenClaims(s.provisions, key) || !BeingRemoved(s.components, key)
    {
      ClaimsChanged(s.provisions, id, r.provisions[id], key);
    }
    MarksKept(s, r);
  }

  lemma CommitStep(s: State, id: nat, device: nat)
    requires Inv(s) && At(s, id, Registering) && device !in s.devices
    ensures Inv(Step(s, RegisterCommits(id, device)))
  {
    var r := Step(s, RegisterCommits(id, device));
    var own := KeyOf(s.provisions[id].spec);
    NothingOpened(s, r, id);
    assert id in OpenClaims(s.provisions, own);
    forall key
      ensures LiveDevices(r.devices, key) <= LiveDevices(s.devices, key) || !BeingRemoved(s.components, key)
    {
      if key == own {
        assert BeingRemoved(s.components, key) ==> RemovalOk(s, key.platform);
      }
    }
    MarksKept(s, r);
  }

  lemma DeleteStep(s: State, device: nat)
    requires Inv(s)
    ensures Inv(Delete(s, device))
  {
    var r := Delete(s, device);
    assert CountsOk(r) by {
      assert forall key: Key :: ClaimsCounted(s, key) ==> ClaimsCounted(r, key);
      assert forall key: HoldKey :: HoldsCounted(s, key) ==> HoldsCounted(r, key);
    }
    MarksKept(s, r);
  }

  /** A removal's own step: it touches its entry alone, and marks only a key nothing uses. */
  lemma RemovalStep(s: State, r: State)
    requires Inv(s)
    requires r.provisions == s.provisions && r.devices == s.devices && r.baselines == s.baselines
    requires r.components.provisioning == s.components.provisioning
    requires forall p :: p in r.components.removals ==> RemovalOk(r, p)
    ensures Inv(r)
  {
    assert forall key: Key :: ClaimsCounted(s, key) ==> ClaimsCounted(r, key);
    assert forall key: HoldKey :: HoldsCounted(s, key) ==> HoldsCounted(r, key);
  }

  lemma MarkStep(s: State, p: Platform)
    requires Inv(s) && p in s.components.removals && !s.components.removals[p].marked
    ensures Inv(MarkSection(s, p))
  {
    var r := MarkSection(s, p);
    var key := Key(p, s.components.removals[p].version);
    assert ClaimsCounted(s, key);
    forall o | o in r.components.removals
      ensures RemovalOk(r, o)
    {
      assert o != p ==> RemovalOk(s, o);
    }
    RemovalStep(s, r);
  }

  /** A baseline task changes rows and its own place, nothing this invariant speaks of. */
  lemma SerialStep(s: State, r: State)
    requires Inv(s)
    requires r.provisions == s.provisions && r.devices == s.devices && r.components == s.components
    requires r.baselines.holds == s.baselines.holds
    ensures Inv(r)
  {
    assert forall key: Key :: ClaimsCounted(s, key) ==> ClaimsCounted(r, key);
    assert forall key: HoldKey :: HoldsCounted(s, key) ==> HoldsCounted(r, key);
    MarksKept(s, r);
  }

  predicate OfRemoval(e: Event) {
    e.RemoveTakesTurn? || e.MarkGate? || e.DriverRemoved? || e.DeleteGate? || e.RemoveEnds?
  }

  predicate OfBaselines(e: Event) {
    e.SaveStarts? || e.SaveInserts? || e.SaveFails? || e.DropStarts? || e.SourceDestroyed?
    || e.RemoveStarts? || e.RemoveSourceDestroyed?
  }

  lemma StepOk(s: State, e: Event)
    requires Inv(s)
    ensures Inv(Step(s, e))
  {
    if Enabled(s, e) {
      if OfRemoval(e) {
        RemovalEventStep(s, e);
      } else if OfBaselines(e) {
        BaselineEventStep(s, e);
      } else if e.DeviceDeleted? {
        DeleteStep(s, e.device);
      } else if e.Request? {
        RequestStep(s, e.id, e.spec);
      } else if e.ClaimGate? {
        ClaimStep(s, e.id);
      } else if e.RegisterCommits? {
        CommitStep(s, e.id, e.device);
      } else {
        ProvisionStep(s, e, e.id);
      }
    }
  }

  lemma RemovalEventStep(s: State, e: Event)
    requires Inv(s) && Enabled(s, e) && OfRemoval(e)
    ensures Inv(Step(s, e))
  {
    var p := e.platform;
    assert p in s.components.removals ==> RemovalOk(s, p);
    if e.MarkGate? {
      MarkStep(s, p);
    } else {
      TurnStep(s, Step(s, e), p);
    }
  }

  lemma BaselineEventStep(s: State, e: Event)
    requires Inv(s) && Enabled(s, e) && OfBaselines(e)
    ensures Inv(Step(s, e))
  {
    SerialStep(s, Step(s, e));
  }

  /** The steps of a provision that open and end nothing but, at the most, its reservation. */
  predicate QuietEvent(e: Event, id: nat) {
    || e == ClaimCaught(id) || e == RegisterEnters(id) || e == RegisterCaught(id) || e == DriverProvisioned(id, true)
    || e == ReadyReturned(id, true) || e == ReadyReturned(id, false) || e == DestroyReturned(id, false)
  }

  lemma QuietClaim(s: State, e: Event, id: nat)
    requires Inv(s) && Enabled(s, e) && (e == ClaimCaught(id) || e == DriverProvisioned(id, true))
    ensures Inv(Step(s, e))
  {
    assert LedgerOk(s.provisions[id]) && Recorded(s, s.provisions[id]);
    QuietStep(s, Step(s, e), id);
  }

  lemma QuietRegister(s: State, e: Event, id: nat)
    requires Inv(s) && Enabled(s, e) && (e == RegisterEnters(id) || e == RegisterCaught(id))
    ensures Inv(Step(s, e))
  {
    assert LedgerOk(s.provisions[id]) && Recorded(s, s.provisions[id]);
    QuietStep(s, Step(s, e), id);
  }

  lemma QuietReady(s: State, e: Event, id: nat)
    requires Inv(s) && Enabled(s, e) && QuietEvent(e, id) && (e.ReadyReturned? || e.DestroyReturned?)
    ensures Inv(Step(s, e))
  {
    assert LedgerOk(s.provisions[id]) && Recorded(s, s.provisions[id]);
    QuietStep(s, Step(s, e), id);
  }

  lemma QuietProvisionStep(s: State, e: Event, id: nat)
    requires Inv(s) && Enabled(s, e) && QuietEvent(e, id)
    ensures Inv(Step(s, e))
  {
    if e.ReadyReturned? || e.DestroyReturned? {
      QuietReady(s, e, id);
    } else if e.RegisterEnters? || e.RegisterCaught? {
      QuietRegister(s, e, id);
    } else {
      QuietClaim(s, e, id);
    }
  }

  lemma DestroyedStep(s: State, id: nat)
    requires Inv(s) && Enabled(s, DestroyReturned(id, true))
    ensures Inv(Step(s, DestroyReturned(id, true)))
  {
    assert LedgerOk(s.provisions[id]) && Recorded(s, s.provisions[id]);
    var device := s.provisions[id].point.device;
    DeleteStep(s, device);
    QuietStep(Delete(s, device), Step(s, DestroyReturned(id, true)), id);
  }

  lemma ProvisionStep(s: State, e: Event, id: nat)
    requires Inv(s) && Enabled(s, e)
    requires || QuietEvent(e, id) || e == RegisterFails(id) || e == RegisterLeaves(id)
             || e == DriverProvisioned(id, false) || e == DestroyReturned(id, true)
    ensures Inv(Step(s, e))
  {
    assert LedgerOk(s.provisions[id]) && Recorded(s, s.provisions[id]);
    if QuietEvent(e, id) {
      QuietProvisionStep(s, e, id);
    } else if e == RegisterFails(id) {
      EndStep(s, id, Unregistered, None);
    } else if e == RegisterLeaves(id) {
      EndStep(s, id, MakingReady(s.provisions[id].point.device), None);
    } else if e == DriverProvisioned(id, false) {
      DriverFailedStep(s, id);
    } else {
      DestroyedStep(s, id);
    }
  }

  lemma RequestStep(s: State, id: nat, spec: Spec)
    requires Inv(s) && id !in s.provisions
    ensures Inv(s.(provisions := s.provisions[id := Requested(spec, s.drivers)]))
  {
    var r := s.(provisions := s.provisions[id := Requested(spec, s.drivers)]);
    forall key: Key
      ensures OpenClaims(r.provisions, key) == OpenClaims(s.provisions, key)
      ensures ClaimsCounted(r, key)
    {
      ClaimsChanged(s.provisions, id, Requested(spec, s.drivers), key);
      assert ClaimsCounted(s, key);
    }
    forall key: HoldKey
      ensures HoldsCounted(r, key)
    {
      HoldsChanged(s.provisions, id, Requested(spec, s.drivers), key);
      assert HoldsCounted(s, key);
    }
    MarksKept(s, r);
  }

  /** A removal that starts, moves on with its mark unchanged, or ends. */
  lemma TurnStep(s: State, r: State, p: Platform)
    requires Inv(s)
    requires r == s.(components := s.components.(removals := r.components.removals))
    requires r.components.removals - {p} == s.components.removals - {p}
    requires p in r.components.removals ==>
               if p in s.components.removals
               then r.components.removals[p].version == s.components.removals[p].version
                    && r.components.removals[p].marked == s.components.removals[p].marked
                    && (s.components.removals[p].marked || r.components.removals[p].point == Ending)
                    && r.components.removals[p].point != AwaitingMark
               else r.components.removals[p].point == AwaitingMark && !r.components.removals[p].marked
    ensures Inv(r)
  {
    forall o | o in r.components.removals
      ensures RemovalOk(r, o)
    {
      if o != p {
        assert o in r.components.removals - {p};
        assert r.components.removals[o] == (r.components.removals - {p})[o] == s.components.removals[o];
        assert RemovalOk(s, o);
      } else if p in s.components.removals {
        assert RemovalOk(s, p);
      }
    }
    RemovalStep(s, r);
  }

  lemma {:induction false} RunOk(start: State, events: seq<Event>)
    requires Initial(start)
    ensures Inv(Run(start, events))
  {
    if events == [] {
      assert forall key: Key :: OpenClaims(start.provisions, key) == {};
      assert forall key: HoldKey :: OpenHolds(start.provisions, key) == {};
    } else {
      RunOk(start, events[..|events| - 1]);
      StepOk(Run(start, events[..|events| - 1]), events[|events| - 1]);
    }
  }

  // ---------------------------------------------------------------- theorems

  /** A provision whose device is on its way: claimed, and not yet in the registry. */
  ghost predicate InFlight(v: Provision) {
    v.point in {Driving, Provisioned, Registering}
  }

  /**
   * While a removal of a platform and version is marked, and so whenever the driver is removing
   * it, no live device and no provision in flight has that platform and version.
   */
  lemma {:induction false} RemovalNeverUnderADevice(start: State, events: seq<Event>, p: Platform)
    requires Initial(start)
    requires p in Run(start, events).components.removals
    ensures var s := Run(start, events);
            var removal := s.components.removals[p];
            && (removal.point == DriverRemoving ==> removal.marked)
            && (removal.marked ==>
                  && (forall d :: d in s.devices && s.devices[d].live ==> s.devices[d].key != Key(p, removal.version))
                  && (forall id :: id in s.provisions && InFlight(s.provisions[id]) ==>
                                     KeyOf(s.provisions[id].spec) != Key(p, removal.version)))
  {
    RunOk(start, events);
    var s := Run(start, events);
    var removal := s.components.removals[p];
    var key := Key(p, removal.version);
    assert RemovalOk(s, p);
    if removal.marked {
      forall d | d in s.devices && s.devices[d].live
        ensures s.devices[d].key != key
      {
        assert d !in LiveDevices(s.devices, key);
      }
      forall id | id in s.provisions && InFlight(s.provisions[id])
        ensures KeyOf(s.provisions[id].spec) != key
      {
        assert LedgerOk(s.provisions[id]);
        assert id !in OpenClaims(s.provisions, key);
      }
    }
  }

  /**
   * A finished provision has ended its claim and its hold exactly as often as it took them, at
   * most once each, and its reservation exactly once; no unfinished one has ended more than it
   * took, nor its reservation.
   */
  lemma ProvisionEndsEachOnce(start: State, events: seq<Event>, id: nat)
    requires Initial(start)
    requires id in Run(start, events).provisions
    ensures var v := Run(start, events).provisions[id];
            && v.ledger.claimEnds <= v.ledger.claims <= 1
            && v.ledger.holdEnds <= v.ledger.holds <= 1
            && v.ledger.reservationEnds == (if v.point == Done then 1 else 0)
            && (v.point == Done ==> v.ledger.claimEnds == v.ledger.claims && v.ledger.holdEnds == v.ledger.holds)
  {
    RunOk(start, events);
    assert LedgerOk(Run(start, events).provisions[id]);
  }

  /**
   * From its claim to the commit a device is counted by the claim, and from the commit on by its
   * record: at no moment by neither. The counters are exact: each is the number of open claims
   * or holds, with no entry left behind at zero.
   */
  lemma CountedByClaimOrRecord(start: State, events: seq<Event>, id: nat)
    requires Initial(start)
    requires id in Run(start, events).provisions
    ensures var s := Run(start, events);
            var v := s.provisions[id];
            && (InFlight(v) ==> Count(s.components.provisioning, KeyOf(v.spec)) > 0)
            && (DeviceOf(v.point).Some? ==>
                  var d := DeviceOf(v.point).value;
                  d in s.devices && s.devices[d].key == KeyOf(v.spec) && s.devices[d].baseline == v.made)
    ensures var s := Run(start, events);
            && (forall key: Key :: Count(s.components.provisioning, key) == |OpenClaims(s.provisions, key)|)
            && (forall key: HoldKey :: key in s.baselines.holds <==> OpenHolds(s.provisions, key) != {})
  {
    RunOk(start, events);
    var s := Run(start, events);
    var v := s.provisions[id];
    assert LedgerOk(v) && Recorded(s, v);
    forall key: Key
      ensures Count(s.components.provisioning, key) == |OpenClaims(s.provisions, key)|
    {
      assert ClaimsCounted(s, key);
    }
    forall key: HoldKey
      ensures key in s.baselines.holds <==> OpenHolds(s.provisions, key) != {}
    {
      assert HoldsCounted(s, key);
    }
    if InFlight(v) {
      assert id in OpenClaims(s.provisions, KeyOf(v.spec));
    }
  }
}
