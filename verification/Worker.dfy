/**
 * Device provisioning, component removal and baseline versions as one step system. It joins the
 * parts of `src/core/component-installer.ts`, `src/core/device-provisioner.ts` and
 * `src/core/baselines.ts` that have to agree: the removal mark and the claim count, the record
 * that takes over from a claim, and the hold on the baseline version being copied. A step is what
 * the source runs between two awaits; driver, registry and lifecycle answer with any outcome.
 */
module Worker {
  import opened Common

  type Platform = string

  // ---------------------------------------------------------------- counters kept in a map

  function Count<K>(m: map<K, nat>, k: K): nat {
    if k in m then m[k] else 0
  }

  function CountUp<K>(m: map<K, nat>, k: K): map<K, nat> {
    m[k := Count(m, k) + 1]
  }

  // ---------------------------------------------------------------- components

  /** `componentKey`: a platform and an OS version. */
  datatype Key = Key(platform: Platform, version: string)

  /** Where `#removeHoldingTurn` is suspended; `Ending` is every exit up to the `finally` of `remove`. */
  datatype RemovalPoint = AwaitingMark | DriverRemoving | AwaitingDelete | Ending

  datatype Removal = Removal(version: string, marked: bool, point: RemovalPoint)

  datatype Components = Components(provisioning: map<Key, nat>, removals: map<Platform, Removal>)

  predicate BeingRemoved(c: Components, key: Key) {
    && key.platform in c.removals
    && c.removals[key.platform].marked
    && c.removals[key.platform].version == key.version
  }

  /** `claimProvision` when it does not refuse. */
  function Claim(c: Components, key: Key): Components {
    c.(provisioning := CountUp(c.provisioning, key))
  }

  /** The release a claim answered with, run for the first time. */
  function ReleaseClaim(c: Components, key: Key): Components {
    var remaining := Count(c.provisioning, key) - 1;
    c.(provisioning := if remaining > 0 then c.provisioning[key := remaining] else c.provisioning - {key})
  }

  // ---------------------------------------------------------------- baselines

  datatype Row = Row(version: nat, source: nat)

  /** A name and a version. */
  datatype HoldKey = HoldKey(name: string, version: nat)

  /** `rows` lists each name's versions in the order they were saved. */
  datatype Baselines = Baselines(rows: map<string, seq<Row>>, holds: map<HoldKey, nat>)

  function RowsOf(b: Baselines, name: string): seq<Row> {
    if name in b.rows then b.rows[name] else []
  }

  /** `current`: the newest version of a name. */
  function Current(b: Baselines, name: string): Option<Row> {
    var rows := RowsOf(b, name);
    if rows == [] then None else Some(rows[|rows| - 1])
  }

  function Hold(b: Baselines, key: HoldKey): Baselines {
    b.(holds := CountUp(b.holds, key))
  }

  /** The release a hold answered with; unlike a claim's it is not guarded against a second call. */
  function ReleaseHold(b: Baselines, key: HoldKey): Baselines {
    var had := if key in b.holds then b.holds[key] else 1;
    b.(holds := if had == 1 then b.holds - {key} else if had > 1 then b.holds[key := had - 1] else b.holds)
  }

  /** `#insert`: the next version of the name. */
  function Insert(b: Baselines, name: string, source: nat): Baselines {
    var next := match Current(b, name) case None => 1 case Some(row) => row.version + 1;
    b.(rows := b.rows[name := RowsOf(b, name) + [Row(next, source)]])
  }

  function WithoutVersion(rows: seq<Row>, version: nat): seq<Row> {
    if rows == [] then []
    else if rows[0].version == version then rows[1..]
    else [rows[0]] + WithoutVersion(rows[1..], version)
  }

  /** The `DELETE` of `#deleteVersion`. */
  function DeleteRow(b: Baselines, key: HoldKey): Baselines {
    b.(rows := b.rows[key.name := WithoutVersion(RowsOf(b, key.name), key.version)])
  }

  predicate HasRow(b: Baselines, key: HoldKey) {
    exists row :: row in RowsOf(b, key.name) && row.version == key.version
  }

  /** A row the query of `#dropReplaced` returns: not the newest of its name. */
  predicate Replaced(b: Baselines, key: HoldKey) {
    HasRow(b, key) && key.version < RowsOf(b, key.name)[|RowsOf(b, key.name)| - 1].version
  }

  // ---------------------------------------------------------------- devices and provisions

  datatype Spec = Spec(platform: Platform, version: string, baseline: Option<string>)

  function KeyOf(spec: Spec): Key {
    Key(spec.platform, spec.version)
  }

  /** A registry record; `live` is any state but `deleted`. */
  datatype Device = Device(key: Key, baseline: Option<HoldKey>, live: bool)

  /** Where `provision` is suspended. `Refused` and `Unregistered` are the turns between a throw
      and the catch that ends the reservation; `Committed` is the turn between the registry's
      commit and the end of the gate section. `NoDriver` is the end of a call whose platform has no
      driver: the lookup throws before the first `try`. */
  datatype Point =
    | Claiming
    | Refused
    | Driving
    | Provisioned
    | Registering
    | Committed(device: nat)
    | Unregistered
    | MakingReady(device: nat)
    | Destroying(device: nat)
    | Done
    | NoDriver

  /** How often each of the three things a provision takes was taken and ended. The reservation
      is taken by the caller. */
  datatype Ledger = Ledger(claims: nat, claimEnds: nat, holds: nat, holdEnds: nat, reservationEnds: nat)

  datatype Provision = Provision(spec: Spec, made: Option<HoldKey>, point: Point, ledger: Ledger)

  /** The one task `#serial` is running. */
  datatype Serial =
    | Idle
    | Saving(name: string)
    | Saved
    | Dropping(row: HoldKey, pending: seq<HoldKey>, list: map<nat, Device>)
    | Removing(name: string)

  /** `gate` is who is inside a gate section that awaits; `drivers` are the platforms with a driver. */
  datatype State = State(
    components: Components, baselines: Baselines,
    devices: map<nat, Device>, provisions: map<nat, Provision>,
    gate: Option<nat>, serial: Serial, drivers: set<Platform>)

  // ---------------------------------------------------------------- steps of a provision

  /** A new provision, its reservation taken by the caller: at its first await, or thrown out by the
      lookup of its driver. */
  function Requested(spec: Spec, drivers: set<Platform>): Provision {
    Provision(spec, None, if spec.platform in drivers then Claiming else NoDriver, Ledger(0, 0, 0, 0, 0))
  }

  /** `#claim`, in one gate section. */
  function ClaimSection(s: State, id: nat): State
    requires id in s.provisions
  {
    var v := s.provisions[id];
    var key := KeyOf(v.spec);
    if BeingRemoved(s.components, key) then s.(provisions := s.provisions[id := v.(point := Refused)])
    else
      var claimed := Claim(s.components, key);
      match v.spec.baseline
      case None =>
        s.(components := claimed,
           provisions := s.provisions[id := v.(point := Driving, ledger := v.ledger.(claims := v.ledger.claims + 1))])
      case Some(name) =>
        match Current(s.baselines, name)
        case None =>
          s.(components := ReleaseClaim(claimed, key),
             provisions := s.provisions[id := v.(point := Refused, ledger := v.ledger.(
                             claims := v.ledger.claims + 1, claimEnds := v.ledger.claimEnds + 1))])
        case Some(row) =>
          var made := HoldKey(name, row.version);
          s.(components := claimed,
             baselines := Hold(s.baselines, made),
             provisions := s.provisions[id := v.(point := Driving, made := Some(made), ledger := v.ledger.(
                             claims := v.ledger.claims + 1, holds := v.ledger.holds + 1))])
  }

  /** `releaseClaim(); made.hold();` and the provision's next point. */
  function EndClaimAndHold(s: State, id: nat, point: Point): State
    requires id in s.provisions
  {
    var v := s.provisions[id];
    var released := v.ledger.claimEnds > 0;
    s.(components := if released then s.components else ReleaseClaim(s.components, KeyOf(v.spec)),
       baselines := if v.made.None? then s.baselines else ReleaseHold(s.baselines, v.made.value),
       provisions := s.provisions[id := v.(point := point, ledger := v.ledger.(
                       claimEnds := if released then v.ledger.claimEnds else v.ledger.claimEnds + 1,
                       holdEnds := if v.made.None? then v.ledger.holdEnds else v.ledger.holdEnds + 1))])
  }

  /** `options.reservation.release()` on the way out. */
  function EndReservation(s: State, id: nat): State
    requires id in s.provisions
  {
    var v := s.provisions[id];
    s.(provisions := s.provisions[id := v.(point := Done, ledger := v.ledger.(
                       reservationEnds := v.ledger.reservationEnds + 1))])
  }

  function SetPoint(s: State, id: nat, point: Point): State
    requires id in s.provisions
  {
    s.(provisions := s.provisions[id := s.provisions[id].(point := point)])
  }

  // ---------------------------------------------------------------- steps of a removal and of the serial queue

  function LiveDevices(devices: map<nat, Device>, key: Key): set<nat> {
    set d | d in devices && devices[d].live && devices[d].key == key
  }

  /** `#simlockDevices` */
  function SimlockDevices(s: State, key: Key): nat {
    |LiveDevices(s.devices, key)| + Count(s.components.provisioning, key)
  }

  function SetRemoval(s: State, p: Platform, removal: Removal): State {
    s.(components := s.components.(removals := s.components.removals[p := removal]))
  }

  /** The first gate section of `#removeHoldingTurn`. */
  function MarkSection(s: State, p: Platform): State
    requires p in s.components.removals
  {
    var removal := s.components.removals[p];
    if SimlockDevices(s, Key(p, removal.version)) > 0
    then SetRemoval(s, p, removal.(point := Ending))
    else SetRemoval(s, p, removal.(marked := true, point := DriverRemoving))
  }

  predicate InUse(b: Baselines, key: HoldKey, list: map<nat, Device>) {
    key in b.holds || exists d :: d in list && list[d].live && list[d].baseline == Some(key)
  }

  /** The loop of `#dropReplaced` up to its next await. */
  function NextDrop(b: Baselines, pending: seq<HoldKey>, list: map<nat, Device>): Serial {
    if pending == [] then Idle
    else if InUse(b, pending[0], list) then NextDrop(b, pending[1..], list)
    else Dropping(pending[0], pending[1..], list)
  }

  // ---------------------------------------------------------------- the step system

  datatype Event =
    // device-provisioner.ts
    | Request(id: nat, spec: Spec)
    | ClaimGate(id: nat)
    | ClaimCaught(id: nat)
    | DriverProvisioned(id: nat, ok: bool)
    | RegisterEnters(id: nat)
    | RegisterCommits(id: nat, device: nat)
    | RegisterFails(id: nat)
    | RegisterLeaves(id: nat)
    | RegisterCaught(id: nat)
    | ReadyReturned(id: nat, ok: bool)
    | DestroyReturned(id: nat, deleted: bool)
    // registry
    | DeviceDeleted(device: nat)
    // component-installer.ts
    | RemoveTakesTurn(platform: Platform, version: string)
    | MarkGate(platform: Platform)
    | DriverRemoved(platform: Platform, ok: bool)
    | DeleteGate(platform: Platform)
    | RemoveEnds(platform: Platform)
    // baselines.ts
    | SaveStarts(name: string)
    | SaveInserts(source: nat)
    | SaveFails
    | DropStarts(order: seq<HoldKey>)
    | SourceDestroyed(ok: bool)
    | RemoveStarts(name: string)
    | RemoveSourceDestroyed(ok: bool)

  predicate At(s: State, id: nat, point: Point) {
    id in s.provisions && s.provisions[id].point == point
  }

  predicate RemovalAt(s: State, p: Platform, point: RemovalPoint) {
    p in s.components.removals && s.components.removals[p].point == point
  }

  /** `order` lists every replaced row once, in the order the query returned them. */
  ghost predicate Lists(b: Baselines, order: seq<HoldKey>) {
    Distinct(order) && forall key :: key in order <==> Replaced(b, key)
  }

  ghost predicate Enabled(s: State, e: Event) {
    match e
    case Request(id, _) => id !in s.provisions
    case ClaimGate(id) => s.gate == None && At(s, id, Claiming)
    case ClaimCaught(id) => At(s, id, Refused)
    case DriverProvisioned(id, _) => At(s, id, Driving)
    case RegisterEnters(id) => s.gate == None && At(s, id, Provisioned)
    case RegisterCommits(id, device) => At(s, id, Registering) && device !in s.devices
    case RegisterFails(id) => At(s, id, Registering)
    case RegisterLeaves(id) => id in s.provisions && s.provisions[id].point.Committed?
    case RegisterCaught(id) => At(s, id, Unregistered)
    case ReadyReturned(id, _) => id in s.provisions && s.provisions[id].point.MakingReady?
    case DestroyReturned(id, _) => id in s.provisions && s.provisions[id].point.Destroying?
    case DeviceDeleted(device) => device in s.devices
    case RemoveTakesTurn(p, _) => p in s.drivers && p !in s.components.removals
    case MarkGate(p) => s.gate == None && RemovalAt(s, p, AwaitingMark)
    case DriverRemoved(p, _) => RemovalAt(s, p, DriverRemoving)
    case DeleteGate(p) => s.gate == None && RemovalAt(s, p, AwaitingDelete)
    case RemoveEnds(p) => RemovalAt(s, p, Ending)
    case SaveStarts(_) => s.serial == Idle
    case SaveInserts(_) => s.serial.Saving?
    case SaveFails => s.serial.Saving? || s.serial.Saved?
    case DropStarts(order) => (s.serial.Idle? || s.serial.Saved?) && Lists(s.baselines, order)
    case SourceDestroyed(_) => s.serial.Dropping?
    case RemoveStarts(name) => s.serial == Idle && RowsOf(s.baselines, name) != []
    case RemoveSourceDestroyed(_) => s.serial.Removing? && RowsOf(s.baselines, s.serial.name) != []
  }

  /** One step; an event that cannot happen in `s` changes nothing. */
  ghost function Step(s: State, e: Event): State {
    if !Enabled(s, e) then s
    else match e
      case Request(id, spec) => s.(provisions := s.provisions[id := Requested(spec, s.drivers)])
      case ClaimGate(id) => ClaimSection(s, id)
      case ClaimCaught(id) => EndReservation(s, id)
      case DriverProvisioned(id, ok) =>
        if ok then SetPoint(s, id, Provisioned) else EndReservation(EndClaimAndHold(s, id, Done), id)
      case RegisterEnters(id) => SetPoint(s, id, Registering).(gate := Some(id))
      case RegisterCommits(id, device) =>
        var v := s.provisions[id];
        SetPoint(s, id, Committed(device)).(devices := s.devices[device := Device(KeyOf(v.spec), v.made, true)])
      case RegisterFails(id) => EndClaimAndHold(s, id, Unregistered).(gate := None)
      case RegisterLeaves(id) =>
        EndClaimAndHold(s, id, MakingReady(s.provisions[id].point.device)).(gate := None)
      case RegisterCaught(id) => EndReservation(s, id)
      case ReadyReturned(id, ok) =>
        if ok then EndReservation(s, id) else SetPoint(s, id, Destroying(s.provisions[id].point.device))
      case DestroyReturned(id, deleted) =>
        var device := s.provisions[id].point.device;
        EndReservation(if deleted then Delete(s, device) else s, id)
      case DeviceDeleted(device) => Delete(s, device)
      case RemoveTakesTurn(p, version) => SetRemoval(s, p, Removal(version, false, AwaitingMark))
      case MarkGate(p) => MarkSection(s, p)
      case DriverRemoved(p, ok) =>
        SetRemoval(s, p, s.components.removals[p].(point := if ok then AwaitingDelete else Ending))
      case DeleteGate(p) => SetRemoval(s, p, s.components.removals[p].(point := Ending))
      case RemoveEnds(p) => s.(components := s.components.(removals := s.components.removals - {p}))
      case SaveStarts(name) => s.(serial := Saving(name))
      case SaveInserts(source) => s.(baselines := Insert(s.baselines, s.serial.name, source), serial := Saved)
      case SaveFails => s.(serial := Idle)
      case DropStarts(order) => s.(serial := NextDrop(s.baselines, order, s.devices))
      case SourceDestroyed(ok) =>
        if !ok then s.(serial := Idle)
        else
          var dropped := DeleteRow(s.baselines, s.serial.row);
          s.(baselines := dropped, serial := NextDrop(dropped, s.serial.pending, s.serial.list))
      case RemoveStarts(name) => s.(serial := Removing(name))
      case RemoveSourceDestroyed(ok) =>
        if !ok then s.(serial := Idle)
        else
          var rows := RowsOf(s.baselines, s.serial.name);
          var left := DeleteRow(s.baselines, HoldKey(s.serial.name, rows[0].version));
          s.(baselines := left, serial := if |rows| == 1 then Idle else s.serial)
  }

  /** A record's move to `deleted`. */
  function Delete(s: State, device: nat): State {
    if device !in s.devices then s
    else s.(devices := s.devices[device := s.devices[device].(live := false)])
  }

  /** At start the registry and the baselines hold what an earlier run left; nothing runs. */
  ghost predicate Initial(s: State) {
    && s.components == Components(map[], map[])
    && s.baselines.holds == map[]
    && (forall name :: name in s.baselines.rows ==> VersionsAscend(s.baselines.rows[name]))
    && s.provisions == map[] && s.gate == None && s.serial == Idle
  }

  ghost predicate VersionsAscend(rows: seq<Row>) {
    forall a, b :: 0 <= a < b < |rows| ==> rows[a].version < rows[b].version
  }

  ghost function Run(start: State, events: seq<Event>): State {
    if events == [] then start
    else Step(Run(start, events[..|events| - 1]), events[|events| - 1])
  }
}
