/** `DeviceOperationClaims` of `src/core/device-operation-claims.ts`. */
module DeviceClaims {
  import opened Common

  type DeviceId = string

  datatype Operation = Boot | Eviction | Cleanup | Nuke | Recovery | Reclaim | Enrollment | Grant

  /** A claim object: `released` is the flag its `release` closes over. */
  datatype Claim = Claim(device: DeviceId, operation: Operation, owner: Option<string>, released: bool)

  /** Claims are numbered as they are made; `active` is the map of the source. */
  datatype State = State(active: map<DeviceId, nat>, claims: seq<Claim>)

  function Claimed(s: State, device: DeviceId, operation: Operation, owner: Option<string>): State {
    if device in s.active then s
    else State(s.active[device := |s.claims|], s.claims + [Claim(device, operation, owner, false)])
  }

  function Released(s: State, c: nat): State
    requires c < |s.claims|
  {
    var claim := s.claims[c];
    if claim.released then s
    else State(if claim.device in s.active && s.active[claim.device] == c then s.active - {claim.device} else s.active,
               s.claims[c := claim.(released := true)])
  }

  datatype Event =
    | TryClaim(device: DeviceId, operation: Operation, owner: Option<string>)
    | Release(c: nat)

  function Step(s: State, e: Event): State {
    match e
    case TryClaim(device, operation, owner) => Claimed(s, device, operation, owner)
    case Release(c) => if c < |s.claims| then Released(s, c) else s
  }

  function Run(events: seq<Event>): State {
    if events == [] then State(map[], []) else Step(Run(events[..|events| - 1]), events[|events| - 1])
  }

  predicate Active(s: State, c: nat) {
    c < |s.claims| && s.claims[c].device in s.active && s.active[s.claims[c].device] == c
  }

  /** The map holds exactly the claims that were not released, each under its own device. */
  ghost predicate Valid(s: State) {
    && (forall d :: d in s.active ==> s.active[d] < |s.claims| && s.claims[s.active[d]].device == d)
    && (forall c: nat :: c < |s.claims| ==> (Active(s, c) <==> !s.claims[c].released))
  }

  lemma ReleasedValid(s: State, c: nat)
    requires Valid(s) && c < |s.claims|
    ensures Valid(Released(s, c))
    ensures forall other: nat :: other != c && other < |s.claims| ==>
              (Active(Released(s, c), other) <==> Active(s, other))
    ensures !Active(Released(s, c), c)
  {
    var r := Released(s, c);
    forall other: nat | other < |s.claims|
      ensures other != c ==> (Active(r, other) <==> Active(s, other))
    {
      assert Active(s, other) && Active(s, c) && other != c ==> s.claims[other].device != s.claims[c].device;
    }
  }

  lemma ClaimedValid(s: State, device: DeviceId, operation: Operation, owner: Option<string>)
    requires Valid(s)
    ensures var r := Claimed(s, device, operation, owner);
            && Valid(r)
            && (forall c: nat :: c < |s.claims| ==> (Active(r, c) <==> Active(s, c)))
            && (device !in s.active ==> Active(r, |s.claims|))
  {
    var r := Claimed(s, device, operation, owner);
    forall c: nat | c < |s.claims|
      ensures Active(r, c) <==> Active(s, c)
    {
      assert Active(s, c) <==> !s.claims[c].released;
    }
  }

  lemma {:induction false} RunValid(events: seq<Event>)
    ensures Valid(Run(events))
  {
    if events != [] {
      var before := Run(events[..|events| - 1]);
      RunValid(events[..|events| - 1]);
      match events[|events| - 1]
      case TryClaim(device, operation, owner) => ClaimedValid(before, device, operation, owner);
      case Release(c) => if c < |before.claims| { ReleasedValid(before, c); }
    }
  }

  /** At every moment a device has at most one claim that was not released, and it is the one the
      map holds. */
  lemma OneClaimPerDevice(events: seq<Event>, c: nat, other: nat)
    requires c < |Run(events).claims| && other < |Run(events).claims|
    requires !Run(events).claims[c].released && !Run(events).claims[other].released
    requires Run(events).claims[c].device == Run(events).claims[other].device
    ensures c == other && Active(Run(events), c)
  {
    RunValid(events);
  }

  /**
   * Only a claim's own release frees it: whatever other claims are made and released in the
   * meantime, late or repeatedly, an active claim stays active until it is released itself.
   */
  lemma {:induction false} OnlyItsOwnReleaseFreesAClaim(events: seq<Event>, more: seq<Event>, c: nat)
    requires Active(Run(events), c) && Release(c) !in more
    ensures Active(Run(events + more), c)
    decreases |more|
  {
    if more == [] {
      assert events + more == events;
    } else {
      var most := more[..|more| - 1];
      OnlyItsOwnReleaseFreesAClaim(events, most, c);
      LastOf(events, more);
      var before := Run(events + most);
      RunValid(events + most);
      match more[|more| - 1]
      case TryClaim(device, operation, owner) => ClaimedValid(before, device, operation, owner);
      case Release(other) =>
        assert other != c by { assert more[|more| - 1] in more; }
        if other < |before.claims| { ReleasedValid(before, other); }
    }
  }

  /** The registry's view of a device made from a baseline. */
  datatype Device = Device(id: DeviceId, baseline: Option<string>, live: bool, leased: bool)

  predicate MadeFrom(device: Device, name: string) {
    device.live && device.baseline == Some(name)
  }

  /** The live devices of a baseline, in registry order. */
  function Made(devices: seq<Device>, name: string): (r: seq<Device>)
    ensures forall d :: d in r <==> d in devices && d.live && d.baseline == Some(name)
  {
    if devices == [] then []
    else if MadeFrom(devices[0], name) then [devices[0]] + Made(devices[1..], name)
    else Made(devices[1..], name)
  }

  ghost predicate DistinctIds(devices: seq<Device>) {
    forall a, b :: 0 <= a < b < |devices| ==> devices[a].id != devices[b].id
  }

  lemma {:induction false} MadeDistinct(devices: seq<Device>, name: string)
    requires DistinctIds(devices)
    ensures DistinctIds(Made(devices, name))
  {
    if devices != [] {
      MadeDistinct(devices[1..], name);
      var r := Made(devices[1..], name);
      forall b | 0 <= b < |r|
        ensures r[b].id != devices[0].id
      {
        assert r[b] in r;
      }
    }
  }

  function Ids(made: seq<Device>, lo: nat, hi: nat): set<DeviceId>
    requires lo <= hi <= |made|
  {
    set k | lo <= k < hi :: made[k].id
  }

  /** `s` is `s0` with the first `n` devices claimed for cleanup in order, and of those claims the
      first `done` released again. */
  ghost predicate ClaimedFirst(s0: State, s: State, made: seq<Device>, done: nat, n: nat)
    requires done <= n <= |made|
  {
    && |s.claims| == |s0.claims| + n
    && s.claims[..|s0.claims|] == s0.claims
    && (forall k :: 0 <= k < n ==> s.claims[|s0.claims| + k] == Claim(made[k].id, Cleanup, None, k < done))
    && Ids(made, 0, n) !! s0.active.Keys
    && s.active - Ids(made, done, n) == s0.active
    && (forall k :: done <= k < n ==> made[k].id in s.active && s.active[made[k].id] == |s0.claims| + k)
  }

  lemma ClaimNext(s0: State, s: State, made: seq<Device>, n: nat)
    requires n < |made| && DistinctIds(made) && ClaimedFirst(s0, s, made, 0, n)
    requires made[n].id !in s.active
    ensures ClaimedFirst(s0, Claimed(s, made[n].id, Cleanup, None), made, 0, n + 1)
  {
    var r := Claimed(s, made[n].id, Cleanup, None);
    assert r.claims[..|s0.claims|] == s.claims[..|s0.claims|];
    assert Ids(made, 0, n + 1) == Ids(made, 0, n) + {made[n].id};
    assert made[n].id !in s0.active by {
      assert made[n].id !in s.active - Ids(made, 0, n);
    }
    assert r.active - Ids(made, 0, n + 1) == s.active - Ids(made, 0, n);
  }

  /** A device busy when its turn came was busy before: the pass itself claims each device once. */
  lemma BusyBefore(s0: State, s: State, made: seq<Device>, n: nat)
    requires n < |made| && DistinctIds(made) && ClaimedFirst(s0, s, made, 0, n)
    requires made[n].id in s.active
    ensures made[n].id in s0.active
  {
    assert made[n].id !in Ids(made, 0, n);
    assert made[n].id in s.active - Ids(made, 0, n);
  }

  lemma GiveNext(s0: State, s: State, made: seq<Device>, done: nat, n: nat)
    requires done < n <= |made| && DistinctIds(made) && ClaimedFirst(s0, s, made, done, n)
    ensures ClaimedFirst(s0, Released(s, |s0.claims| + done), made, done + 1, n)
  {
    var c := |s0.claims| + done;
    var r := Released(s, c);
    assert s.claims[c] == Claim(made[done].id, Cleanup, None, false);
    assert r.active == s.active - {made[done].id};
    assert r.claims[..|s0.claims|] == s.claims[..|s0.claims|];
    assert Ids(made, done, n) == {made[done].id} + Ids(made, done + 1, n);
    assert r.active - Ids(made, done + 1, n) == s.active - Ids(made, done, n);
  }

  /** `s` is `s0` with an active cleanup claim more on each of `made`, in order. */
  ghost predicate TakenAll(s0: State, s: State, made: seq<Device>) {
    && |s.claims| == |s0.claims| + |made|
    && forall c: nat :: |s0.claims| <= c < |s.claims| ==>
         Active(s, c) && s.claims[c] == Claim(made[c - |s0.claims|].id, Cleanup, None, false)
  }

  ghost predicate AllIdle(s: State, made: seq<Device>) {
    forall d | d in made :: d.id !in s.active
  }

  lemma AllClaimed(s0: State, s: State, made: seq<Device>)
    requires ClaimedFirst(s0, s, made, 0, |made|)
    ensures TakenAll(s0, s, made) && AllIdle(s0, made)
  {
    forall c: nat | |s0.claims| <= c < |s.claims|
      ensures Active(s, c) && s.claims[c] == Claim(made[c - |s0.claims|].id, Cleanup, None, false)
    {
      var k := c - |s0.claims|;
      assert s.claims[|s0.claims| + k] == Claim(made[k].id, Cleanup, None, false);
      assert made[k].id in s.active && s.active[made[k].id] == |s0.claims| + k;
    }
    forall d | d in made
      ensures d.id !in s0.active
    {
      assert d.id in Ids(made, 0, |made|);
    }
  }

  ghost predicate SomeLeased(devices: seq<Device>, name: string) {
    exists d :: d in devices && d.live && d.baseline == Some(name) && d.leased
  }

  ghost predicate SomeBusy(s: State, devices: seq<Device>, name: string) {
    exists d :: d in devices && d.live && d.baseline == Some(name) && d.id in s.active
  }

  lemma LeasedAmongMade(devices: seq<Device>, name: string)
    ensures SomeLeased(devices, name) <==> exists d :: d in Made(devices, name) && d.leased
  {
  }

  lemma BusyAmongMade(s: State, devices: seq<Device>, name: string)
    ensures SomeBusy(s, devices, name) <==> !AllIdle(s, Made(devices, name))
  {
  }

  datatype ClaimResult = Taken(first: nat, made: seq<Device>) | InUse(device: DeviceId) | Busy(device: DeviceId)

  class DeviceOperationClaims {
    var active: map<DeviceId, nat>
    var claims: seq<Claim>

    function View(): State
      reads this
    {
      State(active, claims)
    }

    constructor ()
      ensures View() == State(map[], [])
    {
      active, claims := map[], [];
    }

    method TryClaim(device: DeviceId, operation: Operation, owner: Option<string>) returns (claim: Option<nat>)
      modifies this
      ensures View() == Claimed(old(View()), device, operation, owner)
      ensures claim == if device in old(active) then None else Some(|old(claims)|)
      ensures claim.None? ==> View() == old(View())
      ensures claim.Some? ==>
                && active == old(active)[device := claim.value]
                && claims == old(claims) + [Claim(device, operation, owner, false)]
    {
      if device in active {
        return None;
      }
      claim := Some(|claims|);
      active := active[device := |claims|];
      claims := claims + [Claim(device, operation, owner, false)];
    }

    method Release(c: nat)
      requires c < |claims|
      modifies this
      ensures View() == Released(old(View()), c)
      ensures claims == old(claims)[c := old(claims)[c].(released := true)]
      ensures active.Keys <= old(active.Keys) && forall d :: d in active ==> active[d] == old(active)[d]
      ensures forall d :: d in old(active) && d !in active ==>
                d == claims[c].device && old(active)[d] == c && !old(claims)[c].released
    {
      if claims[c].released {
        return;
      }
      var device := claims[c].device;
      claims := claims[c := claims[c].(released := true)];
      if device in active && active[device] == c {
        active := active - {device};
      }
    }

    /**
     * `#claimIdleDevices` of `src/core/baselines.ts`: claims every live device of a baseline, or,
     * when one is leased or busy, holds no claim it did not hold before.
     */
    method ClaimIdleDevices(devices: seq<Device>, name: string) returns (r: ClaimResult)
      requires DistinctIds(devices)
      modifies this
      ensures |old(claims)| <= |claims| && claims[..|old(claims)|] == old(claims)
      ensures r.InUse? <==> SomeLeased(devices, name)
      ensures r.Busy? <==> !SomeLeased(devices, name) && SomeBusy(old(View()), devices, name)
      ensures r.Taken? ==>
                && r.made == Made(devices, name) && r.first == |old(claims)|
                && TakenAll(old(View()), View(), r.made)
                && forall d :: d in r.made <==> d in devices && d.live && d.baseline == Some(name)
      ensures !r.Taken? ==> active == old(active)
    {
      var made := Made(devices, name);
      MadeDistinct(devices, name);
      LeasedAmongMade(devices, name);
      BusyAmongMade(View(), devices, name);
      var leased := FirstLeased(made);
      if leased.Some? {
        assert made[leased.value] in made;
        return InUse(made[leased.value].id);
      }
      var first := |claims|;
      var busy := ClaimEach(made);
      r := if busy.Some? then Busy(made[busy.value].id) else Taken(first, made);
    }

    method FirstLeased(made: seq<Device>) returns (leased: Option<nat>)
      ensures leased.Some? ==> leased.value < |made| && made[leased.value].leased
      ensures leased.None? ==> forall d | d in made :: !d.leased
    {
      for i := 0 to |made|
        invariant forall k :: 0 <= k < i ==> !made[k].leased
      {
        if made[i].leased {
          return Some(i);
        }
      }
      return None;
    }

    /** Claims the devices in order, giving all back at the first busy one. */
    method ClaimEach(made: seq<Device>) returns (busy: Option<nat>)
      requires DistinctIds(made)
      modifies this
      ensures busy.None? ==> TakenAll(old(View()), View(), made) && AllIdle(old(View()), made)
      ensures busy.Some? ==> active == old(active) && busy.value < |made| && !AllIdle(old(View()), made)
      ensures |old(claims)| <= |claims| && claims[..|old(claims)|] == old(claims)
    {
      for i := 0 to |made|
        invariant ClaimedFirst(old(View()), View(), made, 0, i)
      {
        ghost var before := View();
        var claim := TryClaim(made[i].id, Cleanup, None);
        if claim.Some? {
          ClaimNext(old(View()), before, made, i);
        } else {
          BusyBefore(old(View()), before, made, i);
          assert made[i] in made;
          GiveBack(old(View()), made, i);
          return Some(i);
        }
      }
      AllClaimed(old(View()), View(), made);
      busy := None;
    }

    /** `for (const held of claimed) held.claim.release()` */
    method GiveBack(ghost start: State, made: seq<Device>, n: nat)
      requires n <= |made| && DistinctIds(made)
      requires |start.claims| + n == |claims| && ClaimedFirst(start, View(), made, 0, n)
      modifies this
      ensures |start.claims| <= |claims| && claims[..|start.claims|] == start.claims
      ensures active == start.active
    {
      var first := |claims| - n;
      for i := 0 to n
        invariant ClaimedFirst(start, View(), made, i, n)
      {
        ghost var before := View();
        GiveNext(start, before, made, i, n);
        Release(first + i);
        assert View() == Released(before, |start.claims| + i);
      }
      assert Ids(made, n, n) == {};
      assert active - Ids(made, n, n) == active;
    }
  }
}
