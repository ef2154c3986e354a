/**
 * `BaselineService` of `src/core/baselines.ts`: the rows and the hold counts, and the stretches of
 * a save, a drop pass and a remove that change them. Each method is tied to the change it makes in
 * the step system `Worker`.
 */
module BaselineService {
  import opened Common
  import opened Worker

  class Service {
    var rows: map<string, seq<Row>>
    var holds: map<HoldKey, nat>

    ghost function View(): Baselines
      reads this
    {
      Baselines(rows, holds)
    }

    /** The rows an earlier run left. */
    constructor (rows: map<string, seq<Row>>)
      ensures View() == Baselines(rows, map[])
    {
      this.rows := rows;
      holds := map[];
    }

    /** `current`: with versions ascending, no row of the name is newer than the answer. */
    method CurrentVersion(name: string) returns (r: Option<Row>)
      ensures r == Current(View(), name)
      ensures r.None? <==> RowsOf(View(), name) == []
      ensures r.Some? && VersionsAscend(RowsOf(View(), name)) ==>
        r.value in RowsOf(View(), name)
        && forall row | row in RowsOf(View(), name) :: row.version <= r.value.version
    {
      if name !in rows || rows[name] == [] {
        return None;
      }
      return Some(rows[name][|rows[name]| - 1]);
    }

    /** `hold` */
    method HoldVersion(key: HoldKey)
      modifies this`holds
      ensures View() == Hold(old(View()), key)
      ensures Count(holds, key) == Count(old(holds), key) + 1 && holds - {key} == old(holds) - {key}
    {
      holds := holds[key := (if key in holds then holds[key] else 0) + 1];
    }

    /** The release `hold` answered with. */
    method ReleaseVersion(key: HoldKey)
      modifies this`holds
      ensures View() == ReleaseHold(old(View()), key)
      ensures Count(holds, key) == (if Count(old(holds), key) == 0 then 0 else Count(old(holds), key) - 1)
      ensures holds - {key} == old(holds) - {key}
      ensures (key in old(holds) ==> old(holds)[key] > 0) ==> (key in holds ==> holds[key] > 0)
    {
      if key !in holds || holds[key] == 1 {
        holds := holds - {key};
      } else if holds[key] > 1 {
        holds := holds[key := holds[key] - 1];
      }
    }

    /** `#insert` */
    method InsertVersion(name: string, source: nat) returns (version: nat)
      modifies this`rows
      ensures View() == Insert(old(View()), name, source)
      ensures Current(View(), name) == Some(Row(version, source))
      ensures VersionsAscend(RowsOf(old(View()), name)) ==>
        VersionsAscend(RowsOf(View(), name))
        && forall row | row in RowsOf(old(View()), name) :: row.version < version
    {
      var newest := CurrentVersion(name);
      version := match newest case None => 1 case Some(row) => row.version + 1;
      rows := rows[name := (if name in rows then rows[name] else []) + [Row(version, source)]];
    }

    /** The in-use test of `#dropReplaced`, on the devices the pass read. */
    method VersionInUse(key: HoldKey, list: map<nat, Device>) returns (inUse: bool)
      ensures inUse <==> InUse(View(), key, list)
      ensures inUse <==> key in holds || exists d :: d in list && list[d].live && list[d].baseline == Some(key)
    {
      inUse := key in holds;
      var rest := list.Keys;
      while rest != {} && !inUse
        invariant rest <= list.Keys
        invariant inUse <==> key in holds
                             || exists d :: d in list && d !in rest && list[d].live && list[d].baseline == Some(key)
        decreases |rest|
      {
        var d :| d in rest;
        rest := rest - {d};
        inUse := list[d].live && list[d].baseline == Some(key);
      }
    }

    /** The loop of `#dropReplaced` up to its next await: the row to drop, and the rows after it. */
    method NextToDrop(pending: seq<HoldKey>, list: map<nat, Device>) returns (next: Serial)
      ensures next == NextDrop(View(), pending, list)
      ensures next.Dropping? ==> next.row in pending && !InUse(View(), next.row, list)
      ensures next.Idle? ==> forall key | key in pending :: InUse(View(), key, list)
    {
      var k := 0;
      while k < |pending|
        invariant k <= |pending|
        invariant NextDrop(View(), pending[k..], list) == NextDrop(View(), pending, list)
        invariant forall key | key in pending[..k] :: InUse(View(), key, list)
      {
        var inUse := VersionInUse(pending[k], list);
        if !inUse {
          assert pending[k..][1..] == pending[k + 1..];
          return Dropping(pending[k], pending[k + 1..], list);
        }
        assert pending[k..][1..] == pending[k + 1..];
        assert pending[..k + 1] == pending[..k] + [pending[k]];
        k := k + 1;
      }
      assert pending[..k] == pending;
      return Idle;
    }

    /** The `DELETE` of `#deleteVersion`, once the source is destroyed. */
    method DeleteVersion(key: HoldKey)
      modifies this`rows
      ensures View() == DeleteRow(old(View()), key)
    {
      var list := if key.name in rows then rows[key.name] else [];
      var k := 0;
      while k < |list| && list[k].version != key.version
        invariant k <= |list|
        invariant forall j :: 0 <= j < k ==> list[j].version != key.version
      {
        k := k + 1;
      }
      CutOut(list, key.version, k);
      rows := rows[key.name := list[..k] + if k < |list| then list[k + 1..] else []];
    }
  }

  /** Deleting the first row of a version cuts the list there. */
  lemma {:induction false} CutOut(list: seq<Row>, version: nat, k: nat)
    requires k <= |list| && (k < |list| ==> list[k].version == version)
    requires forall j :: 0 <= j < k ==> list[j].version != version
    ensures WithoutVersion(list, version) == list[..k] + if k < |list| then list[k + 1..] else []
    decreases k
  {
    if k > 0 {
      CutOut(list[1..], version, k - 1);
      assert list[..k] == [list[0]] + list[1..][..k - 1];
      assert k < |list| ==> list[1..][k..] == list[k + 1..];
    }
  }
}
