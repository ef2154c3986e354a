/** What every run keeps about baseline versions, holds and the versions a replace drops. */
module BaselineRuns {
  import opened Common
  import opened Worker
  import opened WorkerRuns

  ghost predicate RowsOk(b: Baselines) {
    forall name :: name in b.rows ==> VersionsAscend(b.rows[name])
  }

  /** Every device of the list is still recorded; a record only ever goes from live to deleted. */
  ghost predicate ListedBefore(list: map<nat, Device>, devices: map<nat, Device>) {
    forall d :: d in list ==>
      d in devices && devices[d].baseline == list[d].baseline && (devices[d].live ==> list[d].live)
  }

  ghost predicate AllReplaced(b: Baselines, pending: seq<HoldKey>) {
    forall k :: 0 <= k < |pending| ==> Replaced(b, pending[k])
  }

  /** While a version is being dropped it is not the newest of its name, nothing holds it, and the
      list the pass read has no live device of it. */
  ghost predicate DropOk(s: State) {
    s.serial.Dropping? ==>
      && Replaced(s.baselines, s.serial.row)
      && !InUse(s.baselines, s.serial.row, s.serial.list)
      && AllReplaced(s.baselines, s.serial.pending)
      && Distinct([s.serial.row] + s.serial.pending)
      && ListedBefore(s.serial.list, s.devices)
  }

  ghost predicate BaselinesOk(s: State) {
    RowsOk(s.baselines) && DropOk(s)
  }

  // ---------------------------------------------------------------- rows

  lemma {:induction false} WithoutVersionRows(rows: seq<Row>, version: nat)
    requires VersionsAscend(rows)
    ensures forall row :: row in WithoutVersion(rows, version) <==> row in rows && row.version != version
  {
    if rows != [] {
      assert forall row :: row in rows <==> row == rows[0] || row in rows[1..];
      if rows[0].version != version {
        WithoutVersionRows(rows[1..], version);
        var r := WithoutVersion(rows[1..], version);
        assert forall row :: row in [rows[0]] + r <==> row == rows[0] || row in r;
      } else {
        forall row | row in rows[1..]
          ensures row.version != version
        {
          var k :| 0 <= k < |rows[1..]| && rows[1..][k] == row;
          assert rows[0].version < rows[k + 1].version;
        }
      }
    }
  }

  lemma {:induction false} WithoutVersionAscends(rows: seq<Row>, version: nat)
    requires VersionsAscend(rows)
    ensures VersionsAscend(WithoutVersion(rows, version))
  {
    if rows != [] && rows[0].version != version {
      WithoutVersionAscends(rows[1..], version);
      WithoutVersionRows(rows[1..], version);
      var r := WithoutVersion(rows[1..], version);
      forall b | 0 <= b < |r|
        ensures rows[0].version < r[b].version
      {
        assert r[b] in r;
        var k :| 0 <= k < |rows[1..]| && rows[1..][k] == r[b];
        assert rows[0].version < rows[k + 1].version;
      }
    }
  }

  lemma {:induction false} WithoutVersionLast(rows: seq<Row>, version: nat)
    requires VersionsAscend(rows) && rows != [] && rows[|rows| - 1].version != version
    ensures var left := WithoutVersion(rows, version);
            left != [] && left[|left| - 1] == rows[|rows| - 1]
  {
    if rows[0].version != version && |rows| > 1 {
      WithoutVersionLast(rows[1..], version);
    }
  }

  lemma WithoutVersionKeeps(rows: seq<Row>, version: nat)
    requires VersionsAscend(rows)
    ensures VersionsAscend(WithoutVersion(rows, version))
    ensures forall row :: row in WithoutVersion(rows, version) <==> row in rows && row.version != version
    ensures rows != [] && rows[|rows| - 1].version != version ==>
              WithoutVersion(rows, version) != [] &&
              WithoutVersion(rows, version)[|WithoutVersion(rows, version)| - 1] == rows[|rows| - 1]
  {
    WithoutVersionRows(rows, version);
    WithoutVersionAscends(rows, version);
    if rows != [] && rows[|rows| - 1].version != version {
      WithoutVersionLast(rows, version);
    }
  }

  ghost predicate OlderRow(rows: seq<Row>, version: nat) {
    && (exists row :: row in rows && row.version == version)
    && version < rows[|rows| - 1].version
  }

  lemma WithoutVersionOlder(rows: seq<Row>, version: nat, other: nat)
    requires VersionsAscend(rows) && OlderRow(rows, version) && OlderRow(rows, other) && version != other
    ensures OlderRow(WithoutVersion(rows, version), other)
  {
    var row :| row in rows && row.version == other;
    WithoutVersionRows(rows, version);
    WithoutVersionLast(rows, version);
    assert row in WithoutVersion(rows, version);
  }

  lemma RowsAfterDelete(b: Baselines, key: HoldKey, name: string)
    ensures RowsOf(DeleteRow(b, key), name)
            == if name == key.name then WithoutVersion(RowsOf(b, name), key.version) else RowsOf(b, name)
  {
  }

  lemma ReplacedIsOlder(b: Baselines, key: HoldKey)
    ensures Replaced(b, key) <==> OlderRow(RowsOf(b, key.name), key.version)
  {
  }

  /** Deleting one replaced row keeps every other replaced row replaced. */
  lemma DeleteKeepsReplaced(b: Baselines, key: HoldKey, other: HoldKey)
    requires RowsOk(b) && Replaced(b, key) && Replaced(b, other) && key != other
    ensures Replaced(DeleteRow(b, key), other)
  {
    ReplacedIsOlder(b, key);
    ReplacedIsOlder(b, other);
    RowsAfterDelete(b, key, other.name);
    if other.name == key.name {
      WithoutVersionOlder(RowsOf(b, key.name), key.version, other.version);
    }
    ReplacedIsOlder(DeleteRow(b, key), other);
  }

  lemma InsertOk(b: Baselines, name: string, source: nat)
    requires RowsOk(b)
    ensures RowsOk(Insert(b, name, source))
  {
  }

  lemma DeleteOk(b: Baselines, key: HoldKey)
    requires RowsOk(b)
    ensures RowsOk(DeleteRow(b, key))
  {
    WithoutVersionKeeps(RowsOf(b, key.name), key.version);
  }

  // ---------------------------------------------------------------- drops

  lemma {:induction false} NextDropOk(
    b: Baselines, pending: seq<HoldKey>, list: map<nat, Device>, devices: map<nat, Device>)
    requires AllReplaced(b, pending) && Distinct(pending) && ListedBefore(list, devices)
    ensures var next := NextDrop(b, pending, list);
            next.Dropping? ==>
              && Replaced(b, next.row) && !InUse(b, next.row, next.list) && AllReplaced(b, next.pending)
              && Distinct([next.row] + next.pending) && next.list == list
    ensures NextDrop(b, pending, list).Dropping? || NextDrop(b, pending, list) == Idle
  {
    if pending != [] {
      if InUse(b, pending[0], list) {
        NextDropOk(b, pending[1..], list, devices);
      } else {
        assert [pending[0]] + pending[1..] == pending;
      }
    }
  }

  lemma DropStartOk(s: State, order: seq<HoldKey>)
    requires BaselinesOk(s) && Enabled(s, DropStarts(order))
    ensures BaselinesOk(Step(s, DropStarts(order)))
  {
    NextDropOk(s.baselines, order, s.devices, s.devices);
  }

  lemma {:induction false} DropNextOk(s: State)
    requires BaselinesOk(s) && s.serial.Dropping?
    ensures BaselinesOk(Step(s, SourceDestroyed(true)))
  {
    var row, pending := s.serial.row, s.serial.pending;
    var left := DeleteRow(s.baselines, row);
    DeleteOk(s.baselines, row);
    TailDistinct(row, pending);
    forall k | 0 <= k < |pending|
      ensures Replaced(left, pending[k])
    {
      DeleteKeepsReplaced(s.baselines, row, pending[k]);
    }
    DropFollows(s, left);
  }

  lemma TailDistinct(row: HoldKey, pending: seq<HoldKey>)
    requires Distinct([row] + pending)
    ensures Distinct(pending) && forall k :: 0 <= k < |pending| ==> pending[k] != row
  {
    var all := [row] + pending;
    forall k, j | 0 <= k <= j < |pending|
      ensures pending[j] != row && (k < j ==> pending[k] != pending[j])
    {
      assert all[0] != all[j + 1];
      assert k < j ==> all[k + 1] != all[j + 1];
    }
  }

  lemma DropFollows(s: State, left: Baselines)
    requires s.serial.Dropping? && left == DeleteRow(s.baselines, s.serial.row)
    requires RowsOk(left) && AllReplaced(left, s.serial.pending)
    requires Distinct(s.serial.pending) && ListedBefore(s.serial.list, s.devices)
    ensures BaselinesOk(Step(s, SourceDestroyed(true)))
  {
    NextDropOk(left, s.serial.pending, s.serial.list, s.devices);
    var r := Step(s, SourceDestroyed(true));
    assert r == s.(baselines := left, serial := NextDrop(left, s.serial.pending, s.serial.list));
  }

  /** Records are only added and only go from live to deleted. */
  ghost predicate DevicesGrow(s: State, r: State) {
    forall d :: d in s.devices ==>
      d in r.devices && r.devices[d].baseline == s.devices[d].baseline && (r.devices[d].live ==> s.devices[d].live)
  }

  /** A step that leaves the rows and the drop alone, and begins no hold on the row being dropped. */
  lemma DropKept(s: State, r: State)
    requires BaselinesOk(s)
    requires r.serial == s.serial && r.baselines.rows == s.baselines.rows
    requires s.serial.Dropping? && s.serial.row in r.baselines.holds ==> s.serial.row in s.baselines.holds
    requires DevicesGrow(s, r)
    ensures BaselinesOk(r)
  {
  }

  /** A hold begins on the newest version alone, so never on a version being dropped. */
  lemma ClaimHoldsNewest(s: State, id: nat)
    requires BaselinesOk(s) && At(s, id, Claiming)
    ensures BaselinesOk(ClaimSection(s, id))
    ensures var made := ClaimSection(s, id).provisions[id].made;
            made.Some? && s.provisions[id].made.None? ==>
              Current(s.baselines, made.value.name).Some?
              && Current(s.baselines, made.value.name).value.version == made.value.version
  {
    DropKept(s, ClaimSection(s, id));
  }

  lemma {:induction false} BaselineStepOk(s: State, e: Event)
    requires BaselinesOk(s)
    ensures BaselinesOk(Step(s, e))
  {
    if Enabled(s, e) {
      if e.ClaimGate? {
        ClaimHoldsNewest(s, e.id);
      } else if e.DropStarts? {
        DropStartOk(s, e.order);
      } else if e == SourceDestroyed(true) {
        DropNextOk(s);
      } else if e.SaveInserts? {
        InsertOk(s.baselines, s.serial.name, e.source);
      } else if e == RemoveSourceDestroyed(true) {
        var rows := RowsOf(s.baselines, s.serial.name);
        DeleteOk(s.baselines, HoldKey(s.serial.name, rows[0].version));
      } else {
        OtherStepOk(s, e);
      }
    }
  }

  lemma {:induction false} OtherStepOk(s: State, e: Event)
    requires BaselinesOk(s) && Enabled(s, e)
    requires !e.ClaimGate? && !e.DropStarts? && !e.SaveInserts?
    requires e != SourceDestroyed(true) && e != RemoveSourceDestroyed(true)
    ensures BaselinesOk(Step(s, e))
  {
    if OfBaselines(e) {
      assert Step(s, e).baselines == s.baselines && !Step(s, e).serial.Dropping?;
    } else if e.DriverProvisioned? || e.RegisterFails? || e.RegisterLeaves? {
      HoldEndsKeepDrop(s, e);
    } else {
      RecordStepOk(s, e);
    }
  }

  lemma {:induction false} HoldEndsKeepDrop(s: State, e: Event)
    requires BaselinesOk(s) && Enabled(s, e)
    requires e.DriverProvisioned? || e.RegisterFails? || e.RegisterLeaves?
    ensures BaselinesOk(Step(s, e))
  {
    DropKept(s, Step(s, e));
  }

  lemma RecordStepOk(s: State, e: Event)
    requires BaselinesOk(s) && Enabled(s, e)
    requires !OfBaselines(e) && !e.ClaimGate? && !e.DriverProvisioned? && !e.RegisterFails? && !e.RegisterLeaves?
    ensures BaselinesOk(Step(s, e))
  {
    var r := Step(s, e);
    assert r.baselines == s.baselines && r.serial == s.serial;
    assert DevicesGrow(s, r);
    DropKept(s, r);
  }

  lemma {:induction false} BaselineRunOk(start: State, events: seq<Event>)
    requires Initial(start)
    ensures BaselinesOk(Run(start, events))
  {
    if events != [] {
      BaselineRunOk(start, events[..|events| - 1]);
      BaselineStepOk(Run(start, events[..|events| - 1]), events[|events| - 1]);
    }
  }

  // ---------------------------------------------------------------- theorems

  /** The version number of the newest row, 0 when the name has none. */
  function NewestVersion(b: Baselines, name: string): nat {
    match Current(b, name) case None => 0 case Some(row) => row.version
  }

  /**
   * From the check to the destroy of its source, a version being dropped as replaced is not the
   * newest, no provision holds it or can begin to, and the list the pass read has no live device
   * of it: a live device of it was registered after that list was read.
   */
  lemma DroppedVersionIsOldAndUnheld(start: State, events: seq<Event>)
    requires Initial(start) && Run(start, events).serial.Dropping?
    ensures var s := Run(start, events);
            var row := s.serial.row;
            && HasRow(s.baselines, row) && row.version < NewestVersion(s.baselines, row.name)
            && OpenHolds(s.provisions, row) == {}
            && (forall d :: d in s.serial.list && s.serial.list[d].live ==> s.serial.list[d].baseline != Some(row))
            && (forall d :: d in s.devices && s.devices[d].live && s.devices[d].baseline == Some(row) ==>
                  d !in s.serial.list)
  {
    BaselineRunOk(start, events);
    RunOk(start, events);
    var s := Run(start, events);
    assert HoldsCounted(s, s.serial.row);
  }

  /**
   * No step but a remove of the name takes its newest row or lowers its newest version, and a
   * save makes exactly the next version.
   */
  lemma {:induction false} NewestSurvives(s: State, e: Event, name: string)
    requires BaselinesOk(s)
    requires !(e.RemoveSourceDestroyed? && s.serial == Removing(name))
    ensures NewestVersion(Step(s, e).baselines, name) >= NewestVersion(s.baselines, name)
    ensures Enabled(s, e) && e.SaveInserts? && s.serial.name == name ==>
              NewestVersion(Step(s, e).baselines, name) == NewestVersion(s.baselines, name) + 1
  {
    if Enabled(s, e) {
      if e == SourceDestroyed(true) {
        DropKeepsNewest(s, name);
      } else if e.SaveInserts? {
        InsertIsNext(s.baselines, s.serial.name, e.source, name);
      } else if e == RemoveSourceDestroyed(true) {
        RemoveKeepsOthers(s, name);
      } else {
        RowsUntouched(s, e);
      }
    }
  }

  lemma DropKeepsNewest(s: State, name: string)
    requires BaselinesOk(s) && s.serial.Dropping?
    ensures NewestVersion(Step(s, SourceDestroyed(true)).baselines, name) == NewestVersion(s.baselines, name)
  {
    DropDeletes(s);
    ReplacedIsOlder(s.baselines, s.serial.row);
    DeleteKeepsNewest(s.baselines, s.serial.row, name);
  }

  lemma DropDeletes(s: State)
    requires s.serial.Dropping?
    ensures Step(s, SourceDestroyed(true)).baselines == DeleteRow(s.baselines, s.serial.row)
  {
  }

  lemma RemoveKeepsOthers(s: State, name: string)
    requires Enabled(s, RemoveSourceDestroyed(true)) && s.serial != Removing(name)
    ensures NewestVersion(Step(s, RemoveSourceDestroyed(true)).baselines, name) == NewestVersion(s.baselines, name)
  {
    var rows := RowsOf(s.baselines, s.serial.name);
    RowsAfterDelete(s.baselines, HoldKey(s.serial.name, rows[0].version), name);
  }

  lemma DeleteKeepsNewest(b: Baselines, key: HoldKey, name: string)
    requires VersionsAscend(RowsOf(b, key.name))
    requires RowsOf(b, key.name) != [] && RowsOf(b, key.name)[|RowsOf(b, key.name)| - 1].version != key.version
    ensures NewestVersion(DeleteRow(b, key), name) == NewestVersion(b, name)
  {
    RowsAfterDelete(b, key, name);
    if name == key.name {
      WithoutVersionLast(RowsOf(b, name), key.version);
    }
  }

  lemma InsertIsNext(b: Baselines, saved: string, source: nat, name: string)
    ensures NewestVersion(Insert(b, saved, source), name)
            == NewestVersion(b, name) + (if name == saved then 1 else 0)
  {
  }

  lemma RowsUntouched(s: State, e: Event)
    requires e != SourceDestroyed(true) && e != RemoveSourceDestroyed(true) && !e.SaveInserts?
    ensures Step(s, e).baselines.rows == s.baselines.rows
  {
    if OfBaselines(e) {
      TasksKeepRows(s, e);
    } else {
      OthersKeepSerial(s, e);
    }
  }

  lemma TasksKeepRows(s: State, e: Event)
    requires OfBaselines(e) && e != SourceDestroyed(true) && e != RemoveSourceDestroyed(true) && !e.SaveInserts?
    ensures Step(s, e).baselines.rows == s.baselines.rows
  {
  }

  /** Nothing but the tasks themselves touches the rows or the task. */
  lemma OthersKeepSerial(s: State, e: Event)
    requires !OfBaselines(e)
    ensures Step(s, e).baselines.rows == s.baselines.rows && Step(s, e).serial == s.serial
  {
  }

  lemma OnlyRemoveStarts(s: State, e: Event, name: string)
    requires s.serial != Removing(name) && e != RemoveStarts(name)
    ensures Step(s, e).serial != Removing(name)
  {
    if !OfBaselines(e) {
      OthersKeepSerial(s, e);
    } else if e.DropStarts? {
      NextDropNeverRemoves(s.baselines, e.order, s.devices);
    } else if e.SourceDestroyed? && s.serial.Dropping? {
      NextDropNeverRemoves(DeleteRow(s.baselines, s.serial.row), s.serial.pending, s.serial.list);
    }
  }

  lemma {:induction false} NextDropNeverRemoves(b: Baselines, pending: seq<HoldKey>, list: map<nat, Device>)
    ensures !NextDrop(b, pending, list).Removing?
  {
    if pending != [] {
      NextDropNeverRemoves(b, pending[1..], list);
    }
  }

  /** Between two removes of a name its newest version never goes back. */
  lemma {:induction false} VersionsNeverGoBack(start: State, before: seq<Event>, after: seq<Event>, name: string)
    requires Initial(start) && Run(start, before).serial != Removing(name)
    requires RemoveStarts(name) !in after
    ensures NewestVersion(Run(start, before + after).baselines, name)
            >= NewestVersion(Run(start, before).baselines, name)
    ensures Run(start, before + after).serial != Removing(name)
    decreases |after|
  {
    if after == [] {
      assert before + after == before;
    } else {
      var most := after[..|after| - 1];
      var e := after[|after| - 1];
      VersionsNeverGoBack(start, before, most, name);
      LastOf(before, after);
      BaselineRunOk(start, before + most);
      NewestSurvives(Run(start, before + most), e, name);
      OnlyRemoveStarts(Run(start, before + most), e, name);
    }
  }

  /** Two saves of a name with no remove of it between them: the later version is the greater. */
  lemma SavedVersionsIncrease(
    start: State, first: seq<Event>, between: seq<Event>, name: string, source: nat, later: nat)
    requires Initial(start) && RemoveStarts(name) !in between
    requires Run(start, first).serial == Saving(name)
    requires Run(start, first + [SaveInserts(source)] + between).serial == Saving(name)
    ensures var saved := Run(start, first + [SaveInserts(source)]);
            var again := Run(start, first + [SaveInserts(source)] + between + [SaveInserts(later)]);
            && NewestVersion(again.baselines, name) > NewestVersion(saved.baselines, name)
            && NewestVersion(saved.baselines, name) > NewestVersion(Run(start, first).baselines, name)
  {
    var saved := first + [SaveInserts(source)];
    BaselineRunOk(start, first);
    RunExtends(start, first, SaveInserts(source));
    NewestSurvives(Run(start, first), SaveInserts(source), name);
    assert Run(start, saved).serial == Saved;
    VersionsNeverGoBack(start, saved, between, name);
    BaselineRunOk(start, saved + between);
    RunExtends(start, saved + between, SaveInserts(later));
    NewestSurvives(Run(start, saved + between), SaveInserts(later), name);
  }

  lemma RunExtends(start: State, events: seq<Event>, e: Event)
    ensures Run(start, events + [e]) == Step(Run(start, events), e)
  {
    assert (events + [e])[..|events|] == events;
  }
}
