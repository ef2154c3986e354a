/** How the versions and the tasks of baselines go on: which answer adds or deletes which version. */
module BaselineOutcomes {
  import opened Common
  import opened Worker
  import opened WorkerRuns
  import opened BaselineRuns

  // ---------------------------------------------------------------- versions

  /** The event can happen and saves this version: the one after the newest of the name being saved. */
  ghost predicate Saves(s: State, e: Event, key: HoldKey) {
    && Enabled(s, e) && e.SaveInserts? && s.serial.name == key.name
    && key.version == NewestVersion(s.baselines, key.name) + 1
  }

  /** The event can happen and deletes this version: its source was destroyed for the pass that drops it, or
      for a remove of its name that has come to it. */
  ghost predicate Removes(s: State, e: Event, key: HoldKey) {
    && Enabled(s, e)
    && (|| (e == SourceDestroyed(true) && s.serial.row == key)
        || (&& e == RemoveSourceDestroyed(true) && s.serial.name == key.name
            && key.version == RowsOf(s.baselines, key.name)[0].version))
  }

  /** A version is there after the step exactly if it was there and is not deleted, or is saved. */
  ghost predicate RowsRight(s: State, r: State, e: Event, key: HoldKey) {
    HasRow(r.baselines, key) <==> (HasRow(s.baselines, key) && !Removes(s, e, key)) || Saves(s, e, key)
  }

  lemma DeleteRows(b: Baselines, gone: HoldKey, key: HoldKey)
    requires RowsOk(b)
    ensures HasRow(DeleteRow(b, gone), key) <==> HasRow(b, key) && key != gone
  {
    RowsAfterDelete(b, gone, key.name);
    if key.name == gone.name {
      WithoutVersionRows(RowsOf(b, key.name), gone.version);
    }
  }

  lemma InsertRows(b: Baselines, name: string, source: nat, key: HoldKey)
    ensures HasRow(Insert(b, name, source), key) <==>
              HasRow(b, key) || (key.name == name && key.version == NewestVersion(b, name) + 1)
  {
    var rows := RowsOf(b, name);
    var longer := RowsOf(Insert(b, name, source), name);
    assert longer == rows + [longer[|rows|]];
    assert forall row :: row in longer <==> row in rows || row == longer[|rows|];
    if key.name == name && key.version == NewestVersion(b, name) + 1 {
      assert longer[|rows|] in longer && longer[|rows|].version == key.version;
    }
  }

  lemma RemoveDeletes(s: State)
    requires Enabled(s, RemoveSourceDestroyed(true))
    ensures Step(s, RemoveSourceDestroyed(true)).baselines
            == DeleteRow(s.baselines, HoldKey(s.serial.name, RowsOf(s.baselines, s.serial.name)[0].version))
  {
  }

  lemma SaveInsertsRow(s: State, source: nat)
    requires Enabled(s, SaveInserts(source))
    ensures Step(s, SaveInserts(source)).baselines == Insert(s.baselines, s.serial.name, source)
  {
  }

  lemma StepRows(s: State, e: Event, key: HoldKey)
    requires BaselinesOk(s)
    ensures RowsRight(s, Step(s, e), e, key)
  {
    if !Enabled(s, e) {
    } else if e == SourceDestroyed(true) {
      DropDeletes(s);
      DeleteRows(s.baselines, s.serial.row, key);
    } else if e == RemoveSourceDestroyed(true) {
      RemoveDeletes(s);
      DeleteRows(s.baselines, HoldKey(s.serial.name, RowsOf(s.baselines, s.serial.name)[0].version), key);
    } else if e.SaveInserts? {
      SaveInsertsRow(s, e.source);
      InsertRows(s.baselines, s.serial.name, e.source, key);
    } else {
      RowsUntouched(s, e);
    }
  }

  /**
   * In every run and for every next event: a version of a baseline appears exactly when a save of its name
   * records it, and goes exactly when its source was destroyed for a pass that drops it or for a remove of
   * its name. A source that could not be destroyed keeps its version.
   */
  lemma {:induction false} VersionsChangeExactly(start: State, events: seq<Event>, e: Event, key: HoldKey)
    requires Initial(start)
    ensures RowsRight(Run(start, events), Step(Run(start, events), e), e, key)
  {
    BaselineRunOk(start, events);
    StepRows(Run(start, events), e, key);
  }

  // ---------------------------------------------------------------- the task

  /** The first key of a list that nothing holds and no live device of the device list has. */
  ghost predicate FirstUnused(b: Baselines, pending: seq<HoldKey>, list: map<nat, Device>, k: nat) {
    && k < |pending| && Unused(b, pending[k], list)
    && forall j :: 0 <= j < k ==> !Unused(b, pending[j], list)
  }

  ghost predicate Unused(b: Baselines, key: HoldKey, list: map<nat, Device>) {
    key !in b.holds && forall d :: d in list ==> !(list[d].live && list[d].baseline == Some(key))
  }

  /** A pass over `pending` is at its first unused version, or over when there is none. */
  ghost predicate Passes(b: Baselines, pending: seq<HoldKey>, list: map<nat, Device>, task: Serial) {
    && (task == Idle <==> forall k :: 0 <= k < |pending| ==> !Unused(b, pending[k], list))
    && (task != Idle ==> exists k: nat ::
          FirstUnused(b, pending, list, k) && task == Dropping(pending[k], pending[k + 1..], list))
  }

  lemma {:induction false} NextDropPasses(b: Baselines, pending: seq<HoldKey>, list: map<nat, Device>)
    ensures Passes(b, pending, list, NextDrop(b, pending, list))
  {
    if pending != [] {
      assert InUse(b, pending[0], list) <==> !Unused(b, pending[0], list);
      if InUse(b, pending[0], list) {
        var rest, task := pending[1..], NextDrop(b, pending[1..], list);
        NextDropPasses(b, rest, list);
        assert forall k :: 0 < k < |pending| ==> pending[k] == rest[k - 1];
        if task != Idle {
          var k: nat :| FirstUnused(b, rest, list, k) && task == Dropping(rest[k], rest[k + 1..], list);
          assert FirstUnused(b, pending, list, k + 1) && rest[k + 1..] == pending[k + 2..];
        }
      } else {
        assert FirstUnused(b, pending, list, 0);
      }
    }
  }

  /** What a step makes of the one task that runs. */
  ghost predicate TaskRight(s: State, r: State, e: Event) {
    if !Enabled(s, e) || !OfBaselines(e) then r.serial == s.serial
    else match e
      case SaveStarts(name) => r.serial == Saving(name)
      case SaveInserts(_) => r.serial == Saved
      case SaveFails => r.serial == Idle
      case DropStarts(order) => Passes(s.baselines, order, s.devices, r.serial)
      case SourceDestroyed(ok) =>
        if ok then Passes(r.baselines, s.serial.pending, s.serial.list, r.serial) else r.serial == Idle
      case RemoveStarts(name) => r.serial == Removing(name)
      case RemoveSourceDestroyed(ok) =>
        if ok && |RowsOf(s.baselines, s.serial.name)| > 1 then r.serial == s.serial else r.serial == Idle
  }

  lemma StepTask(s: State, e: Event)
    ensures TaskRight(s, Step(s, e), e)
  {
    if !OfBaselines(e) {
      OthersKeepSerial(s, e);
    } else if Enabled(s, e) && e.DropStarts? {
      NextDropPasses(s.baselines, e.order, s.devices);
    } else if Enabled(s, e) && e == SourceDestroyed(true) {
      NextDropPasses(DeleteRow(s.baselines, s.serial.row), s.serial.pending, s.serial.list);
    }
  }

  /**
   * In every run the one save, drop or remove goes on as its answers say: a pass goes over every replaced
   * version in order, stops at each that nothing uses, and ends at a source it cannot destroy.
   */
  lemma {:induction false} TaskGoesOnExactly(start: State, events: seq<Event>, e: Event)
    ensures TaskRight(Run(start, events), Step(Run(start, events), e), e)
  {
    StepTask(Run(start, events), e);
  }
}
