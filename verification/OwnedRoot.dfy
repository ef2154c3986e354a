/**
 * `ensureOwnedRoot` as one call on a file system it changes in place, with what others do to the root
 * between its calls.
 */
module OwnedRoot {
  import opened Common
  import opened DeviceRoot

  /** Which of the calls of one run fail. */
  datatype Faults = Faults(
    look: Fault, parent: Fault, mkdir: Fault, chmod: Fault, temp: Fault, marker: Fault, rename: Fault,
    discard: Fault, again: Fault, directory: Fault, markerLook: Fault, read: Fault)

  const NO_FAULTS: Faults :=
    Faults(NoFault, NoFault, NoFault, NoFault, NoFault, NoFault,
           NoFault, NoFault, NoFault, NoFault, NoFault, NoFault)

  /** A call that making a root cannot do without fails, or its rename fails with more than a denial. */
  predicate CannotMake(f: Faults) {
    || f.parent != NoFault || f.mkdir != NoFault || f.chmod != NoFault || f.temp != NoFault || f.marker != NoFault
    || f.rename == OtherFault
  }

  /** What others have made of the root by the time of a call, where they touch it. */
  datatype Others = Others(
    rename: Option<Node>, again: Option<Node>, directory: Option<Node>, marker: Option<Node>, read: Option<Node>)

  /** Others touch the root before the rename at most. */
  predicate CalmAfterRename(o: Others) {
    o.again.None? && o.directory.None? && o.marker.None? && o.read.None?
  }

  function Disturbed(root: Node, change: Option<Node>): Node {
    if change.Some? && OutsideMay(root, change.value) then change.value else root
  }

  /** `validateMarker` on a root that passed the directory checks. */
  function CheckMarker(c: Context, dir: Dir): Option<Reason> {
    if dir.marker == NoMarker then Some(if dir.entries == {} then MissingMarker else NonEmptyUnownedRoot)
    else if dir.marker == MarkerLink then Some(LinkRefused)
    else CheckMarkerText(c, dir.marker)
  }

  /** The answer an existing root deserves: `None` accepts it. */
  function ExistingVerdict(c: Context, root: Node): Option<Reason> {
    if CheckDirectory(c, root).Some? then CheckDirectory(c, root)
    else if root.Directory? then CheckMarker(c, root.dir) else None
  }

  /** An existing root is accepted exactly when it is the asking instance's own, private directory. */
  lemma AcceptedExactlyWhenOwn(c: Context, root: Node)
    ensures ExistingVerdict(c, root) == None <==>
              && HoldsOwn(root, c) && c.instanceId != ""
              && (c.uid.Some? ==> root.dir.uid == c.uid.value && root.dir.mode % 64 == 0)
  {
  }

  /** What became of the attempt to create the root. */
  datatype Creation = Made | Occupied | Failed

  /** A root changed by others alone: entries and a marker may have been added, none taken away. */
  ghost predicate KeptByOthers(before: Node, after: Node) {
    after == before || OutsideMay(before, after)
  }

  /** The caller's own root as it publishes it. */
  ghost predicate PublishedOwn(root: Node, c: Context) {
    && HoldsOwn(root, c) && root.dir.entries == {} && root.dir.mode == ROOT_MODE
    && (c.uid.Some? ==> root.dir.uid == c.uid.value)
  }

  class RootFilesystem {
    var root: Node
    var staging: map<nat, Dir>

    constructor (root: Node)
      ensures this.root == root && staging == map[]
    {
      this.root, staging := root, map[];
    }

    method Rm(id: nat, fault: Fault)
      modifies this`staging
      ensures staging == if fault == NoFault then old(staging) - {id} else old(staging)
    {
      if fault == NoFault {
        staging := staging - {id};
      }
    }

    /** The first `try` of `createRoot`: makes and fills the staging directory. */
    method Assemble(c: Context, id: nat, faults: Faults) returns (ok: bool)
      modifies this`staging
      ensures staging - {id} == old(staging) - {id}
      ensures ok ==> id in staging && staging[id].marker == Complete(OwnMarker(c)) && staging[id].entries == {}
                     && staging[id].mode == ROOT_MODE && (c.uid.Some? ==> staging[id].uid == c.uid.value)
      ensures ok <==> faults.mkdir == NoFault && faults.chmod == NoFault && faults.temp == NoFault
                      && faults.marker == NoFault
    {
      if faults.mkdir != NoFault {
        return false;
      }
      staging := staging[id := Dir(NoMarker, {}, if c.uid.Some? then c.uid.value else 0, 0)];
      if faults.chmod != NoFault {
        return false;
      }
      staging := staging[id := staging[id].(mode := ROOT_MODE)];
      if faults.temp != NoFault {
        return false;
      }
      staging := staging[id := staging[id].(entries := {TEMP_FILE})];
      if faults.marker != NoFault {
        return false;
      }
      staging := staging[id := staging[id].(entries := {}, marker := Complete(OwnMarker(c)))];
      ok := true;
    }

    /** The `rename` that publishes a staging directory; the answer is the fault it met. */
    method Publish(id: nat, fault: Fault) returns (published: bool)
      requires id in staging
      modifies this
      ensures published <==> fault == NoFault && Replaceable(old(root))
      ensures root == if published then Directory(old(staging)[id]) else old(root)
      ensures staging == if published then old(staging) - {id} else old(staging)
    {
      published := fault == NoFault && (root == Missing || (root.Directory? && Empty(root.dir)));
      if published {
        root := Directory(staging[id]);
        staging := staging - {id};
      }
    }

    /** What others do between two calls. */
    method Disturb(change: Option<Node>)
      modifies this`root
      ensures root == Disturbed(old(root), change)
      ensures OutsideMay(old(root), root) || root == old(root)
    {
      if change.Some? && OutsideMay(root, change.value) {
        root := change.value;
      }
    }

    /** `validateRootDirectory` and `validateMarker` on a root this call did not make. */
    method ValidateExisting(c: Context, faults: Faults, others: Others) returns (refused: Option<Reason>)
      modifies this`root
      ensures refused == None ==> HoldsOwn(root, c)
      ensures faults.directory != NoFault ==> refused == Some(Unreadable)
      ensures KeptByOthers(old(root), root)
      ensures CalmAfterRename(others) && faults == NO_FAULTS ==>
                root == old(root) && (old(root) != Missing ==> refused == ExistingVerdict(c, root))
    {
      Disturb(others.directory);
      if faults.directory != NoFault {
        return Some(Unreadable);
      }
      refused := CheckDirectory(c, root);
      if refused.Some? {
        return;
      }
      Disturb(others.marker);
      if faults.markerLook != NoFault {
        return Some(Unreadable);
      }
      if root.dir.marker == NoMarker || root.dir.marker == MarkerLink {
        return CheckMarker(c, root.dir);
      }
      Disturb(others.read);
      if faults.read != NoFault {
        return Some(InvalidMarker);
      }
      refused := CheckMarkerText(c, root.dir.marker);
    }

    /** `createRoot` on a root that was missing: made, occupied by another, or failed. */
    method CreateRoot(c: Context, id: nat, faults: Faults, others: Others) returns (created: Creation)
      requires root == Missing && id !in staging
      modifies this
      ensures staging - {id} == old(staging) && (faults.discard == NoFault ==> staging == old(staging))
      ensures created == Made ==> PublishedOwn(root, c)
      ensures created == Occupied ==> root != Missing
      ensures CannotMake(faults) ==> created == Failed
      ensures faults == NO_FAULTS && CalmAfterRename(others) ==>
                var found := Disturbed(Missing, others.rename);
                created == (if Replaceable(found) then Made else Occupied) && (created == Occupied ==> root == found)
    {
      if faults.parent != NoFault {
        return Failed;
      }
      var assembled := Assemble(c, id, faults);
      if !assembled {
        Rm(id, faults.discard);
        return Failed;
      }
      Disturb(others.rename);
      var published := Publish(id, faults.rename);
      if published {
        return Made;
      }
      Rm(id, faults.discard);
      if faults.rename == NoFault {
        return Occupied;
      }
      if faults.rename == OtherFault {
        return Failed;
      }
      // The same refusal means a lost race or a real denial, so whether the root is there now decides.
      Disturb(others.again);
      created := if faults.again == NoFault && root != Missing then Occupied else Failed;
    }

    /**
     * Accepts with `None`, or gives the reason it refuses. Whatever fails and whatever others do
     * meanwhile: an accepted root holds the caller's own complete marker; a root that was there is not
     * written by this call; no other staging directory is touched. Without failures, and with others
     * still after the rename, a missing root is made, or, where another was first, answered like any
     * existing root.
     */
    method EnsureOwnedRoot(c: Context, id: nat, faults: Faults, others: Others) returns (refused: Option<Reason>)
      requires id !in staging
      modifies this
      ensures refused == None ==> HoldsOwn(root, c)
      ensures old(root) != Missing ==> KeptByOthers(old(root), root) && staging == old(staging)
      ensures staging - {id} == old(staging)
      ensures faults.discard == NoFault ==> staging == old(staging)
      ensures faults.look != NoFault || faults.directory != NoFault ==> refused == Some(Unreadable)
      ensures old(root) == Missing && CannotMake(faults) ==> refused == Some(Unreadable)
      ensures faults == NO_FAULTS && CalmAfterRename(others) ==>
                var found := if old(root) == Missing then Disturbed(Missing, others.rename) else old(root);
                refused == if old(root) == Missing && Replaceable(found) then None else ExistingVerdict(c, found)
    {
      if faults.look != NoFault {
        return Some(Unreadable);
      }
      if root != Missing {
        refused := ValidateExisting(c, faults, others);
        return;
      }
      var created := CreateRoot(c, id, faults, others);
      if created == Failed {
        return Some(Unreadable);
      }
      if created == Occupied {
        refused := ValidateExisting(c, faults, others);
        return;
      }
      Disturb(others.directory);
      refused := if faults.directory != NoFault then Some(Unreadable) else CheckDirectory(c, root);
    }
  }
}
