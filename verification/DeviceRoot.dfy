/**
 * `ensureOwnedRoot` of `src/core/device-root.ts`: a device root is assembled in a staging
 * directory and published by one rename, while other daemons do the same and any of them may
 * crash between two file system calls.
 */
module DeviceRoot {
  import opened Common

  type Name = string

  datatype Marker = Marker(instanceId: string, platform: string)

  /** The marker file: `Unusable` is any text that does not parse as a marker. */
  datatype MarkerFile = NoMarker | MarkerLink | Unusable | Complete(marker: Marker)

  /** A directory: its marker, its other entries, its owner and its permission bits. */
  datatype Dir = Dir(marker: MarkerFile, entries: set<Name>, uid: int, mode: nat)

  datatype Node = Missing | Symlink | OtherFile | Directory(dir: Dir)

  predicate Empty(dir: Dir) {
    dir.marker == NoMarker && dir.entries == {}
  }

  /** What `rename` onto the root replaces: nothing, or an empty directory. */
  predicate Replaceable(root: Node) {
    root == Missing || (root.Directory? && Empty(root.dir))
  }

  const ROOT_MODE: nat := 448
  const TEMP_FILE: Name := "temporary"

  datatype Reason =
    MissingMarker | InvalidMarker | WrongInstance | LinkRefused | WrongOwner | WrongPermissions
    | NonEmptyUnownedRoot | Unreadable

  /** The daemon asking: a platform without uids has none. */
  datatype Context = Context(instanceId: string, platform: string, uid: Option<int>)

  /** `validateRootDirectory` on what `lstat` of the root answers; the mode bits beyond the owner's
      are those of 0o077. */
  function CheckDirectory(c: Context, root: Node): Option<Reason> {
    match root
    case Missing => Some(MissingMarker)
    case Symlink => Some(LinkRefused)
    case OtherFile => Some(NonEmptyUnownedRoot)
    case Directory(dir) =>
      if c.uid.Some? && dir.uid != c.uid.value then Some(WrongOwner)
      else if c.uid.Some? && dir.mode % 64 != 0 then Some(WrongPermissions)
      else None
  }

  /** `isOwnedRootMarker` and the instance check. */
  function CheckMarkerText(c: Context, file: MarkerFile): Option<Reason> {
    if !file.Complete? || file.marker.platform != c.platform || file.marker.instanceId == "" then Some(InvalidMarker)
    else if file.marker.instanceId != c.instanceId then Some(WrongInstance)
    else None
  }

  // ---------------------------------------------------------------- daemons

  /** Where `ensureOwnedRoot` is suspended. `Discarding` cleans up and then goes on as `after`. */
  datatype Point =
    | LookingAtRoot
    | MakingParent
    | MakingStaging
    | SettingMode
    | WritingTemp
    | WritingMarker
    | Renaming
    | Discarding(after: AfterDiscard)
    | LookingAgain
    | CheckingDirectory(created: bool)
    | CheckingMarker
    | ReadingMarker
    | Accepted
    | Rejected(reason: Reason)
    | Crashed

  datatype AfterDiscard = GiveUp | LostRace | PerhapsLostRace

  datatype Daemon = Daemon(context: Context, point: Point, staging: Option<nat>)

  /** A file system call that fails: `Denied` is EPERM or EACCES. */
  datatype Fault = NoFault | Denied | OtherFault

  /** `staging` holds the sibling directories by the id their name was generated with. */
  datatype State = State(root: Node, staging: map<nat, Dir>, used: set<nat>, daemons: seq<Daemon>)

  datatype Event =
    | Starts(context: Context)
    | Call(d: nat, fault: Fault, id: nat)
    | Crash(d: nat)
    | Outside(root: Node)

  /** What others may do to the root: make one where there is none, add entries, change owner or
      mode, put a marker where there is none. They do not delete it or change a marker. */
  predicate OutsideMay(before: Node, after: Node) {
    match before
    case Missing => true
    case Directory(dir) =>
      after.Directory? && dir.entries <= after.dir.entries
      && (dir.marker != NoMarker ==> after.dir.marker == dir.marker)
    case _ => after == before
  }

  function OwnMarker(c: Context): Marker {
    Marker(c.instanceId, c.platform)
  }

  function Move(s: State, d: nat, point: Point): State
    requires d < |s.daemons|
  {
    s.(daemons := s.daemons[d := s.daemons[d].(point := point)])
  }

  function Verdict(s: State, d: nat, refused: Option<Reason>, next: Point): State
    requires d < |s.daemons|
  {
    Move(s, d, if refused.Some? then Rejected(refused.value) else next)
  }

  /** The staging directory of a daemon that is assembling one. */
  predicate Assembling(s: State, d: nat) {
    d < |s.daemons| && s.daemons[d].staging.Some? && s.daemons[d].staging.value in s.staging
  }

  function WithStaging(s: State, d: nat, dir: Dir): State
    requires Assembling(s, d)
  {
    s.(staging := s.staging[s.daemons[d].staging.value := dir])
  }

  /** One file system call of a daemon and what it does up to the next one. */
  function CallStep(s: State, d: nat, fault: Fault, id: nat): State
    requires d < |s.daemons|
  {
    var me := s.daemons[d];
    var failed := fault != NoFault;
    match me.point
    case LookingAtRoot =>
      if failed then Move(s, d, Rejected(Unreadable))
      else Move(s, d, if s.root == Missing then MakingParent else CheckingDirectory(false))
    case MakingParent => Move(s, d, if failed then Rejected(Unreadable) else MakingStaging)
    case MakingStaging =>
      // The name is taken from the id generator, so it is one no daemon has used.
      if id in s.used then s
      else
        var named := s.(used := s.used + {id}, daemons := s.daemons[d := me.(staging := Some(id))]);
        if failed then Move(named, d, Discarding(GiveUp))
        else
          var uid := if me.context.uid.Some? then me.context.uid.value else 0;
          Move(named.(staging := s.staging[id := Dir(NoMarker, {}, uid, 0)]), d, SettingMode)
    case SettingMode =>
      // Until now the mode is what the umask left of the one asked for.
      if failed || !Assembling(s, d) then Move(s, d, Discarding(GiveUp))
      else Move(WithStaging(s, d, s.staging[me.staging.value].(mode := ROOT_MODE)), d, WritingTemp)
    case WritingTemp =>
      if failed || !Assembling(s, d) then Move(s, d, Discarding(GiveUp))
      else
        var dir := s.staging[me.staging.value];
        Move(WithStaging(s, d, dir.(entries := dir.entries + {TEMP_FILE})), d, WritingMarker)
    case WritingMarker =>
      if failed || !Assembling(s, d) then Move(s, d, Discarding(GiveUp))
      else
        var dir := s.staging[me.staging.value];
        var marked := dir.(entries := dir.entries - {TEMP_FILE}, marker := Complete(OwnMarker(me.context)));
        Move(WithStaging(s, d, marked), d, Renaming)
    case Renaming =>
      if fault == Denied then Move(s, d, Discarding(PerhapsLostRace))
      else if failed || !Assembling(s, d) then Move(s, d, Discarding(GiveUp))
      else if !Replaceable(s.root) then Move(s, d, Discarding(LostRace))
      else Move(s.(root := Directory(s.staging[me.staging.value]), staging := s.staging - {me.staging.value}),
                d, CheckingDirectory(true))
    case Discarding(after) =>
      var left := if failed || !Assembling(s, d) then s else s.(staging := s.staging - {me.staging.value});
      Move(left, d, match after
                    case GiveUp => Rejected(Unreadable)
                    case LostRace => CheckingDirectory(false)
                    case PerhapsLostRace => LookingAgain)
    case LookingAgain =>
      Move(s, d, if failed || s.root == Missing then Rejected(Unreadable) else CheckingDirectory(false))
    case CheckingDirectory(created) =>
      if failed then Move(s, d, Rejected(Unreadable))
      else Verdict(s, d, CheckDirectory(me.context, s.root), if created then Accepted else CheckingMarker)
    case CheckingMarker =>
      if failed || !s.root.Directory? then Move(s, d, Rejected(Unreadable))
      else if s.root.dir.marker == NoMarker
      then Move(s, d, Rejected(if s.root.dir.entries == {} then MissingMarker else NonEmptyUnownedRoot))
      else if s.root.dir.marker == MarkerLink then Move(s, d, Rejected(LinkRefused))
      else Move(s, d, ReadingMarker)
    case ReadingMarker =>
      if failed || !s.root.Directory? then Move(s, d, Rejected(InvalidMarker))
      else Verdict(s, d, CheckMarkerText(me.context, s.root.dir.marker), Accepted)
    case Accepted => s
    case Rejected(_) => s
    case Crashed => s
  }

  function Step(s: State, e: Event): State {
    match e
    case Starts(context) => s.(daemons := s.daemons + [Daemon(context, LookingAtRoot, None)])
    case Call(d, fault, id) => if d < |s.daemons| then CallStep(s, d, fault, id) else s
    case Crash(d) =>
      // A call that has returned stays returned.
      if d >= |s.daemons| || s.daemons[d].point == Accepted || s.daemons[d].point.Rejected? then s
      else Move(s, d, Crashed)
    case Outside(root) => if OutsideMay(s.root, root) then s.(root := root) else s
  }

  /** The root may be anything when the first daemon starts. */
  function Start(root: Node): State {
    State(root, map[], {}, [])
  }

  function Run(root: Node, events: seq<Event>): State {
    if events == [] then Start(root) else Step(Run(root, events[..|events| - 1]), events[|events| - 1])
  }

  // ---------------------------------------------------------------- what every run keeps

  ghost predicate HoldsOwn(root: Node, c: Context) {
    root.Directory? && root.dir.marker == Complete(OwnMarker(c))
  }

  ghost predicate DaemonOk(s: State, d: nat)
    requires d < |s.daemons|
  {
    var me := s.daemons[d];
    && (me.staging.Some? ==> me.staging.value in s.used)
    && (me.point == Renaming ==>
          && me.staging.Some? && me.staging.value in s.staging
          && s.staging[me.staging.value].marker == Complete(OwnMarker(me.context)))
    && (me.point == CheckingDirectory(true) || me.point == Accepted ==> HoldsOwn(s.root, me.context))
  }

  /** No two daemons ever share a staging directory. */
  ghost predicate OwnStaging(s: State) {
    forall a, b :: 0 <= a < b < |s.daemons| && s.daemons[a].staging.Some? ==>
      s.daemons[a].staging != s.daemons[b].staging
  }

  ghost predicate Inv(s: State) {
    && OwnStaging(s)
    && (forall d: nat :: d < |s.daemons| ==> DaemonOk(s, d))
    && (forall id :: id in s.staging ==> id in s.used)
  }

  /** A root that has a marker keeps it. */
  ghost predicate MarkerKept(before: Node, after: Node) {
    before.Directory? && before.dir.marker != NoMarker ==> after.Directory? && after.dir.marker == before.dir.marker
  }

  /** A daemon's call touches only its own staging directory, and the root only by replacing
      nothing or an empty directory with that staging directory. */
  ghost predicate TouchesOnlyItsOwn(s: State, r: State, d: nat)
    requires d < |s.daemons|
  {
    && |r.daemons| == |s.daemons|
    && (forall o: nat :: o < |s.daemons| && o != d ==> r.daemons[o] == s.daemons[o])
    && (forall id :: id in s.staging && Some(id) != s.daemons[d].staging ==>
          id in r.staging && r.staging[id] == s.staging[id])
    && (forall id :: id in r.staging && id !in s.staging ==> id !in s.used && r.daemons[d].staging == Some(id))
    && (!Replaceable(s.root) ==> r.root == s.root)
    && (r.root != s.root ==> s.daemons[d].point == Renaming && Assembling(s, d)
                             && r.root == Directory(s.staging[s.daemons[d].staging.value]))
  }

  lemma CallTouches(s: State, d: nat, fault: Fault, id: nat)
    requires Inv(s) && d < |s.daemons|
    ensures TouchesOnlyItsOwn(s, CallStep(s, d, fault, id), d)
  {
    match s.daemons[d].point
    case MakingStaging =>
    case SettingMode =>
    case WritingTemp =>
    case WritingMarker =>
    case Renaming =>
    case Discarding(_) =>
    case _ =>
  }

  lemma CallKeepsMarker(s: State, d: nat, fault: Fault, id: nat)
    requires Inv(s) && d < |s.daemons|
    ensures MarkerKept(s.root, CallStep(s, d, fault, id).root)
  {
    CallTouches(s, d, fault, id);
  }

  /** The calling daemon itself is in order after its call. */
  lemma CallerOk(s: State, d: nat, fault: Fault, id: nat)
    requires Inv(s) && d < |s.daemons|
    ensures DaemonOk(CallStep(s, d, fault, id), d)
  {
    assert DaemonOk(s, d);
  }

  lemma CallOk(s: State, d: nat, fault: Fault, id: nat)
    requires Inv(s) && d < |s.daemons|
    ensures Inv(CallStep(s, d, fault, id))
  {
    var r := CallStep(s, d, fault, id);
    CallTouches(s, d, fault, id);
    CallKeepsMarker(s, d, fault, id);
    CallerOk(s, d, fault, id);
    UsedGrows(s, d, fault, id);
    forall o: nat | o < |r.daemons|
      ensures DaemonOk(r, o)
    {
      if o != d {
        assert DaemonOk(s, o);
        assert s.daemons[o].staging.Some? ==> s.daemons[o].staging != s.daemons[d].staging;
      }
    }
    assert OwnStaging(r) by {
      forall a, b | 0 <= a < b < |r.daemons| && r.daemons[a].staging.Some?
        ensures r.daemons[a].staging != r.daemons[b].staging
      {
        assert DaemonOk(s, a) && DaemonOk(s, b);
      }
    }
  }

  lemma UsedGrows(s: State, d: nat, fault: Fault, id: nat)
    requires Inv(s) && d < |s.daemons|
    ensures var r := CallStep(s, d, fault, id);
            && s.used <= r.used && (forall i :: i in r.staging ==> i in r.used)
            && (r.daemons[d].staging == s.daemons[d].staging || (r.daemons[d].staging == Some(id) && id !in s.used))
  {
  }

  lemma StepOk(s: State, e: Event)
    requires Inv(s)
    ensures Inv(Step(s, e)) && MarkerKept(s.root, Step(s, e).root)
  {
    var r := Step(s, e);
    match e
    case Call(d, fault, id) =>
      if d < |s.daemons| {
        CallOk(s, d, fault, id);
        CallKeepsMarker(s, d, fault, id);
      }
    case Starts(context) =>
      forall d: nat | d < |r.daemons| ensures DaemonOk(r, d) { assert d < |s.daemons| ==> DaemonOk(s, d); }
    case Crash(c) =>
      forall d: nat | d < |r.daemons| ensures DaemonOk(r, d) { assert DaemonOk(s, d); }
    case Outside(root) =>
      forall d: nat | d < |r.daemons| ensures DaemonOk(r, d) { assert DaemonOk(s, d); }
  }

  lemma {:induction false} RunOk(root: Node, events: seq<Event>)
    ensures Inv(Run(root, events))
  {
    if events != [] {
      RunOk(root, events[..|events| - 1]);
      StepOk(Run(root, events[..|events| - 1]), events[|events| - 1]);
    }
  }

  // ---------------------------------------------------------------- theorems

  /**
   * In every run, a daemon's call leaves a root that is not empty as it is, removes no staging
   * directory but its own, and changes the root only by publishing its own directory, complete
   * marker included, over nothing or over an empty directory.
   */
  lemma CallsAreContained(root: Node, events: seq<Event>, d: nat, fault: Fault, id: nat)
    requires d < |Run(root, events).daemons|
    ensures var s := Run(root, events);
            var r := Step(s, Call(d, fault, id));
            && (!Replaceable(s.root) ==> r.root == s.root)
            && (r.root != s.root ==> HoldsOwn(r.root, s.daemons[d].context))
            && (forall o: nat :: o < |s.daemons| && o != d && Assembling(s, o) ==>
                  Assembling(r, o) && r.daemons[o] == s.daemons[o]
                  && r.staging[s.daemons[o].staging.value] == s.staging[s.daemons[o].staging.value])
  {
    RunOk(root, events);
    var s := Run(root, events);
    CallTouches(s, d, fault, id);
    assert DaemonOk(s, d);
  }

  /** A marker on the root, once there, is there in every later state. */
  lemma {:induction false} MarkerStays(root: Node, events: seq<Event>, more: seq<Event>)
    ensures MarkerKept(Run(root, events).root, Run(root, events + more).root)
    decreases |more|
  {
    if more == [] {
      assert events + more == events;
    } else {
      var most := more[..|more| - 1];
      MarkerStays(root, events, most);
      RunOk(root, events + most);
      StepOk(Run(root, events + most), more[|more| - 1]);
      LastOf(events, more);
    }
  }

  /** A root this code publishes holds the publisher's complete marker from then on. */
  lemma PublishedRootStaysMarked(root: Node, events: seq<Event>, d: nat, fault: Fault, id: nat, more: seq<Event>)
    requires d < |Run(root, events).daemons|
    requires Run(root, events + [Call(d, fault, id)]).root != Run(root, events).root
    ensures HoldsOwn(Run(root, events + [Call(d, fault, id)] + more).root, Run(root, events).daemons[d].context)
  {
    var published := events + [Call(d, fault, id)];
    assert published[..|published| - 1] == events;
    CallsAreContained(root, events, d, fault, id);
    MarkerStays(root, published, more);
  }

  /** Two daemons that both accept the root have one instance id and one platform. */
  lemma AcceptedByOneInstance(root: Node, events: seq<Event>, a: nat, b: nat)
    requires a < |Run(root, events).daemons| && b < |Run(root, events).daemons|
    requires Run(root, events).daemons[a].point == Accepted == Run(root, events).daemons[b].point
    ensures Run(root, events).daemons[a].context.instanceId == Run(root, events).daemons[b].context.instanceId
    ensures Run(root, events).daemons[a].context.platform == Run(root, events).daemons[b].context.platform
  {
    RunOk(root, events);
    assert DaemonOk(Run(root, events), a) && DaemonOk(Run(root, events), b);
  }
}
