/** Why a device root is refused: one cause for each reason, on a root and in every run. */
module RootReasons {
  import opened Common
  import opened DeviceRoot
  import opened OwnedRoot

  // ---------------------------------------------------------------- an existing root

  /** A directory only its owner may use, owned by the asking user where there are users. */
  ghost predicate PrivateTo(c: Context, root: Node) {
    root.Directory? && (c.uid.Some? ==> root.dir.uid == c.uid.value && root.dir.mode % 64 == 0)
  }

  /** A marker that says whose root it is, for the platform asked for. */
  ghost predicate Readable(c: Context, file: MarkerFile) {
    file.Complete? && file.marker.platform == c.platform && file.marker.instanceId != ""
  }

  /** The reasons of the first check. */
  ghost predicate DirectoryReason(c: Context, root: Node, reason: Reason) {
    match reason
    case MissingMarker => root == Missing
    case LinkRefused => root == Symlink
    case NonEmptyUnownedRoot => root == OtherFile
    case WrongOwner => root.Directory? && c.uid.Some? && root.dir.uid != c.uid.value
    case WrongPermissions =>
      root.Directory? && c.uid.Some? && root.dir.uid == c.uid.value && root.dir.mode % 64 != 0
    case _ => false
  }

  /** The reasons of the check of the marker's file. */
  ghost predicate FileReason(dir: Dir, reason: Reason) {
    match reason
    case MissingMarker => dir.marker == NoMarker && dir.entries == {}
    case NonEmptyUnownedRoot => dir.marker == NoMarker && dir.entries != {}
    case LinkRefused => dir.marker == MarkerLink
    case _ => false
  }

  /** The reasons of the check of the marker's text. */
  ghost predicate TextReason(c: Context, file: MarkerFile, reason: Reason) {
    match reason
    case InvalidMarker => !Readable(c, file)
    case WrongInstance => Readable(c, file) && file.marker.instanceId != c.instanceId
    case _ => false
  }

  lemma DirectoryReasonExactly(c: Context, root: Node, reason: Reason)
    ensures CheckDirectory(c, root) == Some(reason) <==> DirectoryReason(c, root, reason)
    ensures CheckDirectory(c, root) == None <==> PrivateTo(c, root)
  {
  }

  lemma TextReasonExactly(c: Context, file: MarkerFile, reason: Reason)
    ensures CheckMarkerText(c, file) == Some(reason) <==> TextReason(c, file, reason)
    ensures CheckMarkerText(c, file) == None <==> file == Complete(OwnMarker(c)) && c.instanceId != ""
  {
  }

  /**
   * An existing root is refused with a reason exactly when that reason is true of it: the checks come in the
   * order directory, marker file, marker text, and each is made only when the ones before passed.
   */
  lemma RefusedExactlyFor(c: Context, root: Node, reason: Reason)
    ensures ExistingVerdict(c, root) == Some(reason) <==>
              || DirectoryReason(c, root, reason)
              || (PrivateTo(c, root)
                  && (|| FileReason(root.dir, reason)
                      || (root.dir.marker !in {NoMarker, MarkerLink} && TextReason(c, root.dir.marker, reason))))
  {
    DirectoryReasonExactly(c, root, reason);
    if PrivateTo(c, root) {
      TextReasonExactly(c, root.dir.marker, reason);
    }
  }

  // ---------------------------------------------------------------- every run

  /** The call ends in a refusal with this reason. */
  ghost predicate Refuses(s: State, d: nat, fault: Fault, reason: Reason)
    requires d < |s.daemons|
  {
    var me := s.daemons[d];
    var there := s.root.Directory?;
    match reason
    case Unreadable =>
      || (fault != NoFault && (me.point in {LookingAtRoot, MakingParent, LookingAgain, CheckingMarker}
                               || me.point.CheckingDirectory?))
      || (me.point == LookingAgain && s.root == Missing) || (me.point == CheckingMarker && !there)
      || me.point == Discarding(GiveUp)
    case InvalidMarker =>
      me.point == ReadingMarker && (fault != NoFault || !there || TextReason(me.context, s.root.dir.marker, reason))
    case _ =>
      && fault == NoFault
      && (|| (me.point.CheckingDirectory? && DirectoryReason(me.context, s.root, reason))
          || (me.point == CheckingMarker && there && FileReason(s.root.dir, reason))
          || (me.point == ReadingMarker && there && TextReason(me.context, s.root.dir.marker, reason)))
  }

  /** The call ends in an acceptance: of the root just published, or of one that holds the caller's marker. */
  ghost predicate Accepts(s: State, d: nat, fault: Fault)
    requires d < |s.daemons|
  {
    var me := s.daemons[d];
    && fault == NoFault
    && (|| (me.point == CheckingDirectory(true) && PrivateTo(me.context, s.root))
        || (me.point == ReadingMarker && HoldsOwn(s.root, me.context) && me.context.instanceId != ""))
  }

  predicate Returned(point: Point) {
    point == Accepted || point.Rejected? || point == Crashed
  }

  /** A daemon that has not returned is refused or accepted in the step exactly for its cause. */
  ghost predicate VerdictRight(s: State, r: State, e: Event, d: nat)
    requires d < |s.daemons|
  {
    && d < |r.daemons|
    && (forall reason ::
          r.daemons[d].point == Rejected(reason) <==> e.Call? && e.d == d && Refuses(s, d, e.fault, reason))
    && (r.daemons[d].point == Accepted <==> e.Call? && e.d == d && Accepts(s, d, e.fault))
  }

  /** The steps that make and publish a root: no check is made in them. */
  predicate Making(point: Point) {
    || point in {LookingAtRoot, MakingParent, MakingStaging, SettingMode, WritingTemp, WritingMarker, Renaming}
    || point.Discarding? || point == LookingAgain
  }

  lemma MakingRight(s: State, d: nat, fault: Fault, id: nat)
    requires d < |s.daemons| && Making(s.daemons[d].point)
    ensures VerdictRight(s, CallStep(s, d, fault, id), Call(d, fault, id), d)
  {
    var point := CallStep(s, d, fault, id).daemons[d].point;
    var fails := || (fault != NoFault && s.daemons[d].point in {LookingAtRoot, MakingParent, LookingAgain})
                 || (s.daemons[d].point == LookingAgain && s.root == Missing)
                 || s.daemons[d].point == Discarding(GiveUp);
    assert point == Rejected(Unreadable) <==> fails;
    assert point == Rejected(Unreadable) || (!point.Rejected? && point != Accepted);
  }

  lemma CheckingRight(s: State, d: nat, fault: Fault, id: nat)
    requires d < |s.daemons| && s.daemons[d].point.CheckingDirectory?
    ensures VerdictRight(s, CallStep(s, d, fault, id), Call(d, fault, id), d)
  {
    var me := s.daemons[d];
    forall reason
      ensures CallStep(s, d, fault, id).daemons[d].point == Rejected(reason) <==> Refuses(s, d, fault, reason)
    {
      DirectoryReasonExactly(me.context, s.root, reason);
    }
    DirectoryReasonExactly(me.context, s.root, Unreadable);
  }

  lemma MarkerRight(s: State, d: nat, fault: Fault, id: nat)
    requires d < |s.daemons| && s.daemons[d].point in {CheckingMarker, ReadingMarker}
    ensures VerdictRight(s, CallStep(s, d, fault, id), Call(d, fault, id), d)
  {
    var me := s.daemons[d];
    if s.root.Directory? {
      forall reason
        ensures CheckMarkerText(me.context, s.root.dir.marker) == Some(reason)
                <==> TextReason(me.context, s.root.dir.marker, reason)
      {
        TextReasonExactly(me.context, s.root.dir.marker, reason);
      }
      TextReasonExactly(me.context, s.root.dir.marker, Unreadable);
    }
  }

  lemma StepVerdict(s: State, e: Event, d: nat)
    requires d < |s.daemons| && !Returned(s.daemons[d].point)
    ensures VerdictRight(s, Step(s, e), e, d)
  {
    if e.Call? && e.d == d {
      if Making(s.daemons[d].point) {
        MakingRight(s, d, e.fault, e.id);
      } else if s.daemons[d].point.CheckingDirectory? {
        CheckingRight(s, d, e.fault, e.id);
      } else {
        MarkerRight(s, d, e.fault, e.id);
      }
    }
  }

  /**
   * In every run, with crashes, faults and others at work, and for every next event: a daemon is refused with a
   * reason exactly when its own call finds that reason true of the root, or the call fails; and it is
   * accepted exactly when the root it published is private to it, or the root holds its own marker.
   */
  lemma {:induction false} VerdictsExactly(root: Node, events: seq<Event>, e: Event, d: nat)
    requires d < |Run(root, events).daemons| && !Returned(Run(root, events).daemons[d].point)
    ensures VerdictRight(Run(root, events), Step(Run(root, events), e), e, d)
  {
    StepVerdict(Run(root, events), e, d);
  }

  // ---------------------------------------------------------------- the way there

  /** The call takes a daemon to this point on the way to its verdict: each point has its own causes. */
  ghost predicate GoesTo(s: State, d: nat, fault: Fault, id: nat, point: Point)
    requires d < |s.daemons|
  {
    var me := s.daemons[d];
    var ok := fault == NoFault;
    var held := me.staging.Some? && me.staging.value in s.staging;
    match point
    case MakingParent => me.point == LookingAtRoot && ok && s.root == Missing
    case MakingStaging => me.point == MakingParent && ok
    case SettingMode => me.point == MakingStaging && ok && id !in s.used
    case WritingTemp => me.point == SettingMode && ok && held
    case WritingMarker => me.point == WritingTemp && ok && held
    case Renaming => me.point == WritingMarker && ok && held
    case Discarding(after) =>
      (match after
       case GiveUp =>
         || (me.point == MakingStaging && !ok && id !in s.used)
         || (me.point in {SettingMode, WritingTemp, WritingMarker} && !(ok && held))
         || (me.point == Renaming && fault != Denied && !(ok && held))
       case LostRace => me.point == Renaming && ok && held && !CanReplace(s.root)
       case PerhapsLostRace => me.point == Renaming && fault == Denied)
    case LookingAgain => me.point == Discarding(PerhapsLostRace)
    case CheckingDirectory(created) =>
      if created then me.point == Renaming && ok && held && CanReplace(s.root)
      else me.point == Discarding(LostRace) || (me.point in {LookingAtRoot, LookingAgain} && ok && s.root != Missing)
    case CheckingMarker => me.point == CheckingDirectory(false) && ok && PrivateTo(me.context, s.root)
    case ReadingMarker =>
      me.point == CheckingMarker && ok && s.root.Directory? && s.root.dir.marker !in {NoMarker, MarkerLink}
    case _ => false
  }

  /** `rename` succeeds onto nothing and onto an empty directory. */
  ghost predicate CanReplace(root: Node) {
    root == Missing || (root.Directory? && root.dir.marker == NoMarker && root.dir.entries == {})
  }

  lemma AssemblyGoes(s: State, d: nat, fault: Fault, id: nat, point: Point)
    requires d < |s.daemons| && !Returned(point)
    requires s.daemons[d].point in {MakingStaging, SettingMode, WritingTemp, WritingMarker, Renaming}
    ensures CallStep(s, d, fault, id).daemons[d].point == point && s.daemons[d].point != point
            <==> GoesTo(s, d, fault, id, point)
  {
  }

  lemma LookGoes(s: State, d: nat, fault: Fault, id: nat, point: Point)
    requires d < |s.daemons| && !Returned(point)
    requires s.daemons[d].point in {LookingAtRoot, MakingParent, LookingAgain} || s.daemons[d].point.Discarding?
    ensures CallStep(s, d, fault, id).daemons[d].point == point && s.daemons[d].point != point
            <==> GoesTo(s, d, fault, id, point)
  {
  }

  lemma CheckGoes(s: State, d: nat, fault: Fault, id: nat, point: Point)
    requires d < |s.daemons| && !Returned(point)
    requires s.daemons[d].point in {CheckingMarker, ReadingMarker} || s.daemons[d].point.CheckingDirectory?
    ensures CallStep(s, d, fault, id).daemons[d].point == point && s.daemons[d].point != point
            <==> GoesTo(s, d, fault, id, point)
  {
    DirectoryReasonExactly(s.daemons[d].context, s.root, Unreadable);
  }

  lemma CallGoes(s: State, d: nat, fault: Fault, id: nat, point: Point)
    requires d < |s.daemons| && !Returned(s.daemons[d].point) && !Returned(point)
    ensures CallStep(s, d, fault, id).daemons[d].point == point && s.daemons[d].point != point
            <==> GoesTo(s, d, fault, id, point)
  {
    if s.daemons[d].point in {MakingStaging, SettingMode, WritingTemp, WritingMarker, Renaming} {
      AssemblyGoes(s, d, fault, id, point);
    } else if Making(s.daemons[d].point) {
      LookGoes(s, d, fault, id, point);
    } else {
      CheckGoes(s, d, fault, id, point);
    }
  }

  /** The root after a call: the staging directory of a daemon that renames it onto nothing or onto an empty
      directory, and otherwise as it was. */
  lemma CallPublishes(s: State, d: nat, fault: Fault, id: nat)
    requires d < |s.daemons|
    ensures var r := CallStep(s, d, fault, id);
            var me := s.daemons[d];
            if GoesTo(s, d, fault, id, CheckingDirectory(true))
            then r.root == Directory(s.staging[me.staging.value])
            else r.root == s.root
  {
  }

  /** In every run a call that has not returned goes on exactly by the causes of each point, and the root changes
      by nothing but a rename that succeeds. */
  lemma {:induction false} GoesOnExactly(root: Node, events: seq<Event>, d: nat, fault: Fault, id: nat, point: Point)
    requires d < |Run(root, events).daemons| && !Returned(Run(root, events).daemons[d].point) && !Returned(point)
    ensures var s := Run(root, events);
            var r := Step(s, Call(d, fault, id));
            && (r.daemons[d].point == point && s.daemons[d].point != point <==> GoesTo(s, d, fault, id, point))
            && (r.root == if GoesTo(s, d, fault, id, CheckingDirectory(true))
                          then Directory(s.staging[s.daemons[d].staging.value]) else s.root)
  {
    CallGoes(Run(root, events), d, fault, id, point);
    CallPublishes(Run(root, events), d, fault, id);
  }
}
