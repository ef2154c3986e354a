/** What a log follower writes when the file is rotated more than once since it last looked. */
module FollowLogOvertaken {
  import opened Common
  import opened FollowLog
  import opened FollowLogRuns

  /** What the reader wrote is the log from where following began to the place it has reached. */
  ghost predicate WroteTheLog(f: Files, r: Reader) {
    Wrote(f, r.began, r.output, Generation(r), r.offset)
  }

  /** Texts one after the other. */
  function Concat(pieces: seq<string>): string {
    if pieces == [] then "" else Concat(pieces[..|pieces| - 1]) + pieces[|pieces| - 1]
  }

  lemma {:induction false} ConcatIsEmpty(pieces: seq<string>)
    ensures Concat(pieces) == "" <==> forall k :: 0 <= k < |pieces| ==> pieces[k] == ""
  {
    if pieces != [] {
      var most, last := pieces[..|pieces| - 1], pieces[|pieces| - 1];
      ConcatIsEmpty(most);
      EmptyBoth(Concat(most), last);
      assert forall k :: 0 <= k < |most| ==> most[k] == pieces[k];
    }
  }

  lemma EmptyBoth(a: string, b: string)
    ensures a + b == "" <==> a == "" && b == ""
  {
  }

  /** What is unread from a place in generation `g` to the beginning of generation `end`. */
  function Pieces(f: Files, g: nat, offset: nat, end: nat): (r: seq<string>)
    requires g < end <= |f.finished| && offset <= |f.finished[g]|
    ensures |r| == end - g
  {
    seq(end - g, k requires 0 <= k < end - g =>
      Terminated(if k == 0 then f.finished[g][offset..] else f.finished[g + k]))
  }

  function Unread(f: Files, g: nat, offset: nat, end: nat): string
    requires g < end <= |f.finished| && offset <= |f.finished[g]|
  {
    Concat(Pieces(f, g, offset, end))
  }

  lemma PiecesStep(f: Files, g: nat, offset: nat, end: nat)
    requires g + 1 < end <= |f.finished| && offset <= |f.finished[g]|
    ensures var pieces := Pieces(f, g, offset, end);
            && pieces[..|pieces| - 1] == Pieces(f, g, offset, end - 1)
            && pieces[|pieces| - 1] == Terminated(f.finished[end - 1])
  {
  }

  lemma UnreadStep(f: Files, g: nat, offset: nat, end: nat)
    requires g + 1 < end <= |f.finished| && offset <= |f.finished[g]|
    ensures Unread(f, g, offset, end) == Unread(f, g, offset, end - 1) + Terminated(f.finished[end - 1])
  {
    PiecesStep(f, g, offset, end);
  }

  lemma ConcatOne(text: string)
    ensures Concat([text]) == text
  {
    assert [text][..0] == [];
    assert "" + text == text;
  }

  lemma UnreadFirst(f: Files, g: nat, offset: nat)
    requires g < |f.finished| && offset <= |f.finished[g]|
    ensures Unread(f, g, offset, g + 1) == Terminated(f.finished[g][offset..])
  {
    var first := Terminated(f.finished[g][offset..]);
    assert Pieces(f, g, offset, g + 1) == [first];
    ConcatOne(first);
  }

  /** A log that ends where generation `g` is left off, and what is unread from there. */
  lemma {:induction false} UnreadGoesOn(f: Files, g: nat, offset: nat, end: nat, log: string)
    requires g < end <= |f.finished| && offset <= |f.finished[g]|
    requires log + Unread(f, g, offset, g + 1) == Earlier(f, g + 1)
    ensures log + Unread(f, g, offset, end) == Earlier(f, end)
    decreases end
  {
    if end > g + 1 {
      UnreadGoesOn(f, g, offset, end - 1, log);
      UnreadStep(f, g, offset, end);
      Extends(log, Unread(f, g, offset, end - 1), Earlier(f, end - 1), Terminated(f.finished[end - 1]));
    }
  }

  lemma LogAtStart(f: Files, g: nat)
    requires g <= |f.finished|
    ensures Log(f, g, 0) == Earlier(f, g)
  {
    assert Text(f, g)[..0] == "";
  }

  lemma UnreadIsTheLog(f: Files, g: nat, offset: nat, end: nat)
    requires g < end <= |f.finished| && AtLine(f.finished[g], offset)
    ensures Log(f, g, offset) + Unread(f, g, offset, end) == Log(f, end, 0)
  {
    NextGeneration(f, g, offset);
    LogAtStart(f, g + 1);
    UnreadFirst(f, g, offset);
    UnreadGoesOn(f, g, offset, end, Log(f, g, offset));
    LogAtStart(f, end);
  }

  // ---------------------------------------------------------------- what a poll adds

  /** What a quiet poll that sees a rotation adds: the newest finished file from the old offset. */
  function Added(f: Files, offset: nat): string {
    Terminated(ReadRotated(f, offset))
  }

  /** The complete lines of the current file. */
  function CurrentLines(f: Files): string {
    CompleteLines(Text(f, |f.finished|))
  }

  lemma SeesRotation(s: State)
    requires s.reader.point == Between && s.files.finished != []
    requires s.reader.rotated != IdentityOfRotated(s.files)
    ensures var r := Step(Step(s, Read), Read);
            && Step(s, Read).reader.point == PollRotated && r.files == s.files
            && r.reader == s.reader.(rotated := Some(|s.files.finished| - 1), point := PollCurrent, offset := 0,
                                     output := s.reader.output + Added(s.files, s.reader.offset))
  {
  }

  lemma ReadsCurrent(s: State)
    requires s.reader.point == PollCurrent && s.reader.offset == 0
    requires s.reader.rotated == IdentityOfRotated(s.files)
    ensures var r := Step(Step(s, Read), Read);
            && r.files == s.files
            && r.reader == s.reader.(point := Between, offset := |CurrentLines(s.files)|,
                                     output := s.reader.output + CurrentLines(s.files))
  {
    assert ReadCurrent(s.files, 0) == Text(s.files, |s.files.finished|);
  }

  /** A quiet poll, however many rotations it missed. */
  lemma PollAdds(s: State)
    requires s.reader.point == Between && s.files.finished != []
    requires s.reader.rotated != IdentityOfRotated(s.files)
    ensures var r := s.reader;
            Poll(s) == s.(reader := r.(rotated := Some(|s.files.finished| - 1), offset := |CurrentLines(s.files)|,
                                       output := r.output + Added(s.files, r.offset) + CurrentLines(s.files)))
  {
    SeesRotation(s);
    ReadsCurrent(Step(Step(s, Read), Read));
  }

  // ---------------------------------------------------------------- when that is the log

  /** Nothing unread is passed over: the file last read was read to its end, the files rotated in
      between are empty, and the newest finished file is read from its start or is empty too. */
  ghost predicate NothingSkipped(f: Files, g: nat, offset: nat)
    requires g + 1 < |f.finished|
  {
    var last := |f.finished| - 1;
    && offset == |f.finished[g]|
    && AllEmpty(f, g, last)
    && (offset == 0 || f.finished[last] == "")
  }

  ghost predicate AllEmpty(f: Files, g: nat, end: nat)
    requires end <= |f.finished|
  {
    forall k: nat :: g < k < end ==> f.finished[k] == ""
  }

  lemma EmptyTerminated(text: string)
    ensures Terminated(text) == "" <==> text == ""
  {
  }

  lemma UnreadIsEmpty(f: Files, g: nat, offset: nat, end: nat)
    requires g < end <= |f.finished| && offset <= |f.finished[g]|
    ensures Unread(f, g, offset, end) == "" <==> offset == |f.finished[g]| && AllEmpty(f, g, end)
  {
    var pieces := Pieces(f, g, offset, end);
    ConcatIsEmpty(pieces);
    forall k: nat | g <= k < end
      ensures pieces[k - g] == "" <==> if k == g then offset == |f.finished[g]| else f.finished[k] == ""
    {
      EmptyTerminated(if k == g then f.finished[g][offset..] else f.finished[k]);
    }
    if offset == |f.finished[g]| && AllEmpty(f, g, end) {
      forall k | 0 <= k < |pieces|
        ensures pieces[k] == ""
      {
        assert pieces[k] == pieces[(g + k) - g];
      }
    } else if offset == |f.finished[g]| {
      var k: nat :| g < k < end && f.finished[k] != "";
      assert pieces[k - g] != "";
    } else {
      assert pieces[g - g] != "";
    }
  }

  lemma TailIsShorter(text: string, offset: nat)
    ensures |Terminated(From(text, offset))| <= |Terminated(text)|
    ensures Terminated(From(text, offset)) == Terminated(text) <==> offset == 0 || text == ""
    ensures |Terminated(From(text, offset))| == |Terminated(text)| ==> offset == 0 || text == ""
  {
    if offset == 0 {
      assert From(text, 0) == text;
    } else if offset < |text| {
      assert text[offset..][|text| - offset - 1] == text[|text| - 1];
    }
  }

  /** A text no longer than the end of another equals it only if nothing precedes that end. */
  lemma EqualsItsEnd(before: string, end: string, text: string)
    requires |text| <= |end|
    ensures text == before + end <==> before == "" && text == end
  {
    assert "" + end == end;
    assert |before + end| == |before| + |end|;
  }

  /** The end of a text, from an offset on, where all of it and more was due. */
  lemma EndDecides(before: string, text: string, offset: nat)
    ensures Terminated(From(text, offset)) == before + Terminated(text)
            <==> before == "" && (offset == 0 || text == "")
  {
    TailIsShorter(text, offset);
    EqualsItsEnd(before, Terminated(text), Terminated(From(text, offset)));
  }

  lemma AddedIs(f: Files, g: nat, offset: nat, before: string, unread: string)
    requires g + 1 < |f.finished| && offset <= |f.finished[g]|
    requires unread == before + Terminated(f.finished[|f.finished| - 1])
    requires before == "" <==> offset == |f.finished[g]| && AllEmpty(f, g, |f.finished| - 1)
    ensures Added(f, offset) == unread <==> NothingSkipped(f, g, offset)
  {
    EndDecides(before, f.finished[|f.finished| - 1], offset);
  }

  lemma AddedIsUnread(f: Files, g: nat, offset: nat)
    requires g + 1 < |f.finished| && offset <= |f.finished[g]|
    ensures Added(f, offset) == Unread(f, g, offset, |f.finished|) <==> NothingSkipped(f, g, offset)
  {
    var last := |f.finished| - 1;
    UnreadIsEmpty(f, g, offset, last);
    UnreadStep(f, g, offset, |f.finished|);
    AddedIs(f, g, offset, Unread(f, g, offset, last), Unread(f, g, offset, |f.finished|));
  }

  /** Equal texts stay equal, and different ones different, between the same two texts. */
  lemma Cancelled(before: string, a: string, b: string, after: string)
    ensures before + a + after == before + b + after <==> a == b
  {
    var x, y := before + a + after, before + b + after;
    if x == y {
      assert |a| == |b|;
      assert a == x[|before|..|before| + |a|] && b == y[|before|..|before| + |b|];
    }
  }

  /** Output that ends with `added` where the log has `unread`. */
  lemma StillEqual(began: string, output: string, reached: string, unread: string, added: string, lines: string)
    requires began + output == reached
    ensures began + (output + added + lines) == reached + unread + lines <==> added == unread
  {
    Grouped(began, output + added, lines);
    Grouped(began, output, added);
    Cancelled(reached, unread, added, lines);
  }

  /** The log from a place to the last complete line. */
  lemma LogAhead(f: Files, g: nat, offset: nat)
    requires g < |f.finished| && AtLine(f.finished[g], offset)
    ensures var lines := CurrentLines(f);
            && |lines| <= |Text(f, |f.finished|)|
            && Log(f, |f.finished|, |lines|) == Log(f, g, offset) + Unread(f, g, offset, |f.finished|) + lines
  {
    var n, lines := |f.finished|, CurrentLines(f);
    UnreadIsTheLog(f, g, offset, n);
    assert LinesFrom(Text(f, n), 0, lines);
    FurtherLines(f, n, 0, lines);
  }

  /** A reader `p` that went on from `r` to the newest file as a poll does. */
  ghost predicate WentOn(f: Files, r: Reader, p: Reader) {
    && p.began == r.began && Generation(p) == |f.finished| && p.offset == |CurrentLines(f)|
    && p.output == r.output + Added(f, r.offset) + CurrentLines(f)
  }

  /** Output that goes on with `added` is the log to the last complete line exactly when that is unread. */
  lemma WroteAhead(f: Files, began: Place, output: string, g: nat, offset: nat, added: string)
    requires Wrote(f, began, output, g, offset) && g < |f.finished| && AtLine(f.finished[g], offset)
    ensures Wrote(f, began, output + added + CurrentLines(f), |f.finished|, |CurrentLines(f)|)
            <==> added == Unread(f, g, offset, |f.finished|)
  {
    LogAhead(f, g, offset);
    StillEqual(Log(f, began.generation, began.offset), output, Log(f, g, offset),
               Unread(f, g, offset, |f.finished|), added, CurrentLines(f));
  }

  lemma WroteIfNothingSkipped(f: Files, r: Reader, p: Reader)
    requires FollowOk(f, r) && r.point != PollRotated && Generation(r) + 1 < |f.finished| && WentOn(f, r, p)
    ensures WroteTheLog(f, p) <==> NothingSkipped(f, Generation(r), r.offset)
  {
    var g := Generation(r);
    WroteAhead(f, r.began, r.output, g, r.offset, Added(f, r.offset));
    AddedIsUnread(f, g, r.offset);
  }

  // ---------------------------------------------------------------- theorems

  /**
   * A follower that kept up so far and is then overtaken by two or more rotations: the next poll, if
   * nothing interrupts it, goes to the newest file and adds the newest finished one from the old
   * offset and the current one's complete lines. What it has written is then still the log if and
   * only if nothing was skipped, so text in a skipped generation is lost.
   */
  lemma {:induction false} OvertakenLosesExactlyTheSkipped(files: Files, events: seq<Event>)
    requires KeepsUp(files, events)
    requires Run(files, events).reader.point == Between && Run(files, events).reader.trusted
    requires Generation(Run(files, events).reader) + 1 < |Run(files, events).files.finished|
    ensures var s := Run(files, events);
            var f, r, p := s.files, s.reader, Poll(s).reader;
            && p.point == Between && Generation(p) == |f.finished| && p.offset == |CurrentLines(f)|
            && p.output == r.output + Added(f, r.offset) + CurrentLines(f)
            && (WroteTheLog(f, p) <==> NothingSkipped(f, Generation(r), r.offset))
  {
    var s := Run(files, events);
    RunOk(files, events);
    PollAdds(s);
    WroteIfNothingSkipped(s.files, s.reader, Poll(s).reader);
  }

  /** The text a finished generation still owes, and the text the rotated path gives instead. */
  ghost predicate SameRest(f: Files, g: nat, offset: nat)
    requires g < |f.finished| && offset <= |f.finished[g]|
  {
    Terminated(f.finished[g][offset..]) == Added(f, offset)
  }

  lemma RotatedGives(f: Files, r: Reader)
    requires r.point == PollRotated && r.rotated.Some? && f.finished != []
    ensures var next := ReadStep(f, r);
            && next.began == r.began && next.output == r.output + Added(f, r.offset) && next.offset == 0
            && Generation(next) == Generation(r) + 1
  {
  }

  lemma WroteNext(f: Files, began: Place, output: string, g: nat, offset: nat)
    requires Wrote(f, began, output, g, offset) && g < |f.finished| && AtLine(f.finished[g], offset)
    ensures RestDecides(f, began, output, g, offset)
  {
    NextGeneration(f, g, offset);
    RestEqual(Log(f, began.generation, began.offset), output, Log(f, g, offset),
              Terminated(f.finished[g][offset..]), Added(f, offset));
  }

  lemma RestEqual(began: string, output: string, reached: string, rest: string, added: string)
    requires began + output == reached
    ensures began + (output + added) == reached + rest <==> rest == added
  {
    Grouped(began, output, added);
    Cancelled(reached, rest, added, "");
    assert reached + rest + "" == reached + rest && reached + added + "" == reached + added;
  }

  /**
   * A rotation between the look at the rotated file and the read of it: in every run that kept up
   * until then, the output is still the log after that read if and only if the file now at the path
   * goes on, from the old offset, with the very text the old one owed.
   */
  lemma {:induction false} OvertakenInPoll(files: Files, events: seq<Event>)
    requires KeepsUp(files, events)
    requires Run(files, events).reader.point == PollRotated && Run(files, events).reader.trusted
    ensures PollDecides(Run(files, events).files, Run(files, events).reader)
  {
    RunOk(files, events);
    ReadDecides(Run(files, events).files, Run(files, events).reader);
  }

  /** What the read of the rotated file leaves, and when that is the log. */
  ghost predicate PollDecides(f: Files, r: Reader) {
    var next := ReadStep(f, r);
    && next.began == r.began && next.output == r.output + Added(f, r.offset)
    && Generation(next) == Generation(r) + 1 && next.offset == 0
    && RestDecides(f, r.began, r.output, Generation(r), r.offset)
  }

  lemma ReadDecides(f: Files, r: Reader)
    requires FollowOk(f, r) && r.point == PollRotated
    ensures PollDecides(f, r)
  {
    RotatedGives(f, r);
    WroteNext(f, r.began, r.output, Generation(r), r.offset);
  }

  /** Whether the output, with what was added, is the log to the next generation. */
  ghost predicate RestDecides(f: Files, began: Place, output: string, g: nat, offset: nat) {
    && g < |f.finished| && offset <= |f.finished[g]|
    && (Wrote(f, began, output + Added(f, offset), g + 1, 0) <==> SameRest(f, g, offset))
  }

  // ---------------------------------------------------------------- a run

  /** Three reads of the tail of a file, then two rotations with a line between them. */
  const Overtaking: seq<Event> := [Read, Read, Read, Rename, Create, Append("b\n"), Rename, Create]

  const OneFile: Files := Files([], Some("a\n"))

  /** The state after each event of that run. */
  const Reached: seq<State> :=
    var asked := Reader(TailIdentity(0), None, 0, "", false, Place(0, 0), "");
    var read := asked.(point := TailCurrent(0, ""));
    var confirm := asked.(point := TailConfirm(0, "", "a\n"));
    var between := Reader(Between, None, 2, "a\n", true, Place(0, 2), "");
    [State(OneFile, asked), State(OneFile, read), State(OneFile, confirm), State(OneFile, between),
     State(Files(["a\n"], None), between), State(Files(["a\n"], Some("")), between),
     State(Files(["a\n"], Some("b\n")), between), State(Files(["a\n", "b\n"], None), between),
     State(Files(["a\n", "b\n"], Some("")), between)]

  lemma StepsReached(k: nat)
    requires k < |Overtaking|
    ensures Step(Reached[k], Overtaking[k]) == Reached[k + 1]
  {
    if k == 1 {
      assert "a\n"[0..] == "a\n" && "a\n"[1] == '\n';
    } else if k == 3 {
      assert [] + ["a\n"] == ["a\n"];
    } else if k == 5 {
      assert "" + "b\n" == "b\n";
    } else if k == 6 {
      assert ["a\n"] + ["b\n"] == ["a\n", "b\n"];
    }
  }

  lemma {:induction false} RunReaches(k: nat)
    requires k <= |Overtaking|
    ensures Run(OneFile, Overtaking[..k]) == Reached[k]
  {
    if k > 0 {
      RunReaches(k - 1);
      StepsReached(k - 1);
      assert Overtaking[..k][..k - 1] == Overtaking[..k - 1];
    }
  }

  /**
   * Such a run: the line written between the two rotations never comes out, and no read of the run
   * was overtaken before.
   */
  lemma OvertakenLosesText()
    ensures KeepsUp(OneFile, Overtaking)
    ensures var s := Run(OneFile, Overtaking);
            && s.reader.point == Between && s.reader.trusted && s.files.finished == ["a\n", "b\n"]
            && Generation(s.reader) + 1 < |s.files.finished|
            && Poll(s).reader.output == "" && !WroteTheLog(s.files, Poll(s).reader)
  {
    RunReaches(|Overtaking|);
    assert Overtaking[..|Overtaking|] == Overtaking;
    forall k | 0 <= k < |Overtaking| && Overtaking[k] == Read
      ensures NotOvertaken(Run(OneFile, Overtaking[..k]))
    {
      RunReaches(k);
    }
    var s := Run(OneFile, Overtaking);
    OvertakenLosesExactlyTheSkipped(OneFile, Overtaking);
    assert Added(s.files, 2) == "" && CurrentLines(s.files) == "";
  }
}
