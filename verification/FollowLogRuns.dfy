/** What the log follower has written after any run. */
module FollowLogRuns {
  import opened Common
  import opened FollowLog

  /** A place where a line begins. */
  ghost predicate AtLine(text: string, offset: nat) {
    offset <= |text| && (offset == 0 || text[offset - 1] == '\n')
  }

  /** `lines` is the text from `offset` on, cut after a newline. */
  ghost predicate LinesFrom(text: string, offset: nat, lines: string) {
    offset + |lines| <= |text| && text[offset..offset + |lines|] == lines && (lines == "" || lines[|lines| - 1] == '\n')
  }

  ghost predicate Following(p: Point) {
    p == Between || p == PollRotated || p == PollCurrent || p.PollConfirm?
  }

  ghost predicate TailOk(f: Files, r: Reader) {
    && !r.trusted && r.output == ""
    && (!r.point.TailIdentity? ==> Generation(r) <= |f.finished| && (r.point.TailRotated? ==> r.rotated.Some?))
    && (r.point.TailCurrent? || r.point.TailConfirm? ==>
          if r.rotated.None? then r.point.text == ""
          else IdentityOfRotated(f) == r.rotated ==> r.point.text == f.finished[r.rotated.value])
    && (r.point.TailConfirm? && IdentityOfRotated(f) == r.rotated ==>
          LinesFrom(Text(f, Generation(r)), 0, r.point.lines))
  }

  /** A place in the log as it is. */
  ghost predicate InLog(f: Files, g: nat, offset: nat) {
    g <= |f.finished| && offset <= |Text(f, g)|
  }

  /** `output` is the log from one place to another. */
  ghost predicate Wrote(f: Files, began: Place, output: string, g: nat, offset: nat) {
    && InLog(f, began.generation, began.offset) && InLog(f, g, offset)
    && Log(f, began.generation, began.offset) + output == Log(f, g, offset)
  }

  /** Both places are at the beginning of a line. */
  ghost predicate PlacesOk(f: Files, r: Reader) {
    var g := Generation(r);
    && g <= |f.finished| && (r.point == PollRotated ==> r.rotated.Some? && g < |f.finished|)
    && AtLine(Text(f, g), r.offset)
    && r.began.generation <= |f.finished| && AtLine(Text(f, r.began.generation), r.began.offset)
  }

  /** The tail read the generation before and the current one up to where following began. */
  ghost predicate TailSeen(f: Files, began: Place, tail: string) {
    && InLog(f, began.generation, began.offset)
    && tail == (if began.generation == 0 then "" else f.finished[began.generation - 1])
               + Text(f, began.generation)[..began.offset]
  }

  /** Lines about to be confirmed are those of the place reached, if no rotation came between. */
  ghost predicate LinesOk(f: Files, r: Reader) {
    r.point.PollConfirm? && |f.finished| == Generation(r) ==>
      LinesFrom(Text(f, Generation(r)), r.offset, r.point.lines)
  }

  /** What was written since following began is the log from there to the place reached, both at
      the beginning of a line. */
  ghost predicate FollowOk(f: Files, r: Reader) {
    && PlacesOk(f, r) && Wrote(f, r.began, r.output, Generation(r), r.offset)
    && TailSeen(f, r.began, r.tail) && LinesOk(f, r)
  }

  ghost predicate Inv(s: State) {
    if Following(s.reader.point) then s.reader.trusted ==> FollowOk(s.files, s.reader) else TailOk(s.files, s.reader)
  }

  // ---------------------------------------------------------------- the other process

  /** Files only grow: finished generations stay, and the current one is extended or finished. */
  ghost predicate Grows(f: Files, f': Files) {
    && f.finished <= f'.finished
    && forall g: nat :: g <= |f.finished| ==> Text(f, g) <= Text(f', g)
  }

  lemma {:induction false} EarlierStable(f: Files, f': Files, g: nat)
    requires f.finished <= f'.finished && g <= |f.finished|
    ensures Earlier(f, g) == Earlier(f', g)
  {
    if g > 0 {
      EarlierStable(f, f', g - 1);
    }
  }

  lemma LogStable(f: Files, f': Files, g: nat, offset: nat)
    requires Grows(f, f') && g <= |f.finished| && offset <= |Text(f, g)|
    ensures offset <= |Text(f', g)| && Log(f, g, offset) == Log(f', g, offset)
  {
    EarlierStable(f, f', g);
    assert Text(f, g) <= Text(f', g);
  }

  lemma OtherProcessGrows(s: State, e: Event)
    requires e != Read
    ensures Grows(s.files, Step(s, e).files) && Step(s, e).reader == s.reader
  {
  }

  lemma LinesStable(text: string, longer: string, offset: nat, lines: string)
    requires text <= longer && LinesFrom(text, offset, lines)
    ensures LinesFrom(longer, offset, lines)
  {
    assert longer[offset..offset + |lines|] == text[offset..offset + |lines|];
  }

  lemma WroteStable(f: Files, f': Files, began: Place, output: string, g: nat, offset: nat)
    requires Wrote(f, began, output, g, offset) && Grows(f, f')
    ensures Wrote(f', began, output, g, offset)
  {
    LogStable(f, f', g, offset);
    LogStable(f, f', began.generation, began.offset);
  }

  lemma TailSeenStable(f: Files, f': Files, began: Place, tail: string)
    requires TailSeen(f, began, tail) && Grows(f, f')
    ensures TailSeen(f', began, tail)
  {
    var b := began.generation;
    assert Text(f, b) <= Text(f', b);
    assert Text(f, b)[..began.offset] == Text(f', b)[..began.offset];
  }

  lemma FollowStable(f: Files, f': Files, r: Reader)
    requires FollowOk(f, r) && Grows(f, f')
    ensures FollowOk(f', r)
  {
    var g, b := Generation(r), r.began.generation;
    assert Text(f, g) <= Text(f', g) && Text(f, b) <= Text(f', b);
    WroteStable(f, f', r.began, r.output, g, r.offset);
    TailSeenStable(f, f', r.began, r.tail);
    if r.point.PollConfirm? && |f'.finished| == g {
      LinesStable(Text(f, g), Text(f', g), r.offset, r.point.lines);
    }
  }

  lemma TailStable(f: Files, f': Files, r: Reader)
    requires TailOk(f, r) && Grows(f, f') && !Following(r.point)
    ensures TailOk(f', r)
  {
    if (r.point.TailConfirm?) && IdentityOfRotated(f') == r.rotated {
      assert |f'.finished| == |f.finished|;
      assert Text(f, Generation(r)) <= Text(f', Generation(r));
      LinesStable(Text(f, Generation(r)), Text(f', Generation(r)), 0, r.point.lines);
    }
  }

  // ---------------------------------------------------------------- the reads

  lemma ReadsLines(f: Files, offset: nat)
    requires f.current.Some? ==> offset <= |f.current.value|
    requires f.current.None? ==> offset == 0
    ensures LinesFrom(Text(f, |f.finished|), offset, CompleteLines(ReadCurrent(f, offset)))
  {
    var text := Text(f, |f.finished|);
    var lines := CompleteLines(ReadCurrent(f, offset));
    assert ReadCurrent(f, offset) == text[offset..];
    assert text[offset..][..|lines|] == text[offset..offset + |lines|];
  }

  lemma TailRead(s: State)
    requires Inv(s) && !Following(s.reader.point)
    ensures Inv(Step(s, Read))
  {
    var f, r := s.files, s.reader;
    match r.point
    case TailIdentity(_) =>
    case TailRotated(_) =>
    case TailCurrent(_, _) => ReadsLines(f, 0);
    case TailConfirm(attempt, text, lines) =>
      if IdentityOfRotated(f) == r.rotated {
        var g := Generation(r);
        assert g == |f.finished|;
        assert LinesFrom(Text(f, g), 0, lines);
        assert Text(f, g)[..|lines|] == lines;
        assert Log(f, g, |lines|) + "" == Log(f, g, |lines|);
        assert Wrote(f, Place(g, |lines|), "", g, |lines|);
      }
  }

  /** The rest of a finished generation, ended, completes it. */
  lemma RestCompletes(text: string, offset: nat)
    requires AtLine(text, offset)
    ensures text[..offset] + Terminated(text[offset..]) == Terminated(text)
  {
    assert text[..offset] + text[offset..] == text;
  }

  lemma Extends(before: string, output: string, reached: string, more: string)
    requires before + output == reached
    ensures before + (output + more) == reached + more
  {
    assert before + (output + more) == (before + output) + more;
  }

  /** The log up to a place, and the rest of that generation, is the log up to the next one. */
  lemma NextGeneration(f: Files, g: nat, offset: nat)
    requires g < |f.finished| && AtLine(f.finished[g], offset)
    ensures Log(f, g, offset) + Terminated(f.finished[g][offset..]) == Log(f, g + 1, 0)
  {
    var text := f.finished[g];
    RestCompletes(text, offset);
    Extends(Earlier(f, g), text[..offset], Log(f, g, offset), Terminated(text[offset..]));
    assert Text(f, g + 1)[..0] == "";
    assert Log(f, g + 1, 0) == Earlier(f, g + 1);
  }

  /** The log up to a place, and lines from there, is the log up to their end. */
  lemma FurtherLines(f: Files, g: nat, offset: nat, lines: string)
    requires g <= |f.finished| && offset <= |Text(f, g)| && LinesFrom(Text(f, g), offset, lines)
    ensures Log(f, g, offset) + lines == Log(f, g, offset + |lines|)
  {
    var text := Text(f, g);
    assert text[..offset] + lines == text[..offset + |lines|];
    Extends(Earlier(f, g), text[..offset], Log(f, g, offset), lines);
  }

  /** The rest of a generation is written, and the next one begins. */
  lemma WroteRest(f: Files, began: Place, output: string, g: nat, offset: nat)
    requires Wrote(f, began, output, g, offset) && g < |f.finished| && AtLine(f.finished[g], offset)
    ensures Wrote(f, began, output + Terminated(f.finished[g][offset..]), g + 1, 0)
  {
    var rest := Terminated(f.finished[g][offset..]);
    NextGeneration(f, g, offset);
    Extends(Log(f, began.generation, began.offset), output, Log(f, g, offset), rest);
  }

  lemma WroteLines(f: Files, began: Place, output: string, g: nat, offset: nat, lines: string)
    requires Wrote(f, began, output, g, offset) && LinesFrom(Text(f, g), offset, lines)
    ensures Wrote(f, began, output + lines, g, offset + |lines|)
  {
    FurtherLines(f, g, offset, lines);
    Extends(Log(f, began.generation, began.offset), output, Log(f, g, offset), lines);
  }

  lemma RotatedStep(f: Files, r: Reader, rest: string)
    requires r.point == PollRotated && r.rotated.Some? && |f.finished| == Generation(r) + 1
    requires r.offset <= |f.finished[Generation(r)]|
    requires rest == Terminated(f.finished[Generation(r)][r.offset..])
    ensures ReadStep(f, r) == r.(output := r.output + rest, offset := 0, point := PollCurrent)
  {
  }

  lemma NextPlaces(f: Files, r: Reader, output: string)
    requires PlacesOk(f, r) && r.point == PollRotated && |f.finished| == Generation(r) + 1
    ensures var next := r.(output := output, offset := 0, point := PollCurrent);
            PlacesOk(f, next) && Generation(next) == Generation(r) + 1
  {
  }

  /** A reader that has gone on in order, with the same beginning. */
  lemma GoneOn(f: Files, r: Reader, next: Reader)
    requires PlacesOk(f, next) && Wrote(f, next.began, next.output, Generation(next), next.offset)
    requires next.began == r.began && next.tail == r.tail && TailSeen(f, r.began, r.tail)
    requires !next.point.PollConfirm?
    ensures FollowOk(f, next)
  {
  }

  lemma RotatedRead(f: Files, r: Reader)
    requires r.point == PollRotated && FollowOk(f, r) && |f.finished| == Generation(r) + 1
    ensures FollowOk(f, ReadStep(f, r))
  {
    var g := Generation(r);
    var rest := Terminated(f.finished[g][r.offset..]);
    var output := r.output + rest;
    var next := r.(output := output, offset := 0, point := PollCurrent);
    assert Wrote(f, r.began, output, g + 1, 0) by {
      WroteRest(f, r.began, r.output, g, r.offset);
    }
    NextPlaces(f, r, output);
    GoneOn(f, r, next);
    RotatedStep(f, r, rest);
  }

  /** A confirmed read: its lines are written. */
  lemma LinesWritten(f: Files, r: Reader, lines: string)
    requires FollowOk(f, r) && r.point == PollConfirm(lines) && Generation(r) == |f.finished|
    ensures FollowOk(f, r.(output := r.output + lines, offset := r.offset + |lines|, point := Between))
  {
    var g := Generation(r);
    var output := r.output + lines;
    assert Wrote(f, r.began, output, g, r.offset + |lines|) by {
      WroteLines(f, r.began, r.output, g, r.offset, lines);
    }
    LinesEndAtLine(Text(f, g), r.offset, lines);
    GoneOn(f, r, r.(output := output, offset := r.offset + |lines|, point := Between));
  }

  /** A read that is not confirmed is dropped. */
  lemma ReadDropped(f: Files, r: Reader)
    requires FollowOk(f, r) && r.point.PollConfirm?
    ensures FollowOk(f, r.(point := Between))
  {
    GoneOn(f, r, r.(point := Between));
  }

  lemma ConfirmStep(f: Files, r: Reader)
    requires r.point.PollConfirm?
    ensures ReadStep(f, r)
            == if IdentityOfRotated(f) != r.rotated then r.(point := Between)
               else r.(output := r.output + r.point.lines, offset := r.offset + |r.point.lines|, point := Between)
  {
  }

  lemma ConfirmedRead(f: Files, r: Reader)
    requires r.point.PollConfirm? && FollowOk(f, r)
    ensures FollowOk(f, ReadStep(f, r))
  {
    ConfirmStep(f, r);
    if IdentityOfRotated(f) == r.rotated {
      LinesWritten(f, r, r.point.lines);
    } else {
      ReadDropped(f, r);
    }
  }

  lemma LinesEndAtLine(text: string, offset: nat, lines: string)
    requires AtLine(text, offset) && LinesFrom(text, offset, lines)
    ensures AtLine(text, offset + |lines|)
  {
    if lines != "" {
      assert text[offset..offset + |lines|][|lines| - 1] == text[offset + |lines| - 1];
    }
  }

  lemma {:induction false} PollRead(s: State)
    requires Following(s.reader.point) && FollowOk(s.files, s.reader) && NotOvertaken(s)
    ensures FollowOk(s.files, ReadStep(s.files, s.reader))
  {
    var f, r := s.files, s.reader;
    match r.point
    case Between =>
    case PollRotated => RotatedRead(f, r);
    case PollCurrent => CurrentRead(f, r);
    case PollConfirm(lines) => ConfirmedRead(f, r);
  }

  lemma CurrentRead(f: Files, r: Reader)
    requires r.point == PollCurrent && FollowOk(f, r)
    ensures FollowOk(f, ReadStep(f, r))
  {
    if |f.finished| == Generation(r) {
      ReadsLines(f, r.offset);
    }
  }

  lemma StepOk(s: State, e: Event)
    requires Inv(s) && (e == Read ==> NotOvertaken(s))
    ensures Inv(Step(s, e))
  {
    if e == Read {
      if Following(s.reader.point) {
        if s.reader.trusted {
          PollRead(s);
        }
      } else {
        TailRead(s);
      }
    } else {
      OtherProcessGrows(s, e);
      if !Following(s.reader.point) {
        TailStable(s.files, Step(s, e).files, s.reader);
      } else if s.reader.trusted {
        FollowStable(s.files, Step(s, e).files, s.reader);
      }
    }
  }

  lemma {:induction false} RunOk(files: Files, events: seq<Event>)
    requires KeepsUp(files, events)
    ensures Inv(Run(files, events))
  {
    if events != [] {
      var before := events[..|events| - 1];
      forall k | 0 <= k < |before| && before[k] == Read
        ensures NotOvertaken(Run(files, before[..k]))
      {
        assert before[..k] == events[..k];
      }
      RunOk(files, before);
      StepOk(Run(files, before), events[|events| - 1]);
    }
  }

  // ---------------------------------------------------------------- theorems

  /**
   * Whatever is appended and rotated between the follower's reads: what it wrote is the log from
   * the place the tail ended to the place it has reached, every byte once and in order, each
   * finished generation ended with a newline; and both places are at the beginning of a line.
   */
  lemma {:induction false} WritesTheLogOnce(files: Files, events: seq<Event>)
    requires KeepsUp(files, events)
    requires Following(Run(files, events).reader.point) && Run(files, events).reader.trusted
    ensures FollowOk(Run(files, events).files, Run(files, events).reader)
  {
    RunOk(files, events);
  }

  /** A poll the other process does not interrupt. */
  function Poll(s: State): State {
    var s1 := Step(s, Read);
    var s2 := if s1.reader.point == PollRotated then Step(s1, Read) else s1;
    Step(Step(s2, Read), Read)
  }

  /**
   * Nothing stays behind: after a poll during which nothing is written, the follower has written
   * every finished generation and every complete line of the current file.
   */
  lemma {:induction false} QuietPollCatchesUp(files: Files, events: seq<Event>)
    requires KeepsUp(files, events)
    requires Run(files, events).reader.point == Between && Run(files, events).reader.trusted
    requires NotOvertaken(Run(files, events))
    ensures var s := Poll(Run(files, events));
            var f := s.files;
            && f == Run(files, events).files
            && Generation(s.reader) == |f.finished|
            && s.reader.offset == |CompleteLines(Text(f, |f.finished|))|
            && Inv(s)
  {
    var s := Run(files, events);
    RunOk(files, events);
    var s2 := AtCurrent(s);
    FromCurrent(s2);
  }

  /** The reads of a quiet poll up to that of the current file. */
  lemma AtCurrent(s: State) returns (s2: State)
    requires Inv(s) && s.reader.point == Between && s.reader.trusted && NotOvertaken(s)
    ensures s2 == var s1 := Step(s, Read); if s1.reader.point == PollRotated then Step(s1, Read) else s1
    ensures Inv(s2) && s2.files == s.files && s2.reader.trusted
    ensures s2.reader.point == PollCurrent && Generation(s2.reader) == |s2.files.finished|
  {
    StepOk(s, Read);
    s2 := Step(s, Read);
    if s2.reader.point == PollRotated {
      StepOk(s2, Read);
      s2 := Step(s2, Read);
    }
  }

  /** The reads after it: every complete line is written. */
  lemma {:induction false} FromCurrent(s: State)
    requires Inv(s) && s.reader.trusted
    requires s.reader.point == PollCurrent && Generation(s.reader) == |s.files.finished|
    ensures var r := Step(Step(s, Read), Read);
            && r.files == s.files && Inv(r)
            && Generation(r.reader) == |r.files.finished|
            && r.reader.offset == |CompleteLines(Text(r.files, |r.files.finished|))|
  {
    StepOk(s, Read);
    StepOk(Step(s, Read), Read);
    LastReads(s.files, s.reader);
  }

  lemma LastReads(f: Files, r: Reader)
    requires r.point == PollCurrent && FollowOk(f, r) && Generation(r) == |f.finished|
    ensures var last := ReadStep(f, ReadStep(f, r));
            && last.rotated == r.rotated && last.point == Between
            && last.offset == |CompleteLines(Text(f, |f.finished|))|
  {
    var text := Text(f, |f.finished|);
    assert ReadCurrent(f, r.offset) == text[r.offset..];
    ReadsAllLines(text, r.offset);
    SameIdentity(f, r);
  }

  lemma SameIdentity(f: Files, r: Reader)
    requires r.point != PollRotated && Generation(r) == |f.finished|
    ensures IdentityOfRotated(f) == r.rotated
  {
  }

  lemma {:induction false} ReadsAllLines(text: string, offset: nat)
    requires AtLine(text, offset)
    ensures offset + |CompleteLines(text[offset..])| == |CompleteLines(text)|
    decreases |text|
  {
    if offset < |text| && text[|text| - 1] != '\n' {
      var shorter := text[..|text| - 1];
      assert text[offset..][..|text[offset..]| - 1] == shorter[offset..];
      ReadsAllLines(shorter, offset);
    }
  }

  /** What is written of a finished generation, and what is read from an offset, told without how: a text
      with its last line ended, by at most one newline, and a text without its first characters. */
  lemma WrittenAndRead(text: string, offset: nat)
    ensures var r := Terminated(text);
            && (r == text || r == text + "\n") && (r == "" <==> text == "")
            && (r != "" ==> r[|r| - 1] == '\n')
            && (text != "" && text[|text| - 1] == '\n' ==> r == text)
    ensures if offset <= |text| then text[..offset] + From(text, offset) == text else From(text, offset) == ""
  {
  }

  // ---------------------------------------------------------------- the tail

  /** The end of an attempt of the initial tail: it is trusted, and following begins, exactly when the rotated
      file is the one it was at the beginning; otherwise it is read again, three times in all. */
  lemma {:induction false} TailTrustedExactly(files: Files, events: seq<Event>)
    requires Run(files, events).reader.point.TailConfirm?
    ensures var s := Run(files, events);
            var r := Step(s, Read).reader;
            var attempt := s.reader.point.attempt;
            var same := s.reader.rotated == if s.files.finished == [] then None else Some(|s.files.finished| - 1);
            && (r.trusted <==> same)
            && r.point == (if same || attempt >= 2 then Between else TailIdentity(attempt + 1))
            && r.tail == s.reader.point.text + s.reader.point.lines && r.offset == |s.reader.point.lines|
  {
    UntrustedInTail(files, events);
  }

  /** While the tail is read nothing is trusted. */
  lemma {:induction false} UntrustedInTail(files: Files, events: seq<Event>)
    ensures !Following(Run(files, events).reader.point) ==> !Run(files, events).reader.trusted
  {
    if events != [] {
      UntrustedInTail(files, events[..|events| - 1]);
    }
  }

  /** An attempt of the tail the other process does not interrupt. */
  function QuietTail(s: State): State {
    var s1 := Step(s, Read);
    var s2 := if s1.reader.point.TailRotated? then Step(s1, Read) else s1;
    Step(Step(s2, Read), Read)
  }

  lemma {:induction false} QuietTailReads(s: State)
    requires s.reader.point.TailIdentity?
    ensures var r := QuietTail(s);
            var f := s.files;
            && r.files == f && r.reader.point == Between && r.reader.trusted
            && r.reader.tail == (if f.finished == [] then "" else f.finished[|f.finished| - 1])
                                + CompleteLines(Text(f, |f.finished|))
            && r.reader.offset == |CompleteLines(Text(f, |f.finished|))|
  {
    var f := s.files;
    var s1 := Step(s, Read);
    var s2 := if s1.reader.point.TailRotated? then Step(s1, Read) else s1;
    var rotated := if f.finished == [] then "" else f.finished[|f.finished| - 1];
    assert s2.reader.point == TailCurrent(s.reader.point.attempt, rotated);
    assert ReadCurrent(f, 0) == Text(f, |f.finished|);
  }

  /** Such an attempt is trusted, and has read the rotated file and every complete line of the current one. */
  lemma {:induction false} QuietTailIsTrusted(files: Files, events: seq<Event>)
    requires Run(files, events).reader.point.TailIdentity?
    ensures var s := QuietTail(Run(files, events));
            var f := s.files;
            && f == Run(files, events).files && s.reader.point == Between && s.reader.trusted
            && s.reader.tail == (if f.finished == [] then "" else f.finished[|f.finished| - 1])
                                + CompleteLines(Text(f, |f.finished|))
            && s.reader.offset == |CompleteLines(Text(f, |f.finished|))|
  {
    QuietTailReads(Run(files, events));
  }
}
