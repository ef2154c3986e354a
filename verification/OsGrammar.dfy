/** Which texts are OS constraints, and what an exact one and a list of comparators accept. */
module OsGrammar {
  import opened Common
  import opened Text
  import opened OsRange
  import opened OsRangeText

  // ---------------------------------------------------------------- written as a range

  /** An `x` that is a whole segment. */
  predicate LoneX(s: string, k: nat) {
    && k < |s| && s[k] in {'x', 'X'}
    && (k == 0 || s[k - 1] == '.') && (k + 1 == |s| || s[k + 1] == '.')
  }

  ghost predicate HasLoneX(s: string) {
    exists k: nat :: LoneX(s, k)
  }

  predicate IsX(s: string) {
    s == "x" || s == "X"
  }

  ghost predicate AnyX(parts: seq<string>) {
    exists j :: 0 <= j < |parts| && IsX(parts[j])
  }

  ghost predicate HasXSegment(s: string) {
    AnyX(Split(s, '.'))
  }

  lemma LoneXAfter(s: string, i: nat, k: nat)
    requires i < |s| && s[i] == '.'
    ensures LoneX(s[i + 1..], k) <==> LoneX(s, i + 1 + k)
  {
  }

  lemma LoneXBefore(s: string, i: nat)
    requires i <= |s| && Free(s[..i], '.') && (i < |s| ==> s[i] == '.')
    ensures (exists k: nat :: k < i && LoneX(s, k)) <==> IsX(s[..i])
  {
    assert forall j :: 0 <= j < i ==> s[j] == s[..i][j] != '.';
    if k: nat :| k < i && LoneX(s, k) {
      assert k == 0 && i == 1 && s[..i] == [s[0]];
    }
    if IsX(s[..i]) {
      assert s[0] == s[..i][0];
      assert LoneX(s, 0);
    }
  }

  /** Where a text is cut at its first dot, an `x` that is a segment is on one side of it. */
  lemma LoneXCut(s: string, i: nat)
    requires i < |s| && s[i] == '.' && Free(s[..i], '.')
    ensures HasLoneX(s) <==> IsX(s[..i]) || HasLoneX(s[i + 1..])
  {
    LoneXBefore(s, i);
    if k: nat :| LoneX(s, k) {
      if k > i {
        LoneXAfter(s, i, k - i - 1);
      }
    }
    var rest := s[i + 1..];
    if k: nat :| LoneX(rest, k) {
      LoneXAfter(s, i, k);
    }
  }

  lemma AnyXCut(head: string, more: seq<string>)
    ensures AnyX([head] + more) <==> IsX(head) || AnyX(more)
  {
    var parts := [head] + more;
    assert parts[0] == head && forall j :: 0 <= j < |more| ==> parts[j + 1] == more[j];
  }

  lemma {:induction false} XSegmentCut(s: string, i: nat)
    requires i == Find(s, '.') && i < |s|
    ensures HasXSegment(s) <==> IsX(s[..i]) || HasXSegment(s[i + 1..])
  {
    assert Split(s, '.') == [s[..i]] + Split(s[i + 1..], '.');
    AnyXCut(s[..i], Split(s[i + 1..], '.'));
  }

  lemma XSegmentAlone(s: string)
    requires Find(s, '.') == |s|
    ensures HasXSegment(s) <==> HasLoneX(s)
  {
    assert s[..|s|] == s;
    LoneXBefore(s, |s|);
    assert Split(s, '.') == [s] && Split(s, '.')[0] == s;
    assert HasLoneX(s) <==> exists k: nat :: k < |s| && LoneX(s, k);
  }

  lemma {:induction false} XSegmentIsLoneX(s: string)
    ensures HasXSegment(s) <==> HasLoneX(s)
    decreases |s|
  {
    var i := Find(s, '.');
    if i == |s| {
      XSegmentAlone(s);
    } else {
      XSegmentIsLoneX(s[i + 1..]);
      XSegmentCut(s, i);
      LoneXCut(s, i);
    }
  }

  /** A text written as a range: it begins with a comparator, or has a hyphen with spaces, a caret, a tilde, a
      star, two bars or an `x` that is a segment. */
  ghost predicate WrittenAsRange(text: string) {
    || (text != "" && text[0] in {'<', '>', '='})
    || (exists k: nat :: DashAt(text, k))
    || (exists k :: 0 <= k < |text| && text[k] in {'^', '~', '*'})
    || (exists k :: 0 <= k < |text| - 1 && text[k] == '|' && text[k + 1] == '|')
    || HasLoneX(text)
  }

  lemma DashIsFound(text: string)
    ensures FindDash(text) < |text| <==> exists k: nat :: DashAt(text, k)
  {
    if k: nat :| DashAt(text, k) {
      assert k < |text|;
    }
  }

  lemma LooksIsWritten(text: string)
    ensures LooksLikeRange(text) <==> WrittenAsRange(text)
  {
    XSegmentIsLoneX(text);
    DashIsFound(text);
  }

  // ---------------------------------------------------------------- exact versions

  /**
   * From text to answer: a text that is not empty and not written as a range is a constraint, and the one
   * version that satisfies it is the text itself.
   */
  lemma ExactAcceptsItselfAlone(text: string, version: string, number: string -> Num)
    requires text != "" && !WrittenAsRange(text)
    ensures Parse(text).Some?
    ensures Satisfies(version, Parse(text).value, number) <==> version == text
  {
    LooksIsWritten(text);
  }

  /** A version of digits and dots is not written as a range. */
  lemma VersionIsExact(version: string)
    requires IsVersion(version)
    ensures version != "" && !WrittenAsRange(version)
  {
    VersionChars(version);
  }

  /** From text to answer: a bare version of digits and dots accepts itself and no other version. */
  lemma BareVersionMeaning(bare: string, version: string, number: string -> Num)
    requires IsVersion(bare)
    ensures Parse(bare).Some?
    ensures Satisfies(version, Parse(bare).value, number) <==> version == bare
  {
    VersionIsExact(bare);
    ExactAcceptsItselfAlone(bare, version, number);
  }

  predicate NameChar(c: char) {
    'a' <= c <= 'z' || 'A' <= c <= 'Z' || '0' <= c <= '9' || c == '-' || c == '_'
  }

  /** A name a driver lists: letters, digits, hyphens and underscores, other than a lone `x`. */
  ghost predicate ReleaseName(s: string) {
    s !in {"", "x", "X"} && forall k :: 0 <= k < |s| ==> NameChar(s[k])
  }

  lemma NameIsExact(name: string)
    requires ReleaseName(name)
    ensures !WrittenAsRange(name)
  {
    assert forall j :: 0 <= j < |name| ==> NameChar(name[j]) && name[j] != '.';
    assert |name| == 1 ==> name == [name[0]];
    forall k: nat
      ensures !LoneX(name, k)
    {
    }
    forall k: nat
      ensures !DashAt(name, k)
    {
      assert k < |name| ==> NameChar(name[k]);
    }
  }

  /** From text to answer: a release name such as `Baklava` or `34-ext12` accepts itself and nothing else. */
  lemma ReleaseNameMeaning(name: string, version: string, number: string -> Num)
    requires ReleaseName(name)
    ensures Parse(name).Some?
    ensures Satisfies(version, Parse(name).value, number) <==> version == name
  {
    NameIsExact(name);
    ExactAcceptsItselfAlone(name, version, number);
  }

  /** The two runtimes the source names. */
  lemma NamedReleases(version: string, number: string -> Num)
    ensures Parse("Baklava").Some? && Parse("34-ext12").Some?
    ensures Satisfies(version, Parse("Baklava").value, number) <==> version == "Baklava"
    ensures Satisfies(version, Parse("34-ext12").value, number) <==> version == "34-ext12"
  {
    ReleaseNameMeaning("Baklava", version, number);
    ReleaseNameMeaning("34-ext12", version, number);
  }

  // ---------------------------------------------------------------- ranges

  /** `A - B` for two versions. */
  ghost predicate HyphenText(text: string) {
    exists a, b :: IsVersion(a) && IsVersion(b) && text == a + " - " + b
  }

  /** An operator and a version. */
  ghost predicate ComparatorText(token: string) {
    exists op, version :: IsVersion(version) && token == OperatorText(op) + version
  }

  /** One or more comparators with single spaces between them. */
  ghost predicate ComparatorsText(text: string) {
    forall k :: 0 <= k < |Split(text, ' ')| ==> ComparatorText(Split(text, ' ')[k])
  }

  lemma {:induction false} TwoParts(text: string)
    requires |SplitDash(text)| == 2
    ensures text == SplitDash(text)[0] + " - " + SplitDash(text)[1]
  {
    var i := FindDash(text);
    var rest := text[i + 3..];
    assert SplitDash(text) == [text[..i]] + SplitDash(rest);
    assert |SplitDash(rest)| == 1 && SplitDash(rest) == [rest];
    assert text[i..i + 3] == " - ";
  }

  lemma HyphenExactly(text: string)
    ensures HyphenBounds(text).Some? <==> HyphenText(text)
  {
    if HyphenBounds(text).Some? {
      TwoParts(text);
    }
    if a, b :| IsVersion(a) && IsVersion(b) && text == a + " - " + b {
      VersionChars(a);
      VersionChars(b);
      DashBetween(a, b);
    }
  }

  lemma TokenExactly(token: string)
    ensures TokenBound(token).Some? <==> ComparatorText(token)
  {
    if TokenBound(token).Some? {
      var op :=
        if StartsWith(token, ">=") then Ge else if StartsWith(token, ">") then Gt
        else if StartsWith(token, "<=") then Le else Lt;
      var version := token[|OperatorText(op)|..];
      assert token == OperatorText(op) + version && IsVersion(version);
    }
    if op, version :| IsVersion(version) && token == OperatorText(op) + version {
      TokenOf(op, version);
    }
  }

  lemma {:induction false} TokensExactly(tokens: seq<string>)
    ensures TokenBounds(tokens).Some? <==> forall k :: 0 <= k < |tokens| ==> ComparatorText(tokens[k])
  {
    if tokens != [] {
      TokenExactly(tokens[0]);
      TokensExactly(tokens[1..]);
      assert forall k :: 0 < k < |tokens| ==> tokens[k] == tokens[1..][k - 1];
    }
  }

  /**
   * The grammar: a text is a constraint if and only if it is not empty and is an exact version, a hyphen range
   * or a list of comparators; every other text is refused.
   */
  lemma {:induction false} ParsesExactlyTheGrammar(text: string)
    ensures Parse(text).Some? <==>
              text != "" && (!WrittenAsRange(text) || HyphenText(text) || ComparatorsText(text))
    ensures Parse(text).Some? ==> (Parse(text).value.Exact? <==> !WrittenAsRange(text))
  {
    LooksIsWritten(text);
    HyphenExactly(text);
    TokensExactly(Split(text, ' '));
  }

  // ---------------------------------------------------------------- forms that are refused

  /** The characters of ranges. */
  predicate RangeChar(c: char) {
    VersionChar(c) || c in {' ', '-', '<', '>', '='}
  }

  lemma ComparatorChars(token: string)
    requires ComparatorText(token)
    ensures forall k :: 0 <= k < |token| ==> RangeChar(token[k])
  {
    var op, version :| IsVersion(version) && token == OperatorText(op) + version;
    VersionChars(version);
  }

  lemma {:induction false} JoinedChars(parts: seq<string>)
    requires parts != [] && forall j, k :: 0 <= j < |parts| && 0 <= k < |parts[j]| ==> RangeChar(parts[j][k])
    ensures forall k :: 0 <= k < |Join(parts, ' ')| ==> RangeChar(Join(parts, ' ')[k])
  {
    if |parts| > 1 {
      JoinedChars(parts[1..]);
    }
  }

  lemma RangeChars(text: string)
    requires HyphenText(text) || ComparatorsText(text)
    ensures forall k :: 0 <= k < |text| ==> RangeChar(text[k])
  {
    if HyphenText(text) {
      var a, b :| IsVersion(a) && IsVersion(b) && text == a + " - " + b;
      VersionChars(a);
      VersionChars(b);
    } else {
      var parts := Split(text, ' ');
      JoinSplit(text, ' ');
      forall j | 0 <= j < |parts|
        ensures forall k :: 0 <= k < |parts[j]| ==> RangeChar(parts[j][k])
      {
        ComparatorChars(parts[j]);
      }
      JoinedChars(parts);
    }
  }

  /** Every text with a caret, a tilde, a star, two bars or an `x` that is a segment is refused. */
  lemma {:induction false} OtherRangeFormsAreRefused(text: string)
    requires || (exists k :: 0 <= k < |text| && text[k] in {'^', '~', '*'})
             || (exists k :: 0 <= k < |text| - 1 && text[k] == '|' && text[k + 1] == '|')
             || HasLoneX(text)
    ensures Parse(text).None?
  {
    ParsesExactlyTheGrammar(text);
    assert WrittenAsRange(text);
    if HyphenText(text) || ComparatorsText(text) {
      RangeChars(text);
    }
  }

  // ---------------------------------------------------------------- lists of comparators

  /** A list of comparators as text. */
  function ListText(ops: seq<Operator>, versions: seq<string>): string
    requires |ops| == |versions| > 0
  {
    Join(Tokens(ops, versions), ' ')
  }

  function Tokens(ops: seq<Operator>, versions: seq<string>): seq<string>
    requires |ops| == |versions|
  {
    seq(|ops|, k requires 0 <= k < |ops| => OperatorText(ops[k]) + versions[k])
  }

  lemma {:induction false} TokensRead(ops: seq<Operator>, versions: seq<string>)
    requires |ops| == |versions| && forall k :: 0 <= k < |versions| ==> IsVersion(versions[k])
    ensures var bounds := TokenBounds(Tokens(ops, versions));
            && bounds.Some? && |bounds.value| == |ops|
            && forall k :: 0 <= k < |ops| ==> bounds.value[k] == ComparatorBound(ops[k], Segments(versions[k]))
    decreases |ops|
  {
    if ops != [] {
      TokensRead(ops[1..], versions[1..]);
      TokenOf(ops[0], versions[0]);
      var tokens := Tokens(ops, versions);
      assert tokens[0] == OperatorText(ops[0]) + versions[0] && tokens[1..] == Tokens(ops[1..], versions[1..]);
      var more := TokenBounds(tokens[1..]).value;
      assert TokenBounds(tokens) == Some([ComparatorBound(ops[0], Segments(versions[0]))] + more);
    }
  }

  lemma TokensAreFree(ops: seq<Operator>, versions: seq<string>)
    requires |ops| == |versions| && forall k :: 0 <= k < |versions| ==> IsVersion(versions[k])
    ensures AllFree(Tokens(ops, versions), ' ') && AllFree(Tokens(ops, versions), '-')
  {
    forall k | 0 <= k < |ops|
      ensures Free(Tokens(ops, versions)[k], ' ') && Free(Tokens(ops, versions)[k], '-')
    {
      VersionChars(versions[k]);
    }
  }

  lemma ListBegins(ops: seq<Operator>, versions: seq<string>)
    requires |ops| == |versions| > 0
    ensures ListText(ops, versions) != "" && ListText(ops, versions)[0] in {'<', '>'}
  {
    var tokens := Tokens(ops, versions);
    assert tokens[0][0] in {'<', '>'};
    assert tokens[0] <= ListText(ops, versions);
  }

  /** Every list of comparators parses to the bounds of its comparators, in order. */
  lemma ListParses(ops: seq<Operator>, versions: seq<string>)
    requires |ops| == |versions| > 0 && forall k :: 0 <= k < |versions| ==> IsVersion(versions[k])
    ensures var parsed := Parse(ListText(ops, versions));
            && parsed.Some? && parsed.value.Range? && |parsed.value.bounds| == |ops|
            && forall k :: 0 <= k < |ops| ==>
                 parsed.value.bounds[k] == ComparatorBound(ops[k], Segments(versions[k]))
  {
    var text := ListText(ops, versions);
    TokensAreFree(ops, versions);
    JoinFree(Tokens(ops, versions), ' ', '-');
    NoDash(text);
    assert SplitDash(text) == [text];
    SplitJoin(Tokens(ops, versions), ' ');
    TokensRead(ops, versions);
    ListBegins(ops, versions);
  }

  lemma BoundCompares(op: Operator, parts: seq<Num>, version: seq<nat>)
    requires version != [] && Dotted(parts)
    ensures WithinBound(parts, ComparatorBound(op, version)) <==> Compares(op, parts, version)
  {
    ComparatorMeaning(parts, version);
  }

  lemma VersionIsDotted(version: string, number: string -> Num)
    requires IsVersion(version) && ReadsDigits(number)
    ensures Dotted(Parts(version, number))
  {
  }

  /**
   * From text to answer: a list of comparators accepts exactly the dotted versions that every one of them
   * accepts.
   */
  lemma {:induction false} ListMeaning(
    ops: seq<Operator>, versions: seq<string>, version: string, number: string -> Num)
    requires |ops| == |versions| > 0 && forall k :: 0 <= k < |versions| ==> IsVersion(versions[k])
    requires IsVersion(version) && ReadsDigits(number)
    ensures Parse(ListText(ops, versions)).Some?
    ensures Satisfies(version, Parse(ListText(ops, versions)).value, number) <==>
              forall k :: 0 <= k < |ops| ==> Compares(ops[k], Parts(version, number), Segments(versions[k]))
  {
    var parts := Parts(version, number);
    ListParses(ops, versions);
    VersionIsDotted(version, number);
    var bounds := Parse(ListText(ops, versions)).value.bounds;
    forall k | 0 <= k < |ops|
      ensures WithinBound(parts, bounds[k]) <==> Compares(ops[k], parts, Segments(versions[k]))
    {
      BoundCompares(ops[k], parts, Segments(versions[k]));
    }
  }
}
