/** The text of an OS constraint: how `parseOsConstraint` reads it. */
module OsRangeText {
  import opened Common
  import opened Text
  import opened OsRange

  /** `VERSION`: digits separated by single dots. */
  predicate IsVersion(s: string) {
    forall k :: 0 <= k < |Split(s, '.')| ==> IsDigits(Split(s, '.')[k])
  }

  /** `segments` of such a version. */
  function Segments(s: string): (r: seq<nat>)
    requires IsVersion(s)
    ensures r != []
  {
    var parts := Split(s, '.');
    seq(|parts|, k requires 0 <= k < |parts| => Value(parts[k]))
  }

  predicate DashAt(s: string, i: nat) {
    i + 3 <= |s| && s[i] == ' ' && s[i + 1] == '-' && s[i + 2] == ' '
  }

  /** The place of the first `" - "`, or the length. */
  function FindDash(s: string): (i: nat)
    ensures i <= |s| && (i < |s| ==> DashAt(s, i))
    ensures forall k: nat :: k < i ==> !DashAt(s, k)
  {
    FirstDash(s, 0)
  }

  function FirstDash(s: string, from: nat): (i: nat)
    requires from <= |s|
    ensures from <= i <= |s| && (i < |s| ==> DashAt(s, i))
    ensures forall k: nat :: from <= k < i ==> !DashAt(s, k)
    decreases |s| - from
  {
    if from == |s| || DashAt(s, from) then from else FirstDash(s, from + 1)
  }

  /** `split(" - ")` */
  function SplitDash(s: string): seq<string>
    decreases |s|
  {
    var i := FindDash(s);
    if i == |s| then [s] else [s[..i]] + SplitDash(s[i + 3..])
  }

  /** `looksLikeRange` */
  predicate LooksLikeRange(text: string) {
    || (text != "" && text[0] in {'<', '>', '='})
    || FindDash(text) < |text|
    || (exists k :: 0 <= k < |text| && text[k] in {'^', '~', '*'})
    || (exists k :: 0 <= k < |text| - 1 && text[k] == '|' && text[k + 1] == '|')
    || (exists k :: 0 <= k < |Split(text, '.')| && (Split(text, '.')[k] == "x" || Split(text, '.')[k] == "X"))
  }

  function HyphenBounds(text: string): Option<seq<Bound>> {
    var parts := SplitDash(text);
    if |parts| == 2 && IsVersion(parts[0]) && IsVersion(parts[1])
    then Some([ComparatorBound(Ge, Segments(parts[0])), ComparatorBound(Le, Segments(parts[1]))])
    else None
  }

  function VersionBound(op: Operator, version: string): Option<Bound> {
    if IsVersion(version) then Some(ComparatorBound(op, Segments(version))) else None
  }

  /** One token: the operators are tried in the order of `OPERATORS`. */
  function TokenBound(token: string): Option<Bound> {
    if StartsWith(token, ">=") then VersionBound(Ge, token[2..])
    else if StartsWith(token, ">") then VersionBound(Gt, token[1..])
    else if StartsWith(token, "<=") then VersionBound(Le, token[2..])
    else if StartsWith(token, "<") then VersionBound(Lt, token[1..])
    else None
  }

  function TokenBounds(tokens: seq<string>): (r: Option<seq<Bound>>)
    ensures r.Some? ==> |r.value| == |tokens|
  {
    if tokens == [] then Some([])
    else
      match TokenBound(tokens[0])
      case None => None
      case Some(bound) =>
        match TokenBounds(tokens[1..])
        case None => None
        case Some(more) => Some([bound] + more)
  }

  /** `comparatorBounds`, with its loop. */
  method ComparatorBounds(text: string) returns (r: Option<seq<Bound>>)
    ensures r == TokenBounds(Split(text, ' '))
  {
    var tokens := Split(text, ' ');
    var bounds: seq<Bound> := [];
    assert tokens[0..] == tokens;
    assert forall more: seq<Bound> :: bounds + more == more;
    for i := 0 to |tokens|
      invariant TokenBounds(tokens)
                == match TokenBounds(tokens[i..]) case None => None case Some(more) => Some(bounds + more)
    {
      var bound := TokenBound(tokens[i]);
      assert tokens[i..][0] == tokens[i] && tokens[i..][1..] == tokens[i + 1..];
      if bound.None? {
        return None;
      }
      assert forall more :: bounds + ([bound.value] + more) == (bounds + [bound.value]) + more;
      bounds := bounds + [bound.value];
    }
    assert bounds + [] == bounds;
    r := Some(bounds);
  }

  /** `parseOsConstraint`; `None` is the refusal. */
  function Parse(text: string): Option<Constraint> {
    if text == "" then None
    else if !LooksLikeRange(text) then Some(Exact(text))
    else
      match HyphenBounds(text)
      case Some(bounds) => Some(Range(text, bounds))
      case None =>
        match TokenBounds(Split(text, ' '))
        case Some(bounds) => Some(Range(text, bounds))
        case None => None
  }

  function Parts(version: string, number: string -> Num): seq<Num> {
    var parts := Split(version, '.');
    seq(|parts|, k requires 0 <= k < |parts| => number(parts[k]))
  }

  /** `satisfies`; `number` is how the runtime reads a segment. */
  predicate Satisfies(version: string, constraint: Constraint, number: string -> Num) {
    match constraint
    case Exact(exact) => exact == version
    case Range(_, bounds) => Within(Parts(version, number), bounds)
  }

  // ---------------------------------------------------------------- hyphen ranges

  predicate VersionChar(c: char) {
    IsDigit(c) || c == '.'
  }

  lemma {:induction false} JoinChars(parts: seq<string>)
    requires parts != [] && forall k :: 0 <= k < |parts| ==> IsDigits(parts[k])
    ensures var s := Join(parts, '.'); s != "" && forall k :: 0 <= k < |s| ==> VersionChar(s[k])
  {
    if |parts| > 1 {
      JoinChars(parts[1..]);
    }
  }

  lemma VersionChars(s: string)
    requires IsVersion(s)
    ensures s != "" && forall k :: 0 <= k < |s| ==> VersionChar(s[k])
  {
    JoinSplit(s, '.');
    JoinChars(Split(s, '.'));
  }

  lemma NoDash(s: string)
    requires forall k :: 0 <= k < |s| ==> s[k] != '-'
    ensures FindDash(s) == |s|
  {
  }

  lemma FindDashAfter(a: string, b: string)
    requires Free(a, ' ')
    ensures FindDash(a + " - " + b) == |a|
  {
    var s := a + " - " + b;
    assert DashAt(s, |a|);
    assert forall k :: 0 <= k < |a| ==> s[k] == a[k];
  }

  lemma {:induction false} DashBetween(a: string, b: string)
    requires Free(a, ' ') && forall k :: 0 <= k < |b| ==> b[k] != '-'
    ensures SplitDash(a + " - " + b) == [a, b]
  {
    var s := a + " - " + b;
    FindDashAfter(a, b);
    assert s[..|a|] == a && s[|a| + 3..] == b;
    NoDash(b);
  }

  /**
   * `A - B` is `>=A <=B`: for all versions the two texts parse to the same bounds.
   */
  lemma {:induction false} HyphenIsTwoComparators(a: string, b: string)
    requires IsVersion(a) && IsVersion(b)
    ensures var bounds := [ComparatorBound(Ge, Segments(a)), ComparatorBound(Le, Segments(b))];
            && Parse(a + " - " + b) == Some(Range(a + " - " + b, bounds))
            && Parse(">=" + a + " <=" + b) == Some(Range(">=" + a + " <=" + b, bounds))
  {
    VersionChars(a);
    VersionChars(b);
    HyphenParses(a, b);
    ComparatorsParse(a, b);
  }

  lemma HyphenParses(a: string, b: string)
    requires IsVersion(a) && IsVersion(b)
    ensures var bounds := [ComparatorBound(Ge, Segments(a)), ComparatorBound(Le, Segments(b))];
            Parse(a + " - " + b) == Some(Range(a + " - " + b, bounds))
  {
    VersionChars(a);
    VersionChars(b);
    DashBetween(a, b);
    FindDashAfter(a, b);
  }

  lemma TokensOf(a: string, b: string)
    requires IsVersion(a) && IsVersion(b)
    ensures TokenBounds([">=" + a, "<=" + b])
            == Some([ComparatorBound(Ge, Segments(a)), ComparatorBound(Le, Segments(b))])
  {
    var first, second := ">=" + a, "<=" + b;
    assert first[2..] == a && second[2..] == b;
    var tokens := [first, second];
    assert tokens[1..] == [second] && tokens[1..][1..] == [];
    assert second[0] == '<' && second[1] == '=' && first[0] == '>' && first[1] == '=';
    assert TokenBound(first) == Some(ComparatorBound(Ge, Segments(a)));
    assert TokenBound(second) == Some(ComparatorBound(Le, Segments(b)));
    assert TokenBounds(tokens[1..]) == Some([ComparatorBound(Le, Segments(b))]) by {
      assert TokenBounds(tokens[1..][1..]) == Some([]);
      assert [ComparatorBound(Le, Segments(b))] + [] == [ComparatorBound(Le, Segments(b))];
    }
    assert [ComparatorBound(Ge, Segments(a))] + [ComparatorBound(Le, Segments(b))]
        == [ComparatorBound(Ge, Segments(a)), ComparatorBound(Le, Segments(b))];
  }

  lemma ComparatorsSplit(a: string, b: string)
    requires Free(a, ' ') && Free(b, ' ')
    ensures Split(">=" + a + " <=" + b, ' ') == [">=" + a, "<=" + b]
  {
    var first, second := ">=" + a, "<=" + b;
    assert ">=" + a + " <=" + b == first + [' '] + second;
    SplitOne(first, ' ', second);
    FindNone(second, ' ');
  }

  lemma ComparatorsParse(a: string, b: string)
    requires IsVersion(a) && IsVersion(b)
    ensures var bounds := [ComparatorBound(Ge, Segments(a)), ComparatorBound(Le, Segments(b))];
            Parse(">=" + a + " <=" + b) == Some(Range(">=" + a + " <=" + b, bounds))
  {
    VersionChars(a);
    VersionChars(b);
    var text := ">=" + a + " <=" + b;
    NoDash(text);
    ComparatorsSplit(a, b);
    TokensOf(a, b);
  }

  /**
   * For every version of dotted integers: it is in `A - B` exactly when it is not older than A
   * and not newer than B, where a version that starts with B is not newer than it.
   */
  lemma HyphenRangeMeaning(a: string, b: string, version: string, number: string -> Num)
    requires IsVersion(a) && IsVersion(b) && IsVersion(version) && ReadsDigits(number)
    ensures Parse(a + " - " + b).Some?
    ensures Satisfies(version, Parse(a + " - " + b).value, number) <==>
              !Older(Parts(version, number), Segments(a)) && !Newer(Parts(version, number), Segments(b))
  {
    HyphenParses(a, b);
    BetweenMeaning(Parts(version, number), Segments(a), Segments(b));
  }

  // ---------------------------------------------------------------- versions that satisfy no range

  lemma {:induction false} TokenBoundsAreBounded(tokens: seq<string>)
    ensures TokenBounds(tokens).Some? ==>
              forall k :: 0 <= k < |tokens| ==>
                var bound := TokenBounds(tokens).value[k]; bound.from.Some? || bound.before.Some?
  {
    if tokens != [] {
      TokenBoundsAreBounded(tokens[1..]);
    }
  }

  /** Every range that parses has a bound with a side. */
  lemma ParsedRangesAreBounded(text: string)
    requires Parse(text).Some? && Parse(text).value.Range?
    ensures Bounded(Parse(text).value.bounds)
  {
    TokenBoundsAreBounded(Split(text, ' '));
  }

  lemma DecimalIsVersion(n: nat)
    ensures IsVersion(Decimal(n)) && Segments(Decimal(n)) == [n]
  {
    var s := Decimal(n);
    ValueOfDecimal(n);
    FindNone(s, '.');
    assert Split(s, '.') == [s];
  }

  function OperatorText(op: Operator): string {
    match op
    case Ge => ">="
    case Gt => ">"
    case Le => "<="
    case Lt => "<"
  }

  /** A comparator's token reads as its operator and its version. */
  lemma TokenOf(op: Operator, version: string)
    requires IsVersion(version)
    ensures TokenBound(OperatorText(op) + version) == Some(ComparatorBound(op, Segments(version)))
  {
    VersionChars(version);
    var text := OperatorText(op) + version;
    var n := |OperatorText(op)|;
    assert text[n..] == version && text[n] == version[0] && VersionChar(version[0]);
    assert forall k :: 0 <= k < n ==> text[k] == OperatorText(op)[k];
  }

  lemma OneToken(token: string, bound: Bound)
    requires TokenBound(token) == Some(bound)
    ensures TokenBounds([token]) == Some([bound])
  {
    assert TokenBounds([token][1..]) == Some([]);
    assert [bound] + [] == [bound];
  }

  /** The text of one comparator is one token, and no hyphen range. */
  lemma ComparatorSplits(op: Operator, version: string)
    requires IsVersion(version)
    ensures var text := OperatorText(op) + version;
            SplitDash(text) == [text] && Split(text, ' ') == [text] && LooksLikeRange(text)
  {
    VersionChars(version);
    var text := OperatorText(op) + version;
    assert forall k :: 0 <= k < |text| ==>
        text[k] == if k < |OperatorText(op)| then OperatorText(op)[k] else version[k - |OperatorText(op)|];
    NoDash(text);
    FindNone(text, ' ');
  }

  /** For every operator and every version text, the comparator parses to exactly its bound. */
  lemma ComparatorParses(op: Operator, version: string)
    requires IsVersion(version)
    ensures var text := OperatorText(op) + version;
            Parse(text) == Some(Range(text, [ComparatorBound(op, Segments(version))]))
  {
    TokenOf(op, version);
    ComparatorSplits(op, version);
    OneToken(OperatorText(op) + version, ComparatorBound(op, Segments(version)));
  }

  /** What a comparator means for the segments of a version. */
  ghost predicate Compares(op: Operator, parts: seq<Num>, version: seq<nat>) {
    match op
    case Ge => HasPrefix(parts, version) || Newer(parts, version)
    case Gt => Newer(parts, version)
    case Le => Older(parts, version) || HasPrefix(parts, version)
    case Lt => Older(parts, version)
  }

  /**
   * From text to answer, for every operator and all versions of dotted integers: `<V` accepts exactly the
   * older ones, `>V` the newer ones, and `>=V` and `<=V` those and the ones that start with V.
   */
  lemma ComparatorRangeMeaning(op: Operator, bound: string, version: string, number: string -> Num)
    requires IsVersion(bound) && IsVersion(version) && ReadsDigits(number)
    ensures Parse(OperatorText(op) + bound).Some?
    ensures Satisfies(version, Parse(OperatorText(op) + bound).value, number)
            <==> Compares(op, Parts(version, number), Segments(bound))
  {
    var parts := Parts(version, number);
    ComparatorParses(op, bound);
    ComparatorMeaning(parts, Segments(bound));
    var bounds := [ComparatorBound(op, Segments(bound))];
    assert Within(parts, bounds) <==> WithinBound(parts, bounds[0]);
  }

  ghost predicate SatisfiesNoRange(version: string, number: string -> Num) {
    forall text | Parse(text).Some? && Parse(text).value.Range? :: !Satisfies(version, Parse(text).value, number)
  }

  /**
   * From text to answer, for every version and however segments that are not digits are read: the
   * version satisfies no range that parses if and only if its first segment is not a number. A name
   * such as `Baklava` satisfies none; `18.beta` satisfies `<19`.
   */
  lemma SatisfiesNoRangeExactly(version: string, number: string -> Num)
    ensures SatisfiesNoRange(version, number) <==> number(Split(version, '.')[0]) == NaN
  {
    var parts := Parts(version, number);
    assert parts[0] == number(Split(version, '.')[0]);
    if parts[0] == NaN {
      forall text | Parse(text).Some? && Parse(text).value.Range?
        ensures !Satisfies(version, Parse(text).value, number)
      {
        ParsedRangesAreBounded(text);
        NotANumberSatisfiesNothing(parts, Parse(text).value.bounds);
      }
    } else {
      var n := AboveFirst(parts);
      DecimalIsVersion(n);
      ComparatorParses(Lt, Decimal(n));
      BelowAGreaterFirst(parts);
      assert Satisfies(version, Parse("<" + Decimal(n)).value, number);
    }
  }
}
