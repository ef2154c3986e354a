/**
 * `src/contract/version-order.ts`, and the precedence of section 11 of Semantic Versioning 2.0.0
 * it is meant to be.
 */
module VersionOrder {
  import opened Common
  import opened Text

  // ---------------------------------------------------------------- the standard

  /** A pre-release identifier: numeric, or alphanumeric. */
  datatype Ident = Numeric(n: nat) | Alpha(s: string)

  datatype SemVer = SemVer(major: int, minor: int, patch: int, pre: seq<Ident>)

  /** Lexical order by character code. */
  predicate StringLess(a: string, b: string) {
    if a == "" || b == "" then a == "" && b != ""
    else if a[0] != b[0] then a[0] < b[0]
    else StringLess(a[1..], b[1..])
  }

  predicate IdentLess(a: Ident, b: Ident) {
    match (a, b)
    case (Numeric(m), Numeric(n)) => m < n
    case (Numeric(_), Alpha(_)) => true
    case (Alpha(_), Numeric(_)) => false
    case (Alpha(s), Alpha(t)) => StringLess(s, t)
  }

  /** Identifiers left to right; a larger set of fields is higher when all before are equal. */
  predicate PreLess(a: seq<Ident>, b: seq<Ident>) {
    if a == [] || b == [] then a == [] && b != []
    else if a[0] != b[0] then IdentLess(a[0], b[0])
    else PreLess(a[1..], b[1..])
  }

  /** Precedence: major, minor, patch, then a pre-release below its release. */
  predicate Precedes(a: SemVer, b: SemVer) {
    if a.major != b.major then a.major < b.major
    else if a.minor != b.minor then a.minor < b.minor
    else if a.patch != b.patch then a.patch < b.patch
    else if a.pre == [] || b.pre == [] then a.pre != [] && b.pre == []
    else PreLess(a.pre, b.pre)
  }

  lemma {:induction false} StringOrder(a: string, b: string, c: string)
    ensures !StringLess(a, a)
    ensures a == b || StringLess(a, b) || StringLess(b, a)
    ensures StringLess(a, b) && StringLess(b, c) ==> StringLess(a, c)
    decreases |a|
  {
    if a != "" {
      StringOrder(a[1..], a[1..], a[1..]);
      if b != "" {
        StringOrder(a[1..], b[1..], if c == "" then "" else c[1..]);
        assert a[0] == b[0] && a[1..] == b[1..] ==> a == [a[0]] + a[1..] == b;
      }
    }
  }

  lemma IdentOrder(a: Ident, b: Ident, c: Ident)
    ensures !IdentLess(a, a)
    ensures a == b || IdentLess(a, b) || IdentLess(b, a)
    ensures IdentLess(a, b) && IdentLess(b, c) ==> IdentLess(a, c)
  {
    if a.Alpha? && b.Alpha? {
      StringOrder(a.s, b.s, if c.Alpha? then c.s else "");
    } else if a.Alpha? {
      StringOrder(a.s, a.s, a.s);
    }
  }

  lemma {:induction false} PreOrder(a: seq<Ident>, b: seq<Ident>, c: seq<Ident>)
    ensures !PreLess(a, a)
    ensures a == b || PreLess(a, b) || PreLess(b, a)
    ensures PreLess(a, b) && PreLess(b, c) ==> PreLess(a, c)
    decreases |a|
  {
    if a != [] {
      PreOrder(a[1..], a[1..], a[1..]);
      if b != [] {
        IdentOrder(a[0], b[0], if c == [] then b[0] else c[0]);
        IdentOrder(b[0], a[0], if c == [] then b[0] else c[0]);
        PreOrder(a[1..], b[1..], if c == [] then [] else c[1..]);
        assert a[0] == b[0] && a[1..] == b[1..] ==> a == [a[0]] + a[1..] == b;
      }
    }
  }

  /** Precedence is a strict total order. */
  lemma PrecedenceOrder(a: SemVer, b: SemVer, c: SemVer)
    ensures !Precedes(a, a)
    ensures a == b || Precedes(a, b) || Precedes(b, a)
    ensures Precedes(a, b) && Precedes(b, c) ==> Precedes(a, c)
  {
    PreOrder(a.pre, b.pre, c.pre);
  }

  // ---------------------------------------------------------------- the source

  /** `split`'s answer. */
  datatype Version = Version(core: seq<Num>, pre: seq<string>)

  /** `split`: at the first hyphen, dropping what follows a second one. */
  function SplitVersion(version: string, number: string -> Num): Version {
    var pieces := Split(version, '-');
    var core := Split(pieces[0], '.');
    Version(seq(|core|, k requires 0 <= k < |core| => number(core[k])),
            if |pieces| > 1 then Split(pieces[1], '.') else [])
  }

  function CompareIdentifiers(left: string, right: string): int {
    if IsDigits(left) && IsDigits(right) then
      (if Value(left) < Value(right) then -1 else if Value(left) > Value(right) then 1 else 0)
    else if IsDigits(left) != IsDigits(right) then (if IsDigits(left) then -1 else 1)
    else if StringLess(left, right) then -1 else if StringLess(right, left) then 1 else 0
  }

  function Core(v: Version, i: nat): Num {
    if i < |v.core| then v.core[i] else N(0)
  }

  function CoreDifference(left: Version, right: Version, i: nat): Num {
    if Core(left, i).NaN? || Core(right, i).NaN? then NaN else N(Core(left, i).value - Core(right, i).value)
  }

  /** What the first loop returns from index `i` on, or `None` when it falls through. */
  function CoreAnswer(left: Version, right: Version, i: nat): Option<bool>
    decreases 3 - i
  {
    if i >= 3 then None
    else
      var difference := CoreDifference(left, right, i);
      if difference != N(0) then Some(difference.N? && difference.value > 0) else CoreAnswer(left, right, i + 1)
  }

  /** What the second loop and the last line return for these identifiers. */
  predicate PreNewer(left: seq<string>, right: seq<string>) {
    if left == [] || right == [] then |left| > |right|
    else
      var order := CompareIdentifiers(left[0], right[0]);
      if order != 0 then order > 0 else PreNewer(left[1..], right[1..])
  }

  predicate Newer(left: Version, right: Version) {
    match CoreAnswer(left, right, 0)
    case Some(answer) => answer
    case None =>
      if left.pre == [] || right.pre == [] then left.pre == [] && right.pre != []
      else PreNewer(left.pre, right.pre)
  }

  /** `isNewerVersion`, with its loops. */
  method IsNewerVersion(candidate: string, running: string, number: string -> Num) returns (r: bool)
    ensures r == Newer(SplitVersion(candidate, number), SplitVersion(running, number))
  {
    var left := SplitVersion(candidate, number);
    var right := SplitVersion(running, number);
    for index := 0 to 3
      invariant CoreAnswer(left, right, 0) == CoreAnswer(left, right, index)
    {
      var difference := CoreDifference(left, right, index);
      if difference != N(0) {
        return difference.N? && difference.value > 0;
      }
    }
    if left.pre == [] || right.pre == [] {
      return left.pre == [] && right.pre != [];
    }
    var shared := if |left.pre| < |right.pre| then |left.pre| else |right.pre|;
    assert left.pre[0..] == left.pre && right.pre[0..] == right.pre;
    for index := 0 to shared
      invariant PreNewer(left.pre, right.pre) == PreNewer(left.pre[index..], right.pre[index..])
    {
      assert left.pre[index..][1..] == left.pre[index + 1..] && right.pre[index..][1..] == right.pre[index + 1..];
      var order := CompareIdentifiers(left.pre[index], right.pre[index]);
      if order != 0 {
        return order > 0;
      }
    }
    r := |left.pre| > |right.pre|;
  }

  // ---------------------------------------------------------------- the source is the standard

  function Key(s: string): Ident {
    if IsDigits(s) then Numeric(Value(s)) else Alpha(s)
  }

  function Keys(pre: seq<string>): seq<Ident> {
    if pre == [] then [] else [Key(pre[0])] + Keys(pre[1..])
  }

  /** The first three core segments are numbers. */
  ghost predicate NumericCore(v: Version) {
    Core(v, 0).N? && Core(v, 1).N? && Core(v, 2).N?
  }

  /** What a version with a numeric core stands for. */
  function Meaning(v: Version): SemVer
    requires NumericCore(v)
  {
    SemVer(Core(v, 0).value, Core(v, 1).value, Core(v, 2).value, Keys(v.pre))
  }

  lemma IdentifiersCompareByKey(left: string, right: string)
    ensures CompareIdentifiers(left, right) > 0 <==> IdentLess(Key(right), Key(left))
    ensures CompareIdentifiers(left, right) == 0 <==> Key(left) == Key(right)
  {
    StringOrder(left, right, left);
    StringOrder(right, right, right);
  }

  lemma {:induction false} PreNewerIsPrecedence(left: seq<string>, right: seq<string>)
    ensures PreNewer(left, right) <==> PreLess(Keys(right), Keys(left))
  {
    if left != [] && right != [] {
      IdentifiersCompareByKey(left[0], right[0]);
      PreNewerIsPrecedence(left[1..], right[1..]);
    }
  }

  /** On versions with a numeric core `isNewerVersion` is precedence. */
  lemma NewerIsPrecedence(left: Version, right: Version)
    requires NumericCore(left) && NumericCore(right)
    ensures Newer(left, right) <==> Precedes(Meaning(right), Meaning(left))
  {
    PreNewerIsPrecedence(left.pre, right.pre);
    assert CoreAnswer(left, right, 3) == None;
    assert CoreAnswer(left, right, 2)
        == if CoreDifference(left, right, 2) != N(0) then Some(Core(left, 2).value > Core(right, 2).value) else None;
  }

  ghost predicate Incomparable(a: Version, b: Version) {
    !Newer(a, b) && !Newer(b, a)
  }

  /** So there it is a strict weak order: irreflexive, transitive, and incomparability is too. */
  lemma StrictWeakOrder(a: Version, b: Version, c: Version)
    requires NumericCore(a) && NumericCore(b) && NumericCore(c)
    ensures !Newer(a, a)
    ensures Newer(a, b) && Newer(b, c) ==> Newer(a, c)
    ensures Incomparable(a, b) && Incomparable(b, c) ==> Incomparable(a, c)
    ensures Incomparable(a, b) <==> Meaning(a) == Meaning(b)
  {
    NewerIsPrecedence(a, a);
    NewerIsPrecedence(a, b);
    NewerIsPrecedence(b, a);
    NewerIsPrecedence(b, c);
    NewerIsPrecedence(c, b);
    NewerIsPrecedence(a, c);
    NewerIsPrecedence(c, a);
    PrecedenceOrder(Meaning(a), Meaning(b), Meaning(c));
    PrecedenceOrder(Meaning(c), Meaning(b), Meaning(a));
    PrecedenceOrder(Meaning(b), Meaning(c), Meaning(a));
  }

  /**
   * A numeric core is also necessary: a version without one is incomparable with two versions
   * that are not incomparable with each other, so no set with such a version and all the
   * numeric ones is weakly ordered.
   */
  lemma NoOrderWithoutNumericCore(v: Version) returns (newer: Version, older: Version)
    requires !NumericCore(v)
    ensures NumericCore(newer) && NumericCore(older)
    ensures Incomparable(v, newer) && Incomparable(v, older) && Newer(newer, older)
  {
    var a, b := Core(v, 0), Core(v, 1);
    if a.NaN? {
      newer, older := Version([N(1)], []), Version([N(0)], []);
    } else if b.NaN? {
      newer, older := Version([a, N(1)], []), Version([a, N(0)], []);
    } else {
      newer, older := Version([a, b, N(1)], []), Version([a, b, N(0)], []);
    }
    assert CoreAnswer(newer, older, 3) == None;
  }

  // ---------------------------------------------------------------- texts

  /** An identifier as the standard allows it; hyphens are letters like any other. */
  ghost predicate StandardIdent(i: Ident) {
    i.Alpha? ==> i.s != "" && !IsDigits(i.s) && Free(i.s, '.')
  }

  ghost predicate StandardVersion(v: SemVer) {
    v.major >= 0 && v.minor >= 0 && v.patch >= 0 && forall k :: 0 <= k < |v.pre| ==> StandardIdent(v.pre[k])
  }

  /** And without a hyphen. */
  ghost predicate Plain(i: Ident) {
    StandardIdent(i) && (i.Alpha? ==> Free(i.s, '-'))
  }

  ghost predicate PlainVersion(v: SemVer) {
    StandardVersion(v) && forall k :: 0 <= k < |v.pre| ==> Plain(v.pre[k])
  }

  function IdentText(i: Ident): string {
    match i case Numeric(n) => Decimal(n) case Alpha(s) => s
  }

  function Texts(pre: seq<Ident>): (r: seq<string>)
    ensures |r| == |pre|
    ensures forall k :: 0 <= k < |pre| ==> r[k] == IdentText(pre[k])
  {
    seq(|pre|, k requires 0 <= k < |pre| => IdentText(pre[k]))
  }

  function CoreTexts(v: SemVer): seq<string>
    requires v.major >= 0 && v.minor >= 0 && v.patch >= 0
  {
    [Decimal(v.major), Decimal(v.minor), Decimal(v.patch)]
  }

  /** A version written out. */
  function VersionText(v: SemVer): string
    requires v.major >= 0 && v.minor >= 0 && v.patch >= 0
  {
    var core := Join(CoreTexts(v), '.');
    if v.pre == [] then core else core + "-" + Join(Texts(v.pre), '.')
  }

  lemma KeyOfText(i: Ident)
    requires StandardIdent(i)
    ensures Key(IdentText(i)) == i && Free(IdentText(i), '.') && (i.Numeric? ==> Free(IdentText(i), '-'))
  {
    if i.Numeric? {
      ValueOfDecimal(i.n);
      assert forall k :: 0 <= k < |Decimal(i.n)| ==> IsDigit(Decimal(i.n)[k]);
    }
  }

  /** The identifiers up to the first hyphen; the one it is in is cut before it. */
  function CutAtHyphen(pre: seq<Ident>): seq<Ident> {
    if pre == [] then []
    else
      var text := IdentText(pre[0]);
      var i := Find(text, '-');
      if i < |text| then [Key(text[..i])] else [pre[0]] + CutAtHyphen(pre[1..])
  }

  function CutVersion(v: SemVer): SemVer {
    v.(pre := CutAtHyphen(v.pre))
  }

  /** Up to the first hyphen. */
  function BeforeHyphen(s: string): string {
    s[..Find(s, '-')]
  }

  /** The place of the first hyphen is the one with a hyphen and none before. */
  lemma HyphenAt(s: string, i: nat)
    requires i <= |s| && (i < |s| ==> s[i] == '-') && forall k :: 0 <= k < i ==> s[k] != '-'
    ensures Find(s, '-') == i
  {
  }

  lemma HyphenInFirst(text: string, rest: string)
    requires Find(text, '-') < |text|
    ensures BeforeHyphen(text + rest) == BeforeHyphen(text)
  {
    HyphenAt(text + rest, Find(text, '-'));
  }

  lemma HyphenInRest(text: string, rest: string)
    requires Free(text, '-')
    ensures BeforeHyphen(text + rest) == text + BeforeHyphen(rest)
  {
    HyphenAt(text + rest, |text| + Find(rest, '-'));
  }

  /** The first of several identifiers has the hyphen, or it is in the others. */
  lemma BeforeHyphenOfFirst(text: string, rest: string)
    requires Find(text, '-') < |text|
    ensures BeforeHyphen(text + ['.'] + rest) == BeforeHyphen(text)
  {
    Grouped(text, ['.'], rest);
    HyphenInFirst(text, ['.'] + rest);
  }

  lemma BeforeHyphenOfRest(text: string, rest: string)
    requires Find(text, '-') == |text|
    ensures BeforeHyphen(text + ['.'] + rest) == text + ['.'] + BeforeHyphen(rest)
  {
    var first := text + ['.'];
    assert forall k :: 0 <= k < |first| ==> first[k] == if k < |text| then text[k] else '.';
    HyphenInRest(first, rest);
  }

  /** A text whose first identifier has the hyphen, or the only one. */
  lemma KeysOfOne(text: string)
    requires Free(text, '.')
    ensures Keys(Split(BeforeHyphen(text), '.')) == [Key(BeforeHyphen(text))]
  {
    FindNone(BeforeHyphen(text), '.');
    assert [BeforeHyphen(text)][1..] == [];
  }

  lemma KeysOfMore(text: string, rest: string)
    requires Free(text, '.')
    ensures Keys(Split(text + ['.'] + rest, '.')) == [Key(text)] + Keys(Split(rest, '.'))
  {
    SplitOne(text, '.', rest);
    assert ([text] + Split(rest, '.'))[1..] == Split(rest, '.');
  }

  /** Reading the joined identifiers up to the first hyphen gives the identifiers cut there. */
  lemma {:induction false} KeysCut(pre: seq<Ident>)
    requires pre != [] && forall k :: 0 <= k < |pre| ==> StandardIdent(pre[k])
    ensures Keys(Split(BeforeHyphen(Join(Texts(pre), '.')), '.')) == CutAtHyphen(pre)
  {
    var text := IdentText(pre[0]);
    KeyOfText(pre[0]);
    KeysOfOne(text);
    if |pre| > 1 {
      var rest := Join(Texts(pre[1..]), '.');
      assert Texts(pre)[1..] == Texts(pre[1..]);
      if Find(text, '-') < |text| {
        BeforeHyphenOfFirst(text, rest);
      } else {
        BeforeHyphenOfRest(text, rest);
        KeysCut(pre[1..]);
        KeysOfMore(text, BeforeHyphen(rest));
      }
    } else {
      assert Texts(pre) == [text];
      assert CutAtHyphen(pre[1..]) == [] && [pre[0]] + [] == [pre[0]];
      assert Find(text, '-') == |text| ==> BeforeHyphen(text) == text;
    }
  }

  lemma {:induction false} PlainIsNotCut(pre: seq<Ident>)
    requires forall k :: 0 <= k < |pre| ==> Plain(pre[k])
    ensures CutAtHyphen(pre) == pre
  {
    if pre != [] {
      KeyOfText(pre[0]);
      FindNone(IdentText(pre[0]), '-');
      PlainIsNotCut(pre[1..]);
      assert pre == [pre[0]] + pre[1..];
    }
  }

  lemma {:induction false} CoreSplits(v: SemVer)
    requires StandardVersion(v)
    ensures Split(Join(CoreTexts(v), '.'), '.') == CoreTexts(v)
    ensures Free(Join(CoreTexts(v), '.'), '-')
  {
    var core := CoreTexts(v);
    forall k | 0 <= k < |core|
      ensures Free(core[k], '.') && Free(core[k], '-')
    {
      assert IsDigits(core[k]);
    }
    SplitJoin(core, '.');
    JoinFree(core, '.', '-');
  }

  /** What `split` takes for the core and for the pre-release part. */
  lemma PiecesOf(v: SemVer)
    requires StandardVersion(v)
    ensures var pieces := Split(VersionText(v), '-');
            && pieces[0] == Join(CoreTexts(v), '.')
            && (|pieces| > 1 <==> v.pre != [])
            && (v.pre != [] ==> pieces[1] == BeforeHyphen(Join(Texts(v.pre), '.')))
  {
    var core := Join(CoreTexts(v), '.');
    CoreSplits(v);
    if v.pre == [] {
      FindNone(core, '-');
    } else {
      SplitOne(core, '-', Join(Texts(v.pre), '.'));
    }
  }

  /** Reading a written version gives the version cut at the first hyphen of its pre-release part. */
  lemma SplitReadsCut(v: SemVer, number: string -> Num)
    requires StandardVersion(v) && ReadsDigits(number)
    ensures NumericCore(SplitVersion(VersionText(v), number))
    ensures Meaning(SplitVersion(VersionText(v), number)) == CutVersion(v)
  {
    PiecesOf(v);
    CoreSplits(v);
    ValueOfDecimal(v.major);
    ValueOfDecimal(v.minor);
    ValueOfDecimal(v.patch);
    if v.pre != [] {
      KeysCut(v.pre);
    }
  }

  /** Reading a written version without such hyphens back gives the version. */
  lemma SplitReadsVersion(v: SemVer, number: string -> Num)
    requires PlainVersion(v) && ReadsDigits(number)
    ensures NumericCore(SplitVersion(VersionText(v), number))
    ensures Meaning(SplitVersion(VersionText(v), number)) == v
  {
    SplitReadsCut(v, number);
    PlainIsNotCut(v.pre);
  }

  /**
   * For all versions the standard allows, hyphens included and no build metadata: the answer for their
   * texts is precedence of section 11 of the versions cut at the first pre-release hyphen.
   */
  lemma NewerIsPrecedenceOfCut(candidate: SemVer, running: SemVer, number: string -> Num)
    requires StandardVersion(candidate) && StandardVersion(running) && ReadsDigits(number)
    ensures Newer(SplitVersion(VersionText(candidate), number), SplitVersion(VersionText(running), number))
            <==> Precedes(CutVersion(running), CutVersion(candidate))
  {
    SplitReadsCut(candidate, number);
    SplitReadsCut(running, number);
    NewerIsPrecedence(SplitVersion(VersionText(candidate), number), SplitVersion(VersionText(running), number));
  }

  /** So `1.0.0-a-c` is not newer than `1.0.0-a-b`, although section 11 puts it higher. */
  lemma HyphenHidesPrecedence(number: string -> Num)
    requires ReadsDigits(number)
    ensures var lower, higher := SemVer(1, 0, 0, [Alpha("a-b")]), SemVer(1, 0, 0, [Alpha("a-c")]);
            && StandardVersion(lower) && StandardVersion(higher) && Precedes(lower, higher)
            && !Newer(SplitVersion(VersionText(higher), number), SplitVersion(VersionText(lower), number))
  {
    var lower, higher := SemVer(1, 0, 0, [Alpha("a-b")]), SemVer(1, 0, 0, [Alpha("a-c")]);
    assert "a-b"[0] == 'a' && "a-c"[0] == 'a' && "a-b"[1] == '-' && "a-c"[1] == '-';
    assert StringLess("a-b", "a-c") by {
      assert "a-b"[1..] == "-b" && "a-c"[1..] == "-c" && "-b"[1..] == "b" && "-c"[1..] == "c";
    }
    assert Find("a-b", '-') == 1 && Find("a-c", '-') == 1;
    assert "a-b"[..1] == "a" && "a-c"[..1] == "a";
    assert CutVersion(lower) == CutVersion(higher);
    PrecedenceOrder(CutVersion(lower), CutVersion(lower), CutVersion(lower));
    NewerIsPrecedenceOfCut(higher, lower, number);
  }

  /**
   * For all versions the standard allows, with no build metadata and no hyphen in a pre-release
   * identifier, the answer for their texts is precedence of section 11.
   */
  lemma NewerIsSectionEleven(candidate: SemVer, running: SemVer, number: string -> Num)
    requires PlainVersion(candidate) && PlainVersion(running) && ReadsDigits(number)
    ensures Newer(SplitVersion(VersionText(candidate), number), SplitVersion(VersionText(running), number))
            <==> Precedes(running, candidate)
  {
    SplitReadsVersion(candidate, number);
    SplitReadsVersion(running, number);
    NewerIsPrecedence(SplitVersion(VersionText(candidate), number), SplitVersion(VersionText(running), number));
  }

  /** What follows a second hyphen is not read: whatever it is, the version is split the same. */
  lemma SecondHyphenIsDropped(core: string, pre: string, more: string, number: string -> Num)
    requires Free(core, '-') && Free(pre, '-')
    ensures SplitVersion(core + ['-'] + (pre + ['-'] + more), number) == SplitVersion(core + ['-'] + pre, number)
  {
    SplitOne(core, '-', pre + ['-'] + more);
    SplitOne(pre, '-', more);
    SplitOne(core, '-', pre);
    FindNone(pre, '-');
  }
}
