/** The string operations the contract's grammars are written with. */
module Text {

  /** `split` on one character. */
  function Split(s: string, sep: char): (r: seq<string>)
    ensures r != []
    decreases |s|
  {
    var i := Find(s, sep);
    if i == |s| then [s] else [s[..i]] + Split(s[i + 1..], sep)
  }

  /** The place of the first `c`, or the length. */
  function Find(s: string, c: char): (i: nat)
    ensures i <= |s| && (i < |s| ==> s[i] == c)
    ensures forall k :: 0 <= k < i ==> s[k] != c
  {
    if s == "" || s[0] == c then 0 else 1 + Find(s[1..], c)
  }

  predicate StartsWith(s: string, prefix: string) {
    prefix <= s
  }

  function Join(parts: seq<string>, sep: char): string
    requires parts != []
  {
    if |parts| == 1 then parts[0] else parts[0] + [sep] + Join(parts[1..], sep)
  }

  ghost predicate Free(s: string, c: char) {
    forall k :: 0 <= k < |s| ==> s[k] != c
  }

  ghost predicate AllFree(parts: seq<string>, c: char) {
    forall k :: 0 <= k < |parts| ==> Free(parts[k], c)
  }

  lemma FindAfter(a: string, c: char, b: string)
    requires Free(a, c)
    ensures Find(a + [c] + b, c) == |a|
  {
    var s := a + [c] + b;
    assert s[|a|] == c;
    assert forall k :: 0 <= k < |a| ==> s[k] == a[k];
  }

  lemma FindNone(s: string, c: char)
    requires Free(s, c)
    ensures Find(s, c) == |s|
  {
  }

  lemma SplitOne(a: string, sep: char, b: string)
    requires Free(a, sep)
    ensures Split(a + [sep] + b, sep) == [a] + Split(b, sep)
  {
    var s := a + [sep] + b;
    FindAfter(a, sep, b);
    assert s[..|a|] == a && s[|a| + 1..] == b;
  }

  /** Splitting a join gives the parts back. */
  lemma {:induction false} SplitJoin(parts: seq<string>, sep: char)
    requires parts != [] && AllFree(parts, sep)
    ensures Split(Join(parts, sep), sep) == parts
  {
    if |parts| == 1 {
      FindNone(parts[0], sep);
    } else {
      assert AllFree(parts[1..], sep);
      SplitJoin(parts[1..], sep);
      SplitOne(parts[0], sep, Join(parts[1..], sep));
    }
  }

  lemma {:induction false} JoinFree(parts: seq<string>, sep: char, c: char)
    requires parts != [] && AllFree(parts, c) && c != sep
    ensures Free(Join(parts, sep), c)
  {
    if |parts| > 1 {
      assert AllFree(parts[1..], c);
      JoinFree(parts[1..], sep, c);
    }
  }

  /** Joining a split gives the text back. */
  lemma {:induction false} JoinSplit(s: string, sep: char)
    ensures Join(Split(s, sep), sep) == s
    decreases |s|
  {
    var i := Find(s, sep);
    if i < |s| {
      var rest := s[i + 1..];
      JoinSplit(rest, sep);
      assert Split(s, sep)[1..] == Split(rest, sep);
      CutAt(s, i);
    }
  }

  lemma CutAt(s: string, i: nat)
    requires i < |s|
    ensures s == s[..i] + [s[i]] + s[i + 1..]
  {
  }

  // ---------------------------------------------------------------- numbers

  predicate IsDigit(c: char) {
    '0' <= c <= '9'
  }

  /** `/^\d+$/` */
  predicate IsDigits(s: string) {
    s != "" && forall k :: 0 <= k < |s| ==> IsDigit(s[k])
  }

  function DigitValue(c: char): nat
    requires IsDigit(c)
  {
    (c as int - '0' as int) as nat
  }

  /** What `Number` makes of a string. */
  datatype Num = N(value: int) | NaN

  /** `number` reads digits as the number they spell. */
  ghost predicate ReadsDigits(number: string -> Num) {
    forall s: string :: IsDigits(s) ==> number(s) == N(Value(s))
  }

  /** `Number` of a string of digits. */
  function Value(s: string): nat
    requires IsDigits(s)
  {
    (if |s| == 1 then 0 else 10 * Value(s[..|s| - 1])) + DigitValue(s[|s| - 1])
  }

  /** A number in decimal, without leading zeros. */
  function Decimal(n: nat): (s: string)
    ensures IsDigits(s)
  {
    if n < 10 then [('0' as int + n) as char] else Decimal(n / 10) + [('0' as int + n % 10) as char]
  }

  lemma {:induction false} ValueOfDecimal(n: nat)
    ensures Value(Decimal(n)) == n
  {
    if n >= 10 {
      ValueOfDecimal(n / 10);
      var s := Decimal(n);
      assert s[..|s| - 1] == Decimal(n / 10);
    }
  }
}
