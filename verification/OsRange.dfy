/** `src/contract/os-range.ts`: the grammar of an OS constraint and what it means. */
module OsRange {
  import opened Common
  import opened Text

  /** A version at or above `from`, and below `before`. */
  datatype Bound = Bound(from: Option<seq<nat>>, before: Option<seq<nat>>)

  datatype Constraint = Exact(version: string) | Range(text: string, bounds: seq<Bound>)

  datatype Operator = Ge | Gt | Le | Lt

  // ---------------------------------------------------------------- comparing

  /** `bump`: the next version of the same precision. */
  function Bump(version: seq<nat>): seq<nat>
    requires version != []
  {
    version[|version| - 1 := version[|version| - 1] + 1]
  }

  function ComparatorBound(op: Operator, version: seq<nat>): Bound
    requires version != []
  {
    match op
    case Ge => Bound(Some(version), None)
    case Gt => Bound(Some(Bump(version)), None)
    case Le => Bound(None, Some(Bump(version)))
    case Lt => Bound(None, Some(version))
  }

  /** A missing segment reads as 0. */
  function Part(parts: seq<Num>, i: nat): Num {
    if i < |parts| then parts[i] else N(0)
  }

  function BoundPart(version: seq<nat>, i: nat): nat {
    if i < |version| then version[i] else 0
  }

  function Difference(parts: seq<Num>, version: seq<nat>, i: nat): Num {
    match Part(parts, i) case NaN => NaN case N(value) => N(value - BoundPart(version, i))
  }

  /** `compareSegments` from index `i` on: the first difference that is not 0. */
  function Compare(parts: seq<Num>, version: seq<nat>, i: nat): Num
    decreases |parts| + |version| - i
  {
    if i >= |parts| && i >= |version| then N(0)
    else if Difference(parts, version, i) != N(0) then Difference(parts, version, i)
    else Compare(parts, version, i + 1)
  }

  /** Comparing a number with 0; `NaN` is on neither side. */
  predicate AtLeastZero(n: Num) {
    n.N? && n.value >= 0
  }

  predicate BelowZero(n: Num) {
    n.N? && n.value < 0
  }

  predicate WithinBound(parts: seq<Num>, bound: Bound) {
    && (bound.from.Some? ==> AtLeastZero(Compare(parts, bound.from.value, 0)))
    && (bound.before.Some? ==> BelowZero(Compare(parts, bound.before.value, 0)))
  }

  /** `satisfies` for a range, on the segments of the device's version. */
  predicate Within(parts: seq<Num>, bounds: seq<Bound>) {
    forall k :: 0 <= k < |bounds| ==> WithinBound(parts, bounds[k])
  }

  // ---------------------------------------------------------------- what a range means

  /** A version of dotted integers. */
  ghost predicate Dotted(parts: seq<Num>) {
    forall k :: 0 <= k < |parts| ==> parts[k].N? && parts[k].value >= 0
  }

  /** The device's version starts with `version`, missing segments being 0. */
  ghost predicate HasPrefix(parts: seq<Num>, version: seq<nat>) {
    forall i :: 0 <= i < |version| ==> Part(parts, i) == N(version[i])
  }

  /** The first place where the device's version differs from `version` is `j`. */
  ghost predicate DiffersFirstAt(parts: seq<Num>, version: seq<nat>, j: nat) {
    && j < |version| && Part(parts, j) != N(version[j])
    && forall i :: 0 <= i < j ==> Part(parts, i) == N(version[i])
  }

  /** It is older there, or newer there. */
  ghost predicate Older(parts: seq<Num>, version: seq<nat>) {
    exists j: nat :: DiffersFirstAt(parts, version, j) && Part(parts, j).N? && Part(parts, j).value < version[j]
  }

  ghost predicate Newer(parts: seq<Num>, version: seq<nat>) {
    exists j: nat :: DiffersFirstAt(parts, version, j) && Part(parts, j).N? && Part(parts, j).value > version[j]
  }

  lemma {:induction false} CompareSkips(parts: seq<Num>, version: seq<nat>, i: nat, j: nat)
    requires i <= j && forall k :: i <= k < j ==> Difference(parts, version, k) == N(0)
    ensures Compare(parts, version, i) == Compare(parts, version, j)
    decreases j - i
  {
    if i < j {
      CompareSkips(parts, version, i + 1, j);
    }
  }

  /** The comparison is decided at the first difference. */
  lemma CompareAt(parts: seq<Num>, version: seq<nat>, j: nat)
    requires DiffersFirstAt(parts, version, j)
    ensures Compare(parts, version, 0) == Difference(parts, version, j)
  {
    CompareSkips(parts, version, 0, j);
  }

  lemma {:induction false} RestIsNotOlder(parts: seq<Num>, version: seq<nat>, i: nat)
    requires Dotted(parts) && |version| <= i
    ensures AtLeastZero(Compare(parts, version, i))
    decreases |parts| + |version| - i
  {
    if i < |parts| && Difference(parts, version, i) == N(0) {
      RestIsNotOlder(parts, version, i + 1);
    }
  }

  lemma PrefixIsNotOlder(parts: seq<Num>, version: seq<nat>)
    requires Dotted(parts) && HasPrefix(parts, version)
    ensures AtLeastZero(Compare(parts, version, 0))
  {
    CompareSkips(parts, version, 0, |version|);
    RestIsNotOlder(parts, version, |version|);
  }

  /** Either the version starts with the bound, or it differs from it somewhere first. */
  lemma {:induction false} FirstDifference(parts: seq<Num>, version: seq<nat>, i: nat) returns (j: nat)
    requires i <= |version| && forall k :: 0 <= k < i ==> Part(parts, k) == N(version[k])
    ensures if j == |version| then HasPrefix(parts, version) else DiffersFirstAt(parts, version, j)
    decreases |version| - i
  {
    if i == |version| || Part(parts, i) != N(version[i]) {
      return i;
    }
    j := FirstDifference(parts, version, i + 1);
  }

  lemma OneFirstDifference(parts: seq<Num>, version: seq<nat>, a: nat, b: nat)
    requires DiffersFirstAt(parts, version, a) && DiffersFirstAt(parts, version, b)
    ensures a == b
  {
  }

  /** For dotted integers exactly one holds: older than the bound, starting with it, newer. */
  lemma OlderPrefixOrNewer(parts: seq<Num>, version: seq<nat>)
    requires Dotted(parts)
    ensures Older(parts, version) || HasPrefix(parts, version) || Newer(parts, version)
    ensures !(Older(parts, version) && HasPrefix(parts, version))
    ensures !(Newer(parts, version) && HasPrefix(parts, version))
    ensures !(Older(parts, version) && Newer(parts, version))
  {
    var j := FirstDifference(parts, version, 0);
    if j < |version| {
      assert DiffersFirstAt(parts, version, j);
    }
    forall a: nat, b: nat | DiffersFirstAt(parts, version, a) && DiffersFirstAt(parts, version, b)
      ensures a == b
    {
      OneFirstDifference(parts, version, a, b);
    }
  }

  /** `>=V` and `<V`: not older than V, and older than V. */
  lemma CompareMeansOlder(parts: seq<Num>, version: seq<nat>)
    requires Dotted(parts)
    ensures BelowZero(Compare(parts, version, 0)) <==> Older(parts, version)
    ensures AtLeastZero(Compare(parts, version, 0)) <==> !Older(parts, version)
  {
    OlderPrefixOrNewer(parts, version);
    var j := FirstDifference(parts, version, 0);
    if j == |version| {
      PrefixIsNotOlder(parts, version);
    } else {
      CompareAt(parts, version, j);
    }
  }

  /** `>V` and `<=V`: newer than V, and not newer than V, a prefix counting as V itself. */
  lemma {:induction false} BumpMeansNewer(parts: seq<Num>, version: seq<nat>)
    requires Dotted(parts) && version != []
    ensures Older(parts, Bump(version)) <==> !Newer(parts, version)
  {
    OlderPrefixOrNewer(parts, version);
    var last := |version| - 1;
    var j := FirstDifference(parts, version, 0);
    var bumped := Bump(version);
    if j == |version| {
      assert DiffersFirstAt(parts, bumped, last);
    } else if j < last {
      assert DiffersFirstAt(parts, bumped, j);
      assert DiffersFirstAt(parts, version, j);
      OlderPrefixOrNewer(parts, bumped);
    } else {
      assert DiffersFirstAt(parts, version, j);
      OlderPrefixOrNewer(parts, bumped);
      assert Part(parts, last).value != version[last] + 1 ==> DiffersFirstAt(parts, bumped, last);
      assert Part(parts, last).value == version[last] + 1 ==> HasPrefix(parts, bumped);
    }
  }

  /**
   * What each comparator means for a version of dotted integers: exactly one of `<V`, "V is a
   * zero-padded prefix", `>V` holds, and the others follow from it.
   */
  lemma ComparatorMeaning(parts: seq<Num>, version: seq<nat>)
    requires Dotted(parts) && version != []
    ensures WithinBound(parts, ComparatorBound(Lt, version)) <==> Older(parts, version)
    ensures WithinBound(parts, ComparatorBound(Ge, version)) <==> HasPrefix(parts, version) || Newer(parts, version)
    ensures WithinBound(parts, ComparatorBound(Gt, version)) <==> Newer(parts, version)
    ensures WithinBound(parts, ComparatorBound(Le, version)) <==> Older(parts, version) || HasPrefix(parts, version)
    ensures Within(parts, [ComparatorBound(Ge, version), ComparatorBound(Le, version)]) <==> HasPrefix(parts, version)
  {
    OlderPrefixOrNewer(parts, version);
    CompareMeansOlder(parts, version);
    CompareMeansOlder(parts, Bump(version));
    BumpMeansNewer(parts, version);
    var both := [ComparatorBound(Ge, version), ComparatorBound(Le, version)];
    assert Within(parts, both) <==> WithinBound(parts, both[0]) && WithinBound(parts, both[1]);
  }

  /** `>=A <=B`: not older than A and not newer than B. */
  lemma BetweenMeaning(parts: seq<Num>, a: seq<nat>, b: seq<nat>)
    requires Dotted(parts) && a != [] && b != []
    ensures Within(parts, [ComparatorBound(Ge, a), ComparatorBound(Le, b)]) <==> !Older(parts, a) && !Newer(parts, b)
  {
    ComparatorMeaning(parts, a);
    ComparatorMeaning(parts, b);
    OlderPrefixOrNewer(parts, a);
    OlderPrefixOrNewer(parts, b);
    var bounds := [ComparatorBound(Ge, a), ComparatorBound(Le, b)];
    assert Within(parts, bounds) <==> WithinBound(parts, bounds[0]) && WithinBound(parts, bounds[1]);
  }

  /** Segment `k` is the first that is not a number. */
  ghost predicate FirstNaN(parts: seq<Num>, k: nat) {
    k < |parts| && parts[k] == NaN && forall i :: 0 <= i < k ==> parts[i].N?
  }

  /**
   * The source says a version that is not dotted integers satisfies no range. It compares with a
   * bound exactly when a segment before the first that is not a number differs; `WithinNoneExactly`
   * draws the consequence.
   */
  lemma ComparesExactlyBeforeNaN(parts: seq<Num>, version: seq<nat>, k: nat)
    requires FirstNaN(parts, k)
    ensures Compare(parts, version, 0).N? <==> exists j :: 0 <= j < k && parts[j] != N(BoundPart(version, j))
  {
    if j :| 0 <= j < k && parts[j] != N(BoundPart(version, j)) {
      FirstUnequal(parts, version, k, 0, j);
    } else {
      CompareSkips(parts, version, 0, k);
    }
  }

  lemma {:induction false} FirstUnequal(parts: seq<Num>, version: seq<nat>, k: nat, i: nat, j: nat)
    requires FirstNaN(parts, k) && i <= j < k && parts[j] != N(BoundPart(version, j))
    ensures Compare(parts, version, i).N?
    decreases j - i
  {
    if Difference(parts, version, i) == N(0) {
      FirstUnequal(parts, version, k, i + 1, j);
    }
  }

  /** A range: at least one bound, each with a side. */
  ghost predicate Bounded(bounds: seq<Bound>) {
    bounds != [] && forall k :: 0 <= k < |bounds| ==> bounds[k].from.Some? || bounds[k].before.Some?
  }

  /** In particular a version whose first segment is not a number satisfies no range. */
  lemma NotANumberSatisfiesNothing(parts: seq<Num>, bounds: seq<Bound>)
    requires FirstNaN(parts, 0) && Bounded(bounds)
    ensures !Within(parts, bounds)
  {
    if bounds[0].from.Some? {
      ComparesExactlyBeforeNaN(parts, bounds[0].from.value, 0);
    } else {
      ComparesExactlyBeforeNaN(parts, bounds[0].before.value, 0);
    }
    assert !WithinBound(parts, bounds[0]);
  }

  /** A version number above the first segment. */
  function AboveFirst(parts: seq<Num>): nat
    requires parts != [] && parts[0].N?
  {
    if parts[0].value < 0 then 1 else parts[0].value + 1
  }

  /** A version whose first segment is a number is below any greater one, whatever follows it. */
  lemma BelowAGreaterFirst(parts: seq<Num>)
    requires parts != [] && parts[0].N?
    ensures Within(parts, [ComparatorBound(Lt, [AboveFirst(parts)])])
  {
    var above := [AboveFirst(parts)];
    assert Difference(parts, above, 0) == N(parts[0].value - above[0]);
    assert Compare(parts, above, 0) == Difference(parts, above, 0);
  }

  ghost predicate WithinNone(parts: seq<Num>) {
    forall bounds | Bounded(bounds) :: !Within(parts, bounds)
  }

  /**
   * The exact condition, for every version, dotted integers or not: it satisfies no range if and only
   * if its first segment is not a number.
   */
  lemma WithinNoneExactly(parts: seq<Num>)
    requires parts != []
    ensures WithinNone(parts) <==> parts[0] == NaN
  {
    if parts[0] == NaN {
      forall bounds | Bounded(bounds)
        ensures !Within(parts, bounds)
      {
        NotANumberSatisfiesNothing(parts, bounds);
      }
    } else {
      BelowAGreaterFirst(parts);
      assert Bounded([ComparatorBound(Lt, [AboveFirst(parts)])]);
    }
  }
}
