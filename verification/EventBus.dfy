/** `EventBus` of `src/bus/index.ts` and the order of `src/bus/order.ts`: a ring of the last events. */
module EventBus {
  import opened Common

  /** `body` stands for the id, the event name, the payload and the module. */
  datatype Envelope = Envelope(seqNo: nat, timestamp: int, body: string)

  /** An envelope before it is numbered. */
  datatype Stamped = Stamped(timestamp: int, body: string)

  /** A publish and the publishes its handlers make in turn, in the order they are dispatched. */
  datatype Publish = Publish(stamped: Stamped, reactions: seq<Publish>)

  /** The envelopes of a list of publishes in the order they are numbered: each before those its
      handlers publish, and all of those before the next one. */
  function Flat(publishes: seq<Publish>): seq<Stamped> {
    if publishes == [] then []
    else [publishes[0].stamped] + Flat(publishes[0].reactions) + Flat(publishes[1..])
  }

  lemma {:induction false} FlatAppend(a: seq<Publish>, b: seq<Publish>)
    ensures Flat(a + b) == Flat(a) + Flat(b)
  {
    if a == [] {
      assert a + b == b;
    } else {
      FlatAppend(a[1..], b);
      assert (a + b)[1..] == a[1..] + b;
      var head := [a[0].stamped] + Flat(a[0].reactions);
      Grouped(head, Flat(a[1..]), Flat(b));
    }
  }

  function Last<T>(xs: seq<T>, n: nat): seq<T> {
    if |xs| <= n then xs else xs[|xs| - n..]
  }

  /** The first `n` published are numbered 1 to `n`. */
  function Numbered(stamped: seq<Stamped>, from: nat): seq<Envelope> {
    seq(|stamped|, k requires 0 <= k < |stamped| => Envelope(from + k, stamped[k].timestamp, stamped[k].body))
  }

  // ---------------------------------------------------------------- the order of replay

  /** `byTimeThenSeq(a, b) <= 0` */
  predicate NotAfter(a: Envelope, b: Envelope) {
    a.timestamp < b.timestamp || (a.timestamp == b.timestamp && a.seqNo <= b.seqNo)
  }

  /** By time, and by number where the times are equal. */
  ghost predicate Sorted(es: seq<Envelope>) {
    forall a, b :: 0 <= a < b < |es| ==>
      || es[a].timestamp < es[b].timestamp
      || (es[a].timestamp == es[b].timestamp && es[a].seqNo <= es[b].seqNo)
  }

  /** The same, with no two envelopes in one place. */
  ghost predicate StrictlySorted(es: seq<Envelope>) {
    forall a, b :: 0 <= a < b < |es| ==>
      || es[a].timestamp < es[b].timestamp
      || (es[a].timestamp == es[b].timestamp && es[a].seqNo < es[b].seqNo)
  }

  function Insert(e: Envelope, es: seq<Envelope>): (r: seq<Envelope>)
    ensures multiset(r) == multiset{e} + multiset(es)
  {
    if es == [] || NotAfter(e, es[0]) then [e] + es
    else
      assert es == [es[0]] + es[1..];
      [es[0]] + Insert(e, es[1..])
  }

  lemma {:induction false} InsertSorted(e: Envelope, es: seq<Envelope>)
    requires Sorted(es)
    ensures Sorted(Insert(e, es))
  {
    if es != [] && !NotAfter(e, es[0]) {
      InsertSorted(e, es[1..]);
      var r := Insert(e, es[1..]);
      forall b | 0 <= b < |r|
        ensures NotAfter(es[0], r[b])
      {
        assert r[b] in multiset(r);
        assert r[b] == e || r[b] in es[1..];
      }
    }
  }

  function Sort(es: seq<Envelope>): (r: seq<Envelope>)
    ensures multiset(r) == multiset(es)
  {
    if es == [] then []
    else
      assert es == [es[0]] + es[1..];
      Insert(es[0], Sort(es[1..]))
  }

  lemma {:induction false} SortSorted(es: seq<Envelope>)
    ensures Sorted(Sort(es))
  {
    if es != [] {
      SortSorted(es[1..]);
      InsertSorted(es[0], Sort(es[1..]));
    }
  }

  /** The `filter` of `replay`. */
  predicate Passes(e: Envelope, sinceSeq: Option<int>, sinceTs: Option<int>) {
    (sinceSeq.None? || e.seqNo > sinceSeq.value) && (sinceTs.None? || e.timestamp > sinceTs.value)
  }

  function Filtered(es: seq<Envelope>, sinceSeq: Option<int>, sinceTs: Option<int>): seq<Envelope> {
    if es == [] then []
    else (if Passes(es[0], sinceSeq, sinceTs) then [es[0]] else []) + Filtered(es[1..], sinceSeq, sinceTs)
  }

  lemma CountedOnce(head: Envelope, tail: seq<Envelope>, e: Envelope)
    ensures multiset([head] + tail)[e] == multiset(tail)[e] + if e == head then 1 else 0
  {
  }

  /** The filter keeps an envelope as often as it occurs, if its number is above the one given and its time
      after the one given, and otherwise not at all. */
  lemma {:induction false} FilteredCounts(es: seq<Envelope>, sinceSeq: Option<int>, sinceTs: Option<int>, e: Envelope)
    ensures multiset(Filtered(es, sinceSeq, sinceTs))[e]
            == if (sinceSeq.Some? ==> e.seqNo > sinceSeq.value) && (sinceTs.Some? ==> e.timestamp > sinceTs.value)
               then multiset(es)[e] else 0
  {
    if es != [] {
      FilteredCounts(es[1..], sinceSeq, sinceTs, e);
      CountedOnce(es[0], es[1..], e);
      assert es == [es[0]] + es[1..];
      var rest := Filtered(es[1..], sinceSeq, sinceTs);
      if Passes(es[0], sinceSeq, sinceTs) {
        assert Filtered(es, sinceSeq, sinceTs) == [es[0]] + rest;
        CountedOnce(es[0], rest, e);
      } else {
        assert Filtered(es, sinceSeq, sinceTs) == rest;
      }
    }
  }

  lemma HeadsAgree(a: seq<Envelope>, b: seq<Envelope>)
    requires Sorted(a) && Sorted(b) && multiset(a) == multiset(b) && a != []
    requires forall x, y :: x in a && y in a && x.seqNo == y.seqNo ==> x == y
    ensures b != [] && a[0] == b[0]
  {
    assert a[0] in multiset(b);
    assert b[0] in multiset(a);
    var i :| 0 <= i < |a| && a[i] == b[0];
    var j :| 0 <= j < |b| && b[j] == a[0];
    assert i > 0 ==> NotAfter(a[0], a[i]);
    assert j > 0 ==> NotAfter(b[0], b[j]);
  }

  lemma TailOf(a: seq<Envelope>)
    requires a != []
    ensures multiset(a[1..]) == multiset(a) - multiset{a[0]}
  {
    assert a == [a[0]] + a[1..];
  }

  /** Two sorted arrangements of the same envelopes are the same: numbers tell envelopes apart, so
      the order `replay` answers in does not depend on the sorting algorithm. */
  lemma {:induction false} SortedIsUnique(a: seq<Envelope>, b: seq<Envelope>)
    requires Sorted(a) && Sorted(b) && multiset(a) == multiset(b)
    requires forall x, y :: x in a && y in a && x.seqNo == y.seqNo ==> x == y
    ensures a == b
    decreases |a|
  {
    if a == [] {
      assert |b| == |multiset(b)| == |multiset(a)| == 0;
    } else {
      HeadsAgree(a, b);
      TailOf(a);
      TailOf(b);
      SortedIsUnique(a[1..], b[1..]);
      assert a == [a[0]] + a[1..] && b == [b[0]] + b[1..];
    }
  }

  lemma NumberedAppend(a: seq<Stamped>, b: seq<Stamped>, from: nat)
    ensures Numbered(a + b, from) == Numbered(a, from) + Numbered(b, from + |a|)
  {
  }

  // ---------------------------------------------------------------- the ring

  /** The place of the envelope written `age` appends before the next one at `next`. */
  function Slot(capacity: nat, next: nat, age: nat): int {
    if age <= next then next - age else next - age + capacity
  }

  /** A ring of envelopes with the newest of a history, going back from the next place to write. */
  ghost predicate RingHolds(ring: seq<Option<Envelope>>, next: nat, count: nat, history: seq<Envelope>) {
    && next < |ring| && (|history| < |ring| ==> next == |history|)
    && count == (if |history| < |ring| then |history| else |ring|)
    && forall age :: 1 <= age <= count ==> ring[Slot(|ring|, next, age)] == Some(history[|history| - age])
  }

  /** The next place to write, going around. */
  function Following(capacity: nat, next: nat): nat
    requires next < capacity
  {
    if next + 1 == capacity then 0 else next + 1
  }

  lemma RingAppends(ring: seq<Option<Envelope>>, next: nat, count: nat, history: seq<Envelope>, e: Envelope)
    requires RingHolds(ring, next, count, history)
    ensures RingHolds(ring[next := Some(e)], Following(|ring|, next),
                      if count < |ring| then count + 1 else count, history + [e])
  {
    var after := Following(|ring|, next);
    var more := if count < |ring| then count + 1 else count;
    forall age | 1 <= age <= more
      ensures ring[next := Some(e)][Slot(|ring|, after, age)] == Some((history + [e])[|history| + 1 - age])
    {
      if age == 1 {
        assert Slot(|ring|, after, 1) == next;
      } else {
        assert Slot(|ring|, after, age) == Slot(|ring|, next, age - 1) != next;
        assert ring[Slot(|ring|, next, age - 1)] == Some(history[|history| - (age - 1)]);
      }
    }
  }

  // ---------------------------------------------------------------- the bus

  class Bus {
    const capacity: nat
    const events: array<Option<Envelope>>
    var nextSequence: nat
    var nextEventIndex: nat
    var eventCount: nat
    /** Every envelope ever published, oldest first. */
    ghost var history: seq<Envelope>

    /** The ring agrees with the history: going back from the next place to write, it holds the
        newest envelopes, as many as fit. */
    ghost predicate Valid()
      reads this, events
    {
      && events.Length == capacity && nextSequence == |history| + 1
      && (forall k :: 0 <= k < |history| ==> history[k].seqNo == k + 1)
      && RingHolds(events[..], nextEventIndex, eventCount, history)
    }

    constructor (capacity: nat)
      requires capacity > 0
      ensures Valid() && history == [] && this.capacity == capacity && fresh(events)
    {
      this.capacity := capacity;
      events := new Option<Envelope>[capacity](_ => None);
      nextSequence, nextEventIndex, eventCount, history := 1, 0, 0, [];
    }

    /** The constructor's refusal of a capacity that is not positive. */
    static method Create(capacity: int) returns (bus: Bus?)
      ensures bus == null <==> capacity < 1
      ensures bus != null ==>
                && fresh(bus) && fresh(bus.events) && bus.Valid() && bus.history == [] && bus.capacity == capacity
    {
      if capacity < 1 {
        return null;
      }
      bus := new Bus(capacity);
    }

    /** `#append`, and the numbering of `#publish` before it. */
    method Append(stamped: Stamped)
      requires Valid()
      modifies this, events
      ensures Valid() && history == old(history) + Numbered([stamped], |old(history)| + 1)
    {
      var envelope := Envelope(nextSequence, stamped.timestamp, stamped.body);
      nextSequence := nextSequence + 1;
      events[nextEventIndex] := Some(envelope);
      SmallRemainder(nextEventIndex + 1, capacity);
      nextEventIndex := (nextEventIndex + 1) % capacity;
      if eventCount < capacity {
        eventCount := eventCount + 1;
      }
      RingAppends(old(events[..]), old(nextEventIndex), old(eventCount), old(history), envelope);
      history := history + [envelope];
    }

    /** `#publish`: numbers, stores, then runs the handlers, which may publish themselves. */
    method PublishAll(publishes: seq<Publish>)
      requires Valid()
      modifies this, events
      ensures Valid() && history == old(history) + Numbered(Flat(publishes), |old(history)| + 1)
      decreases publishes
    {
      ghost var start := history;
      for i := 0 to |publishes|
        invariant Valid() && history == PublishedSoFar(start, publishes, i)
      {
        Append(publishes[i].stamped);
        PublishAll(publishes[i].reactions);
        PublishedOne(start, publishes, i);
      }
      assert publishes[..|publishes|] == publishes;
    }

    /** `#retainedEvents` */
    method Retained() returns (retained: seq<Envelope>)
      requires Valid()
      ensures retained == Last(history, capacity)
    {
      var oldest := if eventCount == capacity then nextEventIndex else 0;
      retained := [];
      ghost var first := |history| - eventCount;
      for index := 0 to eventCount
        invariant retained == history[first..first + index]
      {
        SmallRemainder(oldest + index, capacity);
        assert (oldest + index) % capacity == Slot(capacity, nextEventIndex, eventCount - index);
        var event := events[(oldest + index) % capacity];
        if event.Some? {
          retained := retained + [event.value];
        }
      }
    }

    /** `replay`: the retained envelopes numbered above `sinceSeq` and later than `sinceTs`, each once, by time
        and then number. */
    method Replay(sinceSeq: Option<int>, sinceTs: Option<int>) returns (r: seq<Envelope>)
      requires Valid()
      ensures r == Replayed(history, capacity, sinceSeq, sinceTs)
      ensures forall e ::
                e in r <==>
                  && e in Last(history, capacity)
                  && (sinceSeq.Some? ==> e.seqNo > sinceSeq.value)
                  && (sinceTs.Some? ==> e.timestamp > sinceTs.value)
      ensures forall a, b :: 0 <= a < b < |r| ==>
                r[a].timestamp < r[b].timestamp || (r[a].timestamp == r[b].timestamp && r[a].seqNo < r[b].seqNo)
    {
      var retained := Retained();
      r := Sort(Filtered(retained, sinceSeq, sinceTs));
      ReplayedExactly(history, capacity, sinceSeq, sinceTs);
    }
  }

  // ---------------------------------------------------------------- what a reader gets

  /** What `replay` answers for a history. */
  function Replayed(history: seq<Envelope>, capacity: nat, sinceSeq: Option<int>, sinceTs: Option<int>)
    : seq<Envelope>
  {
    Sort(Filtered(Last(history, capacity), sinceSeq, sinceTs))
  }

  /** Numbers count up. */
  ghost predicate NumbersAscend(es: seq<Envelope>) {
    forall a, b :: 0 <= a < b < |es| ==> es[a].seqNo < es[b].seqNo
  }

  /** Envelopes whose numbers count up occur once each. */
  lemma {:induction false} AscendingOnce(es: seq<Envelope>, e: Envelope)
    requires NumbersAscend(es)
    ensures multiset(es)[e] <= 1
  {
    if es != [] {
      AscendingOnce(es[1..], e);
      CountedOnce(es[0], es[1..], e);
      assert es == [es[0]] + es[1..];
      assert forall k :: 0 <= k < |es[1..]| ==> es[0].seqNo < es[1..][k].seqNo;
      assert es[0] !in es[1..];
    }
  }

  /** An envelope in two places is counted twice. */
  lemma InTwoPlaces(es: seq<Envelope>, a: nat, b: nat)
    requires a < b < |es| && es[a] == es[b]
    ensures multiset(es)[es[a]] >= 2
  {
    assert es == es[..b] + es[b..];
    assert es[..b][a] == es[a] && es[b..][0] == es[b];
  }

  /** Among numbers that count up, one number is one envelope. */
  lemma OneNumberOneEnvelope(es: seq<Envelope>, x: Envelope, y: Envelope)
    requires NumbersAscend(es) && x in es && y in es && x.seqNo == y.seqNo
    ensures x == y
  {
    var i :| 0 <= i < |es| && es[i] == x;
    var j :| 0 <= j < |es| && es[j] == y;
  }

  /** Sorting a part of a history leaves no two envelopes in one place. */
  lemma SortedPart(es: seq<Envelope>, all: seq<Envelope>)
    requires Sorted(es) && NumbersAscend(all) && (forall e :: multiset(es)[e] <= multiset(all)[e])
    ensures StrictlySorted(es)
  {
    forall a, b | 0 <= a < b < |es|
      ensures es[a].seqNo != es[b].seqNo
    {
      assert es[a] in multiset(es) && es[b] in multiset(es);
      assert es[a] in multiset(all) && es[b] in multiset(all);
      if es[a].seqNo == es[b].seqNo {
        OneNumberOneEnvelope(all, es[a], es[b]);
        InTwoPlaces(es, a, b);
        AscendingOnce(all, es[a]);
      }
    }
  }

  lemma LastAscends(history: seq<Envelope>, capacity: nat)
    requires NumbersAscend(history)
    ensures NumbersAscend(Last(history, capacity))
  {
  }

  /** A replay has exactly the retained envelopes above the number and after the time given, each once and
      in the order of time and number. */
  lemma {:induction false} ReplayedExactly(
    history: seq<Envelope>, capacity: nat, sinceSeq: Option<int>, sinceTs: Option<int>)
    requires NumbersAscend(history)
    ensures var r := Replayed(history, capacity, sinceSeq, sinceTs);
            && StrictlySorted(r)
            && forall e ::
                 e in r <==>
                   && e in Last(history, capacity)
                   && (sinceSeq.Some? ==> e.seqNo > sinceSeq.value)
                   && (sinceTs.Some? ==> e.timestamp > sinceTs.value)
  {
    var retained := Last(history, capacity);
    var kept := Filtered(retained, sinceSeq, sinceTs);
    var r := Sort(kept);
    SortSorted(kept);
    forall e: Envelope
      ensures multiset(r)[e]
              == if (sinceSeq.Some? ==> e.seqNo > sinceSeq.value) && (sinceTs.Some? ==> e.timestamp > sinceTs.value)
                 then multiset(retained)[e] else 0
      ensures e in r <==> multiset(r)[e] > 0
      ensures e in retained <==> multiset(retained)[e] > 0
    {
      FilteredCounts(retained, sinceSeq, sinceTs, e);
    }
    LastAscends(history, capacity);
    SortedPart(r, retained);
  }

  /** A history as the bus numbers it. */
  ghost predicate NumberedFromOne(history: seq<Envelope>) {
    forall k :: 0 <= k < |history| ==> history[k].seqNo == k + 1
  }

  lemma LastOfBoth(seen: seq<Envelope>, more: seq<Envelope>, capacity: nat, e: Envelope)
    requires NumberedFromOne(seen + more)
    ensures e in Last(seen + more, capacity) && e.seqNo > |seen| <==> e in Last(more, capacity)
  {
    var all, kept, late := seen + more, Last(seen + more, capacity), Last(more, capacity);
    if e in kept && e.seqNo > |seen| {
      var k :| 0 <= k < |kept| && kept[k] == e;
      var at := |all| - |kept| + k;
      assert all[at] == e && at >= |seen|;
      assert late[at - (|all| - |late|)] == e;
    }
    if e in late {
      var k :| 0 <= k < |late| && late[k] == e;
      var at := |all| - |late| + k;
      assert all[at] == e;
      assert kept[at - (|all| - |kept|)] == e;
    }
  }

  /**
   * A reader that has seen everything up to an envelope and replays from its number gets exactly what was
   * published since, as far as it is retained: what it has seen is never repeated, and nothing of the last
   * `capacity` envelopes is left out.
   */
  lemma {:induction false} ResumeRepeatsAndMissesNothing(seen: seq<Envelope>, more: seq<Envelope>, capacity: nat)
    requires NumberedFromOne(seen + more)
    ensures var r := Replayed(seen + more, capacity, Some(|seen|), None);
            && (forall e :: e in r <==> e in Last(more, capacity))
            && (forall e :: e in seen ==> e !in r)
  {
    ReplayedExactly(seen + more, capacity, Some(|seen|), None);
    forall e
      ensures e in Last(seen + more, capacity) && e.seqNo > |seen| <==> e in Last(more, capacity)
    {
      LastOfBoth(seen, more, capacity, e);
    }
    forall e | e in seen
      ensures e.seqNo <= |seen|
    {
      var k :| 0 <= k < |seen| && seen[k] == e;
      assert (seen + more)[k] == e;
    }
  }

  /** A history after the first publishes of a list. */
  ghost function PublishedSoFar(start: seq<Envelope>, publishes: seq<Publish>, i: nat): seq<Envelope>
    requires i <= |publishes|
  {
    start + Numbered(Flat(publishes[..i]), |start| + 1)
  }

  /** One more publish, with everything its handlers publish, at the end of a history. */
  lemma PublishedOne(start: seq<Envelope>, publishes: seq<Publish>, i: nat)
    requires i < |publishes|
    ensures var before := PublishedSoFar(start, publishes, i);
            var stored := before + Numbered([publishes[i].stamped], |before| + 1);
            stored + Numbered(Flat(publishes[i].reactions), |stored| + 1) == PublishedSoFar(start, publishes, i + 1)
  {
    var done, own, more := Flat(publishes[..i]), [publishes[i].stamped], Flat(publishes[i].reactions);
    FlatAppend(publishes[..i], [publishes[i]]);
    assert publishes[..i + 1] == publishes[..i] + [publishes[i]];
    assert Flat([publishes[i]]) == own + more;
    ThreeParts(start, done, own, more);
  }

  lemma ThreeParts(start: seq<Envelope>, done: seq<Stamped>, own: seq<Stamped>, more: seq<Stamped>)
    ensures start + Numbered(done, |start| + 1) + Numbered(own, |start| + |done| + 1)
            + Numbered(more, |start| + |done| + |own| + 1)
            == start + Numbered(done + (own + more), |start| + 1)
  {
    NumberedAppend(own, more, |start| + 1 + |done|);
    NumberedAppend(done, own + more, |start| + 1);
  }

  lemma SmallRemainder(x: nat, n: nat)
    requires x < 2 * n
    ensures x % n == if x < n then x else x - n
  {
    var q := x / n;
    assert x == q * n + x % n;
    assert q == 0 || q == 1;
  }
}
