/** The call timers of the installer at work: a fired timer settles its call, and time always goes on. */
module InstallTime {
  import opened Common
  import opened InstallQueue
  import opened InstallQueueRuns
  import opened InstallCallRuns

  ghost function OpenCalls(s: State): set<nat> {
    set c: nat | c < |s.calls| && Open(s, c)
  }

  /** What the expiry of an open call does to the calls. */
  ghost predicate TimedOutAlone(s: State, r: State, c: nat) {
    && r.now == s.now && r.timeoutMs == s.timeoutMs && c < |r.calls| == |s.calls|
    && r.calls[c] == s.calls[c].(timer := None, settlements := [Settlement(TimedOut, s.now)])
    && OpenCalls(r) <= OpenCalls(s) - {c}
    && SameArrivals(s, r)
  }

  lemma ExpireRunning(s: State, c: nat)
    requires CallsOk(s) && Open(s, c) && s.installs[s.calls[c].install].state == Running
    ensures TimedOutAlone(s, Expire(s, c), c)
  {
    var i := s.calls[c].install;
    assert CallOk(s, c) && ListOk(s, i);
    SettleAllEffect(SetRun(s, i, Ended, s.installs[i].point), i, TimedOut);
  }

  lemma ExpireSettles(s: State, c: nat)
    requires CallsOk(s) && Open(s, c)
    ensures TimedOutAlone(s, Expire(s, c), c)
  {
    if s.installs[s.calls[c].install].state == Running {
      ExpireRunning(s, c);
    } else {
      assert CallOk(s, c);
    }
  }

  lemma TimerSettles(s: State, c: nat)
    requires CallsOk(s) && Enabled(s, Timer(c))
    ensures s.now == s.calls[c].arrivedAt + s.timeoutMs
    ensures TimedOutAlone(s, Step(s, Timer(c)), c)
  {
    assert CallOk(s, c);
    ExpireIgnoresTimer(s, c);
    ExpireSettles(s, c);
  }

  /**
   * In every run a timer that fires settles its call with a timeout, exactly at the call's deadline,
   * and opens no call.
   */
  lemma {:induction false} FiredTimerSettles(timeoutMs: nat, events: seq<Event>, c: nat)
    requires Enabled(Run(timeoutMs, events), Timer(c))
    ensures var s := Run(timeoutMs, events);
            && s.now == s.calls[c].arrivedAt + timeoutMs
            && TimedOutAlone(s, Step(s, Timer(c)), c)
  {
    RunOk(timeoutMs, events);
    TimerSettles(Run(timeoutMs, events), c);
  }

  // ---------------------------------------------------------------- time goes on

  /** The state after more events. */
  ghost function After(s: State, events: seq<Event>): State
    decreases |events|
  {
    if events == [] then s else After(Step(s, events[0]), events[1..])
  }

  lemma {:induction false} RunAfter(timeoutMs: nat, events: seq<Event>, more: seq<Event>)
    ensures Run(timeoutMs, events + more) == After(Run(timeoutMs, events), more)
    decreases |more|
  {
    if more == [] {
      assert events + more == events;
    } else {
      var next := events + [more[0]];
      RunExtends(timeoutMs, events, more[0]);
      RunAfter(timeoutMs, next, more[1..]);
      FirstOf(events, more);
    }
  }

  /** Two calls with timers, the first due no later. */
  predicate DueNoLater(s: State, c: nat, d: nat) {
    Armed(s, c) && Armed(s, d) && s.calls[c].timer.value <= s.calls[d].timer.value
  }

  /** Among calls with timers, one that is due first. */
  lemma {:induction false} FirstDue(s: State, armed: set<nat>) returns (first: nat)
    requires armed != {} && forall c: nat | c in armed :: Armed(s, c)
    ensures first in armed
    ensures forall c: nat | c in armed :: DueNoLater(s, first, c)
    decreases |armed|
  {
    var some: nat :| some in armed;
    var rest := armed - {some};
    var other := some;
    if rest != {} {
      other := FirstDue(s, rest);
    }
    first := if DueNoLater(s, some, other) then some else other;
    assert Armed(s, some) && Armed(s, other);
    forall c: nat | c in armed
      ensures DueNoLater(s, first, c)
    {
      assert c == some || DueNoLater(s, other, c);
    }
  }

  /** An open call has its timer armed, and a call with its timer armed is open. */
  lemma ArmedIsOpen(s: State)
    requires CallsOk(s)
    ensures forall c: nat :: Armed(s, c) <==> c in OpenCalls(s)
  {
    forall c: nat
      ensures Armed(s, c) <==> c in OpenCalls(s)
    {
      assert c < |s.calls| ==> CallOk(s, c);
    }
  }

  /** A timer is due before `to`: time passes to the first one, and it fires. */
  lemma NextTimer(s: State, to: nat) returns (c: nat, due: nat)
    requires CallsOk(s) && !NoTimerDueBefore(s, to)
    ensures s.now <= due < to && Step(s, Tick(due)) == s.(now := due)
    ensures CallsOk(s.(now := due)) && Enabled(s.(now := due), Timer(c)) && c in OpenCalls(s)
  {
    ArmedIsOpen(s);
    c := FirstDue(s, OpenCalls(s));
    assert DueNoLater(s, c, c) && CallOk(s, c);
    due := s.calls[c].timer.value;
    forall d: nat | Armed(s, d)
      ensures due <= s.calls[d].timer.value
    {
      assert DueNoLater(s, c, d);
    }
    ClockCalls(s, s.(now := due));
  }

  ghost predicate Good(s: State) {
    QueuesOk(s) && AllMoving(s) && CallsOk(s)
  }

  lemma StepGood(s: State, e: Event)
    requires Good(s)
    ensures Good(Step(s, e))
  {
    QueueStep(s, e);
    CallStep(s, e);
  }

  ghost predicate SameArrivals(s: State, r: State) {
    |r.calls| == |s.calls| && forall d: nat :: d < |s.calls| ==> r.calls[d].arrivedAt == s.calls[d].arrivedAt
  }

  /** The state in which the first timer due has fired. */
  lemma FireNext(s: State, to: nat) returns (c: nat, due: nat, r: State)
    requires Good(s) && !NoTimerDueBefore(s, to)
    ensures r == Step(Step(s, Tick(due)), Timer(c)) && Good(r)
    ensures r.now <= to && |OpenCalls(r)| < |OpenCalls(s)|
    ensures SameArrivals(s, r)
  {
    c, due := NextTimer(s, to);
    var ticked: State := s.(now := due);
    TimerSettles(ticked, c);
    r := Step(ticked, Timer(c));
    assert OpenCalls(ticked) == OpenCalls(s);
    SmallerSet(OpenCalls(r), OpenCalls(s), c);
    StepGood(s, Tick(due));
    StepGood(ticked, Timer(c));
  }

  lemma SmallerSet(a: set<nat>, b: set<nat>, x: nat)
    requires a <= b - {x} && x in b
    ensures |a| < |b|
  {
    assert b - {x} == a + (b - {x} - a);
  }

  ghost predicate OnlyTimePasses(events: seq<Event>) {
    forall k :: 0 <= k < |events| ==> events[k].Tick? || events[k].Timer?
  }

  lemma AfterTwo(s: State, e: Event, f: Event, rest: seq<Event>)
    ensures After(s, [e, f] + rest) == After(Step(Step(s, e), f), rest)
  {
    var all := [e, f] + rest;
    assert all[1..] == [f] + rest;
    assert ([f] + rest)[1..] == rest;
  }

  lemma {:induction false} TimeReachesFrom(s: State, to: nat, open: nat) returns (more: seq<Event>)
    requires Good(s) && s.now <= to && |OpenCalls(s)| <= open
    ensures OnlyTimePasses(more) && After(s, more).now == to
    ensures SameArrivals(s, After(s, more))
    decreases open
  {
    if NoTimerDueBefore(s, to) {
      more := [Tick(to)];
      assert After(s, more) == Step(s, Tick(to));
    } else {
      var c, due, r := FireNext(s, to);
      var rest := TimeReachesFrom(r, to, open - 1);
      AfterTwo(s, Tick(due), Timer(c), rest);
      more := [Tick(due), Timer(c)] + rest;
    }
  }

  /**
   * Time is never stuck: from every reachable state, timers alone bring the clock to any later time.
   */
  lemma {:induction false} TimeReaches(timeoutMs: nat, events: seq<Event>, to: nat) returns (more: seq<Event>)
    requires Run(timeoutMs, events).now <= to
    ensures OnlyTimePasses(more) && Run(timeoutMs, events + more).now == to
  {
    var s := Run(timeoutMs, events);
    RunOk(timeoutMs, events);
    more := TimeReachesFrom(s, to, |OpenCalls(s)|);
    RunAfter(timeoutMs, events, more);
  }

  /** From every reachable state, a run of timers settles a given call, at its deadline at the latest. */
  lemma {:induction false} EveryCallIsSettled(timeoutMs: nat, events: seq<Event>, c: nat) returns (more: seq<Event>)
    requires c < |Run(timeoutMs, events).calls|
    ensures OnlyTimePasses(more)
    ensures var r := Run(timeoutMs, events + more);
            && c < |r.calls| && |r.calls[c].settlements| == 1
            && r.calls[c].settlements[0].at <= r.calls[c].arrivedAt + timeoutMs
  {
    var s := Run(timeoutMs, events);
    RunOk(timeoutMs, events);
    var deadline := s.calls[c].arrivedAt + timeoutMs;
    more := TimeReachesFrom(s, if s.now > deadline then s.now else deadline + 1, |OpenCalls(s)|);
    RunAfter(timeoutMs, events, more);
    CallsSettledOnceInTime(timeoutMs, events + more, c);
  }
}
