/** The timers of an alert queue at work: a message leaves the slot in time, and time always goes on. */
module AlertTime {
  import opened Common
  import opened Alerts
  import opened AlertRuns

  /** Message `t` is in flight, its first try begun at `began`. */
  ghost predicate Trying(s: State, t: nat, began: nat) {
    s.current.Some? && s.current.value.ticket == t && s.current.value.started == Some(began)
  }

  /** The slot no longer holds message `t`, which has its final fate. */
  ghost predicate Settled(s: State, t: nat) {
    && t < |s.fates| && Final(s.fates[t])
    && (s.current.Some? ==> s.current.value.ticket != t && s.current.value.started.None?)
  }

  /** How many timers of the message in flight can still fire. */
  function TimersLeft(s: State): nat {
    if s.current.None? || s.current.value.timer.None? || s.posts == [] then 0
    else
      match s.current.value.timer.value
      case TryTimeout(_, _) => 2 * Past(s.posts[|s.posts| - 1].attempt) + 1
      case Retry(attempt, _) => 2 * Past(attempt)
  }

  /** How many tries are left after this one. */
  function Past(attempt: nat): nat {
    if attempt < MAX_TRIES then MAX_TRIES - attempt else 0
  }

  // ---------------------------------------------------------------- one timer

  lemma FinishSettles(s: State, fate: Fate, t: nat)
    requires FatesOk(s) && s.current.Some? && s.current.value.ticket == t && Final(fate)
    ensures Settled(Finish(s, fate), t) && Finish(s, fate).now == s.now
  {
    var freed := SetFate(s, t, fate).(current := None);
    assert t !in s.waiting;
    assert freed.waiting != [] ==> freed.waiting[0] in s.waiting;
  }

  /** What a fired timer leaves: the slot free of the message, or the same message with a later timer. */
  ghost predicate MovedOn(s: State, r: State, t: nat, began: nat) {
    && r.now == s.now
    && (Settled(r, t)
        || (Trying(r, t, began) && r.current.value.timer.Some? && r.current.value.timer.value.due > s.now
            && TimersLeft(r) < TimersLeft(s)))
  }

  lemma TimeoutMoves(s: State, t: nat, began: nat)
    requires Inv(s) && Trying(s, t, began) && Enabled(s, TimerFires) && s.current.value.timer.value.TryTimeout?
    ensures MovedOn(s, Fire(s, s.current.value.timer.value), t, began)
  {
    var post := s.current.value.timer.value.post;
    var attempt := s.posts[post].attempt;
    assert Counts(s, post);
    SettledByOk(s, post, true, s.posts[post].answered);
    var settled := SettledBy(s, post, true, s.posts[post].answered);
    assert Fire(s, s.current.value.timer.value) == Decide(settled, attempt, Failure) by {
      var aborted := s.(posts := s.posts[post := s.posts[post].(aborted := true)]);
      assert aborted.posts[post := aborted.posts[post].(settled := true)] == settled.posts;
    }
    if attempt >= MAX_TRIES {
      FinishSettles(settled, GaveUp, t);
    }
  }

  lemma RetryMoves(s: State, t: nat, began: nat)
    requires Inv(s) && Trying(s, t, began) && Enabled(s, TimerFires) && s.current.value.timer.value.Retry?
    ensures MovedOn(s, Fire(s, s.current.value.timer.value), t, began)
  {
  }

  lemma FireMoves(s: State, t: nat, began: nat)
    requires Inv(s) && Trying(s, t, began) && Enabled(s, TimerFires)
    ensures MovedOn(s, Step(s, TimerFires), t, began)
  {
    FireIgnoresTimer(s);
    if s.current.value.timer.value.TryTimeout? {
      TimeoutMoves(s, t, began);
    } else {
      RetryMoves(s, t, began);
    }
  }

  /**
   * In every run a timer that fires either frees the slot of its message, with the message's fate
   * final, or arms a timer of the same message that is due strictly later.
   */
  lemma {:induction false} FiredTimerMovesOn(events: seq<Event>, t: nat, began: nat)
    requires Trying(Run(events), t, began) && Enabled(Run(events), TimerFires)
    ensures MovedOn(Run(events), Step(Run(events), TimerFires), t, began)
  {
    RunOk(events);
    FireMoves(Run(events), t, began);
  }

  // ---------------------------------------------------------------- every run

  /** What a step does to a message in flight: it stays with its beginning, or gets its final fate. */
  ghost predicate StaysOrEnds(r: State, t: nat, began: nat) {
    Trying(r, t, began) || (t < |r.fates| && Final(r.fates[t]))
  }

  lemma FinishEnds(s: State, fate: Fate, t: nat, began: nat)
    requires FatesOk(s) && Trying(s, t, began) && Final(fate)
    ensures StaysOrEnds(Finish(s, fate), t, began)
  {
    FinishSettles(s, fate, t);
  }

  lemma AnswerStaysOrEnds(s: State, post: nat, outcome: Outcome, t: nat, began: nat)
    requires Inv(s) && Trying(s, t, began) && post < |s.posts|
    ensures StaysOrEnds(Answer(s, post, outcome), t, began)
  {
    if Counts(s, post) {
      var answered := s.(posts := s.posts[post := s.posts[post].(answered := true)]);
      var settled := answered.(posts := answered.posts[post := answered.posts[post].(settled := true)],
                               current := Some(s.current.value.(timer := None)));
      assert Answer(s, post, outcome) == Decide(settled, s.posts[post].attempt, outcome);
      FinishEnds(settled, Delivered, t, began);
      FinishEnds(settled, GaveUp, t, began);
    }
  }

  lemma EnqueueStays(s: State, t: nat, began: nat)
    requires Inv(s) && Trying(s, t, began)
    ensures Trying(Enqueue(s), t, began)
  {
  }

  lemma StopEnds(s: State, t: nat, began: nat)
    requires Inv(s) && Trying(s, t, began)
    ensures StaysOrEnds(Stop(s), t, began)
  {
    var gone := s.waiting + [t];
    assert gone[|s.waiting|] == t;
  }

  lemma StepStaysOrEnds(s: State, e: Event, t: nat, began: nat)
    requires Inv(s) && Trying(s, t, began)
    ensures StaysOrEnds(Step(s, e), t, began)
  {
    if Enabled(s, e) {
      match e
      case EnqueueCalled => EnqueueStays(s, t, began);
      case StopCalled => StopEnds(s, t, began);
      case Microtask(_) =>
      case PostSettled(post, outcome) => AnswerStaysOrEnds(s, post, outcome, t, began);
      case TimerFires => FireMoves(s, t, began);
      case Tick(_) =>
    }
  }

  lemma RunStep(events: seq<Event>, more: seq<Event>)
    requires more != []
    ensures Run(events + more) == Step(Run(events + more[..|more| - 1]), more[|more| - 1])
  {
    LastOf(events, more);
  }

  lemma {:induction false} RunStaysOrEnds(events: seq<Event>, more: seq<Event>, t: nat, began: nat)
    requires Trying(Run(events), t, began)
    ensures StaysOrEnds(Run(events + more), t, began)
    decreases |more|
  {
    if more == [] {
      assert events + more == events;
    } else {
      var most, e := more[..|more| - 1], more[|more| - 1];
      RunStaysOrEnds(events, most, t, began);
      RunOk(events + most);
      RunStep(events, more);
      var s := Run(events + most);
      if Trying(s, t, began) {
        StepStaysOrEnds(s, e, t, began);
      } else {
        StepOk(s, e);
      }
    }
  }

  /**
   * Whatever answers, failures and timeouts come: a message whose first try began at `began` has its
   * final fate in every state of every continuation that is later than 36 000 ms after.
   */
  lemma {:induction false} OutOfTheSlotInTime(events: seq<Event>, more: seq<Event>, t: nat, began: nat)
    requires Trying(Run(events), t, began)
    requires Run(events + more).now > began + MAX_IN_FLIGHT_MS
    ensures t < |Run(events + more).fates| && Final(Run(events + more).fates[t])
  {
    RunStaysOrEnds(events, more, t, began);
    InFlightAtMost36Seconds(events + more);
  }

  // ---------------------------------------------------------------- time goes on

  function After(s: State, events: seq<Event>): State
    decreases |events|
  {
    if events == [] then s else After(Step(s, events[0]), events[1..])
  }

  lemma {:induction false} RunAfter(events: seq<Event>, more: seq<Event>)
    ensures Run(events + more) == After(Run(events), more)
    decreases |more|
  {
    if more == [] {
      assert events + more == events;
    } else {
      var next := events + [more[0]];
      assert next[..|events|] == events;
      RunAfter(next, more[1..]);
      FirstOf(events, more);
    }
  }

  lemma AfterTwo(s: State, e: Event, f: Event, rest: seq<Event>)
    ensures After(s, [e, f] + rest) == After(Step(Step(s, e), f), rest)
  {
    var all := [e, f] + rest;
    assert all[1..] == [f] + rest;
    assert ([f] + rest)[1..] == rest;
  }

  ghost predicate OnlyTimePasses(events: seq<Event>) {
    forall k :: 0 <= k < |events| ==> events[k].Tick? || events[k] == TimerFires
  }

  /** The armed timer comes due and fires. */
  lemma NextTimer(s: State, t: nat, began: nat) returns (due: nat, r: State)
    requires Inv(s) && Trying(s, t, began)
    ensures s.now <= due <= began + MAX_IN_FLIGHT_MS && due == s.current.value.timer.value.due
    ensures r == Step(Step(s, Tick(due)), TimerFires) && r.now == due && Inv(r)
    ensures Settled(r, t) || (Trying(r, t, began) && TimersLeft(r) < TimersLeft(s))
  {
    due := s.current.value.timer.value.due;
    var ticked := Step(s, Tick(due));
    assert ticked == s.(now := due);
    StepOk(s, Tick(due));
    StepOk(ticked, TimerFires);
    FireMoves(ticked, t, began);
    assert TimersLeft(ticked) == TimersLeft(s);
    r := Step(ticked, TimerFires);
  }

  lemma {:induction false} SlotIsFreedFrom(s: State, t: nat, began: nat) returns (more: seq<Event>)
    requires Inv(s) && Trying(s, t, began)
    ensures OnlyTimePasses(more)
    ensures Settled(After(s, more), t) && After(s, more).now <= began + MAX_IN_FLIGHT_MS
    decreases TimersLeft(s)
  {
    var due, r := NextTimer(s, t, began);
    var rest := [];
    if !Settled(r, t) {
      rest := SlotIsFreedFrom(r, t, began);
    }
    AfterTwo(s, Tick(due), TimerFires, rest);
    more := [Tick(due), TimerFires] + rest;
  }

  /**
   * From every reachable state a message in flight gets its final fate by 36 000 ms after its first
   * try, by its own timers if nothing ever answers.
   */
  lemma {:induction false} SlotIsFreed(events: seq<Event>, t: nat, began: nat) returns (more: seq<Event>)
    requires Trying(Run(events), t, began)
    ensures OnlyTimePasses(more)
    ensures Settled(Run(events + more), t) && Run(events + more).now <= began + MAX_IN_FLIGHT_MS
  {
    RunOk(events);
    more := SlotIsFreedFrom(Run(events), t, began);
    RunAfter(events, more);
  }

  lemma {:induction false} TimeReachesFrom(s: State, to: nat) returns (more: seq<Event>)
    requires Inv(s) && s.now <= to
    ensures OnlyTimePasses(more) && After(s, more).now == to
    decreases TimersLeft(s)
  {
    if Enabled(s, Tick(to)) {
      more := [Tick(to)];
      assert After(s, more) == Step(s, Tick(to));
    } else {
      var m := s.current.value;
      var due, r := NextTimer(s, m.ticket, m.started.value);
      var rest;
      if Settled(r, m.ticket) {
        rest := [Tick(to)];
        assert After(r, rest) == Step(r, Tick(to));
      } else {
        rest := TimeReachesFrom(r, to);
      }
      AfterTwo(s, Tick(due), TimerFires, rest);
      more := [Tick(due), TimerFires] + rest;
    }
  }

  /** Time is never stuck: from every reachable state timers alone bring the clock to any later time. */
  lemma {:induction false} TimeReaches(events: seq<Event>, to: nat) returns (more: seq<Event>)
    requires Run(events).now <= to
    ensures OnlyTimePasses(more) && Run(events + more).now == to
  {
    RunOk(events);
    more := TimeReachesFrom(Run(events), to);
    RunAfter(events, more);
  }
}
