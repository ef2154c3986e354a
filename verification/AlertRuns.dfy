/** What every run of an alert queue keeps. */
module AlertRuns {
  import opened Common
  import opened Alerts

  /** A message leaves the slot this long after its first try at the latest. */
  const MAX_IN_FLIGHT_MS: nat := 36_000

  /** How long after the first try the try number `attempt` has timed out. */
  function TryEndsBy(attempt: nat): nat {
    if attempt == 1 then 10_000 else if attempt == 2 then 21_000 else 36_000
  }

  /** Every ticket has one fate, and it says where the ticket is. */
  ghost predicate FatesOk(s: State) {
    && Ascending(s.waiting)
    && |s.waiting| <= MAX_WAITING
    && (forall t :: t in s.waiting ==> t < |s.fates| && s.fates[t] == Queued)
    && (forall t: nat :: t < |s.fates| && s.fates[t] == Queued ==> t in s.waiting)
    && (s.current.Some? ==> s.current.value.ticket < |s.fates| && s.fates[s.current.value.ticket] == InFlight)
    && (forall t: nat :: t < |s.fates| && s.fates[t] == InFlight ==> s.current.Some? && s.current.value.ticket == t)
    && (s.current.Some? ==> forall t :: t in s.waiting ==> s.current.value.ticket < t)
    && (s.stopped ==> s.current.None?)
    && (s.current.None? ==> s.waiting == [])
  }

  ghost predicate Before(p: Post, q: Post) {
    p.ticket < q.ticket || (p.ticket == q.ticket && p.attempt < q.attempt)
  }

  /** POSTs follow the order of `enqueue`, each message's tries count up to at most 3, and a try is
      settled before the next one begins. */
  ghost predicate InOrder(posts: seq<Post>) {
    && (forall a, b :: 0 <= a < b < |posts| ==>
          Before(posts[a], posts[b]) && (posts[a].ticket == posts[b].ticket ==> posts[a].settled))
    && (forall a :: 0 <= a < |posts| ==> 1 <= posts[a].attempt <= MAX_TRIES)
  }

  /** No POST is of an envelope that is still waiting or of one not yet started. */
  ghost predicate NotAhead(s: State) {
    forall a :: 0 <= a < |s.posts| ==>
      && s.posts[a].ticket < |s.fates|
      && (forall t :: t in s.waiting ==> s.posts[a].ticket < t)
      && (s.current.Some? ==> s.posts[a].ticket <= s.current.value.ticket)
      && (s.current.Some? && s.current.value.started.None? ==> s.posts[a].ticket < s.current.value.ticket)
  }

  predicate OpenPost(p: Post) {
    !p.answered && !p.aborted
  }

  /** The only POST that may still answer and was not aborted is the newest, while it is timed; one
      that was aborted is settled, unless stop aborted it. */
  ghost predicate OnlyNewestOpen(s: State) {
    forall a :: 0 <= a < |s.posts| ==>
      && (OpenPost(s.posts[a]) ==>
            && a == |s.posts| - 1 && s.current.Some? && s.current.value.timer.Some?
            && s.current.value.timer.value.TryTimeout?)
      && (s.posts[a].aborted ==> s.posts[a].settled || s.stopped)
  }

  ghost predicate PostsOk(s: State) {
    InOrder(s.posts) && NotAhead(s) && OnlyNewestOpen(s)
  }

  ghost predicate TimerOk(s: State) {
    s.current.Some? ==>
      var m := s.current.value;
      && (m.started.None? ==> m.timer.None?)
      && (m.started.Some? ==>
            && m.timer.Some? && m.started.value <= s.now <= m.timer.value.due
            && s.posts != [] && var last := s.posts[|s.posts| - 1];
            && last.ticket == m.ticket
            && match m.timer.value
               case TryTimeout(post, due) =>
                 post == |s.posts| - 1 && !last.settled && due <= m.started.value + TryEndsBy(last.attempt)
               case Retry(attempt, due) =>
                 last.settled && last.attempt == attempt < MAX_TRIES
                 && due <= m.started.value + TryEndsBy(attempt) + RetryWait(attempt))
  }

  ghost predicate Inv(s: State) {
    FatesOk(s) && PostsOk(s) && TimerOk(s)
  }

  /** The fates a ticket keeps once it has one of them. */
  predicate Final(fate: Fate) {
    fate in {Delivered, GaveUp, Dropped, Discarded}
  }

  ghost predicate FinalKept(s: State, r: State) {
    && |s.fates| <= |r.fates|
    && forall t: nat :: t < |s.fates| && Final(s.fates[t]) ==> r.fates[t] == s.fates[t]
  }

  // ---------------------------------------------------------------- steps

  lemma PumpOk(s: State)
    requires Ascending(s.waiting) && |s.waiting| <= MAX_WAITING
    requires forall t :: t in s.waiting ==> t < |s.fates| && s.fates[t] == Queued
    requires forall t: nat :: t < |s.fates| && s.fates[t] == Queued ==> t in s.waiting
    requires forall t: nat :: t < |s.fates| ==> s.fates[t] != InFlight
    requires s.current.None? && !s.stopped && PostsOk(s)
    ensures Inv(Pump(s)) && FinalKept(s, Pump(s))
  {
    var r := Pump(s);
    if s.waiting != [] {
      assert s.waiting[0] in s.waiting;
      assert forall t :: t in s.waiting <==> t == s.waiting[0] || t in s.waiting[1..];
    }
  }

  lemma FinishOk(s: State, fate: Fate)
    requires FatesOk(s) && PostsOk(s.(current := None)) && s.current.Some? && Final(fate)
    ensures Inv(Finish(s, fate)) && FinalKept(s, Finish(s, fate))
  {
    PumpOk(SetFate(s, s.current.value.ticket, fate).(current := None));
  }

  lemma EnqueueOk(s: State)
    requires Inv(s)
    ensures Inv(Enqueue(s)) && FinalKept(s, Enqueue(s))
  {
    if !s.stopped {
      var room := if |s.waiting| >= MAX_WAITING
                  then SetFate(s.(waiting := s.waiting[1..]), s.waiting[0], Dropped) else s;
      RoomOk(s, room);
      var added := room.(waiting := room.waiting + [|room.fates|], fates := room.fates + [Queued]);
      AddedOk(room, added);
      if added.current.None? {
        PumpOk(added);
      }
    }
  }

  /** Dropping the oldest makes room and nothing else. */
  lemma RoomOk(s: State, room: State)
    requires Inv(s) && !s.stopped
    requires room == if |s.waiting| >= MAX_WAITING
                     then SetFate(s.(waiting := s.waiting[1..]), s.waiting[0], Dropped) else s
    ensures Inv(room) && |room.waiting| < MAX_WAITING && !room.stopped && FinalKept(s, room)
  {
    if |s.waiting| >= MAX_WAITING {
      assert s.waiting[0] in s.waiting;
      assert forall t :: t in s.waiting <==> t == s.waiting[0] || t in s.waiting[1..];
    }
  }

  lemma AddedOk(s: State, added: State)
    requires Inv(s) && |s.waiting| < MAX_WAITING
    requires added == s.(waiting := s.waiting + [|s.fates|], fates := s.fates + [Queued])
    ensures Ascending(added.waiting) && |added.waiting| <= MAX_WAITING
    ensures forall t :: t in added.waiting ==> t < |added.fates| && added.fates[t] == Queued
    ensures forall t: nat :: t < |added.fates| && added.fates[t] == Queued ==> t in added.waiting
    ensures PostsOk(added) && FinalKept(s, added)
    ensures added.current.Some? ==> Inv(added)
  {
    assert forall t :: t in added.waiting <==> t == |s.fates| || t in s.waiting;
    assert forall k :: 0 <= k < |s.waiting| ==> s.waiting[k] in s.waiting;
  }

  lemma StopPosts(s: State)
    requires Inv(s)
    ensures PostsOk(Stop(s))
  {
    var r := Stop(s);
    assert forall a :: 0 <= a < |s.posts| ==>
        r.posts[a] == s.posts[a].(aborted := r.posts[a].aborted) && (s.posts[a].aborted ==> r.posts[a].aborted);
    forall a, b | 0 <= a < b < |r.posts|
      ensures Before(r.posts[a], r.posts[b]) && (r.posts[a].ticket == r.posts[b].ticket ==> r.posts[a].settled)
    {
      assert Before(s.posts[a], s.posts[b]);
    }
  }

  lemma StopOk(s: State)
    requires Inv(s)
    ensures Inv(Stop(s)) && FinalKept(s, Stop(s))
    ensures forall t: nat :: t < |Stop(s).fates| ==> Final(Stop(s).fates[t])
  {
    StopPosts(s);
  }

  lemma AttemptOk(s: State, attempt: nat)
    requires FatesOk(s) && PostsOk(s) && s.current.Some? && 1 <= attempt <= MAX_TRIES
    requires s.current.value.started.None? ==> attempt == 1
    requires s.current.value.started.Some? ==>
               && s.current.value.started.value <= s.now
               && s.posts != [] && s.posts[|s.posts| - 1].ticket == s.current.value.ticket
               && s.posts[|s.posts| - 1].attempt + 1 == attempt
               && s.now + TRY_TIMEOUT_MS <= s.current.value.started.value + TryEndsBy(attempt)
    requires forall a :: 0 <= a < |s.posts| ==> s.posts[a].answered || s.posts[a].aborted
    requires forall a :: 0 <= a < |s.posts| && s.posts[a].ticket == s.current.value.ticket ==> s.posts[a].settled
    ensures Inv(Attempt(s, attempt)) && FinalKept(s, Attempt(s, attempt))
  {
    var r := Attempt(s, attempt);
    assert InOrder(r.posts) by {
      forall a | 0 <= a < |s.posts|
        ensures Before(r.posts[a], r.posts[|s.posts|])
      {
        assert a < |s.posts| - 1 ==> Before(s.posts[a], s.posts[|s.posts| - 1]);
      }
    }
  }

  /** A POST whose answer or timeout counts is the newest one, and its timer is armed. */
  lemma CountsIsCurrent(s: State, post: nat)
    requires Inv(s) && Counts(s, post)
    ensures post == |s.posts| - 1
    ensures s.current.value.timer.Some? && s.current.value.timer.value.TryTimeout?
  {
    assert s.posts[post].ticket == s.current.value.ticket;
  }

  /** Setting flags of one POST, none of them back, keeps the order. */
  lemma FlaggedInOrder(posts: seq<Post>, post: nat, p: Post)
    requires InOrder(posts) && post < |posts|
    requires p == posts[post].(settled := p.settled, aborted := p.aborted, answered := p.answered)
    requires posts[post].settled ==> p.settled
    ensures InOrder(posts[post := p])
  {
    var r := posts[post := p];
    forall a, b | 0 <= a < b < |r|
      ensures Before(r[a], r[b]) && (r[a].ticket == r[b].ticket ==> r[a].settled)
    {
      assert Before(posts[a], posts[b]);
    }
  }

  /** The newest POST of the message in flight is settled with this answer or abort. */
  function SettledBy(s: State, post: nat, aborted: bool, answered: bool): State
    requires post < |s.posts| && s.current.Some?
  {
    s.(posts := s.posts[post := s.posts[post].(settled := true, aborted := aborted, answered := answered)],
       current := Some(s.current.value.(timer := None)))
  }

  lemma SettledByOk(s: State, post: nat, aborted: bool, answered: bool)
    requires Inv(s) && Counts(s, post) && (aborted || answered)
    ensures var r := SettledBy(s, post, aborted, answered);
            && FatesOk(r) && PostsOk(r.(current := None)) && PostsOk(r)
            && (forall a :: 0 <= a < |r.posts| ==> !OpenPost(r.posts[a]))
  {
    CountsIsCurrent(s, post);
    FlaggedInOrder(s.posts, post, s.posts[post].(settled := true, aborted := aborted, answered := answered));
  }

  /** The timer of the wait before the next try. */
  lemma WaitOk(s: State, post: nat, aborted: bool, answered: bool)
    requires Inv(s) && Counts(s, post) && (aborted || answered) && s.posts[post].attempt < MAX_TRIES
    ensures var settled := SettledBy(s, post, aborted, answered);
            var attempt := s.posts[post].attempt;
            var timer := Some(Retry(attempt, s.now + RetryWait(attempt)));
            var r := settled.(current := Some(settled.current.value.(timer := timer)));
            Inv(r) && FinalKept(s, r)
  {
    CountsIsCurrent(s, post);
    SettledByOk(s, post, aborted, answered);
  }

  /** A settled try that ends in a decision. */
  lemma DecideOk(s: State, post: nat, outcome: Outcome, aborted: bool, answered: bool)
    requires Inv(s) && Counts(s, post) && (aborted || answered)
    ensures var r := Decide(SettledBy(s, post, aborted, answered), s.posts[post].attempt, outcome);
            Inv(r) && FinalKept(s, r)
  {
    var settled := SettledBy(s, post, aborted, answered);
    SettledByOk(s, post, aborted, answered);
    if Success(outcome) {
      FinishOk(settled, Delivered);
    } else if !Retryable(outcome) || s.posts[post].attempt >= MAX_TRIES {
      FinishOk(settled, GaveUp);
    } else {
      WaitOk(s, post, aborted, answered);
    }
  }

  lemma {:induction false} AnswerOk(s: State, post: nat, outcome: Outcome)
    requires Inv(s) && post < |s.posts|
    ensures Inv(Answer(s, post, outcome)) && FinalKept(s, Answer(s, post, outcome))
  {
    var answered := s.(posts := s.posts[post := s.posts[post].(answered := true)]);
    if Counts(s, post) {
      DecideOk(s, post, outcome, s.posts[post].aborted, true);
      assert answered.posts[post := answered.posts[post].(settled := true)]
          == SettledBy(s, post, s.posts[post].aborted, true).posts;
    } else {
      assert Answer(s, post, outcome) == answered;
      LateOk(s, answered, post);
    }
  }

  lemma LateOk(s: State, answered: State, post: nat)
    requires Inv(s) && post < |s.posts|
    requires answered == s.(posts := s.posts[post := s.posts[post].(answered := true)])
    ensures Inv(answered) && FinalKept(s, answered)
  {
    FlaggedInOrder(s.posts, post, s.posts[post].(answered := true));
  }

  lemma TimeoutOk(s: State, post: nat)
    requires Inv(s) && post < |s.posts|
    ensures Inv(Timeout(s, post)) && FinalKept(s, Timeout(s, post))
  {
    if Counts(s, post) {
      DecideOk(s, post, Failure, true, s.posts[post].answered);
      var aborted := s.(posts := s.posts[post := s.posts[post].(aborted := true)]);
      assert aborted.posts[post := aborted.posts[post].(settled := true)]
          == SettledBy(s, post, true, s.posts[post].answered).posts;
    }
  }

  lemma RetryOk(s: State, attempt: nat)
    requires Inv(s) && Enabled(s, TimerFires) && s.current.value.timer.value.Retry?
    requires attempt == s.current.value.timer.value.attempt
    ensures Inv(Attempt(s, attempt + 1)) && FinalKept(s, Attempt(s, attempt + 1))
  {
    AttemptOk(s, attempt + 1);
  }

  /** The callbacks cancel or replace the timer, so they do the same whether or not it was armed. */
  lemma FireIgnoresTimer(s: State)
    requires Inv(s) && Enabled(s, TimerFires)
    ensures Step(s, TimerFires) == Fire(s, s.current.value.timer.value)
  {
    match s.current.value.timer.value
    case TryTimeout(post, _) => assert Counts(s, post);
    case Retry(attempt, _) =>
  }

  lemma FireOk(s: State)
    requires Inv(s) && Enabled(s, TimerFires)
    ensures Inv(Step(s, TimerFires)) && FinalKept(s, Step(s, TimerFires))
  {
    FireIgnoresTimer(s);
    match s.current.value.timer.value
    case TryTimeout(post, _) => TimeoutOk(s, post);
    case Retry(attempt, _) => RetryOk(s, attempt);
  }

  lemma StartOk(s: State, built: bool)
    requires Inv(s) && s.current.Some? && s.current.value.started.None?
    ensures Inv(Start(s, built)) && FinalKept(s, Start(s, built))
  {
    if built {
      AttemptOk(s, 1);
    } else {
      FinishOk(s, GaveUp);
    }
  }

  lemma TickOk(s: State, to: nat)
    requires Inv(s) && Enabled(s, Tick(to))
    ensures Inv(s.(now := to))
  {
  }

  lemma StepOk(s: State, e: Event)
    requires Inv(s)
    ensures Inv(Step(s, e)) && FinalKept(s, Step(s, e))
  {
    if Enabled(s, e) {
      match e
      case EnqueueCalled => EnqueueOk(s);
      case StopCalled => StopOk(s);
      case Microtask(built) => StartOk(s, built);
      case PostSettled(post, outcome) => AnswerOk(s, post, outcome);
      case TimerFires => FireOk(s);
      case Tick(to) => TickOk(s, to);
    }
  }

  lemma {:induction false} RunOk(events: seq<Event>)
    ensures Inv(Run(events))
  {
    if events != [] {
      RunOk(events[..|events| - 1]);
      StepOk(Run(events[..|events| - 1]), events[|events| - 1]);
    }
  }

  // ---------------------------------------------------------------- theorems

  /**
   * Conservation: at every moment every envelope ever enqueued has exactly one fate, the ones
   * waiting are exactly the queue, in order and at most 100, and the one in flight is exactly
   * the current message; nothing is in either place after stop.
   */
  lemma EveryEnvelopeHasOnePlace(events: seq<Event>)
    ensures var s := Run(events);
            && Ascending(s.waiting) && |s.waiting| <= 100
            && (forall t: nat | t < |s.fates| ::
                  && (s.fates[t] == Queued <==> t in s.waiting)
                  && (s.fates[t] == InFlight <==> s.current.Some? && s.current.value.ticket == t))
            && (forall t :: t in s.waiting ==> t < |s.fates|)
            && (s.stopped ==> forall t: nat :: t < |s.fates| ==> Final(s.fates[t]))
  {
    RunOk(events);
  }

  /** An envelope delivered, given up, dropped or discarded stays so, whatever comes after. */
  lemma {:induction false} FatesAreFinal(events: seq<Event>, more: seq<Event>)
    ensures FinalKept(Run(events), Run(events + more))
    decreases |more|
  {
    if more == [] {
      assert events + more == events;
    } else {
      var most := more[..|more| - 1];
      FatesAreFinal(events, most);
      RunOk(events + most);
      StepOk(Run(events + most), more[|more| - 1]);
      LastOf(events, more);
    }
  }

  /**
   * POSTs go out in the order of enqueue, at most one may still answer and was not aborted, and
   * no envelope is posted more than three times: POSTs three places apart are of different ones.
   */
  lemma PostsFollowEnqueueOrder(events: seq<Event>)
    ensures var s := Run(events);
            && (forall a, b :: 0 <= a < b < |s.posts| ==> s.posts[a].ticket <= s.posts[b].ticket)
            && (forall a, b | 0 <= a < |s.posts| && 0 <= b < |s.posts| ::
                  OpenPost(s.posts[a]) && OpenPost(s.posts[b]) ==> a == b)
            && (forall a, d | 0 <= a && a + 3 <= d < |s.posts| :: s.posts[a].ticket < s.posts[d].ticket)
  {
    RunOk(events);
    var s := Run(events);
    forall a, b | 0 <= a < b < |s.posts|
      ensures s.posts[a].ticket <= s.posts[b].ticket
    {
      assert Before(s.posts[a], s.posts[b]);
    }
    forall a, d | 0 <= a && a + 3 <= d < |s.posts|
      ensures s.posts[a].ticket < s.posts[d].ticket
    {
      assert Before(s.posts[a], s.posts[a + 1]) && Before(s.posts[a + 1], s.posts[a + 2]);
      assert Before(s.posts[a + 2], s.posts[d]);
    }
  }

  /** A message is in flight no longer than 36 000 ms from its first try, for every pattern of
      answers, failures and timeouts. */
  lemma InFlightAtMost36Seconds(events: seq<Event>)
    ensures var s := Run(events);
            s.current.Some? && s.current.value.started.Some? ==>
              s.now <= s.current.value.started.value + MAX_IN_FLIGHT_MS
  {
    RunOk(events);
  }

  /**
   * A late answer changes nothing but the record that it came: it counts only for the newest
   * POST of the message in flight, before that try was settled.
   */
  lemma LateAnswerChangesNothing(events: seq<Event>, post: nat, outcome: Outcome)
    requires post < |Run(events).posts| && !Run(events).posts[post].answered
    ensures var s := Run(events);
            var r := Step(s, PostSettled(post, outcome));
            post < |s.posts| - 1 || s.current.None? || s.posts[post].settled || s.posts[post].aborted ==>
              r == s.(posts := s.posts[post := s.posts[post].(answered := true)])
  {
    RunOk(events);
    var s := Run(events);
    if Counts(s, post) {
      CountsIsCurrent(s, post);
    }
  }
}
