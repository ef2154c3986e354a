/**
 * `DestinationQueue` of `src/alerts/queue.ts` with its fields. Each method is tied to the step it takes,
 * and between two steps the queue is `Valid`: what is proved of every run holds of the object.
 */
module DestinationQueue {
  import opened Common
  import opened Alerts
  import opened AlertRuns
  import opened AlertTime
  import opened AlertOutcomes

  class Queue {
    var waiting: seq<nat>
    var current: Option<Message>
    var stopped: bool
    // The clock, the poster's requests, and the ledger of what became of each envelope.
    var now: nat
    var posts: seq<Post>
    var enqueued: nat
    ghost var fates: seq<Fate>

    ghost function View(): State
      reads this
    {
      State(now, waiting, current, stopped, fates, posts)
    }

    /** The ledger has an entry for every envelope. */
    ghost predicate Counted()
      reads this
    {
      enqueued == |fates|
    }

    /** Between two steps: all that holds of every reachable state. */
    ghost predicate Valid()
      reads this
    {
      Counted() && Inv(View())
    }

    constructor ()
      ensures Valid() && View() == Initial()
    {
      waiting, current, stopped, now, posts, enqueued, fates := [], None, false, 0, [], 0, [];
    }

    // -------------------------------------------------------------- what callers and timers call

    /** `enqueue`: the answer is the envelope's ticket; it is queued or in flight, and at most 100 wait. */
    method Enqueue() returns (ticket: Option<nat>)
      requires Valid()
      modifies this
      ensures Valid() && View() == Step(old(View()), EnqueueCalled)
      ensures ticket == if old(stopped) then None else Some(|old(fates)|)
      ensures ticket.Some? ==>
                |fates| == ticket.value + 1 && fates[ticket.value] == if old(current).None? then InFlight else Queued
      ensures |waiting| <= MAX_WAITING
    {
      StepOk(View(), EnqueueCalled);
      if !stopped {
        EnqueuedIsHere(View());
      }
      if stopped {
        return None;
      }
      ticket := Some(enqueued);
      Add();
    }

    /** `stop`: answers how many envelopes it discarded; every envelope has its final fate. */
    method Stop() returns (discarded: nat)
      requires Valid()
      modifies this
      ensures Valid() && View() == Step(old(View()), StopCalled)
      ensures discarded == |old(waiting)| + (if old(current).None? then 0 else 1)
      ensures stopped && current.None? && waiting == [] && forall t: nat :: t < |fates| ==> Final(fates[t])
    {
      StopOk(View());
      stopped := true;
      discarded := |waiting| + (if current.None? then 0 else 1);
      ghost var gone := waiting + (if current.Some? then [current.value.ticket] else []);
      fates := Discard(fates, gone);
      waiting := [];
      var last := current;
      current := None;
      if last.Some? && last.value.started.Some? && posts != [] {
        posts := posts[|posts| - 1 := posts[|posts| - 1].(aborted := true)];
      }
    }

    /** The microtask of `#pump`: `#start` of the message in flight. */
    method StartMessage(built: bool)
      requires Valid() && Enabled(View(), Microtask(built))
      modifies this
      ensures Valid() && View() == Step(old(View()), Microtask(built))
      ensures if built then Posted(old(View()), View(), 1) else Ended(old(View()), View(), GaveUp)
    {
      StepOk(View(), Microtask(built));
      if !built {
        FinishGives(View(), GaveUp);
      }
      Start(built);
    }

    /** The promise of a POST settles; one that does not count changes nothing but that it has answered. */
    method Answered(post: nat, outcome: Outcome)
      requires Valid() && Enabled(View(), PostSettled(post, outcome))
      modifies this
      ensures Valid() && View() == Step(old(View()), PostSettled(post, outcome))
      ensures !Counts(old(View()), post) ==>
                View() == old(View()).(posts := old(posts)[post := old(posts)[post].(answered := true)])
      ensures Counts(old(View()), post) ==> DecidedRight(old(View()), View(), post, outcome)
    {
      StepOk(View(), PostSettled(post, outcome));
      if Counts(View(), post) {
        AnswerDecides(View(), post, outcome);
      }
      posts := posts[post := posts[post].(answered := true)];
      Settle(post, outcome);
    }

    /**
     * The armed timer fires, and is armed no more: its message leaves the slot with a final fate, or has
     * a timer that is due later.
     */
    method Fired()
      requires Valid() && Enabled(View(), TimerFires)
      modifies this
      ensures Valid() && View() == Step(old(View()), TimerFires)
      ensures var m := old(current).value;
              m.started.Some? && MovedOn(old(View()), View(), m.ticket, m.started.value)
      ensures match old(current).value.timer.value
              case TryTimeout(post, _) => post < |old(posts)| && DecidedRight(old(View()), View(), post, Failure)
              case Retry(attempt, _) => Posted(old(View()), View(), attempt + 1)
    {
      FireDecides(View());
      StepOk(View(), TimerFires);
      FireMoves(View(), current.value.ticket, current.value.started.value);
      var timer := current.value.timer.value;
      current := Some(current.value.(timer := None));
      RunCallback(timer);
    }

    /** Time passes, up to the armed timer at most. */
    method Advance(to: nat)
      requires Valid() && Enabled(View(), Tick(to))
      modifies this`now
      ensures Valid() && View() == Step(old(View()), Tick(to))
    {
      StepOk(View(), Tick(to));
      now := to;
    }

    // -------------------------------------------------------------- inside a step

    /** The ledger's entry for one envelope. */
    ghost method Mark(ticket: nat, fate: Fate)
      modifies this`fates
      ensures View() == SetFate(old(View()), ticket, fate) && |fates| == |old(fates)|
    {
      if ticket < |fates| {
        fates := fates[ticket := fate];
      }
    }

    /** The end of `enqueue`: room for the envelope, its place, and the pump. */
    method Add()
      requires Counted() && !stopped
      modifies this
      ensures Counted() && View() == Alerts.Enqueue(old(View()))
    {
      if |waiting| >= MAX_WAITING {
        var dropped := waiting[0];
        waiting := waiting[1..];
        Mark(dropped, Dropped);
      }
      waiting := waiting + [enqueued];
      enqueued := enqueued + 1;
      fates := fates + [Queued];
      Pump();
    }

    /** The callback of a try's timeout, or of the wait before the next try. */
    method RunCallback(timer: Timer)
      requires Counted() && current.Some?
      modifies this
      ensures Counted() && View() == Fire(old(View()), timer)
    {
      match timer
      case TryTimeout(post, _) =>
        if post < |posts| && !posts[post].settled && current.value.ticket == posts[post].ticket {
          posts := posts[post := posts[post].(aborted := true)];
          Settle(post, Failure);
        }
      case Retry(attempt, _) => Attempt(attempt + 1);
    }

    /** `#pump` */
    method Pump()
      requires Counted()
      modifies this
      ensures Counted() && View() == Alerts.Pump(old(View())) && enqueued == old(enqueued)
    {
      if current.Some? || stopped || waiting == [] {
        return;
      }
      var ticket := waiting[0];
      waiting := waiting[1..];
      current := Some(Message(ticket, None, None));
      Mark(ticket, InFlight);
    }

    /** `#start` */
    method Start(built: bool)
      requires Counted() && current.Some?
      modifies this
      ensures Counted() && View() == Alerts.Start(old(View()), built)
    {
      if built {
        Attempt(1);
      } else {
        Finish(GaveUp);
      }
    }

    /** `#finish` */
    method Finish(fate: Fate)
      requires Counted() && current.Some?
      modifies this
      ensures Counted() && View() == Alerts.Finish(old(View()), fate)
    {
      Mark(current.value.ticket, fate);
      current := None;
      Pump();
    }

    /** `#attempt` */
    method Attempt(attempt: nat)
      requires Counted() && current.Some?
      modifies this
      ensures Counted() && View() == Alerts.Attempt(old(View()), attempt)
    {
      var message := current.value;
      if message.started.None? {
        message := message.(started := Some(now));
      }
      message := message.(timer := Some(TryTimeout(|posts|, now + TRY_TIMEOUT_MS)));
      posts := posts + [Post(message.ticket, attempt, false, false, false)];
      current := Some(message);
    }

    /** `settle` */
    method Settle(post: nat, outcome: Outcome)
      requires Counted() && post < |posts|
      modifies this
      ensures Counted() && View() == Alerts.Settle(old(View()), post, outcome)
    {
      if posts[post].settled || current.None? || current.value.ticket != posts[post].ticket {
        return;
      }
      posts := posts[post := posts[post].(settled := true)];
      current := Some(current.value.(timer := None));
      Decide(posts[post].attempt, outcome);
    }

    /** `#decide`: a status from 200 to 299 delivers; another one below 500 that is not 429, or a third failed
        try, gives up; and otherwise the next try waits. */
    method Decide(attempt: nat, outcome: Outcome)
      requires Counted() && current.Some?
      modifies this
      ensures Counted() && View() == Alerts.Decide(old(View()), attempt, outcome)
      ensures FatesOk(old(View())) ==>
                if outcome.Status? && 200 <= outcome.status < 300 then Ended(old(View()), View(), Delivered)
                else if (outcome.Status? && outcome.status != 429 && outcome.status < 500) || attempt >= 3
                then Ended(old(View()), View(), GaveUp)
                else fates == old(fates)
                     && WaitsAgain(old(View()), View(), attempt, if attempt == 1 then 1_000 else 5_000)
    {
      if FatesOk(View()) {
        FinishGives(View(), Delivered);
        FinishGives(View(), GaveUp);
      }
      if Success(outcome) {
        Finish(Delivered);
      } else if !Retryable(outcome) || attempt >= MAX_TRIES {
        Finish(GaveUp);
      } else {
        current := Some(current.value.(timer := Some(Retry(attempt, now + RetryWait(attempt)))));
      }
    }
  }

  /** A new envelope waits, or is in flight already. */
  lemma EnqueuedIsHere(s: State)
    requires Inv(s) && !s.stopped
    ensures var r := Enqueue(s);
            |r.fates| == |s.fates| + 1 && r.fates[|s.fates|] == if s.current.None? then InFlight else Queued
  {
  }

  /** What the armed timer does when it fires. */
  lemma FireDecides(s: State)
    requires Inv(s) && Enabled(s, TimerFires)
    ensures match s.current.value.timer.value
            case TryTimeout(post, _) => post < |s.posts| && DecidedRight(s, Step(s, TimerFires), post, Failure)
            case Retry(attempt, _) => Posted(s, Step(s, TimerFires), attempt + 1)
  {
    if s.current.value.timer.value.TryTimeout? {
      TimeoutCounts(s);
      TimeoutDecides(s, s.current.value.timer.value.post);
    } else {
      FireIgnoresTimer(s);
    }
  }
}
