/**
 * `DestinationQueue` of `src/alerts/queue.ts`: a bounded queue that drops its oldest message,
 * one message in flight, up to three tries with a timeout each, and stop.
 */
module Alerts {
  import opened Common

  const TRY_TIMEOUT_MS: nat := 10_000
  const MAX_TRIES: nat := 3
  const MAX_WAITING: nat := 100

  function RetryWait(attempt: nat): nat {
    if attempt == 1 then 1_000 else 5_000
  }

  /** What became of an envelope, by its place in the order of `enqueue`. */
  datatype Fate = Queued | InFlight | Delivered | GaveUp | Dropped | Discarded

  /** One POST: which envelope, which try, and the flags its closures read. */
  datatype Post = Post(ticket: nat, attempt: nat, settled: bool, aborted: bool, answered: bool)

  /** The armed timer of the message in flight. */
  datatype Timer = TryTimeout(post: nat, due: nat) | Retry(attempt: nat, due: nat)

  /** The message in flight: `started` is when its first try began; a message without a timer has
      its start still queued as a microtask. */
  datatype Message = Message(ticket: nat, started: Option<nat>, timer: Option<Timer>)

  datatype State = State(
    now: nat, waiting: seq<nat>, current: Option<Message>, stopped: bool,
    fates: seq<Fate>, posts: seq<Post>)

  /** An answer's status, or any failure of the request. */
  datatype Outcome = Status(status: int) | Failure

  function Initial(): State {
    State(0, [], None, false, [], [])
  }

  function SetFate(s: State, ticket: nat, fate: Fate): State {
    if ticket < |s.fates| then s.(fates := s.fates[ticket := fate]) else s
  }

  /** `#pump` */
  function Pump(s: State): State {
    if s.current.Some? || s.stopped || s.waiting == [] then s
    else
      var ticket := s.waiting[0];
      SetFate(s.(waiting := s.waiting[1..], current := Some(Message(ticket, None, None))), ticket, InFlight)
  }

  /** `enqueue` */
  function Enqueue(s: State): State {
    if s.stopped then s
    else
      var room := if |s.waiting| >= MAX_WAITING
                  then SetFate(s.(waiting := s.waiting[1..]), s.waiting[0], Dropped) else s;
      Pump(room.(waiting := room.waiting + [|room.fates|], fates := room.fates + [Queued]))
  }

  function Discard(fates: seq<Fate>, tickets: seq<nat>): seq<Fate> {
    seq(|fates|, t requires 0 <= t < |fates| => if t in tickets then Discarded else fates[t])
  }

  /** `stop`; aborting ends the last POST of the message in flight. */
  function Stop(s: State): State {
    var gone := s.waiting + (if s.current.Some? then [s.current.value.ticket] else []);
    State(s.now, [], None, true, Discard(s.fates, gone),
          if s.current.Some? && s.current.value.started.Some? then AbortLast(s.posts) else s.posts)
  }

  function AbortLast(posts: seq<Post>): seq<Post> {
    if posts == [] then [] else posts[|posts| - 1 := posts[|posts| - 1].(aborted := true)]
  }

  /** `#attempt` */
  function Attempt(s: State, attempt: nat): State
    requires s.current.Some?
  {
    var message := s.current.value;
    s.(posts := s.posts + [Post(message.ticket, attempt, false, false, false)],
       current := Some(message.(
                         started := if message.started.None? then Some(s.now) else message.started,
                         timer := Some(TryTimeout(|s.posts|, s.now + TRY_TIMEOUT_MS)))))
  }

  /** `#finish` for the message in flight. */
  function Finish(s: State, fate: Fate): State
    requires s.current.Some?
  {
    Pump(SetFate(s, s.current.value.ticket, fate).(current := None))
  }

  /** `#start`; `built` is whether building the request succeeded. */
  function Start(s: State, built: bool): State
    requires s.current.Some?
  {
    if built then Attempt(s, 1) else Finish(s, GaveUp)
  }

  predicate Success(outcome: Outcome) {
    outcome.Status? && 200 <= outcome.status < 300
  }

  predicate Retryable(outcome: Outcome) {
    outcome.Failure? || outcome.status == 429 || outcome.status >= 500
  }

  /** `#decide` */
  function Decide(s: State, attempt: nat, outcome: Outcome): State
    requires s.current.Some?
  {
    if Success(outcome) then Finish(s, Delivered)
    else if !Retryable(outcome) || attempt >= MAX_TRIES then Finish(s, GaveUp)
    else s.(current := Some(s.current.value.(timer := Some(Retry(attempt, s.now + RetryWait(attempt))))))
  }

  /** Whether the `settle` of a POST still has an effect. */
  predicate Counts(s: State, post: nat) {
    && post < |s.posts| && !s.posts[post].settled
    && s.current.Some? && s.current.value.ticket == s.posts[post].ticket
  }

  /** `settle`; a late one changes nothing. Settling cancels the timer. */
  function Settle(s: State, post: nat, outcome: Outcome): State
    requires post < |s.posts|
  {
    if !Counts(s, post) then s
    else
      var cancelled := s.(posts := s.posts[post := s.posts[post].(settled := true)],
                          current := Some(s.current.value.(timer := None)));
      Decide(cancelled, s.posts[post].attempt, outcome)
  }

  /** The POST's promise settles, in time or late. */
  function Answer(s: State, post: nat, outcome: Outcome): State
    requires post < |s.posts|
  {
    Settle(s.(posts := s.posts[post := s.posts[post].(answered := true)]), post, outcome)
  }

  /** The try's timer fires. */
  function Timeout(s: State, post: nat): State
    requires post < |s.posts|
  {
    if !Counts(s, post) then s
    else Settle(s.(posts := s.posts[post := s.posts[post].(aborted := true)]), post, Failure)
  }

  datatype Event =
    | EnqueueCalled
    | StopCalled
    | Microtask(built: bool)
    | PostSettled(post: nat, outcome: Outcome)
    | TimerFires
    | Tick(to: nat)

  /** Timers fire when they are due: time does not pass an armed one. */
  predicate Enabled(s: State, e: Event) {
    match e
    case EnqueueCalled => true
    case StopCalled => true
    case Microtask(_) => s.current.Some? && s.current.value.started.None?
    case PostSettled(post, _) => post < |s.posts| && !s.posts[post].answered
    case TimerFires => s.current.Some? && s.current.value.timer.Some? && s.current.value.timer.value.due <= s.now
    case Tick(to) =>
      s.now <= to && (s.current.Some? && s.current.value.timer.Some? ==> to <= s.current.value.timer.value.due)
  }

  /** A timer that fires is no longer armed when its callback runs. */
  function Disarmed(s: State): State
    requires s.current.Some?
  {
    s.(current := Some(s.current.value.(timer := None)))
  }

  /** The callback of a timer. */
  function Fire(s: State, timer: Timer): State
    requires s.current.Some?
  {
    match timer
    case TryTimeout(post, _) => if post < |s.posts| then Timeout(s, post) else s
    case Retry(attempt, _) => Attempt(s, attempt + 1)
  }

  function Step(s: State, e: Event): State {
    if !Enabled(s, e) then s
    else match e
      case EnqueueCalled => Enqueue(s)
      case StopCalled => Stop(s)
      case Microtask(built) => Start(s, built)
      case PostSettled(post, outcome) => Answer(s, post, outcome)
      case TimerFires => Fire(Disarmed(s), s.current.value.timer.value)
      case Tick(to) => s.(now := to)
  }

  function Run(events: seq<Event>): State {
    if events == [] then Initial() else Step(Run(events[..|events| - 1]), events[|events| - 1])
  }
}
