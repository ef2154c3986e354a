/**
 * The install queues of `src/core/component-installer.ts` as a step system: one queue per
 * platform, installs that several calls join, one timer per call, removals that take a platform's
 * turn, and close. A step is what the source runs between two awaits; `RunPoint` is the await an
 * install's `#run` is suspended at.
 */
module InstallQueue {
  import opened Common

  type Platform = string

  datatype InstallState = Waiting | Front | Running | Recording | Ended

  /** Where `#run` is suspended. `Succeeded` and `Failed` are the turns between `#runDriver`
      settling or throwing and `#run` resuming. */
  datatype RunPoint =
    | NotStarted
    | Checking(call: nat)
    | Checked
    | Finding
    | Reserving
    | Driving
    | Committing
    | Succeeded
    | Failed
    | Gone

  datatype Outcome = Installed | AlreadyInstalled | NotNeeded | InstallError | TimedOut | Closed

  datatype Settlement = Settlement(outcome: Outcome, at: nat)

  /** `calls` holds the open calls by number. */
  datatype Install = Install(
    platform: Platform, component: string, since: nat,
    calls: seq<nat>, state: InstallState, point: RunPoint)

  /** `timer` is when the armed timer is due, `None` once it fired or was cancelled; `settlements`
      records every time the call's promise was fired; `joinedAt` is the point its
      install had reached when the call joined it. */
  datatype Call = Call(
    install: nat, arrivedAt: nat, hasCheck: bool, checked: bool,
    joinedAt: RunPoint, timer: Option<nat>, settlements: seq<Settlement>)

  /** Installs and calls are numbered in the order they were made. `turns` holds the platforms
      whose turn a removal has taken. */
  datatype Raw = Raw(
    now: nat, timeoutMs: nat, closed: bool,
    queues: map<Platform, seq<nat>>, installs: seq<Install>, calls: seq<Call>,
    turns: set<Platform>)

  ghost predicate Below(xs: seq<nat>, n: nat) {
    forall k :: 0 <= k < |xs| ==> xs[k] < n
  }

  ghost predicate CallOf(calls: seq<Call>, c: nat, i: nat) {
    c < |calls| && calls[c].install == i
  }

  /** A list of calls that all name install `i`. */
  ghost predicate CallsOf(calls: seq<Call>, list: seq<nat>, i: nat) {
    forall k :: 0 <= k < |list| ==> CallOf(calls, list[k], i)
  }

  ghost predicate WellFormed(s: Raw) {
    && (forall p :: p in s.queues ==> Below(s.queues[p], |s.installs|))
    && (forall i: nat :: i < |s.installs| ==> CallsOf(s.calls, s.installs[i].calls, i))
    && (forall i: nat :: i < |s.installs| && s.installs[i].point.Checking? ==>
          CallOf(s.calls, s.installs[i].point.call, i))
    && (forall c: nat :: c < |s.calls| ==> s.calls[c].install < |s.installs|)
  }

  type State = s: Raw | WellFormed(s) witness Raw(0, 0, false, map[], [], [], {})

  function Queue(s: Raw, p: Platform): seq<nat> {
    if p in s.queues then s.queues[p] else []
  }

  // ---------------------------------------------------------------- steps

  function SetRun(s: State, i: nat, state: InstallState, point: RunPoint): State
    requires i < |s.installs| && (point.Checking? ==> point == s.installs[i].point)
  {
    s.(installs := s.installs[i := s.installs[i].(state := state, point := point)])
  }

  /** `#settle`: the one exit of a call. A call no longer in its install's list is left alone. */
  function Settle(s: State, c: nat, outcome: Outcome): State
    requires c < |s.calls|
  {
    var i := s.calls[c].install;
    var list := s.installs[i].calls;
    if c !in list then s
    else
      WithoutKeeps(list, c);
      s.(installs := s.installs[i := s.installs[i].(calls := Without(list, c))],
         calls := s.calls[c := s.calls[c].(
                    timer := None,
                    settlements := s.calls[c].settlements + [Settlement(outcome, s.now)])])
  }

  /** `#settleAll`: drains the list from the front. */
  function SettleAll(s: State, i: nat, outcome: Outcome): State
    requires i < |s.installs|
    decreases |s.installs[i].calls|
  {
    var list := s.installs[i].calls;
    if list == [] then s else SettleAll(Settle(s, list[0], outcome), i, outcome)
  }

  /** `#checkStillNeeded` up to its next await: marks calls checked in list order and stops at the
      first that has a `stillNeeded` to wait for. Calls before position `k` are checked already. */
  function ContinueChecks(s: State, i: nat, k: nat): State
    requires i < |s.installs| && k <= |s.installs[i].calls|
    decreases |s.installs[i].calls| - k
  {
    if k == |s.installs[i].calls| then s.(installs := s.installs[i := s.installs[i].(point := Checked)])
    else
      var c := s.installs[i].calls[k];
      if s.calls[c].checked then ContinueChecks(s, i, k + 1)
      else
        var marked := s.(calls := s.calls[c := s.calls[c].(checked := true)]);
        if s.calls[c].hasCheck
        then marked.(installs := s.installs[i := s.installs[i].(point := Checking(c))])
        else ContinueChecks(marked, i, k + 1)
  }

  /** `#pump` */
  function Pump(s: State, p: Platform): State {
    var q := Queue(s, p);
    if q == [] || s.installs[q[0]].state != Waiting || p in s.turns then s
    else ContinueChecks(SetRun(s, q[0], Front, Checked), q[0], 0)
  }

  /** The `finally` of `#run`. */
  function Leave(s: State, i: nat): State
    requires i < |s.installs|
  {
    var ended := SetRun(s, i, Ended, Gone);
    var p := s.installs[i].platform;
    WithoutKeeps(Queue(ended, p), i);
    Pump(ended.(queues := ended.queues[p := Without(Queue(ended, p), i)]), p)
  }

  /** `#joinable`: the first install of the queue for this component that has not ended. */
  function Joinable(s: State, q: seq<nat>, component: string): (r: Option<nat>)
    requires Below(q, |s.installs|)
    ensures r.Some? ==> r.value in q && s.installs[r.value].component == component
                        && s.installs[r.value].state != Ended
    ensures r.None? ==> forall i :: i in q ==>
                          s.installs[i].component != component || s.installs[i].state == Ended
  {
    if q == [] then None
    else if s.installs[q[0]].component == component && s.installs[q[0]].state != Ended then Some(q[0])
    else Joinable(s, q[1..], component)
  }

  /** `#enqueue` */
  function Enqueue(s: State, p: Platform, component: string): State {
    s.(installs := s.installs + [Install(p, component, s.now, [], Waiting, NotStarted)],
       queues := s.queues[p := Queue(s, p) + [|s.installs|]])
  }

  /** A call's entry in its install, before the pump. */
  function Join(s: State, i: nat, hasCheck: bool): State
    requires i < |s.installs|
  {
    var call := Call(i, s.now, hasCheck, false, s.installs[i].point, Some(s.now + s.timeoutMs), []);
    s.(calls := s.calls + [call],
       installs := s.installs[i := s.installs[i].(calls := s.installs[i].calls + [|s.calls|])])
  }

  /** `install` after its refusals at the door. */
  function Arrive(s: State, p: Platform, component: string, hasCheck: bool): State {
    var found := Joinable(s, Queue(s, p), component);
    Pump(
      match found
      case Some(i) => Join(s, i, hasCheck)
      case None => Join(Enqueue(s, p, component), |s.installs|, hasCheck),
      p)
  }

  /** `#expire` */
  function Expire(s: State, c: nat): State
    requires c < |s.calls|
  {
    var i := s.calls[c].install;
    if s.installs[i].state == Running
    then SettleAll(SetRun(s, i, Ended, s.installs[i].point), i, TimedOut)
    else Settle(s, c, TimedOut)
  }

  /** The installs of one queue, each settled in turn. */
  function CloseQueue(s: State, q: seq<nat>): (r: State)
    requires Below(q, |s.installs|)
    decreases |q|
  {
    if q == [] then s
    else
      SettleAllKeeps(s, q[0], Closed);
      CloseQueue(SettleAll(s, q[0], Closed), q[1..])
  }

  /** Every queue, in the order the platforms are given. */
  function CloseQueues(s: State, platforms: seq<Platform>): State
    decreases |platforms|
  {
    if platforms == [] then s
    else CloseQueues(CloseQueue(s, Queue(s, platforms[0])), platforms[1..])
  }

  datatype FindResult = FoundComponent | MissingComponent | FindFailed
  datatype DriverResult = DriverInstalled | DriverAlreadyInstalled | DriverFailed
  datatype CheckAnswer = StillNeeded | NoLongerNeeded | CheckThrew

  datatype Event =
    | Arrival(platform: Platform, component: string, hasCheck: bool)
    | CheckReturned(i: nat, answer: CheckAnswer)
    | ChecksDone(i: nat)
    | FindReturned(i: nat, found: FindResult)
    | ReserveReturned(i: nat, ok: bool)
    | DriverReturned(i: nat, result: DriverResult)
    | CommitReturned(i: nat, ok: bool)
    | Resume(i: nat)
    | Timer(c: nat)
    | Tick(to: nat)
    | TakeTurn(platform: Platform)
    | GiveTurn(platform: Platform)
    | Close(platforms: seq<Platform>)

  predicate At(s: Raw, i: nat, point: RunPoint) {
    i < |s.installs| && s.installs[i].point == point
  }

  /** A call whose promise has not been fired. */
  predicate Open(s: Raw, c: nat) {
    c < |s.calls| && s.calls[c].settlements == []
  }

  /** A call with its timer armed. */
  predicate Armed(s: Raw, c: nat) {
    c < |s.calls| && s.calls[c].timer.Some?
  }

  /** A timer that fires is no longer armed when its callback runs. */
  function Disarmed(s: State, c: nat): State
    requires c < |s.calls|
  {
    s.(calls := s.calls[c := s.calls[c].(timer := None)])
  }

  /** Whether time may pass to `to`: no armed timer is due before it. */
  ghost predicate NoTimerDueBefore(s: Raw, to: nat) {
    forall c: nat :: Armed(s, c) ==> to <= s.calls[c].timer.value
  }

  ghost predicate Enabled(s: State, e: Event) {
    match e
    case Arrival(_, _, _) => !s.closed
    case CheckReturned(i, _) => i < |s.installs| && s.installs[i].point.Checking?
    case ChecksDone(i) => At(s, i, Checked)
    case FindReturned(i, _) => At(s, i, Finding)
    case ReserveReturned(i, _) => At(s, i, Reserving)
    case DriverReturned(i, _) => At(s, i, Driving)
    case CommitReturned(i, _) => At(s, i, Committing)
    case Resume(i) => At(s, i, Succeeded) || At(s, i, Failed)
    case Timer(c) => Armed(s, c) && s.calls[c].timer.value <= s.now
    case Tick(to) => s.now <= to && NoTimerDueBefore(s, to)
    case TakeTurn(p) => !s.closed && Queue(s, p) == [] && p !in s.turns
    case GiveTurn(p) => p in s.turns
    case Close(platforms) => Distinct(platforms) && forall p :: p in s.queues <==> p in platforms
  }

  /** One step of the installer; an event that cannot happen in `s` changes nothing. */
  ghost function Step(s: State, e: Event): State {
    if !Enabled(s, e) then s
    else match e
      case Arrival(p, component, hasCheck) => Arrive(s, p, component, hasCheck)
      case CheckReturned(i, answer) => AfterCheck(s, i, answer)
      case ChecksDone(i) => AfterChecks(s, i)
      case FindReturned(i, found) => AfterFind(s, i, found)
      case ReserveReturned(i, ok) => AfterReserve(s, i, ok)
      case DriverReturned(i, result) => AfterDriver(s, i, result)
      case CommitReturned(i, ok) => AfterCommit(s, i, ok)
      case Resume(i) => AfterRunDriver(s, i)
      case Timer(c) => Expire(Disarmed(s, c), c)
      case Tick(to) => s.(now := to)
      case TakeTurn(p) => s.(turns := s.turns + {p})
      case GiveTurn(p) => Pump(s.(turns := s.turns - {p}), p)
      case Close(platforms) => CloseQueues(s.(closed := true), platforms)
  }

  function AfterCheck(s: State, i: nat, answer: CheckAnswer): State
    requires i < |s.installs| && s.installs[i].point.Checking?
  {
    var c := s.installs[i].point.call;
    var settled :=
      if answer == StillNeeded then s
      else Settle(s, c, if answer == NoLongerNeeded then NotNeeded else InstallError);
    ContinueChecks(settled, i, 0)
  }

  function AfterChecks(s: State, i: nat): State
    requires i < |s.installs|
  {
    if s.installs[i].calls == [] then Leave(s, i) else SetRun(s, i, Front, Finding)
  }

  function AfterFind(s: State, i: nat, found: FindResult): State
    requires i < |s.installs|
  {
    SettleAllKeeps(s, i, AlreadyInstalled);
    SettleAllKeeps(s, i, InstallError);
    if found == FoundComponent then Leave(SettleAll(s, i, AlreadyInstalled), i)
    else if found == FindFailed then Leave(SettleAll(s, i, InstallError), i)
    else if s.installs[i].calls == [] then Leave(s, i)
    else SetRun(s, i, Front, Reserving)
  }

  function AfterReserve(s: State, i: nat, ok: bool): State
    requires i < |s.installs|
  {
    SettleAllKeeps(s, i, InstallError);
    if !ok then Leave(SettleAll(s, i, InstallError), i)
    else if s.installs[i].calls == [] then Leave(s, i)
    else SetRun(s, i, Running, Driving)
  }

  function AfterDriver(s: State, i: nat, result: DriverResult): State
    requires i < |s.installs|
  {
    SettleAllKeeps(s, i, AlreadyInstalled);
    var state := s.installs[i].state;
    match result
    case DriverFailed => SetRun(s, i, state, Failed)
    case DriverAlreadyInstalled => SetRun(SettleAll(s, i, AlreadyInstalled), i, state, Succeeded)
    case DriverInstalled => SetRun(s, i, if state == Running then Recording else state, Committing)
  }

  function AfterCommit(s: State, i: nat, ok: bool): State
    requires i < |s.installs|
  {
    SettleAllKeeps(s, i, Installed);
    var state := s.installs[i].state;
    if !ok then SetRun(s, i, state, Failed)
    else SetRun(SettleAll(s, i, Installed), i, state, Succeeded)
  }

  function AfterRunDriver(s: State, i: nat): State
    requires i < |s.installs|
  {
    SettleAllKeeps(s, i, InstallError);
    if s.installs[i].point == Failed then Leave(SettleAll(s, i, InstallError), i) else Leave(s, i)
  }

  function Initial(timeoutMs: nat): State {
    Raw(0, timeoutMs, false, map[], [], [], {})
  }

  /** The state after a sequence of events, for every order the events can come in. */
  ghost function Run(timeoutMs: nat, events: seq<Event>): State {
    if events == [] then Initial(timeoutMs)
    else Step(Run(timeoutMs, events[..|events| - 1]), events[|events| - 1])
  }

  // ---------------------------------------------------------------- what settling changes

  /** `r` differs from `s` at most in which calls are open and how they ended. */
  ghost predicate SameInstalls(s: Raw, r: Raw) {
    && r.now == s.now && r.timeoutMs == s.timeoutMs && r.closed == s.closed
    && r.queues == s.queues && r.turns == s.turns
    && |r.installs| == |s.installs|
    && |r.calls| == |s.calls|
    && (forall i: nat :: i < |s.installs| ==>
          r.installs[i] == s.installs[i].(calls := r.installs[i].calls))
    && (forall c: nat :: c < |s.calls| ==>
          r.calls[c] == s.calls[c].(timer := r.calls[c].timer, settlements := r.calls[c].settlements))
  }

  lemma {:induction false} SettleAllKeeps(s: State, i: nat, outcome: Outcome)
    requires i < |s.installs|
    ensures SameInstalls(s, SettleAll(s, i, outcome))
    decreases |s.installs[i].calls|
  {
    var list := s.installs[i].calls;
    if list != [] {
      var next := Settle(s, list[0], outcome);
      WithoutKeeps(list, list[0]);
      SettleAllKeeps(next, i, outcome);
    }
  }
}
