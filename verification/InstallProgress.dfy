/** Installs always come to their end: from every reachable state answers drain every queue. */
module InstallProgress {
  import opened Common
  import opened InstallQueue
  import opened InstallQueueRuns
  import opened InstallCallRuns
  import opened InstallTime
  import opened InstallEffects

  // ---------------------------------------------------------------- one answer

  /** The run an install's `#run` is in the middle of. */
  predicate UnderWay(s: Raw, i: nat) {
    i < |s.installs| && s.installs[i].point != NotStarted && s.installs[i].point != Gone
  }

  /** An answer that brings the run of an install nearer to its end, wherever it is suspended. */
  function NextAnswer(s: Raw, i: nat): Event
    requires UnderWay(s, i)
  {
    match s.installs[i].point
    case Checking(_) => CheckReturned(i, NoLongerNeeded)
    case Checked => ChecksDone(i)
    case Finding => FindReturned(i, FindFailed)
    case Reserving => ReserveReturned(i, false)
    case Driving => DriverReturned(i, DriverFailed)
    case Committing => CommitReturned(i, false)
    case _ => Resume(i)
  }

  /** How far from its end a run is, at most. */
  function Distance(point: RunPoint): nat {
    match point
    case Checking(_) => 4
    case Checked => 3
    case Finding => 2
    case Reserving => 2
    case Driving => 2
    case Committing => 2
    case _ => 1
  }

  /** How many checks a run can still wait for: each settles a call on the list, or one that has left. */
  function ChecksLeft(install: Install): nat {
    2 * |install.calls| + (if install.point.Checking? && install.point.call !in install.calls then 1 else 0)
  }

  /** Everything but one platform's queue is as it was. */
  ghost predicate OtherQueuesKept(s: State, r: State, p: Platform) {
    |r.installs| == |s.installs| && forall o :: o != p ==> Queue(r, o) == Queue(s, o)
  }

  /** The run goes on, nearer to its end, and the queues are as they were. */
  ghost predicate Nearer(s: State, r: State, i: nat) {
    && UnderWay(s, i) && UnderWay(r, i) && r.queues == s.queues && r.turns == s.turns
    && |r.installs| == |s.installs| && r.installs[i].platform == s.installs[i].platform
    && (|| Distance(r.installs[i].point) < Distance(s.installs[i].point)
        || (Distance(r.installs[i].point) == Distance(s.installs[i].point)
            && ChecksLeft(r.installs[i]) < ChecksLeft(s.installs[i])))
  }

  /** The install at the head has gone, and the rest of its queue is left. */
  ghost predicate HeadGone(s: State, r: State, i: nat) {
    && i < |s.installs|
    && var p := s.installs[i].platform;
    && Queue(s, p) != [] && Queue(r, p) == Queue(s, p)[1..]
    && r.turns == s.turns && OtherQueuesKept(s, r, p)
  }

  lemma {:induction false} ContinueChecksPicks(s: State, i: nat, k: nat)
    requires i < |s.installs| && k <= |s.installs[i].calls|
    ensures var r := ContinueChecks(s, i, k);
            && |r.installs| == |s.installs|
            && (r.installs[i].point.Checking? ==> r.installs[i].point.call in s.installs[i].calls)
    decreases |s.installs[i].calls| - k
  {
    if k < |s.installs[i].calls| {
      var c := s.installs[i].calls[k];
      if s.calls[c].checked {
        ContinueChecksPicks(s, i, k + 1);
      } else if !s.calls[c].hasCheck {
        ContinueChecksPicks(s.(calls := s.calls[c := s.calls[c].(checked := true)]), i, k + 1);
      }
    }
  }

  lemma CheckBringsNearer(s: State, i: nat)
    requires i < |s.installs| && s.installs[i].point.Checking?
    ensures Nearer(s, Step(s, CheckReturned(i, NoLongerNeeded)), i)
  {
    var c := s.installs[i].point.call;
    var settled := Settle(s, c, NotNeeded);
    WithoutKeeps(s.installs[i].calls, c);
    ContinueChecksEffect(settled, i, 0);
    ContinueChecksPicks(settled, i, 0);
  }

  lemma LeaveGoes(s: State, i: nat)
    requires i < |s.installs| && Queue(s, s.installs[i].platform) != [] && Queue(s, s.installs[i].platform)[0] == i
    ensures HeadGone(s, Leave(s, i), i)
  {
    var p := s.installs[i].platform;
    WithoutKeeps(Queue(s, p), i);
    PumpEffect(SetRun(s, i, Ended, Gone).(queues := s.queues[p := Without(Queue(s, p), i)]), p);
  }

  lemma SettledLeaveGoes(s: State, i: nat, outcome: Outcome)
    requires i < |s.installs| && Queue(s, s.installs[i].platform) != [] && Queue(s, s.installs[i].platform)[0] == i
    ensures |SettleAll(s, i, outcome).installs| == |s.installs|
    ensures HeadGone(s, Leave(SettleAll(s, i, outcome), i), i)
  {
    SettleAllKeeps(s, i, outcome);
    LeaveGoes(SettleAll(s, i, outcome), i);
  }

  /** The answers that end a run where it is suspended. */
  lemma FindEnds(s: State, i: nat)
    requires QueuesOk(s) && At(s, i, Finding)
    ensures HeadGone(s, Step(s, FindReturned(i, FindFailed)), i)
  {
    StartedIsHead(s, i);
    SettledLeaveGoes(s, i, InstallError);
    FindFails(s, i);
  }

  lemma ReserveEnds(s: State, i: nat)
    requires QueuesOk(s) && At(s, i, Reserving)
    ensures HeadGone(s, Step(s, ReserveReturned(i, false)), i)
  {
    StartedIsHead(s, i);
    SettledLeaveGoes(s, i, InstallError);
    ReserveFails(s, i);
  }

  lemma ResumeEnds(s: State, i: nat)
    requires QueuesOk(s) && (At(s, i, Succeeded) || At(s, i, Failed))
    ensures HeadGone(s, Step(s, Resume(i)), i)
  {
    StartedIsHead(s, i);
    if At(s, i, Failed) {
      SettledLeaveGoes(s, i, InstallError);
    } else {
      LeaveGoes(s, i);
    }
  }

  lemma ChecksDoneAnswer(s: State, i: nat)
    requires QueuesOk(s) && At(s, i, Checked)
    ensures Nearer(s, Step(s, ChecksDone(i)), i) || HeadGone(s, Step(s, ChecksDone(i)), i)
  {
    StartedIsHead(s, i);
    LeaveGoes(s, i);
  }

  lemma DriverAnswer(s: State, i: nat)
    requires At(s, i, Driving) || At(s, i, Committing)
    ensures Nearer(s, Step(s, NextAnswer(s, i)), i)
  {
  }

  /** Every answer of that kind can come, and brings the run nearer to its end or ends it. */
  lemma AnswerMoves(s: State, i: nat)
    requires Good(s) && UnderWay(s, i)
    ensures var r := Step(s, NextAnswer(s, i));
            Enabled(s, NextAnswer(s, i)) && Good(r) && (Nearer(s, r, i) || HeadGone(s, r, i))
  {
    StepGood(s, NextAnswer(s, i));
    match s.installs[i].point
    case Checking(_) => CheckBringsNearer(s, i);
    case Checked => ChecksDoneAnswer(s, i);
    case Driving => DriverAnswer(s, i);
    case Committing => DriverAnswer(s, i);
    case Finding => FindEnds(s, i);
    case Reserving => ReserveEnds(s, i);
    case _ => ResumeEnds(s, i);
  }

  // ---------------------------------------------------------------- one queue

  lemma AfterOne(s: State, e: Event, rest: seq<Event>)
    ensures After(s, [e] + rest) == After(Step(s, e), rest)
  {
    assert ([e] + rest)[1..] == rest;
  }

  lemma {:induction false} AfterBoth(s: State, first: seq<Event>, second: seq<Event>)
    ensures After(s, first + second) == After(After(s, first), second)
    decreases |first|
  {
    if first == [] {
      assert first + second == second;
    } else {
      var next := Step(s, first[0]);
      AfterBoth(next, first[1..], second);
      RestOf(first, second);
      assert After(s, first) == After(next, first[1..]);
      assert After(s, first + second) == After(next, first[1..] + second);
    }
  }

  ghost predicate OnlyAnswers(events: seq<Event>) {
    forall k :: 0 <= k < |events| ==> OfRun(events[k]) || events[k].GiveTurn?
  }

  lemma AnswersBoth(a: seq<Event>, b: seq<Event>)
    requires OnlyAnswers(a) && OnlyAnswers(b)
    ensures OnlyAnswers(a + b)
  {
  }

  lemma HeadGoneAfter(s: State, r: State, t: State, i: nat)
    requires Nearer(s, r, i) && HeadGone(r, t, i)
    ensures HeadGone(s, t, i)
  {
  }

  /** One answer for the head of a queue. */
  lemma OneAnswer(s: State, i: nat) returns (more: seq<Event>, r: State)
    requires Good(s) && UnderWay(s, i)
    ensures OnlyAnswers(more) && r == After(s, more) && Good(r)
    ensures Nearer(s, r, i) || HeadGone(s, r, i)
  {
    AnswerMoves(s, i);
    more, r := [NextAnswer(s, i)], Step(s, NextAnswer(s, i));
    AfterOne(s, NextAnswer(s, i), []);
    assert [NextAnswer(s, i)] + [] == more;
  }

  /** The head of a queue, brought to its end. */
  lemma {:induction false} HeadFinishes(s: State, i: nat) returns (more: seq<Event>, r: State)
    requires Good(s) && UnderWay(s, i)
    ensures OnlyAnswers(more) && r == After(s, more) && Good(r) && HeadGone(s, r, i)
    decreases Distance(s.installs[i].point), ChecksLeft(s.installs[i])
  {
    more, r := OneAnswer(s, i);
    if !HeadGone(s, r, i) {
      var first, next := more, r;
      var rest: seq<Event>;
      rest, r := HeadFinishes(next, i);
      HeadGoneAfter(s, next, r, i);
      AfterBoth(s, first, rest);
      AnswersBoth(first, rest);
      more := first + rest;
    }
  }

  /** A queue whose turn is free, drained. */
  lemma {:induction false} QueueDrains(s: State, p: Platform) returns (more: seq<Event>, r: State)
    requires Good(s) && p !in s.turns
    ensures OnlyAnswers(more) && r == After(s, more) && Good(r)
    ensures Queue(r, p) == [] && r.turns == s.turns && OtherQueuesKept(s, r, p)
    decreases |Queue(s, p)|
  {
    if Queue(s, p) == [] {
      return [], s;
    }
    var i := Queue(s, p)[0];
    assert QueueOk(s, p) && Moving(s, p);
    var first, next := HeadFinishes(s, i);
    var rest: seq<Event>;
    rest, r := QueueDrains(next, p);
    AfterBoth(s, first, rest);
    AnswersBoth(first, rest);
    more := first + rest;
  }

  /** A removal on the platform gives its turn back first. */
  lemma PlatformDrains(s: State, p: Platform) returns (more: seq<Event>, r: State)
    requires Good(s)
    ensures OnlyAnswers(more) && r == After(s, more) && Good(r)
    ensures Queue(r, p) == [] && OtherQueuesKept(s, r, p)
  {
    if p !in s.turns {
      more, r := QueueDrains(s, p);
    } else {
      var given := Step(s, GiveTurn(p));
      StepGood(s, GiveTurn(p));
      PumpEffect(s.(turns := s.turns - {p}), p);
      var rest: seq<Event>;
      rest, r := QueueDrains(given, p);
      AfterOne(s, GiveTurn(p), rest);
      more := [GiveTurn(p)] + rest;
    }
  }

  // ---------------------------------------------------------------- every queue

  lemma {:induction false} PlatformsDrain(s: State, platforms: set<Platform>) returns (more: seq<Event>, r: State)
    requires Good(s) && forall p :: p !in platforms ==> Queue(s, p) == []
    ensures OnlyAnswers(more) && r == After(s, more) && Good(r)
    ensures |r.installs| == |s.installs| && forall p :: Queue(r, p) == []
    decreases |platforms|
  {
    if platforms == {} {
      return [], s;
    }
    var p :| p in platforms;
    var first, next := PlatformDrains(s, p);
    var rest: seq<Event>;
    rest, r := PlatformsDrain(next, platforms - {p});
    AfterBoth(s, first, rest);
    AnswersBoth(first, rest);
    more := first + rest;
  }

  /**
   * In every reachable state an install that is under way can get an answer, and every such answer brings it
   * nearer to its end or has it leave its queue.
   */
  lemma {:induction false} InstallNeverStuck(timeoutMs: nat, events: seq<Event>, i: nat)
    requires UnderWay(Run(timeoutMs, events), i)
    ensures var s := Run(timeoutMs, events);
            var e := NextAnswer(s, i);
            Enabled(s, e) && (Nearer(s, Step(s, e), i) || HeadGone(s, Step(s, e), i))
  {
    RunOk(timeoutMs, events);
    AnswerMoves(Run(timeoutMs, events), i);
  }

  /**
   * From every reachable state, answers and given turns alone bring every install to its end and drain
   * every queue.
   */
  lemma {:induction false} EveryInstallCanFinish(timeoutMs: nat, events: seq<Event>) returns (more: seq<Event>)
    ensures OnlyAnswers(more)
    ensures var r := Run(timeoutMs, events + more);
            && |r.installs| == |Run(timeoutMs, events).installs|
            && (forall p :: Queue(r, p) == [])
            && (forall i: nat :: i < |r.installs| ==> r.installs[i].point == Gone)
  {
    var s := Run(timeoutMs, events);
    RunOk(timeoutMs, events);
    var r: State;
    more, r := PlatformsDrain(s, s.queues.Keys);
    RunAfter(timeoutMs, events, more);
  }
}
