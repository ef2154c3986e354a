/** `SerializedDecision` of `src/core/serialized-decision.ts`: a lock made of a chain of promises. */
module Gate {

  datatype Phase = Waiting | Running | Ended(ok: bool)

  /** One call of `run`: the promise it awaits, the promise it resolves, and where it is. */
  datatype Section = Section(previous: nat, own: nat, phase: Phase)

  /** Promises are numbered; 0 is the resolved promise the chain starts from. */
  datatype State = State(tail: nat, resolved: set<nat>, next: nat, sections: seq<Section>)

  function Initial(): State {
    State(0, {0}, 1, [])
  }

  /** The synchronous part of `run`: reads the tail and replaces it with a new promise. */
  function Called(s: State): State {
    State(s.next, s.resolved, s.next + 1, s.sections + [Section(s.tail, s.next, Waiting)])
  }

  /** `await previous` returns. */
  function Entered(s: State, i: nat): State
    requires i < |s.sections|
  {
    s.(sections := s.sections[i := s.sections[i].(phase := Running)])
  }

  /** The operation returned or threw; the `finally` resolves the section's promise. */
  function Left(s: State, i: nat, ok: bool): State
    requires i < |s.sections|
  {
    s.(sections := s.sections[i := s.sections[i].(phase := Ended(ok))],
       resolved := s.resolved + {s.sections[i].own})
  }

  datatype Event = Call | Enter(i: nat) | Leave(i: nat, ok: bool)

  predicate CanEnter(s: State, i: nat) {
    i < |s.sections| && s.sections[i].phase == Waiting && s.sections[i].previous in s.resolved
  }

  function Step(s: State, e: Event): State {
    match e
    case Call => Called(s)
    case Enter(i) => if CanEnter(s, i) then Entered(s, i) else s
    case Leave(i, ok) => if i < |s.sections| && s.sections[i].phase == Running then Left(s, i, ok) else s
  }

  function Run(events: seq<Event>): State {
    if events == [] then Initial() else Step(Run(events[..|events| - 1]), events[|events| - 1])
  }

  /** Each section awaits the promise of the one called before it, and a promise is resolved
      exactly when its section has ended. */
  ghost predicate Chained(s: State) {
    && s.next == |s.sections| + 1 && s.tail == |s.sections|
    && (forall i :: 0 <= i < |s.sections| ==> s.sections[i].previous == i && s.sections[i].own == i + 1)
    && 0 in s.resolved
    && (forall i :: 0 <= i < |s.sections| ==> (i + 1 in s.resolved <==> s.sections[i].phase.Ended?))
    && (forall i :: 0 < i < |s.sections| && s.sections[i].phase != Waiting ==> s.sections[i - 1].phase.Ended?)
    && (forall p :: p in s.resolved ==> p <= |s.sections|)
  }

  lemma EnteredChained(s: State, i: nat)
    requires Chained(s) && CanEnter(s, i)
    ensures Chained(Entered(s, i))
  {
    var r := Entered(s, i);
    assert i > 0 ==> s.sections[i - 1].phase.Ended?;
    forall k | 0 < k < |r.sections| && r.sections[k].phase != Waiting
      ensures r.sections[k - 1].phase.Ended?
    {
      assert k != i ==> s.sections[k - 1].phase.Ended?;
    }
  }

  lemma LeftChained(s: State, i: nat, ok: bool)
    requires Chained(s) && i < |s.sections| && s.sections[i].phase == Running
    ensures Chained(Left(s, i, ok))
  {
  }

  lemma {:induction false} RunIsChained(events: seq<Event>)
    ensures Chained(Run(events))
  {
    if events != [] {
      var s := Run(events[..|events| - 1]);
      RunIsChained(events[..|events| - 1]);
      match events[|events| - 1]
      case Call =>
      case Enter(i) => if CanEnter(s, i) { EnteredChained(s, i); }
      case Leave(i, ok) => if i < |s.sections| && s.sections[i].phase == Running { LeftChained(s, i, ok); }
    }
  }

  lemma {:induction false} EarlierEnded(s: State, i: nat, j: nat)
    requires Chained(s) && i < j < |s.sections| && s.sections[j].phase != Waiting
    ensures s.sections[i].phase.Ended?
    decreases j - i
  {
    if i + 1 < j {
      EarlierEnded(s, i, j - 1);
    }
  }

  /**
   * Over every order of calls, entries and ends: a section runs only when every section called
   * before it has ended, so at most one runs and they run in call order.
   */
  lemma OneSectionInCallOrder(events: seq<Event>)
    ensures var s := Run(events);
            && (forall i, j :: 0 <= i < j < |s.sections| && s.sections[j].phase != Waiting ==>
                  s.sections[i].phase.Ended?)
            && (forall i, j | 0 <= i < |s.sections| && 0 <= j < |s.sections| ::
                  s.sections[i].phase == Running == s.sections[j].phase ==> i == j)
  {
    var s := Run(events);
    RunIsChained(events);
    forall i, j | 0 <= i < j < |s.sections| && s.sections[j].phase != Waiting
      ensures s.sections[i].phase.Ended?
    {
      EarlierEnded(s, i, j);
    }
  }

  /**
   * The turn is passed on whether a section returned or threw: while any section is left, one is
   * running or the first one waiting can enter.
   */
  lemma {:induction false} TurnIsPassedOn(events: seq<Event>, j: nat)
    requires j < |Run(events).sections| && !Run(events).sections[j].phase.Ended?
    ensures var s := Run(events);
            exists i: nat :: i <= j && i < |s.sections| && (s.sections[i].phase == Running || CanEnter(s, i))
    decreases j
  {
    RunIsChained(events);
    var s := Run(events);
    if s.sections[j].phase == Waiting && !CanEnter(s, j) {
      assert !s.sections[j - 1].phase.Ended?;
      TurnIsPassedOn(events, j - 1);
    } else {
      assert j <= j && j < |s.sections| && (s.sections[j].phase == Running || CanEnter(s, j));
    }
  }

  /** The gate with its one field; the promises and the suspended calls are its surroundings. */
  class SerializedDecision {
    var tail: nat
    var resolved: set<nat>
    var next: nat
    var sections: seq<Section>

    function View(): State
      reads this
    {
      State(tail, resolved, next, sections)
    }

    constructor ()
      ensures View() == Initial()
    {
      tail, resolved, next, sections := 0, {0}, 1, [];
    }

    /** `run` up to its first await; the answer is the number of the call. */
    method Run() returns (call: nat)
      modifies this
      ensures View() == Called(old(View())) && call == |old(sections)|
    {
      var previous := tail;
      var own := next;
      next := next + 1;
      tail := own;
      call := |sections|;
      sections := sections + [Section(previous, own, Waiting)];
    }

    /** Resumes a suspended call if the promise it awaits is resolved. */
    method Resume(call: nat) returns (entered: bool)
      requires call < |sections|
      modifies this
      ensures View() == Step(old(View()), Enter(call)) && entered == CanEnter(old(View()), call)
    {
      entered := sections[call].phase == Waiting && sections[call].previous in resolved;
      if entered {
        sections := sections[call := sections[call].(phase := Running)];
      }
    }

    /** The end of the operation, returned or thrown. */
    method Finish(call: nat, ok: bool)
      requires call < |sections| && sections[call].phase == Running
      modifies this
      ensures View() == Left(old(View()), call, ok)
    {
      resolved := resolved + {sections[call].own};
      sections := sections[call := sections[call].(phase := Ended(ok))];
    }
  }
}
