/** The follower with its variables; each read sees the files as they are at that moment. */
module LogFollower {
  import opened Common
  import opened FollowLog

  /** The files at the successive reads of one attempt or poll: the identity, the rotated file, the
      current file, and the identity again. */
  datatype Snapshots = Snapshots(identity: Files, rotated: Files, current: Files, confirm: Files)

  /** The reads of one poll, as steps of the reader. */
  function PollSteps(r: Reader, at: Snapshots): Reader {
    var looked := ReadStep(at.identity, r);
    var caught := if looked.point == PollRotated then ReadStep(at.rotated, looked) else looked;
    ReadStep(at.confirm, ReadStep(at.current, caught))
  }

  /** The reads of one attempt of the initial tail. */
  function TailAttempt(r: Reader, at: Snapshots): Reader {
    var looked := ReadStep(at.identity, r);
    var read := if looked.point.TailRotated? then ReadStep(at.rotated, looked) else looked;
    ReadStep(at.confirm, ReadStep(at.current, read))
  }

  /** The reads of the initial tail from its attempt number `k` on. */
  function TailSteps(r: Reader, at: seq<Snapshots>, k: nat): Reader
    decreases |at| - k
  {
    if k >= |at| || !r.point.TailIdentity? then r else TailSteps(TailAttempt(r, at[k]), at, k + 1)
  }

  class Follower {
    var rotatedIdentity: Option<nat>
    var tail: string
    var offset: nat
    var trusted: bool
    var began: Place
    var output: string

    function View(point: Point): Reader
      reads this
    {
      Reader(point, rotatedIdentity, offset, tail, trusted, began, output)
    }

    constructor ()
      ensures View(TailIdentity(0)) == Reader(TailIdentity(0), None, 0, "", false, Place(0, 0), "")
    {
      rotatedIdentity, tail, offset, trusted, began, output := None, "", 0, false, Place(0, 0), "";
    }

    /** One attempt of the initial tail; the answer is whether the identity check held. */
    method ReadTail(at: Snapshots, attempt: nat) returns (held: bool)
      modifies this
      ensures var r := TailAttempt(old(View(TailIdentity(attempt))), at);
              && (held <==> IdentityOfRotated(at.confirm) == rotatedIdentity)
              && (held || attempt >= 2 ==> (trusted <==> held))
              && if held || attempt + 1 >= MAX_TAIL_ATTEMPTS then View(Between) == r
                 else View(TailIdentity(attempt + 1)) == r
    {
      ghost var r := ReadStep(at.identity, View(TailIdentity(attempt)));
      rotatedIdentity := IdentityOfRotated(at.identity);
      var rotated := "";
      if rotatedIdentity.Some? {
        assert View(TailRotated(attempt)) == r;
        rotated := ReadRotated(at.rotated, 0);
        r := ReadStep(at.rotated, r);
      }
      assert View(TailCurrent(attempt, rotated)) == r;
      var current := CompleteLines(ReadCurrent(at.current, 0));
      r := ReadStep(at.current, r);
      assert View(TailConfirm(attempt, rotated, current)) == r;
      r := ReadStep(at.confirm, r);
      tail := rotated + current;
      offset := |current|;
      held := IdentityOfRotated(at.confirm) == rotatedIdentity;
      if held || attempt + 1 >= MAX_TAIL_ATTEMPTS {
        trusted := held;
        began := Place(match rotatedIdentity case None => 0 case Some(id) => id + 1, offset);
      }
    }

    /** The loop that reads the initial tail; `at` holds what each attempt would read. */
    method InitialTail(at: seq<Snapshots>)
      requires |at| == MAX_TAIL_ATTEMPTS
      modifies this
      ensures View(Between) == TailSteps(old(View(TailIdentity(0))), at, 0)
    {
      var attempt := 0;
      while attempt < MAX_TAIL_ATTEMPTS
        invariant attempt < MAX_TAIL_ATTEMPTS
        invariant TailSteps(old(View(TailIdentity(0))), at, 0) == TailSteps(View(TailIdentity(attempt)), at, attempt)
      {
        var held := ReadTail(at[attempt], attempt);
        if held || attempt + 1 >= MAX_TAIL_ATTEMPTS {
          break;
        }
        attempt := attempt + 1;
      }
    }

    /** One `poll`. */
    method Poll(at: Snapshots)
      modifies this
      ensures View(Between) == PollSteps(old(View(Between)), at)
    {
      ghost var r := ReadStep(at.identity, View(Between));
      var rotatedNow := IdentityOfRotated(at.identity);
      if rotatedNow.Some? && rotatedNow != rotatedIdentity {
        rotatedIdentity := rotatedNow;
        assert View(PollRotated) == r;
        var rest := ReadRotated(at.rotated, offset);
        r := ReadStep(at.rotated, r);
        if rest != "" {
          output := output + (if rest[|rest| - 1] == '\n' then rest else rest + "\n");
        } else {
          assert output + rest == output;
        }
        offset := 0;
      }
      assert View(PollCurrent) == r;
      var complete := CompleteLines(ReadCurrent(at.current, offset));
      r := ReadStep(at.current, r);
      assert View(PollConfirm(complete)) == r;
      r := ReadStep(at.confirm, r);
      if IdentityOfRotated(at.confirm) != rotatedIdentity {
        return;
      }
      if complete != "" {
        output := output + complete;
      } else {
        assert output + complete == output;
      }
      offset := offset + |complete|;
    }
  }
}
