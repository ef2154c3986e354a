/**
 * `followLog` of `src/cli/follow-log.ts`: a reader that polls a file another process appends to
 * and rotates between any two of its reads. A character stands for a byte.
 */
module FollowLog {
  import opened Common

  // ---------------------------------------------------------------- the files

  /** `finished` holds every generation rotated out so far, oldest first; the last of them is
      `<path>.1`, and its place in the list is its identity, so identities are fresh. `current` is
      the log file, missing between a rotation's rename and the first write after it. */
  datatype Files = Files(finished: seq<string>, current: Option<string>)

  function IdentityOfRotated(f: Files): Option<nat> {
    if f.finished == [] then None else Some(|f.finished| - 1)
  }

  /** `readFileFrom`: nothing past the end of the file. */
  function From(text: string, offset: nat): string {
    if offset <= |text| then text[offset..] else ""
  }

  function ReadRotated(f: Files, offset: nat): string {
    if f.finished == [] then "" else From(f.finished[|f.finished| - 1], offset)
  }

  function ReadCurrent(f: Files, offset: nat): string {
    match f.current case None => "" case Some(text) => From(text, offset)
  }

  // ---------------------------------------------------------------- the reader

  /** `completeLines`: up to and including the last newline. */
  function CompleteLines(text: string): (r: string)
    ensures r <= text
    ensures r == "" || r[|r| - 1] == '\n'
    ensures forall k :: |r| <= k < |text| ==> text[k] != '\n'
  {
    if text == "" then ""
    else if text[|text| - 1] == '\n' then text
    else CompleteLines(text[..|text| - 1])
  }

  /** What is written of a finished file: its last line ends even when the file does not end it. */
  function Terminated(text: string): string {
    if text == "" || text[|text| - 1] == '\n' then text else text + "\n"
  }

  /** Where the reader is suspended: in the initial tail, between polls, or in a poll. */
  datatype Point =
    | TailIdentity(attempt: nat)
    | TailRotated(attempt: nat)
    | TailCurrent(attempt: nat, text: string)
    | TailConfirm(attempt: nat, text: string, lines: string)
    | Between
    | PollRotated
    | PollCurrent
    | PollConfirm(lines: string)

  const MAX_TAIL_ATTEMPTS: nat := 3

  /** A place in the log: a generation and an offset in it. */
  datatype Place = Place(generation: nat, offset: nat)

  /** `tail` is the text the initial tail read, `trusted` whether its identity check held, `began`
      the place following began at, and `output` what was written from then on. */
  datatype Reader = Reader(
    point: Point, rotated: Option<nat>, offset: nat,
    tail: string, trusted: bool, began: Place, output: string)

  datatype State = State(files: Files, reader: Reader)

  datatype Event =
    | Append(text: string) | Rename | Create
    | Read

  /** The next read of the reader, and what it does with it up to the following one. */
  function ReadStep(f: Files, r: Reader): Reader {
    match r.point
    case TailIdentity(attempt) =>
      var id := IdentityOfRotated(f);
      r.(rotated := id, point := if id.None? then TailCurrent(attempt, "") else TailRotated(attempt))
    case TailRotated(attempt) => r.(point := TailCurrent(attempt, ReadRotated(f, 0)))
    case TailCurrent(attempt, text) => r.(point := TailConfirm(attempt, text, CompleteLines(ReadCurrent(f, 0))))
    case TailConfirm(attempt, text, lines) =>
      var held := IdentityOfRotated(f) == r.rotated;
      var read := r.(tail := text + lines, offset := |lines|);
      if held || attempt + 1 >= MAX_TAIL_ATTEMPTS
      then read.(point := Between, trusted := held, began := Place(Generation(r), |lines|))
      else read.(point := TailIdentity(attempt + 1))
    case Between =>
      var now := IdentityOfRotated(f);
      if now.Some? && now != r.rotated then r.(rotated := now, point := PollRotated)
      else r.(point := PollCurrent)
    case PollRotated =>
      r.(output := r.output + Terminated(ReadRotated(f, r.offset)), offset := 0, point := PollCurrent)
    case PollCurrent => r.(point := PollConfirm(CompleteLines(ReadCurrent(f, r.offset))))
    case PollConfirm(lines) =>
      if IdentityOfRotated(f) != r.rotated then r.(point := Between)
      else r.(output := r.output + lines, offset := r.offset + |lines|, point := Between)
  }

  function Step(s: State, e: Event): State {
    match e
    case Append(text) =>
      if s.files.current.None? then s else s.(files := s.files.(current := Some(s.files.current.value + text)))
    case Rename =>
      if s.files.current.None? then s else s.(files := Files(s.files.finished + [s.files.current.value], None))
    case Create =>
      if s.files.current.Some? then s else s.(files := s.files.(current := Some("")))
    case Read => s.(reader := ReadStep(s.files, s.reader))
  }

  function Start(files: Files): State {
    State(files, Reader(TailIdentity(0), None, 0, "", false, Place(0, 0), ""))
  }

  function Run(files: Files, events: seq<Event>): State {
    if events == [] then Start(files) else Step(Run(files, events[..|events| - 1]), events[|events| - 1])
  }

  // ---------------------------------------------------------------- what should be written

  /** The generation the reader's offset belongs to. */
  function Generation(r: Reader): nat {
    match r.rotated case None => 0 case Some(id) => if r.point == PollRotated then id else id + 1
  }

  /** A generation's text so far. */
  function Text(f: Files, g: nat): string {
    if g < |f.finished| then f.finished[g] else if f.current.Some? then f.current.value else ""
  }

  /** The generations before `g`, each ended, one after the other. */
  function Earlier(f: Files, g: nat): string
    requires g <= |f.finished|
  {
    if g == 0 then "" else Earlier(f, g - 1) + Terminated(f.finished[g - 1])
  }

  /** The whole log up to a place in generation `g`. */
  function Log(f: Files, g: nat, offset: nat): string
    requires g <= |f.finished| && offset <= |Text(f, g)|
  {
    Earlier(f, g) + Text(f, g)[..offset]
  }

  /** At most one rotation since the identity the reader recorded, at the reads where it matters:
      the one that looks for a rotation and the one of the rotated file. */
  predicate NotOvertaken(s: State) {
    s.reader.point in {Between, PollRotated} ==> |s.files.finished| <= Generation(s.reader) + 1
  }

  /** No read of a run was overtaken. */
  ghost predicate KeepsUp(files: Files, events: seq<Event>) {
    forall k :: 0 <= k < |events| && events[k] == Read ==> NotOvertaken(Run(files, events[..k]))
  }
}
