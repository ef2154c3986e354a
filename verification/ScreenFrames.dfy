/**
 * The screen stream's envelope: the reader of `e2e/helpers/screen-frames.ts` and the writer of
 * `e2e/console/screen-capture.ts`. A frame is a four-byte big-endian length, a tag and a payload.
 */
module ScreenFrames {
  import opened Common

  newtype Byte = b: int | 0 <= b < 256

  datatype Frame = Frame(tag: Byte, payload: seq<Byte>)

  /** The largest payload whose length, tag included, `writeUInt32BE` accepts. */
  const MAX_PAYLOAD: nat := 0xFFFF_FFFE

  function WriteUInt32(n: nat): (r: seq<Byte>)
    requires n <= 0xFFFF_FFFF
    ensures |r| == 4
    ensures r[0] as int * 0x100_0000 + r[1] as int * 0x1_0000 + r[2] as int * 0x100 + r[3] as int == n
  {
    BytesOfNumber(n);
    [(n / 0x100_0000) as Byte, (n / 0x1_0000 % 0x100) as Byte, (n / 0x100 % 0x100) as Byte, (n % 0x100) as Byte]
  }

  function ReadUInt32(s: seq<Byte>): nat
    requires |s| >= 4
  {
    s[0] as nat * 0x100_0000 + s[1] as nat * 0x1_0000 + s[2] as nat * 0x100 + s[3] as nat
  }

  lemma DivideTwice(n: nat)
    ensures n / 0x1_0000 == n / 0x100 / 0x100
  {
  }

  lemma DivideThrice(n: nat)
    ensures n / 0x100_0000 == n / 0x1_0000 / 0x100
  {
  }

  lemma BytesOfNumber(n: nat)
    ensures n == n / 0x100_0000 * 0x100_0000 + n / 0x1_0000 % 0x100 * 0x1_0000 + n / 0x100 % 0x100 * 0x100 + n % 0x100
  {
    DivideTwice(n);
    DivideThrice(n);
    var high, middle := n / 0x100, n / 0x1_0000;
    assert n == high * 0x100 + n % 0x100;
    assert high == middle * 0x100 + high % 0x100;
    assert middle == n / 0x100_0000 * 0x100 + middle % 0x100;
  }

  lemma LengthRoundTrip(n: nat, rest: seq<Byte>)
    requires n <= 0xFFFF_FFFF
    ensures ReadUInt32(WriteUInt32(n) + rest) == n
  {
    var bytes := WriteUInt32(n);
    BytesOfNumber(n);
    assert ReadUInt32(bytes) == n;
    assert (bytes + rest)[..4] == bytes;
    SameNumber(bytes + rest, bytes);
  }

  /** The number is read from the first four bytes alone. */
  lemma SameNumber(a: seq<Byte>, b: seq<Byte>)
    requires |a| >= 4 && |b| >= 4 && a[..4] == b[..4]
    ensures ReadUInt32(a) == ReadUInt32(b)
  {
    assert forall k :: 0 <= k < 4 ==> a[k] == a[..4][k] && b[k] == b[..4][k];
  }

  ghost predicate Writable(frames: seq<Frame>) {
    forall k :: 0 <= k < |frames| ==> |frames[k].payload| <= MAX_PAYLOAD
  }

  /** `envelope` of the capture program. */
  function Envelope(f: Frame): (r: seq<Byte>)
    requires |f.payload| <= MAX_PAYLOAD
    ensures |r| == 5 + |f.payload|
  {
    WriteUInt32(|f.payload| + 1) + [f.tag] + f.payload
  }

  /** The envelopes of a list of frames, one after the other. */
  function Stream(frames: seq<Frame>): seq<Byte>
    requires Writable(frames)
  {
    if frames == [] then [] else Envelope(frames[0]) + Stream(frames[1..])
  }

  /** What a buffer decodes to, and what is left of it. */
  datatype Decoded = Decoded(frames: seq<Frame>, rest: seq<Byte>)

  /** Whether the inner loop takes a frame from the buffer. */
  predicate HasFrame(buffer: seq<Byte>) {
    |buffer| >= 5 && |buffer| >= 4 + ReadUInt32(buffer)
  }

  /** The frame it takes: a length of 0 leaves the byte after it to be read again. */
  function FirstFrame(buffer: seq<Byte>): Frame
    requires HasFrame(buffer)
  {
    var length := ReadUInt32(buffer);
    Frame(buffer[4], if length == 0 then [] else buffer[5..4 + length])
  }

  function Decode(buffer: seq<Byte>): Decoded
    decreases |buffer|
  {
    if !HasFrame(buffer) then Decoded([], buffer)
    else
      var more := Decode(buffer[4 + ReadUInt32(buffer)..]);
      Decoded([FirstFrame(buffer)] + more.frames, more.rest)
  }

  function Joined(chunks: seq<seq<Byte>>): seq<Byte> {
    if chunks == [] then [] else Joined(chunks[..|chunks| - 1]) + chunks[|chunks| - 1]
  }

  /** A buffer with a frame yields the same frame when more bytes follow it. */
  lemma FrameStays(a: seq<Byte>, b: seq<Byte>)
    requires HasFrame(a)
    ensures ReadUInt32(a + b) == ReadUInt32(a) && HasFrame(a + b) && FirstFrame(a + b) == FirstFrame(a)
    ensures (a + b)[4 + ReadUInt32(a)..] == a[4 + ReadUInt32(a)..] + b
  {
    assert (a + b)[..4] == a[..4];
    SameNumber(a + b, a);
    var n := 4 + ReadUInt32(a);
    if n > 4 {
      assert (a + b)[5..n] == a[5..n];
    }
  }

  /** Decoding part of a stream, then the rest of it after what was left, decodes the stream. */
  lemma {:induction false} DecodeInParts(a: seq<Byte>, b: seq<Byte>)
    ensures var first := Decode(a);
            var second := Decode(first.rest + b);
            Decode(a + b) == Decoded(first.frames + second.frames, second.rest)
    decreases |a|
  {
    if HasFrame(a) {
      var n := 4 + ReadUInt32(a);
      FrameStays(a, b);
      DecodeInParts(a[n..], b);
      var first := Decode(a[n..]);
      Grouped([FirstFrame(a)], first.frames, Decode(first.rest + b).frames);
    } else {
      assert [] + Decode(a + b).frames == Decode(a + b).frames;
    }
  }

  /** A buffer that starts with an envelope yields its frame and goes on after it. */
  lemma {:induction false} DecodeEnvelope(f: Frame, rest: seq<Byte>)
    requires |f.payload| <= MAX_PAYLOAD
    ensures var buffer := Envelope(f) + rest;
            Decode(buffer) == Decoded([f] + Decode(rest).frames, Decode(rest).rest)
  {
    var buffer := Envelope(f) + rest;
    var length := |f.payload| + 1;
    LengthRoundTrip(length, [f.tag] + f.payload + rest);
    assert buffer == WriteUInt32(length) + ([f.tag] + f.payload + rest);
    assert buffer[4] == f.tag;
    assert buffer[5..4 + length] == f.payload;
    assert buffer[4 + length..] == rest;
  }

  /** A proper prefix of an envelope yields nothing. */
  lemma PartialEnvelope(f: Frame, n: nat)
    requires |f.payload| <= MAX_PAYLOAD && n < |Envelope(f)|
    ensures Decode(Envelope(f)[..n]) == Decoded([], Envelope(f)[..n])
  {
    var part := Envelope(f)[..n];
    if n >= 5 {
      LengthRoundTrip(|f.payload| + 1, [f.tag] + f.payload);
      assert Envelope(f) == WriteUInt32(|f.payload| + 1) + ([f.tag] + f.payload);
      assert part[..4] == Envelope(f)[..4];
    }
  }

  /** What decoding the first `n` bytes of a stream of frames yields: its first `k` frames, the
      most that fit, and the beginning of the next envelope left over. */
  ghost predicate PrefixDecodes(frames: seq<Frame>, n: nat, k: nat)
    requires Writable(frames)
  {
    && n <= |Stream(frames)| && k <= |frames|
    && Writable(frames[..k]) && |Stream(frames[..k])| <= n
    && (k < |frames| ==> Writable(frames[..k + 1]) && n < |Stream(frames[..k + 1])|)
    && Decode(Stream(frames)[..n]).frames == frames[..k]
    && Stream(frames)[..n] == Stream(frames[..k]) + Decode(Stream(frames)[..n]).rest
  }

  lemma {:induction false} PrefixInHead(frames: seq<Frame>, n: nat)
    requires Writable(frames) && frames != [] && n < |Envelope(frames[0])|
    ensures PrefixDecodes(frames, n, 0)
  {
    PartialEnvelope(frames[0], n);
    assert Stream(frames)[..n] == Envelope(frames[0])[..n];
    assert frames[..1] == [frames[0]];
    assert Stream(frames[..1]) == Envelope(frames[0]) + Stream(frames[..1][1..]);
  }

  /** The stream of one more frame at the front. */
  lemma StreamOfMore(frames: seq<Frame>, k: nat)
    requires Writable(frames) && k < |frames|
    ensures Stream(frames[..k + 1]) == Envelope(frames[0]) + Stream(frames[1..][..k])
  {
    assert frames[..k + 1][1..] == frames[1..][..k];
  }

  lemma {:induction false} DecodePastHead(frames: seq<Frame>, n: nat)
    requires Writable(frames) && frames != [] && |Envelope(frames[0])| <= n <= |Stream(frames)|
    ensures var tail := Stream(frames[1..])[..n - |Envelope(frames[0])|];
            && Stream(frames)[..n] == Envelope(frames[0]) + tail
            && Decode(Stream(frames)[..n]) == Decoded([frames[0]] + Decode(tail).frames, Decode(tail).rest)
  {
    var head := Envelope(frames[0]);
    var tail := Stream(frames[1..])[..n - |head|];
    assert Stream(frames)[..n] == head + tail;
    DecodeEnvelope(frames[0], tail);
  }

  /** How many frames fit, counted with the one at the front. */
  lemma FitsPastHead(frames: seq<Frame>, n: nat, k: nat)
    requires Writable(frames) && frames != [] && |Envelope(frames[0])| <= n
    requires PrefixDecodes(frames[1..], n - |Envelope(frames[0])|, k)
    ensures n <= |Stream(frames)| && k + 1 <= |frames|
    ensures Writable(frames[..k + 1]) && |Stream(frames[..k + 1])| <= n
    ensures k + 1 < |frames| ==> Writable(frames[..k + 2]) && n < |Stream(frames[..k + 2])|
  {
    StreamOfMore(frames, k);
    if k + 1 < |frames| {
      StreamOfMore(frames, k + 1);
    }
  }

  /** What is decoded and what is left, with the frame at the front. */
  lemma DecodesPastHead(frames: seq<Frame>, n: nat, k: nat)
    requires Writable(frames) && frames != [] && |Envelope(frames[0])| <= n <= |Stream(frames)|
    requires PrefixDecodes(frames[1..], n - |Envelope(frames[0])|, k) && Writable(frames[..k + 1])
    ensures var all := Decode(Stream(frames)[..n]);
            all.frames == frames[..k + 1] && Stream(frames)[..n] == Stream(frames[..k + 1]) + all.rest
  {
    DecodePastHead(frames, n);
    StreamOfMore(frames, k);
    Grouped(Envelope(frames[0]), Stream(frames[1..][..k]), Decode(Stream(frames)[..n]).rest);
    assert frames[..k + 1] == [frames[0]] + frames[1..][..k];
  }

  lemma PrefixPastHead(frames: seq<Frame>, n: nat, k: nat)
    requires Writable(frames) && frames != [] && |Envelope(frames[0])| <= n
    requires PrefixDecodes(frames[1..], n - |Envelope(frames[0])|, k)
    ensures PrefixDecodes(frames, n, k + 1)
  {
    FitsPastHead(frames, n, k);
    DecodesPastHead(frames, n, k);
  }

  /** Any prefix of a stream of frames decodes to the longest list of its frames that fits in it. */
  lemma {:induction false} DecodePrefix(frames: seq<Frame>, n: nat) returns (k: nat)
    requires Writable(frames) && n <= |Stream(frames)|
    ensures PrefixDecodes(frames, n, k)
    decreases |frames|
  {
    if frames == [] {
      return 0;
    }
    if n < |Envelope(frames[0])| {
      PrefixInHead(frames, n);
      return 0;
    }
    k := DecodePrefix(frames[1..], n - |Envelope(frames[0])|);
    PrefixPastHead(frames, n, k);
    k := k + 1;
  }

  /** Every list of frames comes back whole, with nothing left over. */
  lemma {:induction false} StreamRoundTrip(frames: seq<Frame>)
    requires Writable(frames)
    ensures Decode(Stream(frames)) == Decoded(frames, [])
  {
    if frames != [] {
      StreamRoundTrip(frames[1..]);
      DecodeEnvelope(frames[0], Stream(frames[1..]));
    }
  }

  /** The inner loop: takes every whole frame from the buffer. */
  method TakeFrames(start: seq<Byte>) returns (frames: seq<Frame>, buffer: seq<Byte>)
    ensures Decode(start) == Decoded(frames, buffer)
  {
    frames, buffer := [], start;
    while HasFrame(buffer)
      invariant Decode(start).frames == frames + Decode(buffer).frames
      invariant Decode(start).rest == Decode(buffer).rest
      decreases |buffer|
    {
      var length := ReadUInt32(buffer);
      var frame := FirstFrame(buffer);
      ghost var more := Decode(buffer[4 + length..]).frames;
      assert frames + ([frame] + more) == (frames + [frame]) + more;
      frames := frames + [frame];
      buffer := buffer[4 + length..];
    }
    assert frames + [] == frames;
  }

  lemma DecodeOneMore(chunks: seq<seq<Byte>>, read: nat, first: Decoded, second: Decoded)
    requires read < |chunks| && Decode(Joined(chunks[..read])) == first
    requires Decode(first.rest + chunks[read]) == second
    ensures Decode(Joined(chunks[..read + 1])) == Decoded(first.frames + second.frames, second.rest)
  {
    DecodeInParts(Joined(chunks[..read]), chunks[read]);
    assert chunks[..read + 1][..read] == chunks[..read];
  }

  /** No shorter part of the stream had enough frames. */
  ghost predicate NotEnoughBefore(chunks: seq<seq<Byte>>, enough: seq<Frame> -> bool, read: nat) {
    read <= |chunks| && forall k :: 0 <= k < read ==> !enough(Decode(Joined(chunks[..k])).frames)
  }

  /**
   * `readScreenFrames`: reads chunks until `enough`, or to the end of the stream. However the
   * stream is cut, the frames are those the bytes read so far decode to; and it read no chunk
   * after it had enough.
   */
  method ReadScreenFrames(chunks: seq<seq<Byte>>, enough: seq<Frame> -> bool) returns (frames: seq<Frame>, read: nat)
    ensures read <= |chunks|
    ensures frames == Decode(Joined(chunks[..read])).frames
    ensures enough(frames) || read == |chunks|
    ensures NotEnoughBefore(chunks, enough, read)
  {
    frames := [];
    read := 0;
    var buffer: seq<Byte> := [];
    assert Joined(chunks[..0]) == [];
    while !enough(frames) && read < |chunks|
      invariant read <= |chunks|
      invariant Decode(Joined(chunks[..read])) == Decoded(frames, buffer)
      invariant NotEnoughBefore(chunks, enough, read)
      decreases |chunks| - read
    {
      var more, rest := TakeFrames(buffer + chunks[read]);
      DecodeOneMore(chunks, read, Decoded(frames, buffer), Decoded(more, rest));
      frames := frames + more;
      buffer := rest;
      read := read + 1;
    }
  }

  /**
   * For every list of frames and every way of cutting its stream into chunks: after any number
   * of chunks the reader holds the longest list of whole frames among the bytes read, and after
   * all of them exactly the frames that were written.
   */
  lemma {:induction false} AnyCutYieldsTheFrames(frames: seq<Frame>, chunks: seq<seq<Byte>>, read: nat) returns (k: nat)
    requires Writable(frames) && Joined(chunks) == Stream(frames) && read <= |chunks|
    ensures PrefixDecodes(frames, |Joined(chunks[..read])|, k)
    ensures Decode(Joined(chunks[..read])).frames == frames[..k]
    ensures read == |chunks| ==> Decode(Joined(chunks[..read])) == Decoded(frames, [])
  {
    JoinedPrefix(chunks, read);
    var n := |Joined(chunks[..read])|;
    assert Stream(frames)[..n] == Joined(chunks[..read]);
    k := DecodePrefix(frames, n);
    StreamRoundTrip(frames);
    assert chunks[..|chunks|] == chunks;
  }

  lemma {:induction false} JoinedPrefix(chunks: seq<seq<Byte>>, read: nat)
    requires read <= |chunks|
    ensures Joined(chunks[..read]) <= Joined(chunks)
    decreases |chunks| - read
  {
    if read < |chunks| {
      JoinedPrefix(chunks, read + 1);
      assert chunks[..read + 1][..read] == chunks[..read];
    } else {
      assert chunks[..read] == chunks;
    }
  }
}
