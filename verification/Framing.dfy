/** The attach format of the Docker Engine API as bytes: each frame is a stream number
    (1 stdout, 2 stderr), three zero bytes, the payload length as four big-endian bytes,
    and the payload. `Items` says what src/files/worker.py makes of any byte sequence;
    the lemmas relate it to the frames that were encoded. */
module Framing {
  import opened Support

  type Byte = n: nat | n < 256

  datatype Frame = Frame(stdout: bool, payload: seq<Byte>)

  predicate Sendable(f: Frame) {
    |f.payload| < 0x1_0000_0000
  }

  function BigEndian(n: nat): seq<Byte>
    requires n < 0x1_0000_0000
  {
    var a := n / 256;
    var b := a / 256;
    [b / 256, b % 256, a % 256, n % 256]
  }

  function FromBigEndian(b: seq<Byte>): nat
    requires |b| == 4
  {
    var w: int, x: int, y: int, z: int := b[0], b[1], b[2], b[3];
    ((w * 256 + x) * 256 + y) * 256 + z
  }

  lemma {:induction false} BigEndianRoundTrip(n: nat)
    requires n < 0x1_0000_0000
    ensures FromBigEndian(BigEndian(n)) == n
  {
  }

  lemma {:induction false} BigEndianOnto(b: seq<Byte>)
    requires |b| == 4
    ensures FromBigEndian(b) < 0x1_0000_0000 && BigEndian(FromBigEndian(b)) == b
  {
    var w: int, x: int, y: int := b[0], b[1], b[2];
    LastDigit(w, b[1]);
    LastDigit(w * 256 + x, b[2]);
    LastDigit((w * 256 + x) * 256 + y, b[3]);
  }

  lemma {:induction false} LastDigit(high: nat, low: Byte)
    ensures (high * 256 + low) / 256 == high && (high * 256 + low) % 256 == low
  {
  }

  function EncodeFrame(f: Frame): seq<Byte>
    requires Sendable(f)
  {
    [if f.stdout then 1 else 2, 0, 0, 0] + BigEndian(|f.payload|) + f.payload
  }

  function Encode(frames: seq<Frame>): seq<Byte>
    requires forall i | 0 <= i < |frames| :: Sendable(frames[i])
  {
    if frames == [] then [] else EncodeFrame(frames[0]) + Encode(frames[1..])
  }

  // What one stream was sent.
  function Sent(frames: seq<Frame>, stdout: bool): seq<Byte> {
    if frames == [] then []
    else (if frames[0].stdout == stdout then frames[0].payload else []) + Sent(frames[1..], stdout)
  }

  // ----- what the demultiplexer yields

  datatype Chunk = Chunk(stdout: bool, data: seq<Byte>)
  datatype Ending = Clean | Truncated | Malformed
  datatype Items = Items(chunks: seq<Chunk>, ending: Ending)

  // Bytes of the current frame that are still to come (0 between frames), and its stream.
  datatype Position = Position(stdout: bool, remaining: nat)

  const BETWEEN := Position(true, 0)
  const CHUNK := 65536

  predicate HeaderOk(h: seq<Byte>)
    requires |h| == 8
  {
    h[0] in {1, 2} && h[1] == 0 && h[2] == 0 && h[3] == 0
  }

  function AfterHeader(h: seq<Byte>): Position
    requires |h| == 8
  {
    Position(h[0] == 1, FromBigEndian(h[4..]))
  }

  function Upcoming(p: Position, rest: seq<Byte>): Items
    decreases |rest|, p.remaining
  {
    if p.remaining > 0 then
      var m := Min(p.remaining, CHUNK);
      if |rest| < m then Items([], Truncated)
      else
        var more := Upcoming(p.(remaining := p.remaining - m), rest[m..]);
        Items([Chunk(p.stdout, rest[..m])] + more.chunks, more.ending)
    else if rest == [] then Items([], Clean)
    else if |rest| < 8 then Items([], Truncated)
    else if !HeaderOk(rest[..8]) then Items([], Malformed)
    else Upcoming(AfterHeader(rest[..8]), rest[8..])
  }

  // The payload bytes of one stream in a sequence of chunks.
  function Joined(chunks: seq<Chunk>, stdout: bool): seq<Byte> {
    if chunks == [] then []
    else (if chunks[0].stdout == stdout then chunks[0].data else []) + Joined(chunks[1..], stdout)
  }

  // ----- round trip

  lemma {:induction false} JoinedConcat(a: seq<Chunk>, b: seq<Chunk>, stdout: bool)
    ensures Joined(a + b, stdout) == Joined(a, stdout) + Joined(b, stdout)
  {
    if a == [] {
      assert a + b == b;
    } else {
      assert (a + b)[0] == a[0] && (a + b)[1..] == a[1..] + b;
      JoinedConcat(a[1..], b, stdout);
    }
  }

  lemma {:induction false} ChunkFirst(p: Position, rest: seq<Byte>, stdout: bool)
    requires p.remaining > 0 && |rest| >= Min(p.remaining, CHUNK)
    ensures var m := Min(p.remaining, CHUNK);
            var more := Upcoming(p.(remaining := p.remaining - m), rest[m..]);
            && Upcoming(p, rest).ending == more.ending
            && Joined(Upcoming(p, rest).chunks, stdout) ==
                 (if p.stdout == stdout then rest[..m] else []) + Joined(more.chunks, stdout)
  {
    var m := Min(p.remaining, CHUNK);
    var more := Upcoming(p.(remaining := p.remaining - m), rest[m..]);
    assert ([Chunk(p.stdout, rest[..m])] + more.chunks)[1..] == more.chunks;
  }

  lemma {:induction false} Rejoin(a: seq<Byte>, m: nat, b: seq<Byte>)
    requires m <= |a|
    ensures a[..m] + (a[m..] + b) == a + b
  {
  }

  // Reading a payload of exactly the announced length.
  lemma {:induction false} PayloadDelivered(p: Position, payload: seq<Byte>, tail: seq<Byte>, stdout: bool)
    requires p.remaining == |payload|
    ensures var all := Upcoming(p, payload + tail);
            var after := Upcoming(p.(remaining := 0), tail);
            && all.ending == after.ending
            && Joined(all.chunks, stdout) == (if p.stdout == stdout then payload else []) + Joined(after.chunks, stdout)
    decreases |payload|
  {
    if payload == [] {
      assert payload + tail == tail;
    } else {
      var m := Min(p.remaining, CHUNK);
      var rest := payload + tail;
      assert rest[..m] == payload[..m] && rest[m..] == payload[m..] + tail;
      PayloadDelivered(p.(remaining := p.remaining - m), payload[m..], tail, stdout);
      ChunkFirst(p, rest, stdout);
      var after := Upcoming(p.(remaining := 0), tail);
      Rejoin(payload, m, Joined(after.chunks, stdout));
    }
  }

  // Between frames the stream number of the last frame does not matter.
  lemma {:induction false} BetweenFrames(p: Position, rest: seq<Byte>)
    requires p.remaining == 0
    ensures Upcoming(p, rest) == Upcoming(BETWEEN, rest)
  {
  }

  lemma {:induction false} FrameDelivered(f: Frame, tail: seq<Byte>, stdout: bool)
    requires Sendable(f)
    ensures var all := Upcoming(BETWEEN, EncodeFrame(f) + tail);
            var after := Upcoming(BETWEEN, tail);
            && all.ending == after.ending
            && Joined(all.chunks, stdout) ==
              (if f.stdout == stdout then f.payload else []) + Joined(after.chunks, stdout)
  {
    var rest := EncodeFrame(f) + tail;
    var h := rest[..8];
    assert h[4..] == BigEndian(|f.payload|);
    BigEndianRoundTrip(|f.payload|);
    assert rest[8..] == f.payload + tail;
    var p := AfterHeader(h);
    assert p == Position(f.stdout, |f.payload|);
    PayloadDelivered(p, f.payload, tail, stdout);
    BetweenFrames(p.(remaining := 0), tail);
  }

  /** Every encoded sequence of frames is read to a clean end, and each stream receives
      exactly the bytes sent to it, in order. */
  lemma {:induction false} RoundTrip(frames: seq<Frame>, stdout: bool)
    requires forall i | 0 <= i < |frames| :: Sendable(frames[i])
    ensures Upcoming(BETWEEN, Encode(frames)).ending == Clean
    ensures Joined(Upcoming(BETWEEN, Encode(frames)).chunks, stdout) == Sent(frames, stdout)
  {
    if frames != [] {
      RoundTrip(frames[1..], stdout);
      FrameDelivered(frames[0], Encode(frames[1..]), stdout);
    }
  }

  // ----- a clean end means whole frames

  ghost predicate IsEncoding(b: seq<Byte>) {
    exists frames: seq<Frame> :: (forall i | 0 <= i < |frames| :: Sendable(frames[i])) && b == Encode(frames)
  }

  lemma {:induction false} CleanPayload(p: Position, rest: seq<Byte>)
    requires Upcoming(p, rest).ending == Clean
    ensures |rest| >= p.remaining
    ensures Upcoming(BETWEEN, rest[p.remaining..]).ending == Clean
    decreases p.remaining
  {
    if p.remaining == 0 {
      BetweenFrames(p, rest);
      assert rest[0..] == rest;
    } else {
      var m := Min(p.remaining, CHUNK);
      CleanPayload(p.(remaining := p.remaining - m), rest[m..]);
      assert rest[m..][p.remaining - m..] == rest[p.remaining..];
    }
  }

  // A clean non-empty stream starts with a whole frame, and the rest of it is clean too.
  lemma {:induction false} CleanFrame(rest: seq<Byte>) returns (f: Frame, tail: seq<Byte>)
    requires rest != [] && Upcoming(BETWEEN, rest).ending == Clean
    ensures Sendable(f) && rest == EncodeFrame(f) + tail
    ensures Upcoming(BETWEEN, tail).ending == Clean
  {
    var h, body := rest[..8], rest[8..];
    var p := AfterHeader(h);
    assert Upcoming(p, body).ending == Clean;
    CleanPayload(p, body);
    f, tail := Frame(p.stdout, body[..p.remaining]), body[p.remaining..];
    HeaderEncodes(h, f.payload);
    Reassemble(rest, p.remaining);
  }

  lemma {:induction false} Reassemble(rest: seq<Byte>, n: nat)
    requires 8 + n <= |rest|
    ensures rest == rest[..8] + rest[8..][..n] + rest[8..][n..]
  {
  }

  lemma {:induction false} CleanIsEncoding(rest: seq<Byte>)
    requires Upcoming(BETWEEN, rest).ending == Clean
    ensures IsEncoding(rest)
    decreases |rest|
  {
    if rest == [] {
      EncodeIsEncoding([]);
    } else {
      var f, tail := CleanFrame(rest);
      CleanIsEncoding(tail);
      var frames: seq<Frame> :| (forall i | 0 <= i < |frames| :: Sendable(frames[i])) && tail == Encode(frames);
      Prepend(f, frames);
    }
  }

  lemma {:induction false} HeaderEncodes(h: seq<Byte>, payload: seq<Byte>)
    requires |h| == 8 && HeaderOk(h) && |payload| == AfterHeader(h).remaining
    ensures Sendable(Frame(h[0] == 1, payload)) && EncodeFrame(Frame(h[0] == 1, payload)) == h + payload
  {
    BigEndianOnto(h[4..]);
  }

  lemma {:induction false} Prepend(f: Frame, frames: seq<Frame>)
    requires Sendable(f) && forall i | 0 <= i < |frames| :: Sendable(frames[i])
    ensures IsEncoding(EncodeFrame(f) + Encode(frames))
  {
    var all := [f] + frames;
    assert forall i | 0 <= i < |all| :: Sendable(all[i]);
    EncodeIsEncoding(all);
    EncodePrepend(f, frames);
  }

  lemma {:induction false} EncodeIsEncoding(frames: seq<Frame>)
    requires forall i | 0 <= i < |frames| :: Sendable(frames[i])
    ensures IsEncoding(Encode(frames))
  {
  }

  lemma {:induction false} EncodePrepend(f: Frame, frames: seq<Frame>)
    requires Sendable(f) && forall i | 0 <= i < |frames| :: Sendable(frames[i])
    ensures (forall i | 0 <= i < |[f] + frames| :: Sendable(([f] + frames)[i]))
    ensures Encode([f] + frames) == EncodeFrame(f) + Encode(frames)
  {
    assert ([f] + frames)[1..] == frames;
  }

  /** The demultiplexer ends cleanly on exactly the byte sequences that encode whole frames;
      everything else is rejected. */
  lemma {:induction false} CleanExactlyOnEncodings(b: seq<Byte>)
    ensures Upcoming(BETWEEN, b).ending == Clean <==> IsEncoding(b)
  {
    if Upcoming(BETWEEN, b).ending == Clean {
      CleanIsEncoding(b);
    }
    if IsEncoding(b) {
      var frames: seq<Frame> :| (forall i | 0 <= i < |frames| :: Sendable(frames[i])) && b == Encode(frames);
      RoundTrip(frames, true);
    }
  }

  // ----- truncation

  // n bytes end exactly after some number of whole frames.
  ghost predicate Boundary(frames: seq<Frame>, n: nat)
    requires forall i | 0 <= i < |frames| :: Sendable(frames[i])
    decreases frames
  {
    n == 0 || (frames != [] && n >= |EncodeFrame(frames[0])| && Boundary(frames[1..], n - |EncodeFrame(frames[0])|))
  }

  lemma {:induction false} ShortPayload(p: Position, rest: seq<Byte>, stdout: bool)
    requires |rest| < p.remaining
    ensures Upcoming(p, rest).ending == Truncated
    ensures Joined(Upcoming(p, rest).chunks, stdout) <= (if p.stdout == stdout then rest else [])
    decreases p.remaining
  {
    var m := Min(p.remaining, CHUNK);
    if |rest| >= m {
      ShortPayload(p.(remaining := p.remaining - m), rest[m..], stdout);
      ChunkFirst(p, rest, stdout);
      var more := Upcoming(p.(remaining := p.remaining - m), rest[m..]);
      PrefixAfter(rest, m, Joined(more.chunks, stdout));
    }
  }

  lemma {:induction false} PrefixAfter(rest: seq<Byte>, m: nat, more: seq<Byte>)
    requires m <= |rest|
    ensures more <= rest[m..] ==> rest[..m] + more <= rest
    ensures more <= [] ==> [] + more == []
  {
    assert rest == rest[..m] + rest[m..];
  }

  /** A connection cut after n bytes: a clean end if and only if the cut is at a frame
      boundary, otherwise a truncation error; and what was delivered before it is a
      prefix of what was sent. */
  lemma {:induction false} CutStream(frames: seq<Frame>, n: nat, stdout: bool)
    requires forall i | 0 <= i < |frames| :: Sendable(frames[i])
    requires n <= |Encode(frames)|
    ensures var cut := Upcoming(BETWEEN, Encode(frames)[..n]);
            && cut.ending == (if Boundary(frames, n) then Clean else Truncated)
            && Joined(cut.chunks, stdout) <= Sent(frames, stdout)
    decreases frames
  {
    if frames != [] && n > 0 {
      var f, tail := frames[0], Encode(frames[1..]);
      var e := EncodeFrame(f);
      assert Encode(frames) == e + tail;
      if n >= |e| {
        assert Encode(frames)[..n] == e + tail[..n - |e|];
        CutStream(frames[1..], n - |e|, stdout);
        FrameDelivered(f, tail[..n - |e|], stdout);
        assert Boundary(frames, n) == Boundary(frames[1..], n - |e|);
        assert Sent(frames, stdout) == (if f.stdout == stdout then f.payload else []) + Sent(frames[1..], stdout);
      } else {
        CutFrame(f, n, stdout);
        assert Encode(frames)[..n] == e[..n];
      }
    }
  }

  lemma {:induction false} CutFrame(f: Frame, n: nat, stdout: bool)
    requires Sendable(f) && 0 < n < |EncodeFrame(f)|
    ensures var cut := Upcoming(BETWEEN, EncodeFrame(f)[..n]);
            && cut.ending == Truncated
            && Joined(cut.chunks, stdout) <= if f.stdout == stdout then f.payload else []
  {
    var rest := EncodeFrame(f)[..n];
    if n >= 8 {
      var h := rest[..8];
      assert h == EncodeFrame(f)[..8];
      assert h[4..] == BigEndian(|f.payload|);
      BigEndianRoundTrip(|f.payload|);
      assert rest[8..] == f.payload[..n - 8];
      ShortPayload(AfterHeader(h), rest[8..], stdout);
    }
  }
}
