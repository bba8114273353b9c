/** The readers of src/files/worker.py: the socket, the demultiplexer that Python writes
    as a generator, and the bounded file object the tar reader pulls from. The socket may
    split the bytes in any way, and a deadline or a cancellation may strike at any read. */
module StreamReader {
  import opened Support
  import opened Framing

  class Connection {
    var rest: seq<Byte>  // what the peer will still send before it closes

    constructor (bytes: seq<Byte>)
      ensures rest == bytes
    {
      rest := bytes;
    }

    /** `recv`: some bytes, never more than asked for, none only at the end. */
    method Receive(size: nat) returns (bytes: seq<Byte>)
      requires size > 0
      modifies this
      ensures bytes + rest == old(rest) && |bytes| <= size
      ensures bytes == [] <==> old(rest) == []
    {
      if rest == [] {
        return [];
      }
      var n: nat :| 0 < n <= size && n <= |rest|;
      bytes := rest[..n];
      rest := rest[n..];
    }
  }

  datatype Exact = Data(bytes: seq<Byte>) | Eof | Interrupted | Stopped

  datatype Item = Yield(chunk: Chunk) | Stop | Fail(ending: Ending) | Abort

  class DockerChunks {
    const connection: Connection
    var position: Position
    var live: bool  // a generator that has ended or raised only stops from then on

    constructor (connection: Connection)
      ensures this.connection == connection && position == BETWEEN && live
    {
      this.connection := connection;
      position := BETWEEN;
      live := true;
    }

    function Ahead(): Items
      reads this, connection
    {
      if live then Upcoming(position, connection.rest) else Items([], Clean)
    }

    method ReadExact(size: nat, eofAllowed: bool) returns (r: Exact)
      requires size > 0
      modifies connection
      ensures r.Data? ==> |r.bytes| == size && r.bytes + connection.rest == old(connection.rest)
      ensures r.Eof? ==> eofAllowed && old(connection.rest) == []
      ensures r.Interrupted? ==> |old(connection.rest)| < size && (eofAllowed ==> old(connection.rest) != [])
    {
      var result: seq<Byte> := [];
      while |result| < size
        invariant |result| <= size && result + connection.rest == old(connection.rest)
        decreases size - |result|
      {
        if * {
          return Stopped;  // cancelled, or past the deadline
        }
        var chunk := connection.Receive(size - |result|);
        if chunk == [] {
          return if result == [] && eofAllowed then Eof else Interrupted;
        }
        result := result + chunk;
      }
      r := Data(result);
    }

    /** One step of the generator: the head of what lies ahead, and the rest stays ahead. */
    method Next() returns (item: Item)
      modifies this`position, this`live, connection
      ensures item.Yield? ==>
                && old(Ahead()).chunks != [] && item.chunk == old(Ahead()).chunks[0] && item.chunk.data != []
                && Ahead() == Items(old(Ahead()).chunks[1..], old(Ahead()).ending)
                && |connection.rest| < |old(connection.rest)|
      ensures item.Stop? ==> old(Ahead()) == Items([], Clean)
      ensures item.Fail? ==> old(Ahead()) == Items([], item.ending) && item.ending != Clean
      ensures live <==> item.Yield?
      ensures old(live) || item.Stop?
    {
      if !live {
        return Stop;
      }
      live := false;
      while position.remaining == 0
        invariant !live && Upcoming(position, connection.rest) == old(Ahead())
        invariant |connection.rest| <= |old(connection.rest)|
        decreases |connection.rest|
      {
        ghost var before := connection.rest;
        var header := ReadExact(8, true);
        match header {
          case Stopped => return Abort;
          case Eof => return Stop;
          case Interrupted => return Fail(Truncated);
          case Data(h) =>
            assert before[..8] == h && before[8..] == connection.rest;
            if !HeaderOk(h) {
              return Fail(Malformed);
            }
            position := AfterHeader(h);
        }
      }
      var m := Min(position.remaining, CHUNK);
      ghost var before := connection.rest;
      var payload := ReadExact(m, false);
      match payload {
        case Stopped => return Abort;
        case Eof => assert false;
        case Interrupted => return Fail(Truncated);
        case Data(bytes) =>
          assert before[..m] == bytes && before[m..] == connection.rest;
          item := Yield(Chunk(position.stdout, bytes));
          position := position.(remaining := position.remaining - m);
          live := true;
          assert old(Ahead()).chunks == [item.chunk] + Upcoming(position, connection.rest).chunks;
      }
    }
  }

  // Handing out n of the bytes kept loses none of them.
  lemma {:induction false} TakenOut(pending: seq<Byte>, n: nat, later: seq<Byte>)
    requires n <= |pending|
    ensures pending[..n] + (pending[n..] + later) == pending + later
  {
    assert pending == pending[..n] + pending[n..];
  }

  datatype Reason = Deadline | Broken | Complaint | TooLong
  datatype Read = Ok(bytes: seq<Byte>) | Failed(reason: Reason)

  class TarStream {
    const chunks: DockerChunks
    const limit: nat
    var total: nat
    var pending: seq<Byte>
    ghost var sound: bool  // no read has failed so far

    constructor (chunks: DockerChunks, limit: nat)
      ensures this.chunks == chunks && this.limit == limit && total == 0 && pending == [] && sound
    {
      this.chunks := chunks;
      this.limit := limit;
      total := 0;
      pending := [];
      sound := true;
    }

    ghost predicate Valid()
      reads this
    {
      sound ==> |pending| <= total <= limit
    }

    // The stdout bytes that reads will still return, if nothing goes wrong.
    ghost function Future(): seq<Byte>
      reads this, chunks, chunks.connection
    {
      pending + Joined(chunks.Ahead().chunks, true)
    }

    // The stderr bytes still to come; any of them makes a read fail.
    ghost function Complaints(): seq<Byte>
      reads chunks, chunks.connection
    {
      Joined(chunks.Ahead().chunks, false)
    }

    // Every failure but that of the deadline has its cause in the stream.
    ghost predicate Blames(reason: Reason)
      reads this, chunks, chunks.connection
    {
      match reason
      case Deadline => true
      case Broken => chunks.Ahead().ending != Clean
      case Complaint => Complaints() != []
      case TooLong => total - |pending| + |Future()| > limit
    }

    /** `read`: the next bytes of stdout. Fewer than asked for are returned only at the clean
        end of the stream, and what all reads together return never exceeds the limit. */
    method Read(size: nat) returns (r: Read)
      requires Valid()
      modifies this`total, this`pending, this`sound, chunks`position, chunks`live, chunks.connection
      ensures Valid() && sound == (old(sound) && r.Ok?)
      ensures r.Ok? ==>
                && r.bytes + Future() == old(Future()) && |r.bytes| <= size
                && chunks.Ahead().ending == old(chunks.Ahead()).ending
                && (|r.bytes| < size ==> Future() == [] && chunks.Ahead() == Items([], Clean))
                && total - |pending| == old(total - |pending|) + |r.bytes|
                && Complaints() == old(Complaints())
      ensures r.Failed? ==> old(Blames(r.reason))
    {
      while |pending| < size
        invariant Valid() && sound == old(sound)
        invariant Future() == old(Future()) && chunks.Ahead().ending == old(chunks.Ahead()).ending
        invariant total - |pending| == old(total - |pending|) && Complaints() == old(Complaints())
        decreases |chunks.connection.rest|
      {
        if * {
          sound := false;
          return Failed(Deadline);
        }
        ghost var ahead := chunks.Ahead().chunks;
        var item := chunks.Next();
        if item.Stop? {
          break;
        }
        if !item.Yield? {
          sound := false;
          return Failed(if item.Abort? then Deadline else Broken);
        }
        if !item.chunk.stdout {
          sound := false;
          return Failed(Complaint);
        }
        assert pending + Joined(ahead, true) == pending + item.chunk.data + Joined(ahead[1..], true);
        total := total + |item.chunk.data|;
        if total > limit {
          sound := false;
          return Failed(TooLong);
        }
        pending := pending + item.chunk.data;
      }
      var n := Min(size, |pending|);
      r := Ok(pending[..n]);
      TakenOut(pending, n, Joined(chunks.Ahead().chunks, true));
      pending := pending[n..];
    }

    /** `drain`: read to the end. Returning normally means the stream ended cleanly. */
    method Drain() returns (r: Read)
      requires Valid()
      modifies this`total, this`pending, this`sound, chunks`position, chunks`live, chunks.connection
      ensures Valid() && sound == (old(sound) && r.Ok?)
      ensures r.Ok? ==> r.bytes == old(Future()) && chunks.Ahead() == Items([], Clean)
                        && old(chunks.Ahead()).ending == Clean && old(Complaints()) == []
                        && total - |pending| == old(total - |pending|) + |r.bytes|
      ensures r.Failed? ==> old(Blames(r.reason))
    {
      var read: seq<Byte> := [];
      while true
        invariant Valid() && sound == old(sound)
        invariant total - |pending| == old(total - |pending|) + |read| && Complaints() == old(Complaints())
        invariant read + Future() == old(Future()) && chunks.Ahead().ending == old(chunks.Ahead()).ending
        decreases |Future()|
      {
        var more := Read(65536);
        if more.Failed? {
          return more;
        }
        if more.bytes == [] {
          return Ok(read);
        }
        read := read + more.bytes;
      }
    }
  }

  /** End to end: whatever frames the peer sends and however the socket splits them, draining
      a fresh stream yields exactly what was sent to stdout; and unless the deadline strikes
      it fails only if something was sent to stderr or stdout exceeds the limit. */
  method DrainFrames(frames: seq<Frame>, limit: nat) returns (r: Read)
    requires forall i | 0 <= i < |frames| :: Sendable(frames[i])
    ensures r.Ok? ==> r.bytes == Sent(frames, true) && |r.bytes| <= limit && Sent(frames, false) == []
    ensures r.Failed? && r.reason != Deadline ==> Sent(frames, false) != [] || |Sent(frames, true)| > limit
  {
    var connection := new Connection(Encode(frames));
    var chunks := new DockerChunks(connection);
    var stream := new TarStream(chunks, limit);
    RoundTrip(frames, true);
    RoundTrip(frames, false);
    assert stream.Future() == Sent(frames, true);
    r := stream.Drain();
  }

  /** A peer that closes inside a frame is never mistaken for one that finished, and a cut at
      a frame boundary causes no failure of its own. */
  method DrainCut(frames: seq<Frame>, n: nat, limit: nat) returns (r: Read)
    requires forall i | 0 <= i < |frames| :: Sendable(frames[i])
    requires n <= |Encode(frames)|
    ensures r.Ok? ==> Boundary(frames, n) && r.bytes <= Sent(frames, true) && |r.bytes| <= limit
    ensures r.Failed? && r.reason != Deadline ==>
              !Boundary(frames, n) || Sent(frames, false) != [] || |Sent(frames, true)| > limit
  {
    var connection := new Connection(Encode(frames)[..n]);
    var chunks := new DockerChunks(connection);
    var stream := new TarStream(chunks, limit);
    CutStream(frames, n, true);
    CutStream(frames, n, false);
    assert stream.Future() == Joined(Upcoming(BETWEEN, Encode(frames)[..n]).chunks, true);
    r := stream.Drain();
  }
}
