/** Newline-delimited frames over a byte stream that arrives in arbitrary pieces. */
module JsonLines {
  const MAX_WIRE_FRAME_BYTES: nat := 1_048_576
  const NEWLINE: byte := 10

  type byte = n: int | 0 <= n < 256

  datatype Option<T> = None | Some(value: T)

  /** What is found after the last byte: the end of the stream or a read error. */
  datatype Ending = Closed | Broken

  datatype LineResult = Line(text: seq<byte>) | TooLarge | EndOfStream | IoFailed | InvalidUtf8

  // ---- The stream as one sequence ----------------------------------------

  function Flat(chunks: seq<seq<byte>>): seq<byte> {
    if chunks == [] then [] else chunks[0] + Flat(chunks[1..])
  }

  /** The place of the first newline, or the length when there is none. */
  function LineEnd(s: seq<byte>): (n: nat)
    ensures n <= |s|
    ensures n < |s| ==> s[n] == NEWLINE
    ensures forall k :: 0 <= k < n ==> s[k] != NEWLINE
  {
    if s == [] || s[0] == NEWLINE then 0 else 1 + LineEnd(s[1..])
  }

  /** What reading one line of the stream gives, with no pieces in sight. */
  function ReadLine(s: seq<byte>, ending: Ending, utf8: seq<byte> -> bool): LineResult {
    var n := LineEnd(s);
    if n > MAX_WIRE_FRAME_BYTES then TooLarge
    else if n < |s| then if utf8(s[..n]) then Line(s[..n]) else InvalidUtf8
    else if ending.Closed? then EndOfStream
    else IoFailed
  }

  lemma {:induction false} LineEndUnique(s: seq<byte>, n: nat)
    requires n <= |s| && (n < |s| ==> s[n] == NEWLINE)
    requires forall k :: 0 <= k < n ==> s[k] != NEWLINE
    ensures LineEnd(s) == n
  {
  }

  ghost predicate NoNewline(s: seq<byte>) {
    forall k :: 0 <= k < |s| ==> s[k] != NEWLINE
  }

  /** A piece with a newline settles where the line ends. */
  lemma {:induction false} Found(line: seq<byte>, piece: seq<byte>, rest: seq<byte>)
    requires NoNewline(line) && piece <= rest && LineEnd(piece) < |piece|
    ensures var n := LineEnd(piece);
      && LineEnd(line + rest) == |line| + n
      && (line + rest)[..|line| + n] == line + piece[..n]
      && line + rest == line + piece[..n] + [NEWLINE] + rest[n + 1..]
  {
    var n := LineEnd(piece);
    assert forall k :: 0 <= k < n ==> (line + rest)[|line| + k] == piece[k];
    LineEndUnique(line + rest, |line| + n);
  }

  /** A piece without one only makes the line longer. */
  lemma {:induction false} Grown(line: seq<byte>, piece: seq<byte>, rest: seq<byte>, n: nat)
    requires NoNewline(line) && piece <= rest && LineEnd(piece) == |piece| && n <= |piece|
    ensures NoNewline(line + piece[..n]) && line + rest == line + piece[..n] + rest[n..]
  {
    assert rest[..n] == piece[..n];
    assert rest == rest[..n] + rest[n..];
  }

  lemma {:induction false} EndsLater(line: seq<byte>, rest: seq<byte>)
    requires NoNewline(line)
    ensures LineEnd(line + rest) >= |line|
  {
    assert forall k :: 0 <= k < |line| ==> (line + rest)[k] == line[k];
  }

  class BufferedReader {
    var chunks: seq<seq<byte>>
    const ending: Ending

    constructor (chunks: seq<seq<byte>>, ending: Ending)
      requires forall k :: 0 <= k < |chunks| ==> chunks[k] != []
      ensures Valid() && this.chunks == chunks && this.ending == ending
    {
      this.chunks := chunks;
      this.ending := ending;
    }

    ghost predicate Valid()
      reads this
    {
      forall k :: 0 <= k < |chunks| ==> chunks[k] != []
    }

    ghost function Rest(): seq<byte>
      reads this
    {
      Flat(chunks)
    }

    method FillBuf() returns (available: seq<byte>, failed: bool)
      requires Valid()
      ensures available <= Rest()
      ensures available == [] <==> Rest() == []
      ensures available != [] ==> chunks != [] && chunks[0] == available
      ensures failed == (Rest() == [] && ending.Broken?)
    {
      if chunks == [] {
        return [], ending.Broken?;
      }
      return chunks[0], false;
    }

    method Consume(n: nat)
      requires Valid() && chunks != [] && n <= |chunks[0]|
      modifies this
      ensures Valid() && n <= |old(Rest())| && Rest() == old(Rest())[n..]
    {
      ghost var all := Rest();
      if n < |chunks[0]| {
        chunks := [chunks[0][n..]] + chunks[1..];
      } else {
        chunks := chunks[1..];
      }
      assert Rest() == all[n..];
    }
  }

  /**
    Reads one line. The answer and, when there is a line, what is left behind depend only on the bytes of the
    stream, never on the pieces they came in; at most one byte more than the limit is ever held.
  */
  method ReadJsonLine(reader: BufferedReader, utf8: seq<byte> -> bool) returns (r: LineResult, held: nat)
    requires reader.Valid()
    modifies reader
    ensures reader.Valid()
    ensures r == ReadLine(old(reader.Rest()), reader.ending, utf8)
    ensures r.Line? ==> old(reader.Rest()) == r.text + [NEWLINE] + reader.Rest()
    ensures held <= MAX_WIRE_FRAME_BYTES + 1
  {
    hide Flat, LineEnd;
    ghost var all := reader.Rest();
    var line: seq<byte> := [];
    held := 0;
    while true
      invariant reader.Valid()
      invariant all == line + reader.Rest()
      invariant NoNewline(line)
      invariant |line| <= MAX_WIRE_FRAME_BYTES
      invariant held <= MAX_WIRE_FRAME_BYTES + 1
      decreases |reader.Rest()|
    {
      hide NoNewline;
      var available, failed := reader.FillBuf();
      if failed || available == [] {
        EndsLater(line, []);
        assert all == line == line + [];
        return if failed then IoFailed else EndOfStream, held;
      }
      ghost var rest := reader.Rest();
      var newline := LineEnd(available);
      if newline < |available| {
        Found(line, available, rest);
        if |line| + newline > MAX_WIRE_FRAME_BYTES {
          return TooLarge, held;
        }
        line := line + available[..newline];
        held := if |line| > held then |line| else held;
        reader.Consume(newline + 1);
        return if utf8(line) then Line(line) else InvalidUtf8, held;
      }
      var remaining := MAX_WIRE_FRAME_BYTES + 1 - |line|;
      var copied := if |available| < remaining then |available| else remaining;
      Grown(line, available, rest, copied);
      line := line + available[..copied];
      held := if |line| > held then |line| else held;
      reader.Consume(copied);
      if |line| > MAX_WIRE_FRAME_BYTES {
        EndsLater(line, reader.Rest());
        return TooLarge, held;
      }
    }
  }

  // ---- Frames -----------------------------------------------------------

  /** How messages become lines and back; encoding may refuse a message. */
  datatype Codec<!M> = Codec(encode: M -> Option<seq<byte>>, utf8: seq<byte> -> bool, decode: seq<byte> -> Option<M>)

  /** A line holds no raw newline, is text within the limit, and decodes to its message. */
  ghost predicate Sound<M(!new)>(c: Codec<M>) {
    forall m: M :: c.encode(m).Some? ==>
      && |c.encode(m).value| <= MAX_WIRE_FRAME_BYTES
      && NEWLINE !in c.encode(m).value
      && c.utf8(c.encode(m).value)
      && c.decode(c.encode(m).value) == Some(m)
  }

  /** The bytes of a sequence of frames, each line with its newline. */
  ghost function Sent<M(!new)>(c: Codec<M>, frames: seq<M>): seq<byte> {
    if frames == [] then []
    else
      Sent(c, frames[..|frames| - 1])
      + (match c.encode(frames[|frames| - 1]) case Some(line) => line + [NEWLINE] case None => [])
  }

  ghost predicate Encodable<M(!new)>(c: Codec<M>, frames: seq<M>) {
    forall k :: 0 <= k < |frames| ==> c.encode(frames[k]).Some?
  }

  lemma {:induction false} SentFirst<M(!new)>(c: Codec<M>, frames: seq<M>)
    requires frames != [] && c.encode(frames[0]).Some?
    ensures Sent(c, frames) == c.encode(frames[0]).value + [NEWLINE] + Sent(c, frames[1..])
    decreases |frames|
  {
    if |frames| > 1 {
      var front := frames[..|frames| - 1];
      SentFirst(c, front);
      assert front[1..] == frames[1..][..|frames| - 2];
      assert frames[1..][|frames| - 2] == frames[|frames| - 1];
    } else {
      assert frames[1..] == [];
      assert frames[..0] == [];
      assert Sent(c, frames[..0]) == [];
    }
  }

  /** What stands first in the stream is read first, whatever follows. */
  lemma {:induction false} ReadsFirst<M(!new)>(c: Codec<M>, m: M, tail: seq<byte>, ending: Ending)
    requires Sound(c) && c.encode(m).Some?
    ensures ReadLine(c.encode(m).value + [NEWLINE] + tail, ending, c.utf8) == Line(c.encode(m).value)
  {
    var line := c.encode(m).value;
    var s := line + [NEWLINE] + tail;
    LineEndUnique(s, |line|);
    assert s[..|line|] == line;
  }

  datatype ChannelError = Poisoned | Io | Protocol | BadUtf8 | UnexpectedEndOfStream | FrameTooLarge
  datatype Result<T> = Ok(value: T) | Err(error: ChannelError)

  /** A byte sink that accepts so many more bytes and then fails. */
  class Writer {
    var written: seq<byte>
    var room: nat

    constructor (room: nat)
      ensures written == [] && this.room == room
    {
      written := [];
      this.room := room;
    }

    method WriteAll(bytes: seq<byte>) returns (ok: bool)
      modifies this
      ensures ok <==> |bytes| <= old(room)
      ensures ok ==> written == old(written) + bytes && room == old(room) - |bytes|
      ensures !ok ==> exists n :: 0 <= n < |bytes| && written == old(written) + bytes[..n]
    {
      ok := |bytes| <= room;
      if ok {
        written := written + bytes;
        room := room - |bytes|;
      } else {
        written := written + bytes[..room];
        room := 0;
      }
    }
  }

  class JsonLineWorkerChannel<M(!new)> {
    const codec: Codec<M>
    const reader: BufferedReader
    const writer: Writer
    var poisoned: bool
    ghost var sent: seq<M>

    constructor (codec: Codec<M>, reader: BufferedReader, writer: Writer)
      requires Sound(codec) && reader.Valid() && writer.written == []
      ensures Valid() && !poisoned && sent == []
      ensures this.codec == codec && this.reader == reader && this.writer == writer
    {
      this.codec := codec;
      this.reader := reader;
      this.writer := writer;
      poisoned := false;
      sent := [];
    }

    /** What was written is whole frames, with a torn one at the end only on a poisoned channel. */
    ghost predicate Valid()
      reads this, reader, writer
    {
      && Sound(codec)
      && reader.Valid()
      && Encodable(codec, sent)
      && Sent(codec, sent) <= writer.written
      && (!poisoned ==> writer.written == Sent(codec, sent))
    }

    method SendFrame(m: M, flushes: bool) returns (r: Result<()>)
      requires Valid()
      modifies this`poisoned, this`sent, writer
      ensures Valid() && old(writer.written) <= writer.written
      ensures old(poisoned) ==> r == Err(Poisoned) && writer.written == old(writer.written)
      ensures !old(poisoned) && codec.encode(m).None? ==> r == Err(Protocol)
      ensures !old(poisoned) && codec.encode(m).Some? ==>
        if |codec.encode(m).value| + 1 <= old(writer.room) && flushes then r == Ok(()) else r == Err(Io)
      ensures r.Ok? <==> !old(poisoned) && !poisoned
      ensures sent == if r.Ok? then old(sent) + [m] else old(sent)
    {
      if poisoned { return Err(Poisoned); }
      var line := codec.encode(m);
      if line.None? {
        poisoned := true;
        return Err(Protocol);
      }
      var wrote := writer.WriteAll(line.value);
      if !wrote {
        poisoned := true;
        return Err(Io);
      }
      wrote := writer.WriteAll([NEWLINE]);
      if !wrote || !flushes {
        poisoned := true;
        return Err(Io);
      }
      assert (sent + [m])[..|sent|] == sent;
      sent := sent + [m];
      assert writer.written == old(writer.written) + (line.value + [NEWLINE]);
      return Ok(());
    }

    /** A frame is the next line of the stream, decoded; every failure poisons. */
    method ReceiveFrame() returns (r: Result<M>)
      requires Valid() && reader as object != writer as object
      modifies this`poisoned, reader
      ensures Valid()
      ensures old(poisoned) ==> r == Err(Poisoned) && reader.Rest() == old(reader.Rest())
      ensures r.Ok? <==> !old(poisoned) && !poisoned
      ensures !old(poisoned) ==>
        var line := ReadLine(old(reader.Rest()), reader.ending, codec.utf8);
        && (r.Ok? <==> line.Line? && codec.decode(line.text).Some?)
        && (r.Ok? ==>
              && r.value == codec.decode(line.text).value
              && old(reader.Rest()) == line.text + [NEWLINE] + reader.Rest())
    {
      if poisoned { return Err(Poisoned); }
      var line, _ := ReadJsonLine(reader, codec.utf8);
      if line.Line? {
        var m := codec.decode(line.text);
        if m.Some? { return Ok(m.value); }
        poisoned := true;
        return Err(Protocol);
      }
      poisoned := true;
      if line.TooLarge? { return Err(FrameTooLarge); }
      if line.EndOfStream? { return Err(UnexpectedEndOfStream); }
      if line.IoFailed? { return Err(Io); }
      return Err(BadUtf8);
    }
  }

  lemma {:induction false} SameAfter(line: seq<byte>, a: seq<byte>, b: seq<byte>)
    requires line + [NEWLINE] + a == line + [NEWLINE] + b
    ensures a == b
  {
    assert a == (line + [NEWLINE] + a)[|line| + 1..];
    assert b == (line + [NEWLINE] + b)[|line| + 1..];
  }

  method ReceiveNext<M(!new)>(channel: JsonLineWorkerChannel<M>, ghost frames: seq<M>, ghost tail: seq<byte>)
    returns (m: M)
    requires channel.Valid() && !channel.poisoned && channel.reader as object != channel.writer as object
    requires frames != [] && Encodable(channel.codec, frames)
    requires channel.reader.Rest() == Sent(channel.codec, frames) + tail
    modifies channel`poisoned, channel.reader
    ensures channel.Valid() && !channel.poisoned
    ensures m == frames[0] && channel.reader.Rest() == Sent(channel.codec, frames[1..]) + tail
  {
    SentFirst(channel.codec, frames);
    ghost var line := channel.codec.encode(frames[0]).value;
    ghost var rest := Sent(channel.codec, frames[1..]) + tail;
    hide Sent, ReadLine;
    assert channel.reader.Rest() == line + [NEWLINE] + rest;
    ReadsFirst(channel.codec, frames[0], rest, channel.reader.ending);
    var r := channel.ReceiveFrame();
    m := r.value;
    SameAfter(line, channel.reader.Rest(), rest);
  }

  /**
    A receiver whose stream starts with the frames a sender wrote gets exactly those frames, in order, and is
    left with the rest of the stream.
  */
  method ReceiveInOrder<M(!new)>(channel: JsonLineWorkerChannel<M>, ghost frames: seq<M>, count: nat,
      ghost tail: seq<byte>)
    returns (received: seq<M>)
    requires channel.Valid() && !channel.poisoned && channel.reader as object != channel.writer as object
    requires count == |frames| && Encodable(channel.codec, frames)
    requires channel.reader.Rest() == Sent(channel.codec, frames) + tail
    modifies channel`poisoned, channel.reader
    ensures channel.Valid() && !channel.poisoned
    ensures received == frames && channel.reader.Rest() == tail
  {
    received := [];
    while |received| < count
      invariant |received| <= count && received == frames[..|received|]
      invariant channel.Valid() && !channel.poisoned
      invariant channel.reader.Rest() == Sent(channel.codec, frames[|received|..]) + tail
    {
      ghost var left := frames[|received|..];
      assert left[1..] == frames[|received| + 1..];
      var m := ReceiveNext(channel, left, tail);
      received := received + [m];
    }
    assert frames[|received|..] == [];
  }
}
