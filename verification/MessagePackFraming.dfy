/** Length-prefixed frames (messagepackhubprotocol.go, readFrames and the end of WriteMessage). */
module MessagePackFraming {
  import opened ByteStreams

  /* ---- the varint prefix of encoding/binary ---- */

  /** binary.PutUvarint */
  function PutUvarint(x: nat): (p: Bytes)
    ensures p != []
  {
    if x < 0x80 then [x] else [x % 0x80 + 0x80] + PutUvarint(x / 0x80)
  }

  /** binary.Uvarint after `i` bytes: the value and how many bytes the whole prefix has; 0 means
      that bytes are missing, a negative number that the value does not fit 64 bits. */
  function Uvarint(buf: Bytes, i: nat := 0): (r: (nat, int))
    requires i <= 10
    ensures r.1 > 0 ==> i < r.1 <= i + |buf|
    ensures i + |buf| <= 9 ==> r.1 >= 0
    decreases |buf|
  {
    if buf == [] then (0, 0)
    else if i == 10 then (0, -11)
    else if buf[0] < 0x80 then if i == 9 && buf[0] > 1 then (0, -10) else (buf[0], i + 1)
    else
      var (v, n) := Uvarint(buf[1..], i + 1);
      if n <= 0 then (0, n) else (buf[0] - 0x80 + 0x80 * v, n)
  }

  /** binary.MaxVarintLen32 */
  const MaxVarintLen := 5

  /** The largest length whose prefix fits the buffer. */
  const LengthLimit := 0x8_0000_0000

  /** A decoded prefix is decided by its own bytes, and by no fewer of them. */
  lemma {:induction false} UvarintCut(buf: Bytes, i: nat, k: nat)
    requires i <= 10 && Uvarint(buf, i).1 > 0 && k <= |buf|
    ensures Uvarint(buf[..k], i) == if i + k < Uvarint(buf, i).1 then (0, 0) else Uvarint(buf, i)
    decreases |buf|
  {
    if k > 0 && buf[0] >= 0x80 {
      UvarintCut(buf[1..], i + 1, k - 1);
      assert buf[..k][1..] == buf[1..][..k - 1];
    }
  }

  lemma {:induction false} UvarintInverts(x: nat, rest: Bytes, i: nat)
    requires i + |PutUvarint(x)| <= 9
    ensures Uvarint(PutUvarint(x) + rest, i) == (x, i + |PutUvarint(x)|)
    decreases x
  {
    var p := PutUvarint(x);
    if x >= 0x80 {
      UvarintInverts(x / 0x80, rest, i + 1);
      assert (p + rest)[1..] == PutUvarint(x / 0x80) + rest;
    }
  }

  function Pow128(k: nat): nat { if k == 0 then 1 else 0x80 * Pow128(k - 1) }

  /** A prefix has at most `k` bytes exactly when the length is below 128 to the `k`. */
  lemma {:induction false} PutUvarintLength(x: nat, k: nat)
    requires k > 0
    ensures |PutUvarint(x)| <= k <==> x < Pow128(k)
    decreases x
  {
    if k == 1 {
      assert Pow128(1) == 0x80 * Pow128(0);
    } else if x >= 0x80 {
      PutUvarintLength(x / 0x80, k - 1);
    }
    if k > 1 && x < 0x80 { Pow128Grows(k - 1); }
  }

  lemma {:induction false} Pow128Grows(k: nat)
    ensures Pow128(k) >= 1
  {
    if k > 0 { Pow128Grows(k - 1); }
  }

  lemma FitsLengthBuffer(x: nat)
    ensures |PutUvarint(x)| <= MaxVarintLen <==> x < LengthLimit
  {
    PutUvarintLength(x, MaxVarintLen);
    assert Pow128(5) == 0x80 * (0x80 * (0x80 * (0x80 * (0x80 * Pow128(0)))));
  }

  /* ---- readFrames ---- */

  /** A length prefix as it was read, with the bytes it announces. */
  datatype Part = Part(header: Bytes, body: Bytes) {
    predicate Proper() {
      0 < |header| <= MaxVarintLen && Uvarint(header) == (|body|, |header|)
    }
  }

  function Flatten(parts: seq<Part>): Bytes {
    if parts == [] then []
    else Flatten(parts[..|parts| - 1]) + parts[|parts| - 1].header + parts[|parts| - 1].body
  }

  datatype End = Running | Returned | ReaderError | PrefixTooLong | FrameTooLarge

  /** A call under way.  `parts` is the history of the prefixes and bodies taken; `torn` says that a
      length was decoded from a length buffer that was not full and did not end with a frame, `cut`
      that EOF came inside a body. */
  datatype Call = Call(end: End, frames: seq<Bytes>, remain: Bytes, input: Input,
                       parts: seq<Part>, torn: bool, cut: bool)

  /** The bytes are whole frames, prefixes included. */
  predicate WholeFrames(b: Bytes)
    decreases |b|
  {
    b == [] || var (v, n) := Uvarint(b); n > 0 && n + v <= |b| && WholeFrames(b[n + v..])
  }

  datatype BodyEnd = Complete(buf: Bytes, rest: Input) | Cut(buf: Bytes, dropped: Bytes, rest: Input) | Broke(rest: Input)

  /** The inner loop: read until the frame is complete; at least one read is made. */
  function ReadBody(buf: Bytes, frameLen: nat, input: Input): (r: BodyEnd)
    ensures |r.rest.script| <= |input.script|
    ensures r.Complete? ==> |r.buf| >= frameLen
    decreases |input.script|
  {
    var Chunk(bytes, err, rest) := ReadChunk(input, frameLen);
    if err == EndOfFile then Cut(buf, bytes, rest)
    else if err == Failure then Broke(rest)
    else if |buf + bytes| >= frameLen then Complete(buf + bytes, rest)
    else ReadBody(buf + bytes, frameLen, rest)
  }

  function Zeros(n: nat): Bytes { seq(n, i => 0) }

  /** What the header read of a turn puts into the length buffer. */
  function LenBuf(c: Call): (b: Bytes)
    ensures |b| <= MaxVarintLen
  {
    c.remain[..Min(MaxVarintLen, |c.remain|)] + HeaderRead(c).bytes
  }

  function HeaderRead(c: Call): Chunk { ReadChunk(c.input, MaxVarintLen - Min(MaxVarintLen, |c.remain|)) }

  /** One turn of the outer loop; `max` is maximumReceiveMessageSize, 0 meaning no limit. */
  function Turn(c: Call, max: nat): (c': Call)
    ensures c'.end == Running ==> |c'.input.script| < |c.input.script|
  {
    var rest := c.remain[Min(MaxVarintLen, |c.remain|)..];
    var Chunk(_, err, input) := HeaderRead(c);
    var lenLen := Uvarint(LenBuf(c)).1;
    if err == Failure then c.(end := ReaderError, input := input)
    else if lenLen == 0 then
      c.(end := Returned, remain := rest + LenBuf(c), input := input)
    else if lenLen < 0 then c.(end := PrefixTooLong, input := input)
    else Take(c.(torn := c.torn || Tears(LenBuf(c))), LenBuf(c), rest, input, max)
  }

  /** The length buffer is not full, and what comes next is not put behind a whole frame. */
  predicate Tears(lenBuf: Bytes) { |lenBuf| < MaxVarintLen && !WholeFrames(lenBuf) }

  /** The rest of a turn once a length was decoded. */
  function Take(c: Call, lenBuf: Bytes, rest: Bytes, input: Input, max: nat): (c': Call)
    requires |lenBuf| <= MaxVarintLen && Uvarint(lenBuf).1 > 0
    ensures |c'.input.script| <= |input.script|
    ensures c'.torn == c.torn
  {
    var (frameLen, lenLen) := Uvarint(lenBuf);
    var over := lenBuf[lenLen..] + Zeros(MaxVarintLen - |lenBuf|);
    if frameLen == 0 then
      c.(remain := rest + over, input := input, parts := c.parts + [Part(lenBuf[..lenLen], [])])
    else if 0 < max < frameLen then c.(end := FrameTooLarge, input := input)
    else Finish(c, lenBuf[..lenLen], frameLen, ReadBody(over + rest, frameLen, input))
  }

  /** What follows the inner loop. */
  function Finish(c: Call, header: Bytes, frameLen: nat, b: BodyEnd): Call
    requires b.Complete? ==> |b.buf| >= frameLen
    ensures Finish(c, header, frameLen, b).input == b.rest
    ensures Finish(c, header, frameLen, b).torn == c.torn
  {
    match b
    case Broke(input) => c.(end := ReaderError, input := input)
    case Cut(buf, _, input) => c.(end := Returned, remain := buf, input := input, cut := true)
    case Complete(buf, input) =>
      c.(end := if |buf| == frameLen then Returned else Running,
         frames := c.frames + [buf[..frameLen]], remain := buf[frameLen..], input := input,
         parts := c.parts + [Part(header, buf[..frameLen])])
  }

  function Go(c: Call, max: nat): Call
    decreases |c.input.script|, if c.end == Running then 1 else 0
  {
    if c.end == Running then
      var c' := Turn(c, max);
      if c'.end == Running then Go(c', max) else c'
    else c
  }

  function NewCall(remain: Bytes, input: Input): Call { Call(Running, [], remain, input, [], false, false) }

  /** readFrames on what the last call left over and what the reader has. */
  function ReadFrames(remain: Bytes, input: Input, max: nat): Call { Go(NewCall(remain, input), max) }

  /* ---- what a call does with its bytes ---- */

  function Joined(c: Call): Bytes { Flatten(c.parts) + c.remain + c.input.data }

  function Bodies(parts: seq<Part>): seq<Bytes> {
    if parts == [] then []
    else Bodies(parts[..|parts| - 1]) + if parts[|parts| - 1].body == [] then [] else [parts[|parts| - 1].body]
  }

  lemma PartsAppend(parts: seq<Part>, p: Part)
    ensures Flatten(parts + [p]) == Flatten(parts) + p.header + p.body
    ensures Bodies(parts + [p]) == Bodies(parts) + if p.body == [] then [] else [p.body]
  {
    assert (parts + [p])[..|parts|] == parts;
  }

  lemma Assoc(a: Bytes, b: Bytes, c: Bytes)
    ensures a + b + c == a + (b + c)
  {
  }

  lemma {:induction false} ReadBodyConserves(buf: Bytes, frameLen: nat, input: Input)
    ensures var r := ReadBody(buf, frameLen, input);
            match r
            case Complete(buf', rest) => buf' + rest.data == buf + input.data
            case Cut(buf', dropped, rest) => buf' + dropped + rest.data == buf + input.data
            case Broke(_) => true
    decreases |input.script|
  {
    var Chunk(bytes, err, rest) := ReadChunk(input, frameLen);
    Assoc(buf, bytes, rest.data);
    if err == NoError && |buf + bytes| < frameLen { ReadBodyConserves(buf + bytes, frameLen, rest); }
  }

  /** The bytes of the reads before the first one with an error. */
  function Granted(input: Input, limit: nat): Bytes
    decreases |input.script|
  {
    var Chunk(bytes, err, rest) := ReadChunk(input, limit);
    if err != NoError then [] else bytes + Granted(rest, limit)
  }

  /** A body cut by EOF is put back with the bytes of the reads before it, and with none of those that
      came with the EOF. */
  lemma {:induction false} CutKeepsEarlierReads(buf: Bytes, frameLen: nat, input: Input)
    ensures var r := ReadBody(buf, frameLen, input); r.Cut? ==> r.buf == buf + Granted(input, frameLen)
    decreases |input.script|
  {
    var Chunk(bytes, err, rest) := ReadChunk(input, frameLen);
    if err == NoError && |buf + bytes| < frameLen {
      CutKeepsEarlierReads(buf + bytes, frameLen, rest);
      Assoc(buf, bytes, Granted(rest, frameLen));
    } else if err == EndOfFile {
      assert buf + [] == buf;
    }
  }

  lemma LenBufConserves(c: Call)
    ensures c.remain + c.input.data
            == LenBuf(c) + c.remain[Min(MaxVarintLen, |c.remain|)..] + HeaderRead(c).rest.data
    ensures |LenBuf(c)| < MaxVarintLen ==> c.remain[Min(MaxVarintLen, |c.remain|)..] == []
  {
    if |c.remain| < MaxVarintLen {
      assert c.remain[..|c.remain|] == c.remain && c.remain[|c.remain|..] == [];
      assert c.remain + c.input.data == c.remain + HeaderRead(c).bytes + [] + HeaderRead(c).rest.data;
    } else {
      assert HeaderRead(c).bytes == [] && HeaderRead(c).rest.data == c.input.data;
      assert c.remain == c.remain[..MaxVarintLen] + c.remain[MaxVarintLen..];
    }
  }

  lemma Regroup(f: Bytes, h: Bytes, b: Bytes, r: Bytes, d: Bytes)
    ensures f + h + b + r + d == f + (h + (b + r) + d)
  {
  }

  lemma FinishConserves(c: Call, header: Bytes, frameLen: nat, b: BodyEnd)
    requires b.Complete? && |b.buf| >= frameLen
    ensures Joined(Finish(c, header, frameLen, b)) == Flatten(c.parts) + (header + b.buf + b.rest.data)
  {
    var body, left := b.buf[..frameLen], b.buf[frameLen..];
    PartsAppend(c.parts, Part(header, body));
    Regroup(Flatten(c.parts), header, body, left, b.rest.data);
    assert b.buf == body + left;
  }

  lemma TakeIsFinish(c: Call, lenBuf: Bytes, rest: Bytes, input: Input, max: nat, v: nat, n: nat)
    requires |lenBuf| <= MaxVarintLen && Uvarint(lenBuf) == (v, n) && v > 0 && n > 0 && !(0 < max < v)
    ensures Take(c, lenBuf, rest, input, max)
            == Finish(c, lenBuf[..n], v, ReadBody(lenBuf[n..] + Zeros(MaxVarintLen - |lenBuf|) + rest, v, input))
  {
  }

  lemma TurnHasRead(c: Call, max: nat)
    requires Turn(c, max).end != ReaderError
    ensures HeaderRead(c).err != Failure
  {
  }

  lemma TurnIsTake(c: Call, max: nat) returns (c1: Call)
    requires c.end == Running && HeaderRead(c).err != Failure && Uvarint(LenBuf(c)).1 > 0
    ensures c1 == c.(torn := c1.torn) && Joined(c1) == Joined(c)
    ensures Turn(c, max) == Take(c1, LenBuf(c), c.remain[Min(MaxVarintLen, |c.remain|)..], HeaderRead(c).rest, max)
  {
    c1 := c.(torn := c.torn || Tears(LenBuf(c)));
  }

  /** Taken prefixes decode to the lengths of their bodies, and the frames are the non-empty bodies. */
  ghost predicate PartsOk(c: Call) {
    (forall p <- c.parts :: p.Proper()) && c.frames == Bodies(c.parts)
  }

  lemma PartKeepsOk(c: Call, p: Part, c': Call)
    requires PartsOk(c) && p.Proper()
    requires c'.parts == c.parts + [p] && c'.frames == c.frames + if p.body == [] then [] else [p.body]
    ensures PartsOk(c')
  {
    PartsAppend(c.parts, p);
  }

  lemma TakeKeepsParts(c: Call, lenBuf: Bytes, rest: Bytes, input: Input, max: nat)
    requires |lenBuf| <= MaxVarintLen && Uvarint(lenBuf).1 > 0 && PartsOk(c)
    ensures PartsOk(Take(c, lenBuf, rest, input, max))
  {
    var (frameLen, lenLen) := Uvarint(lenBuf);
    var header, over := lenBuf[..lenLen], lenBuf[lenLen..] + Zeros(MaxVarintLen - |lenBuf|);
    assert Uvarint(header) == (frameLen, |header|) by { UvarintCut(lenBuf, 0, lenLen); }
    var c' := Take(c, lenBuf, rest, input, max);
    if frameLen == 0 {
      PartKeepsOk(c, Part(header, []), c');
    } else {
      var b := ReadBody(over + rest, frameLen, input);
      if b.Complete? && !(0 < max < frameLen) { PartKeepsOk(c, Part(header, b.buf[..frameLen]), c'); }
    }
  }

  lemma TurnKeepsParts(c: Call, max: nat)
    requires PartsOk(c)
    ensures PartsOk(Turn(c, max))
  {
    if Uvarint(LenBuf(c)).1 > 0 {
      TakeKeepsParts(c.(torn := c.torn || Tears(LenBuf(c))), LenBuf(c), c.remain[Min(MaxVarintLen, |c.remain|)..], HeaderRead(c).rest, max);
    }
  }

  lemma {:induction false} GoKeepsParts(c: Call, max: nat)
    requires PartsOk(c)
    ensures PartsOk(Go(c, max))
    decreases |c.input.script|
  {
    if c.end == Running {
      TurnKeepsParts(c, max);
      if Turn(c, max).end == Running { GoKeepsParts(Turn(c, max), max); }
    }
  }

  /** Whatever the bytes and the reads, the frames of a call are the non-empty bodies behind prefixes
      that decode to their lengths. */
  lemma FramesHaveTheirLengths(remain: Bytes, input: Input, max: nat)
    ensures var c := ReadFrames(remain, input, max);
            (forall p <- c.parts :: p.Proper()) && c.frames == Bodies(c.parts)
  {
    GoKeepsParts(NewCall(remain, input), max);
  }

  /** The check for an overlong prefix never strikes: five bytes cannot overflow. */
  lemma {:induction false} OverlongIsNeverRejected(c: Call, max: nat)
    requires c.end != PrefixTooLong
    ensures Go(c, max).end != PrefixTooLong
    decreases |c.input.script|
  {
    if c.end == Running {
      TurnIsNotTooLong(c, max);
      if Turn(c, max).end == Running { OverlongIsNeverRejected(Turn(c, max), max); }
    }
  }

  lemma TurnIsNotTooLong(c: Call, max: nat)
    requires c.end == Running
    ensures Turn(c, max).end != PrefixTooLong
  {
  }

  /* ---- the writer ---- */

  /** What WriteMessage puts on the wire for each encoded message, one after the other. */
  function Encode(bodies: seq<Bytes>): Bytes {
    if bodies == [] then [] else PutUvarint(|bodies[0]|) + bodies[0] + Encode(bodies[1..])
  }

  class MessagePackHubProtocol {
    const maximumReceiveMessageSize: nat

    constructor (maximumReceiveMessageSize: nat)
      ensures this.maximumReceiveMessageSize == maximumReceiveMessageSize
    {
      this.maximumReceiveMessageSize := maximumReceiveMessageSize;
    }

    method ReadFrames(reader: ByteReader, remainBuf: ByteBuffer) returns (end: End, frames: seq<Bytes>)
      modifies reader, remainBuf
      ensures var c := Go(NewCall(old(remainBuf.content), old(reader.State())), maximumReceiveMessageSize);
              && end == c.end && reader.State() == c.input
              && (end == Returned ==> frames == c.frames && remainBuf.content == c.remain)
    {
      end, frames := Running, [];
      ghost var c := NewCall(remainBuf.content, reader.State());
      ghost var whole := Go(c, maximumReceiveMessageSize);
      while end == Running
        invariant end == c.end && reader.State() == c.input && Go(c, maximumReceiveMessageSize) == whole
        invariant end in {Running, Returned} ==> c.frames == frames && c.remain == remainBuf.content
        decreases |reader.script|, if end == Running then 1 else 0
      {
        end, frames := ReadFrame(reader, remainBuf, frames, c);
        c := Turn(c, maximumReceiveMessageSize);
      }
    }

    /** One turn of the loop of readFrames. */
    method ReadFrame(reader: ByteReader, remainBuf: ByteBuffer, frames: seq<Bytes>, ghost c: Call)
      returns (end: End, frames': seq<Bytes>)
      requires c.end == Running && c.frames == frames && c.remain == remainBuf.content && c.input == reader.State()
      modifies reader, remainBuf
      ensures var c' := Turn(c, maximumReceiveMessageSize);
              && end == c'.end && reader.State() == c'.input
              && (end in {Running, Returned} ==> frames' == c'.frames && remainBuf.content == c'.remain)
    {
      frames' := frames;
      var n1 := Min(MaxVarintLen, |remainBuf.content|);
      var frameLenBuf := remainBuf.content[..n1];
      remainBuf.content := remainBuf.content[n1..];
      var more, err := reader.Read(MaxVarintLen - n1);
      if err == Failure {
        return ReaderError, frames;
      }
      frameLenBuf := frameLenBuf + more;
      assert frameLenBuf == LenBuf(c) && reader.State() == HeaderRead(c).rest;
      var lenLen := Uvarint(frameLenBuf).1;
      if lenLen == 0 {
        remainBuf.content := remainBuf.content + frameLenBuf;
        return Returned, frames;
      }
      end, frames' := TakeFrame(reader, remainBuf, frames, frameLenBuf, c.(torn := c.torn || Tears(LenBuf(c))));
    }

    /** The part of a turn after the length is known. */
    method TakeFrame(reader: ByteReader, remainBuf: ByteBuffer, frames: seq<Bytes>, frameLenBuf: Bytes, ghost c: Call)
      returns (end: End, frames': seq<Bytes>)
      requires |frameLenBuf| <= MaxVarintLen && Uvarint(frameLenBuf).1 > 0 && c.end == Running && c.frames == frames
      modifies reader, remainBuf
      ensures var c' := Take(c, frameLenBuf, old(remainBuf.content), old(reader.State()), maximumReceiveMessageSize);
              && end == c'.end && reader.State() == c'.input
              && (end in {Running, Returned} ==> frames' == c'.frames && remainBuf.content == c'.remain)
    {
      frames' := frames;
      var (frameLen, lenLen) := Uvarint(frameLenBuf);
      var overRead := frameLenBuf[lenLen..] + Zeros(MaxVarintLen - |frameLenBuf|);
      if frameLen == 0 {
        remainBuf.content := remainBuf.content + overRead;
        return Running, frames;
      }
      if maximumReceiveMessageSize > 0 && frameLen > maximumReceiveMessageSize {
        return FrameTooLarge, frames;
      }
      var body := ReadWhole(reader, overRead + remainBuf.content, frameLen);
      match body
      case Broke(_) => return ReaderError, frames;
      case Cut(buf, _, _) =>
        remainBuf.content := buf;
        return Returned, frames;
      case Complete(buf, _) =>
        remainBuf.content := buf[frameLen..];
        return if |buf| == frameLen then Returned else Running, frames + [buf[..frameLen]];
    }

    /** The inner loop of readFrames. */
    method ReadWhole(reader: ByteReader, start: Bytes, frameLen: nat) returns (e: BodyEnd)
      modifies reader
      ensures e == ReadBody(start, frameLen, old(reader.State())) && e.rest == reader.State()
    {
      var frameBuf := start;
      while true
        invariant ReadBody(frameBuf, frameLen, reader.State()) == ReadBody(start, frameLen, old(reader.State()))
        decreases |reader.script|
      {
        var bytes, err := reader.Read(frameLen);
        if err == EndOfFile { return Cut(frameBuf, bytes, reader.State()); }
        if err == Failure { return Broke(reader.State()); }
        frameBuf := frameBuf + bytes;
        if |frameBuf| >= frameLen { return Complete(frameBuf, reader.State()); }
      }
    }
  }
}
