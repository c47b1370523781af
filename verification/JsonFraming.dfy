/** Record-separated frames (jsonhubprotocol.go, readJSONFrames, parseJSONFrames and WriteMessage). */
module JsonFraming {
  import opened ByteStreams
  import opened Splitting

  /** The ASCII record separator that ends every JSON message. */
  const RS: Byte := 0x1e

  /** The chunk size of readJSONFrames. */
  const ReadSize: nat := 0x8000

  /* The reference is the split of the whole stream: Frames and Tail of module Splitting. */

  /** What WriteMessage puts on the wire for each body. */
  function Written(bodies: seq<Bytes>): Bytes { Join(bodies, RS) }

  /** So whatever bodies are written come back. */
  lemma WrittenFramesComeBack(bodies: seq<Bytes>)
    requires forall b <- bodies :: RS !in b
    ensures Frames(Written(bodies), RS) == bodies && Tail(Written(bodies), RS) == []
  {
    SplitIsUnique(bodies, [], RS);
    assert Join(bodies, RS) + [] == Join(bodies, RS);
  }

  /* ---- readJSONFrames ---- */

  datatype End = Returned | ReaderError | TooLarge

  /** `got` is the history of a call: the bytes left over before it and those it read. */
  datatype Call = Call(end: End, frames: seq<Bytes>, remain: Bytes, rest: Input, got: Bytes)

  /** The loop of readJSONFrames with `buf` gathered so far; `max` 0 means no limit. */
  function Gather(buf: Bytes, input: Input, max: nat): (c: Call)
    ensures |buf| <= |c.got|
    decreases |input.script|
  {
    var Chunk(bytes, err, rest) := ReadChunk(input, ReadSize);
    var all := buf + bytes;
    if err == Failure then Call(ReaderError, [], [], rest, all)
    else if bytes == [] then Gather(buf, rest, max)
    else if 0 < max < |all| then Call(TooLarge, [], [], rest, all)
    else if Frames(all, RS) == [] then Gather(all, rest, max)
    else Call(Returned, Frames(all, RS), Tail(all, RS), rest, all)
  }

  /** A call that returns has at least one frame; frames and remainder are the split of the bytes
      it was given, which are in order and within the limit. */
  lemma {:induction false} GatherSplits(buf: Bytes, input: Input, max: nat)
    ensures var c := Gather(buf, input, max);
            && c.got + c.rest.data == buf + input.data
            && (c.end == Returned ==> c.frames == Frames(c.got, RS) != [] && c.remain == Tail(c.got, RS))
            && (c.end == Returned && max > 0 ==> |c.got| <= max)
            && (c.end == TooLarge ==> 0 < max < |c.got|)
    decreases |input.script|
  {
    var Chunk(bytes, err, rest) := ReadChunk(input, ReadSize);
    var all := buf + bytes;
    assert all + rest.data == buf + (bytes + rest.data);
    if err != Failure {
      if bytes == [] {
        assert rest.data == input.data;
        GatherSplits(buf, rest, max);
      } else if !(0 < max < |all|) && Frames(all, RS) == [] {
        GatherSplits(all, rest, max);
      }
    }
  }

  /** Every call that returns conserves its bytes, hands out frames without separators, leaves a
      remainder without one, and with a limit keeps each of them within it. */
  lemma CallConserves(remain: Bytes, input: Input, max: nat)
    ensures var c := Gather(remain, input, max);
            c.end == Returned ==>
            && Join(c.frames, RS) + c.remain + c.rest.data == remain + input.data
            && RS !in c.remain && (forall f <- c.frames :: RS !in f)
            && (max > 0 ==> |c.remain| <= max && forall f <- c.frames :: |f| < max)
  {
    var c := Gather(remain, input, max);
    GatherSplits(remain, input, max);
    SplitConserves(c.got, RS);
    if c.end == Returned { PartsAreShorter(c.frames, c.remain, RS); }
  }

  /** The bytes a reader delivers before it fails. */
  function Delivered(input: Input): Bytes
    decreases |input.script|
  {
    var Chunk(bytes, err, rest) := ReadChunk(input, ReadSize);
    if err == Failure then [] else bytes + Delivered(rest)
  }

  /** A call that is not refused returns if and only if a separator comes before the reader fails;
      otherwise it hands on the reader's error. */
  lemma {:induction false} ReturnsIffSeparated(buf: Bytes, input: Input, max: nat)
    requires RS !in buf
    ensures var c := Gather(buf, input, max);
            c.end != TooLarge ==> c.end == if RS in Delivered(input) then Returned else ReaderError
    decreases |input.script|
  {
    var Chunk(bytes, err, rest) := ReadChunk(input, ReadSize);
    var all := buf + bytes;
    if err != Failure {
      SeparatedIff(all);
      if bytes == [] {
        ReturnsIffSeparated(buf, rest, max);
      } else if !(0 < max < |all|) && RS !in all {
        ReturnsIffSeparated(all, rest, max);
      }
    }
  }

  lemma SeparatedIff(s: Bytes)
    ensures Frames(s, RS) != [] <==> RS in s
  {
    if RS !in s { SplitClean(s, RS); } else { SplitConserves(s, RS); NotSplitIsClean(s); }
  }

  lemma NotSplitIsClean(s: Bytes)
    requires s == Join(Frames(s, RS), RS) + Tail(s, RS) && RS !in Tail(s, RS)
    ensures Frames(s, RS) == [] ==> RS !in s
  {
    assert Join([], RS) + Tail(s, RS) == Tail(s, RS);
  }

  /* ---- calls in a row ---- */

  /** `n` calls on one reader, each with the remainder of the one before, until one fails. */
  datatype Session = Session(frames: seq<Bytes>, remain: Bytes, rest: Input, end: End, consumed: Bytes)

  function Calls(input: Input, max: nat, n: nat): Session {
    if n == 0 then Session([], [], input, Returned, [])
    else
      var s := Calls(input, max, n - 1);
      if s.end != Returned then s else OneCall(s, max)
  }

  function OneCall(s: Session, max: nat): Session {
    var c := Gather(s.remain, s.rest, max);
    if c.end != Returned then s.(end := c.end, rest := c.rest)
    else Session(s.frames + c.frames, c.remain, c.rest, Returned, s.consumed + c.got[|s.remain|..])
  }

  /** What was handed out and what remains are the split of the bytes consumed so far. */
  ghost predicate SplitSoFar(s: Session, input: Input, max: nat) {
    && s.consumed <= input.data
    && s.frames == Frames(s.consumed, RS) && s.remain == Tail(s.consumed, RS)
    && (s.end == Returned ==> s.consumed + s.rest.data == input.data)
    && (max == 0 ==> s.end != TooLarge)
  }

  lemma CallSplits(s: Session, input: Input, max: nat)
    requires SplitSoFar(s, input, max) && s.end == Returned
    ensures SplitSoFar(OneCall(s, max), input, max)
  {
    var c := Gather(s.remain, s.rest, max);
    GatherSplits(s.remain, s.rest, max);
    if c.end == Returned { SplitMore(s.consumed, c.got, c.rest.data, s.rest.data); }
  }

  /** Whatever the reads and calls are, the frames handed out so far are the split of the bytes
      consumed so far, and the remainder is its tail: they depend on the bytes, not on the pieces. */
  lemma ChunkingDoesNotMatter(input: Input, max: nat, n: nat)
    ensures var s := Calls(input, max, n);
            && s.consumed <= input.data
            && s.frames == Frames(s.consumed, RS) && s.remain == Tail(s.consumed, RS)
            && (s.end == Returned ==> s.consumed + s.rest.data == input.data)
            && (max == 0 ==> s.end != TooLarge)
  {
    CallsSplit(input, max, n);
  }

  lemma {:induction false} CallsSplit(input: Input, max: nat, n: nat)
    ensures SplitSoFar(Calls(input, max, n), input, max)
  {
    if n > 0 {
      CallsSplit(input, max, n - 1);
      var s := Calls(input, max, n - 1);
      if s.end == Returned { CallSplits(s, input, max); }
    }
  }

  lemma SplitMore(consumed: Bytes, got: Bytes, rest: Bytes, data: Bytes)
    requires got + rest == Tail(consumed, RS) + data && |Tail(consumed, RS)| <= |got|
    ensures var more := consumed + got[|Tail(consumed, RS)|..];
            && Frames(more, RS) == Frames(consumed, RS) + Frames(got, RS) && Tail(more, RS) == Tail(got, RS)
            && more + rest == consumed + data
  {
    var t := Tail(consumed, RS);
    CutStart(t, got, rest, data, consumed);
    SplitAppend(consumed, got[|t|..], RS);
  }

  lemma CutStart(t: Bytes, got: Bytes, rest: Bytes, data: Bytes, before: Bytes)
    requires got + rest == t + data && |t| <= |got|
    ensures got == t + got[|t|..] && before + got[|t|..] + rest == before + data
  {
    assert (got + rest)[..|t|] == got[..|t|] && (t + data)[..|t|] == t;
    assert (got + rest)[|t|..] == got[|t|..] + rest && (t + data)[|t|..] == data;
    assert before + got[|t|..] + rest == before + (got[|t|..] + rest);
  }

  /** Where the first separator is, or the length when there is none. */
  function FirstSep(data: Bytes): (p: nat)
    ensures p <= |data| && RS !in data[..p]
  {
    if data == [] || data[0] == RS then 0
    else
      var p := 1 + FirstSep(data[1..]);
      assert data[..p] == [data[0]] + data[1..][..p - 1];
      p
  }

  /** How much a call can have gathered at most: everything before the first separator, and one
      more read. */
  function Reach(data: Bytes): nat { Min(|data|, FirstSep(data) + ReadSize) }

  /** Taking bytes before the first separator moves it closer. */
  lemma {:induction false} FirstSepMoves(data: Bytes, j: nat)
    requires j <= FirstSep(data)
    ensures FirstSep(data[j..]) == FirstSep(data) - j
    decreases j
  {
    if j == 0 {
      assert data[0..] == data;
    } else {
      FirstSepMoves(data[1..], j - 1);
      assert data[1..][j - 1..] == data[j..];
    }
  }

  lemma {:induction false} NoSepBefore(data: Bytes, j: nat)
    requires j <= |data| && RS !in data[..j]
    ensures j <= FirstSep(data)
    decreases j
  {
    if j > 0 {
      assert data[0] == data[..j][0];
      assert data[..j] == [data[0]] + data[1..][..j - 1];
      NoSepBefore(data[1..], j - 1);
    }
  }

  lemma {:induction false} GatherReach(buf: Bytes, input: Input, max: nat)
    requires RS !in buf
    ensures Gather(buf, input, max).end == TooLarge ==> input.data != []
    ensures Gather(buf, input, max).end == TooLarge ==> max < |buf| + Reach(input.data)
    decreases |input.script|
  {
    var Chunk(bytes, err, rest) := ReadChunk(input, ReadSize);
    var all := buf + bytes;
    if err != Failure {
      if bytes == [] {
        assert rest.data == input.data;
        GatherReach(buf, rest, max);
      } else if !(0 < max < |all|) && Frames(all, RS) == [] {
        ReachMoves(buf, bytes, rest.data);
        assert bytes + rest.data == input.data;
        GatherReach(all, rest, max);
      }
    }
  }

  /** Bytes without a separator bring what is reached no closer and no further. */
  lemma ReachMoves(buf: Bytes, bytes: Bytes, rest: Bytes)
    requires Frames(buf + bytes, RS) == []
    ensures RS !in buf + bytes && |buf + bytes| + Reach(rest) == |buf| + Reach(bytes + rest)
  {
    var all, data := buf + bytes, bytes + rest;
    SplitConserves(all, RS);
    NoFramesNoCut(all, RS);
    assert data[..|bytes|] == bytes && forall x <- bytes :: x in all;
    NoSepBefore(data, |bytes|);
    FirstSepMoves(data, |bytes|);
    assert rest == data[|bytes|..];
  }

  /** Reads that get a call refused: up to the first separator, and then as much as possible. */
  lemma GreedyReads(buf: Bytes, data: Bytes, max: nat) returns (script: seq<Grant>)
    requires RS !in buf && data != [] && 0 < max < |buf| + Reach(data)
    ensures Gather(buf, Input(data, script), max).end == TooLarge
    decreases |data|
  {
    if max < |buf| + Min(|data|, ReadSize) {
      script := [Data(ReadSize)];
    } else {
      var j := Min(FirstSep(data), ReadSize);
      var chunk := data[..j];
      assert RS !in buf + chunk by { assert forall x <- chunk :: x in data[..FirstSep(data)]; }
      FirstSepMoves(data, j);
      var more := GreedyReads(buf + chunk, data[j..], max);
      script := [Data(j)] + more;
      SplitClean(buf + chunk, RS);
      assert script[1..] == more;
      assert ReadChunk(Input(data, script), ReadSize) == Chunk(chunk, NoError, Input(data[j..], more));
    }
  }

  /** No division of the data into reads gets a call refused if and only if there is nothing to read
      or the leftover, the bytes before the first separator and one more read stay within the limit. */
  lemma LimitSafeIff(remain: Bytes, data: Bytes, max: nat)
    requires RS !in remain && max > 0
    ensures (forall script: seq<Grant> :: Gather(remain, Input(data, script), max).end != TooLarge)
            <==> data == [] || |remain| + Reach(data) <= max
  {
    if data == [] || |remain| + Reach(data) <= max {
      forall script: seq<Grant> ensures Gather(remain, Input(data, script), max).end != TooLarge {
        GatherReach(remain, Input(data, script), max);
      }
    } else {
      var script := GreedyReads(remain, data, max);
    }
  }

  /** With a limit the pieces do matter: five bytes that fit when read in two pieces of two frames
      are refused when read at once. */
  lemma LimitDependsOnChunking()
    ensures var data := [1, 2, RS, 4, RS];
            && Gather([], Input(data, [Data(5)]), 3).end == TooLarge
            && Gather([], Input(data, [Data(3)]), 3).end == Returned
  {
    var data: Bytes := [1, 2, RS, 4, RS];
    assert ReadChunk(Input(data, [Data(3)]), ReadSize).bytes == [1, 2, RS];
    assert [] + [1, 2, RS] == [1, 2, RS];
    assert [1, 2, RS][..2] == [1, 2];
  }

  /** Buffer.ReadBytes(0x1e): up to the first separator, or everything when there is none. */
  method ReadBytes(buf: Bytes) returns (line: Bytes, found: bool, rest: Bytes)
    ensures RS !in line && found == (RS in buf)
    ensures buf == if found then line + [RS] + rest else line
  {
    var i := 0;
    while i < |buf| && buf[i] != RS
      invariant 0 <= i <= |buf| && RS !in buf[..i]
    {
      i := i + 1;
    }
    line, found := buf[..i], i < |buf|;
    rest := if found then buf[i + 1..] else [];
    if found { assert buf[i] in buf; }
  }

  method ParseJSONFrames(buf: Bytes) returns (frames: seq<Bytes>, rest: Bytes)
    ensures frames == Frames(buf, RS) && rest == Tail(buf, RS)
  {
    frames, rest := [], buf;
    while true
      invariant frames + Frames(rest, RS) == Frames(buf, RS) && Tail(rest, RS) == Tail(buf, RS)
      decreases |rest|
    {
      var line, found, more := ReadBytes(rest);
      if !found {
        SplitClean(line, RS);
        return frames, line;
      }
      SplitFirst(line, more, RS);
      frames, rest := frames + [line], more;
    }
  }

  method ReadJSONFrames(reader: ByteReader, remainBuf: ByteBuffer, max: nat) returns (end: End, frames: seq<Bytes>)
    modifies reader, remainBuf
    ensures var c := Gather(old(remainBuf.content), old(reader.State()), max);
            end == c.end && frames == c.frames && remainBuf.content == c.remain && reader.State() == c.rest
  {
    var buf := remainBuf.content;
    remainBuf.content := [];
    while true
      invariant remainBuf.content == []
      invariant Gather(buf, reader.State(), max) == Gather(old(remainBuf.content), old(reader.State()), max)
      decreases |reader.script|
    {
      var p, err := reader.Read(ReadSize);
      if err == Failure {
        return ReaderError, [];
      }
      if |p| > 0 {
        buf := buf + p;
        if max > 0 && |buf| > max {
          return TooLarge, [];
        }
        ghost var all := buf;
        frames, buf := ParseJSONFrames(buf);
        if |frames| == 0 {
          NoFramesNoCut(all, RS);
        } else {
          remainBuf.content := buf;
          return Returned, frames;
        }
      }
    }
  }
}
