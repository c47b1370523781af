/** What one side writes the other reads, however the bytes are cut into reads
    (messagepackhubprotocol.go, readFrames and the end of WriteMessage). */
module FramingRoundTrip {
  import opened ByteStreams
  import opened MessagePackFraming

  /** Bodies as WriteMessage sends them. */
  predicate Sendable(bodies: seq<Bytes>, max: nat) { Carried(bodies, max) && [] !in bodies }

  /* A length that is decoded from a length buffer with room left puts the room's zero bytes into the
     stream, and readFrames skips them as zero-length frames.  So the stream is described by bodies
     some of which are empty. */

  predicate Carried(bodies: seq<Bytes>, max: nat) {
    forall b <- bodies :: |b| < LengthLimit && (max > 0 ==> |b| <= max)
  }

  function NonEmpty(bodies: seq<Bytes>): seq<Bytes> {
    if bodies == [] then []
    else (if bodies[0] == [] then [] else [bodies[0]]) + NonEmpty(bodies[1..])
  }

  /** How far the last empty body is into the stream; 0 if there is none. */
  function Gap(bodies: seq<Bytes>): nat {
    if bodies == [] then 0
    else if Gap(bodies[1..]) > 0 then |PutUvarint(|bodies[0]|) + bodies[0]| + Gap(bodies[1..])
    else if bodies[0] == [] then 1
    else 0
  }

  /** What is buffered and to come encodes `bodies`, of which the empty ones are buffered, in at most
      four bytes: so they are never put behind other buffered bytes. */
  ghost predicate Holding(remain: Bytes, data: Bytes, bodies: seq<Bytes>, max: nat) {
    && Carried(bodies, max) && remain + data == Encode(bodies)
    && (Gap(bodies) == 0 || Gap(bodies) <= |remain| < MaxVarintLen)
  }

  /** The same with five bytes in the length buffer. */
  ghost predicate Loaded(lenBuf: Bytes, rest: Bytes, data: Bytes, bodies: seq<Bytes>, max: nat) {
    && Carried(bodies, max) && |lenBuf| == MaxVarintLen && lenBuf + rest + data == Encode(bodies)
    && (Gap(bodies) == 0 || (Gap(bodies) <= MaxVarintLen && rest == []))
  }

  /* ---- prefixes on the stream ---- */

  lemma EncodedPrefix(bodies: seq<Bytes>, k: nat)
    requires bodies != [] && |bodies[0]| < LengthLimit && k <= |Encode(bodies)|
    ensures var p := PutUvarint(|bodies[0]|);
            |p| <= MaxVarintLen && Uvarint(Encode(bodies)[..k]) == if k < |p| then (0, 0) else (|bodies[0]|, |p|)
  {
    var p, rest := PutUvarint(|bodies[0]|), bodies[0] + Encode(bodies[1..]);
    FitsLengthBuffer(|bodies[0]|);
    UvarintInverts(|bodies[0]|, rest, 0);
    Assoc(p, bodies[0], Encode(bodies[1..]));
    UvarintCut(p + rest, 0, k);
  }

  lemma StripPrefix(l: Bytes, r: Bytes, d: Bytes, p: Bytes, b: Bytes, tail: Bytes)
    requires l + r + d == p + b + tail && |p| <= |l|
    ensures l[|p|..] + r + d == b + tail
  {
    assert (l + r + d)[|p|..] == l[|p|..] + r + d;
    assert (p + b + tail)[|p|..] == b + tail;
  }

  lemma SplitAgrees(buf: Bytes, data: Bytes, b: Bytes, tail: Bytes)
    requires buf + data == b + tail && |buf| >= |b|
    ensures buf[..|b|] == b && buf[|b|..] + data == tail
  {
    assert (buf + data)[..|b|] == buf[..|b|] && (b + tail)[..|b|] == b;
    assert (buf + data)[|b|..] == buf[|b|..] + data && (b + tail)[|b|..] == tail;
  }

  lemma WholeHead(b: Bytes, data: Bytes, bodies: seq<Bytes>, max: nat) returns (r: Bytes)
    requires b != [] && WholeFrames(b) && b + data == Encode(bodies) && Carried(bodies, max)
    ensures bodies != [] && b == PutUvarint(|bodies[0]|) + bodies[0] + r
    ensures WholeFrames(r) && r + data == Encode(bodies[1..])
  {
    assert bodies != [];
    var p, head, tail := PutUvarint(|bodies[0]|), bodies[0], Encode(bodies[1..]);
    assert head in bodies;
    assert b == Encode(bodies)[..|b|];
    EncodedPrefix(bodies, |b|);
    r := b[|p| + |head|..];
    HeadOff(b, data, p, head, tail);
  }

  lemma HeadOff(b: Bytes, data: Bytes, p: Bytes, head: Bytes, tail: Bytes)
    requires b + data == p + head + tail && |p| + |head| <= |b|
    ensures b == p + head + b[|p| + |head|..] && b[|p| + |head|..] + data == tail
  {
    var n := |p| + |head|;
    assert b[..n] == (b + data)[..n] == (p + head + tail)[..n] == p + head;
    assert b[n..] + data == (b + data)[n..] == (p + head + tail)[n..] == tail;
  }

  /** Whole frames at the front of the stream are the frames of its first bodies. */
  lemma {:induction false} WholeBodies(b: Bytes, data: Bytes, bodies: seq<Bytes>, max: nat) returns (j: nat)
    requires WholeFrames(b) && b + data == Encode(bodies) && Carried(bodies, max)
    ensures j <= |bodies| && b == Encode(bodies[..j]) && data == Encode(bodies[j..])
    decreases |b|
  {
    if b == [] {
      j := 0;
      assert bodies[0..] == bodies && bodies[..0] == [] && b + data == data;
    } else {
      var r := WholeHead(b, data, bodies, max);
      var i := WholeBodies(r, data, bodies[1..], max);
      j := i + 1;
      assert bodies[j..] == bodies[1..][i..];
      EncodeHead(bodies, i);
    }
  }

  lemma EncodeHead(bodies: seq<Bytes>, i: nat)
    requires bodies != [] && i <= |bodies[1..]|
    ensures Encode(bodies[..i + 1]) == PutUvarint(|bodies[0]|) + bodies[0] + Encode(bodies[1..][..i])
  {
    assert bodies[..i + 1][1..] == bodies[1..][..i];
  }

  /* ---- room in the length buffer is empty bodies ---- */

  function Empties(n: nat): seq<Bytes> { seq(n, i => []) }

  lemma {:induction false} EmptiesInFront(n: nat, bodies: seq<Bytes>)
    ensures Encode(Empties(n) + bodies) == Zeros(n) + Encode(bodies)
    ensures NonEmpty(Empties(n) + bodies) == NonEmpty(bodies)
    ensures Gap(bodies) == 0 ==> Gap(Empties(n) + bodies) == n
  {
    var all := Empties(n) + bodies;
    if n == 0 {
      assert all == bodies && Zeros(0) + Encode(bodies) == Encode(bodies);
    } else {
      EmptiesInFront(n - 1, bodies);
      assert all[1..] == Empties(n - 1) + bodies && all[0] == [];
      OneMoreEmpty(all, Zeros(n - 1), Encode(bodies));
      assert [0] + Zeros(n - 1) == Zeros(n);
    }
  }

  lemma OneMoreEmpty(all: seq<Bytes>, z: Bytes, e: Bytes)
    requires all != [] && all[0] == [] && Encode(all[1..]) == z + e
    ensures Encode(all) == [0] + z + e && NonEmpty(all) == NonEmpty(all[1..])
    ensures Gap(all) == Gap(all[1..]) + 1
  {
    assert PutUvarint(0) + [] == [0];
    assert [0] + (z + e) == [0] + z + e;
    assert [] + NonEmpty(all[1..]) == NonEmpty(all[1..]);
  }

  lemma Shifted(bodies: seq<Bytes>, j: nat, es: seq<Bytes>)
    requires 0 < j <= |bodies|
    ensures var all, tail := bodies[..j] + es + bodies[j..], bodies[1..];
            && bodies[..j][1..] == tail[..j - 1] && bodies[j..] == tail[j - 1..]
            && all[0] == bodies[0] && all[1..] == tail[..j - 1] + es + tail[j - 1..]
  {
  }

  lemma {:induction false} EmptiesAt(j: nat, n: nat, bodies: seq<Bytes>, max: nat)
    requires j <= |bodies| && Carried(bodies, max)
    requires Gap(bodies) <= |Encode(bodies[..j])| && n > 0
    ensures var all := bodies[..j] + Empties(n) + bodies[j..];
            && Encode(all) == Encode(bodies[..j]) + Zeros(n) + Encode(bodies[j..])
            && NonEmpty(all) == NonEmpty(bodies) && Gap(all) == |Encode(bodies[..j])| + n && Carried(all, max)
  {
    var all := bodies[..j] + Empties(n) + bodies[j..];
    if j == 0 {
      assert all == Empties(n) + bodies && bodies[0..] == bodies && bodies[..0] == [];
      EmptiesInFront(n, bodies);
    } else {
      var tail := bodies[1..];
      Shifted(bodies, j, Empties(n));
      EmptiesAt(j - 1, n, tail, max);
      SameHead(all, bodies, Encode(tail[..j - 1]), Zeros(n), Encode(tail[j - 1..]));
      assert Carried(all, max) by { assert forall b <- all :: b == bodies[0] || b in all[1..]; }
    }
  }

  lemma SameHead(all: seq<Bytes>, bodies: seq<Bytes>, x: Bytes, z: Bytes, y: Bytes)
    requires all != [] && bodies != [] && all[0] == bodies[0]
    requires Encode(all[1..]) == x + z + y && NonEmpty(all[1..]) == NonEmpty(bodies[1..])
    ensures Encode(all) == PutUvarint(|bodies[0]|) + bodies[0] + x + z + y && NonEmpty(all) == NonEmpty(bodies)
    ensures Gap(all[1..]) > 0 ==> Gap(all) == |PutUvarint(|bodies[0]|) + bodies[0]| + Gap(all[1..])
  {
    var p, b := PutUvarint(|bodies[0]|), bodies[0];
    assert p + b + (x + z + y) == p + b + x + z + y;
  }

  /** A length buffer with room left acts like one filled up with zero bytes. */
  lemma PaddedTake(c: Call, lenBuf: Bytes, rest: Bytes, input: Input, max: nat)
    requires |lenBuf| <= MaxVarintLen && Uvarint(lenBuf).1 > 0
    ensures var full := lenBuf + Zeros(MaxVarintLen - |lenBuf|);
            Uvarint(full) == Uvarint(lenBuf) && Take(c, full, rest, input, max) == Take(c, lenBuf, rest, input, max)
  {
    var z := Zeros(MaxVarintLen - |lenBuf|);
    var n := Uvarint(lenBuf).1;
    UvarintMore(lenBuf, z, 0);
    assert (lenBuf + z)[..n] == lenBuf[..n];
    assert (lenBuf + z)[n..] + Zeros(0) == lenBuf[n..] + z;
  }

  lemma {:induction false} UvarintMore(buf: Bytes, more: Bytes, i: nat)
    requires i <= 10 && Uvarint(buf, i).1 > 0
    ensures Uvarint(buf + more, i) == Uvarint(buf, i)
    decreases |buf|
  {
    if buf[0] >= 0x80 {
      assert (buf + more)[1..] == buf[1..] + more;
      UvarintMore(buf[1..], more, i + 1);
    }
  }

  /** A turn that decodes a length does it on a full buffer, perhaps after empty bodies were added. */
  lemma TurnLoads(c: Call, max: nat, bodies: seq<Bytes>) returns (all: seq<Bytes>)
    requires Holding(c.remain, c.input.data, bodies, max) && !Tears(LenBuf(c))
    ensures var lenBuf := LenBuf(c);
            && Loaded(lenBuf + Zeros(MaxVarintLen - |lenBuf|), c.remain[Min(MaxVarintLen, |c.remain|)..],
                      HeaderRead(c).rest.data, all, max)
            && NonEmpty(all) == NonEmpty(bodies)
  {
    LenBufConserves(c);
    var lenBuf, rest, data := LenBuf(c), c.remain[Min(MaxVarintLen, |c.remain|)..], HeaderRead(c).rest.data;
    var room := MaxVarintLen - |lenBuf|;
    if room == 0 {
      all := bodies;
      assert lenBuf + Zeros(0) == lenBuf;
    } else {
      assert lenBuf + [] == lenBuf;
      all := RoomLoads(lenBuf, data, room, bodies, max);
    }
  }

  lemma RoomLoads(lenBuf: Bytes, data: Bytes, room: nat, bodies: seq<Bytes>, max: nat) returns (all: seq<Bytes>)
    requires Carried(bodies, max) && lenBuf + data == Encode(bodies) && Gap(bodies) <= |lenBuf|
    requires WholeFrames(lenBuf) && room > 0 && |lenBuf| + room == MaxVarintLen
    ensures Loaded(lenBuf + Zeros(room), [], data, all, max) && NonEmpty(all) == NonEmpty(bodies)
  {
    var j := WholeBodies(lenBuf, data, bodies, max);
    EmptiesAt(j, room, bodies, max);
    all := bodies[..j] + Empties(room) + bodies[j..];
    assert lenBuf + Zeros(room) + [] == lenBuf + Zeros(room);
  }

  /* ---- one turn ---- */

  ghost predicate Follows(c: Call, c': Call, before: seq<Bytes>, after: seq<Bytes>, max: nat) {
    && c'.end in {Running, Returned, ReaderError}
    && (c'.end != ReaderError ==> Holding(c'.remain, c'.input.data, after, max)
                                  && c'.frames + NonEmpty(after) == c.frames + NonEmpty(before))
  }

  lemma SkipFollows(c: Call, lenBuf: Bytes, rest: Bytes, input: Input, max: nat, bodies: seq<Bytes>)
    requires c.end == Running && Loaded(lenBuf, rest, input.data, bodies, max)
    requires bodies != [] && bodies[0] == [] && Uvarint(lenBuf) == (0, 1)
    ensures Follows(c, Take(c, lenBuf, rest, input, max), bodies, bodies[1..], max)
  {
    var tail := bodies[1..];
    assert Gap(bodies) > 0 && Gap(tail) < Gap(bodies);
    assert lenBuf[1..] + Zeros(0) == lenBuf[1..] && [] + lenBuf[1..] == lenBuf[1..];
    StripPrefix(lenBuf, rest, input.data, [0], [], Encode(tail));
    assert lenBuf[1..] + [] + input.data == lenBuf[1..] + input.data && [] + Encode(tail) == Encode(tail);
  }

  lemma FrameFollows(c: Call, lenBuf: Bytes, rest: Bytes, input: Input, max: nat, bodies: seq<Bytes>)
    requires c.end == Running && Loaded(lenBuf, rest, input.data, bodies, max) && bodies != [] && bodies[0] != []
    requires Uvarint(lenBuf) == (|bodies[0]|, |PutUvarint(|bodies[0]|)|) && !Take(c, lenBuf, rest, input, max).cut
    ensures Follows(c, Take(c, lenBuf, rest, input, max), bodies, bodies[1..], max)
  {
    var p, b, tail := PutUvarint(|bodies[0]|), bodies[0], bodies[1..];
    assert b in bodies;
    var over := lenBuf[|p|..];
    assert over + Zeros(0) == over;
    StripPrefix(lenBuf, rest, input.data, p, b, Encode(tail));
    ReadBodyConserves(over + rest, |b|, input);
    var e := ReadBody(over + rest, |b|, input);
    if e.Complete? {
      SplitAgrees(e.buf, e.rest.data, b, Encode(tail));
      NonEmptyHead(c.frames, bodies);
      GapAfterBody(bodies, over, rest, input, e);
    }
  }

  lemma NonEmptyHead(frames: seq<Bytes>, bodies: seq<Bytes>)
    requires bodies != [] && bodies[0] != []
    ensures frames + [bodies[0]] + NonEmpty(bodies[1..]) == frames + NonEmpty(bodies)
  {
  }

  /** If the rest of the stream has empty bodies, the first body came from the length buffer. */
  lemma GapAfterBody(bodies: seq<Bytes>, over: Bytes, rest: Bytes, input: Input, e: BodyEnd)
    requires bodies != [] && bodies[0] != [] && |over| == MaxVarintLen - |PutUvarint(|bodies[0]|)|
    requires Gap(bodies) == 0 || (Gap(bodies) <= MaxVarintLen && rest == [])
    requires e == ReadBody(over + rest, |bodies[0]|, input) && e.Complete?
    ensures Gap(bodies[1..]) == 0 || Gap(bodies[1..]) <= |e.buf| - |bodies[0]| < MaxVarintLen
  {
    if Gap(bodies[1..]) > 0 { assert over + rest == over; }
  }

  lemma TakeFollows(c: Call, lenBuf: Bytes, rest: Bytes, input: Input, max: nat, bodies: seq<Bytes>) returns (after: seq<Bytes>)
    requires c.end == Running && Loaded(lenBuf, rest, input.data, bodies, max)
    requires Uvarint(lenBuf).1 > 0 && !Take(c, lenBuf, rest, input, max).cut
    ensures Follows(c, Take(c, lenBuf, rest, input, max), bodies, after, max)
  {
    assert bodies != [];
    assert bodies[0] in bodies;
    after := bodies[1..];
    assert lenBuf == Encode(bodies)[..MaxVarintLen];
    EncodedPrefix(bodies, MaxVarintLen);
    if bodies[0] == [] { SkipFollows(c, lenBuf, rest, input, max, bodies); }
    else { FrameFollows(c, lenBuf, rest, input, max, bodies); }
  }

  lemma WaitFollows(c: Call, max: nat, bodies: seq<Bytes>)
    requires c.end == Running && Holding(c.remain, c.input.data, bodies, max) && Uvarint(LenBuf(c)).1 == 0
    ensures Follows(c, Turn(c, max), bodies, bodies, max)
  {
    ShortOfPrefix(c, max, bodies);
    WaitTurn(c, max);
  }

  /** A length buffer without a whole prefix is not full. */
  lemma ShortOfPrefix(c: Call, max: nat, bodies: seq<Bytes>)
    requires Holding(c.remain, c.input.data, bodies, max) && Uvarint(LenBuf(c)).1 == 0
    ensures |LenBuf(c)| < MaxVarintLen
  {
    LenBufConserves(c);
    var lenBuf := LenBuf(c);
    assert lenBuf == Encode(bodies)[..|lenBuf|];
    if bodies != [] { assert bodies[0] in bodies; EncodedPrefix(bodies, |lenBuf|); }
  }

  lemma WaitTurn(c: Call, max: nat)
    requires c.end == Running && |LenBuf(c)| < MaxVarintLen && Uvarint(LenBuf(c)).1 == 0
    ensures var c' := Turn(c, max);
            && c'.frames == c.frames && c'.end in {Returned, ReaderError}
            && (c'.end == Returned ==> c'.remain + c'.input.data == c.remain + c.input.data && |c.remain| <= |c'.remain| < MaxVarintLen)
  {
    LenBufConserves(c);
    var lenBuf := LenBuf(c);
    assert [] + lenBuf == lenBuf + [] == lenBuf;
  }

  lemma LengthFollows(c: Call, max: nat, bodies: seq<Bytes>) returns (after: seq<Bytes>)
    requires c.end == Running && Holding(c.remain, c.input.data, bodies, max)
    requires HeaderRead(c).err != Failure && Uvarint(LenBuf(c)).1 > 0
    requires !Tears(LenBuf(c)) && !Turn(c, max).cut
    ensures Follows(c, Turn(c, max), bodies, after, max)
  {
    var lenBuf, rest, input := LenBuf(c), c.remain[Min(MaxVarintLen, |c.remain|)..], HeaderRead(c).rest;
    var all := TurnLoads(c, max, bodies);
    PaddedTake(c, lenBuf, rest, input, max);
    after := TakeFollows(c, lenBuf + Zeros(MaxVarintLen - |lenBuf|), rest, input, max, all);
  }

  /** A turn takes the next body, skips an empty one or waits, and the rest of the stream stays. */
  lemma TurnFollows(c: Call, max: nat, bodies: seq<Bytes>) returns (after: seq<Bytes>)
    requires c.end == Running && Holding(c.remain, c.input.data, bodies, max)
    ensures var c' := Turn(c, max); !c'.torn && !c'.cut ==> Follows(c, c', bodies, after, max)
  {
    after := bodies;
    if Uvarint(LenBuf(c)).1 == 0 {
      WaitFollows(c, max, bodies);
    } else if HeaderRead(c).err != Failure && !Turn(c, max).torn && !Turn(c, max).cut {
      after := LengthFollows(c, max, bodies);
    }
  }

  lemma {:induction false} GoKeepsFlags(c: Call, max: nat)
    ensures (c.torn ==> Go(c, max).torn) && (c.cut ==> Go(c, max).cut)
    decreases |c.input.script|
  {
    if c.end == Running && Turn(c, max).end == Running { GoKeepsFlags(Turn(c, max), max); }
  }

  lemma {:induction false} GoFollows(c: Call, max: nat, bodies: seq<Bytes>) returns (after: seq<Bytes>)
    requires c.end == Running && Holding(c.remain, c.input.data, bodies, max)
    ensures var c' := Go(c, max); !c'.torn && !c'.cut ==> c'.end != Running && Follows(c, c', bodies, after, max)
    decreases |c.input.script|
  {
    var c' := Turn(c, max);
    after := TurnFollows(c, max, bodies);
    if c'.end == Running {
      GoKeepsFlags(c', max);
      if !c'.torn && !c'.cut { after := GoFollows(c', max, after); }
    }
  }

  /* ---- calls in a row ---- */

  /** The frames of `n` calls in a row on one reader, as the parse goroutine makes them. */
  datatype Session = Session(frames: seq<Bytes>, remain: Bytes, input: Input, end: End, torn: bool, cut: bool)

  function Calls(input: Input, max: nat, n: nat): Session {
    if n == 0 then Session([], [], input, Returned, false, false) else OneCall(Calls(input, max, n - 1), max)
  }

  /** The next call, unless one failed; the frames of a failed call are dropped. */
  function OneCall(s: Session, max: nat): Session {
    if s.end != Returned then s
    else
      var c := ReadFrames(s.remain, s.input, max);
      Session(if c.end == Returned then s.frames + c.frames else s.frames,
              c.remain, c.input, c.end, s.torn || c.torn, s.cut || c.cut)
  }

  /** What is returned so far and what `left` still holds are together `bodies`. */
  ghost predicate Splits(s: Session, bodies: seq<Bytes>, left: seq<Bytes>, max: nat) {
    Holding(s.remain, s.input.data, left, max) && s.frames + NonEmpty(left) == bodies
  }

  ghost predicate Faithful(s: Session, bodies: seq<Bytes>, max: nat) {
    !s.torn && !s.cut ==>
    && s.frames <= bodies && s.end in {Returned, ReaderError}
    && (s.end == Returned ==> exists left :: Splits(s, bodies, left, max))
  }

  lemma {:induction false} NothingEmpty(bodies: seq<Bytes>)
    requires [] !in bodies
    ensures NonEmpty(bodies) == bodies && Gap(bodies) == 0
  {
    if bodies != [] { NothingEmpty(bodies[1..]); assert [bodies[0]] + bodies[1..] == bodies; }
  }

  lemma {:induction false} CallsAreFaithful(bodies: seq<Bytes>, script: seq<Grant>, max: nat, n: nat)
    requires Sendable(bodies, max)
    ensures Faithful(Calls(Input(Encode(bodies), script), max, n), bodies, max)
  {
    if n == 0 {
      NothingEmpty(bodies);
      assert [] + Encode(bodies) == Encode(bodies) && [] + bodies == bodies;
      assert Splits(Calls(Input(Encode(bodies), script), max, 0), bodies, bodies, max);
    } else {
      CallsAreFaithful(bodies, script, max, n - 1);
      StaysFaithful(Calls(Input(Encode(bodies), script), max, n - 1), bodies, max);
    }
  }

  lemma StaysFaithful(s: Session, bodies: seq<Bytes>, max: nat)
    requires Faithful(s, bodies, max)
    ensures Faithful(OneCall(s, max), bodies, max)
  {
    if s.end == Returned && !s.torn && !s.cut {
      var left :| Splits(s, bodies, left, max);
      NextCall(s, bodies, left, max);
    }
  }

  lemma NextCall(s: Session, bodies: seq<Bytes>, left: seq<Bytes>, max: nat)
    requires Splits(s, bodies, left, max) && s.end == Returned && !s.torn && !s.cut
    ensures Faithful(OneCall(s, max), bodies, max)
  {
    var c0, s' := NewCall(s.remain, s.input), OneCall(s, max);
    var c := Go(c0, max);
    var after := GoFollows(c0, max, left);
    if !s'.torn && !s'.cut && s'.end == Returned {
      CallSplits(s, c0, c, s', bodies, left, after, max);
      assert Splits(s', bodies, after, max);
    }
  }

  lemma CallSplits(s: Session, c0: Call, c: Call, s': Session, bodies: seq<Bytes>, left: seq<Bytes>, after: seq<Bytes>, max: nat)
    requires Splits(s, bodies, left, max) && Follows(c0, c, left, after, max) && c.end == Returned && c0.frames == []
    requires s'.frames == s.frames + c.frames && s'.remain == c.remain && s'.input == c.input
    ensures Splits(s', bodies, after, max) && s'.frames <= bodies
  {
    FramesJoin(s.frames, c.frames, NonEmpty(after), NonEmpty(left), bodies);
  }

  lemma FramesJoin(before: seq<Bytes>, more: seq<Bytes>, after: seq<Bytes>, left: seq<Bytes>, bodies: seq<Bytes>)
    requires more + after == [] + left && before + left == bodies
    ensures before + more + after == bodies && before + more <= bodies
  {
    assert [] + left == left;
    assert before + more + after == before + (more + after);
  }

  predicate AllZero(b: Bytes) { forall x <- b :: x == 0 }

  lemma {:induction false} ZerosHoldNothing(bodies: seq<Bytes>)
    requires AllZero(Encode(bodies))
    ensures NonEmpty(bodies) == []
  {
    if bodies != [] {
      var e := Encode(bodies);
      assert e[0] in e && e[0] == PutUvarint(|bodies[0]|)[0];
      forall x <- Encode(bodies[1..]) ensures x == 0 { assert x in e; }
      ZerosHoldNothing(bodies[1..]);
    }
  }

  /** However the bytes of a list of bodies are cut into reads, the calls made so far have returned a
      prefix of that list, and what is left over encodes the rest, with zero-length frames in between
      where lengths were decoded from a length buffer with room left.  This needs that every length
      buffer was full or held whole frames only (as with a ping on an idle connection), and that no
      EOF came inside a body.  A call then fails only because the reader does, and when nothing but
      zero bytes is left over, all bodies were returned. */
  lemma FramesRoundTrip(bodies: seq<Bytes>, script: seq<Grant>, max: nat, n: nat)
    requires Sendable(bodies, max)
    ensures var s := Calls(Input(Encode(bodies), script), max, n);
            !s.torn && !s.cut ==>
            && s.frames <= bodies && s.end in {Returned, ReaderError}
            && (s.end == Returned ==> exists left :: s.remain + s.input.data == Encode(left) && s.frames + NonEmpty(left) == bodies)
            && (s.end == Returned && AllZero(s.remain + s.input.data) ==> s.frames == bodies)
  {
    var s := Calls(Input(Encode(bodies), script), max, n);
    CallsAreFaithful(bodies, script, max, n);
    if !s.torn && !s.cut && s.end == Returned {
      var left :| Splits(s, bodies, left, max);
      assert s.remain + s.input.data == Encode(left) && s.frames + NonEmpty(left) == bodies;
      if AllZero(s.remain + s.input.data) {
        ZerosHoldNothing(left);
        assert s.frames + [] == s.frames;
      }
    }
  }

  /* ---- what room in the length buffer does to a frame ---- */

  /** A frame whose length was decoded from a buffer with room left is right if and only if its bytes
      beyond the buffer are all zero; in particular when there are none. */
  lemma ShortFrameRightIff(c: Call, max: nat, b: Bytes, tail: Bytes)
    requires c.end == Running && !c.cut && 0 < |b| < LengthLimit && (max > 0 ==> |b| <= max)
    requires c.remain + c.input.data == PutUvarint(|b|) + b + tail
    requires |PutUvarint(|b|)| <= |LenBuf(c)| < MaxVarintLen
    requires Turn(c, max).end in {Running, Returned} && !Turn(c, max).cut
    ensures Turn(c, max).frames == c.frames + [b]
            <==> forall i | |LenBuf(c)| - |PutUvarint(|b|)| <= i < |b| :: b[i] == 0
  {
    var n, d, room := |PutUvarint(|b|)|, HeaderRead(c).rest.data, MaxVarintLen - |LenBuf(c)|;
    var u := LenBuf(c)[n..];
    ShortHeader(c, b, tail);
    var buf, data := ShortFrame(c, max, b, n, u + Zeros(room));
    FrameRightIff(c.frames, u, room, buf, data, d, b, tail);
  }

  /** The frame starts with what the length buffer holds behind the prefix, and the room. */
  lemma ShortFrame(c: Call, max: nat, b: Bytes, n: nat, start: Bytes) returns (buf: Bytes, data: Bytes)
    requires c.end == Running && !c.cut && b != [] && (max > 0 ==> |b| <= max)
    requires |LenBuf(c)| < MaxVarintLen && Uvarint(LenBuf(c)) == (|b|, n) && 0 < n
    requires start == LenBuf(c)[n..] + Zeros(MaxVarintLen - |LenBuf(c)|)
    requires Turn(c, max).end in {Running, Returned} && !Turn(c, max).cut
    ensures start <= buf && |b| <= |buf| && buf[|start|..] + data == HeaderRead(c).rest.data
    ensures Turn(c, max).frames == c.frames + [buf[..|b|]]
  {
    var e := ReadBody(start, |b|, HeaderRead(c).rest);
    ShortTurn(c, max, b, n, e, Turn(c, max));
    ReadBodyAppends(start, |b|, HeaderRead(c).rest);
    buf, data := e.buf, e.rest.data;
  }

  lemma FrameRightIff(frames: seq<Bytes>, u: Bytes, room: nat, buf: Bytes, data: Bytes, d: Bytes, b: Bytes, tail: Bytes)
    requires room > 0 && u + Zeros(room) <= buf && |b| <= |buf|
    requires buf[|u + Zeros(room)|..] + data == d && u + d == b + tail
    ensures frames + [buf[..|b|]] == frames + [b] <==> forall i | |u| <= i < |b| :: b[i] == 0
  {
    var more, frame := buf[|u| + room..], buf[..|b|];
    assert buf == u + Zeros(room) + more;
    assert (frames + [frame])[|frames|] == frame && (frames + [b])[|frames|] == b;
    ShiftedIff(u, room, more, data, b, tail, frame);
  }

  lemma ShortHeader(c: Call, b: Bytes, tail: Bytes)
    requires 0 < |b| < LengthLimit && c.remain + c.input.data == PutUvarint(|b|) + b + tail
    requires |PutUvarint(|b|)| <= |LenBuf(c)| < MaxVarintLen
    ensures Uvarint(LenBuf(c)) == (|b|, |PutUvarint(|b|)|)
    ensures LenBuf(c)[|PutUvarint(|b|)|..] + HeaderRead(c).rest.data == b + tail
  {
    LenBufConserves(c);
    var p, lenBuf, d := PutUvarint(|b|), LenBuf(c), HeaderRead(c).rest.data;
    assert lenBuf + d == p + b + tail by { assert lenBuf + [] == lenBuf; }
    PrefixOff(lenBuf, d, p, b, tail);
    assert |p| <= 9;
    UvarintInverts(|b|, lenBuf[|p|..], 0);
  }

  lemma PrefixOff(l: Bytes, d: Bytes, p: Bytes, b: Bytes, tail: Bytes)
    requires l + d == p + b + tail && |p| <= |l|
    ensures l == p + l[|p|..] && l[|p|..] + d == b + tail
  {
    assert l[..|p|] == (l + d)[..|p|] == (p + b + tail)[..|p|] == p;
    assert l[|p|..] + d == (l + d)[|p|..] == (p + b + tail)[|p|..] == b + tail;
  }

  lemma ShortTurn(c: Call, max: nat, b: Bytes, n: nat, e: BodyEnd, c': Call)
    requires c.end == Running && !c.cut && b != [] && (max > 0 ==> |b| <= max)
    requires |LenBuf(c)| < MaxVarintLen && Uvarint(LenBuf(c)) == (|b|, n) && 0 < n
    requires e == ReadBody(LenBuf(c)[n..] + Zeros(MaxVarintLen - |LenBuf(c)|), |b|, HeaderRead(c).rest)
    requires c' == Turn(c, max) && c'.end in {Running, Returned} && !c'.cut
    ensures e.Complete? && |b| <= |e.buf| && c'.frames == c.frames + [e.buf[..|b|]]
  {
    var c1 := ShortTurnTakes(c, max, c');
    ShortTake(c1, LenBuf(c), [], HeaderRead(c).rest, max, |b|, n, e, c');
  }

  lemma ShortTurnTakes(c: Call, max: nat, c': Call) returns (c1: Call)
    requires c.end == Running && |LenBuf(c)| < MaxVarintLen && Uvarint(LenBuf(c)).1 > 0
    requires c' == Turn(c, max) && c'.end in {Running, Returned}
    ensures c1 == c.(torn := c1.torn) && c' == Take(c1, LenBuf(c), [], HeaderRead(c).rest, max)
  {
    assert c.remain[Min(MaxVarintLen, |c.remain|)..] == [] by { LenBufConserves(c); }
    TurnHasRead(c, max);
    c1 := TurnIsTake(c, max);
  }

  lemma ShortTake(c: Call, lenBuf: Bytes, rest: Bytes, input: Input, max: nat, v: nat, n: nat, e: BodyEnd, c': Call)
    requires !c.cut && |lenBuf| <= MaxVarintLen && Uvarint(lenBuf) == (v, n) && v > 0 && n > 0 && !(0 < max < v) && rest == []
    requires e == ReadBody(lenBuf[n..] + Zeros(MaxVarintLen - |lenBuf|), v, input)
    requires c' == Take(c, lenBuf, rest, input, max) && c'.end in {Running, Returned} && !c'.cut
    ensures e.Complete? && v <= |e.buf| && c'.frames == c.frames + [e.buf[..v]]
  {
    var start := lenBuf[n..] + Zeros(MaxVarintLen - |lenBuf|);
    assert start + rest == start;
    TakeIsFinish(c, lenBuf, rest, input, max, v, n);
    FinishFrames(c, lenBuf[..n], v, e);
  }

  lemma FinishFrames(c: Call, header: Bytes, frameLen: nat, e: BodyEnd)
    requires !c.cut && (e.Complete? ==> frameLen <= |e.buf|)
    requires var c' := Finish(c, header, frameLen, e); c'.end in {Running, Returned} && !c'.cut
    ensures e.Complete? && Finish(c, header, frameLen, e).frames == c.frames + [e.buf[..frameLen]]
  {
  }

  lemma {:induction false} ReadBodyAppends(buf: Bytes, frameLen: nat, input: Input)
    ensures var r := ReadBody(buf, frameLen, input);
            r.Complete? ==> buf <= r.buf && r.buf[|buf|..] + r.rest.data == input.data
    decreases |input.script|
  {
    var Chunk(bytes, err, rest) := ReadChunk(input, frameLen);
    var r := ReadBody(buf, frameLen, input);
    if err == NoError && |buf + bytes| < frameLen {
      ReadBodyAppends(buf + bytes, frameLen, rest);
      if r.Complete? { AppendsMore(buf, bytes, r.buf, r.rest.data, rest.data); }
    } else if r.Complete? {
      assert (buf + bytes)[|buf|..] == bytes;
    }
  }

  lemma AppendsMore(buf: Bytes, bytes: Bytes, all: Bytes, left: Bytes, rest: Bytes)
    requires buf + bytes <= all && all[|buf + bytes|..] + left == rest
    ensures buf <= all && all[|buf|..] + left == bytes + rest
  {
    assert all[|buf|..] == bytes + all[|buf + bytes|..];
  }

  lemma ShiftedIff(u: Bytes, room: nat, more: Bytes, data: Bytes, b: Bytes, tail: Bytes, frame: Bytes)
    requires room > 0 && u + (more + data) == b + tail && |b| <= |u| + room + |more|
    requires frame == (u + Zeros(room) + more)[..|b|]
    ensures frame == b <==> forall i | |u| <= i < |b| :: b[i] == 0
  {
    var s := b + tail;
    assert forall i | 0 <= i < |b| :: b[i] == s[i];
    assert forall i | 0 <= i < |u| && i < |b| :: frame[i] == s[i];
    assert forall i | |u| <= i < |b| && i < |u| + room :: frame[i] == 0;
    assert forall i | |u| + room <= i < |b| :: frame[i] == more[i - |u| - room] == s[i - room];
    if frame == b {
      forall i | |u| <= i < |b| ensures b[i] == 0 { ZeroByShift(b, |u|, room, i); }
    }
  }

  lemma {:induction false} ZeroByShift(b: Bytes, from: nat, room: nat, i: nat)
    requires room > 0 && from <= i < |b|
    requires forall k | from <= k < |b| :: Repeats(b, from, room, k)
    ensures b[i] == 0
    decreases i
  {
    assert Repeats(b, from, room, i);
    if i >= from + room { ZeroByShift(b, from, room, i - room); }
  }

  predicate Repeats(b: Bytes, from: nat, room: nat, k: nat)
    requires from <= k < |b|
  {
    b[k] == if k < from + room then 0 else b[k - room]
  }

  /** For instance a frame of five bytes whose first two stream bytes arrive alone comes out with the
      room of the length buffer inside it. */
  lemma ShortReadCorrupts()
    ensures Encode([[1, 2, 3, 4, 5]]) == [5, 1, 2, 3, 4, 5]
    ensures var c := ReadFrames([], Input([5, 1, 2, 3, 4, 5], [Data(2), Data(1)]), 0);
            c.end == Returned && c.frames == [[1, 0, 0, 0, 2]] && c.torn
  {
    assert Encode([[1, 2, 3, 4, 5]][1..]) == [];
    var c := NewCall([], Input([5, 1, 2, 3, 4, 5], [Data(2), Data(1)]));
    ShortRead(c);
    ShortExample(c.(torn := true));
  }

  lemma ShortRead(c: Call)
    requires c.end == Running && c.remain == [] && c.input == Input([5, 1, 2, 3, 4, 5], [Data(2), Data(1)])
    ensures Turn(c, 0) == Take(c.(torn := true), [5, 1], [], Input([2, 3, 4, 5], [Data(1)]), 0)
  {
    assert HeaderRead(c) == Chunk([5, 1], NoError, Input([2, 3, 4, 5], [Data(1)]));
    assert LenBuf(c) == [5, 1] && Tears([5, 1]);
  }

  lemma ShortExample(c: Call)
    requires c.end == Running && c.frames == []
    ensures var c' := Take(c, [5, 1], [], Input([2, 3, 4, 5], [Data(1)]), 0);
            c'.end == Returned && c'.frames == [[1, 0, 0, 0, 2]]
  {
    var i := Input([2, 3, 4, 5], [Data(1)]);
    assert [5, 1][1..] + Zeros(3) + [] == [1, 0, 0, 0];
    assert ReadChunk(i, 5).bytes == [2];
    assert ReadBody([1, 0, 0, 0], 5, i).buf == [1, 0, 0, 0, 2];
    assert [1, 0, 0, 0, 2][..5] == [1, 0, 0, 0, 2];
  }
}
