/** When readFrames keeps its bytes in order (messagepackhubprotocol.go): a condition on what is
    buffered, what the reader has and how it answers, and the two ways in which bytes change places. */
module FramingOrder {
  import opened ByteStreams
  import opened MessagePackFraming

  /* ---- the condition, in terms of the input ---- */

  predicate Commute(a: Bytes, b: Bytes) { a + b == b + a }

  function Max(a: nat, b: nat): nat { if a < b then b else a }

  /** What becomes of a body of `need` bytes of which `have` are there, while `left` are still to come:
      enough bytes arrive, EOF or another error comes first. */
  datatype Fate = Enough(have: nat, rest: seq<Grant>) | Ends | Breaks

  function BodyGrants(script: seq<Grant>, have: nat, need: nat, left: nat): (f: Fate)
    ensures f.Enough? ==> need <= f.have <= have + left && |f.rest| <= |script|
    decreases |script|
  {
    if script == [] || script[0].Broken? then Breaks
    else if script[0].Eof? then Ends
    else
      var k := Min(script[0].n, Min(need, left));
      if have + k >= need then Enough(have + k, script[1..]) else BodyGrants(script[1..], have + k, need, left - k)
  }

  /** How many bytes of stream `s` are in the length buffer when `k` are buffered and the header read
      is answered by `g`. */
  function Filled(s: Bytes, k: nat, g: Grant): (m: nat)
    requires k <= |s| && !g.Broken?
    ensures m <= MaxVarintLen && m <= |s| && (k < MaxVarintLen ==> k <= m) && (k >= MaxVarintLen ==> m == MaxVarintLen)
  {
    var n1 := Min(MaxVarintLen, k);
    n1 + Min(g.n, Min(MaxVarintLen - n1, |s| - k))
  }

  /** What a turn comes to: the call ends in order, loses the order, or goes on with stream `s` of
      which `k` bytes are buffered. */
  datatype Verdict = Settled | Disturbed | On(s: Bytes, k: nat, script: seq<Grant>)

  /** The verdict on one turn, from the input alone.  `s` is all that is buffered or to come, of which
      `k` bytes are buffered. */
  function Judge(s: Bytes, k: nat, script: seq<Grant>, max: nat): (r: Verdict)
    requires k <= |s|
    ensures r.On? ==> r.k <= |r.s| && |r.script| < |script|
  {
    if script == [] || script[0].Broken? then Settled
    else
      var m := Filled(s, k, script[0]);
      var (v, n) := Uvarint(s[..m]);
      if n == 0 then if Commute(s[m..Max(k, m)], s[..m]) then Settled else Disturbed
      else JudgeLength(s, k, script[1..], max, m, v, n)
  }

  /** The verdict on a turn in which length `v` is decoded from the first `n` of `m` bytes. */
  function JudgeLength(s: Bytes, k: nat, script: seq<Grant>, max: nat, m: nat, v: nat, n: nat): (r: Verdict)
    requires 0 < n <= m <= MaxVarintLen && k <= |s| && m <= |s|
    ensures r.On? ==> r.k <= |r.s| && |r.script| <= |script|
  {
    var b := Max(k, m);
    if v == 0 then
      if m == MaxVarintLen && Commute(s[m..b], s[n..m]) then On(s[n..], b - n, script) else Disturbed
    else if 0 < max < v then Settled
    else JudgeBody(s, m == MaxVarintLen, v, n, BodyGrants(script, Max(MaxVarintLen, k) - n, v, |s| - b))
  }

  /** The verdict on a turn over a frame whose body of `v` bytes comes to `f`. */
  function JudgeBody(s: Bytes, full: bool, v: nat, n: nat, f: Fate): (r: Verdict)
    requires f.Enough? && full ==> v <= f.have && n + f.have <= |s|
  {
    match f
    case Breaks => Settled
    case Ends => Disturbed
    case Enough(have, rest) =>
      if !full then Disturbed else if have == v then Settled else On(s[n + v..], have - v, rest)
  }

  /** The input keeps a call in order: as long as the reader goes on, every length is decoded from a
      full length buffer, no EOF comes inside a body, and what is put back behind buffered bytes (the
      rest of the length buffer after a zero-length frame, or an unfinished prefix) is put behind
      nothing, or behind bytes it commutes with. */
  predicate Steady(s: Bytes, k: nat, script: seq<Grant>, max: nat)
    requires k <= |s|
    decreases |script|
  {
    match Judge(s, k, script, max)
    case Settled => true
    case Disturbed => false
    case On(s', k', script') => Steady(s', k', script', max)
  }

  /* ---- the property ---- */

  /** Every turn of the call that goes on or returns accounts for all bytes in order. */
  ghost predicate KeepsOrder(c: Call, max: nat)
    decreases |c.input.script|
  {
    c.end == Running ==>
      var c' := Turn(c, max);
      && (c'.end in {Running, Returned} ==> Joined(c') == Joined(c))
      && (c'.end == Running ==> KeepsOrder(c', max))
  }

  lemma {:induction false} KeptThroughout(c: Call, max: nat)
    requires KeepsOrder(c, max) && Go(c, max).end == Returned
    ensures Joined(Go(c, max)) == Joined(c)
    decreases |c.input.script|
  {
    if c.end == Running && Turn(c, max).end == Running { KeptThroughout(Turn(c, max), max); }
  }

  lemma KeptFromStart(remain: Bytes, input: Input, max: nat)
    requires KeepsOrder(NewCall(remain, input), max) && ReadFrames(remain, input, max).end == Returned
    ensures var c := ReadFrames(remain, input, max);
            remain + input.data == Flatten(c.parts) + c.remain + c.input.data
  {
    KeptThroughout(NewCall(remain, input), max);
    assert [] + remain == remain;
  }

  /* ---- one turn ---- */

  /** The end of a body and its fate belong together, and the bytes are accounted for. */
  ghost predicate Fits(e: BodyEnd, f: Fate, buf: Bytes, d: Bytes, need: nat) {
    match e
    case Broke(_) => f.Breaks?
    case Cut(b, x, rest) => f.Ends? && buf <= b && b + x + rest.data == buf + d
    case Complete(b, rest) => need <= |b| && f == Enough(|b|, rest.script) && b + rest.data == buf + d
  }

  lemma {:induction false} ReadBodyFate(buf: Bytes, need: nat, input: Input)
    ensures Fits(ReadBody(buf, need, input), BodyGrants(input.script, |buf|, need, |input.data|), buf, input.data, need)
    decreases |input.script|
  {
    var Chunk(bytes, err, rest) := ReadChunk(input, need);
    Assoc(buf, bytes, rest.data);
    if err == NoError && |buf + bytes| < need { ReadBodyFate(buf + bytes, need, rest); }
  }

  /** The pieces of the stream that a header read tells apart. */
  lemma HeaderPieces(c: Call)
    requires c.input.script != [] && !c.input.script[0].Broken?
    ensures var s, k := c.remain + c.input.data, |c.remain|;
            var m := Filled(s, k, c.input.script[0]);
            var b := Max(k, m);
            && LenBuf(c) == s[..m] && c.remain[Min(MaxVarintLen, k)..] == s[m..b]
            && HeaderRead(c).rest == Input(s[b..], c.input.script[1..]) && HeaderRead(c).err != Failure
  {
    var r, d, k := c.remain, c.input.data, |c.remain|;
    var m := Filled(r + d, k, c.input.script[0]);
    if k < MaxVarintLen {
      ShortPieces(r, d, m - k);
    } else {
      LongPieces(r, d);
    }
  }

  lemma ShortPieces(r: Bytes, d: Bytes, j: nat)
    requires j <= |d|
    ensures r[..|r|] + d[..j] == (r + d)[..|r| + j] && d[j..] == (r + d)[|r| + j..]
    ensures r[|r|..] == (r + d)[|r| + j..|r| + j]
  {
  }

  lemma LongPieces(r: Bytes, d: Bytes)
    requires |r| >= MaxVarintLen
    ensures r[..MaxVarintLen] + d[..0] == (r + d)[..MaxVarintLen] && r[MaxVarintLen..] == (r + d)[MaxVarintLen..|r|]
    ensures d[0..] == (r + d)[|r|..]
  {
  }

  lemma CancelMiddle(f: Bytes, x: Bytes, y: Bytes, d: Bytes)
    requires |x| == |y|
    ensures f + x + d == f + y + d <==> x == y
  {
    if f + x + d == f + y + d {
      assert x == (f + x + d)[|f|..|f| + |x|];
      assert y == (f + y + d)[|f|..|f| + |y|];
    }
  }

  /** A turn that waits for the rest of a prefix. */
  lemma WaitKeepsIff(c: Call, lenBuf: Bytes, rest: Bytes, input: Input)
    requires c.remain + c.input.data == lenBuf + rest + input.data
    ensures Joined(c.(end := Returned, remain := rest + lenBuf, input := input)) == Joined(c) <==> Commute(rest, lenBuf)
  {
    var f := Flatten(c.parts);
    Assoc(f, c.remain, c.input.data);
    Assoc(f, lenBuf + rest, input.data);
    CancelMiddle(f, rest + lenBuf, lenBuf + rest, input.data);
  }

  /** A turn over a zero-length frame. */
  lemma SkipKeepsIff(c: Call, lenBuf: Bytes, rest: Bytes, input: Input, max: nat)
    requires |lenBuf| <= MaxVarintLen && Uvarint(lenBuf).1 > 0 && Uvarint(lenBuf).0 == 0
    requires c.remain + c.input.data == lenBuf + rest + input.data
    ensures var c', n := Take(c, lenBuf, rest, input, max), Uvarint(lenBuf).1;
            && (Joined(c') == Joined(c) <==> |lenBuf| == MaxVarintLen && Commute(rest, lenBuf[n..]))
            && (|lenBuf| == MaxVarintLen ==> c'.remain == rest + lenBuf[n..])
            && c'.end == c.end && c'.input == input
  {
    var c', n := Take(c, lenBuf, rest, input, max), Uvarint(lenBuf).1;
    var h, u, z := lenBuf[..n], lenBuf[n..], Zeros(MaxVarintLen - |lenBuf|);
    SplitAt(lenBuf, n);
    NoZeros(u, MaxVarintLen - |lenBuf|);
    SkippedKeepsIff(c, h, u, z, rest, input);
    assert Joined(c') == Flatten(c.parts + [Part(h, [])]) + (rest + (u + z)) + input.data;
  }

  lemma SplitAt(s: Bytes, n: nat)
    requires n <= |s|
    ensures s == s[..n] + s[n..]
  {
  }

  lemma NoZeros(u: Bytes, k: nat)
    ensures |Zeros(k)| == k && (k == 0 ==> u + Zeros(k) == u)
  {
  }

  lemma SkippedKeepsIff(c: Call, h: Bytes, u: Bytes, z: Bytes, rest: Bytes, input: Input)
    requires c.remain + c.input.data == h + u + rest + input.data
    ensures Flatten(c.parts + [Part(h, [])]) + (rest + (u + z)) + input.data == Joined(c) <==> z == [] && Commute(rest, u)
  {
    var f, d := Flatten(c.parts), input.data;
    PartsAppend(c.parts, Part(h, []));
    assert f + h + [] == f + h;
    SkipRegroup(f, h, u, rest, d, c.remain, c.input.data);
    if z == [] {
      assert u + z == u;
      CancelMiddle(f + h, rest + u, u + rest, d);
    } else {
      assert |f + h + (rest + (u + z)) + d| != |f + h + (u + rest) + d|;
    }
  }

  lemma SkipRegroup(f: Bytes, h: Bytes, u: Bytes, r: Bytes, d: Bytes, remain: Bytes, data: Bytes)
    requires remain + data == h + u + r + d
    ensures f + remain + data == f + h + (u + r) + d
  {
    assert f + remain + data == f + (remain + data);
    assert f + (h + u + r + d) == f + h + (u + r) + d;
  }

  /* A cut loses the prefix.  Padding can make up for the length, but never for the bytes. */

  lemma {:induction false} ZeroFrom(h: Bytes, u: Bytes, p: nat, i: nat)
    requires h != [] && |h| <= p && i < |h| + |u|
    requires forall j | 0 <= j < |h| + |u| :: (h + u)[j] == (u + Zeros(p))[j]
    ensures (h + u)[i] == 0
    decreases |h| + |u| - i
  {
    if i < |u| {
      assert (h + u)[i] == u[i] == (h + u)[i + |h|];
      ZeroFrom(h, u, p, i + |h|);
    }
  }

  lemma CutNeverFits(h: Bytes, u: Bytes, p: nat, r: Bytes, x: Bytes, d: Bytes)
    requires h != [] && h[0] != 0
    ensures u + Zeros(p) + r + d != h + u + r + x + d
  {
    var a, b := u + Zeros(p) + r + d, h + u + r + x + d;
    if a == b {
      assert p == |h| + |x|;
      forall j | 0 <= j < |h| + |u| ensures (h + u)[j] == (u + Zeros(p))[j] {
        assert b[j] == (h + u)[j] && a[j] == (u + Zeros(p))[j];
      }
      ZeroFrom(h, u, p, 0);
    }
  }

  /** A turn that is cut never keeps the order. */
  lemma CutNeverKeeps(c: Call, h: Bytes, u: Bytes, z: nat, rest: Bytes, d: Bytes, e: BodyEnd, frameLen: nat)
    requires h != [] && h[0] != 0 && (z > 0 ==> rest == []) && e.Cut?
    requires c.remain + c.input.data == h + u + rest + d
    requires u + Zeros(z) + rest <= e.buf && e.buf + e.dropped + e.rest.data == u + Zeros(z) + rest + d
    ensures Joined(Finish(c, h, frameLen, e)) != Joined(c)
  {
    var f, start := Flatten(c.parts), u + Zeros(z) + rest;
    var r := e.buf[|start|..];
    assert e.buf == start + r;
    assert r + e.dropped + e.rest.data == d by {
      assert (e.buf + e.dropped + e.rest.data)[|start|..] == r + e.dropped + e.rest.data;
      assert (start + d)[|start|..] == d;
    }
    CutNeverFits(h, u + rest, z, r, e.dropped, e.rest.data);
    CutRegroup(f, h, u, z, rest, r, e.dropped, e.rest.data, c.remain, c.input.data, e.buf, d);
  }

  lemma CutRegroup(f: Bytes, h: Bytes, u: Bytes, z: nat, rest: Bytes, r: Bytes, x: Bytes, d': Bytes,
                   remain: Bytes, data: Bytes, buf: Bytes, d: Bytes)
    requires remain + data == h + u + rest + d && d == r + x + d' && buf == u + Zeros(z) + rest + r
    requires z > 0 ==> rest == []
    requires u + rest + Zeros(z) + r + d' != h + (u + rest) + r + x + d'
    ensures f + buf + d' != f + remain + data
  {
    assert Zeros(z) + rest == rest + Zeros(z) by { if z == 0 { assert Zeros(z) == []; } }
    assert buf == u + (Zeros(z) + rest) + r == u + rest + Zeros(z) + r;
    assert remain + data == h + (u + rest) + r + x + d';
    assert (f + buf + d')[|f|..] == buf + d';
    assert (f + remain + data)[|f|..] == remain + data;
  }

  lemma FirstByteNotZero(buf: Bytes)
    requires Uvarint(buf).1 > 0 && Uvarint(buf).0 > 0
    ensures buf[0] != 0
  {
  }

  /** What becomes of a frame with a body of `v` bytes: the call breaks off, is cut and loses order, or
      takes the frame, in order exactly when the length buffer was full. */
  ghost predicate Outcome(f: Fate, v: nat, full: bool, c: Call, c': Call) {
    match f
    case Breaks => c'.end == ReaderError
    case Ends => c'.end == Returned && Joined(c') != Joined(c)
    case Enough(have, script) =>
      && v <= have && c'.end == (if have == v then Returned else Running) && c'.input.script == script
      && |c'.remain| == have - v && (Joined(c') == Joined(c) <==> full)
  }

  lemma FinishKeepsIff(c: Call, h: Bytes, u: Bytes, p: nat, rest: Bytes, d: Bytes, v: nat, e: BodyEnd, f: Fate, full: bool, c': Call)
    requires (full <==> p == 0) && c.end == Running && h != [] && h[0] != 0 && (p > 0 ==> rest == [])
    requires c.remain + c.input.data == h + u + rest + d
    requires Fits(e, f, u + Zeros(p) + rest, d, v) && c' == Finish(c, h, v, e)
    ensures Outcome(f, v, full, c, c')
  {
    if e.Cut? {
      CutNeverKeeps(c, h, u, p, rest, d, e, v);
    } else if e.Complete? {
      FinishConserves(c, h, v, e);
      CompleteKeepsIff(Flatten(c.parts), h, u, p, rest, d, c.remain, c.input.data, e.buf, e.rest.data);
    }
  }

  /** A turn over a frame with a body. */
  lemma FrameKeepsIff(c: Call, lenBuf: Bytes, n: nat, rest: Bytes, d: Bytes, v: nat, e: BodyEnd, f: Fate, full: bool, c': Call)
    requires 0 < n <= |lenBuf| <= MaxVarintLen && lenBuf[0] != 0 && (full <==> |lenBuf| == MaxVarintLen)
    requires c.end == Running && c.remain + c.input.data == lenBuf + rest + d && (!full ==> rest == [])
    requires Fits(e, f, lenBuf[n..] + Zeros(MaxVarintLen - |lenBuf|) + rest, d, v) && c' == Finish(c, lenBuf[..n], v, e)
    ensures Outcome(f, v, full, c, c')
  {
    assert lenBuf == lenBuf[..n] + lenBuf[n..];
    FinishKeepsIff(c, lenBuf[..n], lenBuf[n..], MaxVarintLen - |lenBuf|, rest, d, v, e, f, full, c');
  }

  lemma CompleteKeepsIff(f: Bytes, h: Bytes, u: Bytes, p: nat, rest: Bytes, d: Bytes, remain: Bytes, data: Bytes, buf: Bytes, d': Bytes)
    requires remain + data == h + u + rest + d && buf + d' == u + Zeros(p) + rest + d
    ensures f + (h + buf + d') == f + remain + data <==> p == 0
  {
    assert f + remain + data == f + (remain + data);
    assert h + buf + d' == h + (buf + d');
    if p == 0 {
      assert u + Zeros(0) == u;
      assert h + (u + rest + d) == h + u + rest + d;
    } else {
      assert |f + (h + (buf + d'))| != |f + (remain + data)|;
    }
  }

  /* ---- the whole call ---- */

  /** After a turn in order, the stream is what it was without the bytes taken. */
  lemma StreamAfter(c: Call, c': Call, taken: nat)
    requires Joined(c') == Joined(c) && Flatten(c.parts) <= Flatten(c'.parts)
    requires |Flatten(c'.parts)| == |Flatten(c.parts)| + taken
    ensures taken <= |c.remain + c.input.data|
    ensures c'.remain + c'.input.data == (c.remain + c.input.data)[taken..]
  {
    var f, f', s, s' := Flatten(c.parts), Flatten(c'.parts), c.remain + c.input.data, c'.remain + c'.input.data;
    assert Joined(c) == f + s && Joined(c') == f' + s';
    assert s' == (f' + s')[|f'|..] && s[taken..] == (f + s)[|f'|..];
  }

  lemma TakenParts(c: Call, lenBuf: Bytes, rest: Bytes, input: Input, max: nat)
    requires |lenBuf| <= MaxVarintLen && Uvarint(lenBuf).1 > 0 && c.end == Running
    ensures var c', (v, n) := Take(c, lenBuf, rest, input, max), Uvarint(lenBuf);
            c'.end == Running ==>
              Flatten(c.parts) <= Flatten(c'.parts) && |Flatten(c'.parts)| == |Flatten(c.parts)| + n + v
  {
    var (v, n) := Uvarint(lenBuf);
    if v == 0 {
      PartsAppend(c.parts, Part(lenBuf[..n], []));
    } else if !(0 < max < v) {
      TakeIsFinish(c, lenBuf, rest, input, max, v, n);
      FinishedParts(c, lenBuf[..n], v, ReadBody(lenBuf[n..] + Zeros(MaxVarintLen - |lenBuf|) + rest, v, input));
    }
  }

  lemma FinishedParts(c: Call, h: Bytes, v: nat, e: BodyEnd)
    requires e.Complete? ==> v <= |e.buf|
    ensures var c' := Finish(c, h, v, e);
            c'.end == Running ==>
              Flatten(c.parts) <= Flatten(c'.parts) && |Flatten(c'.parts)| == |Flatten(c.parts)| + |h| + v
  {
    if e.Complete? { PartsAppend(c.parts, Part(h, e.buf[..v])); }
  }

  /** A turn comes to its verdict. */
  ghost predicate Meets(c: Call, c': Call, r: Verdict) {
    match r
    case Settled => c'.end != Running && (c'.end == Returned ==> Joined(c') == Joined(c))
    case Disturbed => c'.end in {Running, Returned} && Joined(c') != Joined(c)
    case On(s, k, script) =>
      && c'.end == Running && Joined(c') == Joined(c)
      && Input(s, script) == Input(c'.remain + c'.input.data, c'.input.script) && k == |c'.remain|
  }

  ghost predicate Ready(c: Call) { c.end == Running && c.input.script != [] && !c.input.script[0].Broken? }

  lemma TurnMeetsVerdict(c: Call, max: nat)
    requires c.end == Running
    ensures Meets(c, Turn(c, max), Judge(c.remain + c.input.data, |c.remain|, c.input.script, max))
  {
    if Ready(c) {
      var (v, n) := Uvarint(LenBuf(c));
      if n == 0 { WaitMeets(c, max); }
      else if v == 0 { SkipMeets(c, max); }
      else if 0 < max < v { TooLargeMeets(c, max); }
      else { FrameMeets(c, max); }
    }
  }

  lemma WaitMeets(c: Call, max: nat)
    requires Ready(c) && Uvarint(LenBuf(c)).1 == 0
    ensures Meets(c, Turn(c, max), Judge(c.remain + c.input.data, |c.remain|, c.input.script, max))
  {
    HeaderPieces(c);
    LenBufConserves(c);
    WaitKeepsIff(c, LenBuf(c), c.remain[Min(MaxVarintLen, |c.remain|)..], HeaderRead(c).rest);
  }

  lemma TooLargeMeets(c: Call, max: nat)
    requires Ready(c) && Uvarint(LenBuf(c)).1 != 0 && Uvarint(LenBuf(c)).0 > 0 && 0 < max < Uvarint(LenBuf(c)).0
    ensures Meets(c, Turn(c, max), Judge(c.remain + c.input.data, |c.remain|, c.input.script, max))
  {
    HeaderPieces(c);
  }

  lemma SkipMeets(c: Call, max: nat)
    requires Ready(c) && Uvarint(LenBuf(c)).1 != 0 && Uvarint(LenBuf(c)).0 == 0
    ensures Meets(c, Turn(c, max), Judge(c.remain + c.input.data, |c.remain|, c.input.script, max))
  {
    var s, k := c.remain + c.input.data, |c.remain|;
    SkipOrder(c, max);
    SkipTurnMeets(c, max, s, Uvarint(LenBuf(c)).1, Filled(s, k, c.input.script[0]), Turn(c, max), Judge(s, k, c.input.script, max));
  }

  lemma SkipTurnMeets(c: Call, max: nat, s: Bytes, n: nat, m: nat, c': Call, r: Verdict)
    requires Ready(c) && s == c.remain + c.input.data && m == Filled(s, |c.remain|, c.input.script[0])
    requires Uvarint(LenBuf(c)) == (0, n) && 0 < n <= m && r == Judge(s, |c.remain|, c.input.script, max)
    requires c'.end == Running && c'.input.script == c.input.script[1..]
    requires var b := Max(|c.remain|, m);
             && (Joined(c') == Joined(c) <==> m == MaxVarintLen && Commute(s[m..b], s[n..m]))
             && (Joined(c') == Joined(c) ==> c'.remain + c'.input.data == s[n..] && |c'.remain| == b - n)
    ensures Meets(c, c', r)
  {
    assert LenBuf(c) == s[..m] by { HeaderPieces(c); }
    JudgedByLength(s, |c.remain|, c.input.script, max, m, 0, n);
  }

  lemma FrameMeets(c: Call, max: nat)
    requires Ready(c) && Uvarint(LenBuf(c)).1 != 0 && Uvarint(LenBuf(c)).0 > 0 && !(0 < max < Uvarint(LenBuf(c)).0)
    ensures Meets(c, Turn(c, max), Judge(c.remain + c.input.data, |c.remain|, c.input.script, max))
  {
    var s, k := c.remain + c.input.data, |c.remain|;
    var m := Filled(s, k, c.input.script[0]);
    var (v, n) := Uvarint(LenBuf(c));
    BodyTurnMeets(c, max, v, n, m, Turn(c, max), Judge(s, k, c.input.script, max));
  }

  ghost function FrameFate(c: Call, v: nat, n: nat, m: nat): Fate
    requires Ready(c) && n <= MaxVarintLen && m == Filled(c.remain + c.input.data, |c.remain|, c.input.script[0])
  {
    BodyGrants(c.input.script[1..], Max(MaxVarintLen, |c.remain|) - n, v, |c.remain + c.input.data| - Max(|c.remain|, m))
  }

  lemma BodyTurnMeets(c: Call, max: nat, v: nat, n: nat, m: nat, c': Call, r: Verdict)
    requires Ready(c) && Uvarint(LenBuf(c)) == (v, n) && v > 0 && n > 0 && !(0 < max < v)
    requires m == Filled(c.remain + c.input.data, |c.remain|, c.input.script[0])
    requires c' == Turn(c, max) && r == Judge(c.remain + c.input.data, |c.remain|, c.input.script, max)
    ensures Meets(c, c', r)
  {
    var f := FrameFate(c, v, n, m);
    FrameJudged(c, max, v, n, m, f, r);
    FrameOrder(c, max, v, n, m, f, m == MaxVarintLen, c');
    FrameStream(c, max, c');
    BodyMeets(c, c', c.remain + c.input.data, v, n, m == MaxVarintLen, f, r);
  }

  lemma FrameJudged(c: Call, max: nat, v: nat, n: nat, m: nat, f: Fate, r: Verdict)
    requires Ready(c) && Uvarint(LenBuf(c)) == (v, n) && v > 0 && n > 0 && !(0 < max < v)
    requires m == Filled(c.remain + c.input.data, |c.remain|, c.input.script[0]) && f == FrameFate(c, v, n, m)
    requires r == Judge(c.remain + c.input.data, |c.remain|, c.input.script, max)
    ensures f.Enough? && m == MaxVarintLen ==> v <= f.have && n + f.have <= |c.remain + c.input.data|
    ensures r == JudgeBody(c.remain + c.input.data, m == MaxVarintLen, v, n, f)
  {
    assert LenBuf(c) == (c.remain + c.input.data)[..m] by { HeaderPieces(c); }
    JudgedByLength(c.remain + c.input.data, |c.remain|, c.input.script, max, m, v, n);
    JudgedByBody(c.remain + c.input.data, |c.remain|, c.input.script[1..], max, m, v, n, f);
  }

  lemma JudgedByLength(s: Bytes, k: nat, script: seq<Grant>, max: nat, m: nat, v: nat, n: nat)
    requires k <= |s| && script != [] && !script[0].Broken? && m == Filled(s, k, script[0])
    requires Uvarint(s[..m]) == (v, n) && n > 0
    ensures Judge(s, k, script, max) == JudgeLength(s, k, script[1..], max, m, v, n)
  {
  }

  lemma JudgedByBody(s: Bytes, k: nat, script: seq<Grant>, max: nat, m: nat, v: nat, n: nat, f: Fate)
    requires 0 < n <= m <= MaxVarintLen && k <= |s| && m <= |s| && v > 0 && !(0 < max < v)
    requires f == BodyGrants(script, Max(MaxVarintLen, k) - n, v, |s| - Max(k, m))
    ensures f.Enough? && m == MaxVarintLen ==> v <= f.have && n + f.have <= |s|
    ensures JudgeLength(s, k, script, max, m, v, n) == JudgeBody(s, m == MaxVarintLen, v, n, f)
  {
  }

  lemma BodyMeets(c: Call, c': Call, s: Bytes, v: nat, n: nat, full: bool, f: Fate, r: Verdict)
    requires Outcome(f, v, full, c, c') && (f.Enough? && full ==> v <= f.have && n + f.have <= |s|)
    requires c'.end == Running && Joined(c') == Joined(c) ==> n + v <= |s| && c'.remain + c'.input.data == s[n + v..]
    requires r == JudgeBody(s, full, v, n, f)
    ensures Meets(c, c', r)
  {
  }

  lemma {:induction false} OrderIffSteady(c: Call, max: nat)
    requires c.end == Running
    ensures KeepsOrder(c, max) <==> Steady(c.remain + c.input.data, |c.remain|, c.input.script, max)
    decreases |c.input.script|
  {
    TurnMeetsVerdict(c, max);
    if Turn(c, max).end == Running { OrderIffSteady(Turn(c, max), max); }
  }

  lemma SkipOrder(c: Call, max: nat)
    requires Ready(c) && Uvarint(LenBuf(c)).1 > 0 && Uvarint(LenBuf(c)).0 == 0
    ensures var s, k, n, c' := c.remain + c.input.data, |c.remain|, Uvarint(LenBuf(c)).1, Turn(c, max);
            var m := Filled(s, k, c.input.script[0]);
            var b := Max(k, m);
            && n <= m && c'.end == Running && c'.input.script == c.input.script[1..]
            && (Joined(c') == Joined(c) <==> m == MaxVarintLen && Commute(s[m..b], s[n..m]))
            && (Joined(c') == Joined(c) ==> c'.remain + c'.input.data == s[n..] && |c'.remain| == b - n)
  {
    HeaderPieces(c);
    LenBufConserves(c);
    var lenBuf, rest, input := LenBuf(c), c.remain[Min(MaxVarintLen, |c.remain|)..], HeaderRead(c).rest;
    SkipKeepsIff(c, lenBuf, rest, input, max);
    TakenParts(c, lenBuf, rest, input, max);
    var s, k, n, c' := c.remain + c.input.data, |c.remain|, Uvarint(lenBuf).1, Turn(c, max);
    var m := Filled(s, k, c.input.script[0]);
    assert s[..m][n..] == s[n..m];
    if Joined(c') == Joined(c) { StreamAfter(c, c', n); }
  }

  lemma FrameOrder(c: Call, max: nat, v: nat, n: nat, m: nat, f: Fate, full: bool, c': Call)
    requires (full <==> m == MaxVarintLen) && Ready(c)
    requires Uvarint(LenBuf(c)) == (v, n) && v > 0 && n > 0 && !(0 < max < v)
    requires m == Filled(c.remain + c.input.data, |c.remain|, c.input.script[0])
    requires f == FrameFate(c, v, n, m)
    requires c' == Turn(c, max)
    ensures Outcome(f, v, full, c, c')
  {
    var lenBuf, rest, d := LenBuf(c), c.remain[Min(MaxVarintLen, |c.remain|)..], HeaderRead(c).rest.data;
    var c1, e := FrameFinishes(c, max, v, n, m, f, c');
    assert c.remain + c.input.data == lenBuf + rest + d && (|lenBuf| < MaxVarintLen ==> rest == []) by { LenBufConserves(c); }
    FirstByteNotZero(lenBuf);
    FrameKeepsIff(c1, lenBuf, n, rest, d, v, e, f, full, c');
    SameOutcome(f, v, full, c1, c, c');
  }

  lemma FrameFinishes(c: Call, max: nat, v: nat, n: nat, m: nat, f: Fate, c': Call) returns (c1: Call, e: BodyEnd)
    requires Ready(c) && Uvarint(LenBuf(c)) == (v, n) && v > 0 && n > 0 && !(0 < max < v)
    requires m == Filled(c.remain + c.input.data, |c.remain|, c.input.script[0]) && f == FrameFate(c, v, n, m)
    requires c' == Turn(c, max)
    ensures var lenBuf, rest := LenBuf(c), c.remain[Min(MaxVarintLen, |c.remain|)..];
            && c1 == c.(torn := c1.torn) && Joined(c1) == Joined(c) && |lenBuf| == m
            && Fits(e, f, lenBuf[n..] + Zeros(MaxVarintLen - |lenBuf|) + rest, HeaderRead(c).rest.data, v)
            && c' == Finish(c1, lenBuf[..n], v, e)
  {
    var lenBuf, rest, input := LenBuf(c), c.remain[Min(MaxVarintLen, |c.remain|)..], HeaderRead(c).rest;
    var start := lenBuf[n..] + Zeros(MaxVarintLen - |lenBuf|) + rest;
    e := ReadBody(start, v, input);
    c1 := FrameIsFinish(c, max, v, n, e, c');
    FrameFits(c, v, n, m, f, start, e);
  }

  lemma FrameIsFinish(c: Call, max: nat, v: nat, n: nat, e: BodyEnd, c': Call) returns (c1: Call)
    requires Ready(c) && Uvarint(LenBuf(c)) == (v, n) && v > 0 && n > 0 && !(0 < max < v) && c' == Turn(c, max)
    requires e == ReadBody(LenBuf(c)[n..] + Zeros(MaxVarintLen - |LenBuf(c)|) + c.remain[Min(MaxVarintLen, |c.remain|)..],
                           v, HeaderRead(c).rest)
    ensures c1 == c.(torn := c1.torn) && Joined(c1) == Joined(c) && c' == Finish(c1, LenBuf(c)[..n], v, e)
  {
    c1 := TurnIsTake(c, max);
    TakeIsFinish(c1, LenBuf(c), c.remain[Min(MaxVarintLen, |c.remain|)..], HeaderRead(c).rest, max, v, n);
  }

  lemma FrameFits(c: Call, v: nat, n: nat, m: nat, f: Fate, start: Bytes, e: BodyEnd)
    requires Ready(c) && n <= |LenBuf(c)| && m == Filled(c.remain + c.input.data, |c.remain|, c.input.script[0])
    requires f == FrameFate(c, v, n, m)
    requires start == LenBuf(c)[n..] + Zeros(MaxVarintLen - |LenBuf(c)|) + c.remain[Min(MaxVarintLen, |c.remain|)..]
    requires e == ReadBody(start, v, HeaderRead(c).rest)
    ensures |LenBuf(c)| == m && Fits(e, f, start, HeaderRead(c).rest.data, v)
  {
    TurnSizes(c, n, m, start);
    FateOf(start, v, HeaderRead(c).rest, f, e);
  }

  lemma FateOf(start: Bytes, v: nat, input: Input, f: Fate, e: BodyEnd)
    requires f == BodyGrants(input.script, |start|, v, |input.data|) && e == ReadBody(start, v, input)
    ensures Fits(e, f, start, input.data, v)
  {
    ReadBodyFate(start, v, input);
  }

  lemma TurnSizes(c: Call, n: nat, m: nat, start: Bytes)
    requires Ready(c) && n <= |LenBuf(c)| && m == Filled(c.remain + c.input.data, |c.remain|, c.input.script[0])
    requires start == LenBuf(c)[n..] + Zeros(MaxVarintLen - |LenBuf(c)|) + c.remain[Min(MaxVarintLen, |c.remain|)..]
    ensures |LenBuf(c)| == m && |start| == Max(MaxVarintLen, |c.remain|) - n
    ensures HeaderRead(c).rest.script == c.input.script[1..]
    ensures |HeaderRead(c).rest.data| == |c.remain + c.input.data| - Max(|c.remain|, m)
  {
    HeaderPieces(c);
  }

  lemma SameOutcome(f: Fate, v: nat, full: bool, c1: Call, c: Call, c': Call)
    requires Joined(c1) == Joined(c) && Outcome(f, v, full, c1, c')
    ensures Outcome(f, v, full, c, c')
  {
  }

  lemma FrameStream(c: Call, max: nat, c': Call)
    requires Ready(c) && Uvarint(LenBuf(c)).1 > 0 && c' == Turn(c, max)
    ensures var s, (v, n) := c.remain + c.input.data, Uvarint(LenBuf(c));
            c'.end == Running && Joined(c') == Joined(c) ==> n + v <= |s| && c'.remain + c'.input.data == s[n + v..]
  {
    HeaderPieces(c);
    var lenBuf, rest, input := LenBuf(c), c.remain[Min(MaxVarintLen, |c.remain|)..], HeaderRead(c).rest;
    var c1 := c.(torn := c.torn || Tears(lenBuf));
    assert c' == Take(c1, lenBuf, rest, input, max);
    TakenParts(c1, lenBuf, rest, input, max);
    if c'.end == Running && Joined(c') == Joined(c) { StreamAfter(c, c', Uvarint(lenBuf).1 + Uvarint(lenBuf).0); }
  }

  /** A call accounts for its bytes in order at every turn if and only if its input is steady. */
  lemma InOrderIffSteady(remain: Bytes, input: Input, max: nat)
    ensures KeepsOrder(NewCall(remain, input), max) <==> Steady(remain + input.data, |remain|, input.script, max)
  {
    OrderIffSteady(NewCall(remain, input), max);
  }

  /** So a call on steady input that returns has neither lost, added nor moved a byte. */
  lemma SteadyConserves(remain: Bytes, input: Input, max: nat)
    requires Steady(remain + input.data, |remain|, input.script, max) && ReadFrames(remain, input, max).end == Returned
    ensures var c := ReadFrames(remain, input, max);
            remain + input.data == Flatten(c.parts) + c.remain + c.input.data
  {
    InOrderIffSteady(remain, input, max);
    KeptFromStart(remain, input, max);
  }

  /* ---- the two ways in which bytes change places ---- */

  /** The first five buffered bytes are no whole prefix: whatever the reader answers short of failing,
      they are put behind the other buffered bytes, and the call returns. */
  lemma UnfinishedPrefixMoves(remain: Bytes, input: Input, max: nat)
    requires |remain| >= MaxVarintLen && (forall i | 0 <= i < MaxVarintLen :: remain[i] >= 0x80)
    requires input.script != [] && !input.script[0].Broken?
    ensures var c := ReadFrames(remain, input, max);
            && c.end == Returned && c.frames == [] && c.input.data == input.data
            && c.remain == remain[MaxVarintLen..] + remain[..MaxVarintLen]
  {
    var c := NewCall(remain, input);
    assert LenBuf(c) == remain[..MaxVarintLen] && HeaderRead(c).rest.data == input.data;
    NoEnd(LenBuf(c), 0);
  }

  lemma {:induction false} NoEnd(b: Bytes, i: nat)
    requires i + |b| <= 10 && forall x <- b :: x >= 0x80
    ensures Uvarint(b, i) == (0, 0)
    decreases |b|
  {
    if b != [] {
      assert b[0] in b;
      forall x <- b[1..] ensures x >= 0x80 { assert x in b; }
      NoEnd(b[1..], i + 1);
    }
  }

  /** The first buffered byte is a zero length: whatever the reader answers short of failing, the next
      four bytes are put behind the other buffered bytes, and the call goes on. */
  lemma ZeroFrameMoves(remain: Bytes, input: Input, max: nat)
    requires |remain| >= MaxVarintLen && remain[0] == 0 && input.script != [] && !input.script[0].Broken?
    ensures var c := Turn(NewCall(remain, input), max);
            && c.end == Running && c.frames == [] && c.input == Input(input.data, input.script[1..])
            && c.remain == remain[MaxVarintLen..] + remain[1..MaxVarintLen] && !c.torn && !c.cut
  {
    var c := NewCall(remain, input);
    assert LenBuf(c) == remain[..MaxVarintLen] && HeaderRead(c).rest == Input(input.data, input.script[1..]);
    assert LenBuf(c)[1..] + Zeros(0) == remain[1..MaxVarintLen];
  }

  /** Full length buffers and no EOF are thus not enough: here the buffered byte 9 is taken for a
      length, and the frame that comes out holds bytes of two others. */
  lemma ZeroFrameReorders(remain: Bytes, input: Input)
    requires remain == [0, 2, 7, 8, 1, 9] && input == Input([1, 2, 3, 4, 5], [Data(0), Data(0), Data(5)])
    ensures var c := ReadFrames(remain, input, 0);
            c.end == Returned && c.frames == [[2, 7, 8, 1, 1, 2, 3, 4, 5]] && !c.torn && !c.cut
  {
    assert remain[5..] + remain[1..5] == [9, 2, 7, 8, 1];
    ZeroFrameMoves(remain, input, 0);
    ReorderedTurn(Turn(NewCall(remain, input), 0));
  }

  lemma ReorderedTurn(c: Call)
    requires c.end == Running && !c.torn && c.remain == [9, 2, 7, 8, 1] && c.frames == []
    requires c.input == Input([1, 2, 3, 4, 5], [Data(0), Data(5)])
    ensures var c' := Go(c, 0);
            c'.end == Returned && c'.frames == [[2, 7, 8, 1, 1, 2, 3, 4, 5]] && !c'.torn && c'.cut == c.cut
  {
    assert LenBuf(c) == [9, 2, 7, 8, 1] && c.remain[5..] == [];
    assert HeaderRead(c).rest == Input([1, 2, 3, 4, 5], [Data(5)]);
    ReorderedTake(c);
  }

  lemma ReorderedTake(c: Call)
    requires c.end == Running && c.frames == []
    ensures var c' := Take(c, [9, 2, 7, 8, 1], [], Input([1, 2, 3, 4, 5], [Data(5)]), 0);
            c'.end == Returned && c'.frames == [[2, 7, 8, 1, 1, 2, 3, 4, 5]] && c'.cut == c.cut
  {
    var i := Input([1, 2, 3, 4, 5], [Data(5)]);
    assert [9, 2, 7, 8, 1][1..] + Zeros(0) + [] == [2, 7, 8, 1];
    assert ReadChunk(i, 9).bytes == [1, 2, 3, 4, 5];
    var whole: Bytes := [2, 7, 8, 1, 1, 2, 3, 4, 5];
    assert ReadBody([2, 7, 8, 1], 9, i).buf == whole;
    assert whole[..9] == whole;
  }

  /** That input is not steady. */
  lemma ReorderJudged()
    ensures !Steady([0, 2, 7, 8, 1, 9, 1, 2, 3, 4, 5], 6, [Data(0), Data(0), Data(5)], 0)
  {
    var s: Bytes := [0, 2, 7, 8, 1, 9, 1, 2, 3, 4, 5];
    assert s[..5] == [0, 2, 7, 8, 1] && s[5..6] == [9] && s[1..5] == [2, 7, 8, 1];
    assert ([9] + [2, 7, 8, 1])[0] == 9 && ([2, 7, 8, 1] + [9])[0] == 2;
  }
}
