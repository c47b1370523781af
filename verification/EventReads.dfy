/** Server-sent events read in any pieces: a read that ends inside a line is parsed as if the line
    ended there, and the next one as if a line began there (clientsseconnection.go). */
module EventReads {
  import opened Splitting
  import opened ServerSentEvents

  /* ---- one line cut in two ---- */

  predicate AllBlank(s: string) { TrimRight(s) == "" }

  /** The beginning of a data line, or of an empty line. */
  predicate LineStart(s: string) { s <= DataLine("") || DataLine("") <= s }

  lemma {:induction false} TrimLeftShortens(s: string)
    ensures |TrimRight(TrimLeft(s))| <= |TrimRight(s)|
  {
    if s != "" && Blank(s[0]) {
      TrimLeftShortens(s[1..]);
      assert s == s[..1] + s[1..];
      TrimRightAppend(s[..1], s[1..]);
    }
  }

  /** A line adds less than it holds. */
  lemma ParsesShorter(s: string)
    ensures if AllBlank(s) then ParseLine(s) == "" else |ParseLine(s)| < |TrimRight(s)|
  {
    TrimLeftShortens(s);
  }

  /** Inside the field name nothing is parsed, on either side of the cut. */
  lemma NotYetAField(t: string)
    requires t != "" && t <= DataLine("")
    ensures ParseLine(t) == ""
  {
    assert t[0] == 'd' && TrimLeft(t) == t;
    if t == DataLine("") {
      assert t == Field + " ";
      TrimRightAppend(Field, " ");
      assert TrimRight(Field) == Field && TrimRight(" ") == "";
    } else if |t| == |Field| {
      assert t == Field && TrimRight(Field) == Field;
    } else {
      TrimShortens(t);
    }
  }

  /** What follows the first letters of the field name is no field. */
  lemma NotAField(c: string)
    requires c != "" && c[0] in {'a', 't', ':'}
    ensures ParseLine(c) == ""
  {
    assert TrimLeft(c) == c;
    TrimIsPrefix(c);
  }

  lemma {:induction false} TrimIsPrefix(s: string)
    ensures TrimRight(s) <= s
  {
    if s != "" && Blank(s[|s| - 1]) { TrimIsPrefix(s[..|s| - 1]); }
  }

  /** A cut in the content loses what is behind it. */
  lemma ContentCut(x: string, c: string)
    ensures ParseLine(DataLine(x + c)) == TrimRight(x + c) && ParseLine(DataLine(x)) == TrimRight(x)
    ensures AllBlank(c) ==> TrimRight(x + c) == TrimRight(x) && ParseLine(c) == ""
    ensures !AllBlank(c) ==> |TrimRight(x)| + |ParseLine(c)| < |TrimRight(x + c)|
  {
    LineBack(x + c);
    LineBack(x);
    TrimRightAppend(x, c);
    TrimShortens(x);
    ParsesShorter(c);
  }

  /** A cut inside the field name, or right behind it, loses the whole content. */
  lemma FieldCut(t: string, c: string, x: string)
    requires t != "" && t <= Field && t + c == DataLine(x)
    ensures ParseLine(t) == "" && (AllBlank(x) ==> ParseLine(c) == "") && (!AllBlank(x) ==> |ParseLine(c)| < |TrimRight(x)|)
  {
    NotYetAField(t);
    BehindCut(t, c, x);
    if |t| < |Field| {
      NotAField(c);
      LengthPositive(x);
    } else {
      SpaceBefore(x);
      ParsesShorter(x);
    }
  }

  lemma LengthPositive(x: string)
    ensures !AllBlank(x) ==> 0 < |TrimRight(x)|
  {
  }

  lemma BehindCut(t: string, c: string, x: string)
    requires t != "" && t <= Field && t + c == DataLine(x)
    ensures if |t| < |Field| then c != "" && c[0] in {'a', 't', ':'} else c == " " + x
  {
    if |t| < |Field| {
      assert c[0] == (t + c)[|t|] == Field[|t|];
    } else {
      assert t == Field && DataLine(x) == Field + (" " + x);
      assert c == (t + c)[|t|..];
    }
  }

  lemma SpaceBefore(x: string)
    ensures ParseLine(" " + x) == ParseLine(x)
  {
    assert (" " + x)[1..] == x;
  }

  predicate Harmless(t: string, r: string) { t == "" || AllBlank(r) || ParseLine(t + r) == "" }

  /** Cutting a line never adds anything, and leaves it as it is exactly when the cut is harmless. */
  lemma CutLine(t: string, r: string)
    requires LineStart(t + r)
    ensures |ParseLine(t)| + |ParseLine(r)| <= |ParseLine(t + r)|
    ensures Harmless(t, r) ==> ParseLine(t) + ParseLine(r) == ParseLine(t + r)
    ensures !Harmless(t, r) ==> |ParseLine(t)| + |ParseLine(r)| < |ParseLine(t + r)|
  {
    var u := t + r;
    if t == "" {
      assert u == r;
    } else if !(DataLine("") <= u) {
      ShortCut(t, r);
    } else {
      var x := u[|DataLine("")|..];
      assert u == DataLine(x);
      if |t| <= |Field| { EarlyCut(t, r, x); } else { LateCut(t, r, x); }
    }
  }

  lemma EarlyCut(t: string, r: string, x: string)
    requires t != "" && |t| <= |Field| && t + r == DataLine(x)
    ensures Harmless(t, r) <==> AllBlank(x)
    ensures AllBlank(x) ==> ParseLine(t) == "" && ParseLine(r) == "" && ParseLine(t + r) == ""
    ensures !AllBlank(x) ==> |ParseLine(t)| + |ParseLine(r)| < |ParseLine(t + r)|
  {
    assert t == DataLine(x)[..|t|] && t <= Field;
    LineBack(x);
    FieldCut(t, r, x);
    BlankRest(t, r, x);
  }

  lemma LateCut(t: string, r: string, x: string)
    requires |t| > |Field| && t + r == DataLine(x)
    ensures Harmless(t, r) <==> AllBlank(r)
    ensures AllBlank(r) ==> ParseLine(r) == "" && ParseLine(t + r) == ParseLine(t)
    ensures !AllBlank(r) ==> |ParseLine(t)| + |ParseLine(r)| < |ParseLine(t + r)|
  {
    var x1 := t[|DataLine("")|..];
    assert t == DataLine(x1) && x == x1 + r by { assert t == DataLine(x)[..|t|] && r == DataLine(x)[|t|..]; }
    ContentCut(x1, r);
  }

  lemma ShortCut(t: string, r: string)
    requires t != "" && t + r <= DataLine("") && !(DataLine("") <= t + r)
    ensures ParseLine(t) == "" && ParseLine(r) == "" && ParseLine(t + r) == ""
  {
    NotYetAField(t);
    NotYetAField(t + r);
    assert DataLine("")[1..5] == "ata:" && |DataLine("")| == 6;
    if r != "" {
      assert r[0] == (t + r)[|t|] == DataLine("")[|t|];
      NotAField(r);
    }
  }

  /** Behind a cut inside the field name the rest is blank only if the content is. */
  lemma BlankRest(t: string, r: string, x: string)
    requires t != "" && |t| <= |Field| && t + r == DataLine(x)
    ensures AllBlank(r) ==> AllBlank(x)
  {
    var s := DataLine("")[|t|..];
    assert r == s + x by { assert r == DataLine(x)[|t|..]; }
    TrimRightAppend(s, x);
  }

  /* ---- a read behind a cut ---- */

  /** A partial line goes before the first line of what follows. */
  lemma {:induction false} LinesGlue(t: string, c: string)
    requires NL !in t
    ensures Lines(t + c) == [t + Lines(c)[0]] + Lines(c)[1..]
    decreases |c|
  {
    if c == "" {
      assert t + c == t;
      SplitClean(t, NL);
      assert t + "" == t;
    } else {
      var init := c[..|c| - 1];
      LinesGlue(t, init);
      assert (t + c)[..|t + c| - 1] == t + init;
      LinesStep(t + c);
      LinesStep(c);
      GlueStep(t, Lines(init), Lines(t + init), c[|c| - 1]);
    }
  }

  function MoreLines(ls: seq<string>, ch: char): seq<string>
    requires ls != []
  {
    if ch == NL then ls + [""] else ls[..|ls| - 1] + [ls[|ls| - 1] + [ch]]
  }

  lemma GlueStep(t: string, ls: seq<string>, gs: seq<string>, ch: char)
    requires ls != [] && gs == [t + ls[0]] + ls[1..]
    ensures MoreLines(gs, ch) == [t + MoreLines(ls, ch)[0]] + MoreLines(ls, ch)[1..]
  {
    var n, a, b := |ls|, MoreLines(ls, ch), MoreLines(gs, ch);
    if ch != NL && n == 1 {
      assert gs[0] + [ch] == t + (ls[0] + [ch]);
      assert a == [ls[0] + [ch]] && b == [gs[0] + [ch]];
    } else if ch != NL {
      assert a[1..] == ls[1..n - 1] + [ls[n - 1] + [ch]];
      assert b == [gs[0]] + ls[1..n - 1] + [ls[n - 1] + [ch]];
    } else {
      assert a[1..] == ls[1..] + [""] && b == [gs[0]] + ls[1..] + [""];
    }
  }

  lemma LinesStep(s: string)
    requires s != ""
    ensures Lines(s) == MoreLines(Lines(s[..|s| - 1]), s[|s| - 1])
  {
    var init := s[..|s| - 1];
    assert Lines(init)[..|Frames(init, NL)|] == Frames(init, NL);
  }

  lemma ParseReadGlued(t: string, c: string)
    requires NL !in t
    ensures var rest := Concat(Map(Lines(c)[1..], ParseLine));
            ParseRead(t + c) == ParseLine(t + Lines(c)[0]) + rest && ParseRead(c) == ParseLine(Lines(c)[0]) + rest
  {
    var first, more := Lines(c)[0], Lines(c)[1..];
    LinesGlue(t, c);
    ParseAppend([t + first], more);
    ParseAppend([first], more);
    assert [first] + more == Lines(c);
    OneLine(t + first, ParseLine);
    OneLine(first, ParseLine);
  }

  /** What a text and one more read parse to, together and one after the other. */
  lemma ParseReadAppend(a: string, c: string)
    ensures var t, before := Tail(a, NL), Concat(Map(Frames(a, NL), ParseLine));
            && NL !in t && ParseRead(a) == before + ParseLine(t) && ParseRead(a + c) == before + ParseRead(t + c)
  {
    var t := Tail(a, NL);
    assert NL !in t by { SplitConserves(a, NL); }
    ParseAppend(Frames(a, NL), [t]);
    OneLine(t, ParseLine);
    LinesAppend(a, c);
    ParseAppend(Frames(a, NL), Lines(t + c));
  }

  lemma LinesAppend(a: string, c: string)
    ensures Lines(a + c) == Frames(a, NL) + Lines(Tail(a, NL) + c)
  {
    SplitAppend(a, c, NL);
    var t := Tail(a, NL) + c;
    AssocLines(Frames(a, NL), Frames(t, NL), [Tail(t, NL)]);
  }

  lemma AssocLines(a: seq<string>, b: seq<string>, c: seq<string>)
    ensures a + b + c == a + (b + c)
  {
  }

  /** The cut between `a` and the next read `c` does no harm: `a` ends a line, or only blanks follow
      on the line or in the read, or there is no content on the line so far. */
  predicate CutOk(a: string, c: string) { Harmless(Tail(a, NL), Lines(c)[0]) }

  predicate CutAt(chunks: seq<string>, k: nat)
    requires 0 < k < |chunks|
  {
    CutOk(Concat(chunks[..k]), chunks[k])
  }

  predicate CutsOk(chunks: seq<string>) { forall k | 0 < k < |chunks| :: CutAt(chunks, k) }

  lemma CutRead(a: string, c: string)
    requires LineStart(Tail(a, NL) + Lines(c)[0])
    ensures |ParseRead(a)| + |ParseRead(c)| <= |ParseRead(a + c)|
    ensures CutOk(a, c) ==> ParseRead(a) + ParseRead(c) == ParseRead(a + c)
    ensures !CutOk(a, c) ==> |ParseRead(a)| + |ParseRead(c)| < |ParseRead(a + c)|
  {
    var t, first := Tail(a, NL), Lines(c)[0];
    var before, rest := Concat(Map(Frames(a, NL), ParseLine)), Concat(Map(Lines(c)[1..], ParseLine));
    ParseReadAppend(a, c);
    ParseReadGlued(t, c);
    CutLine(t, first);
    Regroup(before, ParseLine(t), ParseLine(first), rest);
  }

  lemma Regroup(a: string, b: string, c: string, d: string)
    ensures a + b + (c + d) == a + (b + c + d)
  {
  }

  /* ---- printed text ---- */

  predicate Printed(s: string) { forall l <- Lines(s) :: LineStart(l) }

  lemma PrefixPrinted(a: string, b: string)
    requires Printed(a + b)
    ensures Printed(a)
  {
    var t := Tail(a, NL);
    SplitConserves(a, NL);
    LinesAppend(a, b);
    LinesGlue(t, b);
    var first := t + Lines(b)[0];
    assert first in Lines(t + b) && LineStart(first);
    assert t <= first;
    forall l <- Lines(a) ensures LineStart(l) {
      if l in Frames(a, NL) { assert l in Lines(a + b); }
    }
  }

  lemma NextPrinted(a: string, c: string)
    requires Printed(a + c)
    ensures LineStart(Tail(a, NL) + Lines(c)[0])
  {
    var t := Tail(a, NL);
    SplitConserves(a, NL);
    LinesAppend(a, c);
    LinesGlue(t, c);
    assert t + Lines(c)[0] in Lines(a + c);
  }

  /** Reads of a printed text never add anything to it, and give it exactly when every cut is ok. */
  lemma {:induction false} ReadsGiveTextIff(chunks: seq<string>)
    requires Printed(Concat(chunks))
    ensures |ParseReads(chunks)| <= |ParseRead(Concat(chunks))|
    ensures ParseReads(chunks) == ParseRead(Concat(chunks))
            <==> CutsOk(chunks)
    decreases |chunks|
  {
    if chunks == [] {
      OneLine("", ParseLine);
      assert Lines("") == [""];
      EmptyLine();
    } else {
      var n := |chunks| - 1;
      var init, a, c := chunks[..n], Concat(chunks[..n]), chunks[n];
      PrefixPrinted(a, c);
      NextPrinted(a, c);
      ReadsGiveTextIff(init);
      CutRead(a, c);
      LastRead(chunks, n);
      OneMoreCut(chunks, n);
      Compare(ParseReads(init), ParseRead(a), ParseRead(c), ParseRead(a + c), CutsOk(init), CutOk(a, c));
    }
  }

  lemma LastRead(chunks: seq<string>, n: nat)
    requires |chunks| == n + 1
    ensures ParseReads(chunks) == ParseReads(chunks[..n]) + ParseRead(chunks[n])
    ensures Concat(chunks) == Concat(chunks[..n]) + chunks[n]
  {
    LastMapped(chunks, n, ParseRead);
  }

  /** `p` is what the reads before gave of `t`, and `w` what `t` and `c` belong to. */
  lemma Compare(p: string, t: string, c: string, w: string, before: bool, ok: bool)
    requires |p| <= |t| && (p == t <==> before)
    requires if ok then t + c == w else |t| + |c| < |w|
    ensures |p + c| <= |w| && (p + c == w <==> before && ok)
  {
    if ok && p + c == w {
      assert |p| == |t| && p == (p + c)[..|p|] && t == (t + c)[..|t|];
    }
  }

  lemma OneMoreCut(chunks: seq<string>, n: nat)
    requires |chunks| == n + 1
    ensures CutsOk(chunks) <==> CutsOk(chunks[..n]) && CutOk(Concat(chunks[..n]), chunks[n])
  {
    var init := chunks[..n];
    if n == 0 { assert Concat(init) == "" && CutOk("", chunks[0]); }
    forall k | 0 < k < n ensures CutAt(init, k) <==> CutAt(chunks, k) { assert init[..k] == chunks[..k]; }
    assert n > 0 ==> (CutAt(chunks, n) <==> CutOk(Concat(init), chunks[n]));
  }

  /* ---- events ---- */

  lemma LinesPrinted(p: string)
    ensures forall l <- EventLines(p) :: LineStart(l)
  {
    forall l <- EventLines(p) ensures LineStart(l) {
      var i :| 0 <= i < |EventLines(p)| && EventLines(p)[i] == l;
      if i < |EventLines(p)| - 1 { assert l == DataLine(Lines(TrimNewlines(p))[i]) && DataLine("") == Field + " "; }
    }
  }

  lemma {:induction false} AllLinesPrinted(ps: seq<string>)
    ensures forall l <- AllLines(ps) :: LineStart(l)
    decreases |ps|
  {
    if ps != [] {
      AllLinesPrinted(ps[..|ps| - 1]);
      LinesPrinted(ps[|ps| - 1]);
    }
  }

  lemma EventsPrinted(ps: seq<string>)
    ensures Printed(Concat(Map(ps, Event))) && ParseRead(Concat(Map(ps, Event))) == Concat(Map(ps, Content))
  {
    var ls, s := AllLines(ps), Concat(Map(ps, Event));
    StreamIsAllLines(ps);
    AllLinesClean(ps);
    SplitIsUnique(ls, "", NL);
    assert Join(ls, NL) + "" == s;
    assert Lines(s) == ls + [""];
    AllLinesPrinted(ps);
    EmptyLineLast(ls);
    AllLinesParse(ps);
  }

  /** However the printed events are divided into reads, the client writes exactly the contents of the
      payloads, in order, if and only if every cut between two reads is ok. */
  lemma EventsArriveIff(ps: seq<string>, chunks: seq<string>)
    requires Concat(chunks) == Concat(Map(ps, Event))
    ensures ParseReads(chunks) == Concat(Map(ps, Content)) <==> forall k | 0 < k < |chunks| :: CutAt(chunks, k)
  {
    EventsPrinted(ps);
    ReadsGiveTextIff(chunks);
  }
}
