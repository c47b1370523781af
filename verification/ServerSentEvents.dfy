/** Server-sent events: the printer of the server (serversseconnection.go, Write) and the parser of
    the client (clientsseconnection.go). */
module ServerSentEvents {
  import opened Splitting

  const NL := '\n'

  predicate Blank(c: char) { c == '\r' || c == '\t' || c == ' ' }

  /** strings.Split(s, "\n") */
  function Lines(s: string): (ls: seq<string>)
    ensures |ls| >= 1
  {
    Frames(s, NL) + [Tail(s, NL)]
  }

  /** strings.TrimRight(s, "\n") */
  function TrimNewlines(s: string): string {
    if s != "" && s[|s| - 1] == NL then TrimNewlines(s[..|s| - 1]) else s
  }

  function TrimRight(s: string): string {
    if s != "" && Blank(s[|s| - 1]) then TrimRight(s[..|s| - 1]) else s
  }

  function TrimLeft(s: string): string {
    if s != "" && Blank(s[0]) then TrimLeft(s[1..]) else s
  }

  function Concat(ss: seq<string>): string {
    if ss == [] then "" else Concat(ss[..|ss| - 1]) + ss[|ss| - 1]
  }

  lemma {:induction false} ConcatAppend(a: seq<string>, b: seq<string>)
    ensures Concat(a + b) == Concat(a) + Concat(b)
    decreases |b|
  {
    if b == [] {
      assert a + b == a && Concat(a) + "" == Concat(a);
    } else {
      var init, last, all := b[..|b| - 1], b[|b| - 1], a + b;
      ConcatAppend(a, init);
      assert all[..|all| - 1] == a + init && all[|all| - 1] == last;
      assert Concat(all) == Concat(a + init) + last;
      assert Concat(a) + Concat(init) + last == Concat(a) + (Concat(init) + last);
    }
  }

  function Map(ss: seq<string>, f: string -> string): seq<string> { seq(|ss|, i requires 0 <= i < |ss| => f(ss[i])) }

  lemma ConcatOneMore(ss: seq<string>, i: nat, f: string -> string)
    requires i < |ss|
    ensures Concat(Map(ss[..i + 1], f)) == Concat(Map(ss[..i], f)) + f(ss[i])
  {
    assert Map(ss[..i + 1], f)[..i] == Map(ss[..i], f);
  }

  /* ---- server ---- */

  const Field := "data:"

  function DataLine(line: string): string { Field + " " + line }

  /** The lines of one event: a data line for every line of the payload and an empty one. */
  function EventLines(p: string): seq<string> { Map(Lines(TrimNewlines(p)), DataLine) + [""] }

  /** What Write hands to the response for payload `p`. */
  function Event(p: string): string { Join(EventLines(p), NL) }

  /* ---- client ---- */

  /** What one line adds to the pipe. */
  function ParseLine(line: string): string {
    var t := TrimRight(TrimLeft(line));
    if !(Field <= t) then ""
    else if |t| > |Field| && t[|Field|] == ' ' then t[|Field| + 1..] else t[|Field|..]
  }

  /** What one read adds to the pipe. */
  function ParseRead(chunk: string): string { Concat(Map(Lines(chunk), ParseLine)) }

  function ParseReads(chunks: seq<string>): string { Concat(Map(chunks, ParseRead)) }

  /* ---- one line ---- */

  lemma {:induction false} TrimRightAppend(a: string, b: string)
    ensures TrimRight(a + b) == if TrimRight(b) == "" then TrimRight(a) else a + TrimRight(b)
    decreases |b|
  {
    if b == "" {
      assert a + b == a;
    } else if Blank(b[|b| - 1]) {
      TrimRightAppend(a, b[..|b| - 1]);
      assert (a + b)[..|a + b| - 1] == a + b[..|b| - 1];
    }
  }

  lemma LineBack(line: string)
    ensures ParseLine(DataLine(line)) == TrimRight(line)
  {
    var d := DataLine(line);
    assert d[0] == 'd';
    assert TrimLeft(d) == d;
    TrimRightAppend(Field + " ", line);
    if TrimRight(line) == "" {
      assert (Field + " ")[..|Field|] == Field;
      assert TrimRight(d) == Field;
    } else {
      assert TrimRight(d) == Field + " " + TrimRight(line);
    }
  }

  /* ---- what arrives ---- */

  /** What the client makes of payload `p`: its lines without trailing blanks, run together. */
  function Content(p: string): string { Concat(Map(Lines(TrimNewlines(p)), TrimRight)) }

  lemma {:induction false} ParseDataLines(ls: seq<string>)
    ensures Concat(Map(Map(ls, DataLine), ParseLine)) == Concat(Map(ls, TrimRight))
    decreases |ls|
  {
    var a, b := Map(Map(ls, DataLine), ParseLine), Map(ls, TrimRight);
    forall i | 0 <= i < |ls| ensures a[i] == b[i] { LineBack(ls[i]); }
    assert a == b;
  }

  lemma MapAppend(a: seq<string>, b: seq<string>, f: string -> string)
    ensures Map(a + b, f) == Map(a, f) + Map(b, f)
  {
  }

  /** The lines a client parses out of events `ps`. */
  function AllLines(ps: seq<string>): seq<string> {
    if ps == [] then [] else AllLines(ps[..|ps| - 1]) + EventLines(ps[|ps| - 1])
  }

  lemma EventLinesParse(p: string)
    ensures Concat(Map(EventLines(p), ParseLine)) == Content(p)
  {
    var ls := Lines(TrimNewlines(p));
    EmptyLineLast(Map(ls, DataLine));
    ParseDataLines(ls);
  }

  lemma OneLine(l: string, f: string -> string)
    ensures Concat(Map([l], f)) == f(l)
  {
    ConcatOneMore([l], 0, f);
    assert [l][..1] == [l] && Map([l][..0], f) == [];
    assert "" + f(l) == f(l);
  }

  lemma EmptyLine()
    ensures ParseLine("") == ""
  {
  }

  /** An empty line at the end adds nothing. */
  lemma EmptyLineLast(ls: seq<string>)
    ensures Concat(Map(ls + [""], ParseLine)) == Concat(Map(ls, ParseLine))
  {
    ParseAppend(ls, [""]);
    OneLine("", ParseLine);
    EmptyLine();
    assert Concat(Map(ls, ParseLine)) + "" == Concat(Map(ls, ParseLine));
  }

  lemma {:induction false} AllLinesParse(ps: seq<string>)
    ensures Concat(Map(AllLines(ps), ParseLine)) == Concat(Map(ps, Content))
    decreases |ps|
  {
    if ps != [] {
      var init, p := ps[..|ps| - 1], ps[|ps| - 1];
      AllLinesParse(init);
      MapAppend(AllLines(init), EventLines(p), ParseLine);
      ConcatAppend(Map(AllLines(init), ParseLine), Map(EventLines(p), ParseLine));
      EventLinesParse(p);
      assert Map(ps, Content)[..|ps| - 1] == Map(init, Content);
    }
  }

  /* ---- the stream and its reads ---- */

  lemma EventLinesClean(p: string)
    ensures AllClean(EventLines(p), NL)
  {
    var ls := Lines(TrimNewlines(p));
    SplitConserves(TrimNewlines(p), NL);
    forall i | 0 <= i < |ls| ensures NL !in DataLine(ls[i]) { assert ls[i] in ls; DataLineClean(ls[i]); }
    DataLinesClean(ls);
  }

  lemma DataLineClean(l: string)
    requires NL !in l
    ensures NL !in DataLine(l)
  {
    assert NL !in Field && NL !in " ";
  }

  lemma DataLinesClean(ls: seq<string>)
    requires forall i | 0 <= i < |ls| :: NL !in DataLine(ls[i])
    ensures AllClean(Map(ls, DataLine) + [""], NL)
  {
  }

  lemma {:induction false} AllLinesClean(ps: seq<string>)
    ensures AllClean(AllLines(ps), NL)
    decreases |ps|
  {
    if ps != [] {
      AllLinesClean(ps[..|ps| - 1]);
      EventLinesClean(ps[|ps| - 1]);
    }
  }

  lemma {:induction false} JoinConcat(a: seq<string>, b: seq<string>)
    ensures Join(a + b, NL) == Join(a, NL) + Join(b, NL)
    decreases |b|
  {
    if b == [] {
      assert a + b == a;
      assert Join(a, NL) + "" == Join(a, NL);
    } else {
      var init, l := b[..|b| - 1], b[|b| - 1];
      JoinConcat(a, init);
      assert b == init + [l] && a + b == a + init + [l];
      JoinAppend(a + init, l, NL);
      JoinAppend(init, l, NL);
      assert Join(a, NL) + Join(init, NL) + l + [NL] == Join(a, NL) + (Join(init, NL) + l + [NL]);
    }
  }

  lemma {:induction false} StreamIsAllLines(ps: seq<string>)
    ensures Concat(Map(ps, Event)) == Join(AllLines(ps), NL)
    decreases |ps|
  {
    if ps != [] {
      var n := |ps| - 1;
      StreamIsAllLines(ps[..n]);
      JoinConcat(AllLines(ps[..n]), EventLines(ps[n]));
      LastMapped(ps, n, Event);
    }
  }

  lemma LastMapped(ss: seq<string>, n: nat, f: string -> string)
    requires |ss| == n + 1
    ensures Concat(Map(ss, f)) == Concat(Map(ss[..n], f)) + f(ss[n])
  {
    assert ss[..n + 1] == ss;
    ConcatOneMore(ss, n, f);
  }

  /** Every read ends after a newline. */
  predicate WholeLines(chunks: seq<string>) { forall c <- chunks :: c != "" && c[|c| - 1] == NL }

  lemma ParseAppend(a: seq<string>, b: seq<string>)
    ensures Concat(Map(a + b, ParseLine)) == Concat(Map(a, ParseLine)) + Concat(Map(b, ParseLine))
  {
    MapAppend(a, b, ParseLine);
    ConcatAppend(Map(a, ParseLine), Map(b, ParseLine));
  }

  /** Reads of whole lines parse to what the lines of the whole stream parse to. */
  lemma {:induction false} ReadsParse(chunks: seq<string>)
    requires WholeLines(chunks)
    ensures Tail(Concat(chunks), NL) == ""
    ensures ParseReads(chunks) == Concat(Map(Frames(Concat(chunks), NL), ParseLine))
    decreases |chunks|
  {
    if chunks != [] {
      var init, c := chunks[..|chunks| - 1], chunks[|chunks| - 1];
      assert c in chunks && WholeLines(init);
      ReadsParse(init);
      var s := Concat(init);
      SplitAppend(s, c, NL);
      assert Tail(s, NL) + c == c;
      ReadParse(c);
      ParseAppend(Frames(s, NL), Frames(c, NL));
      LastMapped(chunks, |chunks| - 1, ParseRead);
    }
  }

  lemma ReadParse(c: string)
    requires c != "" && c[|c| - 1] == NL
    ensures ParseRead(c) == Concat(Map(Frames(c, NL), ParseLine))
  {
    assert Tail(c, NL) == "";
    EmptyLineLast(Frames(c, NL));
  }

  /** However the printed events are divided into reads of whole lines, the client writes the
      contents of the payloads, in order. */
  lemma EventsArrive(ps: seq<string>, chunks: seq<string>)
    requires WholeLines(chunks) && Concat(chunks) == Concat(Map(ps, Event))
    ensures ParseReads(chunks) == Concat(Map(ps, Content))
  {
    ReadsParse(chunks);
    StreamIsAllLines(ps);
    AllLinesClean(ps);
    SplitIsUnique(AllLines(ps), "", NL);
    assert Join(AllLines(ps), NL) + "" == Join(AllLines(ps), NL);
    AllLinesParse(ps);
  }

  /** The client reads into a buffer of this size. */
  const ReadSize := 0x8000

  predicate Fits(chunks: seq<string>) { forall c <- chunks :: |c| <= ReadSize }

  function Ended(line: string): string { line + [NL] }

  lemma {:induction false} LinesOneByOne(ls: seq<string>)
    ensures Concat(Map(ls, Ended)) == Join(ls, NL)
    decreases |ls|
  {
    if ls != [] {
      var k := |ls| - 1;
      LinesOneByOne(ls[..k]);
      ConcatOneMore(ls, k, Ended);
      assert ls[..k + 1] == ls;
    }
  }

  /** Every line lies within one read of whole lines. */
  lemma {:induction false} LinesWithinReads(chunks: seq<string>)
    requires WholeLines(chunks) && Fits(chunks)
    ensures Tail(Concat(chunks), NL) == ""
    ensures forall l <- Frames(Concat(chunks), NL) :: |l| < ReadSize
    decreases |chunks|
  {
    if chunks != [] {
      var init, c := chunks[..|chunks| - 1], chunks[|chunks| - 1];
      assert c in chunks && WholeLines(init) && Fits(init);
      LinesWithinReads(init);
      var s := Concat(init);
      SplitAppend(s, c, NL);
      assert Tail(s, NL) + c == c;
      SplitConserves(c, NL);
      PartsAreShorter(Frames(c, NL), Tail(c, NL), NL);
    }
  }

  lemma LineByLine(ls: seq<string>)
    requires forall l <- ls :: |l| < ReadSize
    ensures WholeLines(Map(ls, Ended)) && Fits(Map(ls, Ended))
  {
    var chunks := Map(ls, Ended);
    forall c <- chunks ensures c != "" && c[|c| - 1] == NL && |c| <= ReadSize {
      var i :| 0 <= i < |chunks| && chunks[i] == c;
      assert c == Ended(ls[i]) && ls[i] in ls;
    }
  }

  /** The events can be read in whole lines if and only if every printed line, newline included, fits
      the read buffer; a longer one is always cut. */
  lemma ReadableIff(ps: seq<string>)
    ensures (exists chunks :: WholeLines(chunks) && Fits(chunks) && Concat(chunks) == Concat(Map(ps, Event)))
            <==> forall l <- AllLines(ps) :: |l| < ReadSize
  {
    var ls := AllLines(ps);
    StreamIsAllLines(ps);
    AllLinesClean(ps);
    SplitIsUnique(ls, "", NL);
    assert Join(ls, NL) + "" == Join(ls, NL);
    if forall l <- ls :: |l| < ReadSize {
      LinesOneByOne(ls);
      LineByLine(ls);
    }
    if chunks :| WholeLines(chunks) && Fits(chunks) && Concat(chunks) == Concat(Map(ps, Event)) {
      LinesWithinReads(chunks);
    }
  }

  /* ---- when content and payload are the same ---- */

  lemma {:induction false} TrimShortens(s: string)
    ensures |TrimRight(s)| <= |s| && |TrimNewlines(s)| <= |s|
    ensures TrimNewlines(s) == s || |TrimNewlines(s)| < |s|
  {
    if s != "" { TrimShortens(s[..|s| - 1]); }
  }

  lemma {:induction false} LinesLength(frames: seq<string>)
    ensures |Concat(Map(frames, TrimRight))| + |frames| <= |Join(frames, NL)|
    decreases |frames|
  {
    if frames != [] {
      var init, f := frames[..|frames| - 1], frames[|frames| - 1];
      LinesLength(init);
      TrimShortens(f);
      assert Map(frames, TrimRight)[..|frames| - 1] == Map(init, TrimRight);
    }
  }

  lemma ContentParts(p: string)
    ensures var q := TrimNewlines(p);
            Content(p) == Concat(Map(Frames(q, NL), TrimRight)) + TrimRight(Tail(q, NL))
  {
    var q := TrimNewlines(p);
    ConcatOneMore(Lines(q), |Frames(q, NL)|, TrimRight);
    assert Lines(q)[..|Lines(q)|] == Lines(q);
  }

  lemma ContentLength(p: string)
    ensures |Content(p)| + |Frames(TrimNewlines(p), NL)| <= |TrimNewlines(p)|
  {
    var q := TrimNewlines(p);
    ContentParts(p);
    SplitConserves(q, NL);
    LinesLength(Frames(q, NL));
    TrimShortens(Tail(q, NL));
  }

  /** A payload arrives unchanged exactly when it has no newline and no blank at its end. */
  lemma ArrivesUnchangedIff(p: string)
    ensures Content(p) == p <==> NL !in p && TrimRight(p) == p
  {
    TrimShortens(p);
    if NL in p {
      ContentLength(p);
      if Frames(p, NL) == [] { NoFramesNoCut(p, NL); SplitConserves(p, NL); }
    } else {
      SplitClean(p, NL);
      ContentParts(p);
      assert Concat(Map([], TrimRight)) == "";
    }
  }

  lemma CleanPayloadsArrive(ps: seq<string>, chunks: seq<string>)
    requires WholeLines(chunks) && Concat(chunks) == Concat(Map(ps, Event))
    requires forall p <- ps :: NL !in p && TrimRight(p) == p
    ensures ParseReads(chunks) == Concat(ps)
  {
    EventsArrive(ps, chunks);
    forall i | 0 <= i < |ps| ensures Map(ps, Content)[i] == ps[i] { ArrivesUnchangedIff(ps[i]); }
    assert Map(ps, Content) == ps;
  }

  /* ---- the loops of the source ---- */

  method WriteEvent(p: string) returns (job: string)
    ensures job == Event(p)
  {
    var lines := Lines(TrimNewlines(p));
    var payload := "";
    for i := 0 to |lines|
      invariant payload == Join(Map(lines[..i], DataLine), NL)
    {
      assert Map(lines[..i + 1], DataLine) == Map(lines[..i], DataLine) + [DataLine(lines[i])];
      JoinAppend(Map(lines[..i], DataLine), DataLine(lines[i]), NL);
      payload := payload + (DataLine(lines[i]) + [NL]);
    }
    assert lines[..|lines|] == lines;
    JoinAppend(Map(lines, DataLine), "", NL);
    job := payload + [NL];
  }

  method HandleRead(chunk: string) returns (out: string)
    ensures out == ParseRead(chunk)
  {
    out := "";
    var lines := Lines(chunk);
    for i := 0 to |lines|
      invariant out == Concat(Map(lines[..i], ParseLine))
    {
      ConcatOneMore(lines, i, ParseLine);
      var line := TrimRight(TrimLeft(lines[i]));
      if !(Field <= line) { continue; }
      var json := line[|Field|..];
      if |json| > 0 && json[0] == ' ' { json := json[1..]; }
      out := out + json;
    }
    assert lines[..|lines|] == lines;
  }
}
