/** The messages parseMessage accepts (messagepackhubprotocol.go), as a grammar: which token sequences
    a peer may send, whether or not this writer sends them, and what each of them means. */
module MessagePackGrammar {
  import opened Wrappers
  import opened Messages
  import opened MessagePackCodec

  /* ---- decoding takes exactly the tokens of a value ---- */

  lemma Joins(a: seq<Token>, b: seq<Token>, c: seq<Token>)
    ensures (a + b) + c == a + (b + c)
  {
  }

  lemma FirstAndRest(ts: seq<Token>)
    requires ts != []
    ensures ts == [ts[0]] + ts[1..]
  {
  }

  lemma {:induction false} DecodedIsEncoded(ts: seq<Token>)
    ensures var r := Decode(ts); r.Got? ==> ts == Encode(r.v) + r.rest
    decreases |ts|, 0
  {
    if ts != [] && Decode(ts).Got? {
      FirstAndRest(ts);
      match ts[0]
      case TArray(n) => ManyDecoded(ts[1..], n); Joins([ts[0]], EncodeAll(DecodeMany(ts[1..], n).v), Decode(ts).rest);
      case TMap(n) => EntriesDecoded(ts[1..], n); Joins([ts[0]], EncodeEntries(DecodeEntries(ts[1..], n).v), Decode(ts).rest);
      case _ =>
    }
  }

  lemma {:induction false} ManyDecoded(ts: seq<Token>, n: nat)
    ensures var r := DecodeMany(ts, n); r.Got? ==> |r.v| == n && ts == EncodeAll(r.v) + r.rest
    decreases |ts|, 1
  {
    if n == 0 {
      assert [] + ts == ts;
    } else if DecodeMany(ts, n).Got? {
      DecodedIsEncoded(ts);
      var Got(v, ts1) := Decode(ts);
      ManyDecoded(ts1, n - 1);
      var Got(vs, rest) := DecodeMany(ts1, n - 1);
      OneMore(v, vs);
      Joins(Encode(v), EncodeAll(vs), rest);
    }
  }

  lemma {:induction false} EntriesDecoded(ts: seq<Token>, n: nat)
    ensures var r := DecodeEntries(ts, n); r.Got? ==> |r.v| == n && ts == EncodeEntries(r.v) + r.rest
    decreases |ts|, 1
  {
    if n == 0 {
      assert [] + ts == ts;
    } else if DecodeEntries(ts, n).Got? {
      DecodedIsEncoded(ts);
      var Got(k, ts1) := Decode(ts);
      DecodedIsEncoded(ts1);
      var Got(v, ts2) := Decode(ts1);
      EntriesDecoded(ts2, n - 1);
      var Got(es, rest) := DecodeEntries(ts2, n - 1);
      OneEntryMore(Entry(k, v), es);
      Joins(Encode(k), Encode(v), EncodeEntries(es) + rest);
      Joins(Encode(k) + Encode(v), EncodeEntries(es), rest);
    }
  }

  lemma OneEntryMore(e: Entry, es: seq<Entry>)
    ensures EncodeEntries([e] + es) == Encode(e.key) + Encode(e.value) + EncodeEntries(es)
  {
    assert ([e] + es)[1..] == es;
  }

  lemma {:induction false} StringsRead(ts: seq<Token>, n: nat)
    ensures var r := GetStrings(ts, n); r.Got? ==> |r.v| == n && ts == Strings(r.v) + r.rest
    decreases n
  {
    if n == 0 {
      assert Strings([]) + ts == ts;
    } else if GetStrings(ts, n).Got? {
      FirstAndRest(ts);
      StringsRead(ts[1..], n - 1);
      var Got(ss, rest) := GetStrings(ts[1..], n - 1);
      OneStringMore(ts[0].s, ss);
      Joins([ts[0]], Strings(ss), rest);
    }
  }

  lemma OneStringMore(s: string, ss: seq<string>)
    ensures Strings([s] + ss) == [TStr(s)] + Strings(ss)
  {
  }

  lemma {:induction false} StringsBack(ss: seq<string>, rest: seq<Token>)
    ensures GetStrings(Strings(ss) + rest, |ss|) == Got(ss, rest)
    decreases |ss|
  {
    if ss == [] {
      assert Strings(ss) + rest == rest;
    } else {
      StringsBack(ss[1..], rest);
      assert ss == [ss[0]] + ss[1..];
      OneStringMore(ss[0], ss[1..]);
      Joins([TStr(ss[0])], Strings(ss[1..]), rest);
      HeadBack(TStr(ss[0]), Strings(ss[1..]) + rest);
    }
  }

  /* ---- the grammar ---- */

  /** A way to lay out the message `m`: the announced length, the header map, whether the empty id of
      an invocation is written as nil, and the result kind of a completion. */
  datatype Form = Form(len: nat, headers: seq<Entry>, nilId: bool, kind: int, m: HubMessage) {
    /** Stream ids are optional, and a close need not say whether to reconnect; a completion of kind 1
        has an error, of kind 3 a result, of kind 2 neither. */
    predicate Proper() {
      match m
      case Invocation(_, id, _, _, ids) => len >= 5 && (len != 6 ==> ids == []) && (nilId ==> id == "")
      case StreamItem(_, _) => len == 4
      case Completion(_, result, error) =>
        || (kind == 1 && len >= 5 && result == None)
        || (kind == 2 && len >= 4 && result == None && error == "")
        || (kind == 3 && len >= 5 && result.Some? && error == "")
      case CancelInvocation(_) => len == 3
      case Ping => len == 1
      case Close(_, allowReconnect) => len >= 2 && (len == 2 ==> !allowReconnect)
    }
  }

  function Outcome(f: Form): seq<Token>
    requires f.m.Completion?
  {
    if f.kind == 1 then [TStr(f.m.error)] else if f.kind == 3 && f.m.result.Some? then Encode(f.m.result.value) else []
  }

  function StreamIds(f: Form): seq<Token>
    requires f.m.Invocation?
  {
    if f.len == 6 then [TArray(|f.m.streamIds|)] + Strings(f.m.streamIds) else []
  }

  /** The elements behind the header map, and whatever follows the message. */
  function Payload(f: Form, rest: seq<Token>): seq<Token> {
    match f.m
    case Invocation(_, id, target, args, _) =>
      [if f.nilId then TNil else TStr(id)] + ([TStr(target)] + ([TArray(|args|)] + (EncodeAll(args) + (StreamIds(f) + rest))))
    case StreamItem(id, item) => [TStr(id)] + (Encode(item) + rest)
    case Completion(id, _, _) => [TStr(id)] + ([TInt(f.kind)] + (Outcome(f) + rest))
    case CancelInvocation(id) => [TStr(id)] + rest
    case Ping => rest
    case Close(error, allowReconnect) => [TStr(error)] + (if f.len == 2 then rest else [TBool(allowReconnect)] + rest)
  }

  function Layout(f: Form, rest: seq<Token>): seq<Token> {
    [TArray(f.len)] + ([TInt(TypeCode(f.m))] + if f.m.Ping? then rest else Encode(Map(f.headers)) + Payload(f, rest))
  }

  /* ---- what is laid out is accepted ---- */

  lemma HeadersIgnored(len: nat, code: int, headers: seq<Entry>, body: seq<Token>)
    requires code != 6
    ensures Parse([TArray(len)] + ([TInt(code)] + (Encode(Map(headers)) + body))) == ParseBody(code, len, body)
  {
    HeadBack(TArray(len), [TInt(code)] + (Encode(Map(headers)) + body));
    HeadBack(TInt(code), Encode(Map(headers)) + body);
    DecodeEncode(Map(headers), body);
  }

  lemma InvocationAccepted(f: Form, rest: seq<Token>)
    requires f.m.Invocation? && f.Proper()
    ensures ParseInvocation(TypeCode(f.m), f.len, Payload(f, rest)) == Message(f.m, rest)
  {
    var Invocation(kind, id, target, args, ids) := f.m;
    var ts4 := StreamIds(f) + rest;
    var ts3 := EncodeAll(args) + ts4;
    var ts2 := [TArray(|args|)] + ts3;
    DecodeEncode(if f.nilId then Nil else Str(id), [TStr(target)] + ts2);
    HeadBack(TStr(target), ts2);
    HeadBack(TArray(|args|), ts3);
    DecodeEncodeAll(args, ts4);
    if f.len == 6 {
      Joins([TArray(|ids|)], Strings(ids), rest);
      HeadBack(TArray(|ids|), Strings(ids) + rest);
      StringsBack(ids, rest);
    } else {
      assert ts4 == rest;
    }
    InvocationSteps(f, Payload(f, rest), [TStr(target)] + ts2, ts2, ts3, ts4, rest);
  }

  lemma InvocationSteps(f: Form, ts: seq<Token>, ts1: seq<Token>, ts2: seq<Token>, ts3: seq<Token>, ts4: seq<Token>, rest: seq<Token>)
    requires f.m.Invocation? && f.Proper()
    requires GetId(ts) == Got(f.m.id, ts1) && GetString(ts1) == Got(f.m.target, ts2)
    requires GetArrayLen(ts2) == Got(|f.m.args|, ts3) && DecodeMany(ts3, |f.m.args|) == Got(f.m.args, ts4)
    requires if f.len == 6 then GetArrayLen(ts4).Got? && GetArrayLen(ts4).v == |f.m.streamIds|
                                && GetStrings(GetArrayLen(ts4).rest, |f.m.streamIds|) == Got(f.m.streamIds, rest)
             else ts4 == rest
    ensures ParseInvocation(TypeCode(f.m), f.len, ts) == Message(f.m, rest)
  {
  }

  lemma CompletionAccepted(f: Form, rest: seq<Token>)
    requires f.m.Completion? && f.Proper()
    ensures ParseCompletion(f.len, Payload(f, rest)) == Message(f.m, rest)
  {
    HeadBack(TStr(f.m.id), [TInt(f.kind)] + (Outcome(f) + rest));
    HeadBack(TInt(f.kind), Outcome(f) + rest);
    if f.kind == 1 {
      HeadBack(TStr(f.m.error), rest);
    } else if f.kind == 3 {
      DecodeEncode(f.m.result.value, rest);
    } else {
      assert [] + rest == rest;
    }
  }

  lemma PayloadAccepted(f: Form, rest: seq<Token>)
    requires f.Proper() && !f.m.Ping?
    ensures ParseBody(TypeCode(f.m), f.len, Payload(f, rest)) == Message(f.m, rest)
  {
    match f.m
    case Invocation(_, _, _, _, _) => InvocationAccepted(f, rest);
    case StreamItem(id, item) => HeadBack(TStr(id), Encode(item) + rest); DecodeEncode(item, rest);
    case Completion(_, _, _) => CompletionAccepted(f, rest);
    case CancelInvocation(id) => HeadBack(TStr(id), rest);
    case Close(error, allow) => HeadBack(TStr(error), if f.len == 2 then rest else [TBool(allow)] + rest);
  }

  lemma LayoutAccepted(f: Form, rest: seq<Token>)
    requires f.Proper()
    ensures Parse(Layout(f, rest)) == Message(f.m, rest)
  {
    if f.m.Ping? {
      HeadBack(TArray(f.len), [TInt(6)] + rest);
      HeadBack(TInt(6), rest);
    } else {
      HeadersIgnored(f.len, TypeCode(f.m), f.headers, Payload(f, rest));
      PayloadAccepted(f, rest);
    }
  }

  /* ---- and nothing else ---- */

  lemma HeadRead(ts: seq<Token>)
    ensures GetString(ts).Got? ==> ts == [TStr(GetString(ts).v)] + GetString(ts).rest
    ensures GetInt(ts).Got? ==> ts == [TInt(GetInt(ts).v)] + GetInt(ts).rest
    ensures GetArrayLen(ts).Got? ==> ts == [TArray(GetArrayLen(ts).v)] + GetArrayLen(ts).rest
  {
    if ts != [] { FirstAndRest(ts); }
  }

  lemma IdRead(ts: seq<Token>) returns (nilId: bool)
    requires GetId(ts).Got?
    ensures ts == [if nilId then TNil else TStr(GetId(ts).v)] + GetId(ts).rest && (nilId ==> GetId(ts).v == "")
  {
    DecodedIsEncoded(ts);
    nilId := Decode(ts).v.Nil?;
  }

  lemma InvocationRead(code: int, len: nat, headers: seq<Entry>, ts: seq<Token>) returns (f: Form)
    requires (code == 1 || code == 4) && len >= 5 && ParseInvocation(code, len, ts).Message?
    ensures var r := ParseInvocation(code, len, ts);
            f.Proper() && f.m == r.m && f.len == len && f.headers == headers && TypeCode(r.m) == code && ts == Payload(f, r.rest)
  {
    var r := ParseInvocation(code, len, ts);
    var nilId := IdRead(ts);
    f := Form(len, headers, nilId, 0, r.m);
    var ts1 := GetId(ts).rest;
    HeadRead(ts1);
    var ts2 := GetString(ts1).rest;
    HeadRead(ts2);
    var ts3 := GetArrayLen(ts2).rest;
    ManyDecoded(ts3, GetArrayLen(ts2).v);
    var ts4 := DecodeMany(ts3, GetArrayLen(ts2).v).rest;
    assert ts4 == StreamIds(f) + r.rest by { StreamIdsRead(f, ts4, r.rest); }
  }

  lemma StreamIdsRead(f: Form, ts: seq<Token>, rest: seq<Token>)
    requires f.m.Invocation?
    requires if f.len != 6 then ts == rest
             else GetArrayLen(ts).Got? && GetStrings(GetArrayLen(ts).rest, GetArrayLen(ts).v) == Got(f.m.streamIds, rest)
    ensures ts == StreamIds(f) + rest
  {
    if f.len == 6 {
      HeadRead(ts);
      StringsRead(GetArrayLen(ts).rest, GetArrayLen(ts).v);
      Joins([TArray(|f.m.streamIds|)], Strings(f.m.streamIds), rest);
    } else {
      assert [] + rest == rest;
    }
  }

  lemma CompletionRead(len: nat, headers: seq<Entry>, ts: seq<Token>) returns (f: Form)
    requires len >= 4 && ParseCompletion(len, ts).Message?
    ensures var r := ParseCompletion(len, ts);
            f.Proper() && f.m == r.m && f.len == len && f.headers == headers && r.m.Completion? && ts == Payload(f, r.rest)
  {
    var r := ParseCompletion(len, ts);
    HeadRead(ts);
    var ts1 := GetString(ts).rest;
    HeadRead(ts1);
    var Got(kind, ts2) := GetInt(ts1);
    f := Form(len, headers, false, kind, r.m);
    if kind == 1 {
      HeadRead(ts2);
    } else if kind == 3 {
      DecodedIsEncoded(ts2);
    } else {
      assert [] + ts2 == ts2;
    }
  }

  lemma CloseRead(len: nat, headers: seq<Entry>, ts: seq<Token>) returns (f: Form)
    requires len >= 2 && ParseClose(len, ts).Message?
    ensures var r := ParseClose(len, ts);
            f.Proper() && f.m == r.m && f.len == len && f.headers == headers && r.m.Close? && ts == Payload(f, r.rest)
  {
    f := Form(len, headers, false, 0, ParseClose(len, ts).m);
    HeadRead(ts);
    if len != 2 { FirstAndRest(GetString(ts).rest); }
  }

  lemma PayloadRead(code: int, len: nat, headers: seq<Entry>, ts: seq<Token>) returns (f: Form)
    requires ParseBody(code, len, ts).Message? && code != 6
    ensures var r := ParseBody(code, len, ts);
            && f.Proper() && f.m == r.m && f.len == len && f.headers == headers && !r.m.Ping?
            && TypeCode(r.m) == code && ts == Payload(f, r.rest)
  {
    if code == 1 || code == 4 {
      f := InvocationRead(code, len, headers, ts);
    } else if code == 3 {
      f := CompletionRead(len, headers, ts);
    } else if code == 7 {
      f := CloseRead(len, headers, ts);
    } else {
      f := Form(len, headers, false, 0, ParseBody(code, len, ts).m);
      HeadRead(ts);
      if code == 2 { DecodedIsEncoded(GetString(ts).rest); }
    }
  }

  lemma LayoutRead(ts: seq<Token>) returns (f: Form)
    requires Parse(ts).Message?
    ensures f.Proper() && f.m == Parse(ts).m && ts == Layout(f, Parse(ts).rest)
  {
    HeadRead(ts);
    var Got(len, ts1) := GetArrayLen(ts);
    HeadRead(ts1);
    var Got(code, ts2) := GetInt(ts1);
    if code == 6 {
      f := Form(len, [], false, 0, Ping);
    } else {
      DecodedIsEncoded(ts2);
      f := PayloadRead(code, len, Decode(ts2).v.entries, Decode(ts2).rest);
    }
  }

  /** The parser accepts exactly the layouts of the grammar, whatever follows them: with any header
      map, with or without stream ids, with an id or nil, and gives the message laid out and what
      follows it. */
  lemma ParseIff(ts: seq<Token>, m: HubMessage, rest: seq<Token>)
    ensures Parse(ts) == Message(m, rest) <==> exists f: Form :: f.Proper() && f.m == m && ts == Layout(f, rest)
  {
    if Parse(ts) == Message(m, rest) { var f := LayoutRead(ts); }
    if f: Form :| f.Proper() && f.m == m && ts == Layout(f, rest) { LayoutAccepted(f, rest); }
  }

  /** A well-formed head of a type no case of the switch knows is passed over, and only that. */
  lemma IgnoredIff(ts: seq<Token>)
    ensures Parse(ts) == Ignored <==>
            exists len: nat, code: int, headers: seq<Entry>, body: seq<Token> :: Unknown(ts, len, code, headers, body)
  {
    if Parse(ts) == Ignored {
      HeadRead(ts);
      var Got(len, ts1) := GetArrayLen(ts);
      HeadRead(ts1);
      var Got(code, ts2) := GetInt(ts1);
      DecodedIsEncoded(ts2);
      KnownIsNotIgnored(code, len, Decode(ts2).rest);
      assert Unknown(ts, len, code, Decode(ts2).v.entries, Decode(ts2).rest);
    }
    if len: nat, code: int, headers: seq<Entry>, body: seq<Token> :| Unknown(ts, len, code, headers, body) {
      HeadersIgnored(len, code, headers, body);
    }
  }

  predicate Unknown(ts: seq<Token>, len: nat, code: int, headers: seq<Entry>, body: seq<Token>) {
    !(1 <= code <= 7) && ts == [TArray(len)] + ([TInt(code)] + (Encode(Map(headers)) + body))
  }

  lemma KnownIsNotIgnored(code: int, len: nat, ts: seq<Token>)
    requires ParseBody(code, len, ts) == Ignored && code != 6
    ensures !(1 <= code <= 7)
  {
  }

  /** What this writer sends is one of the layouts, with no headers. */
  lemma WrittenIsLayout(m: HubMessage)
    ensures var kind := if !m.Completion? then 0 else if m.error != "" then 1 else if m.result.Some? then 3 else 2;
            var f := Form(Announced(m), [], m.Invocation? && m.id == "", kind, Normal(m));
            f.Proper() && Tokens(m) == Layout(f, [])
  {
    var kind := if !m.Completion? then 0 else if m.error != "" then 1 else if m.result.Some? then 3 else 2;
    var f := Form(Announced(m), [], m.Invocation? && m.id == "", kind, Normal(m));
    assert Encode(Map([])) == [TMap(0)];
    if m.Ping? {
      assert Tokens(m) == [TArray(1)] + ([TInt(6)] + []);
    } else {
      HeaderNested(Announced(m), TypeCode(m), Body(m));
      BodyIsLaidOut(m, f);
    }
  }

  lemma BodyIsLaidOut(m: HubMessage, f: Form)
    requires !m.Ping? && f.len == Announced(m) && f.m == Normal(m) && f.nilId == (m.Invocation? && m.id == "")
    requires m.Completion? ==> f.kind == if m.error != "" then 1 else if m.result.Some? then 3 else 2
    ensures Body(m) == Payload(f, [])
  {
    match m
    case Invocation(_, _, _, args, ids) => assert StreamIds(f) + [] == [TArray(|ids|)] + Strings(ids);
    case Completion(_, _, _) => assert Outcome(f) + [] == Outcome(f);
    case StreamItem(_, item) => assert Encode(item) + [] == Encode(item);
    case Close(_, allow) => assert [TBool(allow)] + [] == [TBool(allow)];
    case CancelInvocation(id) => assert [TStr(id)] + [] == [TStr(id)];
  }
}
