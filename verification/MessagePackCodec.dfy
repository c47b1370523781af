/** The layout of MessagePack messages (messagepackhubprotocol.go, parseMessage and WriteMessage),
    over the tokens that an encoder writes and a decoder reads. */
module MessagePackCodec {
  import opened Wrappers
  import opened Messages

  /* ---- values and their tokens ---- */

  datatype Token = TNil | TBool(b: bool) | TInt(n: int) | TStr(s: string) | TArray(len: nat) | TMap(len: nat)

  datatype Tree =
    | Nil
    | Bool(b: bool)
    | Int(n: int)
    | Str(s: string)
    | Array(items: seq<Tree>)
    | Map(entries: seq<Entry>)

  datatype Entry = Entry(key: Tree, value: Tree)

  /** encoder.Encode */
  function Encode(v: Tree): seq<Token> {
    match v
    case Nil => [TNil]
    case Bool(b) => [TBool(b)]
    case Int(n) => [TInt(n)]
    case Str(s) => [TStr(s)]
    case Array(items) => [TArray(|items|)] + EncodeAll(items)
    case Map(entries) => [TMap(|entries|)] + EncodeEntries(entries)
  }

  function EncodeAll(vs: seq<Tree>): seq<Token> {
    if vs == [] then [] else Encode(vs[0]) + EncodeAll(vs[1..])
  }

  function EncodeEntries(es: seq<Entry>): seq<Token> {
    if es == [] then [] else EncodeEntry(es[0]) + EncodeEntries(es[1..])
  }

  function EncodeEntry(e: Entry): seq<Token> { Encode(e.key) + Encode(e.value) }

  /** A decoded thing and the tokens behind it. */
  datatype Read<T> = Got(v: T, rest: seq<Token>) | Fail

  /** decoder.DecodeRaw and DecodeInterface: one value, however nested */
  function Decode(ts: seq<Token>): (r: Read<Tree>)
    ensures r.Got? ==> |r.rest| < |ts|
    decreases |ts|, 0
  {
    if ts == [] then Fail
    else match ts[0]
      case TNil => Got(Nil, ts[1..])
      case TBool(b) => Got(Bool(b), ts[1..])
      case TInt(n) => Got(Int(n), ts[1..])
      case TStr(s) => Got(Str(s), ts[1..])
      case TArray(n) => (match DecodeMany(ts[1..], n) case Fail => Fail case Got(vs, rest) => Got(Array(vs), rest))
      case TMap(n) => (match DecodeEntries(ts[1..], n) case Fail => Fail case Got(es, rest) => Got(Map(es), rest))
  }

  function DecodeMany(ts: seq<Token>, n: nat): (r: Read<seq<Tree>>)
    ensures r.Got? ==> |r.rest| <= |ts|
    decreases |ts|, 1
  {
    if n == 0 then Got([], ts)
    else match Decode(ts)
      case Fail => Fail
      case Got(v, ts1) =>
        match DecodeMany(ts1, n - 1) case Fail => Fail case Got(vs, rest) => Got([v] + vs, rest)
  }

  function DecodeEntries(ts: seq<Token>, n: nat): (r: Read<seq<Entry>>)
    ensures r.Got? ==> |r.rest| <= |ts|
    decreases |ts|, 1
  {
    if n == 0 then Got([], ts)
    else match Decode(ts)
      case Fail => Fail
      case Got(k, ts1) =>
        match Decode(ts1)
        case Fail => Fail
        case Got(v, ts2) =>
          match DecodeEntries(ts2, n - 1) case Fail => Fail case Got(es, rest) => Got([Entry(k, v)] + es, rest)
  }

  lemma {:induction false} DecodeEncode(v: Tree, more: seq<Token>)
    ensures Decode(Encode(v) + more) == Got(v, more)
    decreases v, 0
  {
    match v
    case Array(items) =>
      DecodeEncodeAll(items, more);
      HeadAndRest(TArray(|items|), EncodeAll(items), more);
    case Map(entries) =>
      DecodeEncodeEntries(entries, more);
      HeadAndRest(TMap(|entries|), EncodeEntries(entries), more);
    case _ =>
      assert Encode(v) + [] == Encode(v);
      HeadAndRest(Encode(v)[0], [], more);
  }

  lemma HeadAndRest(t: Token, ts: seq<Token>, more: seq<Token>)
    ensures ([t] + ts + more)[0] == t && ([t] + ts + more)[1..] == ts + more
    ensures ts == [] ==> [t] + more == [t] + ts + more && ts + more == more
  {
  }

  lemma FirstValueFirst(vs: seq<Tree>, more: seq<Token>)
    requires vs != []
    ensures EncodeAll(vs) + more == Encode(vs[0]) + (EncodeAll(vs[1..]) + more)
  {
  }

  lemma DecodeOneValue(ts: seq<Token>, n: nat, v: Tree, ts1: seq<Token>, vs: seq<Tree>, rest: seq<Token>)
    requires n > 0 && Decode(ts) == Got(v, ts1) && DecodeMany(ts1, n - 1) == Got(vs, rest)
    ensures DecodeMany(ts, n) == Got([v] + vs, rest)
  {
  }

  lemma {:induction false} DecodeEncodeAll(vs: seq<Tree>, more: seq<Token>)
    ensures DecodeMany(EncodeAll(vs) + more, |vs|) == Got(vs, more)
    decreases vs, 1
  {
    var ts := EncodeAll(vs) + more;
    if vs == [] {
      assert ts == more;
    } else {
      var rest := EncodeAll(vs[1..]) + more;
      DecodeEncode(vs[0], rest);
      DecodeEncodeAll(vs[1..], more);
      FirstValueFirst(vs, more);
      DecodeOneValue(ts, |vs|, vs[0], rest, vs[1..], more);
      assert vs == [vs[0]] + vs[1..];
    }
  }

  lemma {:induction false} DecodeEncodeEntry(e: Entry, more: seq<Token>)
    ensures Decode(Encode(e.key) + (Encode(e.value) + more)) == Got(e.key, Encode(e.value) + more)
    ensures Decode(Encode(e.value) + more) == Got(e.value, more)
    decreases e, 0
  {
    DecodeEncode(e.key, Encode(e.value) + more);
    DecodeEncode(e.value, more);
  }

  lemma DecodeOneEntry(ts: seq<Token>, n: nat, e: Entry, ts1: seq<Token>, ts2: seq<Token>, es: seq<Entry>, rest: seq<Token>)
    requires n > 0 && Decode(ts) == Got(e.key, ts1) && Decode(ts1) == Got(e.value, ts2)
    requires DecodeEntries(ts2, n - 1) == Got(es, rest)
    ensures DecodeEntries(ts, n) == Got([e] + es, rest)
  {
  }

  lemma FirstEntryFirst(es: seq<Entry>, more: seq<Token>)
    requires es != []
    ensures EncodeEntries(es) + more == Encode(es[0].key) + (Encode(es[0].value) + (EncodeEntries(es[1..]) + more))
  {
  }

  lemma {:induction false} DecodeEncodeEntries(es: seq<Entry>, more: seq<Token>)
    ensures DecodeEntries(EncodeEntries(es) + more, |es|) == Got(es, more)
    decreases es, 1
  {
    var ts := EncodeEntries(es) + more;
    if es == [] {
      assert ts == more;
    } else {
      var e, rest := es[0], EncodeEntries(es[1..]) + more;
      DecodeEncodeEntry(e, rest);
      DecodeEncodeEntries(es[1..], more);
      FirstEntryFirst(es, more);
      DecodeOneEntry(ts, |es|, e, Encode(e.value) + rest, rest, es[1..], more);
      assert es == [e] + es[1..];
    }
  }

  /* ---- messages ---- */

  type HubMessage = MessageOf<Tree>

  /** encodeMsgHeader */
  function Header(len: nat, code: int): seq<Token> { [TArray(len), TInt(code), TMap(0)] }

  function Strings(ss: seq<string>): seq<Token> { seq(|ss|, i requires 0 <= i < |ss| => TStr(ss[i])) }

  function Code(kind: Kind): int { if kind.Simple? then 1 else 4 }

  /** The element count WriteMessage announces. */
  function Announced(m: HubMessage): nat {
    match m
    case Ping => 1
    case Invocation(_, _, _, _, _) => 6
    case StreamItem(_, _) => 4
    case Completion(_, result, error) => if result.Some? || error != "" then 5 else 4
    case CancelInvocation(_) => 3
    case Close(_, _) => 3
  }

  function TypeCode(m: HubMessage): int {
    match m
    case Invocation(kind, _, _, _, _) => Code(kind)
    case StreamItem(_, _) => 2
    case Completion(_, _, _) => 3
    case CancelInvocation(_) => 5
    case Ping => 6
    case Close(_, _) => 7
  }

  /** WriteMessage up to the framing: the head that announces the element count, and the body */
  function Tokens(m: HubMessage): seq<Token> {
    if m.Ping? then [TArray(1), TInt(6)] else Header(Announced(m), TypeCode(m)) + Body(m)
  }

  function Body(m: HubMessage): seq<Token> {
    match m
    case Ping => []
    case Invocation(_, id, target, args, streamIds) =>
      [if id == "" then TNil else TStr(id)] + ([TStr(target)] + Lists(args, streamIds))
    case StreamItem(id, item) => [TStr(id)] + Encode(item)
    case Completion(id, result, error) =>
      [TStr(id)] + (if error != "" then [TInt(1)] + [TStr(error)]
                    else if result.Some? then [TInt(3)] + Encode(result.value)
                    else [TInt(2)])
    case CancelInvocation(id) => [TStr(id)]
    case Close(error, allowReconnect) => [TStr(error)] + [TBool(allowReconnect)]
  }

  function Lists(args: seq<Tree>, streamIds: seq<string>): seq<Token> {
    [TArray(|args|)] + (EncodeAll(args) + ([TArray(|streamIds|)] + Strings(streamIds)))
  }

  /** parseMessage returns a message, a value that no case of the loop matches (an unknown type), or an error. */
  datatype Parsed = Message(m: HubMessage, rest: seq<Token>) | Ignored | Error

  function GetString(ts: seq<Token>): Read<string> {
    if ts != [] && ts[0].TStr? then Got(ts[0].s, ts[1..]) else Fail
  }

  function GetInt(ts: seq<Token>): Read<int> {
    if ts != [] && ts[0].TInt? then Got(ts[0].n, ts[1..]) else Fail
  }

  function GetArrayLen(ts: seq<Token>): (r: Read<nat>)
    ensures r.Got? ==> |r.rest| < |ts|
  {
    if ts != [] && ts[0].TArray? then Got(ts[0].len, ts[1..]) else Fail
  }

  /** decodeInvocationID: nil or a string */
  function GetId(ts: seq<Token>): Read<string> {
    match Decode(ts)
    case Got(Nil, rest) => Got("", rest)
    case Got(Str(s), rest) => Got(s, rest)
    case _ => Fail
  }

  function GetStrings(ts: seq<Token>, n: nat): Read<seq<string>>
    decreases n
  {
    if n == 0 then Got([], ts)
    else match GetString(ts)
      case Fail => Fail
      case Got(s, ts1) =>
        match GetStrings(ts1, n - 1) case Fail => Fail case Got(ss, rest) => Got([s] + ss, rest)
  }

  /** The message types parseMessage knows, with the element counts it insists on. */
  function Parse(ts: seq<Token>): Parsed {
    match GetArrayLen(ts)
    case Fail => Error
    case Got(len, ts1) =>
      match GetInt(ts1)
      case Fail => Error
      case Got(code, ts2) =>
        if code == 6 then if len != 1 then Error else Message(Ping, ts2)
        else match Decode(ts2)
          case Got(Map(_), body) => ParseBody(code, len, body)
          case _ => Error
  }

  function ParseBody(code: int, len: nat, ts: seq<Token>): Parsed {
    if code == 1 || code == 4 then if len < 5 then Error else ParseInvocation(code, len, ts)
    else if code == 2 then
      if len != 4 then Error
      else match GetString(ts)
        case Fail => Error
        case Got(id, ts1) => match Decode(ts1) case Fail => Error case Got(v, rest) => Message(StreamItem(id, v), rest)
    else if code == 3 then if len < 4 then Error else ParseCompletion(len, ts)
    else if code == 5 then
      if len != 3 then Error
      else match GetString(ts) case Fail => Error case Got(id, rest) => Message(CancelInvocation(id), rest)
    else if code == 7 then if len < 2 then Error else ParseClose(len, ts)
    else Ignored
  }

  function ParseInvocation(code: int, len: nat, ts: seq<Token>): Parsed {
    match GetId(ts)
    case Fail => Error
    case Got(id, ts1) =>
      match GetString(ts1)
      case Fail => Error
      case Got(target, ts2) =>
        match GetArrayLen(ts2)
        case Fail => Error
        case Got(n, ts3) =>
          match DecodeMany(ts3, n)
          case Fail => Error
          case Got(args, ts4) =>
            var kind := if code == 1 then Simple else Streaming;
            if len != 6 then Message(Invocation(kind, id, target, args, []), ts4)
            else match GetArrayLen(ts4)
              case Fail => Error
              case Got(k, ts5) =>
                match GetStrings(ts5, k)
                case Fail => Error
                case Got(ids, rest) => Message(Invocation(kind, id, target, args, ids), rest)
  }

  function ParseCompletion(len: nat, ts: seq<Token>): Parsed {
    match GetString(ts)
    case Fail => Error
    case Got(id, ts1) =>
      match GetInt(ts1)
      case Fail => Error
      case Got(kind, ts2) =>
        if kind == 1 then
          if len < 5 then Error
          else match GetString(ts2) case Fail => Error case Got(e, rest) => Message(Completion(id, None, e), rest)
        else if kind == 2 then Message(Completion(id, None, ""), ts2)
        else if kind == 3 then
          if len < 5 then Error
          else match Decode(ts2) case Fail => Error case Got(v, rest) => Message(Completion(id, Some(v), ""), rest)
        else Error
  }

  function ParseClose(len: nat, ts: seq<Token>): Parsed {
    match GetString(ts)
    case Fail => Error
    case Got(error, ts1) =>
      if len == 2 then Message(Close(error, false), ts1)
      else if ts1 != [] && ts1[0].TBool? then Message(Close(error, ts1[0].b), ts1[1..]) else Error
  }

  /* ---- round trip ---- */

  /** What survives the wire: an error hides the result of a completion. */
  function Normal(m: HubMessage): HubMessage {
    if m.Completion? && m.error != "" then m.(result := None) else m
  }

  lemma {:induction false} GetStringsBack(ss: seq<string>)
    ensures GetStrings(Strings(ss), |ss|) == Got(ss, [])
    decreases |ss|
  {
    if ss != [] {
      GetStringsBack(ss[1..]);
      assert Strings(ss)[0] == TStr(ss[0]) && Strings(ss)[1..] == Strings(ss[1..]);
      assert ss == [ss[0]] + ss[1..];
    }
  }

  lemma HeaderBack(len: nat, code: int, body: seq<Token>)
    requires code != 6
    ensures Parse(Header(len, code) + body) == ParseBody(code, len, body)
  {
    var ts := Header(len, code) + body;
    assert ts[0] == TArray(len) && ts[1..][0] == TInt(code) && ts[1..][1..] == [TMap(0)] + body;
    DecodeEncode(Map([]), body);
    assert Encode(Map([])) == [TMap(0)];
  }

  lemma HeadBack(t: Token, rest: seq<Token>)
    ensures t.TStr? ==> GetString([t] + rest) == Got(t.s, rest)
    ensures t.TInt? ==> GetInt([t] + rest) == Got(t.n, rest)
    ensures t.TArray? ==> GetArrayLen([t] + rest) == Got(t.len, rest)
  {
    assert ([t] + rest)[1..] == rest;
  }

  lemma IdBack(id: string, rest: seq<Token>)
    ensures GetId([if id == "" then TNil else TStr(id)] + rest) == Got(id, rest)
  {
    DecodeEncode(if id == "" then Nil else Str(id), rest);
  }

  lemma ValueBack(v: Tree)
    ensures Decode(Encode(v)) == Got(v, [])
  {
    DecodeEncode(v, []);
    assert Encode(v) + [] == Encode(v);
  }

  lemma ListsBack(args: seq<Tree>, ids: seq<string>)
    ensures var s3 := [TArray(|ids|)] + Strings(ids);
            && GetArrayLen(Lists(args, ids)) == Got(|args|, EncodeAll(args) + s3)
            && DecodeMany(EncodeAll(args) + s3, |args|) == Got(args, s3)
            && GetArrayLen(s3) == Got(|ids|, Strings(ids))
            && GetStrings(Strings(ids), |ids|) == Got(ids, [])
  {
    var s3 := [TArray(|ids|)] + Strings(ids);
    HeadBack(TArray(|args|), EncodeAll(args) + s3);
    DecodeEncodeAll(args, s3);
    HeadBack(TArray(|ids|), Strings(ids));
    GetStringsBack(ids);
  }

  lemma InvocationBack(m: HubMessage)
    requires m.Invocation?
    ensures ParseInvocation(TypeCode(m), Announced(m), Body(m)) == Message(m, [])
  {
    var Invocation(kind, id, target, args, ids) := m;
    var ts1, ts2 := [TStr(target)] + Lists(args, ids), Lists(args, ids);
    var ts4 := [TArray(|ids|)] + Strings(ids);
    IdBack(id, ts1);
    HeadBack(TStr(target), ts2);
    ListsBack(args, ids);
    ParsesTo(TypeCode(m), Body(m), ts1, ts2, EncodeAll(args) + ts4, ts4, Strings(ids), kind, id, target, args, ids);
  }

  /** What the parser makes of an invocation, step by step. */
  lemma ParsesTo(code: int, ts: seq<Token>, ts1: seq<Token>, ts2: seq<Token>, ts3: seq<Token>, ts4: seq<Token>, ts5: seq<Token>,
                 kind: Kind, id: string, target: string, args: seq<Tree>, ids: seq<string>)
    requires GetId(ts) == Got(id, ts1) && GetString(ts1) == Got(target, ts2) && GetArrayLen(ts2) == Got(|args|, ts3)
    requires DecodeMany(ts3, |args|) == Got(args, ts4) && GetArrayLen(ts4) == Got(|ids|, ts5)
    requires GetStrings(ts5, |ids|) == Got(ids, []) && kind == if code == 1 then Simple else Streaming
    ensures ParseInvocation(code, 6, ts) == Message(Invocation(kind, id, target, args, ids), [])
  {
  }

  lemma CompletionBack(m: HubMessage)
    requires m.Completion?
    ensures ParseCompletion(Announced(m), Body(m)) == Message(Normal(m), [])
  {
    var Completion(id, result, error) := m;
    HeadBack(TStr(id), Body(m)[1..]);
    if error != "" {
      HeadBack(TInt(1), [TStr(error)]);
      HeadBack(TStr(error), []);
      assert [TStr(error)] + [] == [TStr(error)];
    } else if result.Some? {
      HeadBack(TInt(3), Encode(result.value));
      ValueBack(result.value);
    } else {
      HeadBack(TInt(2), []);
      assert [TInt(2)] + [] == [TInt(2)];
    }
  }

  /** Every written message is read back up to its normal form, with all its tokens used. */
  lemma MessageRoundTrip(m: HubMessage)
    ensures Parse(Tokens(m)) == Message(Normal(m), [])
  {
    if !m.Ping? { HeaderBack(Announced(m), TypeCode(m), Body(m)); }
    match m
    case Invocation(_, _, _, _, _) => InvocationBack(m);
    case Completion(_, _, _) => CompletionBack(m);
    case StreamItem(id, item) => HeadBack(TStr(id), Encode(item)); ValueBack(item);
    case CancelInvocation(id) => HeadBack(TStr(id), []); assert [TStr(id)] + [] == [TStr(id)];
    case Ping => assert Tokens(m)[1..] == [TInt(6)];
    case Close(error, allow) => HeadBack(TStr(error), [TBool(allow)]);
  }

  /** The parser, on any tokens at all, yields messages in normal form: writing one of them again
      gives it back unchanged. */
  lemma ParsedIsNormal(ts: seq<Token>)
    requires Parse(ts).Message?
    ensures Parse(Tokens(Parse(ts).m)) == Message(Parse(ts).m, [])
  {
    MessageRoundTrip(Parse(ts).m);
  }

  /** A message survives the wire unchanged unless it is a completion with both result and error. */
  lemma UnchangedIff(m: HubMessage)
    ensures Parse(Tokens(m)) == Message(m, []) <==> !(m.Completion? && m.error != "" && m.result.Some?)
  {
    MessageRoundTrip(m);
  }

  /* ---- the announced array length ---- */

  /** The elements of a message after its array head. */
  function Elements(m: HubMessage): seq<Tree> {
    match m
    case Invocation(kind, id, target, args, ids) =>
      [Int(Code(kind)), Map([]), if id == "" then Nil else Str(id), Str(target), Array(args),
       Array(seq(|ids|, i requires 0 <= i < |ids| => Str(ids[i])))]
    case StreamItem(id, item) => [Int(2), Map([]), Str(id), item]
    case Completion(id, result, error) =>
      if error != "" then [Int(3), Map([]), Str(id), Int(1), Str(error)]
      else if result.Some? then [Int(3), Map([]), Str(id), Int(3), result.value]
      else [Int(3), Map([]), Str(id), Int(2)]
    case CancelInvocation(id) => [Int(5), Map([]), Str(id)]
    case Ping => [Int(6)]
    case Close(error, allow) => [Int(7), Map([]), Str(error), Bool(allow)]
  }

  lemma {:induction false} EncodeStrings(ss: seq<string>)
    ensures EncodeAll(seq(|ss|, i requires 0 <= i < |ss| => Str(ss[i]))) == Strings(ss)
    decreases |ss|
  {
    if ss != [] {
      var vs := seq(|ss|, i requires 0 <= i < |ss| => Str(ss[i]));
      var rest := ss[1..];
      EncodeStrings(rest);
      assert vs[1..] == seq(|rest|, i requires 0 <= i < |rest| => Str(rest[i]));
      assert Strings(ss) == [TStr(ss[0])] + Strings(rest);
    }
  }

  lemma {:induction false} EncodeAllAppend(a: seq<Tree>, b: seq<Tree>)
    ensures EncodeAll(a + b) == EncodeAll(a) + EncodeAll(b)
    decreases |a|
  {
    if a == [] {
      assert a + b == b;
    } else {
      EncodeAllAppend(a[1..], b);
      assert a + b == [a[0]] + (a[1..] + b);
      OneMore(a[0], a[1..] + b);
      FirstValueFirst(a, EncodeAll(b));
    }
  }

  lemma OneMore(v: Tree, vs: seq<Tree>)
    ensures EncodeAll([v] + vs) == Encode(v) + EncodeAll(vs)
  {
    assert ([v] + vs)[1..] == vs;
  }

  lemma SingleElement(v: Tree)
    ensures EncodeAll([v]) == Encode(v)
  {
    assert EncodeAll([v]) == Encode(v) + EncodeAll([v][1..]);
  }

  lemma TokensAreElements(m: HubMessage)
    ensures Tokens(m) == [TArray(Announced(m))] + EncodeAll(Elements(m))
  {
    var es := Elements(m);
    if m.Ping? {
      SingleElement(Int(6));
    } else {
      BodyIsElements(m);
      ElementsHead(m);
      OneMore(Int(TypeCode(m)), [Map([])] + es[2..]);
      OneMore(Map([]), es[2..]);
      assert Encode(Map([])) == [TMap(0)];
      HeaderNested(Announced(m), TypeCode(m), Body(m));
    }
  }

  lemma ElementsHead(m: HubMessage)
    requires !m.Ping?
    ensures |Elements(m)| > 2 && Elements(m) == [Int(TypeCode(m))] + ([Map([])] + Elements(m)[2..])
  {
  }

  lemma HeaderNested(len: nat, code: int, body: seq<Token>)
    ensures Header(len, code) + body == [TArray(len)] + ([TInt(code)] + ([TMap(0)] + body))
  {
  }

  lemma FourElements(i: Tree, t: Tree, a: Tree, s: Tree)
    ensures EncodeAll([i, t, a, s]) == Encode(i) + (Encode(t) + EncodeAll([a] + [s]))
  {
    OneMore(i, [t] + ([a] + [s]));
    OneMore(t, [a] + [s]);
    assert [i, t, a, s] == [i] + ([t] + ([a] + [s]));
  }

  lemma InvocationIsElements(m: HubMessage)
    requires m.Invocation?
    ensures EncodeAll(Elements(m)[2..]) == Body(m)
  {
    var Invocation(_, id, target, args, ids) := m;
    var i, t, a := if id == "" then Nil else Str(id), Str(target), Array(args);
    var s := Array(seq(|ids|, i requires 0 <= i < |ids| => Str(ids[i])));
    assert Elements(m)[2..] == [i, t, a, s];
    FourElements(i, t, a, s);
    ListsAreElements(args, ids);
  }

  lemma ListsAreElements(args: seq<Tree>, ids: seq<string>)
    ensures EncodeAll([Array(args)] + [Array(seq(|ids|, i requires 0 <= i < |ids| => Str(ids[i])))]) == Lists(args, ids)
  {
    var a, s := Array(args), Array(seq(|ids|, i requires 0 <= i < |ids| => Str(ids[i])));
    OneMore(a, [s]);
    SingleElement(s);
    EncodeStrings(ids);
    assert Encode(a) + Encode(s) == Lists(args, ids);
  }

  lemma CompletionIsElements(m: HubMessage)
    requires m.Completion?
    ensures EncodeAll(Elements(m)[2..]) == Body(m)
  {
    var Completion(id, result, error) := m;
    if error != "" || result.Some? {
      var k, v := if error != "" then Int(1) else Int(3), if error != "" then Str(error) else result.value;
      assert Elements(m)[2..] == [Str(id)] + ([k] + [v]);
      OneMore(Str(id), [k] + [v]);
      OneMore(k, [v]);
      SingleElement(v);
    } else {
      assert Elements(m)[2..] == [Str(id)] + [Int(2)];
      OneMore(Str(id), [Int(2)]);
      SingleElement(Int(2));
    }
  }

  lemma BodyIsElements(m: HubMessage)
    requires !m.Ping?
    ensures EncodeAll(Elements(m)[2..]) == Body(m)
  {
    match m
    case Invocation(_, _, _, _, _) =>
      InvocationIsElements(m);
    case StreamItem(id, item) =>
      assert Elements(m)[2..] == [Str(id)] + [item];
      OneMore(Str(id), [item]);
      SingleElement(item);
    case Completion(id, result, error) =>
      CompletionIsElements(m);
    case CancelInvocation(id) =>
      assert Elements(m)[2..] == [Str(id)];
      SingleElement(Str(id));
    case Close(error, allow) =>
      assert Elements(m)[2..] == [Str(error)] + [Bool(allow)];
      OneMore(Str(error), [Bool(allow)]);
      SingleElement(Bool(allow));
  }

  /** What is written is one MessagePack array, complete and with nothing behind it, for every
      message except Close: that one announces three elements and writes four, so a reader that
      goes by the announced length is left with the reconnect flag. */
  lemma OneArrayIffNotClose(m: HubMessage)
    ensures !m.Close? ==> Decode(Tokens(m)) == Got(Array(Elements(m)), [])
    ensures m.Close? ==> Decode(Tokens(m)) == Got(Array(Elements(m)[..3]), [TBool(m.allowReconnect)])
  {
    var es := Elements(m);
    TokensAreElements(m);
    if m.Close? {
      EncodeAllAppend(es[..3], es[3..]);
      assert es == es[..3] + es[3..];
      assert es[3..] == [Bool(m.allowReconnect)];
      SingleElement(Bool(m.allowReconnect));
      DecodeEncode(Array(es[..3]), [TBool(m.allowReconnect)]);
      assert Tokens(m) == Encode(Array(es[..3])) + [TBool(m.allowReconnect)];
    } else {
      ValueBack(Array(es));
    }
  }

  /* ---- the loops of the source ---- */

  method WriteMessage(m: HubMessage) returns (out: seq<Token>)
    ensures out == Tokens(m)
  {
    match m
    case Invocation(kind, id, target, args, streamIds) =>
      var lists := WriteLists(args, streamIds);
      out := [if id == "" then TNil else TStr(id)] + ([TStr(target)] + lists);
      out := Header(6, Code(kind)) + out;
    case StreamItem(id, item) =>
      out := [TStr(id)] + Encode(item);
      out := Header(4, 2) + out;
    case Completion(id, result, error) =>
      var msgLen := 4;
      if result.Some? || error != "" { msgLen := 5; }
      var resultKind := 2;
      if error != "" { resultKind := 1; } else if result.Some? { resultKind := 3; }
      out := [TInt(resultKind)];
      if resultKind == 1 { out := out + [TStr(error)]; }
      else if resultKind == 3 { out := out + Encode(result.value); }
      out := Header(msgLen, 3) + ([TStr(id)] + out);
    case CancelInvocation(id) => out := Header(3, 5) + [TStr(id)];
    case Ping => out := [TArray(1), TInt(6)];
    case Close(error, allowReconnect) =>
      out := [TStr(error)] + [TBool(allowReconnect)];
      out := Header(3, 7) + out;
  }

  method WriteLists(args: seq<Tree>, streamIds: seq<string>) returns (out: seq<Token>)
    ensures out == Lists(args, streamIds)
  {
    var first := WriteArguments(args);
    var second := WriteStrings(streamIds);
    out := [TArray(|args|)] + (first + ([TArray(|streamIds|)] + second));
  }

  method WriteArguments(args: seq<Tree>) returns (out: seq<Token>)
    ensures out == EncodeAll(args)
  {
    out := [];
    for i := 0 to |args|
      invariant out == EncodeAll(args[..i])
    {
      assert args[..i + 1] == args[..i] + [args[i]];
      EncodeAllAppend(args[..i], [args[i]]);
      SingleElement(args[i]);
      out := out + Encode(args[i]);
    }
    assert args[..|args|] == args;
  }

  method WriteStrings(ss: seq<string>) returns (out: seq<Token>)
    ensures out == Strings(ss)
  {
    out := [];
    for i := 0 to |ss|
      invariant out == Strings(ss[..i])
    {
      out := out + [TStr(ss[i])];
    }
    assert ss[..|ss|] == ss;
  }

  function Prefixed<T>(front: seq<T>, r: Read<seq<T>>): Read<seq<T>> {
    match r case Fail => Fail case Got(more, rest) => Got(front + more, rest)
  }

  lemma PrefixedLaws<T>(front: seq<T>, v: T, r: Read<seq<T>>)
    ensures Prefixed([], r) == r
    ensures Prefixed(front, Prefixed([v], r)) == Prefixed(front + [v], r)
  {
    if r.Got? { assert [] + r.v == r.v && front + ([v] + r.v) == front + [v] + r.v; }
  }

  /** The argument loop of parseMessage. */
  method ReadArguments(ts: seq<Token>, argLen: nat) returns (r: Read<seq<Tree>>)
    ensures r == DecodeMany(ts, argLen)
  {
    var args, rest := [], ts;
    PrefixedLaws([], Nil, DecodeMany(ts, argLen));
    for i := 0 to argLen
      invariant DecodeMany(ts, argLen) == Prefixed(args, DecodeMany(rest, argLen - i))
    {
      var v := Decode(rest);
      if v.Fail? {
        return Fail;
      }
      PrefixedLaws(args, v.v, DecodeMany(v.rest, argLen - i - 1));
      args, rest := args + [v.v], v.rest;
    }
    assert args + [] == args;
    return Got(args, rest);
  }

  /** The stream id loop of parseMessage. */
  method ReadStreamIds(ts: seq<Token>, streamIdLen: nat) returns (r: Read<seq<string>>)
    ensures r == GetStrings(ts, streamIdLen)
  {
    var ids, rest := [], ts;
    PrefixedLaws([], "", GetStrings(ts, streamIdLen));
    for i := 0 to streamIdLen
      invariant GetStrings(ts, streamIdLen) == Prefixed(ids, GetStrings(rest, streamIdLen - i))
    {
      var s := GetString(rest);
      if s.Fail? {
        return Fail;
      }
      PrefixedLaws(ids, s.v, GetStrings(s.rest, streamIdLen - i - 1));
      ids, rest := ids + [s.v], s.rest;
    }
    assert ids + [] == ids;
    return Got(ids, rest);
  }
}
