/** Splitting the arguments of an upload invocation and putting them together again (loop.go,
    PushStreams and buildMethodArguments). */
module Arguments {
  import opened Wrappers
  import opened Messages
  import opened StreamClients

  /** An argument of PushStreams: a channel, here a number, or an encoded value. */
  datatype Arg = Channel(c: nat) | Plain(raw: Raw)

  function Channels(args: seq<Arg>): seq<nat> {
    if args == [] then []
    else Channels(args[..|args| - 1]) + if args[|args| - 1].Channel? then [args[|args| - 1].c] else []
  }

  function Plains(args: seq<Arg>): seq<Raw> {
    if args == [] then []
    else Plains(args[..|args| - 1]) + if args[|args| - 1].Plain? then [args[|args| - 1].raw] else []
  }

  lemma SplitAppend(args: seq<Arg>, a: Arg)
    ensures Channels(args + [a]) == Channels(args) + if a.Channel? then [a.c] else []
    ensures Plains(args + [a]) == Plains(args) + if a.Plain? then [a.raw] else []
  {
    assert (args + [a])[..|args|] == args;
  }

  /** Every channel gets a stream id of its own; the ids are drawn from `newIds` in order. */
  method SplitArguments(args: seq<Arg>, newIds: seq<Id>)
    returns (invokeArgs: seq<Raw>, reflectedChannels: seq<nat>, streamIds: seq<Id>)
    requires |Channels(args)| <= |newIds|
    ensures invokeArgs == Plains(args) && reflectedChannels == Channels(args)
    ensures streamIds == newIds[..|Channels(args)|]
  {
    invokeArgs, reflectedChannels, streamIds := [], [], [];
    for i := 0 to |args|
      invariant invokeArgs == Plains(args[..i]) && reflectedChannels == Channels(args[..i])
      invariant |streamIds| == |reflectedChannels| <= |Channels(args)| && streamIds == newIds[..|streamIds|]
    {
      SplitAppend(args[..i], args[i]);
      assert args[..i + 1] == args[..i] + [args[i]];
      SplitPrefix(args, i + 1);
      if args[i].Channel? {
        reflectedChannels := reflectedChannels + [args[i].c];
        streamIds := streamIds + [newIds[|streamIds|]];
      } else {
        invokeArgs := invokeArgs + [args[i].raw];
      }
    }
    assert args[..|args|] == args;
  }

  lemma {:induction false} SplitPrefix(args: seq<Arg>, i: nat)
    requires i <= |args|
    ensures Channels(args[..i]) <= Channels(args) && Plains(args[..i]) <= Plains(args)
  {
    if i < |args| {
      var init := args[..|args| - 1];
      SplitPrefix(init, i);
      assert init[..i] == args[..i];
    } else {
      assert args[..i] == args;
    }
  }

  lemma {:induction false} SplitCounts(args: seq<Arg>)
    ensures |Channels(args)| + |Plains(args)| == |args|
  {
    if args != [] { SplitCounts(args[..|args| - 1]); }
  }

  /* ---- buildMethodArguments ---- */

  datatype Binding = ToStream(id: Id, handle: nat) | ToValue(v: Value)

  /** `IndexPanic` is the run-time panic of reading behind the arguments of the invocation. */
  datatype Outcome =
    | Built(bindings: seq<Binding>)
    | CountMismatch
    | StreamLimit
    | TooFewStreams
    | BadArgument
    | TooManyStreams
    | IndexPanic

  datatype Request = Request(args: seq<Raw>, ids: seq<Id>)

  datatype Limits = Limits(cap: nat, max: nat)

  /** The loop from parameter |done| on; `chans` stream ids are used up. */
  function Merge(params: seq<Param>, q: Request, s: Streams, l: Limits, dec: Decoder, done: seq<Binding>, chans: nat)
    : (Streams, Outcome)
    requires chans <= |done| <= |params|
    ensures s.InRange() ==> Merge(params, q, s, l, dec, done, chans).0.InRange()
    decreases |params| - |done|
  {
    var i := |done|;
    if i == |params| then (s, if |q.ids| != chans then TooManyStreams else Built(done))
    else
      var (s1, a) := BindChannel(s, q.ids, params[i], chans, l.cap, l.max);
      match a
      case Bound(h) => Merge(params, q, s1, l, dec, done + [ToStream(q.ids[chans], h)], chans + 1)
      case StreamLimitReached => (s1, StreamLimit)
      case MoreChansThanStreams => (s1, TooFewStreams)
      case NotStreaming =>
        if i - chans >= |q.args| then (s1, IndexPanic)
        else match dec(q.args[i - chans])
          case None => (s1, BadArgument)
          case Some(v) => Merge(params, q, s1, l, dec, done + [ToValue(v)], chans)
  }

  function Build(params: seq<Param>, q: Request, s: Streams, l: Limits, dec: Decoder): (Streams, Outcome)
    ensures s.InRange() ==> Build(params, q, s, l, dec).0.InRange()
  {
    if |q.ids| + |q.args| != |params| then (s, CountMismatch) else Merge(params, q, s, l, dec, [], 0)
  }

  method BuildMethodArguments(params: seq<Param>, q: Request, streamClient: StreamClient, dec: Decoder)
    returns (r: Outcome)
    requires streamClient.Valid()
    modifies streamClient
    ensures streamClient.Valid()
    ensures (streamClient.State(), r)
            == Build(params, q, old(streamClient.State()),
                     Limits(streamClient.streamBufferCapacity, streamClient.maxConcurrentStreams), dec)
  {
    if |q.ids| + |q.args| != |params| {
      return CountMismatch;
    }
    var arguments: seq<Binding> := [];
    var chanCount := 0;
    ghost var l := Limits(streamClient.streamBufferCapacity, streamClient.maxConcurrentStreams);
    ghost var whole := Merge(params, q, streamClient.State(), l, dec, [], 0);
    for i := 0 to |params|
      invariant streamClient.Valid() && |arguments| == i && chanCount <= i
      invariant Merge(params, q, streamClient.State(), l, dec, arguments, chanCount) == whole
    {
      ghost var s := streamClient.State();
      var arg := streamClient.BuildChannelArgument(q.ids, params[i], chanCount);
      match arg
      case MoreChansThanStreams =>
        MergeStuck(params, q, s, l, dec, arguments, chanCount);
        return TooFewStreams;
      case StreamLimitReached =>
        MergeStuck(params, q, s, l, dec, arguments, chanCount);
        return StreamLimit;
      case Bound(h) =>
        MergeOpenStep(params, q, s, streamClient.State(), l, dec, arguments, chanCount, arguments + [ToStream(q.ids[chanCount], h)]);
        arguments := arguments + [ToStream(q.ids[chanCount], h)];
        chanCount := chanCount + 1;
      case NotStreaming =>
        if i - chanCount >= |q.args| {
          MergeStuck(params, q, s, l, dec, arguments, chanCount);
          return IndexPanic;
        }
        var v := dec(q.args[i - chanCount]);
        if v.None? {
          MergeStuck(params, q, s, l, dec, arguments, chanCount);
          return BadArgument;
        }
        MergeValueStep(params, q, s, l, dec, arguments, chanCount, arguments + [ToValue(v.value)]);
        arguments := arguments + [ToValue(v.value)];
    }
    if |q.ids| != chanCount {
      return TooManyStreams;
    }
    return Built(arguments);
  }

  /* ---- when it works ---- */

  function ChanParams(params: seq<Param>): nat {
    if params == [] then 0
    else ChanParams(params[..|params| - 1]) + if params[|params| - 1].ReceiveChan? then 1 else 0
  }

  lemma {:induction false} ChanParamsPrefix(params: seq<Param>, i: nat)
    requires i <= |params|
    ensures ChanParams(params[..i]) <= ChanParams(params) <= ChanParams(params[..i]) + (|params| - i)
    ensures ChanParams(params[..i]) <= i
    ensures i < |params| ==> ChanParams(params[..i + 1]) == ChanParams(params[..i]) + if params[i].ReceiveChan? then 1 else 0
  {
    if i < |params| {
      var init := params[..|params| - 1];
      ChanParamsPrefix(init, i);
      assert init[..i] == params[..i];
      assert params[..i + 1][..i] == params[..i];
    } else {
      assert params[..i] == params;
      ChanParamsBound(params);
    }
  }

  lemma {:induction false} ChanParamsBound(params: seq<Param>)
    ensures ChanParams(params) <= |params|
  {
    if params != [] { ChanParamsBound(params[..|params| - 1]); }
  }

  /** What an outcome says about the number of channel parameters. */
  ghost predicate Follows(o: Outcome, chanParams: nat, q: Request, l: Limits, dec: Decoder) {
    match o
    case Built(_) => |q.ids| == chanParams
    case TooFewStreams => |q.ids| < chanParams
    case IndexPanic => |q.ids| > chanParams
    case BadArgument => exists a <- q.args :: dec(a).None?
    case StreamLimit => l.max > 0
    case CountMismatch => false
    case TooManyStreams => false
  }

  /** Where `done` parameters are bound, `chans` of them to streams. */
  ghost predicate Partway(params: seq<Param>, q: Request, done: nat, chans: nat) {
    && done <= |params| && chans == ChanParams(params[..done]) && chans <= |q.ids| && chans <= done
    && |q.ids| + |q.args| == |params| && done - chans <= |q.args|
  }

  /** The counts at the next parameter: what comes after it, and what it means to get stuck there. */
  lemma NextCounts(params: seq<Param>, q: Request, done: nat, chans: nat)
    requires Partway(params, q, done, chans)
    ensures done == |params| ==> |q.ids| == chans == ChanParams(params)
    ensures done < |params| && params[done].ReceiveChan? ==>
              if chans < |q.ids| then Partway(params, q, done + 1, chans + 1) else |q.ids| < ChanParams(params)
    ensures done < |params| && !params[done].ReceiveChan? ==>
              if done - chans < |q.args| then Partway(params, q, done + 1, chans) else |q.ids| > ChanParams(params)
  {
    ChanParamsPrefix(params, done);
    if done == |params| { assert params[..done] == params; } else { ChanParamsPrefix(params, done + 1); }
  }

  lemma {:induction false} MergeOutcome(params: seq<Param>, q: Request, s: Streams, l: Limits, dec: Decoder, done: seq<Binding>, chans: nat)
    requires Partway(params, q, |done|, chans)
    ensures Follows(Merge(params, q, s, l, dec, done, chans).1, ChanParams(params), q, l, dec)
    decreases |params| - |done|
  {
    var i := |done|;
    NextCounts(params, q, i, chans);
    if i < |params| && params[i].ReceiveChan? {
      if chans < |q.ids| && !(0 < l.max <= |s.up|) {
        var s1, done' := s.Open(q.ids[chans], l.cap), done + [ToStream(q.ids[chans], |s.cells|)];
        MergeOutcome(params, q, s1, l, dec, done', chans + 1);
        MergeOpenStep(params, q, s, s1, l, dec, done, chans, done');
      }
    } else if i < |params| {
      ValueOutcome(params, q, s, l, dec, done, chans);
      if i - chans < |q.args| && dec(q.args[i - chans]).Some? {
        var done' := done + [ToValue(dec(q.args[i - chans]).value)];
        MergeOutcome(params, q, s, l, dec, done', chans);
        MergeValueStep(params, q, s, l, dec, done, chans, done');
      }
    }
  }

  lemma ValueOutcome(params: seq<Param>, q: Request, s: Streams, l: Limits, dec: Decoder, done: seq<Binding>, chans: nat)
    requires chans <= |done| < |params| && !params[|done|].ReceiveChan?
    ensures var o := Merge(params, q, s, l, dec, done, chans).1;
            && (|done| - chans >= |q.args| ==> o == IndexPanic)
            && (|done| - chans < |q.args| && dec(q.args[|done| - chans]).None? ==>
                  o == BadArgument && exists a <- q.args :: dec(a).None?)
  {
    if |done| - chans < |q.args| { assert q.args[|done| - chans] in q.args; }
  }

  /** There is room for `n` more streams. */
  predicate Room(s: Streams, l: Limits, n: nat) { l.max == 0 || |s.up| + n <= l.max }

  lemma OpenGrows(s: Streams, id: Id, cap: nat)
    ensures |s.Open(id, cap).up| == if id in s.up then |s.up| else |s.up| + 1
  {
    var t := s.Open(id, cap);
    assert t.up.Keys == s.up.Keys + {id} && |t.up| == |t.up.Keys| && |s.up| == |s.up.Keys|;
  }

  /** With room for all announced streams the limit does not strike. */
  lemma {:induction false} RoomSuffices(params: seq<Param>, q: Request, s: Streams, l: Limits, dec: Decoder,
                                        done: seq<Binding>, chans: nat)
    requires chans <= |done| <= |params| && chans <= |q.ids| && Room(s, l, |q.ids| - chans)
    ensures !Merge(params, q, s, l, dec, done, chans).1.StreamLimit?
    decreases |params| - |done|
  {
    var i := |done|;
    if i < |params| {
      var (s1, a) := BindChannel(s, q.ids, params[i], chans, l.cap, l.max);
      if a.Bound? {
        OpenGrows(s, q.ids[chans], l.cap);
        RoomSuffices(params, q, s1, l, dec, done + [ToStream(q.ids[chans], a.handle)], chans + 1);
      } else if a.NotStreaming? && i - chans < |q.args| && dec(q.args[i - chans]).Some? {
        RoomSuffices(params, q, s1, l, dec, done + [ToValue(dec(q.args[i - chans]).value)], chans);
      }
    }
  }

  /** Stream ids from `chans` on are new and different from each other. */
  predicate NewIds(s: Streams, ids: seq<Id>, chans: nat) {
    && (forall j | chans <= j < |ids| :: ids[j] !in s.up)
    && (forall i, j | 0 <= i < j < |ids| :: ids[i] != ids[j])
  }

  /** The channel parameter at which a limit of `room` more streams strikes comes no later than the
      plain parameter for which there is no argument. */
  ghost predicate LimitFirst(params: seq<Param>, room: nat, args: nat) {
    exists i :: 0 <= i < |params| && LimitAt(params, room, i) && i - room <= args
  }

  predicate LimitAt(params: seq<Param>, room: nat, i: nat)
    requires i < |params|
  {
    params[i].ReceiveChan? && ChanParams(params[..i]) == room
  }

  /** The outcome when all arguments decode, `room` more streams fit and the counts add up. */
  ghost predicate ByCounts(o: Outcome, params: seq<Param>, q: Request, room: nat) {
    var n, k := |q.ids|, ChanParams(params);
    if n <= k then
      && (o.StreamLimit? <==> room < n)
      && (o.TooFewStreams? <==> n <= room && n < k)
      && (o.Built? <==> n <= room && n == k)
    else
      && (o.StreamLimit? <==> LimitFirst(params, room, |q.args|))
      && (o.IndexPanic? <==> !LimitFirst(params, room, |q.args|))
  }

  lemma ChanMonotone(params: seq<Param>, a: nat, b: nat)
    requires a <= b <= |params|
    ensures ChanParams(params[..a]) <= ChanParams(params[..b]) <= ChanParams(params[..a]) + (b - a)
  {
    ChanParamsPrefix(params[..b], a);
    assert params[..b][..a] == params[..a];
  }

  lemma LimitComesLater(params: seq<Param>, room: nat, i: nat, j: nat)
    requires i < |params| && j < |params| && LimitAt(params, room, j)
    requires ChanParams(params[..i]) <= room && !params[i].ReceiveChan?
    ensures j - room > i - ChanParams(params[..i])
  {
    ChanParamsPrefix(params, i);
    ChanParamsPrefix(params, j);
    if j < i { ChanMonotone(params, j + 1, i); } else if i < j { ChanMonotone(params, i + 1, j); }
  }

  /** No argument is left for plain parameter `i`. */
  lemma PanicByCounts(params: seq<Param>, q: Request, i: nat, chans: nat, room: nat)
    requires i < |params| && chans == ChanParams(params[..i]) <= |q.ids| && chans <= room && !params[i].ReceiveChan?
    requires |q.ids| + |q.args| == |params| && i - chans == |q.args|
    ensures ByCounts(IndexPanic, params, q, room)
  {
    ChanParamsPrefix(params, i + 1);
    ChanParamsPrefix(params, i);
    forall j | 0 <= j < |params| && LimitAt(params, room, j) ensures j - room > |q.args| {
      LimitComesLater(params, room, i, j);
    }
  }

  lemma StopByCounts(params: seq<Param>, q: Request, i: nat, chans: nat, room: nat)
    requires i < |params| && chans == ChanParams(params[..i]) <= |q.ids| && chans <= room && params[i].ReceiveChan?
    requires |q.ids| + |q.args| == |params| && i - chans <= |q.args|
    ensures chans == |q.ids| ==> ByCounts(TooFewStreams, params, q, room)
    ensures chans == room < |q.ids| ==> ByCounts(StreamLimit, params, q, room)
  {
    ChanParamsPrefix(params, i + 1);
    ChanParamsPrefix(params, i);
    if chans == room { assert LimitAt(params, room, i); }
  }

  /** Where `done` parameters are bound, `chans` of them to streams, and `room` streams fit in all. */
  ghost predicate Midway(params: seq<Param>, q: Request, s: Streams, l: Limits, dec: Decoder, done: nat, chans: nat, room: nat) {
    && Partway(params, q, done, chans) && chans <= room && (forall a <- q.args :: dec(a).Some?)
    && NewIds(s, q.ids, chans) && (0 < l.max <= |s.up| <==> chans == room)
    && (l.max > 0 && chans < room ==> |s.up| + (room - chans) == l.max)
    && (l.max == 0 ==> room > |params|)
  }

  lemma {:induction false} MergeExact(params: seq<Param>, q: Request, s: Streams, l: Limits, dec: Decoder,
                                      done: seq<Binding>, chans: nat, room: nat)
    requires Midway(params, q, s, l, dec, |done|, chans, room)
    ensures ByCounts(Merge(params, q, s, l, dec, done, chans).1, params, q, room)
    decreases |params| - |done|, 1
  {
    var i := |done|;
    if i == |params| {
      assert params[..i] == params;
    } else if params[i].ReceiveChan? {
      if chans < |q.ids| && !(0 < l.max <= |s.up|) {
        MergeExactOpen(params, q, s, l, dec, done, chans, room);
      } else {
        StopByCounts(params, q, i, chans, room);
      }
    } else if i - chans < |q.args| {
      MergeExactValue(params, q, s, l, dec, done, chans, room);
    } else {
      PanicByCounts(params, q, i, chans, room);
    }
  }

  lemma {:induction false} MergeExactOpen(params: seq<Param>, q: Request, s: Streams, l: Limits, dec: Decoder,
                                          done: seq<Binding>, chans: nat, room: nat)
    requires Midway(params, q, s, l, dec, |done|, chans, room)
    requires |done| < |params| && params[|done|].ReceiveChan? && chans < |q.ids| && !(0 < l.max <= |s.up|)
    ensures ByCounts(Merge(params, q, s, l, dec, done, chans).1, params, q, room)
    decreases |params| - |done|, 0
  {
    var s1, done' := s.Open(q.ids[chans], l.cap), done + [ToStream(q.ids[chans], |s.cells|)];
    MidwayOpen(params, q, s, s1, l, dec, |done|, chans, room);
    MergeExact(params, q, s1, l, dec, done', chans + 1, room);
    MergeOpenStep(params, q, s, s1, l, dec, done, chans, done');
  }

  lemma MidwayOpen(params: seq<Param>, q: Request, s: Streams, s1: Streams, l: Limits, dec: Decoder, done: nat, chans: nat, room: nat)
    requires Midway(params, q, s, l, dec, done, chans, room)
    requires done < |params| && params[done].ReceiveChan? && chans < |q.ids| && !(0 < l.max <= |s.up|)
    requires s1 == s.Open(q.ids[chans], l.cap)
    ensures Midway(params, q, s1, l, dec, done + 1, chans + 1, room)
  {
    NextCounts(params, q, done, chans);
    OpenGrows(s, q.ids[chans], l.cap);
  }

  lemma MergeOpenStep(params: seq<Param>, q: Request, s: Streams, s1: Streams, l: Limits, dec: Decoder, done: seq<Binding>,
                      chans: nat, done': seq<Binding>)
    requires chans <= |done| < |params| && params[|done|].ReceiveChan? && chans < |q.ids| && !(0 < l.max <= |s.up|)
    requires s1 == s.Open(q.ids[chans], l.cap) && done' == done + [ToStream(q.ids[chans], |s.cells|)]
    ensures Merge(params, q, s, l, dec, done, chans) == Merge(params, q, s1, l, dec, done', chans + 1)
  {
  }

  lemma {:induction false} MergeExactValue(params: seq<Param>, q: Request, s: Streams, l: Limits, dec: Decoder,
                                           done: seq<Binding>, chans: nat, room: nat)
    requires Midway(params, q, s, l, dec, |done|, chans, room)
    requires |done| < |params| && !params[|done|].ReceiveChan? && |done| - chans < |q.args|
    ensures ByCounts(Merge(params, q, s, l, dec, done, chans).1, params, q, room)
    decreases |params| - |done|, 0
  {
    assert q.args[|done| - chans] in q.args;
    var done' := done + [ToValue(dec(q.args[|done| - chans]).value)];
    MidwayValue(params, q, s, l, dec, |done|, chans, room);
    MergeExact(params, q, s, l, dec, done', chans, room);
    MergeValueStep(params, q, s, l, dec, done, chans, done');
  }

  lemma MidwayValue(params: seq<Param>, q: Request, s: Streams, l: Limits, dec: Decoder, done: nat, chans: nat, room: nat)
    requires Midway(params, q, s, l, dec, done, chans, room)
    requires done < |params| && !params[done].ReceiveChan? && done - chans < |q.args|
    ensures Midway(params, q, s, l, dec, done + 1, chans, room)
  {
    NextCounts(params, q, done, chans);
  }

  lemma MergeValueStep(params: seq<Param>, q: Request, s: Streams, l: Limits, dec: Decoder,
                       done: seq<Binding>, chans: nat, done': seq<Binding>)
    requires chans <= |done| < |params| && !params[|done|].ReceiveChan? && |done| - chans < |q.args|
    requires var v := dec(q.args[|done| - chans]); v.Some? && done' == done + [ToValue(v.value)]
    ensures Merge(params, q, s, l, dec, done, chans) == Merge(params, q, s, l, dec, done', chans)
  {
  }

  /** How many more streams fit; without a limit, more than there are parameters. */
  function Spare(params: seq<Param>, s: Streams, l: Limits): nat {
    if l.max == 0 then |params| + 1 else if l.max <= |s.up| then 0 else l.max - |s.up|
  }

  /** Building succeeds, fails or panics by the counts alone, limit included, when the arguments
      decode and the stream ids are new.  The check behind the loop never fires, and an index panic
      takes more stream ids than channel parameters. */
  lemma OutcomeByCounts(params: seq<Param>, q: Request, s: Streams, l: Limits, dec: Decoder)
    ensures var o := Build(params, q, s, l, dec).1;
            && !o.TooManyStreams?
            && (o.CountMismatch? <==> |q.ids| + |q.args| != |params|)
            && (o.Built? ==> |q.ids| == ChanParams(params))
            && (o.IndexPanic? ==> |q.ids| > ChanParams(params))
            && (!o.CountMismatch? && (forall a <- q.args :: dec(a).Some?) && NewIds(s, q.ids, 0) ==>
                  ByCounts(o, params, q, Spare(params, s, l)))
  {
    if |q.ids| + |q.args| == |params| {
      MergeOutcome(params, q, s, l, dec, [], 0);
      if (forall a <- q.args :: dec(a).Some?) && NewIds(s, q.ids, 0) {
        MergeExact(params, q, s, l, dec, [], 0, Spare(params, s, l));
      }
    }
  }

  /** The ids that binding the parameters from `done` on gives channels to. */
  function BoundIds(params: seq<Param>, q: Request, s: Streams, l: Limits, dec: Decoder, done: nat, chans: nat): seq<Id>
    requires chans <= done <= |params|
    decreases |params| - done
  {
    if done == |params| then []
    else if params[done].ReceiveChan? then
      if |q.ids| <= chans || 0 < l.max <= |s.up| then []
      else [q.ids[chans]] + BoundIds(params, q, s.Open(q.ids[chans], l.cap), l, dec, done + 1, chans + 1)
    else if |q.args| <= done - chans || dec(q.args[done - chans]).None? then []
    else BoundIds(params, q, s, l, dec, done + 1, chans)
  }

  /** The table after binding is the one with those channels opened, one after the other. */
  lemma {:induction false} MergeOpens(params: seq<Param>, q: Request, s: StreamTable, l: Limits, dec: Decoder,
                                      done: seq<Binding>, chans: nat, t: Streams, ids: seq<Id>)
    requires chans <= |done| <= |params|
    requires t == Merge(params, q, s, l, dec, done, chans).0 && ids == BoundIds(params, q, s, l, dec, |done|, chans)
    ensures t == OpenAll(s, ids, l.cap)
    decreases |params| - |done|, 1
  {
    var i := |done|;
    if i < |params| && params[i].ReceiveChan? && chans < |q.ids| && !(0 < l.max <= |s.up|) {
      MergeOpensOne(params, q, s, l, dec, done, chans, t, ids);
    } else if i < |params| && !params[i].ReceiveChan? && i - chans < |q.args| && dec(q.args[i - chans]).Some? {
      var done' := done + [ToValue(dec(q.args[i - chans]).value)];
      MergeValueStep(params, q, s, l, dec, done, chans, done');
      MergeOpens(params, q, s, l, dec, done', chans, t, ids);
    } else if i < |params| {
      MergeStuck(params, q, s, l, dec, done, chans);
    }
  }

  lemma {:induction false} MergeOpensOne(params: seq<Param>, q: Request, s: StreamTable, l: Limits, dec: Decoder,
                                         done: seq<Binding>, chans: nat, t: Streams, ids: seq<Id>)
    requires chans <= |done| < |params| && params[|done|].ReceiveChan? && chans < |q.ids| && !(0 < l.max <= |s.up|)
    requires t == Merge(params, q, s, l, dec, done, chans).0 && ids == BoundIds(params, q, s, l, dec, |done|, chans)
    ensures t == OpenAll(s, ids, l.cap)
    decreases |params| - |done|, 0
  {
    var s1, done' := s.Open(q.ids[chans], l.cap), done + [ToStream(q.ids[chans], |s.cells|)];
    MergeOpenStep(params, q, s, s1, l, dec, done, chans, done');
    BoundFirst(params, q, s, s1, l, dec, |done|, chans, ids);
    MergeOpens(params, q, s1, l, dec, done', chans + 1, t, ids[1..]);
  }

  lemma BoundFirst(params: seq<Param>, q: Request, s: Streams, s1: Streams, l: Limits, dec: Decoder, done: nat, chans: nat, ids: seq<Id>)
    requires chans <= done < |params| && params[done].ReceiveChan? && chans < |q.ids| && !(0 < l.max <= |s.up|)
    requires s1 == s.Open(q.ids[chans], l.cap) && ids == BoundIds(params, q, s, l, dec, done, chans)
    ensures ids != [] && ids[0] == q.ids[chans] && ids[1..] == BoundIds(params, q, s1, l, dec, done + 1, chans + 1)
  {
    assert ids == [q.ids[chans]] + BoundIds(params, q, s1, l, dec, done + 1, chans + 1);
  }

  /** The channels that opening others for `ids` makes unreachable. */
  function Drops(s: Streams, ids: seq<Id>, cap: nat): set<nat>
    decreases |ids|
  {
    if ids == [] then {} else Dropped(s, ids[0]) + Drops(s.Open(ids[0], cap), ids[1..], cap)
  }

  lemma {:induction false} OpenAllKeepsExact(s: StreamTable, lost: set<nat>, ids: seq<Id>, cap: nat)
    requires StreamsExact(s, lost)
    ensures StreamsExact(OpenAll(s, ids, cap), lost + Drops(s, ids, cap))
    decreases |ids|
  {
    if ids == [] {
      assert lost + {} == lost;
    } else {
      var s1, first, more := s.Open(ids[0], cap), Dropped(s, ids[0]), Drops(s.Open(ids[0], cap), ids[1..], cap);
      OpenKeepsExact(s, lost, ids[0], cap);
      OpenAllKeepsExact(s1, lost + first, ids[1..], cap);
      assert lost + first + more == lost + (first + more);
    }
  }

  /** The open channels stay exactly the registered and the lost ones. */
  lemma MergeKeepsExact(params: seq<Param>, q: Request, s: StreamTable, lost: set<nat>, l: Limits, dec: Decoder)
    requires StreamsExact(s, lost)
    ensures StreamsExact(Merge(params, q, s, l, dec, [], 0).0, lost + Drops(s, BoundIds(params, q, s, l, dec, 0, 0), l.cap))
  {
    var ids := BoundIds(params, q, s, l, dec, 0, 0);
    MergeOpens(params, q, s, l, dec, [], 0, Merge(params, q, s, l, dec, [], 0).0, ids);
    OpenAllKeepsExact(s, lost, ids, l.cap);
  }

  /** Binding streams never takes a loop over its limit of concurrent streams; a table that pulled
      streams took above it does not grow. */
  lemma {:induction false} MergeKeepsLimit(params: seq<Param>, q: Request, s: Streams, l: Limits, dec: Decoder,
                                           done: seq<Binding>, chans: nat)
    requires chans <= |done| <= |params| && l.max > 0
    ensures var up := Merge(params, q, s, l, dec, done, chans).0.up; |up| <= l.max || up == s.up
    decreases |params| - |done|
  {
    var i := |done|;
    if i < |params| {
      if params[i].ReceiveChan? && chans < |q.ids| && !(0 < l.max <= |s.up|) {
        var s1, done' := s.Open(q.ids[chans], l.cap), done + [ToStream(q.ids[chans], |s.cells|)];
        OpenGrows(s, q.ids[chans], l.cap);
        MergeKeepsLimit(params, q, s1, l, dec, done', chans + 1);
        MergeOpenStep(params, q, s, s1, l, dec, done, chans, done');
      } else if !params[i].ReceiveChan? && i - chans < |q.args| && dec(q.args[i - chans]).Some? {
        var done' := done + [ToValue(dec(q.args[i - chans]).value)];
        MergeKeepsLimit(params, q, s, l, dec, done', chans);
        MergeValueStep(params, q, s, l, dec, done, chans, done');
      } else {
        MergeStuck(params, q, s, l, dec, done, chans);
      }
    }
  }

  /* ---- split and merge are inverse ---- */

  /** Channels meet receive parameters, position by position. */
  predicate Matches(params: seq<Param>, args: seq<Arg>) {
    |params| == |args| && forall i | 0 <= i < |args| :: params[i].ReceiveChan? <==> args[i].Channel?
  }

  /** Argument `i` as the method should see it: the stream that carries its channel, or its value. */
  ghost predicate Binds(b: Binding, args: seq<Arg>, ids: seq<Id>, i: nat, dec: Decoder)
    requires i < |args|
  {
    match args[i]
    case Channel(c) =>
      var k := |Channels(args[..i])|;
      k < |Channels(args)| == |ids| && Channels(args)[k] == c && b.ToStream? && b.id == ids[k]
    case Plain(raw) => b.ToValue? && dec(raw) == Some(b.v)
  }

  ghost predicate AllBound(bs: seq<Binding>, args: seq<Arg>, ids: seq<Id>, dec: Decoder) {
    |bs| == |args| && forall i | 0 <= i < |args| :: Binds(bs[i], args, ids, i, dec)
  }

  ghost predicate BoundSoFar(bs: seq<Binding>, args: seq<Arg>, ids: seq<Id>, dec: Decoder) {
    bs == [] ||
    (|bs| <= |args| && BoundSoFar(bs[..|bs| - 1], args, ids, dec) && Binds(bs[|bs| - 1], args, ids, |bs| - 1, dec))
  }

  lemma {:induction false} BoundSoFarAt(bs: seq<Binding>, args: seq<Arg>, ids: seq<Id>, i: nat, dec: Decoder)
    requires BoundSoFar(bs, args, ids, dec) && i < |bs|
    ensures |bs| <= |args| && Binds(bs[i], args, ids, i, dec)
    decreases |bs|
  {
    if i < |bs| - 1 { BoundSoFarAt(bs[..|bs| - 1], args, ids, i, dec); }
  }

  lemma {:induction false} MatchedCounts(params: seq<Param>, args: seq<Arg>)
    requires Matches(params, args)
    ensures ChanParams(params) == |Channels(args)|
  {
    if args != [] { MatchedCounts(params[..|params| - 1], args[..|args| - 1]); }
  }

  lemma ArgumentAt(args: seq<Arg>, i: nat)
    requires i < |args|
    ensures |Channels(args[..i])| + |Plains(args[..i])| == i
    ensures args[i].Channel? ==>
              var k := |Channels(args[..i])|; k < |Channels(args)| && Channels(args)[k] == args[i].c
    ensures args[i].Plain? ==>
              var k := i - |Channels(args[..i])|; k < |Plains(args)| && Plains(args)[k] == args[i].raw
  {
    SplitCounts(args[..i]);
    SplitAppend(args[..i], args[i]);
    assert args[..i + 1] == args[..i] + [args[i]];
    SplitPrefix(args, i + 1);
  }

  /** What the loop does at parameter `i` is right for argument `i`. */
  lemma NextBinding(params: seq<Param>, args: seq<Arg>, ids: seq<Id>, s: Streams, l: Limits, dec: Decoder, i: nat)
    requires Matches(params, args) && |ids| == |Channels(args)| && i < |args|
    ensures var chans := |Channels(args[..i])|;
            var a := BindChannel(s, ids, params[i], chans, l.cap, l.max).1;
            && chans <= i
            && (a.Bound? ==> chans < |ids| && |Channels(args[..i + 1])| == chans + 1
                             && Binds(ToStream(ids[chans], a.handle), args, ids, i, dec))
            && (a.NotStreaming? ==>
                  && i - chans < |Plains(args)| && |Channels(args[..i + 1])| == chans
                  && var v := dec(Plains(args)[i - chans]); v.Some? ==> Binds(ToValue(v.value), args, ids, i, dec))
  {
    ArgumentAt(args, i);
    SplitAppend(args[..i], args[i]);
    assert args[..i + 1] == args[..i] + [args[i]];
  }

  lemma BindOneMore(done: seq<Binding>, b: Binding, args: seq<Arg>, ids: seq<Id>, dec: Decoder)
    requires BoundSoFar(done, args, ids, dec) && |done| < |args| && Binds(b, args, ids, |done|, dec)
    ensures BoundSoFar(done + [b], args, ids, dec)
  {
    assert (done + [b])[..|done|] == done;
  }

  lemma {:induction false} MergeBinds(params: seq<Param>, args: seq<Arg>, q: Request, s: Streams, l: Limits, dec: Decoder,
                                      done: seq<Binding>, chans: nat, o: Outcome)
    requires Matches(params, args) && q.args == Plains(args) && |q.ids| == |Channels(args)|
    requires |done| <= |args| && BoundSoFar(done, args, q.ids, dec) && chans == |Channels(args[..|done|])| <= |done|
    requires o == Merge(params, q, s, l, dec, done, chans).1
    ensures o.Built? ==> |o.bindings| == |args| && BoundSoFar(o.bindings, args, q.ids, dec)
    decreases |args| - |done|, 1
  {
    var i := |done|;
    if i < |args| {
      NextBinding(params, args, q.ids, s, l, dec, i);
      if params[i].ReceiveChan? && chans < |q.ids| && !(0 < l.max <= |s.up|) {
        var s1, b := s.Open(q.ids[chans], l.cap), ToStream(q.ids[chans], |s.cells|);
        MergeOpenStep(params, q, s, s1, l, dec, done, chans, done + [b]);
        MergeBindsMore(params, args, q, s1, l, dec, done, b, chans + 1, o);
      } else if !params[i].ReceiveChan? && dec(q.args[i - chans]).Some? {
        var b := ToValue(dec(q.args[i - chans]).value);
        MergeValueStep(params, q, s, l, dec, done, chans, done + [b]);
        MergeBindsMore(params, args, q, s, l, dec, done, b, chans, o);
      } else {
        MergeStuck(params, q, s, l, dec, done, chans);
      }
    }
  }

  lemma MergeStuck(params: seq<Param>, q: Request, s: Streams, l: Limits, dec: Decoder, done: seq<Binding>, chans: nat)
    requires chans <= |done| < |params|
    requires if params[|done|].ReceiveChan? then |q.ids| <= chans || 0 < l.max <= |s.up|
             else |q.args| <= |done| - chans || dec(q.args[|done| - chans]).None?
    ensures Merge(params, q, s, l, dec, done, chans)
            == (s, if params[|done|].ReceiveChan? then if |q.ids| <= chans then TooFewStreams else StreamLimit
                   else if |q.args| <= |done| - chans then IndexPanic else BadArgument)
  {
  }

  lemma {:induction false} MergeBindsMore(params: seq<Param>, args: seq<Arg>, q: Request, s: Streams, l: Limits, dec: Decoder,
                                          done: seq<Binding>, b: Binding, chans: nat, o: Outcome)
    requires Matches(params, args) && q.args == Plains(args) && |q.ids| == |Channels(args)|
    requires |done| < |args| && BoundSoFar(done, args, q.ids, dec) && Binds(b, args, q.ids, |done|, dec)
    requires chans == |Channels(args[..|done| + 1])| <= |done| + 1
    requires o == Merge(params, q, s, l, dec, done + [b], chans).1
    ensures o.Built? ==> |o.bindings| == |args| && BoundSoFar(o.bindings, args, q.ids, dec)
    decreases |args| - |done|, 0
  {
    BindOneMore(done, b, args, q.ids, dec);
    MergeBinds(params, args, q, s, l, dec, done + [b], chans, o);
  }

  /** What PushStreams took apart, buildMethodArguments puts together: parameter `i` is bound to
      original argument `i`, for every matching signature.  With decodable arguments it succeeds if
      there is room for the streams, and for new stream ids only then. */
  lemma SplitThenMerge(params: seq<Param>, args: seq<Arg>, ids: seq<Id>, s: Streams, l: Limits, dec: Decoder)
    requires Matches(params, args) && |ids| == |Channels(args)|
    ensures var o := Build(params, Request(Plains(args), ids), s, l, dec).1;
            && (o.Built? ==> AllBound(o.bindings, args, ids, dec))
            && ((forall a <- Plains(args) :: dec(a).Some?) && Room(s, l, |ids|) ==> o.Built?)
            && ((forall a <- Plains(args) :: dec(a).Some?) && NewIds(s, ids, 0) ==> (o.Built? <==> ids == [] || Room(s, l, |ids|)))
            && !o.IndexPanic? && !o.TooFewStreams? && !o.CountMismatch?
  {
    SplitCounts(args);
    MatchedCounts(params, args);
    assert args[..0] == [];
    var q := Request(Plains(args), ids);
    var o := Build(params, q, s, l, dec).1;
    MergeBinds(params, args, q, s, l, dec, [], 0, o);
    if o.Built? {
      forall i | 0 <= i < |args| ensures Binds(o.bindings[i], args, ids, i, dec) {
        BoundSoFarAt(o.bindings, args, ids, i, dec);
      }
    }
    MergeOutcome(params, q, s, l, dec, [], 0);
    OutcomeByCounts(params, q, s, l, dec);
    if Room(s, l, |ids|) { RoomSuffices(params, q, s, l, dec, [], 0); }
  }
}
