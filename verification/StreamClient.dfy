/** The receiving ends of streams (streamclient.go). */
module StreamClients {
  import opened Wrappers
  import opened Messages
  import opened Channels
  import opened InvokeClients

  /** `up` is upstreamChannels, a handle being an index into `cells`, the stream channels made so
      far; `running` is runningStreams. */
  datatype Streams = Streams(up: map<Id, nat>, running: set<Id>, cells: seq<Chan<Value>>) {
    predicate InRange() { forall id <- up :: up[id] < |cells| }

    /** newUpstreamChannel, and the registering branch of buildChannelArgument */
    function Open(id: Id, cap: nat): Streams {
      Streams(up[id := |cells|], running, cells + [MakeChan(cap)])
    }

    /** deleteUpstreamChannel */
    function Remove(id: Id): Streams
      requires InRange()
    {
      if id !in up then this
      else Streams(up - {id}, running, cells[up[id] := cells[up[id]].Close()])
    }

    /** receiveStreamItem; `timely` says that a reader took the item within chanReceiveTimeout. */
    function ReceiveItem(id: Id, item: Raw, timely: bool, dec: Decoder): (Streams, Option<HandlerError>)
      requires InRange()
    {
      if id !in up then (this, Some(UnknownStreamId))
      else
        var s := this.(running := running + {id});
        match dec(item)
        case None => (s, Some(DecodeFailed))
        case Some(v) =>
          if timely then (s.(cells := cells[up[id] := cells[up[id]].Send(v)]), None)
          else (s, Some(ReceiveTimeout))
    }
  }

  /** How buildChannelArgument sees a parameter: a channel the method can receive from, or not. */
  datatype Param = Plain | SendOnlyChan | ReceiveChan

  datatype ChanArg = NotStreaming | Bound(handle: nat) | StreamLimitReached | MoreChansThanStreams

  /** buildChannelArgument; `max` is maxConcurrentStreams, 0 meaning no limit. */
  function BindChannel(s: Streams, ids: seq<Id>, param: Param, chanCount: nat, cap: nat, max: nat): (Streams, ChanArg)
    ensures s.InRange() ==> BindChannel(s, ids, param, chanCount, cap, max).0.InRange()
  {
    if !param.ReceiveChan? then (s, NotStreaming)
    else if |ids| <= chanCount then (s, MoreChansThanStreams)
    else if 0 < max <= |s.up| then (s, StreamLimitReached)
    else (s.Open(ids[chanCount], cap), Bound(|s.cells|))
  }

  const NoStreams := Streams(map[], {}, [])

  type StreamTable = s: Streams | s.InRange() witness NoStreams

  /** Both registries of a loop. */
  datatype Registry = Registry(calls: CallTable, streams: StreamTable)

  /** streamClient.receiveCompletionItem for a registered stream */
  function CompleteStream(r: Registry, id: Id, result: Option<Raw>, error: string, timely: bool, dec: Decoder)
    : (Registry, Option<HandlerError>)
    requires id in r.streams.up
  {
    var (r1: Registry, e) :=
      if error != "" then
        var (c, e) := r.calls.Complete(id, result, error, dec); (r.(calls := c), e)
      else if result.None? then (r, None)
      else if id in r.streams.running then (r, Some(ResultOnRunningStream))
      else var (s, e) := r.streams.ReceiveItem(id, result.value, timely, dec); (r.(streams := s), e);
    var s := r1.streams.Remove(id);
    (Registry(r1.calls.Delete(id), s.(running := s.running - {id})), e)
  }

  /** handleCompletionMessage (loop.go) */
  function HandleCompletion(r: Registry, id: Id, result: Option<Raw>, error: string, timely: bool, dec: Decoder)
    : (Registry, Option<HandlerError>)
  {
    if id in r.streams.up then CompleteStream(r, id, result, error, timely, dec)
    else if id in r.calls.open then
      var (c, e) := r.calls.Complete(id, result, error, dec); (r.(calls := c), e)
    else (r, Some(UnknownInvocationId))
  }

  /** handleStreamItemMessage (loop.go): a receive timeout is answered to the peer, not returned. */
  function HandleItem(r: Registry, id: Id, item: Raw, timely: bool, dec: Decoder)
    : (Registry, Option<HandlerError>)
  {
    var (s, e) := r.streams.ReceiveItem(id, item, timely, dec);
    (r.(streams := s), if e == Some(ReceiveTimeout) then None else e)
  }

  /** buildChannelArgument for one id after the other */
  function OpenAll(s: StreamTable, ids: seq<Id>, cap: nat): (t: StreamTable)
    decreases |ids|
  {
    if ids == [] then s else OpenAll(s.Open(ids[0], cap), ids[1..], cap)
  }

  /** What the message loop does to its registries with a message (loop.go, Run).  An invocation is
      given channels for the first `bound` of its stream ids. */
  function HandleMessage(r: Registry, m: Message, timely: bool, cap: nat, bound: nat, dec: Decoder)
    : (Registry, Option<HandlerError>)
    requires m.Invocation? ==> bound <= |m.streamIds|
  {
    match m
    case StreamItem(id, item) => HandleItem(r, id, item, timely, dec)
    case Completion(id, result, error) => HandleCompletion(r, id, result, error, timely, dec)
    case Invocation(_, _, _, _, ids) => (r.(streams := OpenAll(r.streams, ids[..bound], cap)), None)
    case _ => (r, None)
  }

  /** PullStream (loop.go); `sent` says that SendStreamInvocation succeeded. */
  function StartPull(r: Registry, id: Id, cap: nat, sent: bool): Registry {
    var r1 := Registry(r.calls.Register(id), r.streams.Open(id, cap));
    if sent then r1 else Registry(r1.calls.Delete(id), r1.streams.Remove(id))
  }

  /** Invoke, Send and PushStreams as far as the registry goes (client.go, loop.go) */
  function RegisterCall(r: Registry, id: Id, sent: bool): Registry {
    var c: CallTable := r.calls.Register(id);
    r.(calls := if sent then c else c.Delete(id))
  }

  /* ---- the two registries agree ---- */

  datatype Slots = Slots(stream: nat, call: nat)

  /** `pulled` records every id PullStream ever registered with the channels it was given. */
  datatype Loop = Loop(reg: Registry, pulled: map<Id, Slots>)

  datatype Step =
    | Pull(id: Id, cap: nat, sent: bool)
    | Call(id: Id, sent: bool)
    | Upload(id: Id, cap: nat)
    | Item(id: Id, item: Raw, timely: bool)
    | Complete(id: Id, result: Option<Raw>, error: string, timely: bool)

  /** Ids of pulled streams are used for nothing else. */
  predicate Enabled(l: Loop, step: Step) {
    match step
    case Pull(id, _, _) => id !in l.pulled && id !in l.reg.streams.up && id !in l.reg.calls.open
    case Call(id, _) => id !in l.pulled
    case Upload(id, _) => id !in l.pulled
    case _ => true
  }

  function Next(l: Loop, step: Step, dec: Decoder): Loop {
    match step
    case Pull(id, cap, sent) =>
      Loop(StartPull(l.reg, id, cap, sent), l.pulled[id := Slots(|l.reg.streams.cells|, |l.reg.calls.cells|)])
    case Call(id, sent) => l.(reg := RegisterCall(l.reg, id, sent))
    case Upload(id, cap) => l.(reg := l.reg.(streams := l.reg.streams.Open(id, cap)))
    case Item(id, item, timely) => l.(reg := HandleItem(l.reg, id, item, timely, dec).0)
    case Complete(id, r, e, timely) => l.(reg := HandleCompletion(l.reg, id, r, e, timely, dec).0)
  }

  /** Registered channels are open and not shared; every channel is sound. */
  ghost predicate StreamsOk(s: StreamTable) {
    && Injective(s.up)
    && (forall id <- s.up :: s.cells[s.up[id]].closes == 0)
    && (forall i | 0 <= i < |s.cells| :: s.cells[i].Sound())
  }

  /** A pulled id is in both registries, under the channels PullStream made, or in neither, and
      then the stream channel and both call channels are closed. */
  ghost predicate PulledOk(l: Loop, id: Id)
    requires id in l.pulled
  {
    var Slots(u, c) := l.pulled[id];
    var r := l.reg;
    && u < |r.streams.cells| && c < |r.calls.cells|
    && (if id in r.streams.up then
          r.streams.up[id] == u && id in r.calls.open && r.calls.open[id] == c
        else
          id !in r.calls.open && r.streams.cells[u].closes == 1 && r.calls.cells[c].Closed())
  }

  ghost predicate LoopInv(l: Loop) {
    && CallsOk(l.reg.calls) && StreamsOk(l.reg.streams)
    && forall id <- l.pulled :: PulledOk(l, id)
  }

  lemma SendKeepsStreamsOk(s: StreamTable, id: Id, v: Value)
    requires StreamsOk(s) && id in s.up
    ensures StreamsOk(s.(cells := s.cells[s.up[id] := s.cells[s.up[id]].Send(v)]))
  {
  }

  lemma RemoveKeepsStreamsOk(s: StreamTable, id: Id)
    requires StreamsOk(s)
    ensures StreamsOk(s.Remove(id))
  {
    if id in s.up {
      var t := s.Remove(id);
      forall a <- t.up ensures t.cells[t.up[a]].closes == 0 {
        assert a in s.up && s.up[a] != s.up[id];
      }
    }
  }

  lemma OpenKeepsStreamsOk(s: StreamTable, id: Id, cap: nat)
    requires StreamsOk(s)
    ensures StreamsOk(s.Open(id, cap))
  {
  }

  lemma ReceiveKeepsStreamsOk(s: StreamTable, id: Id, item: Raw, timely: bool, dec: Decoder)
    requires StreamsOk(s)
    ensures StreamsOk(s.ReceiveItem(id, item, timely, dec).0)
  {
    if id in s.up && dec(item).Some? { SendKeepsStreamsOk(s, id, dec(item).value); }
  }

  lemma CompletionKeepsStreamsOk(r: Registry, id: Id, result: Option<Raw>, error: string, timely: bool, dec: Decoder)
    requires StreamsOk(r.streams)
    ensures StreamsOk(HandleCompletion(r, id, result, error, timely, dec).0.streams)
  {
    var s := r.streams;
    if id in s.up {
      RemoveKeepsStreamsOk(s, id);
      if error == "" && result.Some? {
        var t := s.ReceiveItem(id, result.value, timely, dec).0;
        ReceiveKeepsStreamsOk(s, id, result.value, timely, dec);
        RemoveKeepsStreamsOk(t, id);
      }
    }
  }

  lemma NextKeepsStreamsOk(l: Loop, step: Step, dec: Decoder)
    requires StreamsOk(l.reg.streams)
    ensures StreamsOk(Next(l, step, dec).reg.streams)
  {
    var s := l.reg.streams;
    match step
    case Pull(id, cap, sent) => OpenKeepsStreamsOk(s, id, cap); RemoveKeepsStreamsOk(s.Open(id, cap), id);
    case Call(_, _) =>
    case Upload(id, cap) => OpenKeepsStreamsOk(s, id, cap);
    case Item(id, item, timely) => ReceiveKeepsStreamsOk(s, id, item, timely, dec);
    case Complete(id, r, e, timely) => CompletionKeepsStreamsOk(l.reg, id, r, e, timely, dec);
  }

  /** The open channels are exactly the registered and the lost ones, and no channel is both. */
  ghost predicate StreamsExact(s: StreamTable, lost: set<nat>) {
    && StreamsOk(s) && s.up.Values !! lost && (forall i <- lost :: i < |s.cells|)
    && forall i | 0 <= i < |s.cells| :: s.cells[i].closes == 0 <==> i in s.up.Values || i in lost
  }

  /** The channel a registration makes unreachable: that of a stream with the same id. */
  function Dropped(s: Streams, id: Id): set<nat> { if id in s.up then {s.up[id]} else {} }

  lemma OpenKeepsExact(s: StreamTable, lost: set<nat>, id: Id, cap: nat)
    requires StreamsExact(s, lost)
    ensures StreamsExact(s.Open(id, cap), lost + Dropped(s, id))
  {
    OpenKeepsStreamsOk(s, id, cap);
    var t := s.Open(id, cap);
    assert t.up[id] == |s.cells|;
    forall i | i in t.up.Values ensures i == |s.cells| || (i in s.up.Values && i !in Dropped(s, id)) {
      var a :| a in t.up && t.up[a] == i;
    }
    forall i | i in s.up.Values && i !in Dropped(s, id) ensures i in t.up.Values {
      var a :| a in s.up && s.up[a] == i;
      assert a in t.up && t.up[a] == i;
    }
  }

  lemma RemoveKeepsExact(s: StreamTable, lost: set<nat>, id: Id)
    requires StreamsExact(s, lost)
    ensures StreamsExact(s.Remove(id), lost)
  {
    RemoveKeepsStreamsOk(s, id);
    var t := s.Remove(id);
    if id in s.up {
      forall i | i in s.up.Values && i != s.up[id] ensures i in t.up.Values {
        var a :| a in s.up && s.up[a] == i;
        assert a in t.up && t.up[a] == i;
      }
    }
  }

  lemma ReceiveKeepsExact(s: StreamTable, lost: set<nat>, id: Id, item: Raw, timely: bool, dec: Decoder)
    requires StreamsExact(s, lost)
    ensures StreamsExact(s.ReceiveItem(id, item, timely, dec).0, lost)
  {
    ReceiveKeepsStreamsOk(s, id, item, timely, dec);
  }

  lemma CompletionKeepsExact(r: Registry, lost: set<nat>, id: Id, result: Option<Raw>, error: string, timely: bool, dec: Decoder)
    requires StreamsExact(r.streams, lost)
    ensures StreamsExact(HandleCompletion(r, id, result, error, timely, dec).0.streams, lost)
  {
    var s := r.streams;
    if id in s.up {
      RemoveKeepsExact(s, lost, id);
      if error == "" && result.Some? {
        ReceiveKeepsExact(s, lost, id, result.value, timely, dec);
        RemoveKeepsExact(s.ReceiveItem(id, result.value, timely, dec).0, lost, id);
      }
    }
  }

  /** `t` comes from `s` by events on `id` alone: other ids keep their registration, and only the
      channel that `id` was registered under may have changed. */
  ghost predicate StreamFrame(s: StreamTable, t: StreamTable, id: Id) {
    && s.up - {id} == t.up - {id}
    && |s.cells| <= |t.cells|
    && (id in t.up ==> t.up[id] >= |s.cells| || (id in s.up && t.up[id] == s.up[id]))
    && forall i | 0 <= i < |s.cells| :: (id in s.up && s.up[id] == i) || s.cells[i] == t.cells[i]
  }

  ghost predicate CallFrame(s: CallTable, t: CallTable, id: Id) {
    && s.open - {id} == t.open - {id}
    && |s.cells| <= |t.cells|
    && (id in t.open ==> t.open[id] >= |s.cells| || (id in s.open && t.open[id] == s.open[id]))
    && forall i | 0 <= i < |s.cells| :: (id in s.open && s.open[id] == i) || s.cells[i] == t.cells[i]
  }

  lemma FrameKeepsPulled(l: Loop, r: Registry, id: Id, other: Id)
    requires LoopInv(l) && other in l.pulled && other != id
    requires StreamFrame(l.reg.streams, r.streams, id) && CallFrame(l.reg.calls, r.calls, id)
    ensures PulledOk(l.(reg := r), other)
  {
    var Slots(u, c) := l.pulled[other];
    assert PulledOk(l, other);
    var lost :| Inv(l.reg.calls, lost);
    assert CellOk(l.reg.calls, lost, c);
    var s, t := l.reg.streams, r.streams;
    assert other in s.up <==> other in s.up - {id};
    assert other in t.up <==> other in t.up - {id};
    assert other in l.reg.calls.open <==> other in l.reg.calls.open - {id};
    assert other in r.calls.open <==> other in r.calls.open - {id};
  }

  lemma StreamOpFrames(s: StreamTable, id: Id, cap: nat, item: Raw, timely: bool, dec: Decoder)
    ensures StreamFrame(s, s.Open(id, cap), id)
    ensures StreamFrame(s, s.Remove(id), id)
    ensures StreamFrame(s, s.ReceiveItem(id, item, timely, dec).0, id)
  {
  }

  lemma CallOpFrames(s: CallTable, id: Id, result: Option<Raw>, error: string, dec: Decoder)
    ensures CallFrame(s, s.Register(id), id)
    ensures CallFrame(s, s.Delete(id), id)
    ensures CallFrame(s, s.Complete(id, result, error, dec).0, id)
  {
    if id in s.open {
      var (p, _) := Answer(s.cells[s.open[id]], result, error, dec);
      assert CallFrame(s, s.(cells := s.cells[s.open[id] := p]), id);
    }
  }

  lemma StepFrames(l: Loop, step: Step, dec: Decoder)
    ensures StreamFrame(l.reg.streams, Next(l, step, dec).reg.streams, step.id)
    ensures CallFrame(l.reg.calls, Next(l, step, dec).reg.calls, step.id)
  {
    var s, c := l.reg.streams, l.reg.calls;
    match step
    case Pull(id, cap, sent) =>
      StreamOpFrames(s, id, cap, "", false, dec); StreamOpFrames(s.Open(id, cap), id, cap, "", false, dec);
      CallOpFrames(c, id, None, "", dec); CallOpFrames(c.Register(id), id, None, "", dec);
    case Call(id, sent) =>
      CallOpFrames(c, id, None, "", dec); CallOpFrames(c.Register(id), id, None, "", dec);
    case Upload(id, cap) => StreamOpFrames(s, id, cap, "", false, dec);
    case Item(id, item, timely) => StreamOpFrames(s, id, 0, item, timely, dec);
    case Complete(id, r, e, timely) => CompletionFrames(l.reg, id, r, e, timely, dec);
  }

  lemma CompletionFrames(r: Registry, id: Id, result: Option<Raw>, error: string, timely: bool, dec: Decoder)
    ensures var r' := HandleCompletion(r, id, result, error, timely, dec).0;
            StreamFrame(r.streams, r'.streams, id) && CallFrame(r.calls, r'.calls, id)
  {
    CallOpFrames(r.calls, id, result, error, dec);
    StreamOpFrames(r.streams, id, 0, "", false, dec);
    if id in r.streams.up {
      if error != "" {
        assert id !in r.calls.Complete(id, result, error, dec).0.open;
      } else if result.Some? && id !in r.streams.running {
        var s := r.streams.ReceiveItem(id, result.value, timely, dec).0;
        StreamOpFrames(r.streams, id, 0, result.value, timely, dec);
        StreamOpFrames(s, id, 0, "", false, dec);
        StreamFrameTrans(r.streams, s, s.Remove(id), id);
      }
    }
  }

  lemma StreamFrameTrans(s: StreamTable, t: StreamTable, u: StreamTable, id: Id)
    requires StreamFrame(s, t, id) && StreamFrame(t, u, id)
    ensures StreamFrame(s, u, id)
  {
  }

  ghost predicate CallsOk(c: CallTable) { exists lost :: Inv(c, lost) }

  lemma CallOpsKeepCallsOk(c: CallTable, id: Id, result: Option<Raw>, error: string, dec: Decoder)
    requires CallsOk(c)
    ensures CallsOk(c.Register(id)) && CallsOk(c.Delete(id)) && CallsOk(c.Complete(id, result, error, dec).0)
  {
    var lost :| Inv(c, lost);
    InvokeClients.NextKeepsInv(c, lost, InvokeClients.Register(id), dec);
    InvokeClients.NextKeepsInv(c, lost, InvokeClients.Delete(id), dec);
    InvokeClients.NextKeepsInv(c, lost, InvokeClients.Complete(id, result, error), dec);
  }

  lemma NextKeepsCalls(l: Loop, step: Step, dec: Decoder)
    requires CallsOk(l.reg.calls)
    ensures CallsOk(Next(l, step, dec).reg.calls)
  {
    var c, id := l.reg.calls, step.id;
    match step
    case Pull(_, _, _) => RegisterKeepsCallsOk(c, id, dec);
    case Call(_, _) => RegisterKeepsCallsOk(c, id, dec);
    case Upload(_, _) =>
    case Item(_, _, _) =>
    case Complete(_, r, e, timely) => CompletionKeepsCallsOk(l.reg, id, r, e, timely, dec);
  }

  lemma RegisterKeepsCallsOk(c: CallTable, id: Id, dec: Decoder)
    requires CallsOk(c)
    ensures CallsOk(c.Register(id)) && CallsOk(c.Register(id).Delete(id))
  {
    CallOpsKeepCallsOk(c, id, None, "", dec);
    CallOpsKeepCallsOk(c.Register(id), id, None, "", dec);
  }

  lemma CompletionKeepsCallsOk(r: Registry, id: Id, result: Option<Raw>, error: string, timely: bool, dec: Decoder)
    requires CallsOk(r.calls)
    ensures CallsOk(HandleCompletion(r, id, result, error, timely, dec).0.calls)
  {
    CallOpsKeepCallsOk(r.calls, id, result, error, dec);
  }

  /** After a completion the id is in neither registry, and whatever was registered under it is closed. */
  lemma CompletionRetires(r: Registry, lost: set<nat>, id: Id, result: Option<Raw>, error: string, timely: bool, dec: Decoder)
    requires Inv(r.calls, lost) && StreamsOk(r.streams)
    ensures var r' := HandleCompletion(r, id, result, error, timely, dec).0;
            && id !in r'.streams.up && id !in r'.calls.open
            && (id in r.streams.up ==> r'.streams.cells[r.streams.up[id]].closes == 1)
            && (id in r.calls.open ==> r'.calls.cells[r.calls.open[id]].Closed())
  {
    if id in r.calls.open {
      assert CellOk(r.calls, lost, r.calls.open[id]);
    }
  }

  lemma NextKeepsInv(l: Loop, step: Step, dec: Decoder)
    requires LoopInv(l) && Enabled(l, step)
    ensures LoopInv(Next(l, step, dec))
  {
    var l' := Next(l, step, dec);
    var lost :| Inv(l.reg.calls, lost);
    NextKeepsCalls(l, step, dec);
    NextKeepsStreamsOk(l, step, dec);
    StepFrames(l, step, dec);
    forall id <- l'.pulled ensures PulledOk(l', id) {
      if id != step.id {
        FrameKeepsPulled(l, l'.reg, step.id, id);
        assert PulledOk(l.(reg := l'.reg), id);
      } else if step.Complete? {
        CompletionRetires(l.reg, lost, id, step.result, step.error, step.timely, dec);
        assert PulledOk(l, id);
      } else if step.Item? {
        assert PulledOk(l, id);
      }
    }
  }

  const Start := Loop(Registry(NoCalls, NoStreams), map[])

  ghost predicate IsRun(ls: seq<Loop>, steps: seq<Step>, dec: Decoder) {
    && |ls| == |steps| + 1 && ls[0] == Start
    && forall k | 0 <= k < |steps| :: Enabled(ls[k], steps[k]) && ls[k + 1] == Next(ls[k], steps[k], dec)
  }

  lemma {:induction false} RunKeepsInv(ls: seq<Loop>, steps: seq<Step>, n: nat, dec: Decoder)
    requires IsRun(ls, steps, dec) && n <= |steps|
    ensures LoopInv(ls[n])
  {
    if n == 0 {
      assert Inv(NoCalls, {});
    } else {
      RunKeepsInv(ls, steps, n - 1, dec);
      NextKeepsInv(ls[n - 1], steps[n - 1], dec);
    }
  }

  /** In every run a pulled stream is in both registries or in neither, and its stream channel is
      closed exactly when the call channels beside it are: never one without the other. */
  lemma RegistriesAgree(ls: seq<Loop>, steps: seq<Step>, n: nat, id: Id, dec: Decoder)
    requires IsRun(ls, steps, dec) && n <= |steps| && id in ls[n].pulled
    ensures var Registry(calls, streams) := ls[n].reg;
            var Slots(u, c) := ls[n].pulled[id];
            && u < |streams.cells| && c < |calls.cells|
            && (id in streams.up <==> id in calls.open)
            && streams.cells[u].Sound() && calls.cells[c].Safe()
            && (streams.cells[u].closes == 1 <==> id !in streams.up)
            && (calls.cells[c].Closed() <==> id !in streams.up)
  {
    RunKeepsInv(ls, steps, n, dec);
    assert PulledOk(ls[n], id);
    var lost :| Inv(ls[n].reg.calls, lost);
    assert CellOk(ls[n].reg.calls, lost, ls[n].pulled[id].call);
  }

  /** A registered stream that is not marked as running has had no item. */
  ghost predicate UnstartedOk(s: StreamTable) {
    StreamsOk(s) && forall id <- s.up :: id !in s.running ==> s.cells[s.up[id]].sent == []
  }

  lemma RemoveKeepsUnstarted(s: StreamTable, id: Id)
    requires UnstartedOk(s)
    ensures UnstartedOk(s.Remove(id).(running := s.running - {id})) && UnstartedOk(s.Remove(id))
  {
    RemoveKeepsStreamsOk(s, id);
  }

  lemma ReceiveKeepsUnstarted(s: StreamTable, id: Id, item: Raw, timely: bool, dec: Decoder)
    requires UnstartedOk(s)
    ensures UnstartedOk(s.ReceiveItem(id, item, timely, dec).0)
  {
    ReceiveKeepsStreamsOk(s, id, item, timely, dec);
  }

  lemma OpenKeepsUnstarted(s: StreamTable, id: Id, cap: nat)
    requires UnstartedOk(s)
    ensures UnstartedOk(s.Open(id, cap))
  {
    OpenKeepsStreamsOk(s, id, cap);
  }

  lemma NextKeepsUnstarted(l: Loop, step: Step, dec: Decoder)
    requires UnstartedOk(l.reg.streams)
    ensures UnstartedOk(Next(l, step, dec).reg.streams)
  {
    var s, id := l.reg.streams, step.id;
    match step
    case Pull(_, cap, _) => OpenKeepsUnstarted(s, id, cap); RemoveKeepsUnstarted(s.Open(id, cap), id);
    case Call(_, _) =>
    case Upload(_, cap) => OpenKeepsUnstarted(s, id, cap);
    case Item(_, item, timely) => ReceiveKeepsUnstarted(s, id, item, timely, dec);
    case Complete(_, r, e, timely) =>
      if id in s.up {
        RemoveKeepsUnstarted(s, id);
        if e == "" && r.Some? && id !in s.running {
          ReceiveKeepsUnstarted(s, id, r.value, timely, dec);
          RemoveKeepsUnstarted(s.ReceiveItem(id, r.value, timely, dec).0, id);
        }
      }
  }

  lemma {:induction false} RunKeepsUnstarted(ls: seq<Loop>, steps: seq<Step>, n: nat, dec: Decoder)
    requires IsRun(ls, steps, dec) && n <= |steps|
    ensures UnstartedOk(ls[n].reg.streams)
  {
    if n > 0 {
      RunKeepsUnstarted(ls, steps, n - 1, dec);
      NextKeepsUnstarted(ls[n - 1], steps[n - 1], dec);
    }
  }

  /** A stream is answered by items or by one result, never by both: in every run, a completion with
      a result is accepted only for a stream without items, whose channel then holds exactly that
      result; for any other it is an error, and the channel keeps what it had. */
  lemma ResultIsTheOnlyItem(ls: seq<Loop>, steps: seq<Step>, n: nat, id: Id, result: Raw, dec: Decoder)
    requires IsRun(ls, steps, dec) && n <= |steps| && id in ls[n].reg.streams.up
    ensures var r := ls[n].reg;
            var (r', e) := HandleCompletion(r, id, Some(result), "", true, dec);
            var c, c' := r.streams.cells[r.streams.up[id]], r'.streams.cells[r.streams.up[id]];
            && c'.closes == 1 && c'.faults == 0
            && (e == None ==> c.sent == [] && dec(result) == Some(c'.sent[0]) && |c'.sent| == 1)
            && (e != None ==> c'.sent == c.sent)
            && (c.sent != [] ==> e == Some(ResultOnRunningStream))
  {
    RunKeepsUnstarted(ls, steps, n, dec);
  }

  /** A completion is rejected as unknown exactly when nothing is registered under its id, or when
      it carries an error for an upload stream, which has no call beside it. */
  lemma CompletionUnknownIff(r: Registry, id: Id, result: Option<Raw>, error: string, timely: bool, dec: Decoder)
    ensures var e := HandleCompletion(r, id, result, error, timely, dec).1;
            e == Some(UnknownInvocationId) || e == Some(UnknownCompletionId) || e == Some(UnknownStreamId)
            <==> id !in r.calls.open && (id !in r.streams.up || error != "")
  {
  }

  /** So a completion for an outstanding pulled stream, of whatever form, is never unknown. */
  lemma PulledCompletionIsKnown(ls: seq<Loop>, steps: seq<Step>, n: nat, id: Id,
                                result: Option<Raw>, error: string, timely: bool, dec: Decoder)
    requires IsRun(ls, steps, dec) && n <= |steps| && id in ls[n].pulled
    requires id in ls[n].reg.streams.up || id in ls[n].reg.calls.open
    ensures HandleCompletion(ls[n].reg, id, result, error, timely, dec).1 !in
              {Some(UnknownInvocationId), Some(UnknownCompletionId), Some(UnknownStreamId)}
  {
    RegistriesAgree(ls, steps, n, id, dec);
  }

  /** The mutable stream registry of a loop. */
  class StreamClient {
    var upstreamChannels: map<Id, nat>
    var runningStreams: set<Id>
    var cells: seq<Chan<Value>>
    const streamBufferCapacity: nat
    const maxConcurrentStreams: nat

    function State(): Streams reads this { Streams(upstreamChannels, runningStreams, cells) }

    ghost predicate Valid() reads this { State().InRange() }

    constructor (streamBufferCapacity: nat, maxConcurrentStreams: nat)
      ensures Valid() && State() == NoStreams
      ensures this.streamBufferCapacity == streamBufferCapacity
      ensures this.maxConcurrentStreams == maxConcurrentStreams
    {
      upstreamChannels, runningStreams, cells := map[], {}, [];
      this.streamBufferCapacity, this.maxConcurrentStreams := streamBufferCapacity, maxConcurrentStreams;
    }

    method BuildChannelArgument(ids: seq<Id>, param: Param, chanCount: nat) returns (arg: ChanArg)
      requires Valid()
      modifies this
      ensures Valid()
      ensures (State(), arg) == BindChannel(old(State()), ids, param, chanCount, streamBufferCapacity, maxConcurrentStreams)
    {
      if param != ReceiveChan {
        return NotStreaming;
      } else if |ids| > chanCount {
        if maxConcurrentStreams > 0 && |upstreamChannels| >= maxConcurrentStreams {
          return StreamLimitReached;
        }
        arg := Bound(|cells|);
        upstreamChannels := upstreamChannels[ids[chanCount] := |cells|];
        cells := cells + [MakeChan(streamBufferCapacity)];
      } else {
        return MoreChansThanStreams;
      }
    }

    method NewUpstreamChannel(id: Id) returns (handle: nat)
      requires Valid()
      modifies this
      ensures Valid() && State() == old(State()).Open(id, streamBufferCapacity) && handle == |old(cells)|
    {
      handle := |cells|;
      cells := cells + [MakeChan(streamBufferCapacity)];
      upstreamChannels := upstreamChannels[id := handle];
    }

    method DeleteUpstreamChannel(id: Id)
      requires Valid()
      modifies this
      ensures Valid() && State() == old(State()).Remove(id)
    {
      if id in upstreamChannels {
        var h := upstreamChannels[id];
        cells := cells[h := cells[h].Close()];
        upstreamChannels := upstreamChannels - {id};
      }
    }

    method ReceiveStreamItem(id: Id, item: Raw, timely: bool, dec: Decoder) returns (e: Option<HandlerError>)
      requires Valid()
      modifies this
      ensures Valid() && (State(), e) == old(State()).ReceiveItem(id, item, timely, dec)
    {
      if id !in upstreamChannels {
        return Some(UnknownStreamId);
      }
      runningStreams := runningStreams + {id};
      var v := dec(item);
      if v.None? {
        return Some(DecodeFailed);
      }
      if !timely {
        return Some(ReceiveTimeout);
      }
      var h := upstreamChannels[id];
      cells := cells[h := cells[h].Send(v.value)];
      e := None;
    }

    method ReceiveCompletionItem(id: Id, result: Option<Raw>, error: string, timely: bool, invokeClient: InvokeClient, dec: Decoder)
      returns (e: Option<HandlerError>)
      requires Valid() && invokeClient.Valid()
      modifies this, invokeClient
      ensures Valid() && invokeClient.Valid()
      ensures id in old(upstreamChannels) ==>
                (Registry(invokeClient.State(), State()), e)
                == CompleteStream(old(Registry(invokeClient.State(), State())), id, result, error, timely, dec)
      ensures id !in old(upstreamChannels) ==>
                e == Some(UnknownCompletionId) && State() == old(State()) && invokeClient.State() == old(invokeClient.State())
    {
      if id !in upstreamChannels {
        return Some(UnknownCompletionId);
      }
      var h := upstreamChannels[id];
      e := None;
      if error != "" {
        e := invokeClient.ReceiveCompletionItem(id, result, error, dec);
      } else if result.Some? {
        if id in runningStreams {
          e := Some(ResultOnRunningStream);
        } else {
          e := ReceiveStreamItem(id, result.value, timely, dec);
        }
      }
      cells := cells[h := cells[h].Close()];
      invokeClient.DeleteInvocation(id);
      upstreamChannels := upstreamChannels - {id};
      runningStreams := runningStreams - {id};
    }
  }
}
