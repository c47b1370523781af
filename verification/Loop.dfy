/** The message loop (loop.go, Run): one event after the other until something ends it, and what it
    leaves behind. */
module MessageLoops {
  import opened Wrappers
  import opened Messages
  import opened Channels
  import opened InvokeClients
  import opened StreamClients
  import opened Streamers
  import opened Arguments
  import Dispatch
  import KeepAlive

  /** What the select of the loop receives, interleaved with what callers do in their own
      goroutines.  `hub` is the signature of the method an invocation names, None if there is no such
      method; `now` is the time, and `ok` the outcome of a write the event may lead to. */
  datatype Event =
    | Received(m: Message, timely: bool, hub: Option<Signature>, now: int, ok: bool)
    | ReceiveFailed(now: int)
    | KeepAliveTick(now: int, ok: bool)
    | TimeoutTick
    | ConnectionCanceled
    | PartyCanceled
    | Pulled(id: Id, target: string, args: seq<Raw>, now: int, ok: bool)
    | Called(id: Id, target: string, args: seq<Raw>, streamIds: seq<Id>, now: int, ok: bool)
    | Wrote(m: Message, now: int, ok: bool)      // by a hub method, a stream that is being sent, or a hub

  datatype Signature = Signature(params: seq<Param>, numOut: nat)

  datatype Reason =
    | HandlerFailed(e: HandlerError)
    | ClosedWithError(text: string)
    | ReadFailed
    | PingFailed
    | TimedOut
    | ConnectionGone
    | PartyGone
    | Crashed                            // the index panic of buildMethodArguments, which nothing recovers

  /** `nextTick` and `deadline` are when the two tickers fire; `closed` says that a close message was
      received. */
  datatype LoopState = LoopState(reg: Registry, out: Sender, stamp: Option<int>, nextTick: int, deadline: int, closed: bool) {
    /** A write is stamped whether or not it succeeds. */
    function Write(m: Message, now: int, ok: bool): LoopState { this.(out := out.Write(m, ok), stamp := Some(now)) }
  }

  datatype Config = Config(limits: Limits, keepAlive: nat, timeout: nat)

  const TimeoutText := "timeout waiting for hub to receive client streamed value"

  /** The answer to an item that nobody took in time. */
  function Answers(r: Registry, m: Message, timely: bool, dec: Decoder): bool {
    m.StreamItem? && m.id in r.streams.up && dec(m.item).Some? && !timely
  }

  function OnMessage(s: LoopState, e: Event, c: Config, dec: Decoder): (LoopState, Option<Reason>)
    requires e.Received?
  {
    match e.m
    case Invocation(kind, id, _, args, ids) =>
      if e.hub.None? then (s.Write(Completion(id, None, Dispatch.UnknownMethod), e.now, e.ok), None)
      else
        var (t, o) := Build(e.hub.value.params, Request(args, ids), s.reg.streams, c.limits, dec);
        var s1 := s.(reg := s.reg.(streams := t));
        if o.IndexPanic? then (s1, Some(Crashed))
        else if !o.Built? then (s1.Write(Completion(id, None, Dispatch.ArgumentError), e.now, e.ok), None)
        else if kind.Streaming? && e.hub.value.numOut != 1 then
          (s1.Write(Completion(id, None, Dispatch.NotAStream), e.now, e.ok), None)
        else (s1, None)
    case CancelInvocation(id) => (s.(out := s.out.Stop(id)), None)
    case Close(error, _) => (s.(closed := true), if error != "" then Some(ClosedWithError(error)) else None)
    case _ =>
      var (r, err) := HandleMessage(s.reg, e.m, e.timely, c.limits.cap, 0, dec);
      var s1 := s.(reg := r);
      if err.Some? then (s1, Some(HandlerFailed(err.value)))
      else if Answers(s.reg, e.m, e.timely, dec) then (s1.Write(Completion(e.m.id, None, TimeoutText), e.now, e.ok), None)
      else (s1, None)
  }

  function OnEvent(s: LoopState, e: Event, c: Config, dec: Decoder): (LoopState, Option<Reason>)
  {
    match e
    case Received(_, _, _, now, _) => OnMessage(s.(deadline := now + c.timeout), e, c, dec)
    case ReceiveFailed(now) => (s.(deadline := now + c.timeout), Some(ReadFailed))
    case KeepAliveTick(now, ok) =>
      var (ping, next) := KeepAlive.OnTick(c.keepAlive, s.stamp, now);
      if !ping then (s.(nextTick := next), None)
      else if s.out.aborted || !ok then (s.Write(Ping, now, ok), Some(PingFailed))
      else (s.Write(Ping, now, ok).(nextTick := next), None)
    case TimeoutTick => (s, Some(TimedOut))
    case ConnectionCanceled => (s, Some(ConnectionGone))
    case PartyCanceled => (s, Some(PartyGone))
    case Pulled(id, target, args, now, ok) =>
      var s1 := s.(reg := StartPull(s.reg, id, c.limits.cap, !s.out.aborted && ok));
      (s1.Write(Invocation(Streaming, id, target, args, []), now, ok), None)
    case Called(id, target, args, ids, now, ok) =>
      var s1 := s.(reg := RegisterCall(s.reg, id, !s.out.aborted && ok));
      (s1.Write(Invocation(Simple, id, target, args, ids), now, ok), None)
    case Wrote(m, now, ok) => (s.Write(m, now, ok), None)
  }

  /** Where the loop stands after some events: `used` of them were handled, and if it ended, `reason`
      is the error it returns. */
  datatype Progress = Progress(state: LoopState, used: nat, ended: bool, reason: Option<Reason>)

  function RunEvents(s: LoopState, events: seq<Event>, c: Config, dec: Decoder): Progress
  {
    if events == [] then Progress(s, 0, false, None)
    else
      var p := RunEvents(s, events[..|events| - 1], c, dec);
      if p.ended then p
      else
        var (s1, r) := OnEvent(p.state, events[|events| - 1], c, dec);
        Progress(s1, |events|, r.Some? || s1.closed, r)
  }

  /** The end of Run: a close message to the peer if there was an error, written past the context;
      then all calls are cancelled and the connection is aborted.  A panic skips all of it. */
  function Shutdown(p: Progress, text: string, allowReconnect: bool): LoopState {
    var s := p.state;
    if p.reason == Some(Crashed) then s else
    var log := if p.reason.Some? then s.out.log + [Close(text, allowReconnect)] else s.out.log;
    s.(reg := s.reg.(calls := s.reg.calls.CancelAll()), out := s.out.(log := log, aborted := true))
  }

  /* ---- what it leaves behind ---- */

  /** The channels a registration makes unreachable: those of a call with the same id. */
  function LostCall(r: Registry, e: Event): set<nat> {
    if (e.Pulled? || e.Called?) && e.id in r.calls.open then {r.calls.open[e.id]} else {}
  }

  function LostCalls(s: LoopState, events: seq<Event>, c: Config, dec: Decoder): set<nat> {
    if events == [] then {}
    else
      var init := events[..|events| - 1];
      var p := RunEvents(s, init, c, dec);
      LostCalls(s, init, c, dec) + if p.ended then {} else LostCall(p.state.reg, events[|events| - 1])
  }

  lemma RegisterThenDelete(s: CallTable, lost: set<nat>, id: Id, dec: Decoder)
    requires Inv(s, lost)
    ensures var gone := lost + if id in s.open then {s.open[id]} else {};
            Inv(s.Register(id), gone) && Inv(s.Register(id).Delete(id), gone)
  {
    var gone := lost + LostBy(s, InvokeClients.Register(id));
    InvokeClients.NextKeepsInv(s, lost, InvokeClients.Register(id), dec);
    InvokeClients.NextKeepsInv(s.Register(id), gone, InvokeClients.Delete(id), dec);
    assert gone + LostBy(s.Register(id), InvokeClients.Delete(id)) == gone;
  }

  lemma CompletionKeepsCalls(r: Registry, lost: set<nat>, id: Id, result: Option<Raw>, error: string, timely: bool, dec: Decoder)
    requires Inv(r.calls, lost)
    ensures Inv(HandleCompletion(r, id, result, error, timely, dec).0.calls, lost)
  {
    var s := r.calls;
    InvokeClients.NextKeepsInv(s, lost, InvokeClients.Complete(id, result, error), dec);
    InvokeClients.NextKeepsInv(s, lost, InvokeClients.Delete(id), dec);
    var d := s.Complete(id, result, error, dec).0;
    assert d.Delete(id) == d;
    assert lost + LostBy(s, InvokeClients.Delete(id)) == lost;
    assert lost + LostBy(s, InvokeClients.Complete(id, result, error)) == lost;
  }

  lemma EventKeepsCalls(s: LoopState, lost: set<nat>, e: Event, c: Config, dec: Decoder)
    requires Inv(s.reg.calls, lost)
    ensures Inv(OnEvent(s, e, c, dec).0.reg.calls, lost + LostCall(s.reg, e))
  {
    assert lost + {} == lost;
    if e.Pulled? || e.Called? {
      RegisterThenDelete(s.reg.calls, lost, e.id, dec);
    } else if e.Received? && e.m.Completion? {
      CompletionKeepsCalls(s.reg, lost, e.m.id, e.m.result, e.m.error, e.timely, dec);
    }
  }

  lemma {:induction false} RunKeepsCalls(s: LoopState, events: seq<Event>, c: Config, dec: Decoder)
    requires Inv(s.reg.calls, {})
    ensures Inv(RunEvents(s, events, c, dec).state.reg.calls, LostCalls(s, events, c, dec))
    decreases |events|
  {
    if events != [] {
      var init := events[..|events| - 1];
      var p, lost := RunEvents(s, init, c, dec), LostCalls(s, init, c, dec);
      RunKeepsCalls(s, init, c, dec);
      EventKeepsCalls(p.state, lost, events[|events| - 1], c, dec);
      assert lost + {} == lost;
    }
  }

  /** The loop at its start. */
  function NewLoop(maxCancels: nat, c: Config, now: int): LoopState {
    LoopState(Registry(NoCalls, NoStreams), Sender({}, 0, maxCancels, false, []), None, now + c.keepAlive, now + c.timeout, false)
  }

  /** When Run is over, whatever events ended it short of a panic, no call is outstanding: each one
      ever placed has its result channel closed exactly once, and its error channel closed or about
      to be, by the goroutine that tells its caller that the loop ended; except the calls whose id
      was registered again while they were outstanding, which nobody ever answers. */
  lemma RunLeavesNoCallWaiting(events: seq<Event>, maxCancels: nat, now: int, c: Config, dec: Decoder,
                               text: string, allowReconnect: bool)
    ensures var p, lost := RunEvents(NewLoop(maxCancels, c, now), events, c, dec), LostCalls(NewLoop(maxCancels, c, now), events, c, dec);
            var calls := Shutdown(p, text, allowReconnect).reg.calls;
            p.reason != Some(Crashed) ==>
            && calls.open == map[]
            && (forall i | 0 <= i < |calls.cells| :: Left(calls, lost, i))
  {
    var b := NewLoop(maxCancels, c, now);
    var lost := LostCalls(b, events, c, dec);
    RunKeepsCalls(b, events, c, dec);
    var before := RunEvents(b, events, c, dec).state.reg.calls;
    CancelAllKeepsInv(before, lost);
    var calls := before.CancelAll();
    forall i | 0 <= i < |calls.cells| ensures Left(calls, lost, i) {
      assert CellOk(calls, lost, i);
    }
  }

  /** What is left of a call after the loop. */
  predicate Left(calls: Calls, lost: set<nat>, i: nat)
    requires i < |calls.cells|
  {
    var p := calls.cells[i];
    if i in lost then p.Fresh()
    else p.Safe() && p.result.closes == 1 && if i in calls.leaving then p.err.Fresh() else p.err.closes == 1
  }

  /** The stream channels an event makes unreachable. */
  function LostStream(r: Registry, e: Event, c: Config, dec: Decoder): set<nat> {
    match e
    case Pulled(id, _, _, _, _) => Dropped(r.streams, id)
    case Received(Invocation(_, _, _, args, ids), _, Some(Signature(params, _)), _, _) =>
      if |ids| + |args| != |params| then {}
      else Drops(r.streams, BoundIds(params, Request(args, ids), r.streams, c.limits, dec, 0, 0), c.limits.cap)
    case _ => {}
  }

  function LostStreams(s: LoopState, events: seq<Event>, c: Config, dec: Decoder): set<nat> {
    if events == [] then {}
    else
      var init := events[..|events| - 1];
      var p := RunEvents(s, init, c, dec);
      LostStreams(s, init, c, dec) + if p.ended then {} else LostStream(p.state.reg, events[|events| - 1], c, dec)
  }

  lemma InvocationStreams(s: LoopState, e: Event, c: Config, dec: Decoder)
    requires e.Received? && e.m.Invocation?
    ensures OnEvent(s, e, c, dec).0.reg.streams
            == if e.hub.None? then s.reg.streams
               else Build(e.hub.value.params, Request(e.m.args, e.m.streamIds), s.reg.streams, c.limits, dec).0
  {
  }

  lemma BuildKeepsExact(params: seq<Param>, q: Request, s: StreamTable, lost: set<nat>, l: Limits, dec: Decoder)
    requires StreamsExact(s, lost)
    ensures StreamsExact(Build(params, q, s, l, dec).0,
                         lost + if |q.ids| + |q.args| != |params| then {} else Drops(s, BoundIds(params, q, s, l, dec, 0, 0), l.cap))
  {
    assert lost + {} == lost;
    if |q.ids| + |q.args| == |params| { MergeKeepsExact(params, q, s, lost, l, dec); }
  }

  lemma PullKeepsExact(t: StreamTable, lost: set<nat>, id: Id, cap: nat)
    requires StreamsExact(t, lost)
    ensures StreamsExact(t.Open(id, cap), lost + Dropped(t, id))
    ensures StreamsExact(t.Open(id, cap).Remove(id), lost + Dropped(t, id))
  {
    OpenKeepsExact(t, lost, id, cap);
    RemoveKeepsExact(t.Open(id, cap), lost + Dropped(t, id), id);
  }

  lemma MessageKeepsExact(s: LoopState, lost: set<nat>, e: Event, c: Config, dec: Decoder)
    requires StreamsExact(s.reg.streams, lost) && e.Received?
    ensures StreamsExact(OnEvent(s, e, c, dec).0.reg.streams, lost + LostStream(s.reg, e, c, dec))
  {
    if e.m.Invocation? {
      InvocationKeepsExact(s, lost, e, c, dec);
    } else {
      assert lost + {} == lost;
      HandledStreams(s, e, c, dec);
      HandledKeepsExact(s.reg, lost, e.m, e.timely, c.limits.cap, dec);
    }
  }

  lemma HandledStreams(s: LoopState, e: Event, c: Config, dec: Decoder)
    requires e.Received? && !e.m.Invocation?
    ensures OnEvent(s, e, c, dec).0.reg.streams == HandleMessage(s.reg, e.m, e.timely, c.limits.cap, 0, dec).0.streams
  {
  }

  lemma HandledKeepsExact(r: Registry, lost: set<nat>, m: Message, timely: bool, cap: nat, dec: Decoder)
    requires StreamsExact(r.streams, lost) && !m.Invocation?
    ensures StreamsExact(HandleMessage(r, m, timely, cap, 0, dec).0.streams, lost)
  {
    if m.StreamItem? {
      ReceiveKeepsExact(r.streams, lost, m.id, m.item, timely, dec);
    } else if m.Completion? {
      CompletionKeepsExact(r, lost, m.id, m.result, m.error, timely, dec);
    }
  }

  lemma InvocationKeepsExact(s: LoopState, lost: set<nat>, e: Event, c: Config, dec: Decoder)
    requires StreamsExact(s.reg.streams, lost) && e.Received? && e.m.Invocation?
    ensures StreamsExact(OnEvent(s, e, c, dec).0.reg.streams, lost + LostStream(s.reg, e, c, dec))
  {
    InvocationStreams(s, e, c, dec);
    if e.hub.Some? {
      BuildKeepsExact(e.hub.value.params, Request(e.m.args, e.m.streamIds), s.reg.streams, lost, c.limits, dec);
    } else {
      assert lost + {} == lost;
    }
  }

  lemma EventKeepsExact(s: LoopState, lost: set<nat>, e: Event, c: Config, dec: Decoder)
    requires StreamsExact(s.reg.streams, lost)
    ensures StreamsExact(OnEvent(s, e, c, dec).0.reg.streams, lost + LostStream(s.reg, e, c, dec))
  {
    if e.Received? {
      MessageKeepsExact(s, lost, e, c, dec);
    } else if e.Pulled? {
      PullKeepsExact(s.reg.streams, lost, e.id, c.limits.cap);
    } else {
      assert lost + {} == lost;
    }
  }

  lemma {:induction false} RunKeepsExact(s: LoopState, events: seq<Event>, c: Config, dec: Decoder)
    requires StreamsExact(s.reg.streams, {})
    ensures StreamsExact(RunEvents(s, events, c, dec).state.reg.streams, LostStreams(s, events, c, dec))
    decreases |events|
  {
    if events != [] {
      var init := events[..|events| - 1];
      var lost := LostStreams(s, init, c, dec);
      RunKeepsExact(s, init, c, dec);
      EventKeepsExact(RunEvents(s, init, c, dec).state, lost, events[|events| - 1], c, dec);
      assert lost + {} == lost;
    }
  }

  /** Run closes no stream: afterwards the stream channels that are still open are exactly those of
      the streams registered when it ended, though no call is left beside them, and of the streams
      whose id was registered again while they were. */
  lemma RunLeavesStreamsOpen(events: seq<Event>, maxCancels: nat, now: int, c: Config, dec: Decoder,
                             text: string, allowReconnect: bool)
    ensures var p := RunEvents(NewLoop(maxCancels, c, now), events, c, dec);
            var Registry(calls, streams) := Shutdown(p, text, allowReconnect).reg;
            && streams == p.state.reg.streams
            && (forall i | 0 <= i < |streams.cells| ::
                  streams.cells[i].closes == 0 <==>
                  i in streams.up.Values || i in LostStreams(NewLoop(maxCancels, c, now), events, c, dec))
            && (p.reason != Some(Crashed) ==> calls.open == map[])
  {
    RunKeepsExact(NewLoop(maxCancels, c, now), events, c, dec);
  }

  /** The loop with the objects it works on. */
  class MessageLoop {
    const invokeClient: InvokeClient
    const streamClient: StreamClient
    const streamer: Streamer
    const hubConn: HubConnection
    const keepAlive: nat
    const timeout: nat
    var nextTick: int
    var deadline: int
    var closed: bool

    ghost predicate Valid() reads this, invokeClient, streamClient {
      invokeClient.Valid() && streamClient.Valid() && streamer.conn == hubConn
    }

    function Registries(): Registry
      requires Valid()
      reads this, invokeClient, streamClient
    {
      Registry(invokeClient.State(), streamClient.State())
    }

    function State(): LoopState
      requires Valid()
      reads this, invokeClient, streamClient, streamer, hubConn
    {
      LoopState(Registries(), streamer.State(), hubConn.lastWriteStamp, nextTick, deadline, closed)
    }

    function Settings(): Config {
      Config(Limits(streamClient.streamBufferCapacity, streamClient.maxConcurrentStreams), keepAlive, timeout)
    }

    constructor (streamBufferCapacity: nat, maxConcurrentStreams: nat, keepAlive: nat, timeout: nat, now: int)
      ensures Valid() && State() == NewLoop(maxConcurrentStreams, Settings(), now)
      ensures Settings() == Config(Limits(streamBufferCapacity, maxConcurrentStreams), keepAlive, timeout)
    {
      invokeClient := new InvokeClient();
      streamClient := new StreamClient(streamBufferCapacity, maxConcurrentStreams);
      var conn := new HubConnection();
      hubConn := conn;
      streamer := new Streamer(conn, maxConcurrentStreams);
      this.keepAlive, this.timeout := keepAlive, timeout;
      nextTick, deadline, closed := now + keepAlive, now + timeout, false;
    }

    /** Returns the handles of the stream and call channels that newInvokeResultChan merges. */
    method PullStream(id: Id, target: string, args: seq<Raw>, now: int, ok: bool, ghost dec: Decoder) returns (up: nat, call: nat)
      requires Valid()
      modifies invokeClient, streamClient, hubConn
      ensures Valid() && State() == OnEvent(old(State()), Pulled(id, target, args, now, ok), Settings(), dec).0
      ensures up == |old(streamClient.cells)| && call == |old(invokeClient.cells)|
    {
      call := invokeClient.NewInvocation(id);
      up := streamClient.NewUpstreamChannel(id);
      var sent := hubConn.WriteMessage(Invocation(Streaming, id, target, args, []), now, ok);
      if !sent {
        streamClient.DeleteUpstreamChannel(id);
        invokeClient.DeleteInvocation(id);
      }
    }

    /** Invoke, Send and the start of PushStreams */
    method PlaceCall(id: Id, target: string, args: seq<Raw>, ids: seq<Id>, now: int, ok: bool, ghost dec: Decoder) returns (call: nat)
      requires Valid()
      modifies invokeClient, hubConn
      ensures Valid() && State() == OnEvent(old(State()), Called(id, target, args, ids, now, ok), Settings(), dec).0
      ensures call == |old(invokeClient.cells)|
    {
      call := invokeClient.NewInvocation(id);
      var sent := hubConn.WriteMessage(Invocation(Simple, id, target, args, ids), now, ok);
      if !sent {
        invokeClient.DeleteInvocation(id);
      }
    }

    method HandleStreamItemMessage(m: Message, timely: bool, now: int, ok: bool, dec: Decoder)
      returns (e: Option<HandlerError>)
      requires Valid() && m.StreamItem?
      modifies streamClient, hubConn
      ensures Valid() && (Registries(), e) == HandleItem(old(Registries()), m.id, m.item, timely, dec)
      ensures if Answers(old(Registries()), m, timely, dec)
              then streamer.State() == old(streamer.State()).Write(Completion(m.id, None, TimeoutText), ok)
                   && hubConn.lastWriteStamp == Some(now)
              else streamer.State() == old(streamer.State()) && hubConn.lastWriteStamp == old(hubConn.lastWriteStamp)
    {
      e := streamClient.ReceiveStreamItem(m.id, m.item, timely, dec);
      if e == Some(ReceiveTimeout) {
        var _ := hubConn.WriteMessage(Completion(m.id, None, TimeoutText), now, ok);
        e := None;
      }
    }

    method HandleCompletionMessage(m: Message, timely: bool, dec: Decoder) returns (e: Option<HandlerError>)
      requires Valid() && m.Completion?
      modifies invokeClient, streamClient
      ensures Valid() && (Registries(), e) == HandleCompletion(old(Registries()), m.id, m.result, m.error, timely, dec)
    {
      if m.id in streamClient.upstreamChannels {
        e := streamClient.ReceiveCompletionItem(m.id, m.result, m.error, timely, invokeClient, dec);
      } else if m.id in invokeClient.resultChans {
        e := invokeClient.ReceiveCompletionItem(m.id, m.result, m.error, dec);
      } else {
        e := Some(UnknownInvocationId);
      }
    }

    /** handleInvocationMessage up to the goroutine it starts; false if it panics. */
    method HandleInvocationMessage(m: Message, hub: Option<Signature>, now: int, ok: bool, dec: Decoder) returns (fine: bool)
      requires Valid() && m.Invocation?
      modifies streamClient, hubConn
      ensures Valid()
      ensures (State(), if fine then None else Some(Crashed))
              == OnMessage(old(State()), Received(m, true, hub, now, ok), Settings(), dec)
    {
      fine := true;
      if hub.None? {
        var _ := hubConn.WriteMessage(Completion(m.id, None, Dispatch.UnknownMethod), now, ok);
        return;
      }
      var o := BuildMethodArguments(hub.value.params, Request(m.args, m.streamIds), streamClient, dec);
      if o.IndexPanic? {
        fine := false;
      } else if !o.Built? {
        var _ := hubConn.WriteMessage(Completion(m.id, None, Dispatch.ArgumentError), now, ok);
      } else if m.kind.Streaming? && hub.value.numOut != 1 {
        var _ := hubConn.WriteMessage(Completion(m.id, None, Dispatch.NotAStream), now, ok);
      }
    }

    /** The messages of the select's first case. */
    method HandleMessage(e: Event, dec: Decoder) returns (err: Option<Reason>)
      requires Valid() && e.Received?
      modifies this, invokeClient, streamClient, streamer, hubConn
      ensures Valid() && (State(), err) == OnMessage(old(State()), e, Settings(), dec)
    {
      err := None;
      match e.m
      case Invocation(_, _, _, _, _) =>
        var fine := HandleInvocationMessage(e.m, e.hub, e.now, e.ok, dec);
        if !fine { err := Some(Crashed); }
      case CancelInvocation(id) => streamer.Stop(id);
      case StreamItem(_, _) =>
        var h := HandleStreamItemMessage(e.m, e.timely, e.now, e.ok, dec);
        if h.Some? { err := Some(HandlerFailed(h.value)); }
      case Completion(_, _, _) =>
        var h := HandleCompletionMessage(e.m, e.timely, dec);
        if h.Some? { err := Some(HandlerFailed(h.value)); }
      case Close(error, _) =>
        closed := true;
        if error != "" { err := Some(ClosedWithError(error)); }
      case Ping =>
    }

    /** The select of the loop. */
    method HandleEvent(e: Event, dec: Decoder) returns (err: Option<Reason>)
      requires Valid()
      modifies this, invokeClient, streamClient, streamer, hubConn
      ensures Valid() && (State(), err) == OnEvent(old(State()), e, Settings(), dec)
    {
      err := None;
      match e
      case Received(_, _, _, now, _) =>
        deadline := now + timeout;
        err := HandleMessage(e, dec);
      case ReceiveFailed(now) =>
        deadline := now + timeout;
        err := Some(ReadFailed);
      case KeepAliveTick(now, ok) =>
        var (ping, next) := KeepAlive.OnTick(keepAlive, hubConn.lastWriteStamp, now);
        if ping {
          var sent := hubConn.WriteMessage(Ping, now, ok);
          if !sent {
            return Some(PingFailed);
          }
        }
        nextTick := next;
      case TimeoutTick => err := Some(TimedOut);
      case ConnectionCanceled => err := Some(ConnectionGone);
      case PartyCanceled => err := Some(PartyGone);
      case Pulled(id, target, args, now, ok) => var _, _ := PullStream(id, target, args, now, ok, dec);
      case Called(id, target, args, ids, now, ok) => var _ := PlaceCall(id, target, args, ids, now, ok, dec);
      case Wrote(m, now, ok) => var _ := hubConn.WriteMessage(m, now, ok);
    }

    /** Handles events until one ends the loop, then shuts down; with no such event it is still
        running when they are used up. */
    method Run(events: seq<Event>, text: string, allowReconnect: bool, dec: Decoder) returns (ended: bool, err: Option<Reason>)
      requires Valid()
      modifies this, invokeClient, streamClient, streamer, hubConn
      ensures Valid()
      ensures var p := RunEvents(old(State()), events, Settings(), dec);
              && ended == p.ended && err == p.reason
              && State() == if ended then Shutdown(p, text, allowReconnect) else p.state
    {
      ended, err := false, None;
      ghost var s0 := State();
      for i := 0 to |events|
        invariant Valid() && !ended && err == None
        invariant RunEvents(s0, events[..i], Settings(), dec) == Progress(State(), i, false, None)
      {
        assert events[..i + 1][..i] == events[..i];
        err := HandleEvent(events[i], dec);
        if err.Some? || closed {
          StopsHere(s0, events, i + 1, Settings(), dec);
          if err == Some(Crashed) {
            return true, err;
          }
          if err.Some? {
            hubConn.log := hubConn.log + [Close(text, allowReconnect)];
          }
          invokeClient.CancelAllInvokes();
          hubConn.Abort();
          return true, err;
        }
      }
      assert events[..|events|] == events;
    }
  }

  lemma {:induction false} StopsHere(s: LoopState, events: seq<Event>, i: nat, c: Config, dec: Decoder)
    requires i <= |events| && RunEvents(s, events[..i], c, dec).ended
    ensures RunEvents(s, events, c, dec) == RunEvents(s, events[..i], c, dec)
    decreases |events|
  {
    if i < |events| {
      var init := events[..|events| - 1];
      assert init[..i] == events[..i];
      StopsHere(s, init, i, c, dec);
    } else {
      assert events[..i] == events;
    }
  }
}
