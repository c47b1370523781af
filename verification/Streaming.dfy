/** A stream end to end: the sender's goroutines, the connection as a FIFO link, and the loop that
    receives (streamer.go, loop.go, streamclient.go). */
module EndToEnd {
  import opened Wrappers
  import opened Messages
  import opened Channels
  import opened InvokeClients
  import opened StreamClients
  import opened Streamers

  /** `read` messages of the sender's log have reached the receiver.  `requested` holds the streams
      the receiver pulled, `placed` the ordinary calls it made, `slot` the channel each registered
      stream was given, `refused` the upload streams that were announced but not bound; `failure`
      or a close message (`closed`) has ended the receiving loop. */
  datatype System = System(
    out: Sending, requested: map<Id, seq<Raw>>, placed: set<Id>,
    read: nat, reg: Registry, slot: map<Id, nat>, refused: set<Id>, failure: Option<HandlerError>, closed: bool)

  datatype Action =
    | Pull(id: Id, src: seq<Raw>, cap: nat)
    | Place(id: Id)                              // Invoke, Send or PushStreams of the receiver
    | Send(step: Streamers.Step)
    | Deliver(cap: nat, bound: nat)

  predicate Enabled(y: System, a: Action) {
    match a
    case Pull(id, _, _) => !Known(y, id) && id !in y.placed
    case Place(id) => !Known(y, id) && id !in y.placed
    case Send(step) =>
      && Streamers.Enabled(y.out, step)
      && (step.Begin? ==> step.id in y.requested && step.src == y.requested[step.id])
      && (step.Push? ==> forall id <- step.ids :: id !in y.requested && id !in y.placed)
      && (step.Answer? ==> step.id in y.placed)
    case Deliver(_, bound) =>
      && y.failure.None? && !y.closed && y.read < |y.out.conn.log|
      && var m := y.out.conn.log[y.read]; m.Invocation? ==> bound <= |m.streamIds|
  }

  function Slots(ids: seq<Id>, up: map<Id, nat>): map<Id, nat> { map id <- ids | id in up :: up[id] }

  /** The receiving loop takes the next message.  An invocation gets channels for the first `bound`
      of its stream ids: all of them unless buildMethodArguments fails on the way.  No item waits
      longer than chanReceiveTimeout. */
  function Receive(y: System, cap: nat, bound: nat, dec: Decoder): System
    requires Enabled(y, Deliver(cap, bound))
  {
    var m := y.out.conn.log[y.read];
    var (r, e) := HandleMessage(y.reg, m, true, cap, bound, dec);
    var y' := y.(read := y.read + 1, reg := r, failure := e, closed := m.Close?);
    if !m.Invocation? then y'
    else
      y'.(slot := y.slot + Slots(m.streamIds[..bound], r.streams.up),
          refused := y.refused + set id <- m.streamIds | id !in m.streamIds[..bound])
  }

  function Next(y: System, a: Action, dec: Decoder): System
    requires Enabled(y, a)
  {
    match a
    case Pull(id, src, cap) =>
      y.(requested := y.requested[id := src], reg := StartPull(y.reg, id, cap, true),
         slot := y.slot[id := |y.reg.streams.cells|])
    case Place(id) => y.(placed := y.placed + {id}, reg := RegisterCall(y.reg, id, true))
    case Send(step) => y.(out := Streamers.Next(y.out, step))
    case Deliver(cap, bound) => Receive(y, cap, bound, dec)
  }

  /* ---- invariant ---- */

  predicate Known(y: System, id: Id) { id in y.requested || id in y.out.streams }

  function Source(y: System, id: Id): seq<Raw>
    requires Known(y, id)
  {
    if id in y.requested then y.requested[id] else y.out.streams[id].src
  }

  /** What was delivered for `id`. */
  function Arrived(y: System, id: Id): seq<Event>
    requires y.read <= |y.out.conn.log|
  {
    Project(y.out.conn.log[..y.read], id)
  }

  /** A channel that holds the decoded first items of `src`. */
  ghost predicate Holds(c: Chan<Value>, src: seq<Raw>, dec: Decoder) {
    && |c.sent| <= |src|
    && forall i | 0 <= i < |c.sent| :: dec(src[i]) == Some(c.sent[i])
  }

  /** The channel of `id` is a function of what was delivered for it. */
  ghost predicate Tracks(y: System, id: Id, dec: Decoder)
    requires y.read <= |y.out.conn.log| && Known(y, id) && id in y.slot && y.slot[id] < |y.reg.streams.cells|
  {
    var c, src, s := y.reg.streams.cells[y.slot[id]], Source(y, id), y.reg.streams;
    && Holds(c, src, dec)
    && (id in s.up <==> c.closes == 0) && (id in s.up ==> s.up[id] == y.slot[id])
    && (y.failure.None? ==>
          Arrived(y, id) == TraceOf(id !in y.requested, src[..|c.sent|], c.closes > 0))
    && (c.closes > 0 <==> Finished(None, "") in Arrived(y, id))
    && (c.closes > 0 ==> id in y.out.streams && y.out.streams[id].phase.Completed?
                         && |c.sent| == y.out.streams[id].sent)
  }

  ghost predicate ReceiverOk(y: System, id: Id, dec: Decoder)
    requires y.read <= |y.out.conn.log| && Known(y, id)
  {
    if id in y.slot then y.slot[id] < |y.reg.streams.cells| && Tracks(y, id, dec)
    else id !in y.reg.streams.up && id !in y.requested && (y.failure.None? ==> Arrived(y, id) == [])
  }

  ghost predicate ShapeOk(y: System) {
    && y.read <= |y.out.conn.log|
    && SendingOk(y.out) && StreamsOk(y.reg.streams)
    && SourcesOk(y) && NamesOk(y)
    && (forall id <- y.refused :: RefusedOk(y, id))
    && CloseOk(y) && CallsKnown(y)
  }

  /** A pulled stream sends what was requested, and the others were pushed. */
  ghost predicate SourcesOk(y: System) {
    && (forall id <- y.requested :: id in y.out.streams ==>
          !y.out.streams[id].pushed && y.out.streams[id].src == y.requested[id])
    && (forall id <- y.out.streams :: id !in y.requested ==> y.out.streams[id].pushed)
  }

  /** The receiver only holds streams that are known; calls have ids of their own. */
  ghost predicate NamesOk(y: System) {
    && (forall id | id in y.slot || id in y.reg.streams.up || id in y.refused :: Known(y, id))
    && (forall id <- y.placed :: !Known(y, id)) && (forall id <- y.out.answered :: id in y.placed)
  }

  /** Outstanding calls are those of pulled streams and ordinary ones. */
  ghost predicate CallsKnown(y: System) { forall id <- y.reg.calls.open :: id in y.requested || id in y.placed }

  /** A refused stream was announced, and will not be bound. */
  ghost predicate RefusedOk(y: System, id: Id)
    requires y.read <= |y.out.conn.log|
  {
    id !in y.slot && id !in y.reg.streams.up && Arrived(y, id) != [] && id in y.out.streams && id !in y.requested
  }

  /* ---- how a delivery fails ---- */

  /** An item or a completion of a stream that was refused. */
  predicate AboutRefused(m: Message, refused: set<Id>) { (m.StreamItem? || m.Completion?) && m.id in refused }

  predicate Undecodable(m: Message, dec: Decoder) {
    match m
    case StreamItem(_, v) => dec(v).None?
    case Completion(_, result, error) => error == "" && result.Some? && dec(result.value).None?
    case _ => false
  }

  predicate Fails(m: Message, refused: set<Id>, dec: Decoder) { AboutRefused(m, refused) || Undecodable(m, dec) }

  /** The failure a message leads to: an unknown id for a refused stream, otherwise an undecodable payload. */
  function Failure(m: Message, refused: set<Id>, dec: Decoder): Option<HandlerError> {
    if AboutRefused(m, refused) then Some(if m.StreamItem? then UnknownStreamId else UnknownInvocationId)
    else if Undecodable(m, dec) then Some(DecodeFailed)
    else None
  }

  predicate HasClose(ms: seq<Message>) { exists m <- ms :: m.Close? }

  /** The loop ends with the first close message it gets. */
  ghost predicate CloseOk(y: System)
    requires y.read <= |y.out.conn.log|
  {
    if y.closed then y.read > 0 && y.out.conn.log[y.read - 1].Close? && !HasClose(y.out.conn.log[..y.read - 1])
    else !HasClose(y.out.conn.log[..y.read])
  }

  /** A call is outstanding until its completion arrives. */
  ghost predicate CallOk(y: System, id: Id)
    requires y.read <= |y.out.conn.log|
  {
    y.failure.None? ==> (id in y.reg.calls.open <==> Arrived(y, id) == [])
  }

  ghost predicate SystemOk(y: System, dec: Decoder) {
    && ShapeOk(y)
    && (forall id | Known(y, id) && id !in y.refused :: ReceiverOk(y, id, dec))
    && (forall id <- y.placed :: CallOk(y, id))
  }

  /* ---- the sender's steps ---- */

  /** The log only grows, and a stream keeps its source and, once completed, its record. */
  lemma SenderProgress(g: Sending, step: Streamers.Step)
    requires Streamers.Enabled(g, step)
    ensures var g' := Streamers.Next(g, step);
            && g.conn.log <= g'.conn.log
            && (forall id <- g.streams :: id in g'.streams
                  && g'.streams[id].src == g.streams[id].src && g'.streams[id].pushed == g.streams[id].pushed
                  && (g.streams[id].phase.Completed? ==> g'.streams[id] == g.streams[id]))
  {
  }

  lemma NothingArrived(y: System, id: Id)
    requires y.read <= |y.out.conn.log| && SendingOk(y.out) && id !in y.out.streams && id !in y.out.answered
    ensures Arrived(y, id) == []
  {
    ProjectPrefix(y.out.conn.log, y.read, id);
  }

  /** New streams are those of a Begin, announced by nothing, and of a Push. */
  lemma SenderBirths(g: Sending, step: Streamers.Step, id: Id)
    requires Streamers.Enabled(g, step) && id in Streamers.Next(g, step).streams && id !in g.streams
    ensures var st := Streamers.Next(g, step).streams[id];
            || (step.Begin? && id == step.id && st.src == step.src && !st.pushed)
            || (step.Push? && id in step.ids && st.pushed)
  {
  }

  lemma SendKeepsShape(y: System, step: Streamers.Step, dec: Decoder)
    requires ShapeOk(y) && Enabled(y, Send(step))
    ensures ShapeOk(Next(y, Send(step), dec))
  {
    var y' := Next(y, Send(step), dec);
    NextKeepsOk(y.out, step);
    SendKeepsOrigins(y, step, dec);
    SendKeepsArrived(y, step, dec);
    forall id <- y.refused ensures RefusedOk(y', id) { assert RefusedOk(y, id); }
  }

  /** Streams come from requests or pushes, and never have the id of a call. */
  lemma SendKeepsOrigins(y: System, step: Streamers.Step, dec: Decoder)
    requires ShapeOk(y) && Enabled(y, Send(step))
    ensures var y', g' := Next(y, Send(step), dec), Streamers.Next(y.out, step);
            && (forall id <- y.requested :: id in g'.streams ==>
                  !g'.streams[id].pushed && g'.streams[id].src == y.requested[id])
            && (forall id <- g'.streams :: id !in y.requested ==> g'.streams[id].pushed)
            && (forall id | Known(y, id) :: Known(y', id)) && (forall id <- y.placed :: !Known(y', id))
            && (forall id <- g'.answered :: id in y.placed)
  {
    var y', g, g' := Next(y, Send(step), dec), y.out, Streamers.Next(y.out, step);
    SenderProgress(g, step);
    forall id <- g'.streams
      ensures id in y.requested ==> !g'.streams[id].pushed && g'.streams[id].src == y.requested[id]
      ensures id !in y.requested ==> g'.streams[id].pushed
      ensures id !in y.placed
    {
      if id !in g.streams { SenderBirths(g, step, id); } else { assert Known(y, id); }
    }
    forall id | Known(y, id) ensures Known(y', id) { }
    forall id <- y.placed ensures !Known(y', id) { assert !Known(y, id); }
  }

  /** What was delivered does not change when more is written. */
  lemma SendKeepsArrived(y: System, step: Streamers.Step, dec: Decoder)
    requires y.read <= |y.out.conn.log| && Enabled(y, Send(step))
    ensures var y' := Next(y, Send(step), dec);
            && y'.read <= |y'.out.conn.log| && y'.out.conn.log[..y.read] == y.out.conn.log[..y.read]
            && (forall id :: Arrived(y', id) == Arrived(y, id))
            && (CloseOk(y) ==> CloseOk(y'))
  {
    SenderProgress(y.out, step);
    var log, log' := y.out.conn.log, Next(y, Send(step), dec).out.conn.log;
    assert log'[..y.read] == log[..y.read];
    if y.read > 0 { assert log'[..y.read - 1] == log[..y.read - 1] && log'[y.read - 1] == log[y.read - 1]; }
  }

  /** A stream stays as it is for the receiver if its channel does, and nothing arrives for it. */
  lemma ReceiverKept(y: System, y': System, id: Id, dec: Decoder)
    requires y.read <= |y.out.conn.log| && Known(y, id) && ReceiverOk(y, id, dec)
    requires y'.read <= |y'.out.conn.log| && Known(y', id) && Arrived(y', id) == Arrived(y, id)
    requires Source(y', id) == Source(y, id) && (id in y'.requested <==> id in y.requested)
    requires (id in y'.slot <==> id in y.slot) && (id in y'.reg.streams.up <==> id in y.reg.streams.up)
    requires id in y.reg.streams.up ==> y'.reg.streams.up[id] == y.reg.streams.up[id]
    requires id in y.slot ==>
               && y'.slot[id] == y.slot[id] < |y'.reg.streams.cells|
               && y'.reg.streams.cells[y.slot[id]] == y.reg.streams.cells[y.slot[id]]
    requires y'.failure.None? ==> y.failure.None?
    requires id in y.out.streams && y.out.streams[id].phase.Completed? ==>
               id in y'.out.streams && y'.out.streams[id] == y.out.streams[id]
    ensures ReceiverOk(y', id, dec)
  {
  }

  lemma SendKeepsReceiver(y: System, step: Streamers.Step, id: Id, dec: Decoder)
    requires ShapeOk(y) && Enabled(y, Send(step)) && Known(y, id) && ReceiverOk(y, id, dec)
    ensures var y' := Next(y, Send(step), dec);
            y'.read <= |y'.out.conn.log| && Known(y', id) && ReceiverOk(y', id, dec)
  {
    SendKeepsArrived(y, step, dec);
    SendKeepsSource(y, step, id, dec);
    ReceiverKept(y, Next(y, Send(step), dec), id, dec);
  }

  lemma SendKeepsSource(y: System, step: Streamers.Step, id: Id, dec: Decoder)
    requires Enabled(y, Send(step)) && Known(y, id)
    ensures var y' := Next(y, Send(step), dec);
            && Known(y', id) && Source(y', id) == Source(y, id)
            && (id in y.out.streams && y.out.streams[id].phase.Completed? ==>
                  id in y'.out.streams && y'.out.streams[id] == y.out.streams[id])
  {
    SenderProgress(y.out, step);
  }

  lemma SendKeepsOk(y: System, step: Streamers.Step, dec: Decoder)
    requires SystemOk(y, dec) && Enabled(y, Send(step))
    ensures SystemOk(Next(y, Send(step), dec), dec)
  {
    var y' := Next(y, Send(step), dec);
    SendKeepsShape(y, step, dec);
    forall id | Known(y', id) && id !in y'.refused ensures ReceiverOk(y', id, dec) {
      if Known(y, id) {
        SendKeepsReceiver(y, step, id, dec);
      } else {
        SendAnnounces(y, step, id, dec);
      }
    }
    SendKeepsArrived(y, step, dec);
    forall id <- y'.placed ensures CallOk(y', id) { assert CallOk(y, id); }
  }

  /** A stream that a step starts has not reached the receiver. */
  lemma SendAnnounces(y: System, step: Streamers.Step, id: Id, dec: Decoder)
    requires ShapeOk(y) && Enabled(y, Send(step)) && !Known(y, id)
    ensures var y' := Next(y, Send(step), dec);
            y'.read <= |y'.out.conn.log| && (Known(y', id) ==> ReceiverOk(y', id, dec))
  {
    SendKeepsArrived(y, step, dec);
    if Known(Next(y, Send(step), dec), id) {
      SenderBirths(y.out, step, id);
      NothingArrived(y, id);
    }
  }

  /* ---- the receiver's steps ---- */

  /** An event on `id` leaves what is known about another stream as it was. */
  lemma OthersKept(y: System, y': System, id: Id, other: Id, dec: Decoder)
    requires y.read <= |y.out.conn.log| && StreamsOk(y.reg.streams)
    requires other != id && Known(y, other) && ReceiverOk(y, other, dec) && y.failure.None?
    requires y'.out == y.out && y'.read <= |y.out.conn.log| && Arrived(y', other) == Arrived(y, other)
    requires other in y'.requested <==> other in y.requested
    requires other in y.requested ==> y'.requested[other] == y.requested[other]
    requires other in y.slot <==> other in y'.slot
    requires other in y.slot ==> y'.slot[other] == y.slot[other]
    requires StreamFrame(y.reg.streams, y'.reg.streams, id)
    ensures Known(y', other) && ReceiverOk(y', other, dec)
  {
    FrameKeeps(y.reg.streams, y'.reg.streams, id, other);
    ReceiverKept(y, y', other, dec);
  }

  lemma FrameKeeps(s: StreamTable, t: StreamTable, id: Id, other: Id)
    requires StreamFrame(s, t, id) && other != id
    ensures (other in t.up <==> other in s.up) && (other in s.up ==> t.up[other] == s.up[other])
  {
    assert other in s.up <==> other in s.up - {id};
    assert other in t.up <==> other in t.up - {id};
    if other in s.up { assert s.up[other] == (s.up - {id})[other] == t.up[other]; }
  }

  lemma ArrivalIsPrefix(y: System, id: Id)
    requires y.read < |y.out.conn.log|
    ensures Arrived(y, id) + View(y.out.conn.log[y.read], id) == Arrived(y.(read := y.read + 1), id)
    ensures Arrived(y.(read := y.read + 1), id) <= Project(y.out.conn.log, id)
  {
    var log := y.out.conn.log;
    assert log[..y.read + 1] == log[..y.read] + [log[y.read]];
    ProjectAppend(log[..y.read], log[y.read], id);
    ProjectPrefix(log, y.read + 1, id);
  }

  /** A message about an unbound stream can only be the invocation that announces it. */
  lemma FirstEvent(y: System, id: Id, dec: Decoder)
    requires ShapeOk(y) && y.failure.None? && y.read < |y.out.conn.log|
    requires Known(y, id) && id !in y.slot && ReceiverOk(y, id, dec)
    requires View(y.out.conn.log[y.read], id) != []
    ensures View(y.out.conn.log[y.read], id) == [Opened]
  {
    var m, st := y.out.conn.log[y.read], y.out.streams[id];
    assert View(m, id) <= Trace(st) && st.pushed by {
      ArrivalIsPrefix(y, id);
      assert StreamOk(y.out, id) && [] + View(m, id) == View(m, id);
    }
    TraceShape(true, st.src[..st.sent], st.phase.Completed?);
    assert View(m, id)[0] == Trace(st)[0];
  }

  /** A message about a bound stream can only be its next item, or its completion after its last. */
  lemma NextEvent(y: System, id: Id, dec: Decoder)
    requires ShapeOk(y) && y.failure.None? && y.read < |y.out.conn.log|
    requires Known(y, id) && id in y.slot && ReceiverOk(y, id, dec)
    requires View(y.out.conn.log[y.read], id) != []
    ensures id in y.out.streams
    ensures var ev, st, c := View(y.out.conn.log[y.read], id)[0], y.out.streams[id], y.reg.streams.cells[y.slot[id]];
            && c.closes == 0 && |c.sent| <= st.sent <= |st.src| && st.src == Source(y, id)
            && (ev == if |c.sent| < st.sent then Event.Item(st.src[|c.sent|]) else Finished(None, ""))
            && (|c.sent| == st.sent ==> st.phase.Completed?)
  {
    MentionedIsKnown(y, id);
    ArrivalIsPrefix(y, id);
    assert id in y.out.streams && StreamOk(y.out, id);
    var ev, st, c := View(y.out.conn.log[y.read], id)[0], y.out.streams[id], y.reg.streams.cells[y.slot[id]];
    assert View(y.out.conn.log[y.read], id) == [ev];
    TraceNext(st.pushed, st.src, |c.sent|, c.closes > 0, ev, st.sent, st.phase.Completed?);
  }

  lemma PullKeepsShape(y: System, id: Id, src: seq<Raw>, cap: nat, dec: Decoder)
    requires ShapeOk(y) && Enabled(y, Action.Pull(id, src, cap))
    ensures ShapeOk(Next(y, Action.Pull(id, src, cap), dec))
  {
    OpenKeepsStreamsOk(y.reg.streams, id, cap);
    PullKeepsRefused(y, id, src, cap, dec);
    PullKeepsNames(y, id, src, cap, dec);
    PullKeepsClose(y, id, src, cap, dec);
  }

  lemma PullKeepsNames(y: System, id: Id, src: seq<Raw>, cap: nat, dec: Decoder)
    requires ShapeOk(y) && Enabled(y, Action.Pull(id, src, cap))
    ensures var y' := Next(y, Action.Pull(id, src, cap), dec); SourcesOk(y') && NamesOk(y')
  {
  }

  lemma PullKeepsClose(y: System, id: Id, src: seq<Raw>, cap: nat, dec: Decoder)
    requires ShapeOk(y) && Enabled(y, Action.Pull(id, src, cap))
    ensures var y' := Next(y, Action.Pull(id, src, cap), dec); CloseOk(y') && CallsKnown(y')
  {
  }

  lemma PullKeepsRefused(y: System, id: Id, src: seq<Raw>, cap: nat, dec: Decoder)
    requires ShapeOk(y) && Enabled(y, Action.Pull(id, src, cap))
    ensures var y' := Next(y, Action.Pull(id, src, cap), dec);
            y'.read == y.read && y'.out.conn.log == y.out.conn.log && forall other <- y'.refused :: RefusedOk(y', other)
  {
    var y' := Next(y, Action.Pull(id, src, cap), dec);
    forall other <- y'.refused ensures RefusedOk(y', other) { assert RefusedOk(y, other) && Known(y, other); }
  }

  lemma OwnPull(y: System, id: Id, src: seq<Raw>, cap: nat, dec: Decoder)
    requires ShapeOk(y) && Enabled(y, Action.Pull(id, src, cap))
    ensures ReceiverOk(Next(y, Action.Pull(id, src, cap), dec), id, dec)
  {
    NothingArrived(y, id);
    TraceStart(false);
    assert src[..0] == [];
  }

  lemma PullKeepsOther(y: System, id: Id, src: seq<Raw>, cap: nat, other: Id, dec: Decoder)
    requires y.read <= |y.out.conn.log| && StreamsOk(y.reg.streams) && Enabled(y, Action.Pull(id, src, cap))
    requires other != id && Known(y, other) && ReceiverOk(y, other, dec)
    ensures ReceiverOk(Next(y, Action.Pull(id, src, cap), dec), other, dec)
  {
    ReceiverKept(y, Next(y, Action.Pull(id, src, cap), dec), other, dec);
  }

  lemma PullKeepsOk(y: System, id: Id, src: seq<Raw>, cap: nat, dec: Decoder)
    requires SystemOk(y, dec) && Enabled(y, Action.Pull(id, src, cap))
    ensures SystemOk(Next(y, Action.Pull(id, src, cap), dec), dec)
  {
    var y' := Next(y, Action.Pull(id, src, cap), dec);
    PullKeepsShape(y, id, src, cap, dec);
    OwnPull(y, id, src, cap, dec);
    forall other | Known(y', other) && other !in y'.refused ensures ReceiverOk(y', other, dec) {
      if other != id {
        assert Known(y, other) && ReceiverOk(y, other, dec);
        PullKeepsOther(y, id, src, cap, other, dec);
      }
    }
    forall other <- y'.placed ensures CallOk(y', other) { assert CallOk(y, other); }
  }

  lemma PlaceKeepsOk(y: System, id: Id, dec: Decoder)
    requires SystemOk(y, dec) && Enabled(y, Place(id))
    ensures SystemOk(Next(y, Place(id), dec), dec)
  {
    var y' := Next(y, Place(id), dec);
    forall other <- y'.refused ensures RefusedOk(y', other) { assert RefusedOk(y, other); }
    forall other | Known(y', other) && other !in y'.refused ensures ReceiverOk(y', other, dec) {
      assert Known(y, other);
      ReceiverKept(y, y', other, dec);
    }
    NothingArrived(y, id);
    forall other <- y'.placed ensures CallOk(y', other) { PlaceKeepsCall(y, id, other, dec); }
  }

  lemma PlaceKeepsCall(y: System, id: Id, other: Id, dec: Decoder)
    requires y.read <= |y.out.conn.log| && Enabled(y, Place(id))
    requires if other == id then Arrived(y, id) == [] else CallOk(y, other)
    ensures CallOk(Next(y, Place(id), dec), other)
  {
  }

  /** The next item of a bound stream arrives. */
  lemma OwnItem(y: System, id: Id, v: Raw, dec: Decoder)
    requires y.read < |y.out.conn.log| && y.failure.None? && !y.closed && y.out.conn.log[y.read] == StreamItem(id, v)
    requires Known(y, id) && id in y.slot && ReceiverOk(y, id, dec)
    requires var c, src := y.reg.streams.cells[y.slot[id]], Source(y, id);
             c.closes == 0 && |c.sent| < |src| && v == src[|c.sent|]
    ensures ReceiverOk(Receive(y, 0, 0, dec), id, dec)
    ensures Receive(y, 0, 0, dec).failure == if dec(v).Some? then None else Some(DecodeFailed)
  {
    ArrivalIsPrefix(y, id);
    ItemReceived(y, id, v, dec);
    if dec(v).Some? {
      ItemTracks(y, Receive(y, 0, 0, dec), id, v, dec);
    } else {
      FailureKeeps(y, Receive(y, 0, 0, dec), id, v, dec);
    }
  }

  lemma ItemReceived(y: System, id: Id, v: Raw, dec: Decoder)
    requires y.read < |y.out.conn.log| && y.failure.None? && !y.closed && y.out.conn.log[y.read] == StreamItem(id, v)
    requires id in y.reg.streams.up
    ensures var y', h := Receive(y, 0, 0, dec), y.reg.streams.up[id];
            && y' == y.(read := y.read + 1, reg := y'.reg, failure := if dec(v).Some? then None else Some(DecodeFailed))
            && y'.reg.streams.up == y.reg.streams.up
            && y'.reg.streams.cells == if dec(v).Some? then y.reg.streams.cells[h := y.reg.streams.cells[h].Send(dec(v).value)]
                                       else y.reg.streams.cells
  {
  }

  lemma ItemTracks(y: System, y': System, id: Id, v: Raw, dec: Decoder)
    requires y.read < |y.out.conn.log| && y.failure.None? && Known(y, id) && id in y.slot && ReceiverOk(y, id, dec)
    requires var c, src := y.reg.streams.cells[y.slot[id]], Source(y, id);
             c.closes == 0 && |c.sent| < |src| && v == src[|c.sent|]
    requires y' == y.(read := y.read + 1, reg := y'.reg, failure := None) && dec(v).Some?
    requires y'.reg.streams.up == y.reg.streams.up && Arrived(y', id) == Arrived(y, id) + [Event.Item(v)]
    requires y.slot[id] < |y'.reg.streams.cells|
    requires y'.reg.streams.cells[y.slot[id]] == y.reg.streams.cells[y.slot[id]].Send(dec(v).value)
    ensures ReceiverOk(y', id, dec)
  {
    var c, src := y.reg.streams.cells[y.slot[id]], Source(y, id);
    ItemTrace(id !in y.requested, src, |c.sent|, Arrived(y, id));
    HoldsMore(c, src, dec);
    var c' := y'.reg.streams.cells[y.slot[id]];
    assert c'.closes == 0 && |c'.sent| == |c.sent| + 1 && Source(y', id) == src;
    assert Tracks(y', id, dec);
  }

  lemma ItemTrace(announced: bool, src: seq<Raw>, k: nat, seen: seq<Event>)
    requires k < |src| && seen == TraceOf(announced, src[..k], false)
    ensures seen + [Event.Item(src[k])] == TraceOf(announced, src[..k + 1], false)
    ensures Finished(None, "") in seen + [Event.Item(src[k])] <==> Finished(None, "") in seen
  {
    TraceItem(announced, src, k);
  }

  lemma HoldsMore(c: Chan<Value>, src: seq<Raw>, dec: Decoder)
    requires Holds(c, src, dec) && c.closes == 0 && |c.sent| < |src| && dec(src[|c.sent|]).Some?
    ensures Holds(c.Send(dec(src[|c.sent|]).value), src, dec)
  {
  }

  /** A payload that does not decode changes nothing but the failure. */
  lemma FailureKeeps(y: System, y': System, id: Id, v: Raw, dec: Decoder)
    requires y.read < |y.out.conn.log| && y.failure.None? && Known(y, id) && id in y.slot && ReceiverOk(y, id, dec)
    requires y' == y.(read := y.read + 1, reg := y'.reg, failure := Some(DecodeFailed))
    requires y'.reg.streams.up == y.reg.streams.up && y'.reg.streams.cells == y.reg.streams.cells
    requires Arrived(y', id) == Arrived(y, id) + [Event.Item(v)]
    ensures ReceiverOk(y', id, dec)
  {
  }

  /** The completion of a bound stream arrives. */
  lemma OwnCompletion(y: System, id: Id, dec: Decoder)
    requires y.read < |y.out.conn.log| && y.failure.None? && !y.closed && y.out.conn.log[y.read] == Completion(id, None, "")
    requires Known(y, id) && id in y.slot && ReceiverOk(y, id, dec)
    requires var c := y.reg.streams.cells[y.slot[id]];
             c.closes == 0 && id in y.out.streams && y.out.streams[id].phase.Completed?
             && |c.sent| == y.out.streams[id].sent
    ensures ReceiverOk(Receive(y, 0, 0, dec), id, dec)
    ensures Receive(y, 0, 0, dec).failure == None
  {
    ArrivalIsPrefix(y, id);
    TraceEnd(id !in y.requested, Source(y, id)[..|y.reg.streams.cells[y.slot[id]].sent|]);
  }

  /** A message is about a stream the sender started, or it is the one completion of a call. */
  lemma MentionedIsKnown(y: System, id: Id)
    requires ShapeOk(y) && y.read < |y.out.conn.log| && View(y.out.conn.log[y.read], id) != []
    ensures id in y.out.streams
            || (id in y.out.answered && y.out.conn.log[y.read].Completion? && Arrived(y, id) == [])
  {
    ArrivalIsPrefix(y, id);
    var m := y.out.conn.log[y.read];
    if id !in y.out.streams {
      var all := Project(y.out.conn.log, id);
      assert Arrived(y, id) + View(m, id) <= all;
      assert id in y.out.answered && AnsweredOnce(all);
      assert Arrived(y, id) == [];
      assert View(m, id)[0] == all[0] && all[0] in all;
    }
  }

  /** What a delivery does, whatever the message. */
  lemma ReadMore(y: System, cap: nat, bound: nat, dec: Decoder)
    requires y.read <= |y.out.conn.log| && CloseOk(y) && Enabled(y, Deliver(cap, bound))
    ensures var y' := Receive(y, cap, bound, dec);
            && y'.read == y.read + 1 && CloseOk(y')
            && (forall id :: Arrived(y', id) == Arrived(y, id) + View(y.out.conn.log[y.read], id))
  {
    var y', log := Receive(y, cap, bound, dec), y.out.conn.log;
    assert y'.out.conn.log[..y'.read] == log[..y.read] + [log[y.read]];
    forall id ensures Arrived(y', id) == Arrived(y, id) + View(log[y.read], id) {
      ProjectAppend(log[..y.read], log[y.read], id);
    }
  }

  /** A stream is announced only once. */
  lemma AnnouncedOnce(y: System, id: Id)
    requires ShapeOk(y) && y.read < |y.out.conn.log| && id in y.out.streams && Arrived(y, id) != []
    ensures View(y.out.conn.log[y.read], id) != [Opened]
  {
    ArrivalIsPrefix(y, id);
    assert StreamOk(y.out, id);
    var st, v, k := y.out.streams[id], View(y.out.conn.log[y.read], id), |Arrived(y, id)|;
    TraceShape(st.pushed, st.src[..st.sent], st.phase.Completed?);
    if v != [] { assert (Arrived(y, id) + v)[k] == v[0] == Trace(st)[k]; }
  }

  lemma ReadKeepsRefused(y: System, cap: nat, bound: nat, id: Id, dec: Decoder)
    requires ShapeOk(y) && Enabled(y, Deliver(cap, bound)) && id in y.refused
    requires Receive(y, cap, bound, dec).reg.streams.up.Keys <= y.reg.streams.up.Keys
             || y.out.conn.log[y.read].Invocation?
    ensures var y' := Receive(y, cap, bound, dec); y'.read <= |y'.out.conn.log| && RefusedOk(y', id)
  {
    ReadMore(y, cap, bound, dec);
    assert RefusedOk(y, id);
    var m := y.out.conn.log[y.read];
    if m.Invocation? {
      if id in m.streamIds {
        MentionedIsKnown(y, id);
        AnnouncedOnce(y, id);
        assert false;
      }
      OpenAllEffect(y.reg.streams, m.streamIds[..bound], cap);
    }
  }

  /** The completion of a call arrives: the call was outstanding, and the streams are not concerned. */
  lemma AnswerArrives(y: System, id: Id, dec: Decoder)
    requires SystemOk(y, dec) && Enabled(y, Deliver(0, 0)) && id !in y.out.streams
    requires y.out.conn.log[y.read].Completion? && y.out.conn.log[y.read].id == id
    ensures var y' := Receive(y, 0, 0, dec);
            && id in y.placed && id in y.reg.calls.open && id !in y'.reg.calls.open
            && y'.reg.streams == y.reg.streams
            && y'.failure == if Undecodable(y.out.conn.log[y.read], dec) then Some(DecodeFailed) else None
  {
    MentionedIsKnown(y, id);
    assert CallOk(y, id) && !Known(y, id);
  }

  /** Calls other than the one that is answered stay as they are. */
  lemma ReadKeepsCalls(y: System, cap: nat, bound: nat, dec: Decoder)
    requires SystemOk(y, dec) && Enabled(y, Deliver(cap, bound))
    ensures var y' := Receive(y, cap, bound, dec);
            y'.read <= |y'.out.conn.log| && forall id <- y'.placed :: CallOk(y', id)
  {
    var y', m := Receive(y, cap, bound, dec), y.out.conn.log[y.read];
    ReadMore(y, cap, bound, dec);
    forall id <- y'.placed ensures CallOk(y', id) {
      assert CallOk(y, id) && id !in y.out.streams;
      if View(m, id) != [] {
        MentionedIsKnown(y, id);
        assert m.id == id;
        AnswerArrives(y, id, dec);
        assert Receive(y, cap, bound, dec) == Receive(y, 0, 0, dec);
      } else {
        OtherCallKept(y, cap, bound, id, dec);
      }
    }
  }

  lemma OtherCallKept(y: System, cap: nat, bound: nat, id: Id, dec: Decoder)
    requires Enabled(y, Deliver(cap, bound)) && CallOk(y, id) && View(y.out.conn.log[y.read], id) == []
    ensures var y' := Receive(y, cap, bound, dec); y'.read <= |y'.out.conn.log| && CallOk(y', id)
  {
    var y', m := Receive(y, cap, bound, dec), y.out.conn.log[y.read];
    ArrivalIsPrefix(y, id);
    if m.Completion? {
      CompletionFrames(y.reg, m.id, m.result, m.error, true, dec);
      var c, c' := y.reg.calls, y'.reg.calls;
      assert id in c.open <==> id in c.open - {m.id};
      assert id in c'.open <==> id in c'.open - {m.id};
    }
  }

  /** Delivery of an item or a completion. */
  lemma EventKeepsOk(y: System, id: Id, dec: Decoder)
    requires SystemOk(y, dec) && Enabled(y, Deliver(0, 0))
    requires var m := y.out.conn.log[y.read]; (m.StreamItem? || m.Completion?) && m.id == id
    ensures SystemOk(Receive(y, 0, 0, dec), dec)
  {
    EventKeepsShape(y, id, dec);
    ReadKeepsCalls(y, 0, 0, dec);
    forall other | Known(y, other) && other !in y.refused ensures ReceiverOk(Receive(y, 0, 0, dec), other, dec) {
      EventKeepsReceiver(y, id, other, dec);
    }
  }

  lemma EventKeepsShape(y: System, id: Id, dec: Decoder)
    requires ShapeOk(y) && Enabled(y, Deliver(0, 0))
    requires var m := y.out.conn.log[y.read]; (m.StreamItem? || m.Completion?) && m.id == id
    ensures ShapeOk(Receive(y, 0, 0, dec))
  {
    var y' := Receive(y, 0, 0, dec);
    EventKeepsStreams(y, id, dec);
    ReadMore(y, 0, 0, dec);
    EventShrinksCalls(y.reg, y.out.conn.log[y.read], dec);
    forall other <- y'.refused ensures RefusedOk(y', other) { ReadKeepsRefused(y, 0, 0, other, dec); }
  }

  lemma EventShrinksCalls(r: Registry, m: Message, dec: Decoder)
    requires m.StreamItem? || m.Completion?
    ensures HandleMessage(r, m, true, 0, 0, dec).0.calls.open.Keys <= r.calls.open.Keys
  {
  }

  lemma EventKeepsReceiver(y: System, id: Id, other: Id, dec: Decoder)
    requires SystemOk(y, dec) && Enabled(y, Deliver(0, 0)) && Known(y, other) && other !in y.refused
    requires var m := y.out.conn.log[y.read]; (m.StreamItem? || m.Completion?) && m.id == id
    ensures var y' := Receive(y, 0, 0, dec); y'.read <= |y'.out.conn.log| && Known(y', other) && ReceiverOk(y', other, dec)
  {
    assert ReceiverOk(y, other, dec);
    if other == id {
      EventOutcome(y, id, dec);
    } else {
      EventKeepsStreams(y, id, dec);
      ReadMore(y, 0, 0, dec);
      assert View(y.out.conn.log[y.read], other) == [] && Arrived(y, other) + [] == Arrived(y, other);
      OthersKept(y, Receive(y, 0, 0, dec), id, other, dec);
    }
  }

  /** What the event does to its own stream, and to the loop. */
  lemma EventOutcome(y: System, id: Id, dec: Decoder)
    requires SystemOk(y, dec) && Enabled(y, Deliver(0, 0))
    requires var m := y.out.conn.log[y.read]; (m.StreamItem? || m.Completion?) && m.id == id
    ensures var y' := Receive(y, 0, 0, dec);
            && y'.read <= |y'.out.conn.log|
            && y'.failure == Failure(y.out.conn.log[y.read], y.refused, dec)
            && (Known(y, id) && id !in y.refused ==> ReceiverOk(y', id, dec))
  {
    var m := y.out.conn.log[y.read];
    assert View(m, id) != [];
    MentionedIsKnown(y, id);
    if id !in y.out.streams {
      AnswerArrives(y, id, dec);
      assert !Known(y, id);
    } else if id !in y.refused {
      assert ReceiverOk(y, id, dec);
      if id !in y.slot { FirstEvent(y, id, dec); assert false; }
      NextEvent(y, id, dec);
      if m.StreamItem? { OwnItem(y, id, m.item, dec); } else { OwnCompletion(y, id, dec); }
    } else {
      RefusedIsUnknown(y, id, dec);
    }
  }

  /** A refused stream is in neither registry. */
  lemma RefusedIsUnknown(y: System, id: Id, dec: Decoder)
    requires ShapeOk(y) && Enabled(y, Deliver(0, 0)) && id in y.refused
    requires var m := y.out.conn.log[y.read]; (m.StreamItem? || m.Completion?) && m.id == id
    ensures Receive(y, 0, 0, dec).failure == Some(if y.out.conn.log[y.read].StreamItem? then UnknownStreamId else UnknownInvocationId)
  {
    assert RefusedOk(y, id) && Known(y, id);
    var m := y.out.conn.log[y.read];
    if m.Completion? { CompletionUnknownIff(y.reg, id, m.result, m.error, true, dec); }
  }

  lemma EventKeepsStreams(y: System, id: Id, dec: Decoder)
    requires ShapeOk(y) && Enabled(y, Deliver(0, 0))
    requires var m := y.out.conn.log[y.read]; (m.StreamItem? || m.Completion?) && m.id == id
    ensures var s, s' := y.reg.streams, Receive(y, 0, 0, dec).reg.streams;
            StreamsOk(s') && StreamFrame(s, s', id) && s'.up.Keys <= s.up.Keys
  {
    match y.out.conn.log[y.read]
    case StreamItem(_, v) => ItemEffect(y.reg, id, v, dec);
    case Completion(_, r, e) => CompletionEffect(y.reg, id, r, e, dec);
  }

  lemma ItemEffect(r: Registry, id: Id, v: Raw, dec: Decoder)
    requires StreamsOk(r.streams)
    ensures var s := HandleItem(r, id, v, true, dec).0.streams;
            StreamsOk(s) && StreamFrame(r.streams, s, id) && s.up.Keys <= r.streams.up.Keys
  {
    ReceiveKeepsStreamsOk(r.streams, id, v, true, dec);
    StreamOpFrames(r.streams, id, 0, v, true, dec);
  }

  lemma CompletionEffect(r: Registry, id: Id, result: Option<Raw>, error: string, dec: Decoder)
    requires StreamsOk(r.streams)
    ensures var s := HandleCompletion(r, id, result, error, true, dec).0.streams;
            StreamsOk(s) && StreamFrame(r.streams, s, id) && s.up.Keys <= r.streams.up.Keys
  {
    CompletionKeepsStreamsOk(r, id, result, error, true, dec);
    CompletionFrames(r, id, result, error, true, dec);
  }

  lemma {:induction false} OpenAllEffect(s: StreamTable, ids: seq<Id>, cap: nat)
    requires StreamsOk(s)
    ensures var t := OpenAll(s, ids, cap);
            && StreamsOk(t) && |s.cells| <= |t.cells|
            && (forall i | 0 <= i < |s.cells| :: t.cells[i] == s.cells[i])
            && (forall id <- ids :: id in t.up && |s.cells| <= t.up[id] && t.cells[t.up[id]] == MakeChan(cap))
            && (forall id | id !in ids :: (id in t.up <==> id in s.up) && (id in s.up ==> t.up[id] == s.up[id]))
    decreases |ids|
  {
    if ids != [] {
      OpenKeepsStreamsOk(s, ids[0], cap);
      OpenAllEffect(s.Open(ids[0], cap), ids[1..], cap);
      assert ids == [ids[0]] + ids[1..];
    }
  }

  lemma BindKeepsShape(y: System, cap: nat, bound: nat, dec: Decoder)
    requires SystemOk(y, dec) && Enabled(y, Deliver(cap, bound)) && y.out.conn.log[y.read].Invocation?
    ensures ShapeOk(Receive(y, cap, bound, dec))
  {
    var y', ids := Receive(y, cap, bound, dec), y.out.conn.log[y.read].streamIds;
    ReadMore(y, cap, bound, dec);
    OpenAllEffect(y.reg.streams, ids[..bound], cap);
    forall id | id in y'.slot || id in y'.reg.streams.up || id in y'.refused ensures Known(y', id) {
      if id in ids { MentionedIsKnown(y, id); } else { assert Known(y, id); }
    }
    forall id <- y'.refused ensures RefusedOk(y', id) { BindKeepsRefused(y, cap, bound, id, dec); }
  }

  lemma BindKeepsRefused(y: System, cap: nat, bound: nat, id: Id, dec: Decoder)
    requires SystemOk(y, dec) && Enabled(y, Deliver(cap, bound)) && y.out.conn.log[y.read].Invocation?
    requires id in Receive(y, cap, bound, dec).refused
    ensures var y' := Receive(y, cap, bound, dec); y'.read <= |y'.out.conn.log| && RefusedOk(y', id)
  {
    ReadMore(y, cap, bound, dec);
    if id in y.refused {
      ReadKeepsRefused(y, cap, bound, id, dec);
    } else {
      MentionedIsKnown(y, id);
      assert ReceiverOk(y, id, dec);
      NewlyRefused(y, cap, bound, id, dec);
    }
  }

  /** A stream that is announced and not bound has no channel yet. */
  lemma NewlyRefused(y: System, cap: nat, bound: nat, id: Id, dec: Decoder)
    requires ShapeOk(y) && Enabled(y, Deliver(cap, bound)) && y.out.conn.log[y.read].Invocation?
    requires Known(y, id) && ReceiverOk(y, id, dec)
    requires id in y.out.conn.log[y.read].streamIds && id !in y.out.conn.log[y.read].streamIds[..bound]
    ensures var y' := Receive(y, cap, bound, dec); y'.read <= |y'.out.conn.log| && RefusedOk(y', id)
  {
    AnnouncedIsUnbound(y, id, dec);
    OpenAllEffect(y.reg.streams, y.out.conn.log[y.read].streamIds[..bound], cap);
    ReadMore(y, cap, bound, dec);
  }

  lemma AnnouncedIsUnbound(y: System, id: Id, dec: Decoder)
    requires ShapeOk(y) && Enabled(y, Deliver(0, 0)) && y.out.conn.log[y.read].Invocation?
    requires Known(y, id) && ReceiverOk(y, id, dec) && id in y.out.conn.log[y.read].streamIds
    ensures id !in y.slot
  {
    if id in y.slot { NextEvent(y, id, dec); assert false; }
  }

  /** The channel of a stream is made when the invocation that announces it is bound. */
  lemma OwnBind(y: System, cap: nat, bound: nat, id: Id, dec: Decoder)
    requires y.read <= |y.out.conn.log| && StreamsOk(y.reg.streams)
    requires Enabled(y, Deliver(cap, bound)) && y.out.conn.log[y.read].Invocation?
    requires Known(y, id) && id !in y.slot && ReceiverOk(y, id, dec)
    requires id in y.out.conn.log[y.read].streamIds[..bound]
    ensures ReceiverOk(Receive(y, cap, bound, dec), id, dec)
  {
    var y' := Receive(y, cap, bound, dec);
    BoundSlot(y, cap, bound, id, dec);
    assert y.failure.None? && Arrived(y', id) == [Opened] by {
      assert id in y.out.conn.log[y.read].streamIds;
      ArrivalIsPrefix(y, id);
    }
    JustBound(y', id, cap, dec);
  }

  lemma BoundSlot(y: System, cap: nat, bound: nat, id: Id, dec: Decoder)
    requires y.read <= |y.out.conn.log| && StreamsOk(y.reg.streams)
    requires Enabled(y, Deliver(cap, bound)) && y.out.conn.log[y.read].Invocation?
    requires id in y.out.conn.log[y.read].streamIds[..bound]
    ensures var y' := Receive(y, cap, bound, dec);
            && y'.out == y.out && y'.requested == y.requested && y'.read == y.read + 1
            && id in y'.reg.streams.up && id in y'.slot && y'.slot[id] == y'.reg.streams.up[id] < |y'.reg.streams.cells|
            && y'.reg.streams.cells[y'.slot[id]] == MakeChan(cap)
  {
    OpenAllEffect(y.reg.streams, y.out.conn.log[y.read].streamIds[..bound], cap);
  }

  lemma JustBound(y: System, id: Id, cap: nat, dec: Decoder)
    requires y.read <= |y.out.conn.log| && Known(y, id) && id !in y.requested && Arrived(y, id) == [Opened]
    requires id in y.reg.streams.up && id in y.slot && y.slot[id] == y.reg.streams.up[id] < |y.reg.streams.cells|
    requires y.reg.streams.cells[y.slot[id]] == MakeChan(cap)
    ensures ReceiverOk(y, id, dec)
  {
    TraceStart(true);
    assert Source(y, id)[..0] == [];
  }

  lemma BindKeepsOther(y: System, cap: nat, bound: nat, id: Id, dec: Decoder)
    requires y.read <= |y.out.conn.log| && StreamsOk(y.reg.streams)
    requires Enabled(y, Deliver(cap, bound)) && y.out.conn.log[y.read].Invocation?
    requires Known(y, id) && ReceiverOk(y, id, dec) && id !in y.out.conn.log[y.read].streamIds
    ensures ReceiverOk(Receive(y, cap, bound, dec), id, dec)
  {
    var y', m := Receive(y, cap, bound, dec), y.out.conn.log[y.read];
    OpenAllEffect(y.reg.streams, m.streamIds[..bound], cap);
    ArrivalIsPrefix(y, id);
    assert View(m, id) == [] && Arrived(y, id) + [] == Arrived(y, id);
    assert id !in m.streamIds[..bound];
    ReceiverKept(y, y', id, dec);
  }

  lemma BindKeepsOk(y: System, cap: nat, bound: nat, dec: Decoder)
    requires SystemOk(y, dec) && Enabled(y, Deliver(cap, bound)) && y.out.conn.log[y.read].Invocation?
    ensures SystemOk(Receive(y, cap, bound, dec), dec)
  {
    var y', ids := Receive(y, cap, bound, dec), y.out.conn.log[y.read].streamIds;
    BindKeepsShape(y, cap, bound, dec);
    ReadKeepsCalls(y, cap, bound, dec);
    forall id | Known(y', id) && id !in y'.refused ensures ReceiverOk(y', id, dec) {
      assert Known(y, id) && ReceiverOk(y, id, dec);
      if id in ids { AnnouncedIsUnbound(y, id, dec); OwnBind(y, cap, bound, id, dec); } else { BindKeepsOther(y, cap, bound, id, dec); }
    }
  }

  /** Other messages pass without effect. */
  lemma SkipKeepsOk(y: System, cap: nat, bound: nat, dec: Decoder)
    requires SystemOk(y, dec) && Enabled(y, Deliver(cap, bound))
    requires var m := y.out.conn.log[y.read]; !m.Invocation? && !m.StreamItem? && !m.Completion?
    ensures SystemOk(Receive(y, cap, bound, dec), dec)
  {
    var y' := Receive(y, cap, bound, dec);
    SkipKeepsShape(y, cap, bound, dec);
    ReadKeepsCalls(y, cap, bound, dec);
    forall id | Known(y', id) && id !in y'.refused ensures ReceiverOk(y', id, dec) {
      assert Known(y, id) && ReceiverOk(y, id, dec);
      SkipKeepsReceiver(y, cap, bound, id, dec);
    }
  }

  lemma SkipKeepsReceiver(y: System, cap: nat, bound: nat, id: Id, dec: Decoder)
    requires y.read <= |y.out.conn.log| && Enabled(y, Deliver(cap, bound)) && Known(y, id) && ReceiverOk(y, id, dec)
    requires var m := y.out.conn.log[y.read]; !m.Invocation? && !m.StreamItem? && !m.Completion?
    ensures ReceiverOk(Receive(y, cap, bound, dec), id, dec)
  {
    ArrivalIsPrefix(y, id);
    assert Arrived(y, id) + [] == Arrived(y, id);
    ReceiverKept(y, Receive(y, cap, bound, dec), id, dec);
  }

  lemma SkipKeepsShape(y: System, cap: nat, bound: nat, dec: Decoder)
    requires ShapeOk(y) && Enabled(y, Deliver(cap, bound))
    requires var m := y.out.conn.log[y.read]; !m.Invocation? && !m.StreamItem? && !m.Completion?
    ensures ShapeOk(Receive(y, cap, bound, dec))
  {
    var y' := Receive(y, cap, bound, dec);
    ReadMore(y, cap, bound, dec);
    forall id <- y'.refused ensures RefusedOk(y', id) { assert RefusedOk(y, id); }
  }

  lemma NextKeepsSystem(y: System, a: Action, dec: Decoder)
    requires SystemOk(y, dec) && Enabled(y, a)
    ensures SystemOk(Next(y, a, dec), dec)
  {
    match a
    case Pull(id, src, cap) => PullKeepsOk(y, id, src, cap, dec);
    case Place(id) => PlaceKeepsOk(y, id, dec);
    case Send(step) => SendKeepsOk(y, step, dec);
    case Deliver(cap, bound) =>
      var m := y.out.conn.log[y.read];
      if m.Invocation? {
        BindKeepsOk(y, cap, bound, dec);
      } else if m.StreamItem? || m.Completion? {
        EventKeepsOk(y, m.id, dec);
        assert Receive(y, cap, bound, dec) == Receive(y, 0, 0, dec);
      } else {
        SkipKeepsOk(y, cap, bound, dec);
      }
  }

  /* ---- every run ---- */

  function Quiet(maxCancels: nat): System {
    System(Idle(maxCancels), map[], {}, 0, Registry(NoCalls, NoStreams), map[], {}, None, false)
  }

  ghost predicate Moves(y: System, a: Action, y': System, dec: Decoder) {
    Enabled(y, a) && y' == Next(y, a, dec)
  }

  ghost predicate MovesAt(ys: seq<System>, acts: seq<Action>, k: nat, dec: Decoder)
    requires k < |acts| && |ys| == |acts| + 1
  {
    Moves(ys[k], acts[k], ys[k + 1], dec)
  }

  ghost predicate IsPath(ys: seq<System>, acts: seq<Action>, dec: Decoder) {
    |ys| == |acts| + 1 && forall k | 0 <= k < |acts| :: MovesAt(ys, acts, k, dec)
  }

  ghost predicate IsRun(ys: seq<System>, acts: seq<Action>, dec: Decoder) {
    IsPath(ys, acts, dec) && ys[0] == Quiet(ys[0].out.conn.maxCancels)
  }

  lemma QuietOk(maxCancels: nat, dec: Decoder)
    ensures SystemOk(Quiet(maxCancels), dec)
  {
    assert !HasClose([]);
  }

  lemma StepKeepsOk(y: System, a: Action, y': System, dec: Decoder)
    requires SystemOk(y, dec) && Moves(y, a, y', dec)
    ensures SystemOk(y', dec)
  {
    NextKeepsSystem(y, a, dec);
  }

  /** What every step keeps holds at the end of a path. */
  lemma {:induction false} PathKeeps(ys: seq<System>, acts: seq<Action>, n: nat, p: System -> bool, dec: Decoder)
    requires IsPath(ys, acts, dec) && n <= |acts| && p(ys[0])
    requires forall y, a, y' :: p(y) && Moves(y, a, y', dec) ==> p(y')
    ensures p(ys[n])
  {
    if n > 0 {
      PathKeeps(ys, acts, n - 1, p, dec);
      assert MovesAt(ys, acts, n - 1, dec);
    }
  }

  lemma PathKeepsOk(ys: seq<System>, acts: seq<Action>, n: nat, dec: Decoder)
    requires IsPath(ys, acts, dec) && n <= |acts| && SystemOk(ys[0], dec)
    ensures SystemOk(ys[n], dec)
  {
    var p := y => SystemOk(y, dec);
    forall y, a, y' | p(y) && Moves(y, a, y', dec) ensures p(y') { StepKeepsOk(y, a, y', dec); }
    PathKeeps(ys, acts, n, p, dec);
  }

  lemma RunKeepsOk(ys: seq<System>, acts: seq<Action>, n: nat, dec: Decoder)
    requires IsRun(ys, acts, dec) && n <= |acts|
    ensures SystemOk(ys[n], dec)
  {
    QuietOk(ys[0].out.conn.maxCancels, dec);
    PathKeepsOk(ys, acts, n, dec);
  }

  lemma {:induction false} NoStopNoCut(ys: seq<System>, acts: seq<Action>, n: nat, id: Id, dec: Decoder)
    requires IsRun(ys, acts, dec) && n <= |acts|
    requires forall k | 0 <= k < n :: acts[k] != Send(Streamers.Stop(id))
    ensures id !in ys[n].out.conn.cancels
    ensures id in ys[n].out.streams ==> !ys[n].out.streams[id].cancelled
  {
    if n > 0 {
      NoStopNoCut(ys, acts, n - 1, id, dec);
      assert MovesAt(ys, acts, n - 1, dec);
      NoStopKeepsUncut(ys[n - 1], acts[n - 1], ys[n], id, dec);
    }
  }

  lemma NoStopKeepsUncut(y: System, a: Action, y': System, id: Id, dec: Decoder)
    requires Moves(y, a, y', dec) && a != Send(Streamers.Stop(id))
    requires id !in y.out.conn.cancels && (id in y.out.streams ==> !y.out.streams[id].cancelled)
    ensures id !in y'.out.conn.cancels && (id in y'.out.streams ==> !y'.out.streams[id].cancelled)
  {
  }

  /** In every run, at every moment, the channel of a bound stream holds the first items of its
      source, decoded and in order; it was closed at most once, exactly when the completion had
      arrived; and if no cancel came in, the closed channel holds the whole source. */
  lemma StreamArrivesInOrder(ys: seq<System>, acts: seq<Action>, n: nat, id: Id, dec: Decoder)
    requires IsRun(ys, acts, dec) && n <= |acts|
    requires Known(ys[n], id) && id in ys[n].slot && id !in ys[n].refused
    ensures ys[n].slot[id] < |ys[n].reg.streams.cells| && ys[n].read <= |ys[n].out.conn.log|
    ensures var c, src := ys[n].reg.streams.cells[ys[n].slot[id]], Source(ys[n], id);
            && c.Sound() && Holds(c, src, dec)
            && (c.closes == 1 <==> id !in ys[n].reg.streams.up)
            && (c.closes == 1 <==> Completion(id, None, "") in ys[n].out.conn.log[..ys[n].read])
            && (c.closes == 1 && (forall k | 0 <= k < n :: acts[k] != Send(Streamers.Stop(id))) ==> |c.sent| == |src|)
  {
    RunKeepsOk(ys, acts, n, dec);
    assert ReceiverOk(ys[n], id, dec);
    if forall k | 0 <= k < n :: acts[k] != Send(Streamers.Stop(id)) {
      NoStopNoCut(ys, acts, n, id, dec);
    }
    if id in ys[n].out.streams { assert StreamOk(ys[n].out, id); }
    ProjectHas(ys[n].out.conn.log[..ys[n].read], id, None, "");
  }

  /** In every run, a delivery fails if and only if its message is about a refused stream or carries a
      payload that does not decode; it fails with an unknown id exactly in the first case. */
  lemma UnknownIffRefused(ys: seq<System>, acts: seq<Action>, n: nat, dec: Decoder)
    requires IsRun(ys, acts, dec) && n < |acts| && acts[n].Deliver?
    ensures ys[n].read < |ys[n].out.conn.log|
    ensures var m, failure := ys[n].out.conn.log[ys[n].read], ys[n + 1].failure;
            && (failure.Some? <==> AboutRefused(m, ys[n].refused) || Undecodable(m, dec))
            && (failure in {Some(UnknownStreamId), Some(UnknownInvocationId), Some(UnknownCompletionId)}
                <==> AboutRefused(m, ys[n].refused))
  {
    RunKeepsOk(ys, acts, n, dec);
    assert MovesAt(ys, acts, n, dec);
    DeliveryFailure(ys[n], acts[n].cap, acts[n].bound, dec);
  }

  lemma DeliveryFailure(y: System, cap: nat, bound: nat, dec: Decoder)
    requires SystemOk(y, dec) && Enabled(y, Deliver(cap, bound))
    ensures Receive(y, cap, bound, dec).failure == Failure(y.out.conn.log[y.read], y.refused, dec)
  {
    var m := y.out.conn.log[y.read];
    if m.StreamItem? || m.Completion? {
      EventOutcome(y, m.id, dec);
      assert Receive(y, cap, bound, dec) == Receive(y, 0, 0, dec);
    }
  }

  /** Once everything written has arrived, the channel shows exactly how far the sender came. */
  lemma DrainedLinkShowsAll(ys: seq<System>, acts: seq<Action>, n: nat, id: Id, dec: Decoder)
    requires IsRun(ys, acts, dec) && n <= |acts|
    requires id in ys[n].out.streams && id !in ys[n].refused && ys[n].failure.None?
    requires ys[n].read == |ys[n].out.conn.log|
    ensures id in ys[n].slot && ys[n].slot[id] < |ys[n].reg.streams.cells|
    ensures var c, st := ys[n].reg.streams.cells[ys[n].slot[id]], ys[n].out.streams[id];
            |c.sent| == st.sent && (c.closes == 1 <==> st.phase.Completed?)
  {
    RunKeepsOk(ys, acts, n, dec);
    DrainedShows(ys[n], id, dec);
  }

  lemma DrainedShows(y: System, id: Id, dec: Decoder)
    requires SystemOk(y, dec) && y.read == |y.out.conn.log| && y.failure.None?
    requires id in y.out.streams && id !in y.refused
    ensures id in y.slot && y.slot[id] < |y.reg.streams.cells|
    ensures var c, st := y.reg.streams.cells[y.slot[id]], y.out.streams[id];
            |c.sent| == st.sent && (c.closes == 1 <==> st.phase.Completed?)
  {
    assert ReceiverOk(y, id, dec) && StreamOk(y.out, id);
    assert y.out.conn.log[..y.read] == y.out.conn.log;
    var st := y.out.streams[id];
    assert st.pushed ==> Trace(st)[0] == Opened;
    var c := y.reg.streams.cells[y.slot[id]];
    SameTrace(st.pushed, st.src, |c.sent|, c.closes > 0, st.sent, st.phase.Completed?);
  }

  lemma SameTrace(announced: bool, src: seq<Raw>, k: nat, finished: bool, n: nat, finished': bool)
    requires k <= |src| && n <= |src|
    requires TraceOf(announced, src[..k], finished) == TraceOf(announced, src[..n], finished')
    ensures k == n && finished == finished'
  {
    var a, b := TraceOf(announced, src[..k], finished), TraceOf(announced, src[..n], finished');
    var o := if announced then 1 else 0;
    assert forall i | 0 <= i < k :: a[o + i] == Event.Item(src[i]);
    assert forall i | 0 <= i < n :: b[o + i] == Event.Item(src[i]);
    assert |a| == o + k + (if finished then 1 else 0) && |b| == o + n + (if finished' then 1 else 0);
    assert finished ==> a[o + k] == Finished(None, "");
    assert finished' ==> b[o + n] == Finished(None, "");
  }

  /* ---- when a stream can still be finished ---- */

  ghost predicate LeadsTo(y: System, y': System, dec: Decoder) {
    exists ys: seq<System>, acts: seq<Action> :: IsPath(ys, acts, dec) && ys[0] == y && ys[|acts|] == y'
  }

  ghost predicate Reachable(y: System, dec: Decoder) { exists maxCancels :: LeadsTo(Quiet(maxCancels), y, dec) }

  lemma LeadsToOk(y: System, y': System, dec: Decoder)
    requires LeadsTo(y, y', dec) && SystemOk(y, dec)
    ensures SystemOk(y', dec)
  {
    var ys: seq<System>, acts: seq<Action> :| IsPath(ys, acts, dec) && ys[0] == y && ys[|acts|] == y';
    PathKeepsOk(ys, acts, |acts|, dec);
  }

  lemma Extend(y0: System, y: System, a: Action, dec: Decoder) returns (y': System)
    requires LeadsTo(y0, y, dec) && Enabled(y, a) && SystemOk(y, dec)
    ensures y' == Next(y, a, dec) && LeadsTo(y0, y', dec) && SystemOk(y', dec)
  {
    y' := Next(y, a, dec);
    NextKeepsSystem(y, a, dec);
    OneMove(y0, y, a, y', dec);
  }

  lemma OneMove(y0: System, y: System, a: Action, y': System, dec: Decoder)
    requires LeadsTo(y0, y, dec) && Moves(y, a, y', dec)
    ensures LeadsTo(y0, y', dec)
  {
    var ys: seq<System>, acts: seq<Action> :| IsPath(ys, acts, dec) && ys[0] == y0 && ys[|acts|] == y;
    var ys', acts' := ys + [y'], acts + [a];
    forall k | 0 <= k < |acts'| ensures MovesAt(ys', acts', k, dec) {
      if k < |acts| { assert MovesAt(ys, acts, k, dec); }
    }
    assert IsPath(ys', acts', dec) && ys'[0] == y0 && ys'[|acts'|] == y';
  }

  /** The channel of `id` is closed and holds the whole source. */
  ghost predicate Whole(y: System, id: Id) {
    && Known(y, id) && id in y.slot && y.slot[id] < |y.reg.streams.cells|
    && var c := y.reg.streams.cells[y.slot[id]]; c.closes == 1 && |c.sent| == |Source(y, id)|
  }

  /** Everything under way can be delivered. */
  ghost predicate Deliverable(y: System, dec: Decoder) {
    forall j | y.read <= j < |y.out.conn.log| :: !Fails(y.out.conn.log[j], y.refused, dec)
  }

  predicate Decodable(vs: seq<Raw>, dec: Decoder) { forall i | 0 <= i < |vs| :: dec(vs[i]).Some? }

  /** Nothing stands in the way of a running stream: connection and receiving loop live, no close
      message was written, no cancel waits for its next item, it was not refused, and what is under
      way and what it has still to send can be delivered. */
  ghost predicate Free(y: System, id: Id, dec: Decoder)
    requires id in y.out.streams && y.out.streams[id].sent <= |y.out.streams[id].src|
  {
    var st := y.out.streams[id];
    && !y.out.conn.aborted && y.failure.None? && !HasClose(y.out.conn.log)
    && (id !in y.out.conn.cancels || st.taken == |st.src|)
    && id !in y.refused && Deliverable(y, dec) && Decodable(st.src[st.sent..], dec)
  }

  /** One more item or the completion of a free stream is written. */
  lemma Pump(y0: System, y: System, id: Id, dec: Decoder) returns (y': System)
    requires LeadsTo(y0, y, dec) && SystemOk(y, dec)
    requires id in y.out.streams && y.out.streams[id].phase.Running? && y.out.streams[id].sent <= |y.out.streams[id].src|
    requires Free(y, id, dec)
    ensures LeadsTo(y0, y', dec) && SystemOk(y', dec)
    ensures y'.refused == y.refused && y'.failure.None? && !HasClose(y'.out.conn.log) && y'.closed == y.closed
    ensures Deliverable(y', dec) && id in y'.out.streams
    ensures var st, st' := y.out.streams[id], y'.out.streams[id];
            && st'.src == st.src && st'.sent <= |st.src|
            && (if st.taken < |st.src| then st'.phase.Running? && st'.taken == st.taken + 1 && Free(y', id, dec)
                else st'.phase.Completed? && st'.sent == |st.src|)
  {
    assert StreamOk(y.out, id);
    y' := ExtendByTurn(y0, y, id, dec);
    PumpTurn(y, y', id, dec);
  }

  lemma ExtendByTurn(y0: System, y: System, id: Id, dec: Decoder) returns (y': System)
    requires LeadsTo(y0, y, dec) && SystemOk(y, dec) && id in y.out.streams && y.out.streams[id].phase.Running?
    ensures LeadsTo(y0, y', dec) && SystemOk(y', dec) && y' == y.(out := TurnOf(y.out, id, true))
  {
    y' := Extend(y0, y, Send(Streamers.Turn(id, true)), dec);
  }

  lemma PumpTurn(y: System, y': System, id: Id, dec: Decoder)
    requires id in y.out.streams && y.out.streams[id].phase.Running? && StreamOk(y.out, id)
    requires y.out.streams[id].sent <= |y.out.streams[id].src| && Free(y, id, dec)
    requires y' == y.(out := TurnOf(y.out, id, true))
    ensures !HasClose(y'.out.conn.log) && Deliverable(y', dec) && id in y'.out.streams
    ensures var st, st' := y.out.streams[id], y'.out.streams[id];
            && st'.src == st.src && st'.sent <= |st.src|
            && (if st.taken < |st.src| then st'.phase.Running? && st'.taken == st.taken + 1 && Free(y', id, dec)
                else st'.phase.Completed? && st'.sent == |st.src|)
  {
    var st := y.out.streams[id];
    var m := if st.taken < |st.src| then StreamItem(id, st.src[st.taken]) else Completion(id, None, "");
    FreeTurn(y.out, id);
    PumpedStaysFree(y, y', id, m, dec);
  }

  /** A turn of a running stream on a live connection without a cancel that waits. */
  lemma FreeTurn(g: Sending, id: Id)
    requires id in g.streams && g.streams[id].phase.Running? && StreamOk(g, id) && !g.conn.aborted
    requires id !in g.conn.cancels || g.streams[id].taken == |g.streams[id].src|
    ensures var g', st := TurnOf(g, id, true), g.streams[id];
            && !g'.conn.aborted && g'.conn.cancels == g.conn.cancels && id in g'.streams
            && (if st.taken < |st.src| then
                  && g'.conn.log == g.conn.log + [StreamItem(id, st.src[st.taken])]
                  && g'.streams[id] == st.(taken := st.taken + 1, sent := st.sent + 1)
                else
                  && g'.conn.log == g.conn.log + [Completion(id, None, "")]
                  && g'.streams[id] == st.(phase := Completed))
  {
  }

  lemma PumpedStaysFree(y: System, y': System, id: Id, m: Message, dec: Decoder)
    requires id in y.out.streams && StreamOk(y.out, id) && y.out.streams[id].phase.Running? && Free(y, id, dec)
    requires var st := y.out.streams[id]; m == if st.taken < |st.src| then StreamItem(id, st.src[st.taken]) else Completion(id, None, "")
    requires y' == y.(out := y'.out) && y'.out.conn.log == y.out.conn.log + [m]
    ensures Deliverable(y', dec) && !HasClose(y'.out.conn.log)
    ensures var st := y.out.streams[id]; st.taken < |st.src| ==> Decodable(st.src[st.sent + 1..], dec)
  {
    var st := y.out.streams[id];
    if st.taken < |st.src| {
      assert st.src[st.sent..][0] == st.src[st.taken];
      assert st.src[st.sent + 1..] == st.src[st.sent..][1..];
    }
    assert !Fails(m, y.refused, dec);
  }

  lemma {:induction false} PumpToEnd(y0: System, y: System, id: Id, dec: Decoder) returns (y': System)
    requires LeadsTo(y0, y, dec) && SystemOk(y, dec)
    requires id in y.out.streams && y.out.streams[id].phase.Running? && y.out.streams[id].sent <= |y.out.streams[id].src|
    requires Free(y, id, dec)
    ensures LeadsTo(y0, y', dec) && SystemOk(y', dec)
    ensures y'.refused == y.refused && y'.failure.None? && !HasClose(y'.out.conn.log) && y'.closed == y.closed
    ensures Deliverable(y', dec) && id in y'.out.streams && y'.out.streams[id].phase.Completed?
    ensures y'.out.streams[id].src == y.out.streams[id].src && y'.out.streams[id].sent == |y.out.streams[id].src|
    decreases |y.out.streams[id].src| - y.out.streams[id].taken
  {
    y' := Pump(y0, y, id, dec);
    if y.out.streams[id].taken < |y.out.streams[id].src| { y' := PumpToEnd(y0, y', id, dec); }
  }

  /** Everything under way can be delivered, every invocation bound. */
  lemma {:induction false} DrainLink(y0: System, y: System, dec: Decoder) returns (y': System)
    requires LeadsTo(y0, y, dec) && SystemOk(y, dec)
    requires y.failure.None? && !y.closed && !HasClose(y.out.conn.log) && Deliverable(y, dec)
    ensures LeadsTo(y0, y', dec) && SystemOk(y', dec) && y'.out == y.out && y'.read == |y.out.conn.log|
    ensures y'.failure.None? && y'.refused == y.refused && y'.requested == y.requested
    decreases |y.out.conn.log| - y.read
  {
    if y.read == |y.out.conn.log| {
      y' := y;
    } else {
      y' := DeliverOne(y0, y, dec);
      y' := DrainLink(y0, y', dec);
    }
  }

  lemma DeliverOne(y0: System, y: System, dec: Decoder) returns (y': System)
    requires LeadsTo(y0, y, dec) && SystemOk(y, dec) && y.read < |y.out.conn.log|
    requires y.failure.None? && !y.closed && !HasClose(y.out.conn.log) && Deliverable(y, dec)
    ensures LeadsTo(y0, y', dec) && SystemOk(y', dec) && y'.out == y.out && y'.read == y.read + 1
    ensures y'.failure.None? && !y'.closed && y'.refused == y.refused && y'.requested == y.requested && Deliverable(y', dec)
  {
    var m := y.out.conn.log[y.read];
    assert m in y.out.conn.log;
    var bound := if m.Invocation? then |m.streamIds| else 0;
    y' := Extend(y0, y, Deliver(1, bound), dec);
    FullyBound(y, bound, dec);
  }

  lemma FullyBound(y: System, bound: nat, dec: Decoder)
    requires SystemOk(y, dec) && Enabled(y, Deliver(1, bound)) && !y.out.conn.log[y.read].Close? && Deliverable(y, dec)
    requires y.out.conn.log[y.read].Invocation? ==> bound == |y.out.conn.log[y.read].streamIds|
    ensures var y' := Receive(y, 1, bound, dec);
            && y'.out == y.out && y'.read == y.read + 1 && y'.requested == y.requested
            && y'.failure.None? && !y'.closed && y'.refused == y.refused
  {
    var m := y.out.conn.log[y.read];
    DeliveryFailure(y, 1, bound, dec);
    if m.Invocation? {
      assert m.streamIds[..bound] == m.streamIds;
      assert (set id <- m.streamIds | id !in m.streamIds[..bound]) == {};
    }
  }

  lemma ClosedHasClose(y: System)
    requires y.read <= |y.out.conn.log| && CloseOk(y)
    ensures y.closed ==> HasClose(y.out.conn.log)
  {
    if y.closed { assert y.out.conn.log[y.read - 1] in y.out.conn.log; }
  }

  lemma FreeCanFinish(y: System, id: Id, dec: Decoder) returns (y': System)
    requires SystemOk(y, dec) && id in y.out.streams && y.out.streams[id].phase.Running?
    requires y.out.streams[id].sent <= |y.out.streams[id].src| && Free(y, id, dec)
    ensures LeadsTo(y, y', dec) && Whole(y', id)
  {
    LeadsToSelf(y, dec);
    ClosedHasClose(y);
    y' := PumpToEnd(y, y, id, dec);
    y' := DrainToWhole(y, y', id, dec);
  }

  lemma LeadsToSelf(y: System, dec: Decoder)
    ensures LeadsTo(y, y, dec)
  {
    assert IsPath([y], [], dec) && [y][0] == y;
  }

  lemma DrainToWhole(y0: System, y: System, id: Id, dec: Decoder) returns (y': System)
    requires LeadsTo(y0, y, dec) && SystemOk(y, dec)
    requires y.failure.None? && !y.closed && !HasClose(y.out.conn.log) && Deliverable(y, dec) && id !in y.refused
    requires id in y.out.streams && y.out.streams[id].phase.Completed? && y.out.streams[id].sent == |y.out.streams[id].src|
    ensures LeadsTo(y0, y', dec) && Whole(y', id)
  {
    y' := DrainLink(y0, y, dec);
    DrainedIsWhole(y', id, dec);
  }

  lemma DrainedIsWhole(y: System, id: Id, dec: Decoder)
    requires SystemOk(y, dec) && y.read == |y.out.conn.log| && y.failure.None? && id !in y.refused
    requires id in y.out.streams && y.out.streams[id].phase.Completed? && y.out.streams[id].sent == |y.out.streams[id].src|
    ensures Whole(y, id)
  {
    DrainedShows(y, id, dec);
  }

  /* Otherwise it stays stuck: one of these holds from then on. */

  /** What keeps the stream from being completed, seen from when `log` had been written. */
  ghost predicate Stuck(y: System, id: Id, log: seq<Message>, dec: Decoder) {
    && id in y.out.streams && log <= y.out.conn.log
    && (|| (y.out.conn.aborted && !y.out.streams[id].phase.Completed?)
        || (y.failure.Some? && y.read <= |log|)
        || HasClose(log)
        || CutShort(y.out, id)
        || id in y.refused
        || Blocked(y, log, dec)
        || !Decodable(y.out.streams[id].src, dec))
  }

  /** A message that cannot be delivered lies ahead. */
  ghost predicate Blocked(y: System, log: seq<Message>, dec: Decoder) {
    exists j :: y.read <= j < |log| && Fails(log[j], y.refused, dec)
  }

  /** A cancel waits for the next item, or the stream is over without all of its items. */
  ghost predicate CutShort(g: Sending, id: Id)
    requires id in g.streams
  {
    var st := g.streams[id];
    st.sent < |st.src| && (st.phase.Running? ==> id in g.conn.cancels && st.taken < |st.src|)
  }

  lemma CutShortLasts(g: Sending, step: Streamers.Step, id: Id)
    requires Streamers.Enabled(g, step) && id in g.streams && StreamOk(g, id) && CutShort(g, id)
    ensures var g' := Streamers.Next(g, step); id in g'.streams && CutShort(g', id)
  {
  }

  lemma AbortLasts(g: Sending, step: Streamers.Step, id: Id)
    requires Streamers.Enabled(g, step) && id in g.streams && g.conn.aborted && !g.streams[id].phase.Completed?
    ensures var g' := Streamers.Next(g, step); id in g'.streams && g'.conn.aborted && !g'.streams[id].phase.Completed?
  {
  }

  lemma StuckLasts(y: System, a: Action, y': System, id: Id, log: seq<Message>, dec: Decoder)
    requires SystemOk(y, dec) && Moves(y, a, y', dec) && Stuck(y, id, log, dec)
    ensures Stuck(y', id, log, dec)
  {
    match a
    case Send(step) => SendKeepsStuck(y, step, y', id, log, dec);
    case Deliver(cap, bound) => DeliverKeepsStuck(y, cap, bound, id, log, dec);
    case _ => assert y'.out == y.out && y'.read == y.read && y'.refused == y.refused;
  }

  lemma SendKeepsStuck(y: System, step: Streamers.Step, y': System, id: Id, log: seq<Message>, dec: Decoder)
    requires SystemOk(y, dec) && Moves(y, Send(step), y', dec) && Stuck(y, id, log, dec)
    ensures Stuck(y', id, log, dec)
  {
    assert StreamOk(y.out, id);
    SenderProgress(y.out, step);
    if CutShort(y.out, id) {
      CutShortLasts(y.out, step, id);
    } else if y.out.conn.aborted && !y.out.streams[id].phase.Completed? {
      AbortLasts(y.out, step, id);
    }
  }

  lemma DeliverKeepsStuck(y: System, cap: nat, bound: nat, id: Id, log: seq<Message>, dec: Decoder)
    requires SystemOk(y, dec) && Enabled(y, Deliver(cap, bound)) && Stuck(y, id, log, dec)
    ensures Stuck(Receive(y, cap, bound, dec), id, log, dec)
  {
    var y' := Receive(y, cap, bound, dec);
    DeliveryFailure(y, cap, bound, dec);
    assert y'.out == y.out && y'.read == y.read + 1 && y.refused <= y'.refused;
    if Blocked(y, log, dec) {
      var j :| y.read <= j < |log| && Fails(log[j], y.refused, dec);
      assert Fails(log[j], y'.refused, dec) && (j == y.read ==> log[j] == y.out.conn.log[y.read]);
    }
  }

  lemma RefusedIsUnbound(y: System, id: Id)
    requires ShapeOk(y)
    ensures id in y.refused ==> id !in y.slot
  {
    assert id in y.refused ==> RefusedOk(y, id);
  }

  /** A whole stream's completion was delivered, after all of its items were sent, and they decode. */
  lemma WholeMeans(y: System, id: Id, dec: Decoder)
    requires SystemOk(y, dec) && Whole(y, id)
    ensures id !in y.refused && Completion(id, None, "") in y.out.conn.log[..y.read] && id in y.out.streams
    ensures var st := y.out.streams[id]; st.phase.Completed? && st.sent == |st.src| && Decodable(st.src, dec)
  {
    RefusedIsUnbound(y, id);
    assert ReceiverOk(y, id, dec);
    ProjectHas(y.out.conn.log[..y.read], id, None, "");
  }

  /** While stuck, the channel is not closed with the whole source in it. */
  lemma StuckIsNotWhole(y: System, id: Id, log: seq<Message>, dec: Decoder)
    requires SystemOk(y, dec) && Stuck(y, id, log, dec) && Completion(id, None, "") !in log
    ensures !Whole(y, id)
  {
    if Whole(y, id) {
      WholeMeans(y, id, dec);
      if HasClose(log) { CloseStops(y, log); }
      NotDelivered(y.out.conn.log, log, y.read, Completion(id, None, ""));
    }
  }

  lemma NotDelivered(all: seq<Message>, log: seq<Message>, read: nat, m: Message)
    requires log <= all && m !in log && read <= |all|
    ensures read <= |log| ==> m !in all[..read]
  {
    if read <= |log| { assert all[..read] == log[..read]; }
  }

  /** No more than the first close message is delivered. */
  lemma CloseStops(y: System, log: seq<Message>)
    requires y.read <= |y.out.conn.log| && CloseOk(y) && HasClose(log) && log <= y.out.conn.log
    ensures y.read <= |log|
  {
    var j :| 0 <= j < |log| && log[j].Close?;
    var all := y.out.conn.log;
    forall k | j < k <= |all| ensures HasClose(all[..k]) { assert all[..k][j] in all[..k]; }
  }

  lemma StuckOnPath(ys: seq<System>, acts: seq<Action>, n: nat, id: Id, log: seq<Message>, dec: Decoder)
    requires IsPath(ys, acts, dec) && n <= |acts| && SystemOk(ys[0], dec) && Stuck(ys[0], id, log, dec)
    ensures SystemOk(ys[n], dec) && Stuck(ys[n], id, log, dec)
  {
    var p := y => SystemOk(y, dec) && Stuck(y, id, log, dec);
    forall y, a, y' | p(y) && Moves(y, a, y', dec) ensures p(y') {
      StepKeepsOk(y, a, y', dec);
      StuckLasts(y, a, y', id, log, dec);
    }
    PathKeeps(ys, acts, n, p, dec);
  }

  lemma NotFreeIsStuck(y: System, id: Id, dec: Decoder)
    requires SystemOk(y, dec) && id in y.out.streams && y.out.streams[id].phase.Running?
    requires y.out.streams[id].sent <= |y.out.streams[id].src| && !Free(y, id, dec)
    ensures Stuck(y, id, y.out.conn.log, dec) && Completion(id, None, "") !in y.out.conn.log
  {
    assert StreamOk(y.out, id);
    NotCompleted(y.out, id);
    UndeliverableBlocks(y, dec);
    UndecodableRest(y.out.streams[id].src, y.out.streams[id].sent, dec);
  }

  lemma NotCompleted(g: Sending, id: Id)
    requires id in g.streams && StreamOk(g, id) && g.streams[id].phase.Running?
    ensures Completion(id, None, "") !in g.conn.log
  {
    var st := g.streams[id];
    TraceShape(st.pushed, st.src[..st.sent], false);
    ProjectHas(g.conn.log, id, None, "");
  }

  lemma UndeliverableBlocks(y: System, dec: Decoder)
    ensures !Deliverable(y, dec) ==> Blocked(y, y.out.conn.log, dec)
  {
  }

  lemma UndecodableRest(src: seq<Raw>, sent: nat, dec: Decoder)
    requires sent <= |src|
    ensures Decodable(src, dec) ==> Decodable(src[sent..], dec)
  {
  }

  lemma NotFreeCannotFinish(y: System, y': System, id: Id, dec: Decoder)
    requires SystemOk(y, dec) && LeadsTo(y, y', dec) && id in y.out.streams && y.out.streams[id].phase.Running?
    requires y.out.streams[id].sent <= |y.out.streams[id].src| && !Free(y, id, dec)
    ensures !Whole(y', id)
  {
    var ys: seq<System>, acts: seq<Action> :| IsPath(ys, acts, dec) && ys[0] == y && ys[|acts|] == y';
    NotFreeIsStuck(y, id, dec);
    StuckOnPath(ys, acts, |acts|, id, y.out.conn.log, dec);
    StuckIsNotWhole(y', id, y.out.conn.log, dec);
  }

  /** From a reachable state, a running stream can still be finished, its channel closed with the
      whole source in it, if and only if connection and receiving loop live, no close message was
      written, no cancel waits for its next item, it was not refused, and everything under way and
      all of its items to come can be delivered: they decode, and are not about a refused stream. */
  lemma StreamCanFinishIff(y: System, id: Id, dec: Decoder)
    requires Reachable(y, dec) && id in y.out.streams && y.out.streams[id].phase.Running?
    ensures y.out.streams[id].sent <= |y.out.streams[id].src|
    ensures (exists y' :: LeadsTo(y, y', dec) && Whole(y', id)) <==> Free(y, id, dec)
  {
    var maxCancels :| LeadsTo(Quiet(maxCancels), y, dec);
    QuietOk(maxCancels, dec);
    LeadsToOk(Quiet(maxCancels), y, dec);
    assert StreamOk(y.out, id);
    if Free(y, id, dec) {
      var y' := FreeCanFinish(y, id, dec);
    } else {
      forall y' | LeadsTo(y, y', dec) ensures !Whole(y', id) { NotFreeCannotFinish(y, y', id, dec); }
    }
  }

  /** A run that fails with an unknown id: an upload to a method that is missing is announced and
      refused, and its first item ends the receiving loop. */
  lemma RefusedUploadFails(id: Id, v: Raw, maxCancels: nat, dec: Decoder) returns (y: System)
    ensures Reachable(y, dec) && y.refused == {id} && y.failure == Some(UnknownStreamId)
    ensures |y.out.conn.log| == 2 && y.out.conn.log[1] == StreamItem(id, v)
  {
    var y0, m := Quiet(maxCancels), Invocation(Simple, "", "", [], [id]);
    LeadsToSelf(y0, dec);
    var st := Stream([v], true, 0, 0, Running, false);
    var y1 := y0.(out := Sending(y0.out.conn.(log := [m]), map[id := st], {}));
    PushMove(maxCancels, y1, id, v, dec);
    OneMove(y0, y0, Send(Streamers.Push([id], map[id := [v]], true)), y1, dec);
    var y2 := y1.(read := 1, refused := {id});
    RefusalMove(y1, y2, id, dec);
    OneMove(y0, y1, Deliver(0, 0), y2, dec);
    var y3 := y2.(out := Sending(y0.out.conn.(log := [m, StreamItem(id, v)]), map[id := st.(taken := 1, sent := 1)], {}));
    TurnMove(y2, y3, id, v, m, dec);
    OneMove(y0, y2, Send(Streamers.Turn(id, true)), y3, dec);
    y := y3.(read := 2, failure := Some(UnknownStreamId));
    OneMove(y0, y3, Deliver(0, 0), y, dec);
  }

  lemma PushMove(maxCancels: nat, y': System, id: Id, v: Raw, dec: Decoder)
    requires var y := Quiet(maxCancels);
             y' == y.(out := Sending(y.out.conn.(log := [Invocation(Simple, "", "", [], [id])]),
                                     map[id := Stream([v], true, 0, 0, Running, false)], {}))
    ensures Moves(Quiet(maxCancels), Send(Streamers.Push([id], map[id := [v]], true)), y', dec)
  {
  }

  lemma TurnMove(y: System, y': System, id: Id, v: Raw, m: Message, dec: Decoder)
    requires y.out == Sending(y.out.conn, map[id := Stream([v], true, 0, 0, Running, false)], {})
    requires !y.out.conn.aborted && y.out.conn.cancels == {} && y.out.conn.log == [m]
    requires y' == y.(out := Sending(y.out.conn.(log := [m, StreamItem(id, v)]), map[id := Stream([v], true, 1, 1, Running, false)], {}))
    ensures Moves(y, Send(Streamers.Turn(id, true)), y', dec)
  {
    assert [m] + [StreamItem(id, v)] == [m, StreamItem(id, v)];
  }

  lemma RefusalMove(y: System, y': System, id: Id, dec: Decoder)
    requires y.read == 0 && y.out.conn.log == [Invocation(Simple, "", "", [], [id])] && y.failure.None? && !y.closed
    requires y.reg == Registry(NoCalls, NoStreams) && y.slot == map[] && y.refused == {} && y' == y.(read := 1, refused := {id})
    ensures Moves(y, Deliver(0, 0), y', dec)
  {
    var m := y.out.conn.log[0];
    assert m.streamIds[..0] == [];
    assert (set i <- m.streamIds | i !in m.streamIds[..0]) == {id};
    assert Slots(m.streamIds[..0], y.reg.streams.up) == map[];
  }
}
