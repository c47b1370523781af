/** The sending side of streams (streamer.go) over a hub connection (hubconnection.go). */
module Streamers {
  import opened Wrappers
  import opened Messages

  /** The cancel table of a streamer and its connection; `log` holds every message written so far. */
  datatype Sender = Sender(cancels: set<Id>, cancelCount: nat, maxCancels: nat, aborted: bool, log: seq<Message>) {
    /** writeMessage: nothing is written once the context is cancelled, and a failed write cancels it. */
    function Write(m: Message, ok: bool): Sender {
      if aborted then this else if ok then this.(log := log + [m]) else this.(aborted := true)
    }

    /** streamer.Stop */
    function Stop(id: Id): Sender {
      if 0 < maxCancels <= cancelCount || id in cancels then this
      else this.(cancels := cancels + {id}, cancelCount := cancelCount + 1)
    }

    /** One turn of the loop in streamer.Start; `item` is what the channel yields, None when it is
        closed.  The flag says that the loop ends. */
    function Turn(id: Id, item: Option<Raw>, ok: bool): (Sender, bool) {
      match item
      case Some(v) =>
        if id in cancels then (this.(cancels := cancels - {id}).Write(Completion(id, None, ""), ok), true)
        else if aborted then (this, true)
        else (Write(StreamItem(id, v), ok), false)
      case None => (Write(Completion(id, None, ""), ok), true)
    }
  }

  /* ---- what the log says about one stream ---- */

  datatype Event = Opened | Item(item: Raw) | Finished(result: Option<Raw>, error: string)

  function View(m: Message, id: Id): seq<Event> {
    match m
    case StreamItem(i, v) => if i == id then [Item(v)] else []
    case Completion(i, r, e) => if i == id then [Finished(r, e)] else []
    case Invocation(_, _, _, _, ids) => if id in ids then [Opened] else []
    case _ => []
  }

  function Project(ms: seq<Message>, id: Id): seq<Event> {
    if ms == [] then [] else Project(ms[..|ms| - 1], id) + View(ms[|ms| - 1], id)
  }

  lemma ProjectAppend(ms: seq<Message>, m: Message, id: Id)
    ensures Project(ms + [m], id) == Project(ms, id) + View(m, id)
  {
    assert (ms + [m])[..|ms|] == ms;
  }

  /** A message about something else leaves the view as it is. */
  lemma ProjectSkip(ms: seq<Message>, m: Message, id: Id)
    requires View(m, id) == []
    ensures Project(ms + [m], id) == Project(ms, id)
  {
    ProjectAppend(ms, m, id);
  }

  /** A completion is in the log exactly when its event is in the view of its id. */
  lemma {:induction false} ProjectHas(ms: seq<Message>, id: Id, result: Option<Raw>, error: string)
    ensures Finished(result, error) in Project(ms, id) <==> Completion(id, result, error) in ms
    decreases |ms|
  {
    if ms != [] {
      var init, m := ms[..|ms| - 1], ms[|ms| - 1];
      ProjectHas(init, id, result, error);
      assert ms == init + [m];
      assert Finished(result, error) in View(m, id) <==> m == Completion(id, result, error);
    }
  }

  lemma {:induction false} ProjectPrefix(ms: seq<Message>, k: nat, id: Id)
    requires k <= |ms|
    ensures Project(ms[..k], id) <= Project(ms, id)
  {
    if k < |ms| {
      var init := ms[..|ms| - 1];
      ProjectPrefix(init, k, id);
      assert init[..k] == ms[..k];
    } else {
      assert ms[..k] == ms;
    }
  }

  function Items(vs: seq<Raw>): seq<Event> { seq(|vs|, i requires 0 <= i < |vs| => Item(vs[i])) }

  lemma ItemsGrow(vs: seq<Raw>, k: nat)
    requires k < |vs|
    ensures Items(vs[..k + 1]) == Items(vs[..k]) + [Item(vs[k])]
  {
  }

  /* ---- every interleaving of streams, cancels and aborts on one connection ---- */

  datatype Phase = Running | Completed | Abandoned

  /** A stream that was started: `taken` items were received from its channel, `sent` written. */
  datatype Stream = Stream(src: seq<Raw>, pushed: bool, taken: nat, sent: nat, phase: Phase, cancelled: bool)

  /** `answered` are the ids of the ordinary calls whose completion was written here. */
  datatype Sending = Sending(conn: Sender, streams: map<Id, Stream>, answered: set<Id>)

  datatype Step =
    | Begin(id: Id, src: seq<Raw>)                                  // streamer.Start for a stream invocation
    | Push(ids: seq<Id>, srcs: map<Id, seq<Raw>>, ok: bool)         // PushStreams
    | Turn(id: Id, ok: bool)
    | Stop(id: Id)
    | Abort
    | Answer(id: Id, result: Option<Raw>, error: string, ok: bool)  // the completion of an ordinary call
    | Chatter(m: Message, ok: bool)                                 // a write about no call and no stream

  predicate Distinct(ids: seq<Id>) { forall i, j | 0 <= i < j < |ids| :: ids[i] != ids[j] }

  predicate Silent(m: Message) {
    m.Ping? || m.CancelInvocation? || m.Close? || (m.Invocation? && m.streamIds == [])
  }

  /** Ids of streams are fresh, and a call is answered once. */
  predicate Enabled(g: Sending, step: Step) {
    match step
    case Begin(id, _) => id !in g.streams && id !in g.answered
    case Push(ids, srcs, _) =>
      && Distinct(ids) && (forall id <- ids :: id in srcs && id !in g.streams && id !in g.answered)
      && (forall id <- srcs :: id in ids)
    case Turn(id, _) => id in g.streams && g.streams[id].phase.Running?
    case Answer(id, _, _, _) => id !in g.streams && id !in g.answered
    case Chatter(m, _) => Silent(m)
    case _ => true
  }

  function TurnOf(g: Sending, id: Id, ok: bool): Sending
    requires id in g.streams
  {
    var st := g.streams[id];
    var item := if st.taken < |st.src| then Some(st.src[st.taken]) else None;
    var (conn, ended) := g.conn.Turn(id, item, ok);
    var wrote := |conn.log| > |g.conn.log|;
    var hit := item.Some? && id in g.conn.cancels;
    Sending(conn, g.streams[id := Stream(
      st.src, st.pushed,
      if item.Some? then st.taken + 1 else st.taken,
      if wrote && !ended then st.sent + 1 else st.sent,
      if !ended then Running else if wrote then Completed else Abandoned,
      st.cancelled || hit)], g.answered)
  }

  function Next(g: Sending, step: Step): Sending
    requires Enabled(g, step)
  {
    match step
    case Begin(id, src) => g.(streams := g.streams[id := Stream(src, false, 0, 0, Running, false)])
    case Push(ids, srcs, ok) =>
      var conn := g.conn.Write(Invocation(Simple, "", "", [], ids), ok);
      if conn.aborted then g.(conn := conn)
      else Sending(conn, g.streams + map id <- srcs :: Stream(srcs[id], true, 0, 0, Running, false), g.answered)
    case Turn(id, ok) => TurnOf(g, id, ok)
    case Stop(id) => g.(conn := g.conn.Stop(id))
    case Abort => g.(conn := g.conn.(aborted := true))
    case Answer(id, result, error, ok) =>
      g.(conn := g.conn.Write(Completion(id, result, error), ok), answered := g.answered + {id})
    case Chatter(m, ok) => g.(conn := g.conn.Write(m, ok))
  }

  function TraceOf(announced: bool, items: seq<Raw>, finished: bool): seq<Event> {
    (if announced then [Opened] else []) + Items(items) + (if finished then [Finished(None, "")] else [])
  }

  /** The trace a stream leaves in the log. */
  function Trace(st: Stream): seq<Event>
    requires st.sent <= |st.src|
  {
    TraceOf(st.pushed, st.src[..st.sent], st.phase.Completed?)
  }

  lemma TraceShape(announced: bool, items: seq<Raw>, finished: bool)
    ensures var t, o := TraceOf(announced, items, finished), if announced then 1 else 0;
            && |t| == o + |items| + (if finished then 1 else 0)
            && (forall i | 0 <= i < |items| :: t[o + i] == Item(items[i]))
            && (announced ==> t[0] == Opened)
            && (finished ==> t[o + |items|] == Finished(None, ""))
            && (Finished(None, "") in t <==> finished)
  {
  }

  lemma TraceStart(announced: bool)
    ensures TraceOf(announced, [], false) == if announced then [Opened] else []
  {
  }

  lemma TraceItem(announced: bool, src: seq<Raw>, k: nat)
    requires k < |src|
    ensures TraceOf(announced, src[..k + 1], false) == TraceOf(announced, src[..k], false) + [Item(src[k])]
  {
    ItemsGrow(src, k);
  }

  lemma TraceEnd(announced: bool, items: seq<Raw>)
    ensures TraceOf(announced, items, true) == TraceOf(announced, items, false) + [Finished(None, "")]
  {
  }

  /** What can come next after part of a trace. */
  lemma TraceNext(announced: bool, src: seq<Raw>, k: nat, finished: bool, ev: Event, n: nat, finished': bool)
    requires k <= |src| && n <= |src|
    requires TraceOf(announced, src[..k], finished) + [ev] <= TraceOf(announced, src[..n], finished')
    ensures !finished && k <= n && (k == n ==> finished')
    ensures ev == if k < n then Item(src[k]) else Finished(None, "")
  {
    var part, full := TraceOf(announced, src[..k], finished), TraceOf(announced, src[..n], finished');
    var o := if announced then 1 else 0;
    TraceShape(announced, src[..k], finished);
    TraceShape(announced, src[..n], finished');
    assert forall i | 0 <= i < |part + [ev]| :: (part + [ev])[i] == full[i];
    assert full[o + k] == (part + [ev])[o + k] == if finished then Finished(None, "") else ev;
    assert k < n ==> full[o + k] == Item(src[k]);
  }

  ghost predicate StreamOk(g: Sending, id: Id)
    requires id in g.streams
  {
    CountsOk(g.streams[id], g.conn.aborted) && Project(g.conn.log, id) == Trace(g.streams[id])
  }

  ghost predicate CountsOk(st: Stream, aborted: bool) {
    && st.sent <= st.taken <= |st.src|
    && (st.phase.Running? && !aborted ==> st.sent == st.taken)
    && (st.phase.Completed? && !st.cancelled ==> st.sent == |st.src|)
    && (st.phase.Running? ==> !st.cancelled) && (st.cancelled ==> st.sent < |st.src|)
  }

  ghost predicate SendingOk(g: Sending) {
    && (forall id <- g.streams :: StreamOk(g, id))
    && (forall id | id !in g.streams && id !in g.answered :: Project(g.conn.log, id) == [])
    && (forall id <- g.answered :: id !in g.streams && AnsweredOnce(Project(g.conn.log, id)))
  }

  predicate AnsweredOnce(es: seq<Event>) { |es| <= 1 && forall e <- es :: e.Finished? }

  /** What a turn writes, if anything, and how far the stream is then. */
  ghost predicate Wrote(st: Stream, st': Stream, log: seq<Message>, log': seq<Message>, id: Id, m: Option<Message>) {
    && st'.src == st.src && st'.pushed == st.pushed
    && match m
       case None => log' == log && st'.sent == st.sent && !st'.phase.Completed?
       case Some(v) =>
         && log' == log + [v]
         && if v.StreamItem? then
              st.sent < |st.src| && v == StreamItem(id, st.src[st.sent]) && st'.sent == st.sent + 1 && !st'.phase.Completed?
            else v == Completion(id, None, "") && st'.sent == st.sent && st'.phase.Completed?
  }

  lemma TurnWrites(g: Sending, id: Id, ok: bool) returns (m: Option<Message>)
    requires id in g.streams && g.streams[id].phase.Running? && CountsOk(g.streams[id], g.conn.aborted)
    ensures var g' := TurnOf(g, id, ok);
            && id in g'.streams && CountsOk(g'.streams[id], g'.conn.aborted)
            && Wrote(g.streams[id], g'.streams[id], g.conn.log, g'.conn.log, id, m)
            && g'.streams == g.streams[id := g'.streams[id]] && g'.answered == g.answered
            && (g'.conn.aborted || !g.conn.aborted)
  {
    var st, log, log' := g.streams[id], g.conn.log, TurnOf(g, id, ok).conn.log;
    if g.conn.aborted || !ok {
      m := None;
    } else if st.taken < |st.src| && id !in g.conn.cancels {
      m := Some(StreamItem(id, st.src[st.taken]));
    } else {
      m := Some(Completion(id, None, ""));
    }
  }

  lemma WroteKeepsTrace(st: Stream, st': Stream, log: seq<Message>, log': seq<Message>, id: Id, m: Option<Message>)
    requires st.sent <= |st.src| && st.phase.Running? && Wrote(st, st', log, log', id, m) && Project(log, id) == Trace(st)
    ensures Project(log', id) == Trace(st')
  {
    if m.Some? {
      ProjectAppend(log, m.value, id);
      if m.value.StreamItem? { TraceItem(st.pushed, st.src, st.sent); } else { TraceEnd(st.pushed, st.src[..st.sent]); }
    }
  }

  lemma WroteSkips(st: Stream, st': Stream, log: seq<Message>, log': seq<Message>, id: Id, m: Option<Message>, other: Id)
    requires Wrote(st, st', log, log', id, m) && other != id
    ensures Project(log', other) == Project(log, other)
  {
    if m.Some? { ProjectSkip(log, m.value, other); }
  }

  /** A stream that is not touched, and about which nothing is written, stays as it is. */
  lemma StreamKept(g: Sending, g': Sending, id: Id)
    requires id in g.streams && StreamOk(g, id) && id in g'.streams && g'.streams[id] == g.streams[id]
    requires Project(g'.conn.log, id) == Project(g.conn.log, id) && (g'.conn.aborted || !g.conn.aborted)
    ensures StreamOk(g', id)
  {
  }

  lemma TurnKeepsOk(g: Sending, id: Id, ok: bool)
    requires SendingOk(g) && Enabled(g, Turn(id, ok))
    ensures SendingOk(TurnOf(g, id, ok))
  {
    var g', st := TurnOf(g, id, ok), g.streams[id];
    assert StreamOk(g, id);
    var m := TurnWrites(g, id, ok);
    WroteKeepsTrace(st, g'.streams[id], g.conn.log, g'.conn.log, id, m);
    forall other | other != id ensures Project(g'.conn.log, other) == Project(g.conn.log, other) {
      WroteSkips(st, g'.streams[id], g.conn.log, g'.conn.log, id, m, other);
    }
    forall other <- g'.streams ensures StreamOk(g', other) {
      if other != id { StreamKept(g, g', other); }
    }
  }

  /** Nothing but the connection changes, and nothing is written about streams and answered calls. */
  lemma SilenceKeepsOk(g: Sending, conn: Sender)
    requires SendingOk(g) && (conn.aborted || !g.conn.aborted)
    requires forall id :: Project(conn.log, id) == Project(g.conn.log, id)
    ensures SendingOk(g.(conn := conn))
  {
    var g' := g.(conn := conn);
    forall id <- g'.streams ensures StreamOk(g', id) { StreamKept(g, g', id); }
  }

  lemma WriteKeepsOk(g: Sending, m: Message, ok: bool)
    requires SendingOk(g) && Silent(m)
    ensures SendingOk(g.(conn := g.conn.Write(m, ok)))
  {
    var conn := g.conn.Write(m, ok);
    forall id ensures Project(conn.log, id) == Project(g.conn.log, id) { ProjectSkip(g.conn.log, m, id); }
    SilenceKeepsOk(g, conn);
  }

  lemma AnswerKeepsOk(g: Sending, id: Id, result: Option<Raw>, error: string, ok: bool)
    requires SendingOk(g) && Enabled(g, Answer(id, result, error, ok))
    ensures SendingOk(Next(g, Answer(id, result, error, ok)))
  {
    var g', m := Next(g, Answer(id, result, error, ok)), Completion(id, result, error);
    forall other | other != id ensures Project(g'.conn.log, other) == Project(g.conn.log, other) {
      ProjectSkip(g.conn.log, m, other);
    }
    forall other <- g'.streams ensures StreamOk(g', other) { StreamKept(g, g', other); }
    AnswerSeen(g.conn.log, g'.conn.log, id, m);
  }

  lemma AnswerSeen(log: seq<Message>, log': seq<Message>, id: Id, m: Message)
    requires m.Completion? && m.id == id && Project(log, id) == [] && (log' == log || log' == log + [m])
    ensures AnsweredOnce(Project(log', id))
  {
    ProjectAppend(log, m, id);
    assert [] + View(m, id) == [Finished(m.result, m.error)];
  }

  lemma PushKeepsOk(g: Sending, ids: seq<Id>, srcs: map<Id, seq<Raw>>, ok: bool)
    requires SendingOk(g) && Enabled(g, Push(ids, srcs, ok))
    ensures SendingOk(Next(g, Push(ids, srcs, ok)))
  {
    var g', m := Next(g, Push(ids, srcs, ok)), Invocation(Simple, "", "", [], ids);
    var conn := g.conn.Write(m, ok);
    if conn.aborted {
      SilenceKeepsOk(g, conn);
    } else {
      forall id | id !in ids ensures Project(g'.conn.log, id) == Project(g.conn.log, id) { ProjectSkip(g.conn.log, m, id); }
      forall id <- g'.streams ensures StreamOk(g', id) {
        if id in ids { PushedSeen(g.conn.log, m, id, g'.streams[id]); } else { StreamKept(g, g', id); }
      }
    }
  }

  lemma PushedSeen(log: seq<Message>, m: Message, id: Id, st: Stream)
    requires m.Invocation? && id in m.streamIds && Project(log, id) == [] && st == Stream(st.src, true, 0, 0, Running, false)
    ensures Project(log + [m], id) == Trace(st)
  {
    ProjectAppend(log, m, id);
    assert st.src[..0] == [];
    TraceStart(true);
  }

  lemma BeginKeepsOk(g: Sending, id: Id, src: seq<Raw>)
    requires SendingOk(g) && Enabled(g, Begin(id, src))
    ensures SendingOk(Next(g, Begin(id, src)))
  {
    var g' := Next(g, Begin(id, src));
    assert src[..0] == [];
    TraceStart(false);
    forall other <- g'.streams ensures StreamOk(g', other) {
      if other != id { StreamKept(g, g', other); }
    }
  }

  lemma NextKeepsOk(g: Sending, step: Step)
    requires SendingOk(g) && Enabled(g, step)
    ensures SendingOk(Next(g, step))
  {
    match step
    case Begin(id, src) => BeginKeepsOk(g, id, src);
    case Push(ids, srcs, ok) => PushKeepsOk(g, ids, srcs, ok);
    case Turn(id, ok) => TurnKeepsOk(g, id, ok);
    case Stop(id) => SilenceKeepsOk(g, g.conn.Stop(id));
    case Abort => SilenceKeepsOk(g, g.conn.(aborted := true));
    case Answer(id, result, error, ok) => AnswerKeepsOk(g, id, result, error, ok);
    case Chatter(m, ok) => WriteKeepsOk(g, m, ok);
  }

  function Idle(maxCancels: nat): Sending { Sending(Sender({}, 0, maxCancels, false, []), map[], {}) }

  ghost predicate MovesAt(gs: seq<Sending>, steps: seq<Step>, k: nat)
    requires |gs| == |steps| + 1 && k < |steps|
  {
    Enabled(gs[k], steps[k]) && gs[k + 1] == Next(gs[k], steps[k])
  }

  ghost predicate IsRun(gs: seq<Sending>, steps: seq<Step>) {
    && |gs| == |steps| + 1 && gs[0] == Idle(gs[0].conn.maxCancels)
    && forall k | 0 <= k < |steps| :: MovesAt(gs, steps, k)
  }

  /** Step `k` is a turn that finds and removes a cancel. */
  predicate Consumes(g: Sending, step: Step) {
    && step.Turn? && step.id in g.streams && step.id in g.conn.cancels
    && g.streams[step.id].taken < |g.streams[step.id].src|
  }

  function Consumed(gs: seq<Sending>, steps: seq<Step>, n: nat): nat
    requires |gs| == |steps| + 1 && n <= |steps|
  {
    if n == 0 then 0
    else Consumed(gs, steps, n - 1) + if Consumes(gs[n - 1], steps[n - 1]) then 1 else 0
  }

  /** cancelCount is meant to track the entries in the cancel table, but Start removes entries
      without counting them off: the two differ by exactly the cancels that took effect. */
  lemma {:induction false} CancelCountDrifts(gs: seq<Sending>, steps: seq<Step>, n: nat)
    requires IsRun(gs, steps) && n <= |steps|
    ensures gs[n].conn.cancelCount == |gs[n].conn.cancels| + Consumed(gs, steps, n)
    ensures gs[n].conn.maxCancels == gs[0].conn.maxCancels
    ensures var max := gs[n].conn.maxCancels; 0 < max ==> gs[n].conn.cancelCount <= max
  {
    if n > 0 {
      CancelCountDrifts(gs, steps, n - 1);
      assert MovesAt(gs, steps, n - 1);
      var c, c', step := gs[n - 1].conn, gs[n].conn, steps[n - 1];
      if Consumes(gs[n - 1], step) {
        assert c'.cancels == c.cancels - {step.id};
      } else if step.Stop? && step.id !in c.cancels && !(0 < c.maxCancels <= c.cancelCount) {
        assert c'.cancels == c.cancels + {step.id};
      } else {
        assert c'.cancels == c.cancels;
      }
    }
  }

  /** So with a limit, once pending cancels and those that took effect together reach it, every
      later cancel is ignored for good; cancels for streams that are over or never were count too,
      since nothing removes them. */
  lemma {:induction false} SpentCancelsDisableStop(gs: seq<Sending>, steps: seq<Step>, n: nat, m: nat)
    requires IsRun(gs, steps) && n <= m <= |steps|
    requires 0 < gs[0].conn.maxCancels == |gs[n].conn.cancels| + Consumed(gs, steps, n)
    ensures gs[m].conn.cancels <= gs[n].conn.cancels && gs[m].conn.cancelCount == gs[0].conn.maxCancels
    ensures |gs[m].conn.cancels| + Consumed(gs, steps, m) == gs[0].conn.maxCancels
  {
    CancelCountDrifts(gs, steps, m);
    CancelCountDrifts(gs, steps, n);
    if n < m {
      SpentCancelsDisableStop(gs, steps, n, m - 1);
      assert MovesAt(gs, steps, m - 1);
      SpentStays(gs[m - 1], steps[m - 1]);
    }
  }

  lemma SpentStays(g: Sending, step: Step)
    requires Enabled(g, step) && 0 < g.conn.maxCancels == g.conn.cancelCount
    ensures var g' := Next(g, step); g'.conn.cancels <= g.conn.cancels && g'.conn.cancelCount == g.conn.cancelCount
  {
  }

  lemma {:induction false} RunKeepsOk(gs: seq<Sending>, steps: seq<Step>, n: nat)
    requires IsRun(gs, steps) && n <= |steps|
    ensures SendingOk(gs[n])
  {
    if n > 0 {
      RunKeepsOk(gs, steps, n - 1);
      assert MovesAt(gs, steps, n - 1);
      NextKeepsOk(gs[n - 1], steps[n - 1]);
    }
  }

  /** What the wire carries for a stream, whatever is interleaved: its items in order from the
      first one, at most one empty completion, and nothing behind that.  Without a cancel the
      completion comes after all items. */
  lemma StreamOnTheWire(gs: seq<Sending>, steps: seq<Step>, n: nat, id: Id)
    requires IsRun(gs, steps) && n <= |steps| && id in gs[n].streams
    ensures var st, seen := gs[n].streams[id], Project(gs[n].conn.log, id);
            && st.sent <= |st.src|
            && seen == TraceOf(st.pushed, st.src[..st.sent], st.phase.Completed?)
            && (st.phase.Completed? && !st.cancelled ==> st.sent == |st.src|)
  {
    RunKeepsOk(gs, steps, n);
    assert StreamOk(gs[n], id);
  }

  /** A stream is cut short by a cancel only if one was received for its id. */
  lemma {:induction false} NoStopNoCancel(gs: seq<Sending>, steps: seq<Step>, n: nat, id: Id)
    requires IsRun(gs, steps) && n <= |steps|
    requires forall k | 0 <= k < n :: !(steps[k].Stop? && steps[k].id == id)
    ensures id !in gs[n].conn.cancels && (id in gs[n].streams ==> !gs[n].streams[id].cancelled)
  {
    if n > 0 {
      NoStopNoCancel(gs, steps, n - 1, id);
      assert MovesAt(gs, steps, n - 1);
    }
  }

  /** defaultHubConnection as far as writing goes. */
  class HubConnection {
    var canceled: bool
    var log: seq<Message>
    var lastWriteStamp: Option<int>      // None is the zero time

    constructor ()
      ensures !canceled && log == [] && lastWriteStamp == None
    {
      canceled, log, lastWriteStamp := false, [], None;
    }

    method Abort()
      modifies this
      ensures canceled && log == old(log) && lastWriteStamp == old(lastWriteStamp)
    {
      canceled := true;
    }

    /** `ok` is the outcome of the protocol's write; the stamp is taken even if nothing is written. */
    method WriteMessage(m: Message, now: int, ok: bool) returns (success: bool)
      modifies this
      ensures lastWriteStamp == Some(now)
      ensures success <==> !old(canceled) && ok
      ensures log == if success then old(log) + [m] else old(log)
      ensures canceled <==> !success
    {
      lastWriteStamp := Some(now);
      if canceled {
        return false;
      }
      success := ok;
      if ok {
        log := log + [m];
      } else {
        Abort();
      }
    }
  }

  class Streamer {
    var cancels: set<Id>
    var cancelCount: nat
    const maxCancels: nat
    const conn: HubConnection

    function State(): Sender reads this, conn { Sender(cancels, cancelCount, maxCancels, conn.canceled, conn.log) }

    constructor (conn: HubConnection, maxCancels: nat)
      ensures this.conn == conn && this.maxCancels == maxCancels && cancels == {} && cancelCount == 0
    {
      this.conn, this.maxCancels := conn, maxCancels;
      cancels, cancelCount := {}, 0;
    }

    /** One turn of the goroutine that Start runs. */
    method Turn(id: Id, item: Option<Raw>, now: int, ok: bool) returns (ended: bool)
      modifies this, conn
      ensures (State(), ended) == old(State()).Turn(id, item, ok)
    {
      if item.Some? {
        if id in cancels {
          cancels := cancels - {id};
          var _ := conn.WriteMessage(Completion(id, None, ""), now, ok);
          return true;
        }
        if conn.canceled {
          return true;
        }
        var _ := conn.WriteMessage(StreamItem(id, item.value), now, ok);
        return false;
      }
      if !conn.canceled {
        var _ := conn.WriteMessage(Completion(id, None, ""), now, ok);
      }
      return true;
    }

    method Stop(id: Id)
      modifies this
      ensures State() == old(State()).Stop(id)
    {
      if maxCancels > 0 && cancelCount >= maxCancels {
        return;
      }
      if id !in cancels {
        cancels := cancels + {id};
        cancelCount := cancelCount + 1;
      }
    }
  }
}
