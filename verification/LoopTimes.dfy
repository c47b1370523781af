/** When and why the message loop ends, and that its tickers are those of a keep-alive line
    (loop.go, Run). */
module LoopTimes {
  import opened Wrappers
  import opened Messages
  import opened InvokeClients
  import opened StreamClients
  import opened Arguments
  import opened MessageLoops
  import KeepAlive

  /* ---- the end of the loop ---- */

  /** Events after which the loop never goes on. */
  predicate Final(e: Event) {
    e.TimeoutTick? || e.ConnectionCanceled? || e.PartyCanceled? || e.ReceiveFailed? || (e.Received? && e.m.Close?)
  }

  /** When the last message came, or the loop started. */
  function LastReceive(events: seq<Event>, start: int): int {
    if events == [] then start
    else if events[|events| - 1].Received? then events[|events| - 1].now
    else LastReceive(events[..|events| - 1], start)
  }

  /** The reason that goes with the kind of event that ended the loop. */
  predicate Explains(e: Event, reason: Option<Reason>) {
    match e
    case TimeoutTick => reason == Some(TimedOut)
    case ConnectionCanceled => reason == Some(ConnectionGone)
    case PartyCanceled => reason == Some(PartyGone)
    case ReceiveFailed(_) => reason == Some(ReadFailed)
    case KeepAliveTick(_, _) => reason == Some(PingFailed)
    case Received(m, _, _, _, _) => ExplainsMessage(m, reason)
    case _ => false
  }

  predicate ExplainsMessage(m: Message, reason: Option<Reason>) {
    match m
    case Close(error, _) => reason == if error != "" then Some(ClosedWithError(error)) else None
    case Invocation(_, _, _, _, _) => reason == Some(Crashed)
    case StreamItem(_, _) => reason.Some? && reason.value.HandlerFailed?
    case Completion(_, _, _) => reason.Some? && reason.value.HandlerFailed?
    case _ => false
  }

  lemma EventEnds(s: LoopState, e: Event, c: Config, dec: Decoder)
    requires !s.closed
    ensures var (s', r) := OnEvent(s, e, c, dec);
            && (r.Some? || s'.closed ==> Explains(e, r)) && (Final(e) ==> r.Some? || s'.closed)
            && (!(r.Some? || s'.closed) ==> s'.deadline == if e.Received? then e.now + c.timeout else s.deadline)
  {
  }

  /** A loop that goes on has met no timeout, cancel, failed receive or close, and its deadline is one
      timeout after the last message or its start.  A loop that has ended did so at the last event it
      used, for the reason that goes with this event, and was running before. */
  lemma {:induction false} LoopEndsFor(events: seq<Event>, maxCancels: nat, start: int, c: Config, dec: Decoder)
    ensures var p := RunEvents(NewLoop(maxCancels, c, start), events, c, dec);
            if p.ended then
              && 0 < p.used <= |events| && Explains(events[p.used - 1], p.reason)
              && !RunEvents(NewLoop(maxCancels, c, start), events[..p.used - 1], c, dec).ended
            else GoesOn(p, events, start, c)
    decreases |events|
  {
    if events != [] {
      var b, init, e := NewLoop(maxCancels, c, start), events[..|events| - 1], events[|events| - 1];
      LoopEndsFor(init, maxCancels, start, c, dec);
      var p := RunEvents(b, init, c, dec);
      if p.ended {
        assert init[..p.used - 1] == events[..p.used - 1];
      } else {
        EventEnds(p.state, e, c, dec);
        OneMoreEvent(p, init, e, events, start, c, RunEvents(b, events, c, dec));
      }
    }
  }

  /** A loop that is still running after `events`. */
  ghost predicate GoesOn(p: Progress, events: seq<Event>, start: int, c: Config) {
    && p.used == |events| && p.reason == None && !p.state.closed && (forall e <- events :: !Final(e))
    && p.state.deadline == LastReceive(events, start) + c.timeout
  }

  lemma OneMoreEvent(p: Progress, init: seq<Event>, e: Event, events: seq<Event>, start: int, c: Config, p': Progress)
    requires GoesOn(p, init, start, c) && events != [] && init == events[..|events| - 1] && e == events[|events| - 1]
    requires !p'.ended ==> p'.used == |events| && p'.reason == None && !p'.state.closed && !Final(e)
                           && p'.state.deadline == if e.Received? then e.now + c.timeout else p.state.deadline
    ensures !p'.ended ==> GoesOn(p', events, start, c)
  {
    assert events == init + [e];
  }

  /** Which stream items, completions and invocations end the loop, and which keep-alive ticks. */
  lemma MessageEndsIff(s: LoopState, e: Event, c: Config, dec: Decoder)
    requires !s.closed
    ensures e.Received? && e.m.StreamItem? ==>
              (OnEvent(s, e, c, dec).1.Some? <==> e.m.id !in s.reg.streams.up || dec(e.m.item).None?)
    ensures e.Received? && e.m.Completion? ==>
              var Registry(calls, streams) := s.reg;
              (OnEvent(s, e, c, dec).1.Some? <==>
               || (e.m.id !in calls.open && (e.m.id !in streams.up || e.m.error != ""))
               || (e.m.error == "" && e.m.result.Some?
                   && (dec(e.m.result.value).None? || (e.m.id in streams.up && (e.m.id in streams.running || !e.timely)))))
    ensures e.KeepAliveTick? ==>
              (OnEvent(s, e, c, dec).1.Some? <==>
               (s.stamp.None? || s.stamp.value + c.keepAlive <= e.now) && (s.out.aborted || !e.ok))
    ensures e.Received? && (e.m.Ping? || e.m.CancelInvocation?) ==> OnEvent(s, e, c, dec).1.None?
    ensures e.Received? && e.m.Invocation? ==>
              (OnEvent(s, e, c, dec).1.Some? <==>
               e.hub.Some? && Build(e.hub.value.params, Request(e.m.args, e.m.streamIds), s.reg.streams, c.limits, dec).1.IndexPanic?)
  {
  }

  /* ---- the loop as the watcher of a line ---- */

  /** A step of the wire and the peer, or an event of the loop. */
  datatype Act = Wire(step: KeepAlive.Step) | On(e: Event)

  function EventsOf(acts: seq<Act>): seq<Event> {
    if acts == [] then []
    else EventsOf(acts[..|acts| - 1]) + if acts[|acts| - 1].On? then [acts[|acts| - 1].e] else []
  }

  /** The setting of a run: the loop's configuration, its limit of cancels, and the line. */
  datatype Setting = Setting(c: Config, maxCancels: nat, line: KeepAlive.Config)

  /** The loop after the events among `acts`. */
  function Ran(z: Setting, start: int, acts: seq<Act>, dec: Decoder): Progress {
    RunEvents(NewLoop(z.maxCancels, z.c, start), EventsOf(acts), z.c, dec)
  }

  lemma RanMore(z: Setting, start: int, acts: seq<Act>, n: nat, dec: Decoder)
    requires n < |acts|
    ensures var p, p' := Ran(z, start, acts[..n], dec), Ran(z, start, acts[..n + 1], dec);
            if acts[n].On? && !p.ended then
              var (s, r) := OnEvent(p.state, acts[n].e, z.c, dec);
              p'.state == s && p'.ended == (r.Some? || s.closed) && p'.reason == r
            else p' == p
  {
    var es := EventsOf(acts[..n]);
    assert acts[..n + 1][..n] == acts[..n];
    if acts[n].On? {
      assert EventsOf(acts[..n + 1]) == es + [acts[n].e] && (es + [acts[n].e])[..|es|] == es;
    } else {
      assert EventsOf(acts[..n + 1]) == es;
    }
  }

  /** What the peer and the wire do by themselves; a loop receives what is due, and its timeout ticker
      fires at the deadline. */
  predicate MayWatch(line: KeepAlive.Config, l: KeepAlive.Line, a: Act) {
    match a
    case Wire(step) => (step.Advance? || step.Write? || step.Tick?) && KeepAlive.Enabled(line, l, step)
    case On(Received(_, _, _, now, _)) => now == l.now && KeepAlive.Enabled(line, l, KeepAlive.Deliver)
    case On(TimeoutTick) => KeepAlive.Enabled(line, l, KeepAlive.Timeout)
    case On(_) => true
  }

  function Watched(line: KeepAlive.Config, l: KeepAlive.Line, a: Act): KeepAlive.Line
    requires MayWatch(line, l, a)
  {
    match a
    case Wire(step) => KeepAlive.Next(line, l, step)
    case On(Received(_, _, _, _, _)) => KeepAlive.Next(line, l, KeepAlive.Deliver)
    case On(TimeoutTick) => KeepAlive.Next(line, l, KeepAlive.Timeout)
    case On(_) => l
  }

  ghost predicate WatchesAt(z: Setting, ls: seq<KeepAlive.Line>, acts: seq<Act>, k: nat, dec: Decoder)
    requires |ls| == |acts| + 1 && k < |acts|
  {
    && MayWatch(z.line, ls[k], acts[k]) && ls[k + 1] == Watched(z.line, ls[k], acts[k])
    && (acts[k].On? ==> !Ran(z, z.line.watcherStart, acts[..k], dec).ended)
  }

  /** A run of the loop as the watcher of a line, with whatever else happens to it. */
  ghost predicate IsWatch(z: Setting, ls: seq<KeepAlive.Line>, acts: seq<Act>, dec: Decoder) {
    && z.line.timeout == z.c.timeout && |ls| == |acts| + 1 && ls[0] == KeepAlive.Start(z.line)
    && forall k | 0 <= k < |acts| :: WatchesAt(z, ls, acts, k, dec)
  }

  lemma StartIsReachable(line: KeepAlive.Config)
    ensures KeepAlive.Reachable(line, KeepAlive.Start(line))
  {
    var steps: seq<KeepAlive.Step> := [];
    assert KeepAlive.IsRun(line, [KeepAlive.Start(line)], steps) && [KeepAlive.Start(line)][|steps|] == KeepAlive.Start(line);
  }

  lemma WatchedIsReachable(line: KeepAlive.Config, l: KeepAlive.Line, a: Act)
    requires MayWatch(line, l, a) && KeepAlive.Reachable(line, l)
    ensures KeepAlive.Reachable(line, Watched(line, l, a))
  {
    match a
    case Wire(step) => var _ := KeepAlive.Extend(line, l, step);
    case On(Received(_, _, _, _, _)) => var _ := KeepAlive.Extend(line, l, KeepAlive.Deliver);
    case On(TimeoutTick) => var _ := KeepAlive.Extend(line, l, KeepAlive.Timeout);
    case On(_) =>
  }

  /** The loop against the line it watches: while it runs its deadline is the line's, and it has ended
      with the timeout error exactly if the line is dead. */
  ghost predicate Mirrors(p: Progress, l: KeepAlive.Line) {
    (!p.ended ==> p.state.deadline == l.deadline && !p.state.closed && p.reason == None) && (p.reason == Some(TimedOut) <==> l.dead)
  }

  lemma EventMirrors(z: Setting, p: Progress, l: KeepAlive.Line, e: Event, p': Progress, dec: Decoder)
    requires Mirrors(p, l) && !p.ended && z.line.timeout == z.c.timeout && MayWatch(z.line, l, On(e))
    requires var (s, r) := OnEvent(p.state, e, z.c, dec); p'.state == s && p'.ended == (r.Some? || s.closed) && p'.reason == r
    ensures Mirrors(p', Watched(z.line, l, On(e)))
  {
    EventEnds(p.state, e, z.c, dec);
  }

  /** In every such run the loop's receive and timeout cases are the watcher's steps of a keep-alive
      line. */
  lemma {:induction false} LoopWatchesALine(z: Setting, ls: seq<KeepAlive.Line>, acts: seq<Act>, n: nat, dec: Decoder)
    requires IsWatch(z, ls, acts, dec) && n <= |acts|
    ensures KeepAlive.Reachable(z.line, ls[n])
    ensures Mirrors(Ran(z, z.line.watcherStart, acts[..n], dec), ls[n])
  {
    if n == 0 {
      StartIsReachable(z.line);
    } else {
      LoopWatchesALine(z, ls, acts, n - 1, dec);
      assert WatchesAt(z, ls, acts, n - 1, dec);
      WatchedIsReachable(z.line, ls[n - 1], acts[n - 1]);
      RanMore(z, z.line.watcherStart, acts, n - 1, dec);
      if acts[n - 1].On? {
        EventMirrors(z, Ran(z, z.line.watcherStart, acts[..n - 1], dec), ls[n - 1], acts[n - 1].e,
                     Ran(z, z.line.watcherStart, acts[..n], dec), dec);
      }
    }
  }

  /* Every run of a line is one of a loop that watches it. */

  function ActOf(l: KeepAlive.Line, step: KeepAlive.Step): Act {
    match step
    case Deliver => On(Received(Ping, true, None, l.now, true))
    case Timeout => On(TimeoutTick)
    case _ => Wire(step)
  }

  lemma ActOfMoves(line: KeepAlive.Config, l: KeepAlive.Line, step: KeepAlive.Step)
    requires KeepAlive.Enabled(line, l, step)
    ensures MayWatch(line, l, ActOf(l, step)) && Watched(line, l, ActOf(l, step)) == KeepAlive.Next(line, l, step)
    ensures ActOf(l, step).On? ==> !l.dead
  {
  }

  /** So far the loop has met pings and perhaps its timeout, and nothing else has ended it. */
  lemma {:induction false} LineIsWatched(z: Setting, ls: seq<KeepAlive.Line>, steps: seq<KeepAlive.Step>, acts: seq<Act>, n: nat, dec: Decoder)
    requires z.line.timeout == z.c.timeout && KeepAlive.IsRun(z.line, ls, steps) && n <= |steps| == |acts|
    requires forall k | 0 <= k < |steps| :: acts[k] == ActOf(ls[k], steps[k])
    ensures IsWatch(z, ls[..n + 1], acts[..n], dec)
    ensures var p := Ran(z, z.line.watcherStart, acts[..n], dec); p.ended <==> p.reason == Some(TimedOut)
  {
    if n > 0 {
      LineIsWatched(z, ls, steps, acts, n - 1, dec);
      var past, p, step := acts[..n - 1], Ran(z, z.line.watcherStart, acts[..n - 1], dec), steps[n - 1];
      LoopWatchesALine(z, ls[..n], past, n - 1, dec);
      assert past[..n - 1] == past;
      assert KeepAlive.MovesAt(z.line, ls, steps, n - 1);
      ActOfMoves(z.line, ls[n - 1], step);
      LastIsWatched(z, ls, acts, n, dec);
      RanMore(z, z.line.watcherStart, acts, n - 1, dec);
      if step.Deliver? { PingGoesOn(p.state, acts[n - 1].e, z.c, dec); }
    }
  }

  lemma LastIsWatched(z: Setting, ls: seq<KeepAlive.Line>, acts: seq<Act>, n: nat, dec: Decoder)
    requires 0 < n <= |acts| && |ls| == |acts| + 1 && IsWatch(z, ls[..n], acts[..n - 1], dec)
    requires MayWatch(z.line, ls[n - 1], acts[n - 1]) && ls[n] == Watched(z.line, ls[n - 1], acts[n - 1])
    requires acts[n - 1].On? ==> !Ran(z, z.line.watcherStart, acts[..n - 1], dec).ended
    ensures IsWatch(z, ls[..n + 1], acts[..n], dec)
  {
    assert ls[..n + 1][..n] == ls[..n] && acts[..n][..n - 1] == acts[..n - 1];
    assert WatchesAt(z, ls[..n + 1], acts[..n], n - 1, dec);
    OneMoreWatched(z, ls[..n + 1], acts[..n], dec);
  }

  lemma PingGoesOn(s: LoopState, e: Event, c: Config, dec: Decoder)
    requires e.Received? && e.m.Ping? && !s.closed
    ensures OnEvent(s, e, c, dec).1 == None && !OnEvent(s, e, c, dec).0.closed
  {
  }

  lemma OneMoreWatched(z: Setting, ls: seq<KeepAlive.Line>, acts: seq<Act>, dec: Decoder)
    requires acts != [] && |ls| == |acts| + 1 && IsWatch(z, ls[..|acts|], acts[..|acts| - 1], dec)
    requires WatchesAt(z, ls, acts, |acts| - 1, dec)
    ensures IsWatch(z, ls, acts, dec)
  {
    var ls', acts' := ls[..|acts|], acts[..|acts| - 1];
    forall k | 0 <= k < |acts| ensures WatchesAt(z, ls, acts, k, dec) {
      if k < |acts'| {
        assert WatchesAt(z, ls', acts', k, dec);
        assert acts'[..k] == acts[..k];
      }
    }
  }

  /** Some run of the loop on this line ends with the timeout error. */
  ghost predicate LoopCanTimeOut(z: Setting, dec: Decoder) {
    exists ls: seq<KeepAlive.Line>, acts: seq<Act> ::
      IsWatch(z, ls, acts, dec) && Ran(z, z.line.watcherStart, acts, dec).reason == Some(TimedOut)
  }

  /** The message loop itself can end with the timeout error on a running peer if and only if interval,
      lag, delay and head start together reach the timeout. */
  lemma LoopTimeoutIff(z: Setting, dec: Decoder)
    requires z.line.Proper() && z.line.timeout == z.c.timeout
    ensures LoopCanTimeOut(z, dec) <==> z.line.timeout <= z.line.keepAlive + z.line.lag + z.line.delay + z.line.Skew()
  {
    KeepAlive.TimeoutSafeIff(z.line);
    if LoopCanTimeOut(z, dec) {
      var ls: seq<KeepAlive.Line>, acts: seq<Act> :|
        IsWatch(z, ls, acts, dec) && Ran(z, z.line.watcherStart, acts, dec).reason == Some(TimedOut);
      LoopWatchesALine(z, ls, acts, |acts|, dec);
      assert acts[..|acts|] == acts;
    }
    if KeepAlive.CanTimeOut(z.line) { TimeoutReached(z, dec); }
  }

  lemma TimeoutReached(z: Setting, dec: Decoder)
    requires z.line.timeout == z.c.timeout && KeepAlive.CanTimeOut(z.line)
    ensures LoopCanTimeOut(z, dec)
  {
    var l :| KeepAlive.Reachable(z.line, l) && l.dead;
    var ls: seq<KeepAlive.Line>, steps: seq<KeepAlive.Step> :| KeepAlive.IsRun(z.line, ls, steps) && ls[|steps|] == l;
    var acts := seq(|steps|, k requires 0 <= k < |steps| => ActOf(ls[k], steps[k]));
    LineIsWatched(z, ls, steps, acts, |steps|, dec);
    assert ls[..|steps| + 1] == ls && acts[..|steps|] == acts;
    LoopWatchesALine(z, ls, acts, |steps|, dec);
  }

  /* ---- the loop as the writer of a line ---- */

  function TimeOf(e: Event): Option<int> {
    match e
    case Received(_, _, _, now, _) => Some(now)
    case ReceiveFailed(now) => Some(now)
    case KeepAliveTick(now, _) => Some(now)
    case Pulled(_, _, _, now, _) => Some(now)
    case Called(_, _, _, _, now, _) => Some(now)
    case Wrote(_, now, _) => Some(now)
    case _ => None
  }

  /** The peer and the wire by themselves; the keep-alive ticker fires when it is due, and every event
      happens at the line's time. */
  predicate MayWrite(line: KeepAlive.Config, l: KeepAlive.Line, a: Act) {
    match a
    case Wire(step) => (step.Advance? || step.Deliver? || step.Timeout?) && KeepAlive.Enabled(line, l, step)
    case On(e) =>
      (TimeOf(e).Some? ==> TimeOf(e).value == l.now) && (e.KeepAliveTick? ==> KeepAlive.Enabled(line, l, KeepAlive.Tick))
  }

  /** An event of the loop is a tick of the line, or a write if a message went out. */
  function Written(line: KeepAlive.Config, l: KeepAlive.Line, a: Act, wrote: bool): KeepAlive.Line
    requires MayWrite(line, l, a)
  {
    match a
    case Wire(step) => KeepAlive.Next(line, l, step)
    case On(e) =>
      if e.KeepAliveTick? then KeepAlive.Next(line, l, KeepAlive.Tick)
      else if wrote then KeepAlive.Next(line, l, KeepAlive.Write)
      else l
  }

  function LogOf(z: Setting, acts: seq<Act>, dec: Decoder): seq<Message> {
    Ran(z, z.line.writerStart, acts, dec).state.out.log
  }

  ghost predicate WritesAt(z: Setting, ls: seq<KeepAlive.Line>, acts: seq<Act>, k: nat, dec: Decoder)
    requires |ls| == |acts| + 1 && k < |acts|
  {
    && MayWrite(z.line, ls[k], acts[k])
    && ls[k + 1] == Written(z.line, ls[k], acts[k], LogOf(z, acts[..k], dec) != LogOf(z, acts[..k + 1], dec))
    && (acts[k].On? ==> !Ran(z, z.line.writerStart, acts[..k], dec).ended)
  }

  ghost predicate IsWriting(z: Setting, ls: seq<KeepAlive.Line>, acts: seq<Act>, dec: Decoder) {
    && z.line.keepAlive == z.c.keepAlive && |ls| == |acts| + 1 && ls[0] == KeepAlive.Start(z.line)
    && forall k | 0 <= k < |acts| :: WritesAt(z, ls, acts, k, dec)
  }

  /** On a connection that is still live, an event has written nothing, or one message with its stamp. */
  lemma EventWrites(s: LoopState, e: Event, c: Config, dec: Decoder)
    requires !OnEvent(s, e, c, dec).0.out.aborted
    ensures !s.out.aborted
    ensures var s' := OnEvent(s, e, c, dec).0;
            || (s'.out.log == s.out.log && s'.stamp == s.stamp)
            || (|s'.out.log| == |s.out.log| + 1 && s.out.log <= s'.out.log && s'.stamp == TimeOf(e) && s'.stamp.Some?)
    ensures !e.KeepAliveTick? ==> OnEvent(s, e, c, dec).0.nextTick == s.nextTick
  {
    if e.Received? { MessageWrites(s.(deadline := e.now + c.timeout), e, c, dec); }
  }

  lemma MessageWrites(s: LoopState, e: Event, c: Config, dec: Decoder)
    requires e.Received? && !OnMessage(s, e, c, dec).0.out.aborted
    ensures !s.out.aborted && OnMessage(s, e, c, dec).0.nextTick == s.nextTick
    ensures var s' := OnMessage(s, e, c, dec).0;
            || (s'.out.log == s.out.log && s'.stamp == s.stamp)
            || (|s'.out.log| == |s.out.log| + 1 && s.out.log <= s'.out.log && s'.stamp == Some(e.now))
  {
    if e.m.Invocation? { InvocationWrites(s, e, c, dec); }
  }

  lemma InvocationWrites(s: LoopState, e: Event, c: Config, dec: Decoder)
    requires e.Received? && e.m.Invocation? && !OnMessage(s, e, c, dec).0.out.aborted
    ensures !s.out.aborted && OnMessage(s, e, c, dec).0.nextTick == s.nextTick
    ensures var s' := OnMessage(s, e, c, dec).0;
            || (s'.out.log == s.out.log && s'.stamp == s.stamp)
            || (|s'.out.log| == |s.out.log| + 1 && s.out.log <= s'.out.log && s'.stamp == Some(e.now))
  {
  }

  lemma TickWrites(s: LoopState, e: Event, c: Config, dec: Decoder)
    requires e.KeepAliveTick? && !OnEvent(s, e, c, dec).0.out.aborted
    ensures var s', (ping, next) := OnEvent(s, e, c, dec).0, KeepAlive.OnTick(c.keepAlive, s.stamp, e.now);
            && s'.nextTick == next && s'.stamp == (if ping then Some(e.now) else s.stamp)
            && s'.out.log == (if ping then s.out.log + [Ping] else s.out.log)
  {
  }

  /** The loop against the line it writes, on a live connection: stamp and next tick are the line's. */
  ghost predicate Drives(p: Progress, l: KeepAlive.Line) {
    !p.state.out.aborted && !p.ended ==> p.state.stamp == l.stamp && p.state.nextTick == l.nextTick
  }

  lemma EventDrives(z: Setting, p: Progress, l: KeepAlive.Line, e: Event, p': Progress, dec: Decoder)
    requires Drives(p, l) && !p.ended && z.line.keepAlive == z.c.keepAlive && MayWrite(z.line, l, On(e))
    requires p'.state == OnEvent(p.state, e, z.c, dec).0
    ensures Drives(p', Written(z.line, l, On(e), p'.state.out.log != p.state.out.log))
  {
    if !p'.state.out.aborted {
      EventWrites(p.state, e, z.c, dec);
      if e.KeepAliveTick? { TickWrites(p.state, e, z.c, dec); }
    }
  }

  lemma WrittenIsReachable(line: KeepAlive.Config, l: KeepAlive.Line, a: Act, wrote: bool)
    requires MayWrite(line, l, a) && KeepAlive.Reachable(line, l)
    ensures KeepAlive.Reachable(line, Written(line, l, a, wrote))
  {
    match a
    case Wire(step) => var _ := KeepAlive.Extend(line, l, step);
    case On(e) =>
      if e.KeepAliveTick? { var _ := KeepAlive.Extend(line, l, KeepAlive.Tick); }
      else if wrote { var _ := KeepAlive.Extend(line, l, KeepAlive.Write); }
  }

  /** In every such run the loop's writes and keep-alive ticks are the writer's steps of a line. */
  lemma {:induction false} LoopWritesALine(z: Setting, ls: seq<KeepAlive.Line>, acts: seq<Act>, n: nat, dec: Decoder)
    requires IsWriting(z, ls, acts, dec) && n <= |acts|
    ensures KeepAlive.Reachable(z.line, ls[n])
    ensures Drives(Ran(z, z.line.writerStart, acts[..n], dec), ls[n])
  {
    if n == 0 {
      StartIsReachable(z.line);
    } else {
      LoopWritesALine(z, ls, acts, n - 1, dec);
      assert WritesAt(z, ls, acts, n - 1, dec);
      WrittenIsReachable(z.line, ls[n - 1], acts[n - 1], LogOf(z, acts[..n - 1], dec) != LogOf(z, acts[..n], dec));
      RanMore(z, z.line.writerStart, acts, n - 1, dec);
      if acts[n - 1].On? {
        EventDrives(z, Ran(z, z.line.writerStart, acts[..n - 1], dec), ls[n - 1], acts[n - 1].e,
                    Ran(z, z.line.writerStart, acts[..n], dec), dec);
      }
    }
  }

  /** So the message loop itself is never silent for longer than its interval and lag while it runs on a
      live connection, and a keep-alive tick sends a ping exactly if nothing was sent for an interval. */
  lemma LoopIsNeverSilent(z: Setting, ls: seq<KeepAlive.Line>, acts: seq<Act>, n: nat, dec: Decoder)
    requires z.line.Proper() && IsWriting(z, ls, acts, dec) && n <= |acts|
    ensures var p := Ran(z, z.line.writerStart, acts[..n], dec);
            !p.ended && !p.state.out.aborted ==>
              var last := if p.state.stamp.Some? then KeepAlive.Max(p.state.stamp.value, z.line.writerStart) else z.line.writerStart;
              && ls[n].now <= last + z.c.keepAlive + z.line.lag && p.state.nextTick <= last + z.c.keepAlive
              && (n < |acts| && acts[n].On? && acts[n].e.KeepAliveTick? && acts[n].e.ok ==>
                    LogOf(z, acts[..n + 1], dec)
                    == p.state.out.log + if last + z.c.keepAlive <= acts[n].e.now then [Ping] else [])
  {
    LoopWritesALine(z, ls, acts, n, dec);
    var p := Ran(z, z.line.writerStart, acts[..n], dec);
    var ks: seq<KeepAlive.Line>, steps: seq<KeepAlive.Step> :| KeepAlive.IsRun(z.line, ks, steps) && ks[|steps|] == ls[n];
    KeepAlive.RunKeepsWriter(z.line, ks, steps, |steps|);
    if n < |acts| && acts[n].On? && acts[n].e.KeepAliveTick? && acts[n].e.ok && !p.ended && !p.state.out.aborted {
      assert WritesAt(z, ls, acts, n, dec);
      RanMore(z, z.line.writerStart, acts, n, dec);
      TickStaysLive(p.state, acts[n].e, z.c, dec);
      TickWrites(p.state, acts[n].e, z.c, dec);
      assert p.state.out.log + [] == p.state.out.log;
    }
  }

  lemma TickStaysLive(s: LoopState, e: Event, c: Config, dec: Decoder)
    requires e.KeepAliveTick? && e.ok && !s.out.aborted
    ensures !OnEvent(s, e, c, dec).0.out.aborted
  {
  }

  /* ---- what the peer hears of the end ---- */

  /** Whatever ended the loop short of a crash, nothing is written afterwards; if it was an error, the
      last thing written is a close message with it, at which the loop of a peer that gets it ends. */
  lemma PeerHearsOfTheEnd(p: Progress, text: string, allowReconnect: bool, m: Message, ok: bool,
                          events: seq<Event>, maxCancels: nat, start: int, c: Config, dec: Decoder)
    requires p.ended && p.reason != Some(Crashed)
    ensures var s := Shutdown(p, text, allowReconnect);
            && s.out.Write(m, ok).log == s.out.log && p.state.out.log <= s.out.log
            && (p.reason == None ==> s.out.log == p.state.out.log)
            && (p.reason.Some? ==>
                  && |s.out.log| == |p.state.out.log| + 1
                  && ((exists e <- events :: e.Received? && e.m == s.out.log[|s.out.log| - 1]) ==>
                        RunEvents(NewLoop(maxCancels, c, start), events, c, dec).ended))
  {
    LoopEndsFor(events, maxCancels, start, c, dec);
  }
}
