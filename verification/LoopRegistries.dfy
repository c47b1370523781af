/** The events of the message loop are steps of its two registries, so that what is proved about every
    run of the registries holds of the loop (loop.go, Run). */
module LoopRegistries {
  import opened Wrappers
  import opened Messages
  import opened Channels
  import opened InvokeClients
  import opened StreamClients
  import opened Arguments
  import opened MessageLoops
  import opened CallHistories
  import opened PulledStreams

  /** Uploads bound one after the other. */
  function Uploads(ids: seq<Id>, cap: nat): seq<StreamClients.Step> {
    seq(|ids|, i requires 0 <= i < |ids| => Upload(ids[i], cap))
  }

  /** What an event means for the registries. */
  function StepsFor(s: LoopState, e: Event, c: MessageLoops.Config, dec: Decoder): seq<StreamClients.Step> {
    match e
    case Pulled(id, _, _, _, ok) => [Pull(id, c.limits.cap, !s.out.aborted && ok)]
    case Called(id, _, _, _, _, ok) => [Call(id, !s.out.aborted && ok)]
    case Received(m, timely, hub, _, _) => StepsForMessage(s.reg.streams, m, timely, hub, c, dec)
    case _ => []
  }

  function StepsForMessage(t: StreamTable, m: Message, timely: bool, hub: Option<Signature>, c: MessageLoops.Config, dec: Decoder)
    : seq<StreamClients.Step>
  {
    match m
    case StreamItem(id, item) => [Item(id, item, timely)]
    case Completion(id, result, error) => [StreamClients.Complete(id, result, error, timely)]
    case Invocation(_, _, _, args, ids) =>
      if hub.None? || |ids| + |args| != |hub.value.params| then []
      else Uploads(BoundIds(hub.value.params, Request(args, ids), t, c.limits, dec, 0, 0), c.limits.cap)
    case _ => []
  }

  /** The states that `steps` lead through from `l`. */
  function Trail(l: Loop, steps: seq<StreamClients.Step>, dec: Decoder): (ls: seq<Loop>)
    ensures |ls| == |steps| + 1 && ls[0] == l
    decreases |steps|
  {
    if steps == [] then [l] else [l] + Trail(StreamClients.Next(l, steps[0], dec), steps[1..], dec)
  }

  /** The state they lead to. */
  function Last(l: Loop, steps: seq<StreamClients.Step>, dec: Decoder): Loop
    decreases |steps|
  {
    if steps == [] then l else Last(StreamClients.Next(l, steps[0], dec), steps[1..], dec)
  }

  lemma {:induction false} TrailEnds(l: Loop, steps: seq<StreamClients.Step>, dec: Decoder)
    ensures Trail(l, steps, dec)[|steps|] == Last(l, steps, dec)
    decreases |steps|
  {
    if steps != [] { TrailEnds(StreamClients.Next(l, steps[0], dec), steps[1..], dec); }
  }

  lemma LastAfterFirst(l: Loop, step: StreamClients.Step, steps: seq<StreamClients.Step>, dec: Decoder)
    ensures Last(l, [step] + steps, dec) == Last(StreamClients.Next(l, step, dec), steps, dec)
  {
    assert ([step] + steps)[1..] == steps;
  }

  lemma LastOne(l: Loop, step: StreamClients.Step, dec: Decoder)
    ensures Last(l, [step], dec) == StreamClients.Next(l, step, dec)
  {
    assert [step][1..] == [];
  }

  lemma {:induction false} LastUploads(l: Loop, ids: seq<Id>, cap: nat, dec: Decoder)
    ensures var l' := Last(l, Uploads(ids, cap), dec);
            l'.reg.calls == l.reg.calls && l'.reg.streams == OpenAll(l.reg.streams, ids, cap) && l'.pulled == l.pulled
    decreases |ids|
  {
    if ids != [] {
      var l1 := StreamClients.Next(l, Upload(ids[0], cap), dec);
      LastUploads(l1, ids[1..], cap, dec);
      assert Uploads(ids, cap)[1..] == Uploads(ids[1..], cap);
    }
  }

  lemma InvocationIsUploads(s: LoopState, e: Event, l: Loop, c: MessageLoops.Config, dec: Decoder)
    requires e.Received? && e.m.Invocation? && l.reg == s.reg
    ensures Last(l, StepsFor(s, e, c, dec), dec).reg == OnEvent(s, e, c, dec).0.reg
  {
    InvocationStreams(s, e, c, dec);
    InvocationKeepsCalls(s, e, c, dec);
    if e.hub.Some? && |e.m.streamIds| + |e.m.args| == |e.hub.value.params| {
      var params, q := e.hub.value.params, Request(e.m.args, e.m.streamIds);
      var ids := BoundIds(params, q, s.reg.streams, c.limits, dec, 0, 0);
      MergeOpens(params, q, s.reg.streams, c.limits, dec, [], 0, Merge(params, q, s.reg.streams, c.limits, dec, [], 0).0, ids);
      LastUploads(l, ids, c.limits.cap, dec);
    }
  }

  lemma InvocationKeepsCalls(s: LoopState, e: Event, c: MessageLoops.Config, dec: Decoder)
    requires e.Received? && e.m.Invocation?
    ensures OnEvent(s, e, c, dec).0.reg.calls == s.reg.calls
  {
  }

  lemma HandledRegistry(s: LoopState, e: Event, c: MessageLoops.Config, dec: Decoder)
    requires e.Received? && !e.m.Invocation?
    ensures OnEvent(s, e, c, dec).0.reg == HandleMessage(s.reg, e.m, e.timely, c.limits.cap, 0, dec).0
  {
  }

  lemma EventIsSteps(s: LoopState, e: Event, l: Loop, c: MessageLoops.Config, dec: Decoder)
    requires l.reg == s.reg
    ensures Last(l, StepsFor(s, e, c, dec), dec).reg == OnEvent(s, e, c, dec).0.reg
  {
    match e
    case Pulled(id, _, _, _, ok) => LastOne(l, Pull(id, c.limits.cap, !s.out.aborted && ok), dec);
    case Called(id, _, _, _, _, ok) => LastOne(l, Call(id, !s.out.aborted && ok), dec);
    case Received(m, _, _, _, _) => if m.Invocation? { InvocationIsUploads(s, e, l, c, dec); } else { MessageIsStep(s, e, l, c, dec); }
    case _ =>
  }

  lemma MessageIsStep(s: LoopState, e: Event, l: Loop, c: MessageLoops.Config, dec: Decoder)
    requires e.Received? && !e.m.Invocation? && l.reg == s.reg
    ensures Last(l, StepsFor(s, e, c, dec), dec).reg == OnEvent(s, e, c, dec).0.reg
  {
    HandledRegistry(s, e, c, dec);
    match e.m
    case StreamItem(id, item) => LastOne(l, Item(id, item, e.timely), dec);
    case Completion(id, result, error) => LastOne(l, StreamClients.Complete(id, result, error, e.timely), dec);
    case _ =>
  }

  /** The steps of the registries that the events of a loop amount to. */
  function StepsOf(s: LoopState, events: seq<Event>, c: MessageLoops.Config, dec: Decoder): seq<StreamClients.Step> {
    if events == [] then []
    else
      var init := events[..|events| - 1];
      var p := RunEvents(s, init, c, dec);
      StepsOf(s, init, c, dec) + if p.ended then [] else StepsFor(p.state, events[|events| - 1], c, dec)
  }

  lemma {:induction false} TrailJoins(l: Loop, a: seq<StreamClients.Step>, b: seq<StreamClients.Step>, dec: Decoder)
    ensures Last(l, a + b, dec) == Last(Last(l, a, dec), b, dec)
    decreases |a|
  {
    if a == [] {
      assert a + b == b;
    } else {
      var first, rest := a[0], a[1..];
      TrailJoins(StreamClients.Next(l, first, dec), rest, b, dec);
      LastAfterFirst(l, first, rest + b, dec);
      LastAfterFirst(l, first, rest, dec);
      FirstOfBoth(first, rest, a, b);
    }
  }

  lemma FirstOfBoth(first: StreamClients.Step, rest: seq<StreamClients.Step>, a: seq<StreamClients.Step>, b: seq<StreamClients.Step>)
    requires a != [] && a[0] == first && a[1..] == rest
    ensures a == [first] + rest && a + b == [first] + (rest + b)
  {
  }

  lemma {:induction false} TrailMoves(l: Loop, steps: seq<StreamClients.Step>, k: nat, dec: Decoder)
    requires k < |steps|
    ensures Trail(l, steps, dec)[k + 1] == StreamClients.Next(Trail(l, steps, dec)[k], steps[k], dec)
    decreases k
  {
    if k > 0 { TrailMoves(StreamClients.Next(l, steps[0], dec), steps[1..], k - 1, dec); }
  }

  /** Ids are used as PullStream, Invoke and the peer use them: pulled ids for nothing else. */
  ghost predicate ProperIds(steps: seq<StreamClients.Step>, dec: Decoder) {
    forall k | 0 <= k < |steps| :: StreamClients.Enabled(Trail(StreamClients.Start, steps, dec)[k], steps[k])
  }

  /** In every run of the message loop its registries are where the steps its events amount to lead,
      and with proper ids this is a run of the registries: every result about those is one about the
      loop. */
  lemma {:induction false} LoopRunsItsRegistries(events: seq<Event>, maxCancels: nat, start: int, c: MessageLoops.Config, dec: Decoder)
    ensures var steps := StepsOf(NewLoop(maxCancels, c, start), events, c, dec);
            && Last(StreamClients.Start, steps, dec).reg == RunEvents(NewLoop(maxCancels, c, start), events, c, dec).state.reg
            && (ProperIds(steps, dec) ==> StreamClients.IsRun(Trail(StreamClients.Start, steps, dec), steps, dec))
    decreases |events|
  {
    var b := NewLoop(maxCancels, c, start);
    var steps := StepsOf(b, events, c, dec);
    if events != [] {
      var init := events[..|events| - 1];
      LoopRunsItsRegistries(init, maxCancels, start, c, dec);
      var past, p := StepsOf(b, init, c, dec), RunEvents(b, init, c, dec);
      if p.ended {
        assert past + [] == past;
      } else {
        var more := StepsFor(p.state, events[|events| - 1], c, dec);
        EventIsSteps(p.state, events[|events| - 1], Last(StreamClients.Start, past, dec), c, dec);
        TrailJoins(StreamClients.Start, past, more, dec);
      }
    }
    IsRunOfTrail(steps, dec);
  }

  lemma IsRunOfTrail(steps: seq<StreamClients.Step>, dec: Decoder)
    ensures ProperIds(steps, dec) ==> StreamClients.IsRun(Trail(StreamClients.Start, steps, dec), steps, dec)
  {
    forall k | 0 <= k < |steps|
      ensures Trail(StreamClients.Start, steps, dec)[k + 1] == StreamClients.Next(Trail(StreamClients.Start, steps, dec)[k], steps[k], dec)
    {
      TrailMoves(StreamClients.Start, steps, k, dec);
    }
  }

  /** What the caller of PullStream gets from the message loop itself: for every run with proper ids,
      the channels registered for a pulled stream carry the items and the error of its story. */
  lemma LoopTellsItsCallers(events: seq<Event>, maxCancels: nat, start: int, c: MessageLoops.Config, id: Id, dec: Decoder)
    requires var steps := StepsOf(NewLoop(maxCancels, c, start), events, c, dec);
             ProperIds(steps, dec) && id in Last(StreamClients.Start, steps, dec).pulled
    ensures var steps := StepsOf(NewLoop(maxCancels, c, start), events, c, dec);
            var reg := RunEvents(NewLoop(maxCancels, c, start), events, c, dec).state.reg;
            var Slots(u, call) := Last(StreamClients.Start, steps, dec).pulled[id];
            var p := Story(steps, id, dec);
            && u < |reg.streams.cells| && call < |reg.calls.cells|
            && reg.streams.cells[u].sent == p.items && reg.calls.cells[call].err.sent == ErrorsOf(p)
            && (reg.streams.cells[u].closes == 1 <==> p.over) && (reg.calls.cells[call].Closed() <==> p.over)
  {
    var steps := StepsOf(NewLoop(maxCancels, c, start), events, c, dec);
    LoopRunsItsRegistries(events, maxCancels, start, c, dec);
    TrailEnds(StreamClients.Start, steps, dec);
    PulledStreamCarries(Trail(StreamClients.Start, steps, dec), steps, |steps|, id, dec);
    assert steps[..|steps|] == steps;
  }

  lemma {:induction false} TrailCallsFollow(steps: seq<StreamClients.Step>, n: nat, dec: Decoder)
    requires n <= |steps|
    ensures Agrees(Trail(StreamClients.Start, steps, dec)[n].reg.calls, History(CallStepsOf(Trail(StreamClients.Start, steps, dec), steps, n)), dec)
  {
    if n > 0 {
      var ls := Trail(StreamClients.Start, steps, dec);
      TrailCallsFollow(steps, n - 1, dec);
      TrailMoves(StreamClients.Start, steps, n - 1, dec);
      NextFollows(ls[n - 1], CallStepsOf(ls, steps, n - 1), steps[n - 1], dec);
    }
  }

  /** Whatever ends the loop short of a crash, each caller that still waits is told so: once the
      goroutine for its call has run, its channels are closed with nothing but the error that the
      loop ended. */
  lemma LoopEndTellsCallers(events: seq<Event>, maxCancels: nat, start: int, c: MessageLoops.Config, dec: Decoder,
                            text: string, allowReconnect: bool, id: Id)
    requires var p := RunEvents(NewLoop(maxCancels, c, start), events, c, dec);
             p.reason != Some(Crashed) && id in p.state.reg.calls.open
    ensures var p := RunEvents(NewLoop(maxCancels, c, start), events, c, dec);
            var calls, i := Shutdown(p, text, allowReconnect).reg.calls, p.state.reg.calls.open[id];
            && i in calls.leaving && i < |calls.cells|
            && var q := calls.Notify(i).cells[i]; q.Closed() && q.result.sent == [] && q.err.sent == [Some(LoopEnded)]
  {
    var p := RunEvents(NewLoop(maxCancels, c, start), events, c, dec);
    var steps := StepsOf(NewLoop(maxCancels, c, start), events, c, dec);
    LoopRunsItsRegistries(events, maxCancels, start, c, dec);
    TrailCallsFollow(steps, |steps|, dec);
    TrailEnds(StreamClients.Start, steps, dec);
    var h := History(CallStepsOf(Trail(StreamClients.Start, steps, dec), steps, |steps|));
    EndTells(p.state.reg.calls, h, id, dec);
  }

  lemma EndTells(calls: CallTable, h: seq<Placed>, id: Id, dec: Decoder)
    requires Agrees(calls, h, dec) && id in calls.open
    ensures var s, i := calls.CancelAll(), calls.open[id];
            && i in s.leaving && i < |s.cells|
            && var q := s.Notify(i).cells[i]; q.Closed() && q.result.sent == [] && q.err.sent == [Some(LoopEnded)]
  {
    var s, i := calls.CancelAll(), calls.open[id];
    CancelAllAgrees(calls, h, dec);
    var h' := Extended(h, InvokeClients.CancelAll);
    assert h'[i].fate == Leaving && Carries(s.cells[i], h'[i].fate, dec);
  }

  /* ---- what the loop writes ---- */

  /** Whether an invocation is refused. */
  predicate Refuses(s: LoopState, m: Message, hub: Option<Signature>, c: MessageLoops.Config, dec: Decoder)
    requires m.Invocation?
  {
    hub.None? ||
    var o := Build(hub.value.params, Request(m.args, m.streamIds), s.reg.streams, c.limits, dec).1;
    !o.IndexPanic? && (!o.Built? || (m.kind.Streaming? && hub.value.numOut != 1))
  }

  /** An error completion for `id` is what `log'` has over `log`. */
  predicate TellsError(log: seq<Message>, log': seq<Message>, id: Id) {
    |log'| == |log| + 1 && log <= log' && var m := log'[|log|]; m.Completion? && m.id == id && m.result == None && m.error != ""
  }

  /** On a live connection the loop answers by itself exactly the invocations it refuses and the items
      nobody took in time, each with one error completion; a call or pull puts its invocation on the
      wire; and a cancel makes the next turn of its stream end it. */
  lemma LoopAnswers(s: LoopState, e: Event, c: MessageLoops.Config, dec: Decoder)
    requires !s.out.aborted
    ensures e.Received? && e.ok ==>
              var log, log' := s.out.log, OnEvent(s, e, c, dec).0.out.log;
              if (e.m.Invocation? && Refuses(s, e.m, e.hub, c, dec))
                 || (e.m.StreamItem? && e.m.id in s.reg.streams.up && dec(e.m.item).Some? && !e.timely)
              then TellsError(log, log', e.m.id) && OnEvent(s, e, c, dec).1 == None
              else log' == log
    ensures e.Pulled? && e.ok ==> OnEvent(s, e, c, dec).0.out.log == s.out.log + [Invocation(Streaming, e.id, e.target, e.args, [])]
    ensures e.Called? && e.ok ==>
              OnEvent(s, e, c, dec).0.out.log == s.out.log + [Invocation(Simple, e.id, e.target, e.args, e.streamIds)]
    ensures e.Received? && e.m.CancelInvocation? && (s.out.maxCancels == 0 || s.out.cancelCount < s.out.maxCancels) ==>
              forall v: Raw :: var (o, ended) := OnEvent(s, e, c, dec).0.out.Turn(e.m.id, Some(v), true);
                               ended && o.log == s.out.log + [Completion(e.m.id, None, "")]
  {
  }
}
