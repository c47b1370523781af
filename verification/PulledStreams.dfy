/** What the caller of a pulled stream, or of an ordinary call, gets through both registries of a
    loop, told by the history of steps alone (loop.go, streamclient.go, invokeclient.go). */
module PulledStreams {
  import opened Wrappers
  import opened Messages
  import opened Channels
  import opened InvokeClients
  import opened InvokeResults
  import opened StreamClients
  import opened CallHistories

  /* ---- both registries as a table of calls ---- */

  /** What a step of the loop means for the table of calls: a completion that ends a stream without
      an error deletes the call beside it, any other answers the call. */
  function CallSteps(l: Loop, step: StreamClients.Step): seq<InvokeClients.Step> {
    match step
    case Pull(id, _, sent) => if sent then [InvokeClients.Register(id)] else [InvokeClients.Register(id), InvokeClients.Delete(id)]
    case Call(id, sent) => if sent then [InvokeClients.Register(id)] else [InvokeClients.Register(id), InvokeClients.Delete(id)]
    case Complete(id, result, error, _) =>
      if id in l.reg.streams.up && error == "" then [InvokeClients.Delete(id)] else [InvokeClients.Complete(id, result, error)]
    case _ => []
  }

  function CallStepsOf(ls: seq<Loop>, steps: seq<StreamClients.Step>, n: nat): seq<InvokeClients.Step>
    requires |ls| == |steps| + 1 && n <= |steps|
  {
    if n == 0 then [] else CallStepsOf(ls, steps, n - 1) + CallSteps(ls[n - 1], steps[n - 1])
  }

  lemma OneStepMore(steps: seq<InvokeClients.Step>, a: InvokeClients.Step)
    ensures History(steps + [a]) == Extended(History(steps), a)
  {
    assert (steps + [a])[..|steps|] == steps;
  }

  lemma TwoStepsMore(steps: seq<InvokeClients.Step>, a: InvokeClients.Step, b: InvokeClients.Step)
    ensures History(steps + [a, b]) == Extended(Extended(History(steps), a), b)
  {
    OneStepMore(steps, a);
    OneStepMore(steps + [a], b);
    assert steps + [a] + [b] == steps + [a, b];
  }

  lemma RegisterFollows(c: CallTable, past: seq<InvokeClients.Step>, id: Id, dec: Decoder)
    requires Agrees(c, History(past), dec)
    ensures Agrees(c.Register(id), History(past + [InvokeClients.Register(id)]), dec)
    ensures Agrees(c.Register(id).Delete(id), History(past + [InvokeClients.Register(id), InvokeClients.Delete(id)]), dec)
  {
    var h := History(past);
    RegisterAgrees(c, h, id, dec);
    DeleteAgrees(c.Register(id), Extended(h, InvokeClients.Register(id)), id, dec);
    OneStepMore(past, InvokeClients.Register(id));
    TwoStepsMore(past, InvokeClients.Register(id), InvokeClients.Delete(id));
  }

  lemma CompletionFollows(r: Registry, past: seq<InvokeClients.Step>, id: Id, result: Option<Raw>, error: string, timely: bool, dec: Decoder)
    requires Agrees(r.calls, History(past), dec)
    ensures var a := if id in r.streams.up && error == "" then InvokeClients.Delete(id) else InvokeClients.Complete(id, result, error);
            Agrees(HandleCompletion(r, id, result, error, timely, dec).0.calls, History(past + [a]), dec)
  {
    DeleteAgrees(r.calls, History(past), id, dec);
    CompleteAgrees(r.calls, History(past), id, result, error, dec);
    OneStepMore(past, InvokeClients.Delete(id));
    OneStepMore(past, InvokeClients.Complete(id, result, error));
    CompletedCalls(r, id, result, error, timely, dec);
  }

  lemma CompletedCalls(r: Registry, id: Id, result: Option<Raw>, error: string, timely: bool, dec: Decoder)
    ensures HandleCompletion(r, id, result, error, timely, dec).0.calls
            == if id in r.streams.up && error == "" then r.calls.Delete(id) else r.calls.Complete(id, result, error, dec).0
  {
    var c := r.calls.Complete(id, result, error, dec).0;
    assert c.Delete(id) == c;
  }

  lemma NextFollows(l: Loop, past: seq<InvokeClients.Step>, step: StreamClients.Step, dec: Decoder)
    requires Agrees(l.reg.calls, History(past), dec)
    ensures Agrees(StreamClients.Next(l, step, dec).reg.calls, History(past + CallSteps(l, step)), dec)
  {
    match step
    case Pull(id, _, _) => RegisterFollows(l.reg.calls, past, id, dec);
    case Call(id, _) => RegisterFollows(l.reg.calls, past, id, dec);
    case Upload(_, _) => assert past + [] == past;
    case Item(_, _, _) => assert past + [] == past;
    case Complete(id, result, error, timely) => CompletionFollows(l.reg, past, id, result, error, timely, dec);
  }

  /** In every run of the loop the table of calls refines the history of the steps that concern it. */
  lemma {:induction false} LoopCallsFollow(ls: seq<Loop>, steps: seq<StreamClients.Step>, n: nat, dec: Decoder)
    requires StreamClients.IsRun(ls, steps, dec) && n <= |steps|
    ensures Agrees(ls[n].reg.calls, History(CallStepsOf(ls, steps, n)), dec)
  {
    if n > 0 {
      LoopCallsFollow(ls, steps, n - 1, dec);
      NextFollows(ls[n - 1], CallStepsOf(ls, steps, n - 1), steps[n - 1], dec);
    }
  }

  predicate Decided(f: Fate) { !f.Waiting? && !f.Leaving? }

  lemma {:induction false} DecidedStays(past: seq<InvokeClients.Step>, more: seq<InvokeClients.Step>, i: nat)
    requires i < |History(past)| && Decided(History(past)[i].fate)
    ensures i < |History(past + more)| && History(past + more)[i] == History(past)[i]
    decreases |more|
  {
    if more == [] {
      assert past + more == past;
    } else {
      var init := more[..|more| - 1];
      DecidedStays(past, init, i);
      assert past + more == past + init + [more[|more| - 1]];
      OneStepMore(past + init, more[|more| - 1]);
    }
  }

  lemma {:induction false} CallStepsGrow(ls: seq<Loop>, steps: seq<StreamClients.Step>, k: nat, n: nat)
    requires |ls| == |steps| + 1 && k <= n <= |steps|
    ensures CallStepsOf(ls, steps, k) <= CallStepsOf(ls, steps, n)
  {
    if k < n {
      CallStepsGrow(ls, steps, k, n - 1);
      PrefixOfMore(CallStepsOf(ls, steps, k), CallStepsOf(ls, steps, n - 1), CallSteps(ls[n - 1], steps[n - 1]));
    }
  }

  lemma PrefixOfMore(a: seq<InvokeClients.Step>, b: seq<InvokeClients.Step>, more: seq<InvokeClients.Step>)
    requires a <= b
    ensures a <= b + more
  {
  }

  /** Whoever waits for an ordinary call gets what its completion brought, and this stays so: the
      channels carry its value and error and are closed, and under every uncancelled schedule the
      merge hands out exactly these. */
  lemma AnsweredCallerGets(ls: seq<Loop>, steps: seq<StreamClients.Step>, k: nat, n: nat, dec: Decoder, picks: seq<Pick>)
    requires StreamClients.IsRun(ls, steps, dec) && k < n <= |steps| && steps[k].Complete?
    requires steps[k].id in ls[k].reg.calls.open && (steps[k].id in ls[k].reg.streams.up ==> steps[k].error != "")
    ensures var id, result, error := steps[k].id, steps[k].result, steps[k].error;
            var i := ls[k].reg.calls.open[id];
            && i < |ls[n].reg.calls.cells|
            && var p := ls[n].reg.calls.cells[i];
               && p.Closed() && Holds(p, ValueOf(result, error, dec), ErrorOf(result, error, dec))
               && var m := Rounds(InvokeResults.Start(p.result.sent, p.err.sent), picks);
                  m.closed && Cancelled !in picks ==>
                    Values(m.out) == ValueOf(result, error, dec) && Errors(m.out) == ErrorOf(result, error, dec)
  {
    var id, result, error := steps[k].id, steps[k].result, steps[k].error;
    var i := ls[k].reg.calls.open[id];
    StaysAnswered(ls, steps, k, n, i, dec);
    var p := ls[n].reg.calls.cells[i];
    MergeInterleaves(p.result.sent, p.err.sent, picks);
  }

  lemma StaysAnswered(ls: seq<Loop>, steps: seq<StreamClients.Step>, k: nat, n: nat, i: nat, dec: Decoder)
    requires StreamClients.IsRun(ls, steps, dec) && k < n <= |steps| && steps[k].Complete?
    requires steps[k].id in ls[k].reg.calls.open && (steps[k].id in ls[k].reg.streams.up ==> steps[k].error != "")
    requires i == ls[k].reg.calls.open[steps[k].id]
    ensures i < |ls[n].reg.calls.cells| && Carries(ls[n].reg.calls.cells[i], Answered(steps[k].result, steps[k].error), dec)
  {
    var id, result, error := steps[k].id, steps[k].result, steps[k].error;
    LoopCallsFollow(ls, steps, k, dec);
    LoopCallsFollow(ls, steps, n, dec);
    var before, past, now := CallStepsOf(ls, steps, k), CallStepsOf(ls, steps, k + 1), CallStepsOf(ls, steps, n);
    JustAnswered(ls[k].reg.calls, before, id, result, error, dec);
    assert past == before + [InvokeClients.Complete(id, result, error)];
    CallStepsGrow(ls, steps, k + 1, n);
    StaysDecided(past, now, i);
  }

  lemma JustAnswered(c: CallTable, past: seq<InvokeClients.Step>, id: Id, result: Option<Raw>, error: string, dec: Decoder)
    requires Agrees(c, History(past), dec) && id in c.open
    ensures var h := History(past + [InvokeClients.Complete(id, result, error)]);
            c.open[id] < |h| && h[c.open[id]] == Placed(id, Answered(result, error))
  {
    OneStepMore(past, InvokeClients.Complete(id, result, error));
  }

  lemma StaysDecided(past: seq<InvokeClients.Step>, now: seq<InvokeClients.Step>, i: nat)
    requires past <= now && i < |History(past)| && Decided(History(past)[i].fate)
    ensures i < |History(now)| && History(now)[i] == History(past)[i]
  {
    assert now == past + now[|past|..];
    DecidedStays(past, now[|past|..], i);
  }

  /* ---- pulled streams ---- */

  /** What came for a pulled stream: the items handed over, whether there was any item message,
      whether it is over, and the error that ended it, if one did. */
  datatype Pulled = Pulled(items: seq<Value>, started: bool, over: bool, error: string)

  function Taken(v: Raw, timely: bool, dec: Decoder): seq<Value> {
    if timely && dec(v).Some? then [dec(v).value] else []
  }

  /** How a message about the stream adds to it; a result counts as an item if it is the only one. */
  function Told(p: Pulled, step: StreamClients.Step, dec: Decoder): Pulled {
    if p.over then p
    else match step
      case Item(_, item, timely) => p.(items := p.items + Taken(item, timely, dec), started := true)
      case Complete(_, result, error, timely) =>
        var last := if error == "" && result.Some? && !p.started then Taken(result.value, timely, dec) else [];
        p.(items := p.items + last, over := true, error := error)
      case _ => p
  }

  /** The history of the stream `id` since it was pulled. */
  function Story(steps: seq<StreamClients.Step>, id: Id, dec: Decoder): Pulled {
    if steps == [] then Pulled([], false, true, "")
    else
      var p, step := Story(steps[..|steps| - 1], id, dec), steps[|steps| - 1];
      if step.id != id then p
      else if step.Pull? then Pulled([], false, !step.sent, "")
      else Told(p, step, dec)
  }

  lemma StoryStep(steps: seq<StreamClients.Step>, n: nat, id: Id, dec: Decoder)
    requires 0 < n <= |steps|
    ensures var p, step := Story(steps[..n - 1], id, dec), steps[n - 1];
            Story(steps[..n], id, dec)
            == if step.id != id then p else if step.Pull? then Pulled([], false, !step.sent, "") else Told(p, step, dec)
  {
    assert steps[..n][..n - 1] == steps[..n - 1];
  }

  function ErrorsOf(p: Pulled): seq<Option<string>> { if p.error != "" then [Some(p.error)] else [] }

  /** Both registries against the story of a pulled stream. */
  ghost predicate Follows(l: Loop, id: Id, p: Pulled)
    requires id in l.pulled
  {
    var Slots(u, c) := l.pulled[id];
    && u < |l.reg.streams.cells| && c < |l.reg.calls.cells|
    && l.reg.streams.cells[u].sent == p.items
    && Holds(l.reg.calls.cells[c], [], ErrorsOf(p))
    && (id in l.reg.streams.up <==> !p.over)
    && (!p.over ==> p.error == "" && (id in l.reg.streams.running <==> p.started))
  }

  ghost predicate RunningOk(s: StreamTable) { forall id <- s.running :: id in s.up }

  lemma NextKeepsRunning(l: Loop, step: StreamClients.Step, dec: Decoder)
    requires RunningOk(l.reg.streams) && StreamClients.Enabled(l, step)
    ensures RunningOk(StreamClients.Next(l, step, dec).reg.streams)
    ensures forall id | id != step.id :: id in StreamClients.Next(l, step, dec).reg.streams.running <==> id in l.reg.streams.running
  {
  }

  /** A step about another id leaves the channels of a pulled stream alone. */
  lemma OtherFollows(l: Loop, step: StreamClients.Step, id: Id, p: Pulled, dec: Decoder)
    requires LoopInv(l) && RunningOk(l.reg.streams) && StreamClients.Enabled(l, step)
    requires id in l.pulled && step.id != id && Follows(l, id, p)
    ensures var l' := StreamClients.Next(l, step, dec); id in l'.pulled && Follows(l', id, p)
  {
    var l' := StreamClients.Next(l, step, dec);
    StepFrames(l, step, dec);
    NextKeepsRunning(l, step, dec);
    SlotsKept(l, l', step.id, id);
  }

  lemma SlotsKept(l: Loop, l': Loop, other: Id, id: Id)
    requires LoopInv(l) && id in l.pulled && other != id
    requires StreamFrame(l.reg.streams, l'.reg.streams, other) && CallFrame(l.reg.calls, l'.reg.calls, other)
    ensures var Slots(u, c) := l.pulled[id];
            && u < |l.reg.streams.cells| <= |l'.reg.streams.cells| && l'.reg.streams.cells[u] == l.reg.streams.cells[u]
            && c < |l.reg.calls.cells| <= |l'.reg.calls.cells| && l'.reg.calls.cells[c] == l.reg.calls.cells[c]
            && (id in l'.reg.streams.up <==> id in l.reg.streams.up)
  {
    assert PulledOk(l, id);
    var Slots(u, c) := l.pulled[id];
    StreamSlotKept(l.reg.streams, l'.reg.streams, other, id, u);
    CallSlotKept(l.reg.calls, l'.reg.calls, other, id, c);
  }

  lemma StreamSlotKept(s: StreamTable, t: StreamTable, other: Id, id: Id, u: nat)
    requires StreamsOk(s) && StreamFrame(s, t, other) && other != id && u < |s.cells|
    requires if id in s.up then s.up[id] == u else s.cells[u].closes == 1
    ensures u < |t.cells| && t.cells[u] == s.cells[u] && (id in t.up <==> id in s.up)
  {
    assert id in s.up <==> id in s.up - {other};
    assert id in t.up <==> id in t.up - {other};
    assert other in s.up ==> s.cells[s.up[other]].closes == 0 && s.up[other] != u;
  }

  lemma CallSlotKept(s: CallTable, t: CallTable, other: Id, id: Id, c: nat)
    requires CallsOk(s) && CallFrame(s, t, other) && other != id && c < |s.cells|
    requires if id in s.open then s.open[id] == c else s.cells[c].Closed()
    ensures c < |t.cells| && t.cells[c] == s.cells[c]
  {
    var lost :| Inv(s, lost);
    assert other in s.open ==> CellOk(s, lost, s.open[other]) && s.open[other] != c;
  }

  lemma PullFollows(l: Loop, id: Id, cap: nat, sent: bool, dec: Decoder)
    requires LoopInv(l) && RunningOk(l.reg.streams) && StreamClients.Enabled(l, StreamClients.Pull(id, cap, sent))
    ensures Follows(StreamClients.Next(l, StreamClients.Pull(id, cap, sent), dec), id, Pulled([], false, !sent, ""))
  {
  }

  lemma ItemFollows(l: Loop, id: Id, item: Raw, timely: bool, p: Pulled, dec: Decoder)
    requires LoopInv(l) && id in l.pulled && Follows(l, id, p)
    ensures var step := StreamClients.Item(id, item, timely);
            Follows(StreamClients.Next(l, step, dec), id, Told(p, step, dec))
  {
    assert PulledOk(l, id);
    assert p.items + [] == p.items;
  }

  lemma EndFollows(l: Loop, id: Id, result: Option<Raw>, error: string, timely: bool, p: Pulled, dec: Decoder)
    requires LoopInv(l) && id in l.pulled && Follows(l, id, p)
    ensures var step := StreamClients.Complete(id, result, error, timely);
            Follows(StreamClients.Next(l, step, dec), id, Told(p, step, dec))
  {
    assert PulledOk(l, id);
    var Slots(u, c) := l.pulled[id];
    CallEnds(l.reg, id, c, result, error, timely, dec);
    StreamEnds(l.reg, id, u, result, error, timely, dec);
    assert p.items + [] == p.items;
  }

  /** The call beside a stream after a completion. */
  lemma CallEnds(r: Registry, id: Id, c: nat, result: Option<Raw>, error: string, timely: bool, dec: Decoder)
    requires CallsOk(r.calls) && c < |r.calls.cells|
    requires if id in r.streams.up then id in r.calls.open && r.calls.open[id] == c else id !in r.calls.open
    ensures var calls := HandleCompletion(r, id, result, error, timely, dec).0.calls;
            && c < |calls.cells|
            && if id in r.streams.up then Holds(calls.cells[c], [], if error != "" then [Some(error)] else [])
               else calls.cells[c] == r.calls.cells[c]
  {
    var lost :| Inv(r.calls, lost);
    assert CellOk(r.calls, lost, c);
    CompletedCalls(r, id, result, error, timely, dec);
  }

  /** The stream after a completion. */
  lemma StreamEnds(r: Registry, id: Id, u: nat, result: Option<Raw>, error: string, timely: bool, dec: Decoder)
    requires StreamsOk(r.streams) && u < |r.streams.cells| && (id in r.streams.up ==> r.streams.up[id] == u)
    ensures var s, t := r.streams, HandleCompletion(r, id, result, error, timely, dec).0.streams;
            && id !in t.up && u < |t.cells|
            && t.cells[u].sent == s.cells[u].sent +
                                  if id in s.up && error == "" && result.Some? && id !in s.running
                                  then Taken(result.value, timely, dec) else []
  {
    assert r.streams.cells[u].sent + [] == r.streams.cells[u].sent;
  }

  lemma NextTells(l: Loop, step: StreamClients.Step, id: Id, p: Pulled, dec: Decoder)
    requires LoopInv(l) && RunningOk(l.reg.streams) && StreamClients.Enabled(l, step)
    requires id in l.pulled && Follows(l, id, p)
    ensures var l' := StreamClients.Next(l, step, dec);
            id in l'.pulled && Follows(l', id, if step.id == id then Told(p, step, dec) else p)
  {
    if step.id != id {
      OtherFollows(l, step, id, p, dec);
    } else {
      match step
      case Item(_, item, timely) => ItemFollows(l, id, item, timely, p, dec);
      case Complete(_, result, error, timely) => EndFollows(l, id, result, error, timely, p, dec);
    }
  }

  lemma {:induction false} RunTells(ls: seq<Loop>, steps: seq<StreamClients.Step>, n: nat, dec: Decoder)
    requires StreamClients.IsRun(ls, steps, dec) && n <= |steps|
    ensures RunningOk(ls[n].reg.streams)
    ensures forall id <- ls[n].pulled :: Follows(ls[n], id, Story(steps[..n], id, dec))
  {
    if n > 0 {
      var l, step := ls[n - 1], steps[n - 1];
      RunTells(ls, steps, n - 1, dec);
      StreamClients.RunKeepsInv(ls, steps, n - 1, dec);
      NextKeepsRunning(l, step, dec);
      forall id <- ls[n].pulled ensures Follows(ls[n], id, Story(steps[..n], id, dec)) {
        StoryStep(steps, n, id, dec);
        if step.Pull? && step.id == id {
          PullFollows(l, id, step.cap, step.sent, dec);
        } else {
          NextTells(l, step, id, Story(steps[..n - 1], id, dec), dec);
        }
      }
    }
  }

  /** In every run a pulled stream's channel holds the items that came for it, in order, and its call
      channels hold the error that ended it, or nothing.  All are open until it is over. */
  lemma PulledStreamCarries(ls: seq<Loop>, steps: seq<StreamClients.Step>, n: nat, id: Id, dec: Decoder)
    requires StreamClients.IsRun(ls, steps, dec) && n <= |steps| && id in ls[n].pulled
    ensures var p := Story(steps[..n], id, dec);
            var Slots(u, c) := ls[n].pulled[id];
            && u < |ls[n].reg.streams.cells| && c < |ls[n].reg.calls.cells|
            && var stream, call := ls[n].reg.streams.cells[u], ls[n].reg.calls.cells[c];
               && stream.sent == p.items && call.result.sent == [] && call.err.sent == ErrorsOf(p)
               && (stream.closes == 1 <==> p.over) && (call.Closed() <==> p.over)
  {
    RunTells(ls, steps, n, dec);
    RegistriesAgree(ls, steps, n, id, dec);
  }

  /** An error completion of an outstanding pulled stream reaches its caller: the error, and only it,
      is on the error channel from then on, and the items stay as they were. */
  lemma ErrorReachesCaller(ls: seq<Loop>, steps: seq<StreamClients.Step>, k: nat, n: nat, dec: Decoder)
    requires StreamClients.IsRun(ls, steps, dec) && k < n <= |steps| && steps[k].Complete? && steps[k].error != ""
    requires steps[k].id in ls[k].pulled && steps[k].id in ls[k].reg.streams.up
    ensures var id := steps[k].id;
            && id in ls[n].pulled && ls[n].pulled[id] == ls[k].pulled[id]
            && var Slots(u, c) := ls[k].pulled[id];
               && u < |ls[k].reg.streams.cells| && u < |ls[n].reg.streams.cells| && c < |ls[n].reg.calls.cells|
               && ls[n].reg.calls.cells[c].err.sent == [Some(steps[k].error)]
               && ls[n].reg.calls.cells[c].result.sent == [] && ls[n].reg.calls.cells[c].Closed()
               && ls[n].reg.streams.cells[u].sent == ls[k].reg.streams.cells[u].sent
  {
    var id := steps[k].id;
    StaysPulled(ls, steps, k, n, id, dec);
    PulledStreamCarries(ls, steps, k, id, dec);
    PulledStreamCarries(ls, steps, n, id, dec);
    RegistriesAgree(ls, steps, k, id, dec);
    forall j | k < j < n ensures !steps[j].Pull? || steps[j].id != id {
      StaysPulled(ls, steps, k, j, id, dec);
      assert StreamClients.Enabled(ls[j], steps[j]);
    }
    OverStays(steps, k, n, id, dec);
  }

  lemma {:induction false} StaysPulled(ls: seq<Loop>, steps: seq<StreamClients.Step>, k: nat, n: nat, id: Id, dec: Decoder)
    requires StreamClients.IsRun(ls, steps, dec) && k <= n <= |steps| && id in ls[k].pulled
    ensures id in ls[n].pulled && ls[n].pulled[id] == ls[k].pulled[id]
  {
    if k < n { StaysPulled(ls, steps, k, n - 1, id, dec); }
  }

  /** A stream that is over keeps its story. */
  lemma {:induction false} OverStays(steps: seq<StreamClients.Step>, k: nat, n: nat, id: Id, dec: Decoder)
    requires k < n <= |steps| && steps[k].Complete? && steps[k].id == id
    requires forall j | k < j < n :: !steps[j].Pull? || steps[j].id != id
    ensures Story(steps[..n], id, dec) == Told(Story(steps[..k], id, dec), steps[k], dec)
  {
    StoryStep(steps, n, id, dec);
    if n > k + 1 {
      OverStays(steps, k, n - 1, id, dec);
    }
  }

  /** What the caller of PullStream gets once its stream is over, whatever the schedule of the merge:
      the items in order, and an error if and only if an error completion ended the stream. */
  lemma PulledCallerGets(ls: seq<Loop>, steps: seq<StreamClients.Step>, n: nat, id: Id, dec: Decoder, picks: seq<Pick>)
    requires StreamClients.IsRun(ls, steps, dec) && n <= |steps| && id in ls[n].pulled && Cancelled !in picks
    ensures var p := Story(steps[..n], id, dec);
            var Slots(u, c) := ls[n].pulled[id];
            && u < |ls[n].reg.streams.cells| && c < |ls[n].reg.calls.cells|
            && var m := Rounds(InvokeResults.Start(ls[n].reg.streams.cells[u].sent, ls[n].reg.calls.cells[c].err.sent), picks);
               m.closed ==>
                 && Values(m.out) == p.items && Errors(m.out) == ErrorsOf(p)
                 && ((exists e :: ErrorResult(e) in m.out) <==> p.error != "")
  {
    PulledStreamCarries(ls, steps, n, id, dec);
    var Slots(u, c) := ls[n].pulled[id];
    var items, errs := ls[n].reg.streams.cells[u].sent, ls[n].reg.calls.cells[c].err.sent;
    MergeInterleaves(items, errs, picks);
    ErrorsSeen(Rounds(InvokeResults.Start(items, errs), picks).out);
  }

  lemma {:induction false} ErrorsSeen(out: seq<InvokeResult>)
    ensures Errors(out) != [] <==> exists e :: ErrorResult(e) in out
  {
    if out != [] {
      var init, r := out[..|out| - 1], out[|out| - 1];
      ErrorsSeen(init);
      assert out == init + [r];
      if r.ErrorResult? { assert ErrorResult(r.error) in out; }
    }
  }
}
