/** streamClient.receiveCompletionItem step by step: the table is locked for the lookup, for a result
    that is handled like an item, and for the deletion, but not while the channel is closed
    (streamclient.go).  Callers may register streams and, when their own send failed, delete them at
    any moment in between (loop.go, PullStream). */
module StreamRaces {
  import opened Wrappers
  import opened Messages
  import opened Channels
  import opened InvokeClients
  import opened StreamClients

  /** What the loop holds: nothing, the channel it looked up, or the channel it has closed. */
  datatype Hand = Idle | Found(id: Id, handle: nat) | Closed(id: Id, handle: nat)

  datatype Fine = Fine(streams: Streams, hand: Hand) {
    predicate InRange() { streams.InRange() && (!hand.Idle? ==> hand.handle < |streams.cells|) }
  }

  const AtRest := Fine(NoStreams, Idle)

  type FineState = f: Fine | f.InRange() witness AtRest

  datatype Step =
    | Lookup(id: Id)
    | Item(id: Id, item: Raw, timely: bool)
    | CloseHeld
    | Forget
    | Open(id: Id, cap: nat)
    | Delete(id: Id)

  predicate Held(f: FineState, id: Id) { !f.hand.Idle? && f.hand.id == id }

  /** One goroutine handles items and completions; an id is registered once at a time. */
  predicate Enabled(f: FineState, step: Step) {
    match step
    case Lookup(_) => f.hand.Idle?
    case Item(id, _, _) => f.hand.Idle? || (f.hand.Found? && f.hand.id == id)
    case CloseHeld => f.hand.Found?
    case Forget => f.hand.Closed?
    case Open(id, _) => id !in f.streams.up && !Held(f, id)
    case Delete(_) => true
  }

  function Next(f: FineState, step: Step, dec: Decoder): FineState
    requires Enabled(f, step)
  {
    var s := f.streams;
    match step
    case Lookup(id) => if id in s.up then f.(hand := Found(id, s.up[id])) else f
    case Item(id, item, timely) => f.(streams := s.ReceiveItem(id, item, timely, dec).0)
    case CloseHeld =>
      var Found(id, h) := f.hand;
      Fine(s.(cells := s.cells[h := s.cells[h].Close()]), Closed(id, h))
    case Forget => Fine(s.(up := s.up - {f.hand.id}, running := s.running - {f.hand.id}), Idle)
    case Open(id, cap) => f.(streams := s.Open(id, cap))
    case Delete(id) => f.(streams := s.Remove(id))
  }

  /** A caller deletes, and so closes, the stream whose completion is being handled: before the
      completion closes the channel, or after. */
  predicate EarlyDelete(f: FineState, step: Step) {
    step.Delete? && step.id in f.streams.up && f.hand.Found? && f.hand.id == step.id
  }

  predicate LateDelete(f: FineState, step: Step) {
    step.Delete? && step.id in f.streams.up && f.hand.Closed? && f.hand.id == step.id
  }

  ghost predicate Panicked(f: FineState) { exists i :: 0 <= i < |f.streams.cells| && f.streams.cells[i].faults > 0 }

  /** Registered channels are open, except the one that was closed and not yet forgotten. */
  ghost predicate Tidy(f: FineState) {
    && Injective(f.streams.up) && !Panicked(f)
    && forall id <- f.streams.up ::
         f.streams.cells[f.streams.up[id]].closes == if f.hand.Closed? && f.hand.id == id then 1 else 0
  }

  ghost predicate FineOk(f: FineState) {
    Tidy(f) && (!f.hand.Idle? ==> f.hand.id in f.streams.up && f.streams.up[f.hand.id] == f.hand.handle)
  }

  /** After an early deletion: the held channel is closed already, and about to be closed again. */
  ghost predicate Doomed(f: FineState) {
    && Tidy(f) && f.hand.Found? && f.hand.id !in f.streams.up
    && f.hand.handle !in f.streams.up.Values && f.streams.cells[f.hand.handle].closes > 0
  }

  lemma NoFaults(f: FineState, f': FineState)
    requires !Panicked(f) && |f.streams.cells| <= |f'.streams.cells|
    requires forall i | 0 <= i < |f'.streams.cells| ::
               f'.streams.cells[i].faults == if i < |f.streams.cells| then f.streams.cells[i].faults else 0
    ensures !Panicked(f')
  {
  }

  lemma ItemKeepsTidy(f: FineState, step: Step, dec: Decoder)
    requires Tidy(f) && Enabled(f, step) && step.Item?
    ensures Tidy(Next(f, step, dec)) && Next(f, step, dec).streams.up == f.streams.up
    ensures |Next(f, step, dec).streams.cells| == |f.streams.cells|
    ensures forall i | 0 <= i < |f.streams.cells| :: Next(f, step, dec).streams.cells[i].closes == f.streams.cells[i].closes
  {
    NoFaults(f, Next(f, step, dec));
  }

  lemma OpenKeepsTidy(f: FineState, step: Step, dec: Decoder)
    requires Tidy(f) && Enabled(f, step) && step.Open?
    ensures Tidy(Next(f, step, dec))
  {
    NoFaults(f, Next(f, step, dec));
  }

  lemma DeleteKeepsTidy(f: FineState, step: Step, dec: Decoder)
    requires Tidy(f) && step.Delete? && !LateDelete(f, step)
    ensures Tidy(Next(f, step, dec))
  {
    NoFaults(f, Next(f, step, dec));
  }

  lemma NextKeepsFine(f: FineState, step: Step, dec: Decoder)
    requires FineOk(f) && Enabled(f, step) && !EarlyDelete(f, step) && !LateDelete(f, step)
    ensures FineOk(Next(f, step, dec))
  {
    match step
    case Lookup(_) => NoFaults(f, Next(f, step, dec));
    case Item(_, _, _) => ItemKeepsTidy(f, step, dec);
    case CloseHeld => NoFaults(f, Next(f, step, dec));
    case Forget => NoFaults(f, Next(f, step, dec));
    case Open(_, _) => OpenKeepsTidy(f, step, dec);
    case Delete(_) => DeleteKeepsTidy(f, step, dec);
  }

  lemma EarlyDeleteDooms(f: FineState, step: Step, dec: Decoder)
    requires FineOk(f) && EarlyDelete(f, step)
    ensures Doomed(Next(f, step, dec))
  {
    DeleteKeepsTidy(f, step, dec);
  }

  lemma LateDeletePanics(f: FineState, step: Step, dec: Decoder)
    requires FineOk(f) && LateDelete(f, step)
    ensures Panicked(Next(f, step, dec))
  {
    assert Next(f, step, dec).streams.cells[f.hand.handle].faults > 0;
  }

  lemma DoomLasts(f: FineState, step: Step, dec: Decoder)
    requires Doomed(f) && Enabled(f, step) && step != CloseHeld
    ensures Doomed(Next(f, step, dec))
  {
    match step
    case Item(_, _, _) => ItemKeepsTidy(f, step, dec);
    case Open(_, _) => OpenKeepsTidy(f, step, dec);
    case Delete(_) => DeleteKeepsTidy(f, step, dec);
  }

  lemma DoomedClosePanics(f: FineState, dec: Decoder)
    requires Doomed(f)
    ensures Panicked(Next(f, CloseHeld, dec))
  {
    assert Next(f, CloseHeld, dec).streams.cells[f.hand.handle].faults > 0;
  }

  lemma PanicLasts(f: FineState, step: Step, dec: Decoder)
    requires Panicked(f) && Enabled(f, step)
    ensures Panicked(Next(f, step, dec))
  {
    var i :| 0 <= i < |f.streams.cells| && f.streams.cells[i].faults > 0;
    assert Next(f, step, dec).streams.cells[i].faults > 0;
  }

  ghost predicate MovesAt(fs: seq<FineState>, steps: seq<Step>, k: nat, dec: Decoder)
    requires |fs| == |steps| + 1 && k < |steps|
  {
    Enabled(fs[k], steps[k]) && fs[k + 1] == Next(fs[k], steps[k], dec)
  }

  ghost predicate IsRun(fs: seq<FineState>, steps: seq<Step>, dec: Decoder) {
    |fs| == |steps| + 1 && fs[0] == AtRest && forall k | 0 <= k < |steps| :: MovesAt(fs, steps, k, dec)
  }

  ghost predicate EarlyBefore(fs: seq<FineState>, steps: seq<Step>, n: nat)
    requires |fs| == |steps| + 1 && n <= |steps|
  {
    exists k :: 0 <= k < n && EarlyDelete(fs[k], steps[k])
  }

  /** The channel was closed a second time: by a late deletion, or behind an early one. */
  ghost predicate ClosedTwice(fs: seq<FineState>, steps: seq<Step>, n: nat)
    requires |fs| == |steps| + 1 && n <= |steps|
  {
    || (exists k :: 0 <= k < n && LateDelete(fs[k], steps[k]))
    || (exists m :: 0 <= m < n && steps[m] == CloseHeld && EarlyBefore(fs, steps, m))
  }

  lemma HistoryGrows(fs: seq<FineState>, steps: seq<Step>, n: nat)
    requires |fs| == |steps| + 1 && n < |steps|
    ensures EarlyBefore(fs, steps, n + 1) <==> EarlyBefore(fs, steps, n) || EarlyDelete(fs[n], steps[n])
    ensures ClosedTwice(fs, steps, n + 1)
            <==> || ClosedTwice(fs, steps, n) || LateDelete(fs[n], steps[n])
                 || (steps[n] == CloseHeld && EarlyBefore(fs, steps, n))
  {
  }

  /** What an early deletion, and a second close, leave behind. */
  ghost predicate Splits(f: FineState, early: bool, twice: bool) {
    if twice then Panicked(f) else if early then Doomed(f) else FineOk(f)
  }

  lemma NextSplits(f: FineState, step: Step, early: bool, twice: bool, dec: Decoder)
    requires Splits(f, early, twice) && Enabled(f, step)
    ensures Splits(Next(f, step, dec), early || EarlyDelete(f, step),
                   twice || LateDelete(f, step) || (step == CloseHeld && early))
  {
    if twice {
      PanicLasts(f, step, dec);
    } else if early {
      if step == CloseHeld { DoomedClosePanics(f, dec); } else { DoomLasts(f, step, dec); }
    } else if EarlyDelete(f, step) {
      EarlyDeleteDooms(f, step, dec);
    } else if LateDelete(f, step) {
      LateDeletePanics(f, step, dec);
    } else {
      NextKeepsFine(f, step, dec);
    }
  }

  lemma {:induction false} RunSplits(fs: seq<FineState>, steps: seq<Step>, n: nat, dec: Decoder)
    requires IsRun(fs, steps, dec) && n <= |steps|
    ensures Splits(fs[n], EarlyBefore(fs, steps, n), ClosedTwice(fs, steps, n))
  {
    if n > 0 {
      RunSplits(fs, steps, n - 1, dec);
      assert MovesAt(fs, steps, n - 1, dec);
      HistoryGrows(fs, steps, n - 1);
      NextSplits(fs[n - 1], steps[n - 1], EarlyBefore(fs, steps, n - 1), ClosedTwice(fs, steps, n - 1), dec);
    }
  }

  /** Exactly when a stream channel is closed twice, over every interleaving: some channel has
      panicked if and only if a caller deleted a stream after the handling of its completion had
      closed the channel and before it forgot it, or deleted it after the lookup and the handling of
      the completion went on to close the channel. */
  lemma PanicsIffClosedTwice(fs: seq<FineState>, steps: seq<Step>, n: nat, dec: Decoder)
    requires IsRun(fs, steps, dec) && n <= |steps|
    ensures Panicked(fs[n]) <==>
            || (exists k :: 0 <= k < n && LateDelete(fs[k], steps[k]))
            || (exists k, m :: 0 <= k < m < n && EarlyDelete(fs[k], steps[k]) && steps[m] == CloseHeld)
  {
    RunSplits(fs, steps, n, dec);
    if m :| 0 <= m < n && steps[m] == CloseHeld && EarlyBefore(fs, steps, m) {
      var k :| 0 <= k < m && EarlyDelete(fs[k], steps[k]);
    }
    if k, m :| 0 <= k < m < n && EarlyDelete(fs[k], steps[k]) && steps[m] == CloseHeld {
      assert EarlyBefore(fs, steps, m);
    }
  }

  /** The handling of a completion that nothing interrupts is the completion of the registry. */
  lemma UninterruptedIsCompletion(f: FineState, r: Registry, id: Id, result: Option<Raw>, error: string, timely: bool, dec: Decoder)
    requires f.hand.Idle? && f.streams == r.streams && id in r.streams.up
    ensures var f1 := Next(f, Lookup(id), dec);
            var f2 := if error == "" && result.Some? && id !in r.streams.running then Next(f1, Step.Item(id, result.value, timely), dec) else f1;
            Next(Next(f2, CloseHeld, dec), Forget, dec) == Fine(HandleCompletion(r, id, result, error, timely, dec).0.streams, Idle)
  {
  }
}
