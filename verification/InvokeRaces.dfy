/** invokeClient.receiveCompletionItem step by step: the table is locked only for the lookup and
    for the deletion, not while the answer is sent (invokeclient.go).  Callers may register calls
    and, when their own send failed, delete them at any moment in between. */
module InvokeRaces {
  import opened Wrappers
  import opened Messages
  import opened Channels
  import opened InvokeClients
  import CallHistories

  datatype Put = PutResult(v: Value) | PutError(e: Option<string>)

  /** What the loop holds after the lookup: the channels it found and what it still has to send. */
  datatype Hand = Idle | Holding(id: Id, handle: nat, todo: seq<Put>)

  datatype Fine = Fine(calls: CallTable, hand: Hand) {
    predicate InRange() { hand.Holding? ==> hand.handle < |calls.cells| }
  }

  const Quiet := Fine(NoCalls, Idle)

  type FineState = f: Fine | f.InRange() witness Quiet

  function Puts(result: Option<Raw>, error: string, dec: Decoder): seq<Put> {
    if error != "" then [PutError(Some(error))]
    else if result.None? || dec(result.value).None? then []
    else [PutResult(dec(result.value).value), PutError(None)]
  }

  datatype Step =
    | Lookup(id: Id, result: Option<Raw>, error: string)
    | Send
    | Finish
    | Register(id: Id)
    | Delete(id: Id)

  predicate Enabled(f: FineState, step: Step) {
    match step
    case Lookup(_, _, _) => f.hand.Idle?
    case Send => f.hand.Holding? && f.hand.todo != []
    case Finish => f.hand.Holding? && f.hand.todo == []
    case Register(id) => id !in f.calls.open && !(f.hand.Holding? && f.hand.id == id)
    case Delete(_) => true
  }

  function Sent(p: CallChans, put: Put): CallChans {
    match put
    case PutResult(v) => p.(result := p.result.Send(v))
    case PutError(e) => p.(err := p.err.Send(e))
  }

  function Next(f: FineState, step: Step, dec: Decoder): FineState
    requires Enabled(f, step)
  {
    match step
    case Lookup(id, result, error) =>
      if id in f.calls.open then f.(hand := Holding(id, f.calls.open[id], Puts(result, error, dec))) else f
    case Send =>
      var h := f.hand.handle;
      Fine(f.calls.(cells := f.calls.cells[h := Sent(f.calls.cells[h], f.hand.todo[0])]),
           f.hand.(todo := f.hand.todo[1..]))
    case Finish => Fine(f.calls.Delete(f.hand.id), Idle)
    case Register(id) => f.(calls := f.calls.Register(id))
    case Delete(id) => f.(calls := f.calls.Delete(id))
  }

  /** A caller deletes the very call whose answer is being sent. */
  predicate Races(f: FineState, step: Step) {
    step.Delete? && f.hand.Holding? && f.hand.id == step.id && f.hand.todo != []
  }

  /** The held channels: open with room for what is still to be sent, or done with. */
  ghost predicate HeldOk(f: FineState)
    requires f.hand.Holding?
  {
    var Holding(id, h, todo) := f.hand;
    var p := f.calls.cells[h];
    if id in f.calls.open then
      && f.calls.open[id] == h
      && p.Safe() && p.result.closes == 0 && p.err.closes == 0 && p.result.cap == 1 && p.err.cap == 1
      && (todo == []
          || (|todo| == 1 && todo[0].PutError? && p.err.sent == [])
          || (|todo| == 2 && todo[0].PutResult? && todo[1].PutError? && p.result.sent == [] && p.err.sent == []))
    else todo == [] && h !in f.calls.open.Values && p.Safe() && p.Closed()
  }

  ghost predicate CellFine(f: FineState, i: nat)
    requires i < |f.calls.cells|
  {
    var p := f.calls.cells[i];
    if f.hand.Holding? && f.hand.handle == i then HeldOk(f)
    else if i in f.calls.open.Values then p.Fresh()
    else p.Safe() && p.Closed()
  }

  ghost predicate FineOk(f: FineState) {
    && Injective(f.calls.open)
    && (f.hand.Holding? ==> HeldOk(f))
    && forall i | 0 <= i < |f.calls.cells| :: CellFine(f, i)
  }

  lemma DeleteKeepsFine(f: FineState, id: Id, dec: Decoder)
    requires FineOk(f) && !Races(f, Step.Delete(id))
    ensures FineOk(Next(f, Step.Delete(id), dec))
  {
    var f' := Next(f, Step.Delete(id), dec);
    if id in f.calls.open {
      assert CellFine(f, f.calls.open[id]);
      forall i | 0 <= i < |f'.calls.cells| ensures CellFine(f', i) {
        assert CellFine(f, i);
        if i in f.calls.open.Values && i != f.calls.open[id] {
          var a :| a in f.calls.open && f.calls.open[a] == i;
          assert a in f'.calls.open && f'.calls.open[a] == i;
        }
      }
    }
  }

  lemma SendKeepsFine(f: FineState, dec: Decoder)
    requires FineOk(f) && Enabled(f, Send)
    ensures FineOk(Next(f, Send, dec))
  {
    var f' := Next(f, Send, dec);
    assert HeldOk(f');
    forall i | 0 <= i < |f'.calls.cells| ensures CellFine(f', i) { assert CellFine(f, i); }
  }

  lemma RegisterKeepsFine(f: FineState, id: Id, dec: Decoder)
    requires FineOk(f) && Enabled(f, Step.Register(id))
    ensures FineOk(Next(f, Step.Register(id), dec))
  {
    var f' := Next(f, Step.Register(id), dec);
    assert f'.calls.open[id] == |f.calls.cells|;
    forall i | 0 <= i < |f'.calls.cells| ensures CellFine(f', i) {
      if i < |f.calls.cells| {
        assert CellFine(f, i);
        if i in f.calls.open.Values {
          var a :| a in f.calls.open && f.calls.open[a] == i;
          assert a in f'.calls.open && f'.calls.open[a] == i;
        }
      }
    }
  }

  lemma NextKeepsFine(f: FineState, step: Step, dec: Decoder)
    requires FineOk(f) && Enabled(f, step) && !Races(f, step)
    ensures FineOk(Next(f, step, dec))
  {
    var f' := Next(f, step, dec);
    match step
    case Lookup(id, _, _) =>
      if id in f.calls.open {
        assert CellFine(f, f.calls.open[id]);
        forall i | 0 <= i < |f'.calls.cells| ensures CellFine(f', i) { assert CellFine(f, i); }
      }
    case Send => SendKeepsFine(f, dec);
    case Finish =>
      forall i | 0 <= i < |f'.calls.cells| ensures CellFine(f', i) {
        assert CellFine(f, i);
        if i in f.calls.open.Values && i != f.hand.handle {
          var a :| a in f.calls.open && f.calls.open[a] == i;
          assert a == f.hand.id || (a in f'.calls.open && f'.calls.open[a] == i);
        }
      }
    case Register(id) => RegisterKeepsFine(f, id, dec);
    case Delete(id) => DeleteKeepsFine(f, id, dec);
  }

  ghost predicate MovesAt(fs: seq<FineState>, steps: seq<Step>, k: nat, dec: Decoder)
    requires |fs| == |steps| + 1 && k < |steps|
  {
    Enabled(fs[k], steps[k]) && fs[k + 1] == Next(fs[k], steps[k], dec)
  }

  ghost predicate IsRun(fs: seq<FineState>, steps: seq<Step>, dec: Decoder) {
    |fs| == |steps| + 1 && fs[0] == Quiet && forall k | 0 <= k < |steps| :: MovesAt(fs, steps, k, dec)
  }

  lemma {:induction false} RunKeepsFine(fs: seq<FineState>, steps: seq<Step>, n: nat, dec: Decoder)
    requires IsRun(fs, steps, dec) && n <= |steps|
    requires forall k | 0 <= k < n :: !Races(fs[k], steps[k])
    ensures FineOk(fs[n])
  {
    if n > 0 {
      RunKeepsFine(fs, steps, n - 1, dec);
      assert MovesAt(fs, steps, n - 1, dec);
      NextKeepsFine(fs[n - 1], steps[n - 1], dec);
    }
  }

  /** In every interleaving without such a race no channel is closed twice, sent to after closing
      or sent more than its buffer holds. */
  lemma NoRaceNoPanic(fs: seq<FineState>, steps: seq<Step>, n: nat, dec: Decoder)
    requires IsRun(fs, steps, dec) && n <= |steps|
    requires forall k | 0 <= k < n :: !Races(fs[k], steps[k])
    ensures forall i | 0 <= i < |fs[n].calls.cells| :: fs[n].calls.cells[i].Safe()
  {
    RunKeepsFine(fs, steps, n, dec);
    forall i | 0 <= i < |fs[n].calls.cells| ensures fs[n].calls.cells[i].Safe() { assert CellFine(fs[n], i); }
  }

  /** After a race: the held channels are closed and no longer registered, with sends still to come;
      nothing has panicked so far. */
  ghost predicate Doomed(f: FineState) {
    && f.hand.Holding? && f.hand.todo != [] && f.hand.id !in f.calls.open
    && Injective(f.calls.open) && f.hand.handle !in f.calls.open.Values
    && f.calls.cells[f.hand.handle].Closed()
    && (forall id <- f.calls.open ::
          var p := f.calls.cells[f.calls.open[id]]; p.result.closes == 0 && p.err.closes == 0)
    && !Panicked(f)
  }

  ghost predicate Panicked(f: FineState) {
    exists i :: 0 <= i < |f.calls.cells| && Faulty(f.calls.cells[i])
  }

  predicate Faulty(p: CallChans) { p.result.faults > 0 || p.err.faults > 0 }

  lemma FineIsSafe(f: FineState)
    requires FineOk(f)
    ensures !Panicked(f)
    ensures forall id <- f.calls.open ::
              var p := f.calls.cells[f.calls.open[id]]; p.result.closes == 0 && p.err.closes == 0
  {
    forall i | 0 <= i < |f.calls.cells| ensures !Faulty(f.calls.cells[i]) { assert CellFine(f, i); }
    forall id <- f.calls.open
      ensures var p := f.calls.cells[f.calls.open[id]]; p.result.closes == 0 && p.err.closes == 0
    {
      assert CellFine(f, f.calls.open[id]);
    }
  }

  lemma RaceDooms(f: FineState, id: Id, dec: Decoder)
    requires FineOk(f) && Races(f, Step.Delete(id))
    ensures Doomed(Next(f, Step.Delete(id), dec))
  {
    var f' := Next(f, Step.Delete(id), dec);
    FineIsSafe(f);
    assert id in f.calls.open && f.calls.open[id] == f.hand.handle;
    forall i | 0 <= i < |f'.calls.cells| ensures !Faulty(f'.calls.cells[i]) { assert !Faulty(f.calls.cells[i]); }
  }

  lemma DoomLasts(f: FineState, step: Step, dec: Decoder)
    requires Doomed(f) && Enabled(f, step) && step != Send
    ensures Doomed(Next(f, step, dec))
  {
    var f' := Next(f, step, dec);
    forall i | 0 <= i < |f'.calls.cells| ensures !Faulty(f'.calls.cells[i]) {
      if i < |f.calls.cells| { assert !Faulty(f.calls.cells[i]); }
    }
  }

  lemma DoomedSendPanics(f: FineState, dec: Decoder)
    requires Doomed(f)
    ensures Panicked(Next(f, Send, dec))
  {
    assert Faulty(Next(f, Send, dec).calls.cells[f.hand.handle]);
  }

  lemma PanicLasts(f: FineState, step: Step, dec: Decoder)
    requires Panicked(f) && Enabled(f, step)
    ensures Panicked(Next(f, step, dec))
  {
    var i :| 0 <= i < |f.calls.cells| && Faulty(f.calls.cells[i]);
    assert Faulty(Next(f, step, dec).calls.cells[i]);
  }

  /** A race happened before step `m`. */
  ghost predicate RacedBefore(fs: seq<FineState>, steps: seq<Step>, m: nat)
    requires |fs| == |steps| + 1 && m <= |steps|
  {
    exists k :: 0 <= k < m && Races(fs[k], steps[k])
  }

  /** An answer is sent after a race. */
  ghost predicate SentAfterRace(fs: seq<FineState>, steps: seq<Step>, n: nat)
    requires |fs| == |steps| + 1 && n <= |steps|
  {
    exists m :: 0 <= m < n && steps[m] == Send && RacedBefore(fs, steps, m)
  }

  lemma HistoryGrows(fs: seq<FineState>, steps: seq<Step>, n: nat)
    requires |fs| == |steps| + 1 && n < |steps|
    ensures RacedBefore(fs, steps, n + 1) <==> RacedBefore(fs, steps, n) || Races(fs[n], steps[n])
    ensures SentAfterRace(fs, steps, n + 1)
            <==> SentAfterRace(fs, steps, n) || (steps[n] == Send && RacedBefore(fs, steps, n))
  {
  }

  /** What a race, and an answer sent after it, leave behind. */
  ghost predicate Splits(f: FineState, raced: bool, sent: bool) {
    if sent then Panicked(f) else if raced then Doomed(f) else FineOk(f)
  }

  lemma NextSplits(f: FineState, step: Step, raced: bool, sent: bool, dec: Decoder)
    requires Splits(f, raced, sent) && Enabled(f, step)
    ensures Splits(Next(f, step, dec), raced || Races(f, step), sent || (step == Send && raced))
  {
    if sent {
      PanicLasts(f, step, dec);
    } else if raced {
      if step == Send { DoomedSendPanics(f, dec); } else { DoomLasts(f, step, dec); }
    } else if Races(f, step) {
      RaceDooms(f, step.id, dec);
    } else {
      NextKeepsFine(f, step, dec);
    }
  }

  lemma {:induction false} RunSplits(fs: seq<FineState>, steps: seq<Step>, n: nat, dec: Decoder)
    requires IsRun(fs, steps, dec) && n <= |steps|
    ensures Splits(fs[n], RacedBefore(fs, steps, n), SentAfterRace(fs, steps, n))
  {
    if n > 0 {
      RunSplits(fs, steps, n - 1, dec);
      assert MovesAt(fs, steps, n - 1, dec);
      HistoryGrows(fs, steps, n - 1);
      NextSplits(fs[n - 1], steps[n - 1], RacedBefore(fs, steps, n - 1), SentAfterRace(fs, steps, n - 1), dec);
    }
  }

  /** Exactly when it goes wrong, over every interleaving: some channel has panicked if and only if
      a caller deleted the call being answered and an answer was sent afterwards. */
  lemma PanicsIffSentAfterRace(fs: seq<FineState>, steps: seq<Step>, n: nat, dec: Decoder)
    requires IsRun(fs, steps, dec) && n <= |steps|
    ensures Panicked(fs[n]) <==>
            exists k, m :: 0 <= k < m < n && Races(fs[k], steps[k]) && steps[m] == Send
  {
    RunSplits(fs, steps, n, dec);
    if !RacedBefore(fs, steps, n) { FineIsSafe(fs[n]); }
    if SentAfterRace(fs, steps, n) {
      var m :| 0 <= m < n && steps[m] == Send && RacedBefore(fs, steps, m);
      var k :| 0 <= k < m && Races(fs[k], steps[k]);
    }
    if k, m :| 0 <= k < m < n && Races(fs[k], steps[k]) && steps[m] == Send {
      assert RacedBefore(fs, steps, m);
    }
  }

  /* ---- what is sent ---- */

  function ResultsIn(todo: seq<Put>): seq<Value> {
    if todo == [] then [] else (if todo[0].PutResult? then [todo[0].v] else []) + ResultsIn(todo[1..])
  }

  function ErrorsIn(todo: seq<Put>): seq<Option<string>> {
    if todo == [] then [] else (if todo[0].PutError? then [todo[0].e] else []) + ErrorsIn(todo[1..])
  }

  lemma PutsAreTheAnswer(result: Option<Raw>, error: string, dec: Decoder)
    ensures ResultsIn(Puts(result, error, dec)) == CallHistories.ValueOf(result, error, dec)
    ensures ErrorsIn(Puts(result, error, dec)) == CallHistories.ErrorOf(result, error, dec)
  {
    var todo := Puts(result, error, dec);
    if |todo| == 2 { assert todo[1..] == [PutError(None)] && [PutError(None)][1..] == []; }
  }

  /** What is on the held channels and what is still to be sent make up the whole answer. */
  ghost predicate OnItsWay(f: FineState, id: Id, h: nat, values: seq<Value>, errors: seq<Option<string>>) {
    && f.hand.Holding? && f.hand.id == id && f.hand.handle == h < |f.calls.cells|
    && f.calls.cells[h].result.sent + ResultsIn(f.hand.todo) == values
    && f.calls.cells[h].err.sent + ErrorsIn(f.hand.todo) == errors
  }

  lemma SendMovesOn(f: FineState, id: Id, h: nat, values: seq<Value>, errors: seq<Option<string>>, dec: Decoder)
    requires FineOk(f) && Enabled(f, Send) && OnItsWay(f, id, h, values, errors)
    ensures OnItsWay(Next(f, Send, dec), id, h, values, errors)
  {
    var p, todo := f.calls.cells[h], f.hand.todo;
    if todo[0].PutResult? {
      assert p.result.sent + [todo[0].v] + ResultsIn(todo[1..]) == p.result.sent + ([todo[0].v] + ResultsIn(todo[1..]));
      assert [] + ErrorsIn(todo[1..]) == ErrorsIn(todo[1..]);
    } else {
      assert p.err.sent + [todo[0].e] + ErrorsIn(todo[1..]) == p.err.sent + ([todo[0].e] + ErrorsIn(todo[1..]));
      assert [] + ResultsIn(todo[1..]) == ResultsIn(todo[1..]);
    }
  }

  lemma NextMovesOn(f: FineState, step: Step, id: Id, h: nat, values: seq<Value>, errors: seq<Option<string>>, dec: Decoder)
    requires FineOk(f) && Enabled(f, step) && step != Finish && OnItsWay(f, id, h, values, errors)
    ensures OnItsWay(Next(f, step, dec), id, h, values, errors)
  {
    if step == Send { SendMovesOn(f, id, h, values, errors, dec); }
  }

  lemma LookupStarts(f: FineState, id: Id, r: Option<Raw>, e: string, dec: Decoder)
    requires FineOk(f) && Enabled(f, Lookup(id, r, e)) && id in f.calls.open
    ensures OnItsWay(Next(f, Lookup(id, r, e), dec), id, f.calls.open[id], CallHistories.ValueOf(r, e, dec), CallHistories.ErrorOf(r, e, dec))
  {
    PutsAreTheAnswer(r, e, dec);
    assert CellFine(f, f.calls.open[id]);
    assert [] + CallHistories.ValueOf(r, e, dec) == CallHistories.ValueOf(r, e, dec);
    assert [] + CallHistories.ErrorOf(r, e, dec) == CallHistories.ErrorOf(r, e, dec);
  }

  lemma {:induction false} AnswerMovesOn(fs: seq<FineState>, steps: seq<Step>, k: nat, n: nat, dec: Decoder)
    requires IsRun(fs, steps, dec) && k < n <= |steps| && steps[k].Lookup? && steps[k].id in fs[k].calls.open
    requires (forall j | 0 <= j < n :: !Races(fs[j], steps[j])) && forall j | k < j < n :: steps[j] != Finish
    ensures var id, r, e := steps[k].id, steps[k].result, steps[k].error;
            OnItsWay(fs[n], id, fs[k].calls.open[id], CallHistories.ValueOf(r, e, dec), CallHistories.ErrorOf(r, e, dec))
  {
    var id, r, e := steps[k].id, steps[k].result, steps[k].error;
    assert MovesAt(fs, steps, n - 1, dec);
    RunKeepsFine(fs, steps, n - 1, dec);
    if n == k + 1 {
      LookupStarts(fs[k], id, r, e, dec);
    } else {
      AnswerMovesOn(fs, steps, k, n - 1, dec);
      NextMovesOn(fs[n - 1], steps[n - 1], id, fs[k].calls.open[id],
                  CallHistories.ValueOf(r, e, dec), CallHistories.ErrorOf(r, e, dec), dec);
    }
  }

  /** In every interleaving without such a race, when the handling of a completion is over the channels
      of its call carry exactly what the completion brought, and are closed. */
  lemma NoRaceDelivers(fs: seq<FineState>, steps: seq<Step>, k: nat, n: nat, dec: Decoder)
    requires IsRun(fs, steps, dec) && k < n < |steps| && steps[k].Lookup? && steps[k].id in fs[k].calls.open
    requires steps[n] == Finish && (forall j | k < j < n :: steps[j] != Finish)
    requires forall j | 0 <= j <= n :: !Races(fs[j], steps[j])
    ensures var h := fs[k].calls.open[steps[k].id];
            && h < |fs[n + 1].calls.cells|
            && var p := fs[n + 1].calls.cells[h];
               p.Closed() && CallHistories.Holds(p, CallHistories.ValueOf(steps[k].result, steps[k].error, dec),
                                                 CallHistories.ErrorOf(steps[k].result, steps[k].error, dec))
  {
    AnswerMovesOn(fs, steps, k, n, dec);
    RunKeepsFine(fs, steps, n, dec);
    assert MovesAt(fs, steps, n, dec);
    assert CellFine(fs[n], fs[n].hand.handle);
  }
}
