/** The table of outstanding calls (invokeclient.go). */
module InvokeClients {
  import opened Wrappers
  import opened Messages
  import opened Channels

  /** invocationResultChans: both channels have capacity 1; `None` on `err` is a nil error. */
  datatype CallChans = CallChans(result: Chan<Value>, err: Chan<Option<string>>) {
    predicate Fresh() { result.Fresh() && err.Fresh() && result.cap == 1 && err.cap == 1 }
    predicate Safe() { result.Safe() && err.Safe() }
    predicate Closed() { result.closes == 1 && err.closes == 1 }
  }

  const LoopEnded := "message loop ended"

  /** `open` is resultChans, a handle being an index into `cells`, the channel pairs made so far;
      `leaving` holds the handles whose cancelAllInvokes goroutine has yet to run. */
  datatype Calls = Calls(open: map<Id, nat>, cells: seq<CallChans>, leaving: set<nat>) {
    predicate InRange() {
      (forall id <- open :: open[id] < |cells|) && (forall i <- leaving :: i < |cells|)
    }

    /** newInvocation */
    function Register(id: Id): Calls {
      Calls(open[id := |cells|], cells + [CallChans(MakeChan(1), MakeChan(1))], leaving)
    }

    /** deleteInvocation */
    function Delete(id: Id): Calls
      requires InRange()
    {
      if id !in open then this
      else
        var p := cells[open[id]];
        Calls(open - {id}, cells[open[id] := CallChans(p.result.Close(), p.err.Close())], leaving)
    }

    /** cancelAllInvokes up to the goroutines it starts */
    function CancelAll(): Calls
      requires InRange()
    {
      Calls(map[], CloseResults(cells, open.Values), leaving + open.Values)
    }

    /** one goroutine of cancelAllInvokes */
    function Notify(i: nat): Calls
      requires InRange() && i in leaving
    {
      Calls(open, cells[i := cells[i].(err := cells[i].err.Send(Some(LoopEnded)).Close())], leaving - {i})
    }

    /** receiveCompletionItem, with its deferred deleteInvocation */
    function Complete(id: Id, result: Option<Raw>, error: string, dec: Decoder): (Calls, Option<HandlerError>)
      requires InRange()
    {
      if id !in open then (this, Some(UnknownCompletionId))
      else
        var (p, e) := Answer(cells[open[id]], result, error, dec);
        (this.(cells := cells[open[id] := p]).Delete(id), e)
    }
  }

  /** `cells` with the result channels of `handles` closed. */
  function CloseResults(cells: seq<CallChans>, handles: set<nat>): seq<CallChans> {
    seq(|cells|, i requires 0 <= i < |cells| =>
      if i in handles then cells[i].(result := cells[i].result.Close()) else cells[i])
  }

  /** What receiveCompletionItem sends on the channels of a known call. */
  function Answer(p: CallChans, result: Option<Raw>, error: string, dec: Decoder): (CallChans, Option<HandlerError>) {
    if error != "" then (p.(err := p.err.Send(Some(error))), None)
    else if result.None? then (p, None)
    else match dec(result.value)
      case None => (p, Some(DecodeFailed))
      case Some(v) => (CallChans(p.result.Send(v), p.err.Send(None)), None)
  }

  const NoCalls := Calls(map[], [], {})

  type CallTable = s: Calls | s.InRange() witness NoCalls

  /* ---- the invariant ---- */

  /** Every cell made so far is in exactly one of four places: outstanding (untouched), waiting
      for its cancel goroutine, lost (its id was registered again while outstanding), or closed. */
  ghost predicate Inv(s: Calls, lost: set<nat>) {
    && s.InRange()
    && Injective(s.open)
    && s.open.Values !! s.leaving && s.open.Values !! lost && s.leaving !! lost
    && (forall i <- lost :: i < |s.cells|)
    && (forall i | 0 <= i < |s.cells| :: CellOk(s, lost, i))
  }

  ghost predicate CellOk(s: Calls, lost: set<nat>, i: nat)
    requires i < |s.cells|
  {
    var p := s.cells[i];
    if i in s.open.Values || i in lost then p.Fresh()
    else if i in s.leaving then
      p.err.Fresh() && p.err.cap == 1 && p.result.Safe() && p.result.closes == 1
    else p.Safe() && p.Closed()
  }

  /* ---- runs ---- */

  datatype Step =
    | Register(id: Id)
    | Delete(id: Id)
    | Complete(id: Id, result: Option<Raw>, error: string)
    | CancelAll
    | Notify(i: nat)

  predicate Enabled(s: CallTable, step: Step) { step.Notify? ==> step.i in s.leaving }

  function Next(s: CallTable, step: Step, dec: Decoder): CallTable
    requires Enabled(s, step)
  {
    match step
    case Register(id) => s.Register(id)
    case Delete(id) => s.Delete(id)
    case Complete(id, r, e) => s.Complete(id, r, e, dec).0
    case CancelAll => s.CancelAll()
    case Notify(i) => s.Notify(i)
  }

  /** The cell a step makes unreachable: registering an id that is still outstanding. */
  function LostBy(s: CallTable, step: Step): set<nat> {
    if step.Register? && step.id in s.open then {s.open[step.id]} else {}
  }

  lemma CancelAllKeepsInv(s: Calls, lost: set<nat>)
    requires Inv(s, lost)
    ensures Inv(s.CancelAll(), lost)
  {
    var t := s.CancelAll();
    forall i | 0 <= i < |t.cells| ensures CellOk(t, lost, i) {
      assert CellOk(s, lost, i);
    }
  }

  lemma RegisterKeepsInv(s: Calls, lost: set<nat>, id: Id)
    requires Inv(s, lost)
    ensures Inv(s.Register(id), lost + LostBy(s, Step.Register(id)))
  {
    var t, gone := s.Register(id), LostBy(s, Step.Register(id));
    assert forall a <- t.open :: t.open[a] == |s.cells| <==> a == id;
    forall i | 0 <= i < |t.cells| ensures CellOk(t, lost + gone, i) {
      if i < |s.cells| {
        assert CellOk(s, lost, i);
        if i in s.open.Values && i !in gone {
          var a :| a in s.open && s.open[a] == i;
          assert a in t.open && t.open[a] == i;
        }
      } else {
        assert t.open[id] == i;
      }
    }
  }

  lemma DeleteKeepsInv(s: Calls, lost: set<nat>, id: Id, p: CallChans)
    requires Inv(s, lost) && id in s.open
    requires p.Safe() && p.result.closes == 0 && p.err.closes == 0
    ensures s.(cells := s.cells[s.open[id] := p]).InRange()
    ensures Inv(s.(cells := s.cells[s.open[id] := p]).Delete(id), lost)
  {
    var t := s.(cells := s.cells[s.open[id] := p]).Delete(id);
    forall i | 0 <= i < |t.cells| ensures CellOk(t, lost, i) {
      assert CellOk(s, lost, i);
      if i in s.open.Values && i != s.open[id] {
        var a :| a in s.open && s.open[a] == i;
        assert a in t.open && t.open[a] == i;
      }
    }
  }

  lemma NextKeepsInv(s: Calls, lost: set<nat>, step: Step, dec: Decoder)
    requires Inv(s, lost) && Enabled(s, step)
    ensures Inv(Next(s, step, dec), lost + LostBy(s, step))
  {
    assert lost + {} == lost;
    match step
    case Register(id) => RegisterKeepsInv(s, lost, id);
    case Delete(id) =>
      if id in s.open {
        assert CellOk(s, lost, s.open[id]);
        DeleteKeepsInv(s, lost, id, s.cells[s.open[id]]);
        assert s.(cells := s.cells[s.open[id] := s.cells[s.open[id]]]) == s;
      }
    case Complete(id, r, e) =>
      if id in s.open {
        assert CellOk(s, lost, s.open[id]);
        DeleteKeepsInv(s, lost, id, Answer(s.cells[s.open[id]], r, e, dec).0);
      }
    case CancelAll => CancelAllKeepsInv(s, lost);
    case Notify(i) =>
      var t := Next(s, step, dec);
      forall j | 0 <= j < |t.cells| ensures CellOk(t, lost, j) {
        assert CellOk(s, lost, j);
      }
  }

  /** `ss` are the states of a run that starts empty and takes `steps`. */
  ghost predicate IsRun(ss: seq<CallTable>, steps: seq<Step>, dec: Decoder) {
    && |ss| == |steps| + 1 && ss[0] == NoCalls
    && forall k | 0 <= k < |steps| :: Enabled(ss[k], steps[k]) && ss[k + 1] == Next(ss[k], steps[k], dec)
  }

  /** The cells lost in the first `n` steps of a run. */
  function LostIn(ss: seq<CallTable>, steps: seq<Step>, n: nat): set<nat>
    requires |ss| == |steps| + 1 && n <= |steps|
  {
    if n == 0 then {} else LostIn(ss, steps, n - 1) + LostBy(ss[n - 1], steps[n - 1])
  }

  lemma {:induction false} RunKeepsInv(ss: seq<CallTable>, steps: seq<Step>, n: nat, dec: Decoder)
    requires IsRun(ss, steps, dec) && n <= |steps|
    ensures Inv(ss[n], LostIn(ss, steps, n))
  {
    if n > 0 {
      RunKeepsInv(ss, steps, n - 1, dec);
      NextKeepsInv(ss[n - 1], LostIn(ss, steps, n - 1), steps[n - 1], dec);
    }
  }

  /** In every run, with fresh ids or not, no channel is closed twice or sent to after closing, and
      none is ever sent more than its buffer holds, so no send waits. */
  lemma CallChannelsAreSafe(ss: seq<CallTable>, steps: seq<Step>, n: nat, dec: Decoder)
    requires IsRun(ss, steps, dec) && n <= |steps|
    ensures forall p <- ss[n].cells :: p.Safe()
  {
    RunKeepsInv(ss, steps, n, dec);
    forall p <- ss[n].cells ensures p.Safe() {
      var i :| 0 <= i < |ss[n].cells| && ss[n].cells[i] == p;
      assert CellOk(ss[n], LostIn(ss, steps, n), i);
    }
  }

  /** Handles given out from now on are new. */
  lemma NextOpensNew(s: CallTable, step: Step, dec: Decoder, bound: nat)
    requires Enabled(s, step) && bound <= |s.cells| && forall id <- s.open :: s.open[id] >= bound
    ensures var t := Next(s, step, dec); bound <= |t.cells| && forall id <- t.open :: t.open[id] >= bound
    ensures forall i <- LostBy(s, step) :: i >= bound
  {
  }

  /** After cancelAllInvokes at step `c`, no older cell is outstanding or newly lost. */
  lemma {:induction false} NothingOldStaysOpen(ss: seq<CallTable>, steps: seq<Step>, c: nat, n: nat, dec: Decoder)
    requires IsRun(ss, steps, dec) && c < n <= |steps| && steps[c].CancelAll?
    ensures |ss[c].cells| <= |ss[n].cells|
    ensures forall id <- ss[n].open :: ss[n].open[id] >= |ss[c].cells|
    ensures forall i | 0 <= i < |ss[c].cells| :: i in LostIn(ss, steps, n) <==> i in LostIn(ss, steps, c)
  {
    if n > c + 1 {
      NothingOldStaysOpen(ss, steps, c, n - 1, dec);
      NextOpensNew(ss[n - 1], steps[n - 1], dec, |ss[c].cells|);
    }
  }

  /** Once cancelAllInvokes has run and its goroutines are through, the calls registered before it
      that have both channels closed are exactly those whose id was not registered a second time
      while they were outstanding. */
  lemma CancelAllClosesExactlyTheUnlost(ss: seq<CallTable>, steps: seq<Step>, c: nat, n: nat, i: nat, dec: Decoder)
    requires IsRun(ss, steps, dec) && c < n <= |steps| && steps[c].CancelAll?
    requires ss[n].leaving == {} && i < |ss[c].cells|
    ensures i < |ss[n].cells|
    ensures ss[n].cells[i].Closed() <==> i !in LostIn(ss, steps, c)
  {
    NothingOldStaysOpen(ss, steps, c, n, dec);
    RunKeepsInv(ss, steps, n, dec);
    assert CellOk(ss[n], LostIn(ss, steps, n), i);
  }

  /** With ids that are fresh when registered, nothing is lost. */
  lemma {:induction false} FreshIdsLoseNothing(ss: seq<CallTable>, steps: seq<Step>, n: nat, dec: Decoder)
    requires IsRun(ss, steps, dec) && n <= |steps|
    ensures LostIn(ss, steps, n) == {} <==>
            forall k | 0 <= k < n :: steps[k].Register? ==> steps[k].id !in ss[k].open
  {
    if n > 0 {
      FreshIdsLoseNothing(ss, steps, n - 1, dec);
      var s, step := ss[n - 1], steps[n - 1];
      assert LostBy(s, step) == {} <==> (step.Register? ==> step.id !in s.open) by {
        if step.Register? && step.id in s.open { assert s.open[step.id] in LostBy(s, step); }
      }
    }
  }

  /** A completion of an outstanding call closes its channels with exactly its content on them:
      an error hides a result, a result comes with a nil error, an undecodable one with nothing. */
  lemma CompleteDelivers(s: CallTable, lost: set<nat>, id: Id, result: Option<Raw>, error: string, dec: Decoder)
    requires Inv(s, lost) && id in s.open
    ensures var p := s.Complete(id, result, error, dec).0.cells[s.open[id]];
            var v := if error == "" && result.Some? then dec(result.value) else None;
            && p.Closed()
            && p.result.sent == (if v.Some? then [v.value] else [])
            && p.err.sent == (if error != "" then [Some(error)] else if v.Some? then [None] else [])
  {
    assert CellOk(s, lost, s.open[id]);
  }

  predicate Injective(m: map<Id, nat>) { forall a <- m, b <- m :: m[a] == m[b] ==> a == b }

  /** The handles in `open` that are no longer in `todo`. */
  ghost function Done(open: map<Id, nat>, todo: map<Id, nat>): set<nat> { open.Values - todo.Values }

  lemma OneMoreDone(open: map<Id, nat>, todo: map<Id, nat>, id: Id)
    requires Injective(todo) && id in todo && todo.Values <= open.Values
    ensures todo[id] !in Done(open, todo)
    ensures Done(open, todo - {id}) == Done(open, todo) + {todo[id]}
    ensures Injective(todo - {id}) && (todo - {id}).Values <= open.Values && |todo - {id}| < |todo|
  {
    var rest := todo - {id};
    forall h <- todo.Values ensures h in rest.Values + {todo[id]} {
      var a :| a in todo && todo[a] == h;
      assert a == id || a in rest;
    }
  }

  lemma CloseOneMore(cells: seq<CallChans>, done: set<nat>, h: nat)
    requires h < |cells| && h !in done
    ensures var now := CloseResults(cells, done);
            CloseResults(cells, done + {h}) == now[h := now[h].(result := now[h].result.Close())]
  {
  }

  /** The loop of cancelAllInvokes: close every result channel and start a goroutine for it. */
  method CloseEach(open: map<Id, nat>, cells: seq<CallChans>, leaving: set<nat>)
    returns (cells': seq<CallChans>, leaving': set<nat>)
    requires Injective(open) && forall h <- open.Values :: h < |cells|
    ensures cells' == CloseResults(cells, open.Values) && leaving' == leaving + open.Values
  {
    cells', leaving' := cells, leaving;
    var todo := open;
    while todo != map[]
      invariant Injective(todo) && todo.Values <= open.Values
      invariant leaving' == leaving + Done(open, todo) && cells' == CloseResults(cells, Done(open, todo))
      decreases |todo|
    {
      var id :| id in todo;
      var h := todo[id];
      OneMoreDone(open, todo, id);
      CloseOneMore(cells, Done(open, todo), h);
      var p := cells'[h];
      cells', leaving' := cells'[h := p.(result := p.result.Close())], leaving' + {h};
      todo := todo - {id};
    }
  }

  /** The mutable registry of a loop. */
  class InvokeClient {
    var resultChans: map<Id, nat>
    var cells: seq<CallChans>
    var leaving: set<nat>

    function State(): Calls reads this { Calls(resultChans, cells, leaving) }

    ghost predicate Valid() reads this {
      State().InRange() && Injective(resultChans)
    }

    constructor ()
      ensures Valid() && State() == NoCalls
    {
      resultChans, cells, leaving := map[], [], {};
    }

    method NewInvocation(id: Id) returns (handle: nat)
      requires Valid()
      modifies this
      ensures Valid() && State() == old(State()).Register(id)
      ensures handle == |old(cells)| && cells[handle].Fresh()
    {
      handle := |cells|;
      cells := cells + [CallChans(MakeChan(1), MakeChan(1))];
      resultChans := resultChans[id := handle];
    }

    method DeleteInvocation(id: Id)
      requires Valid()
      modifies this
      ensures Valid() && State() == old(State()).Delete(id)
    {
      if id in resultChans {
        var h := resultChans[id];
        resultChans := resultChans - {id};
        cells := cells[h := cells[h].(result := cells[h].result.Close())];
        cells := cells[h := cells[h].(err := cells[h].err.Close())];
      }
    }

    method CancelAllInvokes()
      requires Valid()
      modifies this
      ensures Valid() && State() == old(State()).CancelAll()
    {
      cells, leaving := CloseEach(resultChans, cells, leaving);
      resultChans := map[];
    }

    method ReceiveCompletionItem(id: Id, result: Option<Raw>, error: string, dec: Decoder) returns (e: Option<HandlerError>)
      requires Valid()
      modifies this
      ensures Valid() && (State(), e) == old(State()).Complete(id, result, error, dec)
    {
      if id !in resultChans {
        return Some(UnknownCompletionId);
      }
      var h := resultChans[id];
      var p := cells[h];
      e := None;
      if error != "" {
        p := p.(err := p.err.Send(Some(error)));
      } else if result.Some? {
        var v := dec(result.value);
        if v.None? {
          e := Some(DecodeFailed);
        } else {
          p := p.(result := p.result.Send(v.value));
          p := p.(err := p.err.Send(None));
        }
      }
      cells := cells[h := p];
      DeleteInvocation(id);
    }
  }
}
