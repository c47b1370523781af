/** What each call gets, told by the history of steps alone: a call is decided by the first step that
    concerns it, and its channels then carry exactly what that step brings (invokeclient.go). */
module CallHistories {
  import opened Wrappers
  import opened Messages
  import opened Channels
  import opened InvokeClients
  import opened InvokeResults

  /** What became of a call: still waiting, its id was registered again, deleted by its caller,
      answered, or caught by cancelAllInvokes, whose goroutine is still to run or has run. */
  datatype Fate = Waiting | Replaced | Deleted | Answered(result: Option<Raw>, error: string) | Leaving | Ended

  datatype Placed = Placed(id: Id, fate: Fate)

  /** How a step decides about call number `i`. */
  function After(c: Placed, i: nat, step: Step): Fate {
    match c.fate
    case Waiting =>
      (match step
       case Register(id) => if id == c.id then Replaced else Waiting
       case Delete(id) => if id == c.id then Deleted else Waiting
       case Complete(id, result, error) => if id == c.id then Answered(result, error) else Waiting
       case CancelAll => Leaving
       case Notify(_) => Waiting)
    case Leaving => if step == Notify(i) then Ended else Leaving
    case f => f
  }

  function Advanced(h: seq<Placed>, step: Step): seq<Placed> {
    seq(|h|, i requires 0 <= i < |h| => h[i].(fate := After(h[i], i, step)))
  }

  /** All calls ever placed, in the order of their registration. */
  function History(steps: seq<Step>): seq<Placed> {
    if steps == [] then []
    else Extended(History(steps[..|steps| - 1]), steps[|steps| - 1])
  }

  function Extended(h: seq<Placed>, step: Step): seq<Placed> {
    Advanced(h, step) + if step.Register? then [Placed(step.id, Waiting)] else []
  }

  /** The value and the error a completion brings. */
  function ValueOf(result: Option<Raw>, error: string, dec: Decoder): seq<Value> {
    if error == "" && result.Some? && dec(result.value).Some? then [dec(result.value).value] else []
  }

  function ErrorOf(result: Option<Raw>, error: string, dec: Decoder): seq<Option<string>> {
    if error != "" then [Some(error)] else if ValueOf(result, error, dec) != [] then [None] else []
  }

  predicate Holds(p: CallChans, values: seq<Value>, errors: seq<Option<string>>) {
    p.result.sent == values && p.err.sent == errors
  }

  /** What the channels of a call carry, and which of them are closed. */
  predicate Carries(p: CallChans, f: Fate, dec: Decoder) {
    match f
    case Waiting => p.Fresh()
    case Replaced => p.Fresh()
    case Deleted => Holds(p, [], []) && p.Closed()
    case Answered(result, error) => Holds(p, ValueOf(result, error, dec), ErrorOf(result, error, dec)) && p.Closed()
    case Leaving => Holds(p, [], []) && p.result.closes == 1 && p.err.closes == 0
    case Ended => Holds(p, [], [Some(LoopEnded)]) && p.Closed()
  }

  /** The table against the history: the waiting calls are registered, those whose goroutine has not
      run are leaving, and every pair of channels carries what its call's fate says. */
  ghost predicate Agrees(s: CallTable, h: seq<Placed>, dec: Decoder) {
    && |s.cells| == |h|
    && (forall id <- s.open :: h[s.open[id]] == Placed(id, Waiting))
    && (forall i | 0 <= i < |h| :: h[i].fate.Waiting? ==> h[i].id in s.open && s.open[h[i].id] == i)
    && (forall i | 0 <= i < |h| :: i in s.leaving <==> h[i].fate.Leaving?)
    && (forall i | 0 <= i < |h| :: Carries(s.cells[i], h[i].fate, dec))
  }

  lemma RegisterAgrees(s: CallTable, h: seq<Placed>, id: Id, dec: Decoder)
    requires Agrees(s, h, dec)
    ensures Agrees(s.Register(id), Extended(h, Step.Register(id)), dec)
  {
  }

  /** Steps that end at most the call registered under one id. */
  lemma EndingAgrees(s: CallTable, s': CallTable, h: seq<Placed>, h': seq<Placed>, id: Id, dec: Decoder)
    requires Agrees(s, h, dec) && id in s.open
    requires s'.open == s.open - {id} && s'.leaving == s.leaving && |s'.cells| == |s.cells| && |h'| == |h|
    requires forall i | 0 <= i < |h| && i != s.open[id] :: s'.cells[i] == s.cells[i] && h'[i] == h[i]
    requires var f := h'[s.open[id]].fate; !f.Waiting? && !f.Leaving? && Carries(s'.cells[s.open[id]], f, dec)
    ensures Agrees(s', h', dec)
  {
    forall i | 0 <= i < |h'| && h'[i].fate.Waiting? ensures h'[i].id in s'.open && s'.open[h'[i].id] == i {
      assert h[i].id in s.open && s.open[h[i].id] == i;
    }
  }

  lemma OnlyOneAdvances(s: CallTable, h: seq<Placed>, step: Step, dec: Decoder)
    requires Agrees(s, h, dec) && (step.Delete? || step.Complete?)
    ensures Extended(h, step) == Advanced(h, step)
    ensures forall i | 0 <= i < |h| && (step.id !in s.open || i != s.open[step.id]) :: Advanced(h, step)[i] == h[i]
  {
    forall i | 0 <= i < |h| && (step.id !in s.open || i != s.open[step.id]) ensures Advanced(h, step)[i] == h[i] {
      if h[i].fate.Waiting? { assert s.open[h[i].id] == i; }
    }
  }

  lemma DeleteAgrees(s: CallTable, h: seq<Placed>, id: Id, dec: Decoder)
    requires Agrees(s, h, dec)
    ensures Agrees(s.Delete(id), Extended(h, Step.Delete(id)), dec)
  {
    OnlyOneAdvances(s, h, Step.Delete(id), dec);
    if id in s.open {
      EndingAgrees(s, s.Delete(id), h, Extended(h, Step.Delete(id)), id, dec);
    } else {
      assert Advanced(h, Step.Delete(id)) == h;
    }
  }

  lemma CompleteAgrees(s: CallTable, h: seq<Placed>, id: Id, result: Option<Raw>, error: string, dec: Decoder)
    requires Agrees(s, h, dec)
    ensures Agrees(s.Complete(id, result, error, dec).0, Extended(h, Step.Complete(id, result, error)), dec)
  {
    OnlyOneAdvances(s, h, Step.Complete(id, result, error), dec);
    if id in s.open {
      AnswerCarries(s.cells[s.open[id]], result, error, dec);
      EndingAgrees(s, s.Complete(id, result, error, dec).0, h, Extended(h, Step.Complete(id, result, error)), id, dec);
    } else {
      assert Advanced(h, Step.Complete(id, result, error)) == h;
    }
  }

  lemma AnswerCarries(p: CallChans, result: Option<Raw>, error: string, dec: Decoder)
    requires p.Fresh()
    ensures var q := Answer(p, result, error, dec).0;
            Carries(CallChans(q.result.Close(), q.err.Close()), Answered(result, error), dec)
  {
  }

  lemma CancelAllAgrees(s: CallTable, h: seq<Placed>, dec: Decoder)
    requires Agrees(s, h, dec)
    ensures Agrees(s.CancelAll(), Extended(h, CancelAll), dec)
  {
    var s', h' := s.CancelAll(), Extended(h, CancelAll);
    assert h' == Advanced(h, CancelAll);
    forall i | 0 <= i < |h| ensures i in s.open.Values <==> h[i].fate.Waiting? {
      if h[i].fate.Waiting? { assert s.open[h[i].id] == i; }
    }
  }

  lemma NotifyAgrees(s: CallTable, h: seq<Placed>, i: nat, dec: Decoder)
    requires Agrees(s, h, dec) && i in s.leaving
    ensures Agrees(s.Notify(i), Extended(h, Step.Notify(i)), dec)
  {
    assert Extended(h, Step.Notify(i)) == h[i := h[i].(fate := Ended)];
  }

  lemma NextAgrees(s: CallTable, h: seq<Placed>, step: Step, dec: Decoder)
    requires Agrees(s, h, dec) && Enabled(s, step)
    ensures Agrees(Next(s, step, dec), Extended(h, step), dec)
  {
    match step
    case Register(id) => RegisterAgrees(s, h, id, dec);
    case Delete(id) => DeleteAgrees(s, h, id, dec);
    case Complete(id, result, error) => CompleteAgrees(s, h, id, result, error, dec);
    case CancelAll => CancelAllAgrees(s, h, dec);
    case Notify(i) => NotifyAgrees(s, h, i, dec);
  }

  /** The table refines the history in every run: call number `i` carries what the first step that
      concerned it brought, and nothing else. */
  lemma {:induction false} CallsFollowTheirHistory(ss: seq<CallTable>, steps: seq<Step>, n: nat, dec: Decoder)
    requires IsRun(ss, steps, dec) && n <= |steps|
    ensures Agrees(ss[n], History(steps[..n]), dec)
  {
    if n > 0 {
      CallsFollowTheirHistory(ss, steps, n - 1, dec);
      assert steps[..n][..n - 1] == steps[..n - 1];
      NextAgrees(ss[n - 1], History(steps[..n - 1]), steps[n - 1], dec);
    }
  }

  /** A decided call stays as it is, but for the goroutine that ends it. */
  lemma {:induction false} LeavingOrEnded(steps: seq<Step>, c: nat, n: nat, i: nat)
    requires c < n <= |steps| && steps[c].CancelAll? && i < |History(steps[..c])| && History(steps[..c])[i].fate.Waiting?
    ensures i < |History(steps[..n])| && History(steps[..n])[i].fate in {Leaving, Ended}
  {
    assert steps[..n][..n - 1] == steps[..n - 1];
    if n > c + 1 { LeavingOrEnded(steps, c, n - 1, i); }
  }

  /** Nobody waits for a loop that has ended: a call outstanding when cancelAllInvokes ran has, once
      its goroutine is through, no value and exactly one error on its channels, which are closed; and
      whoever waits for it, under every schedule of the merge, gets exactly that error. */
  lemma WaitingCallersAreTold(ss: seq<CallTable>, steps: seq<Step>, c: nat, n: nat, id: Id, dec: Decoder, picks: seq<Pick>)
    requires IsRun(ss, steps, dec) && c < n <= |steps| && steps[c].CancelAll? && id in ss[c].open
    requires ss[c].open[id] !in ss[n].leaving
    ensures ss[c].open[id] < |ss[n].cells|
    ensures var p := ss[n].cells[ss[c].open[id]];
            && p.Closed() && p.result.sent == [] && p.err.sent == [Some(LoopEnded)] && LoopEnded != ""
            && var m := Rounds(Start(p.result.sent, p.err.sent), picks);
               m.closed && Cancelled !in picks ==> m.out == [ErrorResult(Some(LoopEnded))]
  {
    var i := ss[c].open[id];
    CallsFollowTheirHistory(ss, steps, c, dec);
    CallsFollowTheirHistory(ss, steps, n, dec);
    LeavingOrEnded(steps, c, n, i);
    assert Carries(ss[n].cells[i], History(steps[..n])[i].fate, dec);
    if Rounds(Start([], [Some(LoopEnded)]), picks).closed && Cancelled !in picks {
      ErrorOnlyYieldsOneError(LoopEnded, picks);
    }
  }
}
