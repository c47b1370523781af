/** The merge of a result channel and an error channel into one (Invokeresult.go), and what a
    caller of Invoke gets to see through it. */
module InvokeResults {
  import opened Wrappers
  import opened Messages
  import opened InvokeClients

  datatype InvokeResult = ValueResult(value: Value) | ErrorResult(error: Option<string>)

  /** One round of the select; closed channels are ready for ever. */
  datatype Pick = Cancelled | FromResults | FromErrors

  /** `results` and `errs` are what is still to come on the two inputs before they are closed;
      `closed` says that the output channel is closed. */
  datatype Merge = Merge(results: seq<Value>, errs: seq<Option<string>>, resultsClosed: bool, errsClosed: bool,
                         out: seq<InvokeResult>, closed: bool)

  function Round(m: Merge, p: Pick): Merge {
    if m.closed then m
    else
      var m' := match p
        case Cancelled => m.(closed := true)
        case FromResults =>
          if m.results == [] then m.(resultsClosed := true)
          else m.(results := m.results[1..], out := m.out + [ValueResult(m.results[0])])
        case FromErrors =>
          if m.errs == [] then m.(errsClosed := true)
          else m.(errs := m.errs[1..], out := m.out + [ErrorResult(m.errs[0])]);
      m'.(closed := m'.closed || (m'.resultsClosed && m'.errsClosed))
  }

  function Rounds(m: Merge, picks: seq<Pick>): Merge {
    if picks == [] then m else Round(Rounds(m, picks[..|picks| - 1]), picks[|picks| - 1])
  }

  function Start(results: seq<Value>, errs: seq<Option<string>>): Merge {
    Merge(results, errs, false, false, [], false)
  }

  function Values(out: seq<InvokeResult>): seq<Value> {
    if out == [] then []
    else Values(out[..|out| - 1]) + if out[|out| - 1].ValueResult? then [out[|out| - 1].value] else []
  }

  function Errors(out: seq<InvokeResult>): seq<Option<string>> {
    if out == [] then []
    else Errors(out[..|out| - 1]) + if out[|out| - 1].ErrorResult? then [out[|out| - 1].error] else []
  }

  lemma PartsAppend(out: seq<InvokeResult>, r: InvokeResult)
    ensures Values(out + [r]) == Values(out) + if r.ValueResult? then [r.value] else []
    ensures Errors(out + [r]) == Errors(out) + if r.ErrorResult? then [r.error] else []
  {
    assert (out + [r])[..|out|] == out;
  }

  /** The output so far and what is still to come make up the inputs, kind by kind and in order. */
  ghost predicate Conserves(m: Merge, results: seq<Value>, errs: seq<Option<string>>) {
    && Values(m.out) + m.results == results && Errors(m.out) + m.errs == errs
    && (m.resultsClosed ==> m.results == []) && (m.errsClosed ==> m.errs == [])
    && (m.resultsClosed && m.errsClosed ==> m.closed)
  }

  lemma MoveOne<T>(done: seq<T>, rest: seq<T>)
    requires rest != []
    ensures done + [rest[0]] + rest[1..] == done + rest
  {
  }

  lemma RoundConserves(m: Merge, p: Pick, results: seq<Value>, errs: seq<Option<string>>)
    requires Conserves(m, results, errs)
    ensures Conserves(Round(m, p), results, errs)
  {
    if p.FromResults? && m.results != [] {
      PartsAppend(m.out, ValueResult(m.results[0]));
      MoveOne(Values(m.out), m.results);
      assert Errors(m.out) + [] == Errors(m.out);
    } else if p.FromErrors? && m.errs != [] {
      PartsAppend(m.out, ErrorResult(m.errs[0]));
      MoveOne(Errors(m.out), m.errs);
      assert Values(m.out) + [] == Values(m.out);
    }
  }

  /** For every schedule the output is an interleaving of both inputs as far as they were read,
      nothing lost, duplicated or reordered.  Without a cancellation it is closed only when both
      inputs are, and then holds all of both. */
  lemma {:induction false} MergeInterleaves(results: seq<Value>, errs: seq<Option<string>>, picks: seq<Pick>)
    ensures var m := Rounds(Start(results, errs), picks);
            && Conserves(m, results, errs)
            && (m.closed && Cancelled !in picks ==>
                  m.resultsClosed && m.errsClosed && Values(m.out) == results && Errors(m.out) == errs)
    decreases |picks|
  {
    if picks != [] {
      var init := picks[..|picks| - 1];
      MergeInterleaves(results, errs, init);
      RoundConserves(Rounds(Start(results, errs), init), picks[|picks| - 1], results, errs);
    }
  }

  /** When the context ends the output is closed at once, with what it had. */
  lemma {:induction false} CancelEndsMerge(m: Merge, before: seq<Pick>, after: seq<Pick>)
    ensures var m' := Rounds(m, before + [Cancelled] + after); m'.closed && m'.out == Rounds(m, before).out
    decreases |after|
  {
    var picks := before + [Cancelled] + after;
    if after == [] {
      assert picks[..|picks| - 1] == before;
    } else {
      CancelEndsMerge(m, before, after[..|after| - 1]);
      assert picks[..|picks| - 1] == before + [Cancelled] + after[..|after| - 1];
    }
  }

  lemma {:induction false} CountParts(out: seq<InvokeResult>)
    ensures |Values(out)| + |Errors(out)| == |out|
  {
    if out != [] { CountParts(out[..|out| - 1]); }
  }

  lemma SingleError(out: seq<InvokeResult>, e: Option<string>)
    requires Values(out) == [] && Errors(out) == [e]
    ensures out == [ErrorResult(e)]
  {
    CountParts(out);
    var init, r := out[..0], out[0];
    assert out == init + [r];
    PartsAppend(init, r);
    assert Values(init) == [] && Errors(init) == [];
    assert r.ErrorResult? && [] + [r.error] == [r.error] == [e];
  }

  /** createResultChansWithError */
  function ErrorSource(error: string): Merge { Start([], [Some(error)]) }

  /** A source with nothing but an error yields exactly that. */
  lemma ErrorOnlyYieldsOneError(error: string, picks: seq<Pick>)
    requires Cancelled !in picks && Rounds(ErrorSource(error), picks).closed
    ensures Rounds(ErrorSource(error), picks).out == [ErrorResult(Some(error))]
  {
    MergedError([], [Some(error)], ErrorSource(error), error, picks);
  }

  lemma MergedError(results: seq<Value>, errs: seq<Option<string>>, m: Merge, error: string, picks: seq<Pick>)
    requires m == Start(results, errs) && results == [] && errs == [Some(error)]
    requires Cancelled !in picks && Rounds(m, picks).closed
    ensures Rounds(m, picks).out == [ErrorResult(Some(error))]
  {
    MergeInterleaves(results, errs, picks);
    SingleError(Rounds(m, picks).out, Some(error));
  }

  /** What Invoke delivers for a completion, whatever the schedule: an error completion gives
      exactly one error, an empty one nothing, and a result gives the value and, beside it, one
      result without value or error. */
  lemma InvokeDelivers(s: CallTable, lost: set<nat>, id: Id, result: Option<Raw>, error: string, dec: Decoder, picks: seq<Pick>)
    requires Inv(s, lost) && id in s.open && Cancelled !in picks
    requires var p := s.Complete(id, result, error, dec).0.cells[s.open[id]];
             Rounds(Start(p.result.sent, p.err.sent), picks).closed
    ensures var p := s.Complete(id, result, error, dec).0.cells[s.open[id]];
            var out := Rounds(Start(p.result.sent, p.err.sent), picks).out;
            var v := if error == "" && result.Some? then dec(result.value) else None;
            && Values(out) == (if v.Some? then [v.value] else [])
            && Errors(out) == (if error != "" then [Some(error)] else if v.Some? then [None] else [])
            && |out| == (if error != "" then 1 else if v.Some? then 2 else 0)
  {
    var p := s.Complete(id, result, error, dec).0.cells[s.open[id]];
    CompleteDelivers(s, lost, id, result, error, dec);
    MergeInterleaves(p.result.sent, p.err.sent, picks);
    CountParts(Rounds(Start(p.result.sent, p.err.sent), picks).out);
  }

  /** Of the two, either may come first: both orders are outcomes of some schedule. */
  lemma EitherMayComeFirst(v: Value)
    ensures var m := Rounds(Start([v], [None]), [FromErrors, FromResults, FromResults, FromErrors]);
            m.closed && m.out == [ErrorResult(None), ValueResult(v)]
    ensures var m := Rounds(Start([v], [None]), [FromResults, FromErrors, FromResults, FromErrors]);
            m.closed && m.out == [ValueResult(v), ErrorResult(None)]
  {
    FourRounds(Start([v], [None]), FromErrors, FromResults, FromResults, FromErrors);
    FourRounds(Start([v], [None]), FromResults, FromErrors, FromResults, FromErrors);
  }

  lemma FourRounds(m: Merge, a: Pick, b: Pick, c: Pick, d: Pick)
    ensures Rounds(m, [a, b, c, d]) == Round(Round(Round(Round(m, a), b), c), d)
  {
    assert [a, b, c, d][..3] == [a, b, c] && [a, b, c][..2] == [a, b] && [a, b][..1] == [a] && [a][..0] == [];
    assert Rounds(m, [a]) == Round(m, a);
    assert Rounds(m, [a, b]) == Round(Rounds(m, [a]), b);
    assert Rounds(m, [a, b, c]) == Round(Rounds(m, [a, b]), c);
  }

  /** The goroutine of newInvokeResultChan, driven by the choices of its select. */
  method MergeChannels(resultChan: seq<Value>, errChan: seq<Option<string>>, picks: seq<Pick>)
    returns (ch: seq<InvokeResult>, closed: bool)
    ensures var m := Rounds(Start(resultChan, errChan), picks); ch == m.out && closed == m.closed
  {
    var results, errs := resultChan, errChan;
    var resultChanClosed, errChanClosed := false, false;
    ch, closed := [], false;
    for n := 0 to |picks|
      invariant Rounds(Start(resultChan, errChan), picks[..n])
                == Merge(results, errs, resultChanClosed, errChanClosed, ch, closed)
    {
      assert picks[..n + 1][..n] == picks[..n] && picks[..n + 1][n] == picks[n];
      ghost var m := Rounds(Start(resultChan, errChan), picks[..n]);
      assert Rounds(Start(resultChan, errChan), picks[..n + 1]) == Round(m, picks[n]);
      if closed { continue; }
      match picks[n] {
        case Cancelled => closed := true;
        case FromResults =>
          if results == [] { resultChanClosed := true; }
          else { ch, results := ch + [ValueResult(results[0])], results[1..]; }
        case FromErrors =>
          if errs == [] { errChanClosed := true; }
          else { ch, errs := ch + [ErrorResult(errs[0])], errs[1..]; }
      }
      closed := closed || (resultChanClosed && errChanClosed);
    }
    assert picks[..|picks|] == picks;
  }
}
