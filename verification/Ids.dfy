/** Connection-unique ids (loop.go, GetNewID): an atomic add and a separate atomic load. */
module Ids {

  /** `adds` is lastID; call number `k`, the one that made the k-th add, got id `got[k]`. */
  datatype Counter = Counter(adds: nat, got: map<nat, nat>)

  datatype Step = Add | Load(k: nat)

  predicate Enabled(c: Counter, step: Step) { step.Load? ==> 1 <= step.k <= c.adds && step.k !in c.got }

  function Next(c: Counter, step: Step): Counter {
    match step
    case Add => c.(adds := c.adds + 1)
    case Load(k) => c.(got := c.got[k := c.adds])
  }

  ghost predicate IsRun(cs: seq<Counter>, steps: seq<Step>) {
    && |cs| == |steps| + 1 && cs[0] == Counter(0, map[])
    && forall j | 0 <= j < |steps| :: Enabled(cs[j], steps[j]) && cs[j + 1] == Next(cs[j], steps[j])
  }

  /** Another call's add falls between the add and the load of the call that step `j` finishes. */
  ghost predicate OverlapAt(cs: seq<Counter>, steps: seq<Step>, j: nat)
    requires |cs| == |steps| + 1 && j < |steps|
  {
    steps[j].Load? && cs[j].adds > steps[j].k
  }

  /** How many calls have made their add. */
  function Adds(steps: seq<Step>, n: nat): nat
    requires n <= |steps|
  {
    if n == 0 then 0 else Adds(steps, n - 1) + if steps[n - 1].Add? then 1 else 0
  }

  /** A call never gets an id below its own number; it gets a higher one exactly when it overlaps. */
  lemma {:induction false} RunValues(cs: seq<Counter>, steps: seq<Step>, n: nat)
    requires IsRun(cs, steps) && n <= |steps|
    ensures cs[n].adds == Adds(steps, n)
    ensures forall k <- cs[n].got :: 1 <= k <= cs[n].got[k] <= cs[n].adds
    ensures (forall k <- cs[n].got :: cs[n].got[k] == k) <==> forall j | 0 <= j < n :: !OverlapAt(cs, steps, j)
  {
    if n > 0 {
      RunValues(cs, steps, n - 1);
      var c, c', step := cs[n - 1], cs[n], steps[n - 1];
      assert OverlapAt(cs, steps, n - 1) <==> step.Load? && c.adds != step.k;
      if step.Load? {
        assert c'.got.Keys == c.got.Keys + {step.k} && c'.got[step.k] == c.adds;
        assert forall k <- c.got :: c'.got[k] == c.got[k];
        assert (forall k <- c'.got :: c'.got[k] == k) <==> (forall k <- c.got :: c.got[k] == k) && c.adds == step.k;
      }
    }
  }

  ghost predicate Unique(got: map<nat, nat>) { forall a <- got, b <- got :: got[a] == got[b] ==> a == b }

  /** Distinct numbers, none below its index and none above the count, are the indices themselves. */
  lemma {:induction false} DistinctAreIdentity(got: map<nat, nat>, n: nat, k: nat)
    requires (forall a :: a in got <==> 1 <= a <= n) && (forall a <- got :: a <= got[a] <= n) && Unique(got)
    requires 1 <= k <= n
    ensures got[k] == k
    decreases n - k
  {
    var m := got[k];
    if m > k { DistinctAreIdentity(got, n, m); }
  }

  /** When all calls have finished, their ids are unique if and only if no two of them overlapped. */
  lemma UniqueIffNoOverlap(cs: seq<Counter>, steps: seq<Step>)
    requires IsRun(cs, steps)
    requires forall k :: k in cs[|steps|].got <==> 1 <= k <= cs[|steps|].adds
    ensures Unique(cs[|steps|].got) <==> forall j | 0 <= j < |steps| :: !OverlapAt(cs, steps, j)
  {
    var n := |steps|;
    RunValues(cs, steps, n);
    if Unique(cs[n].got) {
      forall k <- cs[n].got ensures cs[n].got[k] == k { DistinctAreIdentity(cs[n].got, cs[n].adds, k); }
    }
  }
}
