/** What a cancel does to a stream that is being sent (streamer.go): when it stops the stream, and
    which streams are cut short. */
module StreamCancels {
  import opened Wrappers
  import opened Messages
  import opened Streamers

  /** Step `step` is a stop for `id` that the limit of the cancel table lets in. */
  predicate Lets(g: Sending, step: Step, id: Id) {
    step == Stop(id) && (g.conn.maxCancels == 0 || g.conn.cancelCount < g.conn.maxCancels)
  }

  /** A cancelled stream: nothing more is sent, and while it still runs its cancel waits in the table. */
  ghost predicate Stopped(g: Sending, id: Id, sent: nat) {
    && id in g.streams && g.streams[id].sent == sent
    && (g.streams[id].phase.Running? ==> id in g.conn.cancels)
  }

  lemma NextKeepsStopped(g: Sending, step: Step, id: Id, sent: nat)
    requires Enabled(g, step) && Stopped(g, id, sent)
    ensures Stopped(Next(g, step), id, sent)
  {
  }

  lemma {:induction false} StopFreezes(gs: seq<Sending>, steps: seq<Step>, k: nat, n: nat, id: Id)
    requires IsRun(gs, steps) && k < n <= |steps| && Lets(gs[k], steps[k], id) && id in gs[k].streams
    ensures Stopped(gs[n], id, gs[k].streams[id].sent)
  {
    assert MovesAt(gs, steps, n - 1);
    if n > k + 1 {
      StopFreezes(gs, steps, k, n - 1, id);
      NextKeepsStopped(gs[n - 1], steps[n - 1], id, gs[k].streams[id].sent);
    }
  }

  /** A cancel that is let in stops its stream, whatever is interleaved: no item follows, and the next
      turn on a live connection writes the empty completion and ends the stream. */
  lemma CancelStopsStream(gs: seq<Sending>, steps: seq<Step>, k: nat, n: nat, id: Id)
    requires IsRun(gs, steps) && k < n <= |steps| && Lets(gs[k], steps[k], id) && id in gs[k].streams
    ensures id in gs[n].streams && gs[n].streams[id].sent == gs[k].streams[id].sent
    ensures n < |steps| && steps[n] == Turn(id, true) && !gs[n].conn.aborted ==>
              && gs[n + 1].conn.log == gs[n].conn.log + [Completion(id, None, "")]
              && id in gs[n + 1].streams && gs[n + 1].streams[id].phase.Completed?
  {
    StopFreezes(gs, steps, k, n, id);
    if n < |steps| { assert MovesAt(gs, steps, n); }
  }

  /** On a connection that is gone the next turn of a stream ends it, and nothing is written. */
  lemma AbortEndsStreams(gs: seq<Sending>, steps: seq<Step>, n: nat)
    requires IsRun(gs, steps) && n < |steps| && steps[n].Turn? && gs[n].conn.aborted
    ensures gs[n + 1].conn.log == gs[n].conn.log && gs[n + 1].conn.aborted
    ensures steps[n].id in gs[n + 1].streams && gs[n + 1].streams[steps[n].id].phase.Abandoned?
  {
    assert MovesAt(gs, steps, n);
  }

  ghost predicate LetIn(gs: seq<Sending>, steps: seq<Step>, n: nat, id: Id)
    requires |gs| == |steps| + 1 && n <= |steps|
  {
    exists k :: 0 <= k < n && Lets(gs[k], steps[k], id)
  }

  predicate Cut(g: Sending, id: Id) { id in g.streams && g.streams[id].cancelled }

  lemma NextCancels(g: Sending, step: Step, id: Id)
    requires Enabled(g, step)
    ensures var g' := Next(g, step);
            && (id in g'.conn.cancels || Cut(g', id) <==> id in g.conn.cancels || Cut(g, id) || Lets(g, step, id))
            && (Cut(g', id) <==> Cut(g, id) || (Finds(g, step, id) && id in g.conn.cancels))
  {
  }

  /** A turn of the stream `id` that receives another item. */
  predicate Finds(g: Sending, step: Step, id: Id) {
    step.Turn? && step.id == id && id in g.streams && g.streams[id].taken < |g.streams[id].src|
  }

  /** A cancel that was let in waits in the table until it has cut its stream. */
  lemma {:induction false} WaitsOrHasCut(gs: seq<Sending>, steps: seq<Step>, n: nat, id: Id)
    requires IsRun(gs, steps) && n <= |steps|
    ensures id in gs[n].conn.cancels || Cut(gs[n], id) <==> LetIn(gs, steps, n, id)
  {
    if n > 0 {
      WaitsOrHasCut(gs, steps, n - 1, id);
      assert MovesAt(gs, steps, n - 1);
      NextCancels(gs[n - 1], steps[n - 1], id);
      assert LetIn(gs, steps, n, id) <==> LetIn(gs, steps, n - 1, id) || Lets(gs[n - 1], steps[n - 1], id);
    }
  }

  /** The stream was cut at some turn before step `n`: a cancel was let in and an item came after it. */
  ghost predicate CutBefore(gs: seq<Sending>, steps: seq<Step>, n: nat, id: Id)
    requires |gs| == |steps| + 1 && n <= |steps|
  {
    exists m :: 0 <= m < n && Finds(gs[m], steps[m], id) && LetIn(gs, steps, m, id)
  }

  lemma {:induction false} CutAtATurn(gs: seq<Sending>, steps: seq<Step>, n: nat, id: Id)
    requires IsRun(gs, steps) && n <= |steps|
    ensures Cut(gs[n], id) <==> CutBefore(gs, steps, n, id)
  {
    if n > 0 {
      var g, step := gs[n - 1], steps[n - 1];
      CutAtATurn(gs, steps, n - 1, id);
      assert MovesAt(gs, steps, n - 1);
      NextCancels(g, step, id);
      WaitsOrHasCut(gs, steps, n - 1, id);
      RunKeepsOk(gs, steps, n - 1);
      assert Finds(g, step, id) ==> StreamOk(g, id);
      assert CutBefore(gs, steps, n, id)
             <==> CutBefore(gs, steps, n - 1, id) || (Finds(g, step, id) && LetIn(gs, steps, n - 1, id));
    }
  }

  /** Which streams are cut short: a completed stream has not sent its whole source if and only if a
      cancel for its id was let in and another item came from its channel afterwards. */
  lemma CutShortIff(gs: seq<Sending>, steps: seq<Step>, n: nat, id: Id)
    requires IsRun(gs, steps) && n <= |steps| && id in gs[n].streams && gs[n].streams[id].phase.Completed?
    ensures gs[n].streams[id].sent <= |gs[n].streams[id].src|
    ensures gs[n].streams[id].sent < |gs[n].streams[id].src| <==>
            exists k, m :: 0 <= k < m < n && Lets(gs[k], steps[k], id) && Finds(gs[m], steps[m], id)
  {
    RunKeepsOk(gs, steps, n);
    assert StreamOk(gs[n], id);
    CutAtATurn(gs, steps, n, id);
    if m :| 0 <= m < n && Finds(gs[m], steps[m], id) && LetIn(gs, steps, m, id) {
      var k :| 0 <= k < m && Lets(gs[k], steps[k], id);
    }
    if k, m :| 0 <= k < m < n && Lets(gs[k], steps[k], id) && Finds(gs[m], steps[m], id) {
      assert LetIn(gs, steps, m, id);
    }
  }
}
