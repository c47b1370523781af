/** What a party answers to the invocations it receives (loop.go), over every interleaving of the
    goroutines that run the hub methods. */
module Dispatch {
  import opened Wrappers
  import opened Messages
  import opened Streamers

  /** What calling the method does: it returns `count` values, encoded together as `payload`, or a
      single channel that yields `items` and is then closed. */
  datatype Outcome = Panics | Returns(count: nat, payload: Raw) | ReturnsChan(items: seq<Raw>)

  datatype Method = Missing | BadArguments | Found(numOut: nat, outcome: Outcome)

  /** An invocation together with the method it names; signature and outcome fit each other. */
  datatype Request = Request(kind: Kind, id: Id, hub: Method) {
    predicate Fits() {
      hub.Found? ==>
        (hub.outcome.Returns? ==> hub.outcome.count == hub.numOut) && (hub.outcome.ReturnsChan? ==> hub.numOut == 1)
    }

    /** Refused before the method is called. */
    predicate Refused() { !hub.Found? || (kind.Streaming? && hub.numOut != 1) }

    predicate MayPanic() { !Refused() && hub.outcome.Panics? }
  }

  const UnknownMethod := "Unknown method"
  const ArgumentError := "parameter mismatch calling method"
  const NotAStream := "Stream invocation of method which has not return value kind channel"
  const PanicText := "panic in target method"
  const ClosedChan := "hub func returned closed chan"

  function Refusal(q: Request): string
    requires q.Refused()
  {
    match q.hub case Missing => UnknownMethod case BadArguments => ArgumentError case Found(_, _) => NotAStream
  }

  /** Where the goroutine of an invocation stands. */
  datatype Task =
    | Calling                 // method.Call
    | Recovered               // the panic was answered, returnInvocationResult is next with no result
    | Awaiting                // receiving from the returned channel for a simple invocation
    | Pumping(taken: nat)     // streamer.Start
    | Finishing               // the empty completion behind a single stream item
    | Done(pumped: nat)

  datatype Job = Job(q: Request, task: Task)

  datatype Server = Server(conn: Sender, jobs: map<Id, Job>)

  /** handleInvocationMessage up to the goroutine it starts; no id, no goroutine worth following. */
  function Accept(s: Server, q: Request, ok: bool): Server {
    var conn := if q.Refused() then s.conn.Write(Completion(q.id, None, Refusal(q)), ok) else s.conn;
    if q.id == "" then s.(conn := conn)
    else Server(conn, s.jobs[q.id := Job(q, if q.Refused() then Done(0) else Calling)])
  }

  /** The items of the channel a method returned. */
  function ChanItems(q: Request): seq<Raw>
    requires !q.Refused()
  {
    if q.hub.outcome.ReturnsChan? then q.hub.outcome.items else []
  }

  /** The one message a goroutine writes next, outside of streaming. */
  function WorkMessage(q: Request, task: Task): Message
    requires !q.Refused() && !task.Done? && !task.Pumping? && !(task.Calling? && q.hub.outcome.ReturnsChan?)
  {
    match task
    case Calling =>
      if q.hub.outcome.Panics? then Completion(q.id, None, PanicText)
      else if q.hub.outcome.count == 0 then Completion(q.id, None, "")
      else if q.kind.Streaming? then StreamItem(q.id, q.hub.outcome.payload)
      else Completion(q.id, Some(q.hub.outcome.payload), "")
    case Awaiting =>
      if ChanItems(q) == [] then Completion(q.id, None, ClosedChan) else Completion(q.id, Some(ChanItems(q)[0]), "")
    case _ => Completion(q.id, None, "")
  }

  /** The next action of a goroutine: recoverInvocationPanic, returnInvocationResult, sendResult
      and the loop of streamer.Start, one write at a time. */
  function Work(conn: Sender, q: Request, task: Task, ok: bool): (Sender, Task)
    requires !q.Refused() && !task.Done?
  {
    if task.Pumping? then
      var n, items := task.taken, ChanItems(q);
      var (c, ended) := conn.Turn(q.id, if n < |items| then Some(items[n]) else None, ok);
      (c, if ended then Done(n) else Pumping(n + 1))
    else if task.Calling? && q.hub.outcome.ReturnsChan? then
      (conn, if q.kind.Simple? then Awaiting else Pumping(0))
    else
      (conn.Write(WorkMessage(q, task), ok),
       if task.Calling? && q.hub.outcome.Panics? then Recovered
       else if q.kind.Streaming? && (task.Calling? || task.Recovered?) then Finishing
       else Done(0))
  }

  datatype Step =
    | Receive(q: Request, ok: bool)
    | Run(id: Id, ok: bool)
    | Stop(id: Id)
    | Abort
    | Chatter(m: Message, ok: bool)

  /** Invocation ids are unique, unless empty. */
  predicate Enabled(s: Server, step: Step) {
    match step
    case Receive(q, _) => q.Fits() && (q.id != "" ==> q.id !in s.jobs)
    case Run(id, _) => Resumable(s, id)
    case Chatter(m, _) => Silent(m)
    case _ => true
  }

  predicate Resumable(s: Server, id: Id) { id in s.jobs && !s.jobs[id].task.Done? && !s.jobs[id].q.Refused() }

  function Resumed(s: Server, id: Id, ok: bool): Server
    requires Resumable(s, id)
  {
    var (c, t) := Work(s.conn, s.jobs[id].q, s.jobs[id].task, ok);
    Server(c, s.jobs[id := s.jobs[id].(task := t)])
  }

  function Next(s: Server, step: Step): Server
    requires Enabled(s, step)
  {
    match step
    case Receive(q, ok) => Accept(s, q, ok)
    case Run(id, ok) => Resumed(s, id, ok)
    case Stop(id) => s.(conn := s.conn.Stop(id))
    case Abort => s.(conn := s.conn.(aborted := true))
    case Chatter(m, ok) => s.(conn := s.conn.Write(m, ok))
  }

  /* ---- what the peer gets to see for one id ---- */

  const Empty := Finished(None, "")

  predicate TaskFits(q: Request, task: Task) {
    if q.Refused() then task == Done(0)
    else match q.hub.outcome
      case Panics => task.Calling? || task.Recovered? || task == Done(0) || (task.Finishing? && q.kind.Streaming?)
      case Returns(_, _) => task.Calling? || task == Done(0) || (task.Finishing? && q.kind.Streaming?)
      case ReturnsChan(items) =>
        if q.kind.Simple? then task.Calling? || task.Awaiting? || task == Done(0)
        else task.Calling? || (task.Pumping? && task.taken <= |items|) || (task.Done? && task.pumped <= |items|)
  }

  /** Everything sent for the id when no write was lost, as the protocol has it: a simple
      invocation is answered by one completion, a stream invocation by items and an empty one. */
  function Reply(q: Request, task: Task): seq<Event>
    requires TaskFits(q, task)
  {
    if q.Refused() then [Finished(None, Refusal(q))]
    else match q.hub.outcome
      case Panics =>
        if task.Calling? then []
        else [Finished(None, PanicText)]
             + (if task.Recovered? then [] else [Empty])
             + (if task.Done? && q.kind.Streaming? then [Empty] else [])
      case Returns(n, p) =>
        if task.Calling? then []
        else if q.kind.Simple? then [Finished(if n == 0 then None else Some(p), "")]
        else [Item(p)] + (if task.Done? then [Empty] else [])
      case ReturnsChan(items) =>
        if q.kind.Simple? then
          if !task.Done? then []
          else if items == [] then [Finished(None, ClosedChan)] else [Finished(Some(items[0]), "")]
        else match task
          case Pumping(n) => Items(items[..n])
          case Done(n) => Items(items[..n]) + [Empty]
          case _ => []
  }

  ghost predicate JobOk(s: Server, id: Id)
    requires id in s.jobs
  {
    var Job(q, task) := s.jobs[id];
    var seen := Project(s.conn.log, id);
    && q.id == id && q.Fits() && TaskFits(q, task)
    && seen <= Reply(q, task) && (!s.conn.aborted ==> seen == Reply(q, task))
  }

  ghost predicate ServerOk(s: Server) {
    && "" !in s.jobs
    && (forall id <- s.jobs :: JobOk(s, id))
    && (forall id | id !in s.jobs && id != "" :: Project(s.conn.log, id) == [])
  }

  /** A write of `m` as another id sees it. */
  lemma WriteSeen(c: Sender, m: Message, ok: bool, id: Id)
    ensures var c' := c.Write(m, ok);
            Project(c'.log, id) == if !c.aborted && ok then Project(c.log, id) + View(m, id) else Project(c.log, id)
  {
    ProjectAppend(c.log, m, id);
  }

  /** `c` has sent for `id` what `reply` says, or part of it and then lost the connection. */
  ghost predicate Shows(c: Sender, id: Id, reply: seq<Event>) {
    var seen := Project(c.log, id);
    seen <= reply && (!c.aborted ==> seen == reply)
  }

  lemma WriteShows(c: Sender, m: Message, ok: bool, id: Id, before: seq<Event>, after: seq<Event>)
    requires Shows(c, id, before) && after == before + View(m, id)
    ensures Shows(c.Write(m, ok), id, after)
  {
    WriteSeen(c, m, ok, id);
  }

  lemma PumpShows(c: Sender, q: Request, taken: nat, ok: bool)
    requires !q.Refused() && q.kind.Streaming? && TaskFits(q, Pumping(taken)) && Shows(c, q.id, Reply(q, Pumping(taken)))
    ensures var (c', t') := Work(c, q, Pumping(taken), ok);
            TaskFits(q, t') && Shows(c', q.id, Reply(q, t'))
  {
    var items := q.hub.outcome.items;
    var before := Items(items[..taken]);
    if taken == |items| {
      WriteShows(c, Completion(q.id, None, ""), ok, q.id, before, before + [Empty]);
    } else if q.id in c.cancels {
      WriteShows(c.(cancels := c.cancels - {q.id}), Completion(q.id, None, ""), ok, q.id, before, before + [Empty]);
    } else if !c.aborted {
      ItemsGrow(items, taken);
      WriteShows(c, StreamItem(q.id, items[taken]), ok, q.id, before, Items(items[..taken + 1]));
    }
  }

  /** The message a goroutine writes is the next part of the reply. */
  lemma ReplyGrows(c: Sender, q: Request, task: Task, ok: bool)
    requires !q.Refused() && !task.Done? && !task.Pumping? && !(task.Calling? && q.hub.outcome.ReturnsChan?)
    requires q.Fits() && TaskFits(q, task)
    ensures var t' := Work(c, q, task, ok).1;
            TaskFits(q, t') && Reply(q, t') == Reply(q, task) + View(WorkMessage(q, task), q.id)
  {
    match q.hub.outcome
    case Panics => PanicGrows(c, q, task, ok);
    case Returns(_, _) =>
    case ReturnsChan(_) => assert task.Awaiting?;
  }

  lemma PanicGrows(c: Sender, q: Request, task: Task, ok: bool)
    requires !q.Refused() && !task.Done? && q.hub.outcome.Panics? && TaskFits(q, task)
    ensures var t' := Work(c, q, task, ok).1;
            TaskFits(q, t') && Reply(q, t') == Reply(q, task) + View(WorkMessage(q, task), q.id)
  {
  }

  lemma WorkShows(c: Sender, q: Request, task: Task, ok: bool)
    requires !q.Refused() && !task.Done? && q.Fits() && TaskFits(q, task) && Shows(c, q.id, Reply(q, task))
    ensures var (c', t') := Work(c, q, task, ok);
            TaskFits(q, t') && Shows(c', q.id, Reply(q, t'))
  {
    var t' := Work(c, q, task, ok).1;
    if task.Pumping? {
      PumpShows(c, q, task.taken, ok);
    } else if task.Calling? && q.hub.outcome.ReturnsChan? {
      assert Reply(q, t') == [] by {
        if t'.Pumping? { assert Items(q.hub.outcome.items[..0]) == []; }
      }
    } else {
      ReplyGrows(c, q, task, ok);
      WriteShows(c, WorkMessage(q, task), ok, q.id, Reply(q, task), Reply(q, t'));
    }
  }

  lemma TurnIsSilentForOthers(c: Sender, id: Id, item: Option<Raw>, ok: bool, other: Id)
    requires other != id
    ensures Project(c.Turn(id, item, ok).0.log, other) == Project(c.log, other)
  {
    var m := if item.Some? && id !in c.cancels then StreamItem(id, item.value) else Completion(id, None, "");
    assert View(m, other) == [];
    var c1 := if item.Some? then c.(cancels := c.cancels - {id}) else c;
    WriteSeen(c1, m, ok, other);
    assert c.Turn(id, item, ok).0.log == c1.Write(m, ok).log;
  }

  lemma WorkIsSilentForOthers(c: Sender, q: Request, task: Task, ok: bool, other: Id)
    requires !q.Refused() && !task.Done? && other != q.id
    ensures Project(Work(c, q, task, ok).0.log, other) == Project(c.log, other)
  {
    if task.Pumping? {
      var items := ChanItems(q);
      TurnIsSilentForOthers(c, q.id, if task.taken < |items| then Some(items[task.taken]) else None, ok, other);
    } else if !(task.Calling? && q.hub.outcome.ReturnsChan?) {
      var m := WorkMessage(q, task);
      assert View(m, other) == [];
      WriteSeen(c, m, ok, other);
    }
  }

  lemma AcceptKeepsOk(s: Server, q: Request, ok: bool)
    requires ServerOk(s) && Enabled(s, Receive(q, ok))
    ensures ServerOk(Accept(s, q, ok))
  {
    var s' := Accept(s, q, ok);
    AcceptSeen(s, q, ok);
    forall id | id != q.id ensures Project(s'.conn.log, id) == Project(s.conn.log, id) {
      AcceptIsSilentForOthers(s, q, ok, id);
    }
    forall id <- s'.jobs ensures JobOk(s', id) {
      if id != q.id { JobKept(s, s', id); }
    }
  }

  lemma RunKeepsServer(s: Server, id: Id, ok: bool)
    requires ServerOk(s) && Enabled(s, Run(id, ok))
    ensures ServerOk(Next(s, Run(id, ok)))
  {
    var s' := Next(s, Run(id, ok));
    var Job(q, task) := s.jobs[id];
    assert JobOk(s, id);
    WorkShows(s.conn, q, task, ok);
    WorkAborts(s.conn, q, task, ok);
    forall other | other != id ensures Project(s'.conn.log, other) == Project(s.conn.log, other) {
      WorkIsSilentForOthers(s.conn, q, task, ok, other);
    }
    forall other <- s'.jobs ensures JobOk(s', other) {
      if other != id { JobKept(s, s', other); }
    }
  }

  lemma JobKept(s: Server, s': Server, id: Id)
    requires id in s.jobs && JobOk(s, id) && id in s'.jobs && s'.jobs[id] == s.jobs[id]
    requires Project(s'.conn.log, id) == Project(s.conn.log, id) && (s.conn.aborted ==> s'.conn.aborted)
    ensures JobOk(s', id)
  {
  }

  lemma NextKeepsOk(s: Server, step: Step)
    requires ServerOk(s) && Enabled(s, step)
    ensures ServerOk(Next(s, step))
  {
    var s' := Next(s, step);
    match step
    case Receive(q, ok) => AcceptKeepsOk(s, q, ok);
    case Run(id, ok) => RunKeepsServer(s, id, ok);
    case Chatter(m, ok) =>
      forall id ensures Project(s'.conn.log, id) == Project(s.conn.log, id) { WriteSeen(s.conn, m, ok, id); }
      forall id <- s'.jobs ensures JobOk(s', id) { assert JobOk(s, id); }
    case _ =>
      forall id <- s'.jobs ensures JobOk(s', id) { assert JobOk(s, id); }
  }

  lemma WorkAborts(c: Sender, q: Request, task: Task, ok: bool)
    requires !q.Refused() && !task.Done?
    ensures c.aborted ==> Work(c, q, task, ok).0.aborted
  {
  }

  lemma AcceptSeen(s: Server, q: Request, ok: bool)
    ensures var s' := Accept(s, q, ok);
            && (s.conn.aborted ==> s'.conn.aborted)
            && (Project(s.conn.log, q.id) == [] ==>
                  Shows(s'.conn, q.id, if q.Refused() then [Finished(None, Refusal(q))] else []))
  {
    if q.Refused() { ProjectAppend(s.conn.log, Completion(q.id, None, Refusal(q)), q.id); }
  }

  lemma AcceptIsSilentForOthers(s: Server, q: Request, ok: bool, id: Id)
    requires id != q.id
    ensures Project(Accept(s, q, ok).conn.log, id) == Project(s.conn.log, id)
  {
    if q.Refused() { ProjectAppend(s.conn.log, Completion(q.id, None, Refusal(q)), id); }
  }

  /* ---- every run ---- */

  function NoJobs(maxCancels: nat): Server { Server(Sender({}, 0, maxCancels, false, []), map[]) }

  ghost predicate IsRun(ss: seq<Server>, steps: seq<Step>) {
    && |ss| == |steps| + 1 && ss[0] == NoJobs(ss[0].conn.maxCancels)
    && forall k | 0 <= k < |steps| :: Enabled(ss[k], steps[k]) && ss[k + 1] == Next(ss[k], steps[k])
  }

  lemma {:induction false} RunKeepsOk(ss: seq<Server>, steps: seq<Step>, n: nat)
    requires IsRun(ss, steps) && n <= |steps|
    ensures ServerOk(ss[n])
  {
    if n > 0 {
      RunKeepsOk(ss, steps, n - 1);
      NextKeepsOk(ss[n - 1], steps[n - 1]);
    }
  }

  /** How many completions there are among the events. */
  function Completions(es: seq<Event>): nat {
    if es == [] then 0 else Completions(es[..|es| - 1]) + if es[|es| - 1].Finished? then 1 else 0
  }

  lemma {:induction false} NoCompletions(es: seq<Event>)
    requires forall e <- es :: !e.Finished?
    ensures Completions(es) == 0
  {
    if es != [] { NoCompletions(es[..|es| - 1]); }
  }

  lemma FinalCompletion(es: seq<Event>, e: Event)
    requires e.Finished? && forall x <- es :: !x.Finished?
    ensures Completions(es + [e]) == 1
  {
    NoCompletions(es);
    assert (es + [e])[..|es|] == es;
  }

  lemma ReplyShape(q: Request, task: Task)
    requires TaskFits(q, task) && !q.MayPanic()
    ensures var r := Reply(q, task);
            && (forall i | 0 <= i < |r| - 1 :: !r[i].Finished?)
            && (task.Done? <==> |r| > 0 && r[|r| - 1].Finished?)
            && Completions(r) == if task.Done? then 1 else 0
  {
    var r := Reply(q, task);
    ReplyEnds(q, task);
    if task.Done? { LastCompletion(r); } else { NoCompletions(r); }
  }

  lemma ReplyEnds(q: Request, task: Task)
    requires TaskFits(q, task) && !q.MayPanic()
    ensures var r := Reply(q, task);
            && (forall i | 0 <= i < |r| - 1 :: !r[i].Finished?)
            && (task.Done? <==> |r| > 0 && r[|r| - 1].Finished?)
  {
  }

  lemma LastCompletion(r: seq<Event>)
    requires r != [] && r[|r| - 1].Finished? && forall i | 0 <= i < |r| - 1 :: !r[i].Finished?
    ensures Completions(r) == 1
  {
    assert r == r[..|r| - 1] + [r[|r| - 1]];
    FinalCompletion(r[..|r| - 1], r[|r| - 1]);
  }

  /** For an invocation whose method does not panic, every moment of every run has at most one
      completion for its id and nothing behind it; and once its goroutine is through on a live
      connection, it has exactly the reply the protocol asks for, with exactly one completion. */
  lemma OneCompletion(ss: seq<Server>, steps: seq<Step>, n: nat, id: Id)
    requires IsRun(ss, steps) && n <= |steps| && id in ss[n].jobs && !ss[n].jobs[id].q.MayPanic()
    ensures var seen, job := Project(ss[n].conn.log, id), ss[n].jobs[id];
            && (forall i | 0 <= i < |seen| - 1 :: !seen[i].Finished?)
            && TaskFits(job.q, job.task)
            && (!ss[n].conn.aborted ==> seen == Reply(job.q, job.task))
            && (!ss[n].conn.aborted ==> Completions(seen) == if job.task.Done? then 1 else 0)
  {
    RunKeepsOk(ss, steps, n);
    assert JobOk(ss[n], id);
    ReplyShape(ss[n].jobs[id].q, ss[n].jobs[id].task);
  }

  /** A method that panics gets a second completion, and for a stream invocation a third: on a
      live connection the answer has exactly one completion if and only if the call did not panic. */
  lemma ExactlyOneIffNoPanic(ss: seq<Server>, steps: seq<Step>, n: nat, id: Id)
    requires IsRun(ss, steps) && n <= |steps| && id in ss[n].jobs
    requires ss[n].jobs[id].task.Done? && !ss[n].conn.aborted
    ensures var seen, q := Project(ss[n].conn.log, id), ss[n].jobs[id].q;
            && Completions(seen) == (if !q.MayPanic() then 1 else if q.kind.Simple? then 2 else 3)
            && (Completions(seen) == 1 <==> !q.MayPanic())
  {
    RunKeepsOk(ss, steps, n);
    assert JobOk(ss[n], id);
    var Job(q, task) := ss[n].jobs[id];
    if !q.MayPanic() {
      ReplyShape(q, task);
    } else {
      var p := [Finished(None, PanicText)];
      assert Completions(p) == 1 by { assert p[..0] == []; }
      assert Completions(p + [Empty]) == 2 by { assert (p + [Empty])[..1] == p; }
      assert Completions(p + [Empty] + [Empty]) == 3 by { assert (p + [Empty] + [Empty])[..2] == p + [Empty]; }
    }
  }

  /* ---- what the answer says ---- */

  /** The answer a finished invocation is due, by its kind and what calling the method did; `k` is the
      number of items of a returned channel that were sent. */
  predicate Due(q: Request, seen: seq<Event>, k: nat) {
    if !q.hub.Found? || (q.kind.Streaming? && q.hub.numOut != 1) then |seen| == 1 && IsError(seen[0])
    else match q.hub.outcome
      case Panics => |seen| > 0 && IsError(seen[0]) && forall i | 0 < i < |seen| :: seen[i] == Finished(None, "")
      case Returns(n, payload) =>
        if q.kind.Streaming? then seen == [Item(payload), Finished(None, "")]
        else if n == 0 then seen == [Finished(None, "")]
        else seen == [Finished(Some(payload), "")]
      case ReturnsChan(items) =>
        if q.kind.Streaming? then k <= |items| && seen == Items(items[..k]) + [Finished(None, "")]
        else if items == [] then |seen| == 1 && IsError(seen[0])
        else seen == [Finished(Some(items[0]), "")]
  }

  predicate IsError(e: Event) { e.Finished? && e.result == None && e.error != "" }

  /** Without a cancel for its id a stream invocation on a live connection sends every item. */
  ghost predicate Uncut(s: Server, id: Id) {
    && id !in s.conn.cancels
    && (id in s.jobs && !s.conn.aborted ==>
          var Job(q, task) := s.jobs[id];
          task.Done? && !q.Refused() && q.hub.outcome.ReturnsChan? && q.kind.Streaming? ==> task.pumped >= |q.hub.outcome.items|)
  }

  lemma NextKeepsUncut(s: Server, step: Step, id: Id)
    requires ServerOk(s) && Enabled(s, step) && Uncut(s, id) && step != Step.Stop(id)
    ensures Uncut(Next(s, step), id)
  {
    if step.Run? { RunStaysUncut(s, step.id, step.ok, id); }
  }

  lemma RunStaysUncut(s: Server, run: Id, ok: bool, id: Id)
    requires ServerOk(s) && Resumable(s, run) && Uncut(s, id)
    ensures Uncut(Resumed(s, run, ok), id)
  {
    assert JobOk(s, run);
    WorkCancels(s.conn, s.jobs[run].q, s.jobs[run].task, ok);
    var Job(q, task) := s.jobs[run];
    if run == id && q.hub.outcome.ReturnsChan? && q.kind.Streaming? { PumpsAll(s.conn, q, task, ok); }
  }

  lemma WorkCancels(c: Sender, q: Request, task: Task, ok: bool)
    requires !q.Refused() && !task.Done?
    ensures var c' := Work(c, q, task, ok).0; c'.cancels <= c.cancels && (c.aborted ==> c'.aborted)
  {
  }

  lemma PumpsAll(c: Sender, q: Request, task: Task, ok: bool)
    requires !q.Refused() && !task.Done? && TaskFits(q, task) && q.id !in c.cancels
    requires q.hub.outcome.ReturnsChan? && q.kind.Streaming?
    ensures var (c', t') := Work(c, q, task, ok); !c'.aborted && t'.Done? ==> t'.pumped >= |q.hub.outcome.items|
  {
  }

  lemma {:induction false} RunKeepsUncut(ss: seq<Server>, steps: seq<Step>, n: nat, id: Id)
    requires IsRun(ss, steps) && n <= |steps| && forall k | 0 <= k < n :: steps[k] != Step.Stop(id)
    ensures Uncut(ss[n], id)
  {
    if n > 0 {
      RunKeepsUncut(ss, steps, n - 1, id);
      RunKeepsOk(ss, steps, n - 1);
      NextKeepsUncut(ss[n - 1], steps[n - 1], id);
    }
  }

  /** Once its goroutine is through on a live connection, an invocation has been answered as it is due:
      an error for a missing method, bad arguments, a method that streams nothing or a channel closed
      empty; otherwise the value or the items, all of them unless a cancel came. */
  lemma AnswerSaysWhatHappened(ss: seq<Server>, steps: seq<Step>, n: nat, id: Id)
    requires IsRun(ss, steps) && n <= |steps| && id in ss[n].jobs
    requires ss[n].jobs[id].task.Done? && !ss[n].conn.aborted
    ensures var Job(q, task) := ss[n].jobs[id];
            && Due(q, Project(ss[n].conn.log, id), task.pumped)
            && ((forall k | 0 <= k < n :: steps[k] != Step.Stop(id)) && !q.Refused() && q.hub.outcome.ReturnsChan? && q.kind.Streaming? ==>
                  task.pumped == |q.hub.outcome.items|)
  {
    RunKeepsOk(ss, steps, n);
    assert JobOk(ss[n], id);
    if forall k | 0 <= k < n :: steps[k] != Step.Stop(id) { RunKeepsUncut(ss, steps, n, id); }
    ReplyIsDue(ss[n].jobs[id].q, ss[n].jobs[id].task);
  }

  lemma ReplyIsDue(q: Request, task: Task)
    requires q.Fits() && TaskFits(q, task) && task.Done?
    ensures Due(q, Reply(q, task), task.pumped)
  {
  }

  /** The handling of invocations with the objects it works on; `now` and `ok` are the time and the
      outcome of the write a call may make. */
  class InvocationHandler {
    const streamer: Streamer
    const hubConn: HubConnection
    var jobs: map<Id, Job>

    ghost predicate Valid() { streamer.conn == hubConn }

    function State(): Server
      requires Valid()
      reads this, streamer, hubConn
    {
      Server(streamer.State(), jobs)
    }

    constructor (maxCancels: nat)
      ensures Valid() && State() == NoJobs(maxCancels)
    {
      var conn := new HubConnection();
      hubConn := conn;
      streamer := new Streamer(conn, maxCancels);
      jobs := map[];
    }

    method HandleInvocationMessage(q: Request, now: int, ok: bool)
      requires Valid()
      modifies this, hubConn
      ensures Valid() && State() == Accept(old(State()), q, ok)
    {
      var task := Calling;
      if q.hub.Missing? {
        var _ := hubConn.WriteMessage(Completion(q.id, None, UnknownMethod), now, ok);
        task := Done(0);
      } else if q.hub.BadArguments? {
        var _ := hubConn.WriteMessage(Completion(q.id, None, ArgumentError), now, ok);
        task := Done(0);
      } else if q.kind.Streaming? && q.hub.numOut != 1 {
        var _ := hubConn.WriteMessage(Completion(q.id, None, NotAStream), now, ok);
        task := Done(0);
      }
      if q.id != "" {
        jobs := jobs[q.id := Job(q, task)];
      }
    }

    /** sendResult; `asItem` says which of the two send functions it is given. */
    method SendResult(id: Id, asItem: bool, count: nat, payload: Raw, now: int, ok: bool)
      requires Valid()
      modifies hubConn
      ensures streamer.State() == old(streamer.State()).Write(
                if count == 0 then Completion(id, None, "")
                else if asItem then StreamItem(id, payload) else Completion(id, Some(payload), ""), ok)
    {
      var m := Completion(id, None, "");
      if count > 0 {
        m := if asItem then StreamItem(id, payload) else Completion(id, Some(payload), "");
      }
      var _ := hubConn.WriteMessage(m, now, ok);
    }

    /** One action of the goroutine of invocation `id`. */
    method Resume(id: Id, now: int, ok: bool)
      requires Valid() && Resumable(State(), id)
      modifies this, streamer, hubConn
      ensures Valid() && State() == Resumed(old(State()), id, ok)
    {
      var Job(q, task) := jobs[id];
      var next := Done(0);
      match task {
        case Calling =>
          match q.hub.outcome {
            case Panics =>
              var _ := hubConn.WriteMessage(Completion(q.id, None, PanicText), now, ok);
              next := Recovered;
            case ReturnsChan(_) => next := if q.kind.Simple? then Awaiting else Pumping(0);
            case Returns(count, payload) =>
              SendResult(q.id, q.kind.Streaming?, count, payload, now, ok);
              if q.kind.Streaming? { next := Finishing; }
          }
        case Recovered =>
          SendResult(q.id, q.kind.Streaming?, 0, "", now, ok);
          if q.kind.Streaming? { next := Finishing; }
        case Awaiting =>
          var items := ChanItems(q);
          if items != [] {
            SendResult(q.id, false, 1, items[0], now, ok);
          } else {
            var _ := hubConn.WriteMessage(Completion(q.id, None, ClosedChan), now, ok);
          }
        case Pumping(n) =>
          var items := ChanItems(q);
          var ended := streamer.Turn(q.id, if n < |items| then Some(items[n]) else None, now, ok);
          next := if ended then Done(n) else Pumping(n + 1);
        case Finishing =>
          var _ := hubConn.WriteMessage(Completion(q.id, None, ""), now, ok);
      }
      jobs := jobs[id := Job(q, next)];
    }
  }
}
