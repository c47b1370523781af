/** The state of a client and its observers (client.go). */
module ClientStates {
  import opened Wrappers
  import opened Channels

  datatype ClientState = Created | Connecting | Connected | Closed

  /** A goroutine of setState that has yet to deliver `state` to channel `ch`. */
  datatype Delivery = Delivery(ch: nat, state: ClientState)

  /** `observers` is stateChangeChans, its channels being indices into `cells`. */
  datatype Client = Client(state: ClientState, observers: seq<nat>, cells: seq<Chan<ClientState>>, pending: multiset<Delivery>) {
    predicate InRange() { (forall ch <- observers :: ch < |cells|) && (forall d <- pending :: d.ch < |cells|) }
  }

  const NewClient := Client(Created, [], [], multiset{})

  type ClientRecord = c: Client | c.InRange() witness NewClient

  datatype Step =
    | SetState(state: ClientState)
    | Deliver(d: Delivery, taken: bool)   // `taken` unless the client is canceled while it waits
    | Make(cap: nat)                      // the caller makes a channel
    | Observe(ch: nat)
    | Cancel(ch: nat)

  predicate Enabled(c: ClientRecord, step: Step) {
    match step
    case Deliver(d, _) => d in c.pending
    case Observe(ch) => ch < |c.cells|
    case Cancel(ch) => ch < |c.cells|
    case _ => true
  }

  /** The goroutines setState starts, one for each entry of the list. */
  function Spawn(observers: seq<nat>, state: ClientState): multiset<Delivery> {
    if observers == [] then multiset{} else multiset{Delivery(observers[0], state)} + Spawn(observers[1..], state)
  }

  lemma {:induction false} SpawnedFromList(observers: seq<nat>, state: ClientState)
    ensures forall d <- Spawn(observers, state) :: d.ch in observers
  {
    if observers != [] { SpawnedFromList(observers[1..], state); }
  }

  /** The send is made once for every entry that is the channel. */
  function SendFor(observers: seq<nat>, ch: nat, state: ClientState, cell: Chan<ClientState>): Chan<ClientState> {
    if observers == [] then cell
    else SendFor(observers[1..], ch, state, if observers[0] == ch then cell.Send(state) else cell)
  }

  /** cancelObserveStateChanged removes the first entry. */
  function RemoveFirst(observers: seq<nat>, ch: nat): seq<nat> {
    if observers == [] then [] else if observers[0] == ch then observers[1..] else [observers[0]] + RemoveFirst(observers[1..], ch)
  }

  lemma {:induction false} RemoveFirstKeeps(observers: seq<nat>, ch: nat)
    ensures forall x <- RemoveFirst(observers, ch) :: x in observers
  {
    if observers != [] && observers[0] != ch { RemoveFirstKeeps(observers[1..], ch); }
  }

  function Next(c: ClientRecord, step: Step): (c': ClientRecord)
    requires Enabled(c, step)
  {
    match step
    case SetState(s) =>
      SpawnedFromList(c.observers, s);
      c.(state := s, pending := c.pending + Spawn(c.observers, s))
    case Deliver(d, taken) =>
      var p := c.pending - multiset{d};
      if taken then c.(pending := p, cells := c.cells[d.ch := SendFor(c.observers, d.ch, d.state, c.cells[d.ch])])
      else c.(pending := p)
    case Make(cap) => c.(cells := c.cells + [MakeChan(cap)])
    case Observe(ch) => c.(observers := c.observers + [ch])
    case Cancel(ch) =>
      RemoveFirstKeeps(c.observers, ch);
      if ch in c.observers then
        c.(observers := RemoveFirst(c.observers, ch), cells := c.cells[ch := c.cells[ch].Close()])
      else c
  }

  /** What the callers have to keep to: a channel is not registered after it was closed, and not
      cancelled while it is in the list more than once.  Distinct observer channels ensure both. */
  predicate Fair(c: ClientRecord, step: Step)
    requires Enabled(c, step)
  {
    match step
    case Observe(ch) => c.cells[ch].closes == 0
    case Cancel(ch) => multiset(c.observers)[ch] <= 1
    case _ => true
  }

  /** `known` are the channels ever registered: one of them is in the list exactly while it is open. */
  ghost predicate Listed(c: Client, known: set<nat>) {
    forall ch <- known :: ch < |c.cells| && (ch in c.observers <==> c.cells[ch].closes == 0)
  }

  ghost predicate Ok(c: Client, known: set<nat>) {
    && c.InRange() && Listed(c, known)
    && (forall i | 0 <= i < |c.cells| :: c.cells[i].Sound())
    && (forall ch <- c.observers :: ch in known)
    && (forall ch | 0 <= ch < |c.cells| && ch !in known :: c.cells[ch].closes == 0)
  }

  lemma {:induction false} SendForEffect(observers: seq<nat>, ch: nat, state: ClientState, cell: Chan<ClientState>)
    ensures var cell' := SendFor(observers, ch, state, cell);
            && cell'.closes == cell.closes
            && (ch !in observers ==> cell' == cell)
            && (cell.closes == 0 ==> cell'.faults == cell.faults)
    decreases |observers|
  {
    if observers != [] {
      SendForEffect(observers[1..], ch, state, if observers[0] == ch then cell.Send(state) else cell);
    }
  }

  lemma CountHead(x: nat, s: seq<nat>)
    ensures multiset([x] + s) == multiset{x} + multiset(s)
  {
  }

  lemma CountLess(x: nat, ch: nat, m: multiset<nat>)
    ensures multiset{x} + m - multiset{ch} == if x == ch then m else multiset{x} + (m - multiset{ch})
  {
  }

  lemma {:induction false} RemoveFirstEffect(observers: seq<nat>, ch: nat)
    ensures multiset(RemoveFirst(observers, ch)) == multiset(observers) - multiset{ch}
  {
    if observers != [] {
      var rest := observers[1..];
      RemoveFirstEffect(rest, ch);
      CountHead(observers[0], rest);
      assert observers == [observers[0]] + rest;
      CountLess(observers[0], ch, multiset(rest));
      if observers[0] != ch { CountHead(observers[0], RemoveFirst(rest, ch)); }
    }
  }

  lemma DeliverKeepsOk(c: ClientRecord, known: set<nat>, d: Delivery, taken: bool)
    requires Ok(c, known) && d in c.pending
    ensures Ok(Next(c, Deliver(d, taken)), known)
  {
    SendForEffect(c.observers, d.ch, d.state, c.cells[d.ch]);
    if d.ch in c.observers { assert d.ch in known; }
  }

  /** After a cancel of a listed channel it is closed, and listed only if it was there twice. */
  lemma CancelEffect(c: ClientRecord, ch: nat)
    requires ch < |c.cells| && ch in c.observers
    ensures var c' := Next(c, Cancel(ch));
            && c'.cells[ch].closes > 0
            && (ch in c'.observers <==> multiset(c.observers)[ch] > 1)
            && (forall x | x != ch :: x in c'.observers <==> x in c.observers)
  {
    RemoveFirstEffect(c.observers, ch);
    var left := RemoveFirst(c.observers, ch);
    assert forall x :: x in left <==> x in multiset(left);
    assert forall x :: x in c.observers <==> x in multiset(c.observers);
  }

  function NowKnown(known: set<nat>, step: Step): set<nat> { if step.Observe? then known + {step.ch} else known }

  lemma NextKeepsOk(c: ClientRecord, known: set<nat>, step: Step)
    requires Ok(c, known) && Enabled(c, step) && Fair(c, step)
    ensures Ok(Next(c, step), NowKnown(known, step))
  {
    match step
    case SetState(s) =>
    case Deliver(d, taken) => DeliverKeepsOk(c, known, d, taken);
    case Make(_) =>
    case Observe(ch) =>
    case Cancel(ch) => if ch in c.observers { CancelEffect(c, ch); assert ch in known; }
  }

  lemma UnfairBreaks(c: ClientRecord, known: set<nat>, step: Step)
    requires Ok(c, known) && Enabled(c, step) && !Fair(c, step)
    ensures !Listed(Next(c, step), NowKnown(known, step))
  {
    if step.Cancel? {
      assert step.ch in multiset(c.observers);
      CancelEffect(c, step.ch);
      assert step.ch in known;
    } else {
      assert step.ch in NowKnown(known, step);
    }
  }

  ghost predicate IsRun(cs: seq<ClientRecord>, steps: seq<Step>) {
    && |cs| == |steps| + 1 && cs[0] == NewClient
    && forall k | 0 <= k < |steps| :: Enabled(cs[k], steps[k]) && cs[k + 1] == Next(cs[k], steps[k])
  }

  /** The channels registered in the first `n` steps. */
  function Known(steps: seq<Step>, n: nat): set<nat>
    requires n <= |steps|
  {
    if n == 0 then {} else NowKnown(Known(steps, n - 1), steps[n - 1])
  }

  ghost predicate FairUpTo(cs: seq<ClientRecord>, steps: seq<Step>, n: nat)
    requires IsRun(cs, steps) && n <= |steps|
  {
    forall k | 0 <= k < n :: Fair(cs[k], steps[k])
  }

  lemma {:induction false} RunKeepsOk(cs: seq<ClientRecord>, steps: seq<Step>, n: nat)
    requires IsRun(cs, steps) && n <= |steps| && FairUpTo(cs, steps, n)
    ensures Ok(cs[n], Known(steps, n))
  {
    if n > 0 {
      RunKeepsOk(cs, steps, n - 1);
      NextKeepsOk(cs[n - 1], Known(steps, n - 1), steps[n - 1]);
    }
  }

  /** Whatever the interleaving of state changes, late deliveries, registrations and cancels, as
      long as callers are fair no observer channel is closed twice or sent to after closing. */
  lemma ObserversAreSafe(cs: seq<ClientRecord>, steps: seq<Step>, n: nat)
    requires IsRun(cs, steps) && n <= |steps| && FairUpTo(cs, steps, n)
    ensures forall i | 0 <= i < |cs[n].cells| :: cs[n].cells[i].Sound()
  {
    RunKeepsOk(cs, steps, n);
  }

  /** An observer is in the list exactly while its channel is open, throughout a run, if and only if
      callers are fair in it. */
  lemma {:induction false} ListedIffFair(cs: seq<ClientRecord>, steps: seq<Step>, n: nat)
    requires IsRun(cs, steps) && n <= |steps|
    ensures (forall k | 0 <= k <= n :: Listed(cs[k], Known(steps, k))) <==> FairUpTo(cs, steps, n)
  {
    if n > 0 {
      ListedIffFair(cs, steps, n - 1);
      if FairUpTo(cs, steps, n - 1) {
        RunKeepsOk(cs, steps, n - 1);
        if Fair(cs[n - 1], steps[n - 1]) {
          RunKeepsOk(cs, steps, n);
        } else {
          UnfairBreaks(cs[n - 1], Known(steps, n - 1), steps[n - 1]);
          assert !Listed(cs[n], Known(steps, n));
        }
      }
    }
  }

  /** Distinct observer channels are fair. */
  lemma {:induction false} DistinctIsFair(cs: seq<ClientRecord>, steps: seq<Step>, n: nat)
    requires IsRun(cs, steps) && n <= |steps|
    requires forall k | 0 <= k < n :: steps[k].Observe? ==> steps[k].ch !in Known(steps, k)
    ensures FairUpTo(cs, steps, n)
    ensures forall ch :: multiset(cs[n].observers)[ch] <= 1
  {
    if n > 0 {
      DistinctIsFair(cs, steps, n - 1);
      RunKeepsOk(cs, steps, n - 1);
      assert Enabled(cs[n - 1], steps[n - 1]) && cs[n] == Next(cs[n - 1], steps[n - 1]);
      NextKeepsDistinct(cs[n - 1], Known(steps, n - 1), steps[n - 1]);
    }
  }

  lemma NextKeepsDistinct(c: ClientRecord, known: set<nat>, step: Step)
    requires Ok(c, known) && Enabled(c, step) && (step.Observe? ==> step.ch !in known)
    requires forall ch :: multiset(c.observers)[ch] <= 1
    ensures Fair(c, step) && forall ch :: multiset(Next(c, step).observers)[ch] <= 1
  {
    if step.Cancel? { RemoveFirstEffect(c.observers, step.ch); }
    if step.Observe? {
      assert step.ch !in c.observers && step.ch !in multiset(c.observers);
      assert multiset(c.observers + [step.ch]) == multiset(c.observers) + multiset{step.ch};
    }
  }

  /* ---- what observers are told ---- */

  /** The state set last. */
  function LastSet(steps: seq<Step>, n: nat): ClientState
    requires n <= |steps|
  {
    if n == 0 then Created else if steps[n - 1].SetState? then steps[n - 1].state else LastSet(steps, n - 1)
  }

  /** How often `s` was set while `ch` was registered. */
  function Announced(cs: seq<ClientRecord>, steps: seq<Step>, n: nat, ch: nat, s: ClientState): nat
    requires |cs| == |steps| + 1 && n <= |steps|
  {
    if n == 0 then 0
    else Announced(cs, steps, n - 1, ch, s) + if steps[n - 1] == SetState(s) && ch in cs[n - 1].observers then 1 else 0
  }

  /** How many deliveries of `s` to `ch` came to nothing: nobody took it, or the channel was no longer
      registered. */
  function Missed(cs: seq<ClientRecord>, steps: seq<Step>, n: nat, ch: nat, s: ClientState): nat
    requires |cs| == |steps| + 1 && n <= |steps|
  {
    if n == 0 then 0
    else
      Missed(cs, steps, n - 1, ch, s) +
      match steps[n - 1]
      case Deliver(d, taken) => if d == Delivery(ch, s) && (!taken || ch !in cs[n - 1].observers) then 1 else 0
      case _ => 0
  }

  lemma {:induction false} SpawnCounts(observers: seq<nat>, state: ClientState, ch: nat, s: ClientState)
    ensures Spawn(observers, state)[Delivery(ch, s)] == if s == state then multiset(observers)[ch] else 0
  {
    if observers != [] {
      SpawnCounts(observers[1..], state, ch, s);
      CountAt(observers, ch);
      OneMore(Delivery(observers[0], state), Spawn(observers[1..], state), Delivery(ch, s));
    }
  }

  lemma CountAt(observers: seq<nat>, ch: nat)
    requires observers != []
    ensures multiset(observers)[ch] == (if observers[0] == ch then 1 else 0) + multiset(observers[1..])[ch]
  {
    CountHead(observers[0], observers[1..]);
    assert observers == [observers[0]] + observers[1..];
  }

  lemma OneMore(d: Delivery, ds: multiset<Delivery>, x: Delivery)
    ensures (multiset{d} + ds)[x] == (if x == d then 1 else 0) + ds[x]
  {
  }

  /** With one entry for the channel the send is made once. */
  lemma {:induction false} SendForOnce(observers: seq<nat>, ch: nat, state: ClientState, cell: Chan<ClientState>)
    requires multiset(observers)[ch] <= 1
    ensures SendFor(observers, ch, state, cell) == if ch in observers then cell.Send(state) else cell
    decreases |observers|
  {
    if observers != [] {
      var rest := observers[1..];
      CountHead(observers[0], rest);
      assert observers == [observers[0]] + rest;
      if observers[0] == ch { assert ch !in multiset(rest) && ch !in rest; }
      SendForOnce(rest, ch, state, if observers[0] == ch then cell.Send(state) else cell);
    }
  }

  /** How often `s` was sent to `ch`, and is still to be. */
  function SentAndPending(c: ClientRecord, ch: nat, s: ClientState): nat {
    (if ch < |c.cells| then multiset(c.cells[ch].sent)[s] else 0) + c.pending[Delivery(ch, s)]
  }

  lemma SetStateTells(c: ClientRecord, state: ClientState, ch: nat, s: ClientState)
    requires multiset(c.observers)[ch] <= 1
    ensures SentAndPending(Next(c, SetState(state)), ch, s)
            == SentAndPending(c, ch, s) + if state == s && ch in c.observers then 1 else 0
  {
    SpawnedFromList(c.observers, state);
    SpawnCounts(c.observers, state, ch, s);
    assert ch in c.observers <==> ch in multiset(c.observers);
  }

  lemma DeliverTells(c: ClientRecord, d: Delivery, taken: bool, ch: nat, s: ClientState)
    requires d in c.pending && multiset(c.observers)[d.ch] <= 1 && (d.ch in c.observers ==> c.cells[d.ch].closes == 0)
    ensures SentAndPending(Next(c, Deliver(d, taken)), ch, s) + (if d == Delivery(ch, s) && (!taken || ch !in c.observers) then 1 else 0)
            == SentAndPending(c, ch, s)
  {
    SendForOnce(c.observers, d.ch, d.state, c.cells[d.ch]);
    OneSent(c.cells[d.ch].sent, d.state, s);
    OneLess(c.pending, d, Delivery(ch, s));
  }

  lemma OneSent(sent: seq<ClientState>, state: ClientState, s: ClientState)
    ensures multiset(sent + [state])[s] == multiset(sent)[s] + if s == state then 1 else 0
  {
    assert multiset(sent + [state]) == multiset(sent) + multiset{state};
  }

  lemma OneLess(ds: multiset<Delivery>, d: Delivery, x: Delivery)
    requires d in ds
    ensures (ds - multiset{d})[x] + (if x == d then 1 else 0) == ds[x]
  {
  }

  lemma CancelTells(c: ClientRecord, step: Step, ch: nat, s: ClientState)
    requires Enabled(c, step) && (step.Cancel? || step.Make? || step.Observe?)
    ensures SentAndPending(Next(c, step), ch, s) == SentAndPending(c, ch, s)
  {
    if step.Cancel? { RemoveFirstKeeps(c.observers, step.ch); }
  }

  /** Distinct observers are told every state that is set, as it is set, and nothing else: in every run
      the deliveries of a state to a channel that were made, are still to be made, or came to nothing
      are as many as the times the state was set while the channel was registered; and the client's
      state is the one set last. */
  lemma {:induction false} ObserversAreTold(cs: seq<ClientRecord>, steps: seq<Step>, n: nat, ch: nat, s: ClientState)
    requires IsRun(cs, steps) && n <= |steps|
    requires forall k | 0 <= k < n :: steps[k].Observe? ==> steps[k].ch !in Known(steps, k)
    ensures SentAndPending(cs[n], ch, s) + Missed(cs, steps, n, ch, s) == Announced(cs, steps, n, ch, s)
    ensures cs[n].state == LastSet(steps, n)
  {
    if n > 0 {
      ObserversAreTold(cs, steps, n - 1, ch, s);
      DistinctIsFair(cs, steps, n - 1);
      RunKeepsOk(cs, steps, n - 1);
      assert Enabled(cs[n - 1], steps[n - 1]) && cs[n] == Next(cs[n - 1], steps[n - 1]);
      NextTells(cs[n - 1], Known(steps, n - 1), steps[n - 1], ch, s);
    }
  }

  lemma NextTells(c: ClientRecord, known: set<nat>, step: Step, ch: nat, s: ClientState)
    requires Ok(c, known) && Enabled(c, step) && forall x :: multiset(c.observers)[x] <= 1
    ensures var missed := if step.Deliver? && step.d == Delivery(ch, s) && (!step.taken || ch !in c.observers) then 1 else 0;
            SentAndPending(Next(c, step), ch, s) + missed
            == SentAndPending(c, ch, s) + if step == SetState(s) && ch in c.observers then 1 else 0
  {
    match step
    case SetState(state) => SetStateTells(c, state, ch, s);
    case Deliver(d, taken) =>
      assert d.ch in c.observers ==> d.ch in known;
      DeliverTells(c, d, taken, ch, s);
    case _ => CancelTells(c, step, ch, s);
  }

  /** A run that takes `steps` ends in `c`. */
  ghost predicate EndsIn(steps: seq<Step>, c: ClientRecord) {
    exists cs: seq<ClientRecord> :: IsRun(cs, steps) && cs[|steps|] == c
  }

  lemma OneStepMore(steps: seq<Step>, c: ClientRecord, step: Step, c': ClientRecord)
    requires EndsIn(steps, c) && Enabled(c, step) && c' == Next(c, step)
    ensures EndsIn(steps + [step], c')
  {
    var cs: seq<ClientRecord> :| IsRun(cs, steps) && cs[|steps|] == c;
    var more, steps' := cs + [c'], steps + [step];
    forall k | 0 <= k < |steps'| ensures Enabled(more[k], steps'[k]) && more[k + 1] == Next(more[k], steps'[k]) {
      StepOfMore(cs, steps, step, c', k);
    }
    assert IsRun(more, steps') && more[|steps'|] == c';
  }

  lemma StepOfMore(cs: seq<ClientRecord>, steps: seq<Step>, step: Step, c': ClientRecord, k: nat)
    requires IsRun(cs, steps) && Enabled(cs[|steps|], step) && c' == Next(cs[|steps|], step) && k <= |steps|
    ensures var more, steps' := cs + [c'], steps + [step];
            Enabled(more[k], steps'[k]) && more[k + 1] == Next(more[k], steps'[k])
  {
    if k < |steps| { assert Enabled(cs[k], steps[k]); }
  }

  /** What goes wrong otherwise: in a run in which a channel is registered twice and cancelled once,
      a delivery that is still under way panics. */
  lemma SharedChannelPanics(cap: nat)
    ensures exists c: ClientRecord ::
              && EndsIn([Make(cap)] + [Observe(0)] + [Observe(0)] + [SetState(Connected)] + [Cancel(0)]
                        + [Deliver(Delivery(0, Connected), true)], c)
              && |c.cells| == 1 && c.cells[0].faults > 0
  {
    RegisteredTwice(cap);
    var c: ClientRecord := Client(Created, [0, 0], [MakeChan(cap)], multiset{});
    var steps := [Make(cap)] + [Observe(0)] + [Observe(0)];
    OneStepMore(steps, c, SetState(Connected), Next(c, SetState(Connected)));
    TwoObservers(cap, steps + [SetState(Connected)], Next(c, SetState(Connected)));
  }

  lemma RegisteredTwice(cap: nat)
    ensures EndsIn([Make(cap)] + [Observe(0)] + [Observe(0)], Client(Created, [0, 0], [MakeChan(cap)], multiset{}))
  {
    var ch, steps: seq<Step> := MakeChan<ClientState>(cap), [];
    assert IsRun([NewClient], steps);
    assert EndsIn(steps, NewClient);
    var c1: ClientRecord := Client(Created, [], [ch], multiset{});
    OneStepMore(steps, NewClient, Make(cap), c1);
    assert steps + [Make(cap)] == [Make(cap)];
    var c2: ClientRecord := Client(Created, [0], [ch], multiset{});
    OneStepMore([Make(cap)], c1, Observe(0), c2);
    OneStepMore([Make(cap)] + [Observe(0)], c2, Observe(0), Client(Created, [0, 0], [ch], multiset{}));
  }

  lemma TwoObservers(cap: nat, steps: seq<Step>, c: ClientRecord)
    requires EndsIn(steps, c) && c.observers == [0, 0] && c.cells == [MakeChan(cap)]
    requires c.pending == Spawn([0, 0], Connected)
    ensures exists c': ClientRecord ::
              && EndsIn(steps + [Cancel(0)] + [Deliver(Delivery(0, Connected), true)], c')
              && |c'.cells| == 1 && c'.cells[0].faults > 0
  {
    var d := Delivery(0, Connected);
    assert [0, 0][1..] == [0] && [0][1..] == [];
    var c5 := Next(c, Cancel(0));
    OneStepMore(steps, c, Cancel(0), c5);
    assert c5.observers == [0] && c5.cells[0].closes == 1 && d in c5.pending;
    var c6 := Next(c5, Deliver(d, true));
    OneStepMore(steps + [Cancel(0)], c5, Deliver(d, true), c6);
    assert c6.cells[0] == SendFor([], 0, Connected, c5.cells[0].Send(Connected));
  }

  /* ---- WaitForState ---- */

  datatype WaitError = NotStarted | ClientClosed | ContextDone | ClientCanceled

  /** What the waiter looks at next: the state, after the start, the registration or a
      notification; or the end of its context or of the client. */
  datatype Look = Saw(state: ClientState) | CallerDone | ClientDone

  /** waitingIsOver and the other cases of the select: None to wait on, else the outcome. */
  function Verdict(waitFor: ClientState, l: Look): Option<Option<WaitError>> {
    match l
    case CallerDone => Some(Some(ContextDone))
    case ClientDone => Some(Some(ClientCanceled))
    case Saw(s) =>
      if s == waitFor then Some(None)
      else if s == Created then Some(Some(NotStarted))
      else if s == Closed then Some(Some(ClientClosed))
      else None
  }

  /** The channel yields at most one error, and it is closed without one exactly when the look
      that ended the wait saw the awaited state; no earlier look could have ended it. */
  method WaitForState(waitFor: ClientState, looks: seq<Look>) returns (errors: seq<WaitError>, closed: bool, used: nat)
    ensures |errors| <= 1 && used <= |looks|
    ensures forall k | 0 <= k < used - 1 :: looks[k].Saw? && looks[k].state !in {waitFor, Created, Closed}
    ensures closed ==> used > 0 && (errors == [] <==> looks[used - 1] == Saw(waitFor))
    ensures errors != [] ==>
              && used > 0
              && (errors == [NotStarted] <==> looks[used - 1] == Saw(Created))
              && (errors == [ClientClosed] <==> looks[used - 1] == Saw(Closed))
              && (errors == [ContextDone] <==> looks[used - 1] == CallerDone)
    ensures !closed ==> errors == [] && used == |looks| && Saw(waitFor) !in looks
  {
    errors, closed, used := [], false, 0;
    while used < |looks|
      invariant errors == [] && !closed && used <= |looks|
      invariant forall k | 0 <= k < used :: Verdict(waitFor, looks[k]).None?
    {
      var v := Verdict(waitFor, looks[used]);
      used := used + 1;
      if v.Some? {
        closed := true;
        if v.value.Some? { errors := [v.value.value]; }
        return;
      }
    }
  }

  class StateObservable {
    var state: ClientState
    var stateChangeChans: seq<nat>
    var cells: seq<Chan<ClientState>>

    constructor ()
      ensures state == Created && stateChangeChans == [] && cells == []
    {
      state, stateChangeChans, cells := Created, [], [];
    }

    /** Returns the goroutines it starts. */
    method SetState(newState: ClientState) returns (spawned: multiset<Delivery>)
      modifies this`state
      ensures state == newState && spawned == Spawn(stateChangeChans, newState)
    {
      state := newState;
      spawned := multiset{};
      var i := |stateChangeChans|;
      while i > 0
        invariant 0 <= i <= |stateChangeChans| && spawned == Spawn(stateChangeChans[i..], newState)
      {
        i := i - 1;
        assert stateChangeChans[i..][1..] == stateChangeChans[i + 1..];
        spawned := multiset{Delivery(stateChangeChans[i], newState)} + spawned;
      }
      assert stateChangeChans[0..] == stateChangeChans;
    }

    method CancelObserveStateChanged(ch: nat)
      requires ch < |cells|
      modifies this`stateChangeChans, this`cells
      ensures ch !in old(stateChangeChans) ==> stateChangeChans == old(stateChangeChans) && cells == old(cells)
      ensures ch in old(stateChangeChans) ==>
                && stateChangeChans == RemoveFirst(old(stateChangeChans), ch)
                && cells == old(cells)[ch := old(cells)[ch].Close()]
    {
      for i := 0 to |stateChangeChans|
        invariant stateChangeChans == old(stateChangeChans) && cells == old(cells)
        invariant ch !in stateChangeChans[..i]
      {
        if stateChangeChans[i] == ch {
          SkipOthers(stateChangeChans, ch, i);
          stateChangeChans := stateChangeChans[..i] + stateChangeChans[i + 1..];
          cells := cells[ch := cells[ch].Close()];
          return;
        }
      }
    }
  }

  lemma {:induction false} SkipOthers(observers: seq<nat>, ch: nat, i: nat)
    requires i < |observers| && observers[i] == ch && ch !in observers[..i]
    ensures RemoveFirst(observers, ch) == observers[..i] + observers[i + 1..]
    decreases i
  {
    if i > 0 {
      assert observers[0] in observers[..i];
      assert observers[1..][..i - 1] == observers[..i][1..];
      SkipOthers(observers[1..], ch, i - 1);
    }
  }
}
