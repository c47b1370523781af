/** The table of negotiated connections and its reaper (httpmux.go). */
module HttpMuxes {
  type Key = string

  /** A negotiateConnection, made by negotiate or by a websocket that skipped negotiation, or a
      connection that is being served. */
  datatype Entry = Pending(connectionID: string, createdAt: int, negotiated: bool) | Live

  type Table = map<Key, Entry>

  function PendingKeys(t: Table): set<Key> { set k <- t | t[k].Pending? }

  function NegotiatedKeys(t: Table): set<Key> { set k <- t | t[k].Pending? && t[k].negotiated }

  /** negotiate: refused when there are too many pending entries; `max` 0 or less means no limit. */
  function Accept(t: Table, key: Key, id: string, now: int, max: int): (Table, bool) {
    if 0 < max <= |PendingKeys(t)| then (t, false) else (t[key := Pending(id, now, true)], true)
  }

  predicate Expired(e: Entry, now: int, ttl: int) { e.Pending? && now - e.createdAt > ttl }

  /** One tick of reaperLoop */
  function Reap(t: Table, now: int, ttl: int): Table { map k | k in t && !Expired(t[k], now, ttl) :: t[k] }

  /** A handler that found a pending entry under `key` and is about to serve a connection: a
      websocket goes by the connection id of the entry, an event stream by the key it was asked for. */
  datatype Claim = Claim(key: Key, id: Key, events: bool)

  /** The table with its limit and time to live, and a clock in which the reaper ticks every `ttl`.
      `used` are the ids and tokens made so far, `served` the ids connections were served under. */
  datatype Mux = Mux(table: Table, now: int, lastTick: int, ttl: int, max: int,
                     used: set<string>, claims: set<Claim>, served: set<Key>)

  datatype Step =
    | Pass(dt: nat)
    | Tick
    | Negotiate(version: int, id: string, token: string)
    | Bare(id: string)                  // a websocket without an id
    | Find(key: Key, events: bool)      // the check of handleWebsocket and handleServerSentEvent
    | Serve(claim: Claim)               // serveConnection puts its connection into the table
    | Leave(id: Key)                    // and removes it

  predicate Enabled(m: Mux, step: Step) {
    match step
    case Pass(dt) => m.now + dt <= m.lastTick + m.ttl
    case Tick => m.now == m.lastTick + m.ttl
    case Find(key, _) => key in m.table && m.table[key].Pending?
    case Serve(c) => c in m.claims
    case Leave(id) => id in m.served
    case _ => true
  }

  /** Version 1 puts the entry under a token of its own. */
  function KeyOf(version: int, id: string, token: string): Key { if version == 1 then token else id }

  function Next(m: Mux, step: Step): Mux
    requires Enabled(m, step)
  {
    match step
    case Pass(dt) => m.(now := m.now + dt)
    case Tick => m.(table := Reap(m.table, m.now, m.ttl), lastTick := m.now)
    case Negotiate(v, id, token) =>
      m.(table := Accept(m.table, KeyOf(v, id, token), id, m.now, m.max).0, used := m.used + {id, KeyOf(v, id, token)})
    case Bare(id) => m.(table := m.table[id := Pending(id, m.now, false)], used := m.used + {id})
    case Find(key, events) =>
      m.(claims := m.claims + {Claim(key, if events then key else m.table[key].connectionID, events)})
    case Serve(c) => m.(table := m.table[c.id := Live], served := m.served + {c.id})
    case Leave(id) => m.(table := m.table - {id})
  }

  /** Negotiated entries are within the limit, and none is older than the last tick allows. */
  ghost predicate MuxOk(m: Mux) {
    && m.lastTick <= m.now <= m.lastTick + m.ttl
    && (m.max > 0 ==> |NegotiatedKeys(m.table)| <= m.max)
    && (forall k <- m.table :: m.table[k].Pending? ==> m.lastTick - m.ttl <= m.table[k].createdAt <= m.now)
  }

  lemma SubsetSize(a: set<Key>, b: set<Key>)
    requires a <= b
    ensures |a| <= |b|
  {
    assert b == a + (b - a);
  }

  lemma NegotiateKeepsLimit(t: Table, key: Key, id: string, now: int, max: int)
    requires max > 0 ==> |NegotiatedKeys(t)| <= max
    ensures max > 0 ==> |NegotiatedKeys(Accept(t, key, id, now, max).0)| <= max
  {
    SubsetSize(NegotiatedKeys(t), PendingKeys(t));
    var t' := t[key := Pending(id, now, true)];
    SubsetSize(NegotiatedKeys(t'), NegotiatedKeys(t) + {key});
  }

  lemma NextKeepsOk(m: Mux, step: Step)
    requires MuxOk(m) && Enabled(m, step) && m.ttl > 0
    ensures MuxOk(Next(m, step))
  {
    match step
    case Negotiate(v, id, token) => NegotiateKeepsLimit(m.table, KeyOf(v, id, token), id, m.now, m.max);
    case _ => SubsetSize(NegotiatedKeys(Next(m, step).table), NegotiatedKeys(m.table));
  }

  function Start(ttl: int, max: int): Mux { Mux(map[], 0, 0, ttl, max, {}, {}, {}) }

  ghost predicate IsRun(ms: seq<Mux>, steps: seq<Step>) {
    && |ms| == |steps| + 1 && ms[0] == Start(ms[0].ttl, ms[0].max) && ms[0].ttl > 0
    && forall j | 0 <= j < |steps| :: Enabled(ms[j], steps[j]) && ms[j + 1] == Next(ms[j], steps[j])
  }

  lemma {:induction false} RunKeepsOk(ms: seq<Mux>, steps: seq<Step>, n: nat)
    requires IsRun(ms, steps) && n <= |steps|
    ensures MuxOk(ms[n]) && ms[n].ttl == ms[0].ttl && ms[n].max == ms[0].max
  {
    if n > 0 {
      RunKeepsOk(ms, steps, n - 1);
      NextKeepsOk(ms[n - 1], steps[n - 1]);
    }
  }

  /** In every run with a limit, the pending entries made by negotiate never exceed it, and no
      pending entry, of whatever origin, is ever older than twice the time to live. */
  lemma PendingIsBounded(ms: seq<Mux>, steps: seq<Step>, n: nat)
    requires IsRun(ms, steps) && n <= |steps|
    ensures ms[0].max > 0 ==> |NegotiatedKeys(ms[n].table)| <= ms[0].max
    ensures forall k <- ms[n].table :: ms[n].table[k].Pending? ==> ms[n].now - ms[n].table[k].createdAt <= 2 * ms[0].ttl
  {
    RunKeepsOk(ms, steps, n);
  }

  /** The reaper removes nothing but pending entries, each at an age above the time to live and at
      most twice that; what it leaves is unchanged, every live connection included. */
  lemma ReapedAtTheRightAge(ms: seq<Mux>, steps: seq<Step>, n: nat)
    requires IsRun(ms, steps) && n < |steps| && steps[n] == Tick
    ensures var m, m', ttl := ms[n], ms[n + 1], ms[0].ttl;
            && (forall k <- m.table :: k !in m'.table <==>
                  m.table[k].Pending? && ttl < m.now - m.table[k].createdAt <= 2 * ttl)
            && (forall k <- m'.table :: k in m.table && m'.table[k] == m.table[k])
            && (forall k <- m.table :: m.table[k].Live? ==> k in m'.table)
  {
    RunKeepsOk(ms, steps, n);
  }

  /** The bound is reached: an entry made at the moment of a tick survives the next one. */
  lemma OldestAgeIsReached(ttl: int, key: Key)
    requires ttl > 0
    ensures exists ms: seq<Mux>, steps: seq<Step> :: IsRun(ms, steps) && |steps| == 4 && ms[0].ttl == ttl && key in ms[4].table
                                && ms[4].table[key] == Pending(key, 0, true) && ms[4].now == 2 * ttl
  {
    var m0 := Start(ttl, 1);
    var m1 := Next(m0, Step.Negotiate(0, key, key));
    var m2 := Next(m1, Pass(ttl));
    var m3 := Next(m2, Tick);
    var m4 := Next(m3, Pass(ttl));
    var ms, steps := [m0, m1, m2, m3, m4], [Step.Negotiate(0, key, key), Pass(ttl), Tick, Pass(ttl)];
    assert |PendingKeys(m0.table)| == 0;
    assert IsRun(ms, steps);
  }

  /* ---- what serving does to the pending entry ---- */

  /** newConnectionID makes a name that was not there before. */
  predicate NewNames(m: Mux, step: Step) {
    match step
    case Negotiate(v, id, token) => id !in m.used && (v == 1 ==> token !in m.used && token != id)
    case Bare(id) => id !in m.used
    case _ => true
  }

  ghost predicate AllNew(ms: seq<Mux>, steps: seq<Step>, n: nat)
    requires |ms| == |steps| + 1 && n <= |steps|
  {
    forall j | 0 <= j < n :: NewNames(ms[j], steps[j])
  }

  /** Everything goes by names that were made, and a websocket's claim has the id of the entry it found. */
  ghost predicate NamesOk(m: Mux) {
    && (forall k <- m.table :: k in m.used && (m.table[k].Pending? ==> m.table[k].connectionID in m.used))
    && (forall c <- m.claims :: c.key in m.used && c.id in m.used && (c.events ==> c.id == c.key))
    && (forall id <- m.served :: id in m.used)
    && (forall c <- m.claims :: c.key in m.table && m.table[c.key].Pending? && !c.events ==>
          c.id == m.table[c.key].connectionID)
  }

  lemma NextKeepsNames(m: Mux, step: Step)
    requires NamesOk(m) && Enabled(m, step) && NewNames(m, step)
    ensures NamesOk(Next(m, step))
  {
  }

  lemma {:induction false} RunKeepsNames(ms: seq<Mux>, steps: seq<Step>, n: nat)
    requires IsRun(ms, steps) && n <= |steps| && AllNew(ms, steps, n)
    ensures NamesOk(ms[n])
  {
    if n > 0 {
      RunKeepsNames(ms, steps, n - 1);
      NextKeepsNames(ms[n - 1], steps[n - 1]);
    }
  }

  /** In every run, serving a connection frees the pending entry it was found under if and only if
      it came as an event stream or the entry was negotiated under its own connection id. */
  lemma ServeFreesIff(ms: seq<Mux>, steps: seq<Step>, n: nat)
    requires IsRun(ms, steps) && n < |steps| && AllNew(ms, steps, n) && steps[n].Serve?
    requires steps[n].claim.key in PendingKeys(ms[n].table)
    ensures var c := steps[n].claim;
            c.key !in PendingKeys(ms[n + 1].table) <==> c.events || ms[n].table[c.key].connectionID == c.key
  {
    RunKeepsNames(ms, steps, n);
    assert ms[n + 1] == Next(ms[n], steps[n]);
  }

  /** A negotiation is answered with a connection exactly if its entry is then pending under the key it
      was told; it is refused exactly if there is a limit and that many entries are pending, and then
      changes nothing. */
  lemma NegotiationIsAnswered(ms: seq<Mux>, steps: seq<Step>, n: nat)
    requires IsRun(ms, steps) && n < |steps| && AllNew(ms, steps, n + 1) && steps[n].Negotiate?
    ensures var m, key := ms[n], KeyOf(steps[n].version, steps[n].id, steps[n].token);
            var (t, accepted) := Accept(m.table, key, steps[n].id, m.now, m.max);
            && ms[n + 1].table == t
            && (accepted <==> key in t) && (key in t ==> t[key] == Pending(steps[n].id, m.now, true) && t - {key} == m.table)
            && (!accepted <==> 0 < m.max <= |PendingKeys(m.table)|) && (!accepted ==> t == m.table)
  {
    RunKeepsNames(ms, steps, n);
    assert NewNames(ms[n], steps[n]);
    assert ms[n + 1] == Next(ms[n], steps[n]);
  }

  /** Since when an entry under `key` has been waiting: made by an accepted negotiation or a bare
      websocket, and since then neither found expired by a tick nor served nor removed. */
  function WaitingSince(ms: seq<Mux>, steps: seq<Step>, n: nat, key: Key): set<int>
    requires |ms| == |steps| + 1 && n <= |steps|
  {
    if n == 0 then {}
    else
      var m, since := ms[n - 1], WaitingSince(ms, steps, n - 1, key);
      match steps[n - 1]
      case Negotiate(v, id, token) =>
        if KeyOf(v, id, token) == key && !(0 < m.max <= |PendingKeys(m.table)|) then {m.now} else since
      case Bare(id) => if id == key then {m.now} else since
      case Tick => set t <- since | m.now - t <= m.ttl
      case Serve(c) => if c.id == key then {} else since
      case Leave(id) => if id == key then {} else since
      case _ => since
  }

  /** The pending entries of the table are, in every run, exactly those that have been waiting, each
      with the time it was made. */
  lemma {:induction false} PendingIffWaiting(ms: seq<Mux>, steps: seq<Step>, n: nat, key: Key)
    requires IsRun(ms, steps) && n <= |steps|
    ensures WaitingSince(ms, steps, n, key)
            == if key in ms[n].table && ms[n].table[key].Pending? then {ms[n].table[key].createdAt} else {}
  {
    if n > 0 {
      PendingIffWaiting(ms, steps, n - 1, key);
      assert Enabled(ms[n - 1], steps[n - 1]) && ms[n] == Next(ms[n - 1], steps[n - 1]);
    }
  }

  /** Whether a connection was put under `key` last, rather than removed. */
  function Serving(steps: seq<Step>, n: nat, key: Key): bool
    requires n <= |steps|
  {
    n > 0 &&
    match steps[n - 1]
    case Serve(c) => c.id == key || Serving(steps, n - 1, key)
    case Leave(id) => id != key && Serving(steps, n - 1, key)
    case _ => Serving(steps, n - 1, key)
  }

  /** The live entries of the table are, in every run, exactly the connections that are being served. */
  lemma {:induction false} LiveIffServing(ms: seq<Mux>, steps: seq<Step>, n: nat, key: Key)
    requires IsRun(ms, steps) && n <= |steps| && AllNew(ms, steps, n)
    ensures key in ms[n].table && ms[n].table[key].Live? <==> Serving(steps, n, key)
  {
    if n > 0 {
      LiveIffServing(ms, steps, n - 1, key);
      RunKeepsNames(ms, steps, n - 1);
      assert NewNames(ms[n - 1], steps[n - 1]);
      assert ms[n] == Next(ms[n - 1], steps[n - 1]);
    }
  }

  /** Nothing but its own event stream can touch the entry under `token`. */
  ghost predicate Untouchable(m: Mux, token: Key) {
    && token in m.used && token !in m.served
    && (forall c <- m.claims :: c.id != token)
    && (forall k <- m.table :: m.table[k].Pending? ==> m.table[k].connectionID != token)
  }

  ghost predicate Holds(m: Mux, token: Key, e: Entry) { token in m.table && m.table[token] == e }

  /** No tick between steps `j` and `n` found the entry made at `t` expired. */
  ghost predicate NotReaped(ms: seq<Mux>, steps: seq<Step>, j: nat, n: nat, t: int)
    requires |ms| == |steps| + 1 && n <= |steps|
  {
    forall i | j < i < n :: steps[i] == Tick ==> ms[i].now - t <= ms[0].ttl
  }

  lemma TouchNot(m: Mux, step: Step, token: Key, e: Entry)
    requires Untouchable(m, token) && Enabled(m, step) && NewNames(m, step) && step != Find(token, true) && e.Pending?
    ensures Untouchable(Next(m, step), token)
    ensures Holds(Next(m, step), token, e) <==> Holds(m, token, e) && !(step == Tick && Expired(e, m.now, m.ttl))
  {
  }

  /** An entry negotiated under a token stays pending, and counts against the limit, whatever
      websockets are served through it, exactly until a tick finds it expired; only an event stream
      asked for under the token could end it earlier. */
  lemma {:induction false} TokenEntryStaysIff(ms: seq<Mux>, steps: seq<Step>, j: nat, n: nat)
    requires IsRun(ms, steps) && j < n <= |steps| && AllNew(ms, steps, n)
    requires steps[j].Negotiate? && steps[j].version == 1 && (ms[0].max > 0 ==> |PendingKeys(ms[j].table)| < ms[0].max)
    requires forall i | j < i < n :: steps[i] != Find(steps[j].token, true)
    ensures Untouchable(ms[n], steps[j].token)
    ensures Holds(ms[n], steps[j].token, Pending(steps[j].id, ms[j].now, true)) <==> NotReaped(ms, steps, j, n, ms[j].now)
    ensures NotReaped(ms, steps, j, n, ms[j].now) ==> steps[j].token in NegotiatedKeys(ms[n].table)
  {
    var token, e := steps[j].token, Pending(steps[j].id, ms[j].now, true);
    RunKeepsOk(ms, steps, n - 1);
    if n == j + 1 {
      RunKeepsNames(ms, steps, j);
      assert ms[n] == Next(ms[j], steps[j]);
      assert Untouchable(ms[n], token);
      assert Holds(ms[n], token, e);
    } else {
      TokenEntryStaysIff(ms, steps, j, n - 1);
      assert ms[n] == Next(ms[n - 1], steps[n - 1]);
      TouchNot(ms[n - 1], steps[n - 1], token, e);
    }
  }

  /** The counting loop of negotiate. */
  method CountPending(t: Table) returns (pending: nat)
    ensures pending == |PendingKeys(t)|
  {
    pending := 0;
    var todo := t.Keys;
    while todo != {}
      invariant todo <= t.Keys && pending == |PendingKeys(t) - todo|
    {
      var k :| k in todo;
      ghost var counted := PendingKeys(t) - todo;
      todo := todo - {k};
      assert PendingKeys(t) - todo == if t[k].Pending? then counted + {k} else counted;
      if t[k].Pending? { pending := pending + 1; }
    }
    assert PendingKeys(t) - {} == PendingKeys(t);
  }

  /** The deleting loop of reaperLoop. */
  method ReapLoop(t: Table, now: int, ttl: int) returns (left: Table)
    ensures left == Reap(t, now, ttl)
  {
    left := t;
    var todo := t.Keys;
    while todo != {}
      invariant todo <= t.Keys
      invariant left == map k | k in t && (k in todo || !Expired(t[k], now, ttl)) :: t[k]
    {
      var k :| k in todo;
      todo := todo - {k};
      if Expired(t[k], now, ttl) { left := left - {k}; }
    }
  }

  class HttpMux {
    var connectionMap: Table
    const handshakeTimeout: int
    const maxNegotiationConnections: int

    constructor (handshakeTimeout: int, maxNegotiationConnections: int)
      ensures connectionMap == map[] && this.handshakeTimeout == handshakeTimeout
      ensures this.maxNegotiationConnections == maxNegotiationConnections
    {
      connectionMap := map[];
      this.handshakeTimeout, this.maxNegotiationConnections := handshakeTimeout, maxNegotiationConnections;
    }

    /** Version 1 puts the entry under a token of its own. */
    method Negotiate(version: int, id: string, token: string, now: int) returns (accepted: bool)
      modifies this
      ensures (connectionMap, accepted) ==
              Accept(old(connectionMap), if version == 1 then token else id, id, now, maxNegotiationConnections)
    {
      var key := id;
      if version == 1 { key := token; }
      if maxNegotiationConnections > 0 {
        var pending := CountPending(connectionMap);
        if pending >= maxNegotiationConnections {
          return false;
        }
      }
      connectionMap := connectionMap[key := Pending(id, now, true)];
      return true;
    }

    method OnReaperTick(now: int)
      modifies this
      ensures connectionMap == Reap(old(connectionMap), now, handshakeTimeout)
    {
      connectionMap := ReapLoop(connectionMap, now, handshakeTimeout);
    }
  }
}
