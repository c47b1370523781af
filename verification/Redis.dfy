/** Several server instances that share their groups and broadcasts through Redis
    (ext/redishublifetimemnager.go). */
module RedisHub {
  type ConnId = string
  type Group = string

  const AllChannel := "signalr:all"
  const GroupChannelPrefix := "signalr:group:"
  const MembershipPrefix := "signalr:groupmembers:"

  function GroupChannel(g: Group): string { GroupChannelPrefix + g }

  function MembershipKey(g: Group): string { MembershipPrefix + g }

  lemma KeyIsInjective(g: Group, h: Group)
    requires MembershipKey(g) == MembershipKey(h)
    ensures g == h
  {
    assert g == MembershipKey(g)[|MembershipPrefix|..];
    assert h == MembershipKey(h)[|MembershipPrefix|..];
  }

  /* ---- Redis sets ---- */

  type Sets = map<string, set<ConnId>>

  function Members(sets: Sets, g: Group): set<ConnId> {
    if MembershipKey(g) in sets then sets[MembershipKey(g)] else {}
  }

  function SAdd(sets: Sets, g: Group, c: ConnId): Sets { sets[MembershipKey(g) := Members(sets, g) + {c}] }

  /** SREM of one member from the sets under `keys`. */
  function SRem(sets: Sets, keys: set<string>, c: ConnId): Sets {
    map k <- sets :: if k in keys then sets[k] - {c} else sets[k]
  }

  function Keys(gs: set<Group>): set<string> { set g <- gs :: MembershipKey(g) }

  lemma MembersAdded(sets: Sets, g: Group, c: ConnId, h: Group)
    ensures Members(SAdd(sets, g, c), h) == if h == g then Members(sets, h) + {c} else Members(sets, h)
  {
    if MembershipKey(g) == MembershipKey(h) { KeyIsInjective(g, h); }
  }

  lemma MembersRemoved(sets: Sets, gs: set<Group>, c: ConnId, h: Group)
    ensures Members(SRem(sets, Keys(gs), c), h) == if h in gs then Members(sets, h) - {c} else Members(sets, h)
  {
    if MembershipKey(h) in Keys(gs) {
      var g :| g in gs && MembershipKey(g) == MembershipKey(h);
      KeyIsInjective(g, h);
    }
  }

  /* ---- one instance ---- */

  /** `clients` are the local connections, `cache` is connectionGroups, and `handled` counts the
      published messages this instance has taken from its subscription so far. */
  datatype Instance = Instance(clients: set<ConnId>, cache: map<ConnId, set<Group>>, handled: nat)

  /** How a Redis command went: a command that reports no error took effect, one that reports an
      error may have. */
  datatype Reply = Reply(err: bool, applied: bool) {
    predicate Possible() { !err ==> applied }
  }

  /** OnConnected */
  function Joined(n: Instance, c: ConnId): Instance {
    n.(clients := n.clients + {c}, cache := n.cache[c := {}])
  }

  /** OnDisconnected; `removed` are the groups whose SREM in the pipeline took effect. */
  function Left(n: Instance, sets: Sets, c: ConnId, removed: set<Group>): (Instance, Sets) {
    (n.(clients := n.clients - {c}, cache := n.cache - {c}),
     if c in n.cache then SRem(sets, Keys(n.cache[c] * removed), c) else sets)
  }

  function CacheOf(n: Instance, c: ConnId): set<Group> { if c in n.cache then n.cache[c] else {} }

  /** AddToGroup */
  function Added(n: Instance, sets: Sets, g: Group, c: ConnId, r: Reply): (Instance, Sets) {
    (n.(cache := n.cache[c := if r.err then CacheOf(n, c) - {g} else CacheOf(n, c) + {g}]),
     if r.applied then SAdd(sets, g, c) else sets)
  }

  /** RemoveFromGroup */
  function Removed(n: Instance, sets: Sets, g: Group, c: ConnId, r: Reply): (Instance, Sets) {
    (if c in n.cache then n.(cache := n.cache[c := n.cache[c] - {g}]) else n,
     if r.applied then SRem(sets, Keys({g}), c) else sets)
  }

  /* ---- publishing and dispatching ---- */

  /** redisInvocation and the channel it was published on; `call` stands for method and arguments. */
  datatype Post = Post(channel: string, call: string, excluded: seq<ConnId>, group: Group, connection: ConnId, source: nat)

  datatype Target = Everyone | Client(id: ConnId) | InGroup(name: Group)

  /** InvokeAll, InvokeClient, InvokeGroup and the Except variants */
  function Publish(source: nat, target: Target, call: string, excluded: seq<ConnId>): Post {
    match target
    case Everyone => Post(AllChannel, call, excluded, "", "", source)
    case Client(id) => Post(AllChannel, call, excluded, "", id, source)
    case InGroup(g) => Post(GroupChannel(g), call, excluded, g, "", source)
  }

  /** handleRedisMessage: the local connections the message is sent to.  `failing` are those whose
      SISMEMBER query fails. */
  function Recipients(i: nat, n: Instance, sets: Sets, m: Post, failing: set<ConnId>): set<ConnId> {
    if m.source == i then {}
    else if m.connection != "" then
      if m.connection in n.clients && m.connection !in m.excluded then {m.connection} else {}
    else if m.group != "" && GroupChannelPrefix <= m.channel then
      set c <- n.clients | c !in m.excluded && c !in failing && c in Members(sets, m.group)
    else if m.connection == "" && m.group == "" && m.channel == AllChannel then
      set c <- n.clients | c !in m.excluded
    else {}
  }

  predicate Selects(t: Target, sets: Sets, c: ConnId) {
    match t
    case Everyone => true
    case Client(id) => c == id
    case InGroup(g) => c in Members(sets, g)
  }

  /** Whom a published call is meant for on instance `i`. */
  function Intended(i: nat, n: Instance, sets: Sets, source: nat, t: Target, excluded: seq<ConnId>): set<ConnId> {
    set c <- n.clients | i != source && c !in excluded && Selects(t, sets, c)
  }

  predicate Named(t: Target) { (t.Client? ==> t.id != "") && (t.InGroup? ==> t.name != "") }

  lemma NamedIsExact(i: nat, n: Instance, sets: Sets, source: nat, t: Target, call: string, excluded: seq<ConnId>, failing: set<ConnId>)
    requires Named(t)
    ensures Recipients(i, n, sets, Publish(source, t, call, excluded), failing)
            == Intended(i, n, sets, source, t, excluded) - if t.InGroup? then failing else {}
  {
  }

  /** A target is reached exactly, whatever the state, if and only if it has a name: a client call
      with an empty id goes to everyone, a group call with an empty name to nobody. */
  lemma ExactIffNamed(t: Target)
    ensures Named(t) <==>
            forall i: nat, n: Instance, sets: Sets, source: nat, call: string, excluded: seq<ConnId> ::
              Recipients(i, n, sets, Publish(source, t, call, excluded), {}) == Intended(i, n, sets, source, t, excluded)
  {
    if Named(t) {
      forall i: nat, n: Instance, sets: Sets, source: nat, call: string, excluded: seq<ConnId>
        ensures Recipients(i, n, sets, Publish(source, t, call, excluded), {}) == Intended(i, n, sets, source, t, excluded)
      {
        NamedIsExact(i, n, sets, source, t, call, excluded, {});
      }
    } else {
      var n, sets := Instance({"c"}, map[], 0), SAdd(map[], "", "c");
      var got, want := Recipients(1, n, sets, Publish(0, t, "", []), {}), Intended(1, n, sets, 0, t, []);
      assert t.Client? ==> "c" in got && "c" !in want;
      assert t.InGroup? ==> "c" !in got && "c" in want;
    }
  }

  /** PSubscribe delivers a message once for each of the two subscribed patterns it matches. */
  function Matches(channel: string): nat {
    (if channel == AllChannel then 1 else 0) + if GroupChannelPrefix <= channel then 1 else 0
  }

  lemma OnePatternEach(source: nat, t: Target, call: string, excluded: seq<ConnId>)
    ensures Matches(Publish(source, t, call, excluded).channel) == 1
  {
    var ch := Publish(source, t, call, excluded).channel;
    assert AllChannel[8] == 'a' && GroupChannelPrefix[8] == 'g';
    if t.InGroup? { assert ch[8] == 'g'; }
  }

  /* ---- the cluster ---- */

  datatype Publication = Publication(source: nat, target: Target, call: string, excluded: seq<ConnId>) {
    function Message(): Post { Publish(source, target, call, excluded) }
  }

  /** A SendInvocation of `call` to connection `conn` caused by publication number `serial`. */
  datatype Delivery = Delivery(serial: nat, conn: ConnId, call: string)

  /** Every subscriber sees the publications in order, so `pubs` from `handled` on is what an
      instance has queued.  `owner` records on which instance each connection was made. */
  datatype Cluster = Cluster(nodes: seq<Instance>, sets: Sets, pubs: seq<Publication>,
                             sends: multiset<Delivery>, owner: map<ConnId, nat>)

  datatype Step =
    | Connect(i: nat, c: ConnId)
    | Disconnect(i: nat, c: ConnId, removed: set<Group>)
    | Add(i: nat, g: Group, c: ConnId, r: Reply)
    | Remove(i: nat, g: Group, c: ConnId, r: Reply)
    | Invoke(i: nat, target: Target, call: string, excluded: seq<ConnId>)
    | Handle(i: nat, failing: set<ConnId>)

  /** Connection ids are globally unique, and group calls are made on the instance the connection was
      made on, before or after it is gone: hub callbacks run beside the disconnect. */
  predicate Enabled(k: Cluster, step: Step) {
    step.i < |k.nodes| &&
    match step
    case Connect(_, c) => c !in k.owner
    case Disconnect(i, c, _) => c in k.nodes[i].clients
    case Add(i, _, c, r) => c in k.owner && k.owner[c] == i && r.Possible()
    case Remove(i, _, c, r) => c in k.owner && k.owner[c] == i && r.Possible()
    case Invoke(_, _, _, _) => true
    case Handle(i, _) => k.nodes[i].handled < |k.pubs|
  }

  function Deliveries(serial: nat, cs: set<ConnId>, call: string): set<Delivery> { set c <- cs :: Delivery(serial, c, call) }

  function Next(k: Cluster, step: Step): Cluster
    requires Enabled(k, step)
  {
    var n := k.nodes[step.i];
    match step
    case Connect(i, c) => k.(nodes := k.nodes[i := Joined(n, c)], owner := k.owner[c := i])
    case Disconnect(i, c, removed) =>
      var (n', sets') := Left(n, k.sets, c, removed); k.(nodes := k.nodes[i := n'], sets := sets')
    case Add(i, g, c, r) =>
      var (n', sets') := Added(n, k.sets, g, c, r); k.(nodes := k.nodes[i := n'], sets := sets')
    case Remove(i, g, c, r) =>
      var (n', sets') := Removed(n, k.sets, g, c, r); k.(nodes := k.nodes[i := n'], sets := sets')
    case Invoke(i, t, call, excluded) =>
      var p := Publication(i, t, call, excluded);
      k.(pubs := k.pubs + seq(Matches(p.Message().channel), _ => p))
    case Handle(i, failing) =>
      var serial, post := n.handled, k.pubs[n.handled].Message();
      var cs := Recipients(i, n, k.sets, post, failing);
      k.(nodes := k.nodes[i := n.(handled := serial + 1)], sends := k.sends + multiset(Deliveries(serial, cs, post.call)))
  }

  /* ---- delivery over every run ---- */

  ghost predicate Homed(k: Cluster) {
    forall i, c | 0 <= i < |k.nodes| && c in k.nodes[i].clients :: c in k.owner && k.owner[c] == i
  }

  /** A delivery was made once, by the home of the connection, not by the publisher, and not to an
      excluded connection; and that home has the publication behind it. */
  ghost predicate DeliveryOk(k: Cluster, d: Delivery) {
    d in k.sends ==>
      && k.sends[d] == 1 && d.conn in k.owner && k.owner[d.conn] < |k.nodes|
      && d.serial < k.nodes[k.owner[d.conn]].handled && d.serial < |k.pubs|
      && k.pubs[d.serial].source != k.owner[d.conn] && d.conn !in k.pubs[d.serial].excluded
      && d.call == k.pubs[d.serial].call
  }

  ghost predicate ClusterOk(k: Cluster) {
    Homed(k) && forall d :: DeliveryOk(k, d)
  }

  lemma HandleKeepsOk(k: Cluster, i: nat, failing: set<ConnId>)
    requires ClusterOk(k) && Enabled(k, Handle(i, failing))
    ensures ClusterOk(Next(k, Handle(i, failing)))
  {
    var k' := Next(k, Handle(i, failing));
    var n := k.nodes[i];
    var cs := Recipients(i, n, k.sets, k.pubs[n.handled].Message(), failing);
    var more := Deliveries(n.handled, cs, k.pubs[n.handled].Message().call);
    forall d ensures DeliveryOk(k', d) {
      assert DeliveryOk(k, d);
      if d in more { assert d.serial == n.handled && d.conn in cs && d.conn in n.clients; }
    }
  }

  lemma NextKeepsOk(k: Cluster, step: Step)
    requires ClusterOk(k) && Enabled(k, step)
    ensures ClusterOk(Next(k, step))
  {
    if step.Handle? {
      HandleKeepsOk(k, step.i, step.failing);
    } else {
      forall d ensures DeliveryOk(Next(k, step), d) { assert DeliveryOk(k, d); }
    }
  }

  function Fresh(n: nat): Cluster {
    Cluster(seq(n, i => Instance({}, map[], 0)), map[], [], multiset{}, map[])
  }

  ghost predicate MovesAt(ks: seq<Cluster>, steps: seq<Step>, j: nat)
    requires |ks| == |steps| + 1 && j < |steps|
  {
    Enabled(ks[j], steps[j]) && ks[j + 1] == Next(ks[j], steps[j])
  }

  ghost predicate IsRun(ks: seq<Cluster>, steps: seq<Step>) {
    && |ks| == |steps| + 1 && ks[0] == Fresh(|ks[0].nodes|)
    && forall j | 0 <= j < |steps| :: MovesAt(ks, steps, j)
  }

  lemma {:induction false} RunKeepsOk(ks: seq<Cluster>, steps: seq<Step>, n: nat)
    requires IsRun(ks, steps) && n <= |steps|
    ensures ClusterOk(ks[n])
  {
    if n > 0 {
      RunKeepsOk(ks, steps, n - 1);
      assert MovesAt(ks, steps, n - 1);
      NextKeepsOk(ks[n - 1], steps[n - 1]);
    }
  }

  /** The publications of the first `n` steps. */
  function Invocations(steps: seq<Step>, n: nat): seq<Publication>
    requires n <= |steps|
  {
    if n == 0 then []
    else
      Invocations(steps, n - 1) +
      match steps[n - 1]
      case Invoke(i, t, call, excluded) => [Publication(i, t, call, excluded)]
      case _ => []
  }

  /** What is queued for the subscribers is each publication once, in order. */
  lemma {:induction false} QueuedOnce(ks: seq<Cluster>, steps: seq<Step>, n: nat)
    requires IsRun(ks, steps) && n <= |steps|
    ensures ks[n].pubs == Invocations(steps, n)
  {
    if n > 0 {
      QueuedOnce(ks, steps, n - 1);
      var step := steps[n - 1];
      assert MovesAt(ks, steps, n - 1);
      if step.Invoke? { OnePatternEach(step.i, step.target, step.call, step.excluded); }
    }
  }

  /** In every run a publication causes at most one send per connection, none on the instance that
      published it and none to an excluded connection. */
  lemma AtMostOneSend(ks: seq<Cluster>, steps: seq<Step>, n: nat, d: Delivery)
    requires IsRun(ks, steps) && n <= |steps|
    ensures ks[n].pubs == Invocations(steps, n)
    ensures ks[n].sends[d] <= 1
    ensures d in ks[n].sends ==>
              && d.serial < |ks[n].pubs| && d.conn in ks[n].owner
              && ks[n].owner[d.conn] != ks[n].pubs[d.serial].source && d.conn !in ks[n].pubs[d.serial].excluded
              && d.call == ks[n].pubs[d.serial].call
  {
    QueuedOnce(ks, steps, n);
    RunKeepsOk(ks, steps, n);
    assert DeliveryOk(ks[n], d);
  }

  /** When an instance handles a publication with a named target and no failing query, it adds
      exactly the sends to the local connections the target selects at that moment.  It publishes
      nothing, and no other step sends anything. */
  lemma HandleReachesTheIntended(ks: seq<Cluster>, steps: seq<Step>, n: nat)
    requires IsRun(ks, steps) && n < |steps|
    ensures MovesAt(ks, steps, n)
    ensures var k, k', step := ks[n], ks[n + 1], steps[n];
            if !step.Handle? then k'.sends == k.sends
            else
              var s := k.nodes[step.i].handled;
              var p := k.pubs[s];
              && k'.pubs == k.pubs && k'.nodes[step.i].handled == s + 1
              && (Named(p.target) ==>
                    forall c :: k'.sends[Delivery(s, c, p.call)] ==
                                if c in Intended(step.i, k.nodes[step.i], k.sets, p.source, p.target, p.excluded)
                                   && !(p.target.InGroup? && c in step.failing)
                                then 1 else k.sends[Delivery(s, c, p.call)])
              && (forall d: Delivery | d.serial != s :: k'.sends[d] == k.sends[d])
  {
    var k, step := ks[n], steps[n];
    assert MovesAt(ks, steps, n);
    if step.Handle? {
      RunKeepsOk(ks, steps, n);
      RunKeepsOk(ks, steps, n + 1);
      var s := k.nodes[step.i].handled;
      var p := k.pubs[s];
      NamedOrNot(k, step.i, step.failing);
      var cs := Recipients(step.i, k.nodes[step.i], k.sets, p.Message(), step.failing);
      forall c ensures ks[n + 1].sends[Delivery(s, c, p.call)] == if c in cs then 1 else k.sends[Delivery(s, c, p.call)] {
        assert DeliveryOk(ks[n + 1], Delivery(s, c, p.call));
        assert Delivery(s, c, p.call) in Deliveries(s, cs, p.call) <==> c in cs;
      }
    }
  }

  lemma NamedOrNot(k: Cluster, i: nat, failing: set<ConnId>)
    requires Enabled(k, Handle(i, failing))
    ensures var p := k.pubs[k.nodes[i].handled];
            Named(p.target) ==>
            Recipients(i, k.nodes[i], k.sets, p.Message(), failing)
            == Intended(i, k.nodes[i], k.sets, p.source, p.target, p.excluded) - if p.target.InGroup? then failing else {}
  {
    var p := k.pubs[k.nodes[i].handled];
    if Named(p.target) { NamedIsExact(i, k.nodes[i], k.sets, p.source, p.target, p.call, p.excluded, failing); }
  }

  /* ---- the membership cache ---- */

  /** The cache knows the local connections and no foreign ones, and every group it lists for one has
      it in Redis. */
  ghost predicate CacheOk(k: Cluster) {
    && Homed(k)
    && (forall i | 0 <= i < |k.nodes| :: k.nodes[i].clients <= k.nodes[i].cache.Keys)
    && (forall i, c | 0 <= i < |k.nodes| && c in k.nodes[i].cache :: c in k.owner && k.owner[c] == i)
    && (forall i, c, g | 0 <= i < |k.nodes| && c in k.nodes[i].cache && g in k.nodes[i].cache[c] ::
          c in Members(k.sets, g))
  }

  /** Redis has no member that the cache of its home does not list. */
  ghost predicate NothingStale(k: Cluster) {
    forall c, g | c in Members(k.sets, g) ::
      && c in k.owner && k.owner[c] < |k.nodes|
      && c in k.nodes[k.owner[c]].cache && g in k.nodes[k.owner[c]].cache[c]
  }

  predicate Flawless(k: Cluster, step: Step) {
    match step
    case Disconnect(i, c, removed) => i < |k.nodes| && CacheOf(k.nodes[i], c) <= removed
    case Add(_, _, _, r) => !r.err
    case Remove(_, _, _, r) => !r.err
    case _ => true
  }

  /** How a step changes the set of one group. */
  lemma MembersAfter(k: Cluster, step: Step, h: Group)
    requires Enabled(k, step)
    ensures var was, now := Members(k.sets, h), Members(Next(k, step).sets, h);
            match step
            case Disconnect(i, c, removed) => now == if h in CacheOf(k.nodes[i], c) * removed then was - {c} else was
            case Add(_, g, c, r) => now == if r.applied && h == g then was + {c} else was
            case Remove(_, g, c, r) => now == if r.applied && h == g then was - {c} else was
            case _ => now == was
  {
    match step
    case Disconnect(i, c, removed) => MembersRemoved(k.sets, CacheOf(k.nodes[i], c) * removed, c, h);
    case Add(_, g, c, _) => MembersAdded(k.sets, g, c, h);
    case Remove(_, g, c, _) => MembersRemoved(k.sets, {g}, c, h);
    case _ =>
  }

  lemma NextKeepsCacheOk(k: Cluster, step: Step)
    requires CacheOk(k) && Enabled(k, step)
    ensures CacheOk(Next(k, step))
  {
    var k' := Next(k, step);
    forall i, c, g | 0 <= i < |k'.nodes| && c in k'.nodes[i].cache && g in k'.nodes[i].cache[c]
      ensures c in Members(k'.sets, g)
    {
      MembersAfter(k, step, g);
      if i != step.i { assert c in k.nodes[i].cache && k.owner[c] == i; }
    }
  }

  lemma NextKeepsNothingStale(k: Cluster, step: Step)
    requires CacheOk(k) && NothingStale(k) && Enabled(k, step) && Flawless(k, step)
    ensures NothingStale(Next(k, step))
  {
    var k' := Next(k, step);
    forall c, g | c in Members(k'.sets, g)
      ensures && c in k'.owner && k'.owner[c] < |k'.nodes|
              && c in k'.nodes[k'.owner[c]].cache && g in k'.nodes[k'.owner[c]].cache[c]
    {
      MembersAfter(k, step, g);
    }
  }

  lemma {:induction false} RunKeepsCache(ks: seq<Cluster>, steps: seq<Step>, n: nat)
    requires IsRun(ks, steps) && n <= |steps|
    ensures CacheOk(ks[n])
    ensures (forall j | 0 <= j < n :: Flawless(ks[j], steps[j])) ==> NothingStale(ks[n])
  {
    if n > 0 {
      RunKeepsCache(ks, steps, n - 1);
      assert MovesAt(ks, steps, n - 1);
      NextKeepsCacheOk(ks[n - 1], steps[n - 1]);
      if forall j | 0 <= j < n :: Flawless(ks[j], steps[j]) {
        NextKeepsNothingStale(ks[n - 1], steps[n - 1]);
      }
    }
  }

  /** Whatever Redis commands fail, a cached group has the connection in its Redis set; if none
      fails, the cache of its home lists exactly the groups that have it, gone or not. */
  lemma CacheAgreesWithRedis(ks: seq<Cluster>, steps: seq<Step>, n: nat, i: nat, c: ConnId, g: Group)
    requires IsRun(ks, steps) && n <= |steps| && i < |ks[n].nodes|
    ensures g in CacheOf(ks[n].nodes[i], c) ==> c in Members(ks[n].sets, g)
    ensures (forall j | 0 <= j < n :: Flawless(ks[j], steps[j])) ==>
              (c in ks[n].owner && ks[n].owner[c] == i && c in Members(ks[n].sets, g) <==> g in CacheOf(ks[n].nodes[i], c))
  {
    RunKeepsCache(ks, steps, n);
    var k := ks[n];
    if forall j | 0 <= j < n :: Flawless(ks[j], steps[j]) { assert NothingStale(k); }
  }

  /* ---- what decides membership ---- */

  /** The step is a group command for (g, c). */
  predicate Concerns(step: Step, g: Group, c: ConnId) {
    (step.Add? || step.Remove?) && step.g == g && step.c == c
  }

  /** The index of the last command for (g, c) among the first `n` steps, or -1. */
  function Last(steps: seq<Step>, n: nat, g: Group, c: ConnId): (l: int)
    requires n <= |steps|
    ensures -1 <= l < n && (l >= 0 ==> Concerns(steps[l], g, c))
  {
    if n == 0 then -1 else if Concerns(steps[n - 1], g, c) then n - 1 else Last(steps, n - 1, g, c)
  }

  /** The index of the disconnect of `c` among the first `n` steps, or -1. */
  function Gone(steps: seq<Step>, n: nat, c: ConnId): (d: int)
    requires n <= |steps|
    ensures -1 <= d < n && (d >= 0 ==> steps[d].Disconnect? && steps[d].c == c)
  {
    if n == 0 then -1
    else if steps[n - 1].Disconnect? && steps[n - 1].c == c then n - 1
    else Gone(steps, n - 1, c)
  }

  /** The last command succeeded in adding. */
  predicate AddedLast(steps: seq<Step>, l: int)
    requires l < |steps|
  {
    l >= 0 && steps[l].Add? && !steps[l].r.err
  }

  /** The last command reported an error but left `c` in the set: an addition that took effect or
      was not needed, or a removal that did not take effect. */
  ghost predicate FailedIn(ks: seq<Cluster>, steps: seq<Step>, l: int, g: Group, c: ConnId)
    requires |ks| == |steps| + 1 && l < |steps|
  {
    && l >= 0 && (steps[l].Add? || steps[l].Remove?) && steps[l].r.err
    && var was := c in Members(ks[l].sets, g);
    if steps[l].Add? then steps[l].r.applied || was else !steps[l].r.applied && was
  }

  /** The removal by the disconnect at `d` spared what command `l` added: it came too late for it, or
      did not take effect. */
  predicate Spared(steps: seq<Step>, l: int, d: int, g: Group)
    requires d < |steps| && (d >= 0 ==> steps[d].Disconnect?)
  {
    d < l || (d >= 0 && g !in steps[d].removed)
  }

  /** The cache lists a group exactly when the last command added it without an error and came after
      the disconnect, if there is one; Redis has the connection exactly when that command left it
      there and the disconnect spared it. */
  ghost predicate TracksLast(ks: seq<Cluster>, steps: seq<Step>, n: nat, g: Group, c: ConnId)
    requires |ks| == |steps| + 1 && n <= |steps|
  {
    var l, d, k := Last(steps, n, g, c), Gone(steps, n, c), ks[n];
    if c !in k.owner then l == -1 && d == -1 && c !in Members(k.sets, g)
    else
      && k.owner[c] < |k.nodes|
      && (c in k.nodes[k.owner[c]].clients <==> d == -1)
      && (g in CacheOf(k.nodes[k.owner[c]], c) <==> AddedLast(steps, l) && d < l)
      && (c in Members(k.sets, g) <==> (AddedLast(steps, l) && Spared(steps, l, d, g)) || FailedIn(ks, steps, l, g, c))
  }

  lemma CommandTracks(ks: seq<Cluster>, steps: seq<Step>, n: nat, g: Group, c: ConnId)
    requires IsRun(ks, steps) && n < |steps| && Concerns(steps[n], g, c)
    requires TracksLast(ks, steps, n, g, c)
    ensures TracksLast(ks, steps, n + 1, g, c)
  {
    assert MovesAt(ks, steps, n);
    MembersAfter(ks[n], steps[n], g);
    assert Last(steps, n + 1, g, c) == n && Gone(steps, n + 1, c) == Gone(steps, n, c);
  }

  lemma OtherStepTracks(ks: seq<Cluster>, steps: seq<Step>, n: nat, g: Group, c: ConnId)
    requires IsRun(ks, steps) && n < |steps| && CacheOk(ks[n]) && !Concerns(steps[n], g, c)
    requires TracksLast(ks, steps, n, g, c)
    ensures TracksLast(ks, steps, n + 1, g, c)
  {
    assert MovesAt(ks, steps, n);
    MembersAfter(ks[n], steps[n], g);
    assert Last(steps, n + 1, g, c) == Last(steps, n, g, c);
  }

  lemma {:induction false} RunTracksLast(ks: seq<Cluster>, steps: seq<Step>, n: nat, g: Group, c: ConnId)
    requires IsRun(ks, steps) && n <= |steps|
    ensures TracksLast(ks, steps, n, g, c)
  {
    if n > 0 {
      RunTracksLast(ks, steps, n - 1, g, c);
      RunKeepsCache(ks, steps, n - 1);
      if Concerns(steps[n - 1], g, c) { CommandTracks(ks, steps, n - 1, g, c); } else { OtherStepTracks(ks, steps, n - 1, g, c); }
    }
  }

  /** At every moment of every run, a connection is in the set of a group if and only if its last
      command for the group added it without an error and no removal by a later disconnect took
      effect, or reported an error and left it a member. */
  lemma MemberIff(ks: seq<Cluster>, steps: seq<Step>, n: nat, g: Group, c: ConnId)
    requires IsRun(ks, steps) && n <= |steps|
    ensures var l, d := Last(steps, n, g, c), Gone(steps, n, c);
            c in Members(ks[n].sets, g) <==>
            (AddedLast(steps, l) && Spared(steps, l, d, g)) || FailedIn(ks, steps, l, g, c)
  {
    RunTracksLast(ks, steps, n, g, c);
  }

  ghost predicate Absent(k: Cluster, c: ConnId) {
    c in k.owner && forall i | 0 <= i < |k.nodes| :: c !in k.nodes[i].clients
  }

  lemma AbsentAfter(k: Cluster, step: Step)
    requires Homed(k) && step.Disconnect? && Enabled(k, step)
    ensures Absent(Next(k, step), step.c)
  {
  }

  lemma StaysAbsent(k: Cluster, step: Step, c: ConnId)
    requires Absent(k, c) && Enabled(k, step)
    ensures Absent(Next(k, step), c) && !(step.Disconnect? && step.c == c)
  {
  }

  /** A connection disconnects once: afterwards it is no client anywhere, whatever comes. */
  lemma {:induction false} GoneStaysGone(ks: seq<Cluster>, steps: seq<Step>, j: nat, n: nat)
    requires IsRun(ks, steps) && j < n <= |steps| && steps[j].Disconnect?
    ensures Gone(steps, n, steps[j].c) == j && Absent(ks[n], steps[j].c)
  {
    if j + 1 < n {
      GoneStaysGone(ks, steps, j, n - 1);
      assert MovesAt(ks, steps, n - 1);
      StaysAbsent(ks[n - 1], steps[n - 1], steps[j].c);
    } else {
      RunKeepsOk(ks, steps, j);
      assert MovesAt(ks, steps, j);
      AbsentAfter(ks[j], steps[j]);
    }
  }

  /** What a disconnect does for the groups of its connection.  When no command ever fails, the
      connection is in no set right after it; from then on it is in the set of a group if and only if
      a group command came after the disconnect and the last one was an addition. */
  lemma FlawlessDisconnect(ks: seq<Cluster>, steps: seq<Step>, j: nat, n: nat, g: Group)
    requires IsRun(ks, steps) && j < n <= |steps| && steps[j].Disconnect?
    requires forall m | 0 <= m < n :: Flawless(ks[m], steps[m])
    ensures steps[j].c !in Members(ks[j + 1].sets, g)
    ensures var l := Last(steps, n, g, steps[j].c);
            steps[j].c in Members(ks[n].sets, g) <==> l > j && steps[l].Add?
  {
    GoneStaysGone(ks, steps, j, n);
    GoneStaysGone(ks, steps, j, j + 1);
    FlawlessMember(ks, steps, j, n, g);
    FlawlessMember(ks, steps, j, j + 1, g);
  }

  lemma FlawlessMember(ks: seq<Cluster>, steps: seq<Step>, j: nat, n: nat, g: Group)
    requires IsRun(ks, steps) && j < n <= |steps| && steps[j].Disconnect? && Gone(steps, n, steps[j].c) == j
    requires forall m | 0 <= m < n :: Flawless(ks[m], steps[m])
    ensures var l := Last(steps, n, g, steps[j].c);
            steps[j].c in Members(ks[n].sets, g) <==> l > j && steps[l].Add?
  {
    var c, i := steps[j].c, steps[j].i;
    var l := Last(steps, n, g, c);
    MemberIff(ks, steps, n, g, c);
    if l >= 0 { assert Flawless(ks[l], steps[l]); }
    if 0 <= l < j && AddedLast(steps, l) {
      CachedUntil(ks, steps, l, j, n, g, c);
      RunTracksLast(ks, steps, j, g, c);
      assert Flawless(ks[j], steps[j]) && g in CacheOf(ks[j].nodes[i], c);
    }
  }

  /** Between a command and a later disconnect nothing else concerns the pair. */
  lemma {:induction false} CachedUntil(ks: seq<Cluster>, steps: seq<Step>, l: nat, j: nat, n: nat, g: Group, c: ConnId)
    requires IsRun(ks, steps) && l < j < n <= |steps| && Last(steps, n, g, c) == l && steps[j].Disconnect? && steps[j].c == c
    requires Gone(steps, n, c) == j
    ensures Last(steps, j, g, c) == l && Gone(steps, j, c) == -1 && c in ks[j].owner && ks[j].owner[c] == steps[j].i
  {
    RunKeepsOk(ks, steps, j);
    assert MovesAt(ks, steps, j);
    RunTracksLast(ks, steps, j, g, c);
    LastBefore(steps, l, j, n, g, c);
  }

  lemma {:induction false} LastBefore(steps: seq<Step>, l: nat, j: nat, n: nat, g: Group, c: ConnId)
    requires l < j <= n <= |steps| && Last(steps, n, g, c) == l
    ensures Last(steps, j, g, c) == l
  {
    if j < n { LastBefore(steps, l, j, n - 1, g, c); }
  }

  /** The general form: after any disconnect, flawless or not, the last command after it decides
      alone if there is one; otherwise the connection is a member if and only if the last command
      before it added it and the disconnect's own removal did not take effect, or reported an error
      and left it a member. */
  lemma GoneButMemberIff(ks: seq<Cluster>, steps: seq<Step>, j: nat, n: nat, g: Group)
    requires IsRun(ks, steps) && j < n <= |steps| && steps[j].Disconnect?
    ensures Absent(ks[n], steps[j].c)
    ensures var c, l := steps[j].c, Last(steps, n, g, steps[j].c);
            c in Members(ks[n].sets, g) <==>
            (AddedLast(steps, l) && (l > j || g !in steps[j].removed)) || FailedIn(ks, steps, l, g, c)
  {
    GoneStaysGone(ks, steps, j, n);
    MemberIff(ks, steps, n, g, steps[j].c);
  }

  /** Why "in no set" holds for the moment only: a hub that adds its connection to a group beside the
      disconnect puts it back, without any command failing, and no later disconnect takes it out. */
  lemma AddBesideDisconnect(c: ConnId, g: Group) returns (ks: seq<Cluster>, steps: seq<Step>)
    ensures steps == [Connect(0, c), Disconnect(0, c, {}), Add(0, g, c, Reply(false, true))]
    ensures IsRun(ks, steps) && forall j | 0 <= j < 3 :: Flawless(ks[j], steps[j])
    ensures Absent(ks[3], c) && c in Members(ks[3].sets, g)
  {
    steps := [Connect(0, c), Disconnect(0, c, {}), Add(0, g, c, Reply(false, true))];
    var k1 := Next(Fresh(1), steps[0]);
    var k2 := Next(k1, steps[1]);
    var k3 := Next(k2, steps[2]);
    ks := [Fresh(1), k1, k2, k3];
    MembersAdded(k2.sets, g, c, g);
  }

  /** And why a failed removal is not for good: a hub that removes its connection beside the
      disconnect makes up for it. */
  lemma RemoveBesideDisconnect(c: ConnId, g: Group) returns (ks: seq<Cluster>, steps: seq<Step>)
    ensures steps == [Connect(0, c), Add(0, g, c, Reply(false, true)), Disconnect(0, c, {}), Remove(0, g, c, Reply(false, true))]
    ensures IsRun(ks, steps) && c in Members(ks[3].sets, g) && c !in Members(ks[4].sets, g)
  {
    var ok := Reply(false, true);
    steps := [Connect(0, c), Add(0, g, c, ok), Disconnect(0, c, {}), Remove(0, g, c, ok)];
    var k1 := Next(Fresh(1), steps[0]);
    var k2 := Next(k1, steps[1]);
    var k3 := Next(k2, steps[2]);
    ks := [Fresh(1), k1, k2, k3, Next(k3, steps[3])];
    MembersAdded(k1.sets, g, c, g);
    MembersAfter(k2, steps[2], g);
    MembersAfter(k3, steps[3], g);
  }

  /* ---- the mutable form ---- */

  class RedisServer {
    var sets: Sets

    constructor ()
      ensures sets == map[]
    {
      sets := map[];
    }
  }

  /** The visits of sync.Map.Range: those of `clients` that pass, each once. */
  method SendToEach(clients: set<ConnId>, pass: ConnId -> bool) returns (sent: seq<ConnId>)
    ensures multiset(sent) == multiset(set c <- clients | pass(c))
  {
    sent := [];
    var todo := clients;
    while todo != {}
      invariant todo <= clients
      invariant multiset(sent) == multiset(set c <- clients | c !in todo && pass(c))
    {
      var c :| c in todo;
      var before := set x <- clients | x !in todo && pass(x);
      todo := todo - {c};
      assert (set x <- clients | x !in todo && pass(x)) == if pass(c) then before + {c} else before;
      if pass(c) { sent := sent + [c]; }
    }
    assert (set c <- clients | c !in todo && pass(c)) == set c <- clients | pass(c);
  }

  class RedisHubLifetimeManager {
    var clients: set<ConnId>
    var connectionGroups: map<ConnId, set<Group>>
    const redis: RedisServer
    const instanceID: nat

    function State(): Instance reads this { Instance(clients, connectionGroups, 0) }

    constructor (redis: RedisServer, instanceID: nat)
      ensures State() == Instance({}, map[], 0) && this.redis == redis && this.instanceID == instanceID
    {
      this.redis, this.instanceID := redis, instanceID;
      clients, connectionGroups := {}, map[];
    }

    method OnConnected(c: ConnId)
      modifies this
      ensures State() == Joined(old(State()), c)
    {
      clients := clients + {c};
      connectionGroups := connectionGroups[c := {}];
    }

    method OnDisconnected(c: ConnId, removed: set<Group>)
      modifies this, redis
      ensures (State(), redis.sets) == Left(old(State()), old(redis.sets), c, removed)
    {
      clients := clients - {c};
      if c in connectionGroups {
        var groupSet := connectionGroups[c];
        connectionGroups := connectionGroups - {c};
        redis.sets := SRem(redis.sets, Keys(groupSet * removed), c);
      } else {
        assert connectionGroups - {c} == connectionGroups;
      }
    }

    method AddToGroup(g: Group, c: ConnId, r: Reply)
      modifies this, redis
      ensures (State(), redis.sets) == Added(old(State()), old(redis.sets), g, c, r)
    {
      if c !in connectionGroups {
        connectionGroups := connectionGroups[c := {}];
      }
      connectionGroups := connectionGroups[c := connectionGroups[c] + {g}];
      if r.applied {
        redis.sets := SAdd(redis.sets, g, c);
      }
      if r.err {
        connectionGroups := connectionGroups[c := connectionGroups[c] - {g}];
        assert connectionGroups[c] == CacheOf(old(State()), c) - {g};
      }
      assert connectionGroups == old(connectionGroups)[c := connectionGroups[c]];
    }

    method RemoveFromGroup(g: Group, c: ConnId, r: Reply)
      modifies this, redis
      ensures (State(), redis.sets) == Removed(old(State()), old(redis.sets), g, c, r)
    {
      if c in connectionGroups {
        connectionGroups := connectionGroups[c := connectionGroups[c] - {g}];
      }
      if r.applied {
        redis.sets := SRem(redis.sets, Keys({g}), c);
      }
    }

    /** The connections SendInvocation is called on, in the order of the calls. */
    method HandleRedisMessage(m: Post, failing: set<ConnId>) returns (sent: seq<ConnId>)
      ensures multiset(sent) == multiset(Recipients(instanceID, State(), redis.sets, m, failing))
    {
      if m.source == instanceID {
        return [];
      }
      if m.connection != "" {
        return if m.connection in clients && m.connection !in m.excluded then [m.connection] else [];
      }
      if m.group != "" && GroupChannelPrefix <= m.channel {
        var sets := redis.sets;
        sent := SendToEach(clients, c => c !in m.excluded && c !in failing && c in Members(sets, m.group));
      } else if m.group == "" && m.channel == AllChannel {
        sent := SendToEach(clients, c => c !in m.excluded);
      } else {
        sent := [];
      }
    }
  }
}
