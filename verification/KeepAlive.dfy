/** Keep-alive and timeout of two message loops (loop.go, hubconnection.go) in integer time. */
module KeepAlive {
  import opened Wrappers

  function Max(a: int, b: int): int { if a < b then b else a }

  /** One direction of a connection: a loop that writes and a loop that watches.
      `keepAlive` is the writer's keepAliveInterval, `lag` how late it may react to a tick, `delay`
      how long a message may take until the watcher has handled it, `timeout` the watcher's
      timeout; the loops start at `writerStart` and `watcherStart`. */
  datatype Config = Config(keepAlive: nat, lag: nat, delay: nat, timeout: nat, writerStart: nat, watcherStart: nat) {
    /** A ticker needs a positive interval. */
    predicate Proper() { keepAlive > 0 && timeout > 0 }

    function Skew(): int { Max(0, writerStart - watcherStart) }

    predicate Guarded() { keepAlive + lag + delay + Skew() < timeout }
  }

  /** `stamp` is lastWriteStamp (None while it is the zero time), `nextTick` when the keep-alive
      ticker fires, `link` the send times of the messages under way, oldest first, `deadline` when
      the timeout ticker fires, `seen` the send time of the last message the watcher handled, or
      the start of the writer; `dead` says that the watcher ended with the timeout error. */
  datatype Line = Line(now: int, stamp: Option<int>, nextTick: int, link: seq<int>, deadline: int, seen: int, dead: bool)

  datatype Step = Advance(dt: nat) | Write | Tick | Deliver | Timeout

  /** When the writer's loop last wrote, or started: it may have written before. */
  function LastWrite(c: Config, l: Line): int {
    if l.stamp.Some? then Max(l.stamp.value, c.writerStart) else c.writerStart
  }

  /** The keep-alive case of the select: whether to ping, and when the re-armed ticker fires. */
  function OnTick(keepAlive: nat, stamp: Option<int>, now: int): (bool, int) {
    if stamp.Some? && keepAlive - (now - stamp.value) > 0
    then (false, now + (keepAlive - (now - stamp.value)))
    else (true, now + keepAlive)
  }

  /** Time stops for a tick that is due and for a message that must have arrived. */
  predicate TickAllows(c: Config, l: Line, time: int) { time <= l.nextTick + c.lag }

  predicate LinkAllows(c: Config, l: Line, time: int) {
    l.link != [] ==> time <= Max(l.link[0], c.watcherStart) + c.delay
  }

  predicate Enabled(c: Config, l: Line, step: Step) {
    match step
    case Advance(dt) => TickAllows(c, l, l.now + dt) && LinkAllows(c, l, l.now + dt)
    case Write => true
    case Tick => l.nextTick <= l.now
    case Deliver => !l.dead && l.link != [] && c.watcherStart <= l.now
    case Timeout => !l.dead && c.watcherStart <= l.now && l.deadline <= l.now
  }

  function Next(c: Config, l: Line, step: Step): Line
    requires Enabled(c, l, step)
  {
    match step
    case Advance(dt) => l.(now := l.now + dt)
    case Write => l.(stamp := Some(l.now), link := l.link + [l.now])
    case Tick =>
      var (ping, next) := OnTick(c.keepAlive, l.stamp, l.now);
      if ping then l.(stamp := Some(l.now), link := l.link + [l.now], nextTick := next) else l.(nextTick := next)
    case Deliver => l.(link := l.link[1..], deadline := l.now + c.timeout, seen := l.link[0])
    case Timeout => l.(dead := true)
  }

  function Start(c: Config): Line {
    Line(0, None, c.writerStart + c.keepAlive, [], c.watcherStart + c.timeout, c.writerStart, false)
  }

  ghost predicate MovesAt(c: Config, ls: seq<Line>, steps: seq<Step>, k: nat)
    requires |ls| == |steps| + 1 && k < |steps|
  {
    Enabled(c, ls[k], steps[k]) && ls[k + 1] == Next(c, ls[k], steps[k])
  }

  ghost predicate IsRun(c: Config, ls: seq<Line>, steps: seq<Step>) {
    && |ls| == |steps| + 1 && ls[0] == Start(c)
    && forall k | 0 <= k < |steps| :: MovesAt(c, ls, steps, k)
  }

  /* ---- the writer ---- */

  ghost predicate WriterOk(c: Config, l: Line) {
    && (l.stamp.Some? ==> l.stamp.value <= l.now)
    && l.nextTick <= LastWrite(c, l) + c.keepAlive
    && (l.stamp.None? || l.stamp.value < c.writerStart ==> l.nextTick == c.writerStart + c.keepAlive)
    && c.writerStart < l.nextTick && l.now <= l.nextTick + c.lag
  }

  lemma NextKeepsWriter(c: Config, l: Line, step: Step)
    requires c.Proper() && WriterOk(c, l) && Enabled(c, l, step)
    ensures WriterOk(c, Next(c, l, step))
  {
  }

  lemma {:induction false} RunKeepsWriter(c: Config, ls: seq<Line>, steps: seq<Step>, n: nat)
    requires c.Proper() && IsRun(c, ls, steps) && n <= |steps|
    ensures WriterOk(c, ls[n])
  {
    if n > 0 {
      RunKeepsWriter(c, ls, steps, n - 1);
      assert MovesAt(c, ls, steps, n - 1);
      NextKeepsWriter(c, ls[n - 1], steps[n - 1]);
    }
  }

  /** Whatever else is written, before or after the loop starts, and however often the ticker is
      re-armed, the next tick is due at most one interval after the last write or the start of the
      loop, whichever is later.  So the writer is from then on never silent for longer than the
      interval and its lag; and it pings exactly after a silence of a whole interval. */
  lemma WriteGapBound(c: Config, ls: seq<Line>, steps: seq<Step>, n: nat)
    requires c.Proper() && IsRun(c, ls, steps) && n <= |steps|
    ensures ls[n].nextTick <= LastWrite(c, ls[n]) + c.keepAlive
    ensures ls[n].now <= LastWrite(c, ls[n]) + c.keepAlive + c.lag
    ensures n < |steps| && steps[n] == Tick ==>
              (OnTick(c.keepAlive, ls[n].stamp, ls[n].now).0 <==> LastWrite(c, ls[n]) + c.keepAlive <= ls[n].now)
  {
    RunKeepsWriter(c, ls, steps, n);
    if n < |steps| { assert MovesAt(c, ls, steps, n); }
  }

  /* ---- the link and the watcher ---- */

  /** Send times ascend from `from` in gaps the writer's bound allows, counted from the start of its
      loop at the earliest. */
  ghost predicate Gapped(start: int, from: int, link: seq<int>, gap: int) {
    && (forall i | 0 <= i < |link| :: link[i] <= Max(Before(from, link, i), start) + gap)
    && (forall i | 0 < i < |link| :: link[i - 1] <= link[i])
  }

  function Before(from: int, link: seq<int>, i: int): int
    requires 0 <= i < |link|
  {
    if i == 0 then from else link[i - 1]
  }

  function LastSent(from: int, link: seq<int>): int { if link == [] then from else link[|link| - 1] }

  ghost predicate LineOk(c: Config, l: Line) {
    && WriterOk(c, l) && !l.dead
    && Gapped(c.writerStart, l.seen, l.link, c.keepAlive + c.lag)
    && Max(LastSent(l.seen, l.link), c.writerStart) == LastWrite(c, l)
    && (forall i | 0 <= i < |l.link| :: l.link[i] <= l.now)
    && LinkAllows(c, l, l.now)
    && l.deadline >= l.seen + c.timeout - c.Skew() && l.deadline >= c.watcherStart + c.timeout
  }

  lemma DeadlineAhead(c: Config, l: Line)
    requires c.Guarded() && LineOk(c, l)
    ensures c.watcherStart <= l.now ==> l.now < l.deadline
  {
    if l.link != [] { assert l.link[0] <= Max(Before(l.seen, l.link, 0), c.writerStart) + c.keepAlive + c.lag; }
  }

  lemma SendKeepsLine(c: Config, l: Line, l': Line)
    requires LineOk(c, l) && WriterOk(c, l')
    requires l' == l.(stamp := Some(l.now), link := l.link + [l.now], nextTick := l'.nextTick)
    ensures LineOk(c, l')
  {
    GappedAppend(c.writerStart, l.seen, l.link, l.now, c.keepAlive + c.lag);
  }

  lemma DeliverKeepsLine(c: Config, l: Line)
    requires LineOk(c, l) && Enabled(c, l, Deliver)
    ensures LineOk(c, Next(c, l, Deliver))
  {
    var l' := Next(c, l, Deliver);
    GappedTail(c.writerStart, l.seen, l.link, c.keepAlive + c.lag);
    assert forall i | 0 <= i < |l'.link| :: l'.link[i] == l.link[i + 1];
    assert LinkAllows(c, l', l'.now) by { if l'.link != [] { assert l'.link[0] == l.link[1]; } }
  }

  lemma NextKeepsLine(c: Config, l: Line, step: Step)
    requires c.Proper() && c.Guarded() && LineOk(c, l) && Enabled(c, l, step)
    ensures LineOk(c, Next(c, l, step))
  {
    var l' := Next(c, l, step);
    NextKeepsWriter(c, l, step);
    match step
    case Advance(_) =>
    case Write => SendKeepsLine(c, l, l');
    case Tick => if l'.link != l.link { SendKeepsLine(c, l, l'); }
    case Deliver => DeliverKeepsLine(c, l);
    case Timeout => DeadlineAhead(c, l);
  }

  lemma GappedAppend(start: int, from: int, link: seq<int>, h: int, gap: int)
    requires Gapped(start, from, link, gap) && h <= Max(LastSent(from, link), start) + gap
    requires link != [] ==> LastSent(from, link) <= h
    ensures Gapped(start, from, link + [h], gap) && LastSent(from, link + [h]) == h
  {
    var more := link + [h];
    forall i | 0 <= i < |more| ensures more[i] <= Max(Before(from, more, i), start) + gap {
      if i < |link| { assert Before(from, more, i) == Before(from, link, i); }
    }
  }

  lemma GappedTail(start: int, from: int, link: seq<int>, gap: int)
    requires link != [] && Gapped(start, from, link, gap)
    ensures Gapped(start, link[0], link[1..], gap) && LastSent(link[0], link[1..]) == LastSent(from, link)
    ensures |link| > 1 ==> link[0] <= link[1]
  {
    var rest := link[1..];
    forall i | 0 <= i < |rest| ensures rest[i] <= Max(Before(link[0], rest, i), start) + gap {
      assert Before(link[0], rest, i) == Before(from, link, i + 1);
    }
    forall i | 0 < i < |rest| ensures rest[i - 1] <= rest[i] { assert link[i] <= link[i + 1]; }
    if |link| > 1 { assert link[1 - 1] <= link[1]; }
  }

  lemma {:induction false} RunKeepsLine(c: Config, ls: seq<Line>, steps: seq<Step>, n: nat)
    requires c.Proper() && c.Guarded() && IsRun(c, ls, steps) && n <= |steps|
    ensures LineOk(c, ls[n])
  {
    if n > 0 {
      RunKeepsLine(c, ls, steps, n - 1);
      assert MovesAt(c, ls, steps, n - 1);
      NextKeepsLine(c, ls[n - 1], steps[n - 1]);
    }
  }

  ghost predicate Reachable(c: Config, l: Line) {
    exists ls: seq<Line>, steps: seq<Step> :: IsRun(c, ls, steps) && ls[|steps|] == l
  }

  /** Some run ends with the watcher's timeout error. */
  ghost predicate CanTimeOut(c: Config) { exists l :: Reachable(c, l) && l.dead }

  lemma GuardedNeverTimesOut(c: Config)
    requires c.Proper() && c.Guarded()
    ensures !CanTimeOut(c)
  {
    forall l | Reachable(c, l) ensures !l.dead {
      var ls: seq<Line>, steps: seq<Step> :| IsRun(c, ls, steps) && ls[|steps|] == l;
      RunKeepsLine(c, ls, steps, |steps|);
    }
  }

  /* Without the guard a run is built that times out: the writer stays silent for as long as it
     may, and its next message takes as long as it may. */

  lemma Extend(c: Config, l: Line, step: Step) returns (l': Line)
    requires Reachable(c, l) && Enabled(c, l, step)
    ensures l' == Next(c, l, step) && Reachable(c, l')
  {
    var ls: seq<Line>, steps: seq<Step> :| IsRun(c, ls, steps) && ls[|steps|] == l;
    l' := Next(c, l, step);
    var ls', steps' := ls + [l'], steps + [step];
    forall k | 0 <= k < |steps'| ensures MovesAt(c, ls', steps', k) {
      if k < |steps| { assert MovesAt(c, ls, steps, k); }
    }
    assert IsRun(c, ls', steps') && ls'[|steps'|] == l';
  }

  /** Time can pass up to `time` without a delivery, as long as no message must arrive before. */
  lemma IdleUntil(c: Config, l: Line, time: int) returns (l': Line)
    requires c.Proper() && Reachable(c, l) && WriterOk(c, l) && l.now <= time && !l.dead
    requires (l.link != [] && LinkAllows(c, l, time)) || time <= c.watcherStart
    ensures Reachable(c, l') && WriterOk(c, l') && !l'.dead
    ensures l'.now == time && l'.deadline == l.deadline
    decreases Max(0, time - l.nextTick)
  {
    if time <= l.nextTick + c.lag {
      l' := Extend(c, l, Advance(time - l.now));
    } else {
      l' := NextTick(c, l);
      l' := IdleUntil(c, l', time);
    }
  }

  /** Time passes until the next tick, and it is taken. */
  lemma NextTick(c: Config, l: Line) returns (l': Line)
    requires c.Proper() && Reachable(c, l) && WriterOk(c, l) && !l.dead
    requires LinkAllows(c, l, Max(l.now, l.nextTick))
    ensures Reachable(c, l') && WriterOk(c, l') && !l'.dead && l'.now == Max(l.now, l.nextTick)
    ensures l'.deadline == l.deadline && l.nextTick < l'.nextTick && l.link <= l'.link
    ensures l'.link == l.link || (l'.link == l.link + [l'.now] && l'.nextTick == l'.now + c.keepAlive)
  {
    l' := l;
    if l.now < l.nextTick { l' := Extend(c, l, Advance(l.nextTick - l.now)); }
    NextKeepsWriter(c, l', Tick);
    l' := Extend(c, l', Tick);
  }

  lemma DrainLink(c: Config, l: Line) returns (l': Line)
    requires Reachable(c, l) && c.watcherStart <= l.now && !l.dead && l.link != []
    ensures Reachable(c, l') && l' == l.(link := [], deadline := l.now + c.timeout, seen := l'.seen)
    decreases |l.link|
  {
    l' := Extend(c, l, Deliver);
    if l'.link != [] { l' := DrainLink(c, l'); }
  }

  lemma FinalStretch(c: Config, l: Line)
    requires c.Proper() && Reachable(c, l) && WriterOk(c, l) && !l.dead && l.link == []
    requires l.nextTick == LastWrite(c, l) + c.keepAlive
    requires c.watcherStart <= l.nextTick + c.lag && c.watcherStart <= l.deadline && l.now <= l.deadline
    requires l.deadline <= LastWrite(c, l) + c.keepAlive + c.lag + c.delay
    ensures CanTimeOut(c)
  {
    var ping := l.nextTick + c.lag;
    var l1;
    if l.deadline <= ping {
      l1 := Extend(c, l, Advance(l.deadline - l.now));
    } else {
      l1 := Extend(c, l, Advance(ping - l.now));
      l1 := Extend(c, l1, Tick);
      l1 := IdleUntil(c, l1, l.deadline);
    }
    l1 := Extend(c, l1, Timeout);
  }

  lemma StartReachable(c: Config)
    requires c.Proper()
    ensures Reachable(c, Start(c)) && WriterOk(c, Start(c))
  {
    var steps: seq<Step> := [];
    assert IsRun(c, [Start(c)], steps) && [Start(c)][|steps|] == Start(c);
  }

  lemma UnguardedCanTimeOut(c: Config)
    requires c.Proper() && !c.Guarded()
    ensures CanTimeOut(c)
  {
    StartReachable(c);
    if c.watcherStart <= c.writerStart {
      FinalStretch(c, Start(c));
    } else {
      // A message is handled the moment the watcher starts; then the writer falls silent.
      var l := IdleUntil(c, Start(c), c.watcherStart);
      NextKeepsWriter(c, l, Write);
      l := Extend(c, l, Write);
      l := DrainLink(c, l);
      if l.nextTick < c.watcherStart + c.keepAlive {
        if l.deadline <= l.nextTick + c.lag {
          l := Extend(c, l, Advance(l.deadline - l.now));
          l := Extend(c, l, Timeout);
          return;
        }
        if l.now < l.nextTick { l := Extend(c, l, Advance(l.nextTick - l.now)); }
        l := Extend(c, l, Tick);
      }
      FinalStretch(c, l);
    }
  }

  /** The timeout is safe exactly when it exceeds the peer's interval plus its lag, the delay of
      the link and the time by which the peer started later. */
  lemma TimeoutSafeIff(c: Config)
    requires c.Proper()
    ensures !CanTimeOut(c) <==> c.keepAlive + c.lag + c.delay + c.Skew() < c.timeout
  {
    if c.Guarded() { GuardedNeverTimesOut(c); } else { UnguardedCanTimeOut(c); }
  }

  /* ---- both directions ---- */

  /** `x` carries what party A writes and B watches, `y` the other way round. */
  datatype Duplex = Duplex(x: Line, y: Line)

  datatype Move = Pass(dt: nat) | OnX(sx: Step) | OnY(sy: Step)

  /** A party that timed out neither writes nor watches any more, and waits for nobody. */
  predicate CanMove(cx: Config, cy: Config, d: Duplex, m: Move) {
    match m
    case Pass(dt) =>
      && (!d.y.dead ==> TickAllows(cx, d.x, d.x.now + dt) && LinkAllows(cy, d.y, d.y.now + dt))
      && (!d.x.dead ==> TickAllows(cy, d.y, d.y.now + dt) && LinkAllows(cx, d.x, d.x.now + dt))
    case OnX(s) => !s.Advance? && Enabled(cx, d.x, s) && (s.Write? || s.Tick? ==> !d.y.dead)
    case OnY(s) => !s.Advance? && Enabled(cy, d.y, s) && (s.Write? || s.Tick? ==> !d.x.dead)
  }

  function Moved(cx: Config, cy: Config, d: Duplex, m: Move): Duplex
    requires CanMove(cx, cy, d, m)
  {
    match m
    case Pass(dt) => Duplex(d.x.(now := d.x.now + dt), d.y.(now := d.y.now + dt))
    case OnX(s) => d.(x := Next(cx, d.x, s))
    case OnY(s) => d.(y := Next(cy, d.y, s))
  }

  ghost predicate IsDuplexRun(cx: Config, cy: Config, ds: seq<Duplex>, ms: seq<Move>) {
    && |ds| == |ms| + 1 && ds[0] == Duplex(Start(cx), Start(cy))
    && forall k | 0 <= k < |ms| :: CanMove(cx, cy, ds[k], ms[k]) && ds[k + 1] == Moved(cx, cy, ds[k], ms[k])
  }

  /** If each party's interval, with lag, delay and head start, stays below the other's timeout,
      neither ever ends with the timeout error. */
  lemma {:induction false} NeitherTimesOut(cx: Config, cy: Config, ds: seq<Duplex>, ms: seq<Move>, n: nat)
    requires cx.Proper() && cx.Guarded() && cy.Proper() && cy.Guarded()
    requires IsDuplexRun(cx, cy, ds, ms) && n <= |ms|
    ensures LineOk(cx, ds[n].x) && LineOk(cy, ds[n].y)
    ensures !ds[n].x.dead && !ds[n].y.dead
  {
    if n > 0 {
      NeitherTimesOut(cx, cy, ds, ms, n - 1);
      MovedKeepsLines(cx, cy, ds[n - 1], ms[n - 1]);
    }
  }

  lemma MovedKeepsLines(cx: Config, cy: Config, d: Duplex, m: Move)
    requires cx.Proper() && cx.Guarded() && cy.Proper() && cy.Guarded() && CanMove(cx, cy, d, m)
    requires LineOk(cx, d.x) && LineOk(cy, d.y) && !d.x.dead && !d.y.dead
    ensures var d' := Moved(cx, cy, d, m); LineOk(cx, d'.x) && LineOk(cy, d'.y) && !d'.x.dead && !d'.y.dead
  {
    match m
    case Pass(dt) => NextKeepsLine(cx, d.x, Advance(dt)); NextKeepsLine(cy, d.y, Advance(dt));
    case OnX(s) => NextKeepsLine(cx, d.x, s);
    case OnY(s) => NextKeepsLine(cy, d.y, s);
  }
}
