// The two-lane IGDB rate limiter (internal/catalog/types.go): one waiter's
// pass under the lock, the limiter as an object, and the protocol of many
// waiters that sleep, wake, retry and give up in any order.
module IgdbLimiter {
  import opened Prelude

  type Id = nat
  type Time = nat

  /**
   * What a queue holds of a waiter: its address. A waiter is a zero-size
   * struct, and Go lets the addresses of distinct zero-size variables be equal,
   * so several waiters may have the same one.
   */
  type Addr = nat

  datatype Lane = Background | Interactive

  datatype LaneStats = LaneStats(requests: nat, waited: nat)

  /**
   * The limiter's fields. Closing the channel and making a new one is counting
   * up: a waiter that captured channel c finds it closed once changed > c.
   */
  datatype Limiter = Limiter(
    interval: nat, next: Time, background: seq<Addr>, interactive: seq<Addr>, changed: nat,
    backgroundStats: LaneStats, interactiveStats: LaneStats)

  function Queue(l: Limiter, lane: Lane): seq<Addr> {
    if lane.Background? then l.background else l.interactive
  }

  function WithQueue(l: Limiter, lane: Lane, q: seq<Addr>): Limiter {
    if lane.Background? then l.(background := q) else l.(interactive := q)
  }

  function Announced(l: Limiter): Limiter {
    l.(changed := l.changed + 1)
  }

  /** The queue without the first place that holds the address. */
  function Without(q: seq<Addr>, w: Addr): seq<Addr> {
    if q == [] then [] else if q[0] == w then q[1..] else [q[0]] + Without(q[1..], w)
  }

  /** Its address is first in its lane, and no interactive request is queued before a background one. */
  predicate Entitled(l: Limiter, lane: Lane, w: Addr) {
    Queue(l, lane) != [] && Queue(l, lane)[0] == w && (lane.Background? ==> l.interactive == [])
  }

  function Counted(l: Limiter, lane: Lane, waited: nat): Limiter {
    match lane
    case Background =>
      l.(backgroundStats := LaneStats(l.backgroundStats.requests + 1, l.backgroundStats.waited + waited))
    case Interactive =>
      l.(interactiveStats := LaneStats(l.interactiveStats.requests + 1, l.interactiveStats.waited + waited))
  }

  /** How a pass ends: given up, granted, or to sleep on a channel with perhaps an alarm. */
  datatype Outcome = GaveUp | Granted | Sleep(channel: nat, alarm: Option<Time>)

  /** One turn of WaitContext's loop, all under the lock. */
  function Pass(l: Limiter, lane: Lane, w: Addr, cancelled: bool, start: Time, now: Time): (Limiter, Outcome)
    requires start <= now
  {
    if cancelled then (Announced(WithQueue(l, lane, Without(Queue(l, lane), w))), GaveUp)
    else if Entitled(l, lane, w) && l.next <= now then
      var taken := WithQueue(l, lane, Queue(l, lane)[1..]).(next := now + l.interval);
      (Announced(Counted(taken, lane, now - start)), Granted)
    else (l, Sleep(l.changed, if Entitled(l, lane, w) then Some(l.next) else None))
  }

  function Join(l: Limiter, lane: Lane, w: Addr): Limiter {
    WithQueue(l, lane, Queue(l, lane) + [w])
  }

  lemma WithoutAt(q: seq<Addr>, w: Addr, i: nat)
    requires i <= |q|
    ensures i == |q| ==> Without(q[i..], w) == []
    ensures i < |q| && q[i] == w ==> Without(q[i..], w) == q[i + 1..]
    ensures i < |q| && q[i] != w ==> Without(q[i..], w) == [q[i]] + Without(q[i + 1..], w)
  {
    if i < |q| {
      assert q[i..][1..] == q[i + 1..];
    }
  }

  // ---- The limiter as an object -------------------------------------------

  class RateLimiter {
    const interval: nat
    var next: Time
    var background: seq<Addr>
    var interactive: seq<Addr>
    var changed: nat
    var backgroundStats: LaneStats
    var interactiveStats: LaneStats

    ghost function View(): Limiter
      reads this
    {
      Limiter(interval, next, background, interactive, changed, backgroundStats, interactiveStats)
    }

    constructor (interval: nat)
      ensures View() == Limiter(interval, 0, [], [], 0, LaneStats(0, 0), LaneStats(0, 0))
    {
      this.interval := interval;
      next, background, interactive, changed := 0, [], [], 0;
      backgroundStats, interactiveStats := LaneStats(0, 0), LaneStats(0, 0);
    }

    method Broadcast()
      modifies this`changed
      ensures changed == old(changed) + 1
    {
      changed := changed + 1;
    }

    method SetQueue(lane: Lane, q: seq<Addr>)
      modifies this`background, this`interactive
      ensures View() == WithQueue(old(View()), lane, q)
    {
      match lane {
        case Background => background := q;
        case Interactive => interactive := q;
      }
    }

    /** remove: the first place with the waiter's address goes, and everyone is told. */
    method Remove(lane: Lane, w: Addr)
      modifies this`background, this`interactive, this`changed
      ensures View() == Announced(WithQueue(old(View()), lane, Without(Queue(old(View()), lane), w)))
    {
      hide Without;
      var q := if lane.Background? then background else interactive;
      var i := 0;
      assert q[..0] + Without(q[0..], w) == Without(q, w) by { assert q[0..] == q; }
      while i < |q| && q[i] != w
        invariant 0 <= i <= |q|
        invariant Without(q, w) == q[..i] + Without(q[i..], w)
        invariant View() == old(View())
      {
        WithoutAt(q, w, i);
        assert q[..i] + [q[i]] == q[..i + 1];
        i := i + 1;
      }
      WithoutAt(q, w, i);
      if i < |q| {
        SetQueue(lane, q[..i] + q[i + 1..]);
      } else {
        assert q[..i] + [] == q;
        SetQueue(lane, q);
      }
      Broadcast();
    }

    method Append(lane: Lane, w: Addr)
      modifies this`background, this`interactive
      ensures View() == Join(old(View()), lane, w)
    {
      SetQueue(lane, (if lane.Background? then background else interactive) + [w]);
    }

    /** The body of WaitContext's loop between taking and leaving the lock. */
    method Attempt(lane: Lane, w: Addr, cancelled: bool, start: Time, now: Time) returns (o: Outcome)
      requires start <= now
      modifies this
      ensures (View(), o) == Pass(old(View()), lane, w, cancelled, start, now)
    {
      if cancelled {
        Remove(lane, w);
        return GaveUp;
      }
      var q := if lane.Background? then background else interactive;
      var ahead := |q| > 0 && q[0] == w;
      if lane.Background? && |interactive| > 0 {
        ahead := false;
      }
      if ahead && next <= now {
        SetQueue(lane, q[1..]);
        next := now + interval;
        match lane {
          case Background => backgroundStats :=
            LaneStats(backgroundStats.requests + 1, backgroundStats.waited + (now - start));
          case Interactive => interactiveStats :=
            LaneStats(interactiveStats.requests + 1, interactiveStats.waited + (now - start));
        }
        Broadcast();
        return Granted;
      }
      o := Sleep(changed, if ahead then Some(next) else None);
    }

    /** The first turn: join the lane's queue, then the loop's body. */
    method Enter(lane: Lane, w: Addr, cancelled: bool, start: Time, now: Time) returns (o: Outcome)
      requires start <= now
      modifies this
      ensures (View(), o) == Pass(Join(old(View()), lane, w), lane, w, cancelled, start, now)
    {
      Append(lane, w);
      o := Attempt(lane, w, cancelled, start, now);
    }
  }

  // ---- Many waiters -------------------------------------------------------

  /** Where a waiter is: before its first lock, asleep in the select, woken and wanting the lock, or done. */
  datatype Place = Arriving | Asleep(channel: nat, alarm: Option<Time>) | Woken | Gone | Served

  datatype Waiter = Waiter(lane: Lane, addr: Addr, start: Time, cancelled: bool, place: Place, ticket: nat)

  /** A slot given out; ahead counts the interactive waiters there were then. */
  datatype Grant = Grant(id: Id, lane: Lane, at: Time, ticket: nat, ahead: nat)

  /**
   * The limiter, the clock and its callers. tickets numbers the callers in the
   * order they join a queue and grants lists the slots given out: history that
   * no step reads.
   */
  datatype System = System(
    limiter: Limiter, clock: Time, waiters: map<Id, Waiter>, tickets: nat, grants: seq<Grant>)

  datatype Step =
    | Arrive(id: Id, lane: Lane, addr: Addr)  // allocated at whatever address
    | Enter(id: Id)                           // first lock: join the queue, then a pass
    | Wake(id: Id)                            // the select returns
    | Retry(id: Id)                           // the lock again: another pass
    | Cancel(id: Id)
    | Tick(elapsed: nat)

  predicate Waiting(w: Waiter) {
    w.place.Asleep? || w.place.Woken?
  }

  /** A sleeper may go on: its channel is closed, its context cancelled, or its alarm due. */
  predicate Runnable(s: System, w: Waiter) {
    match w.place
    case Asleep(c, alarm) => c < s.limiter.changed || w.cancelled || (alarm.Some? && alarm.value <= s.clock)
    case Woken => true
    case _ => false
  }

  predicate Enabled(s: System, step: Step) {
    match step
    case Arrive(id, _, _) => id !in s.waiters
    case Enter(id) => id in s.waiters && s.waiters[id].place.Arriving? && s.waiters[id].start <= s.clock
    case Wake(id) => id in s.waiters && s.waiters[id].place.Asleep? && Runnable(s, s.waiters[id])
    case Retry(id) => id in s.waiters && s.waiters[id].place.Woken? && s.waiters[id].start <= s.clock
    case Cancel(id) => id in s.waiters
    case Tick(_) => true
  }

  /** The waiters of a lane that wait at an address. */
  function WaitersAt(s: System, lane: Lane, a: Addr): set<Id> {
    set id | id in s.waiters && Waiting(s.waiters[id]) && s.waiters[id].lane == lane && s.waiters[id].addr == a
  }

  function InteractiveWaiters(s: System): set<Id> {
    set id | id in s.waiters && Waiting(s.waiters[id]) && s.waiters[id].lane.Interactive?
  }

  function Placed(s: System, id: Id, p: Place): map<Id, Waiter>
    requires id in s.waiters
  {
    s.waiters[id := s.waiters[id].(place := p)]
  }

  /** A pass of a waiter that has the lock. */
  function Passed(s: System, id: Id): System
    requires id in s.waiters && s.waiters[id].start <= s.clock
  {
    var w := s.waiters[id];
    var (l, o) := Pass(s.limiter, w.lane, w.addr, w.cancelled, w.start, s.clock);
    match o
    case GaveUp => s.(limiter := l, waiters := Placed(s, id, Gone))
    case Granted =>
      s.(limiter := l, waiters := Placed(s, id, Served),
         grants := s.grants + [Grant(id, w.lane, s.clock, w.ticket, |InteractiveWaiters(s)|)])
    case Sleep(c, alarm) => s.(limiter := l, waiters := Placed(s, id, Asleep(c, alarm)))
  }

  /** Joining the queue, with the next ticket and the lock in hand. */
  function Joined(s: System, id: Id): System
    requires id in s.waiters
  {
    var w := s.waiters[id];
    s.(tickets := s.tickets + 1, limiter := Join(s.limiter, w.lane, w.addr),
       waiters := s.waiters[id := w.(ticket := s.tickets, place := Woken)])
  }

  function Next(s: System, step: Step): System
    requires Enabled(s, step)
  {
    match step
    case Arrive(id, lane, a) => s.(waiters := s.waiters[id := Waiter(lane, a, s.clock, false, Arriving, 0)])
    case Enter(id) => Passed(Joined(s, id), id)
    case Wake(id) => s.(waiters := Placed(s, id, Woken))
    case Retry(id) => Passed(s, id)
    case Cancel(id) => s.(waiters := s.waiters[id := s.waiters[id].(cancelled := true)])
    case Tick(d) => s.(clock := s.clock + d)
  }

  function Start(interval: nat): System {
    System(Limiter(interval, 0, [], [], 0, LaneStats(0, 0), LaneStats(0, 0)), 0, map[], 0, [])
  }

  /** An interleaving: each step enabled when its turn comes. */
  predicate Run(s: System, steps: seq<Step>)
    decreases steps
  {
    steps == [] || (Enabled(s, steps[0]) && Run(Next(s, steps[0]), steps[1..]))
  }

  function End(s: System, steps: seq<Step>): System
    requires Run(s, steps)
    decreases steps
  {
    if steps == [] then s else End(Next(s, steps[0]), steps[1..])
  }

  // ---- Invariants, whatever the addresses ------------------------------------

  ghost predicate WaiterOk(s: System, id: Id)
    requires id in s.waiters
  {
    var w := s.waiters[id];
    && w.start <= s.clock
    && (Waiting(w) || w.place.Served? ==> w.ticket < s.tickets)
    && (w.place.Asleep? ==> w.place.channel <= s.limiter.changed)
  }

  /** A lane's queue holds each address as often as waiters wait at it. */
  ghost predicate QueueOk(s: System, lane: Lane) {
    forall a: Addr :: multiset(Queue(s.limiter, lane))[a] == |WaitersAt(s, lane, a)|
  }

  ghost predicate QueuesMatch(s: System) {
    && (forall id | id in s.waiters :: WaiterOk(s, id))
    && (forall lane: Lane :: QueueOk(s, lane))
  }

  /** A sleeper whose channel is still open and who is entitled has an alarm for the next slot. */
  ghost predicate Alarmed(s: System) {
    forall id | id in s.waiters && s.waiters[id].place.Asleep? && s.waiters[id].place.channel == s.limiter.changed ::
      Entitled(s.limiter, s.waiters[id].lane, s.waiters[id].addr) ==> s.waiters[id].place.alarm == Some(s.limiter.next)
  }

  /** The time a number of slots take. */
  function Span(slots: nat, interval: nat): nat {
    slots * interval
  }

  lemma SpanMore(slots: nat, interval: nat)
    ensures Span(slots + 1, interval) == Span(slots, interval) + interval
    ensures Span(1, interval) == interval
  {
  }

  /** The slots given out: far enough apart, none to the background past an interactive waiter. */
  ghost predicate GrantsOk(s: System) {
    && (forall k | 0 <= k < |s.grants| ::
          s.grants[k].ticket < s.tickets && (s.grants[k].lane.Background? ==> s.grants[k].ahead == 0))
    && (forall i, j | 0 <= i < j < |s.grants| :: s.grants[i].at + Span(j - i, s.limiter.interval) <= s.grants[j].at)
    && (s.grants != [] ==> s.limiter.next == s.grants[|s.grants| - 1].at + s.limiter.interval)
  }

  ghost predicate Inv(s: System) {
    QueuesMatch(s) && Alarmed(s) && GrantsOk(s)
  }

  lemma StartInv(interval: nat)
    ensures Inv(Start(interval))
  {
    var s := Start(interval);
    forall lane: Lane, a: Addr ensures multiset(Queue(s.limiter, lane))[a] == |WaitersAt(s, lane, a)| {
      assert WaitersAt(s, lane, a) == {};
    }
  }

  /** An address is queued exactly when somebody waits at it. */
  lemma QueuedIffWaiting(s: System, lane: Lane, a: Addr)
    requires QueueOk(s, lane)
    ensures a in Queue(s.limiter, lane) <==> WaitersAt(s, lane, a) != {}
  {
    assert a in Queue(s.limiter, lane) <==> multiset(Queue(s.limiter, lane))[a] > 0;
  }

  lemma WaiterQueued(s: System, id: Id)
    requires QueuesMatch(s) && id in s.waiters && Waiting(s.waiters[id])
    ensures s.waiters[id].addr in Queue(s.limiter, s.waiters[id].lane)
  {
    assert id in WaitersAt(s, s.waiters[id].lane, s.waiters[id].addr);
    QueuedIffWaiting(s, s.waiters[id].lane, s.waiters[id].addr);
  }

  lemma {:induction false} WithoutCounts(q: seq<Addr>, a: Addr)
    requires a in q
    ensures multiset(Without(q, a)) == multiset(q) - multiset{a}
  {
    assert q == [q[0]] + q[1..];
    if q[0] != a {
      WithoutCounts(q[1..], a);
    }
  }

  /** r is s with waiter id out of its lane's queue, at place p, and everyone told. */
  ghost predicate Left(s: System, id: Id, p: Place, r: System)
    requires id in s.waiters
  {
    var w := s.waiters[id];
    && (p.Gone? || p.Served?)
    && w.addr in Queue(s.limiter, w.lane)
    && multiset(Queue(r.limiter, w.lane)) == multiset(Queue(s.limiter, w.lane)) - multiset{w.addr}
    && (forall other: Lane | other != w.lane :: Queue(r.limiter, other) == Queue(s.limiter, other))
    && r.waiters == Placed(s, id, p)
    && r.limiter.changed == s.limiter.changed + 1 && r.clock == s.clock && r.tickets == s.tickets
  }

  lemma Leaves(s: System, id: Id, p: Place, r: System)
    requires QueuesMatch(s) && id in s.waiters && s.waiters[id].place.Woken? && Left(s, id, p, r)
    ensures QueuesMatch(r) && Alarmed(r)
  {
    forall x | x in r.waiters ensures WaiterOk(r, x) { assert WaiterOk(s, x); }
    forall lane: Lane ensures QueueOk(r, lane) { LeftQueue(s, id, p, r, lane); }
    hide QueueOk;
  }

  lemma LeftQueue(s: System, id: Id, p: Place, r: System, lane: Lane)
    requires QueueOk(s, lane) && id in s.waiters && s.waiters[id].place.Woken? && Left(s, id, p, r)
    ensures QueueOk(r, lane)
  {
    forall a: Addr ensures multiset(Queue(r.limiter, lane))[a] == |WaitersAt(r, lane, a)| {
      LeftCounts(s, id, p, r, lane, a);
      hide WaitersAt, Left;
    }
  }

  lemma LeftCounts(s: System, id: Id, p: Place, r: System, lane: Lane, a: Addr)
    requires id in s.waiters && s.waiters[id].place.Woken? && Left(s, id, p, r)
    ensures var gone := if a == s.waiters[id].addr && lane == s.waiters[id].lane then 1 else 0;
            && |WaitersAt(r, lane, a)| == |WaitersAt(s, lane, a)| - gone
            && multiset(Queue(r.limiter, lane))[a] == multiset(Queue(s.limiter, lane))[a] - gone
  {
    GoneFrom(s, id, p, r, lane, a);
    hide WaitersAt;
    if lane == s.waiters[id].lane {
      CountLess(Queue(s.limiter, lane), Queue(r.limiter, lane), s.waiters[id].addr, a);
    }
  }

  lemma GoneFrom(s: System, id: Id, p: Place, r: System, lane: Lane, a: Addr)
    requires id in s.waiters && Waiting(s.waiters[id]) && (p.Gone? || p.Served?) && r.waiters == Placed(s, id, p)
    ensures |WaitersAt(r, lane, a)| ==
            |WaitersAt(s, lane, a)| - if a == s.waiters[id].addr && lane == s.waiters[id].lane then 1 else 0
  {
    if a == s.waiters[id].addr && lane == s.waiters[id].lane {
      assert id in WaitersAt(s, lane, a);
      assert WaitersAt(r, lane, a) == WaitersAt(s, lane, a) - {id};
    } else {
      assert WaitersAt(r, lane, a) == WaitersAt(s, lane, a);
    }
  }

  lemma CountLess(q: seq<Addr>, q1: seq<Addr>, x: Addr, a: Addr)
    requires x in q && multiset(q1) == multiset(q) - multiset{x}
    ensures multiset(q1)[a] == multiset(q)[a] - if a == x then 1 else 0
  {
    assert x in multiset(q);
  }

  lemma GrantSpaced(s: System, g: Grant)
    requires GrantsOk(s) && s.limiter.next <= g.at && g.ticket < s.tickets && (g.lane.Background? ==> g.ahead == 0)
    ensures GrantsOk(s.(grants := s.grants + [g], limiter := s.limiter.(next := g.at + s.limiter.interval)))
  {
    hide Span;
    var more, n, d := s.grants + [g], |s.grants|, s.limiter.interval;
    forall i, j | 0 <= i < j < |more| ensures more[i].at + Span(j - i, d) <= more[j].at {
      if j == n {
        SpanMore(n - 1 - i, d);
        assert i < n - 1 ==> s.grants[i].at + Span(n - 1 - i, d) <= s.grants[n - 1].at;
      }
    }
  }

  lemma GrantsUnmoved(s: System, r: System)
    requires GrantsOk(s) && r.grants == s.grants && s.tickets <= r.tickets
    requires r.limiter.next == s.limiter.next && r.limiter.interval == s.limiter.interval
    ensures GrantsOk(r)
  {
  }

  /** With no interactive address queued no interactive waiter waits. */
  lemma NoneAhead(s: System)
    requires QueueOk(s, Interactive) && s.limiter.interactive == []
    ensures InteractiveWaiters(s) == {}
  {
    if id :| id in InteractiveWaiters(s) {
      assert id in WaitersAt(s, Interactive, s.waiters[id].addr);
      QueuedIffWaiting(s, Interactive, s.waiters[id].addr);
    }
  }

  lemma PassKeeps(s: System, id: Id)
    requires Inv(s) && id in s.waiters && s.waiters[id].place.Woken? && s.waiters[id].start <= s.clock
    ensures Inv(Passed(s, id))
  {
    hide QueuesMatch, Alarmed, GrantsOk, Without, InteractiveWaiters, Entitled;
    var w := s.waiters[id];
    var r := Passed(s, id);
    if w.cancelled {
      WaiterQueued(s, id);
      WithoutCounts(Queue(s.limiter, w.lane), w.addr);
      Leaves(s, id, Gone, r);
      GrantsUnmoved(s, r);
    } else if Entitled(s.limiter, w.lane, w.addr) && s.limiter.next <= s.clock {
      GrantKeeps(s, id);
    } else {
      SleepKeeps(s, id, r);
      GrantsUnmoved(s, r);
    }
  }

  lemma GrantKeeps(s: System, id: Id)
    requires Inv(s) && id in s.waiters && s.waiters[id].place.Woken? && s.waiters[id].start <= s.clock
             && !s.waiters[id].cancelled
    requires Entitled(s.limiter, s.waiters[id].lane, s.waiters[id].addr) && s.limiter.next <= s.clock
    ensures Inv(Passed(s, id))
  {
    hide Passed, Entitled;
    var r := Passed(s, id);
    var g := Grant(id, s.waiters[id].lane, s.clock, s.waiters[id].ticket, |InteractiveWaiters(s)|);
    assert WaiterOk(s, id);
    GrantLeaves(s, id);
    if s.waiters[id].lane.Background? { NoneAhead(s); }
    hide QueuesMatch, Alarmed, GrantsOk, InteractiveWaiters, Left;
    Leaves(s, id, Served, r);
    GrantSpaced(s, g);
    GrantsUnmoved(s.(grants := s.grants + [g], limiter := s.limiter.(next := g.at + s.limiter.interval)), r);
  }

  /** What a grant does to the system. */
  lemma GrantLeaves(s: System, id: Id)
    requires id in s.waiters && s.waiters[id].start <= s.clock && !s.waiters[id].cancelled
    requires Entitled(s.limiter, s.waiters[id].lane, s.waiters[id].addr) && s.limiter.next <= s.clock
    ensures var w := s.waiters[id];
            var r := Passed(s, id);
            && Left(s, id, Served, r) && r.limiter.next == s.clock + s.limiter.interval
            && r.limiter.interval == s.limiter.interval
            && r.grants == s.grants + [Grant(id, w.lane, s.clock, w.ticket, |InteractiveWaiters(s)|)]
            && (w.lane.Background? ==> s.limiter.interactive == [])
  {
    hide InteractiveWaiters;
    HeadCounts(Queue(s.limiter, s.waiters[id].lane));
  }

  lemma HeadCounts(q: seq<Addr>)
    requires q != []
    ensures q[0] in q && multiset(q[1..]) == multiset(q) - multiset{q[0]}
  {
    assert q == [q[0]] + q[1..];
  }

  lemma SleepKeeps(s: System, id: Id, r: System)
    requires Inv(s) && id in s.waiters && s.waiters[id].place.Woken?
    requires var front := Entitled(s.limiter, s.waiters[id].lane, s.waiters[id].addr);
             r == s.(waiters := Placed(s, id, Asleep(s.limiter.changed, if front then Some(s.limiter.next) else None)))
    ensures QueuesMatch(r) && Alarmed(r)
  {
    forall x | x in r.waiters ensures WaiterOk(r, x) { assert WaiterOk(s, x); }
    hide WaiterOk;
    forall lane: Lane ensures QueueOk(r, lane) { SameQueue(s, r, lane); }
    hide QueueOk;
  }

  /** Nobody begins or stops waiting. */
  lemma SameQueue(s: System, r: System, lane: Lane)
    requires QueueOk(s, lane) && Queue(r.limiter, lane) == Queue(s.limiter, lane) && s.waiters.Keys <= r.waiters.Keys
    requires forall x | x in s.waiters ::
               r.waiters[x].lane == s.waiters[x].lane && r.waiters[x].addr == s.waiters[x].addr
               && Waiting(r.waiters[x]) == Waiting(s.waiters[x])
    requires forall x | x in r.waiters && x !in s.waiters :: !Waiting(r.waiters[x])
    ensures QueueOk(r, lane)
  {
    forall a: Addr ensures multiset(Queue(r.limiter, lane))[a] == |WaitersAt(r, lane, a)| {
      assert WaitersAt(r, lane, a) == WaitersAt(s, lane, a);
    }
  }

  /** Joining a queue makes no sleeper entitled, so no alarm is missed. */
  lemma JoinKeeps(s: System, id: Id)
    requires Inv(s) && id in s.waiters && s.waiters[id].place.Arriving?
    ensures Inv(Joined(s, id))
  {
    var r := Joined(s, id);
    forall x | x in r.waiters ensures WaiterOk(r, x) { assert WaiterOk(s, x); }
    forall lane: Lane ensures QueueOk(r, lane) { JoinQueue(s, id, lane); }
    GrantsUnmoved(s, r);
    forall x | x in r.waiters && r.waiters[x].place.Asleep? && r.waiters[x].place.channel == r.limiter.changed
               && Entitled(r.limiter, r.waiters[x].lane, r.waiters[x].addr)
      ensures r.waiters[x].place.alarm == Some(r.limiter.next)
    {
      WaiterQueued(s, x);
      assert Entitled(s.limiter, s.waiters[x].lane, s.waiters[x].addr);
    }
  }

  lemma JoinQueue(s: System, id: Id, lane: Lane)
    requires QueueOk(s, lane) && id in s.waiters && s.waiters[id].place.Arriving?
    ensures QueueOk(Joined(s, id), lane)
  {
    var r, w := Joined(s, id), s.waiters[id];
    forall a: Addr ensures multiset(Queue(r.limiter, lane))[a] == |WaitersAt(r, lane, a)| {
      assert id !in WaitersAt(s, lane, a);
      if a == w.addr && lane == w.lane {
        assert WaitersAt(r, lane, a) == WaitersAt(s, lane, a) + {id};
      } else {
        assert WaitersAt(r, lane, a) == WaitersAt(s, lane, a);
      }
    }
  }

  /** Steps that leave the limiter alone. */
  lemma QuietKeeps(s: System, r: System)
    requires Inv(s) && r.limiter == s.limiter && r.tickets == s.tickets && r.grants == s.grants && s.clock <= r.clock
    requires s.waiters.Keys <= r.waiters.Keys
    requires forall x | x in s.waiters ::
               r.waiters[x] == s.waiters[x].(cancelled := r.waiters[x].cancelled, place := r.waiters[x].place)
               && (r.waiters[x].place == s.waiters[x].place
                   || (s.waiters[x].place.Asleep? && r.waiters[x].place.Woken?))
    requires forall x | x in r.waiters && x !in s.waiters ::
               r.waiters[x].place.Arriving? && r.waiters[x].start <= r.clock
    ensures Inv(r)
  {
    forall x | x in r.waiters ensures WaiterOk(r, x) { if x in s.waiters { assert WaiterOk(s, x); } }
    forall lane: Lane ensures QueueOk(r, lane) { SameQueue(s, r, lane); }
    hide QueueOk;
    GrantsUnmoved(s, r);
  }

  lemma StepKeeps(s: System, step: Step)
    requires Inv(s) && Enabled(s, step)
    ensures Inv(Next(s, step))
  {
    hide Passed, QueueOk;
    match step
    case Enter(id) =>
      JoinKeeps(s, id);
      PassKeeps(Joined(s, id), id);
    case Retry(id) => PassKeeps(s, id);
    case Arrive(_, _, _) => QuietKeeps(s, Next(s, step));
    case Wake(_) => QuietKeeps(s, Next(s, step));
    case Cancel(_) => QuietKeeps(s, Next(s, step));
    case Tick(_) => QuietKeeps(s, Next(s, step));
  }

  lemma {:induction false} RunKeeps(s: System, steps: seq<Step>)
    requires Inv(s) && Run(s, steps)
    ensures Inv(End(s, steps))
    decreases steps
  {
    hide Inv, Enabled, Next;
    if steps != [] {
      StepKeeps(s, steps[0]);
      RunKeeps(Next(s, steps[0]), steps[1..]);
    }
  }

  // ---- What callers rely on, whatever the addresses --------------------------

  /**
   * No lost wakeup: in every interleaving of arrivals, passes, cancellations
   * and time, no waiter that may go next is stuck. It wants the lock already,
   * its channel is closed or its context cancelled, or its alarm is set for
   * the current next slot.
   */
  lemma NoLostWakeup(interval: nat, steps: seq<Step>, id: Id)
    requires Run(Start(interval), steps)
    requires var s := End(Start(interval), steps);
             id in s.waiters && Waiting(s.waiters[id]) && Entitled(s.limiter, s.waiters[id].lane, s.waiters[id].addr)
    ensures var s := End(Start(interval), steps);
            var w := s.waiters[id];
            || w.place.Woken? || w.place.channel < s.limiter.changed || w.cancelled
            || w.place.alarm == Some(s.limiter.next)
  {
    hide Run, End;
    StartInv(interval);
    RunKeeps(Start(interval), steps);
    assert WaiterOk(End(Start(interval), steps), id);
  }

  /** An address queued means somebody entitled, and waiting. */
  lemma SomeoneEntitled(s: System) returns (id: Id)
    requires QueuesMatch(s) && (s.limiter.background != [] || s.limiter.interactive != [])
    ensures id in s.waiters && Waiting(s.waiters[id]) && Entitled(s.limiter, s.waiters[id].lane, s.waiters[id].addr)
  {
    var lane := if s.limiter.interactive != [] then Interactive else Background;
    var a := Queue(s.limiter, lane)[0];
    QueuedIffWaiting(s, lane, a);
    id :| id in WaitersAt(s, lane, a);
  }

  /**
   * So a queue never stalls: from any reachable state with somebody queued,
   * once the next slot's time has come one waiter can, with its own two steps
   * at most, leave with a grant (or give up if it was cancelled).
   */
  lemma QueueMoves(s: System) returns (id: Id, steps: seq<Step>)
    requires Inv(s) && (s.limiter.background != [] || s.limiter.interactive != []) && s.limiter.next <= s.clock
    ensures |steps| <= 2 && (forall i | 0 <= i < |steps| :: steps[i] == Wake(id) || steps[i] == Retry(id))
    ensures Run(s, steps) && id in s.waiters && id in End(s, steps).waiters
    ensures End(s, steps).waiters[id].place == if s.waiters[id].cancelled then Gone else Served
  {
    id := SomeoneEntitled(s);
    assert WaiterOk(s, id);
    hide Run, End;
    if s.waiters[id].place.Asleep? {
      var s1 := Next(s, Wake(id));
      assert Enabled(s1, Retry(id));
      RunOne(s1, Retry(id));
      RunMore(s, Wake(id), [Retry(id)]);
      steps := [Wake(id)] + [Retry(id)];
    } else {
      RunOne(s, Retry(id));
      steps := [Retry(id)];
    }
  }

  lemma RunOne(s: System, step: Step)
    requires Enabled(s, step)
    ensures Run(s, [step]) && End(s, [step]) == Next(s, step)
  {
    var rest := [step][1..];
    assert rest == [];
    assert Run(Next(s, step), rest) && End(Next(s, step), rest) == Next(s, step);
  }

  lemma RunMore(s: System, step: Step, steps: seq<Step>)
    requires Enabled(s, step) && Run(Next(s, step), steps)
    ensures Run(s, [step] + steps) && End(s, [step] + steps) == End(Next(s, step), steps)
  {
    assert ([step] + steps)[1..] == steps;
  }

  /** Any two slots given out are apart by an interval for each slot between them. */
  lemma SlotsApart(interval: nat, steps: seq<Step>, i: nat, j: nat)
    requires Run(Start(interval), steps) && i < j < |End(Start(interval), steps).grants|
    ensures var g := End(Start(interval), steps).grants;
            g[i].at + (j - i) * interval <= g[j].at
  {
    hide Run, End, QueuesMatch, Alarmed;
    StartInv(interval);
    RunKeeps(Start(interval), steps);
    IntervalKept(Start(interval), steps);
    var s := End(Start(interval), steps);
    assert s.grants[i].at + Span(j - i, s.limiter.interval) <= s.grants[j].at;
  }

  lemma {:induction false} IntervalKept(s: System, steps: seq<Step>)
    requires Run(s, steps)
    ensures End(s, steps).limiter.interval == s.limiter.interval
    decreases steps
  {
    if steps != [] {
      IntervalKept(Next(s, steps[0]), steps[1..]);
    }
  }

  /** A background request is never granted while an interactive one waits. */
  lemma InteractiveFirst(interval: nat, steps: seq<Step>, k: nat)
    requires Run(Start(interval), steps) && k < |End(Start(interval), steps).grants|
    ensures var g := End(Start(interval), steps).grants[k]; g.lane.Background? ==> g.ahead == 0
  {
    hide Run, End;
    StartInv(interval);
    RunKeeps(Start(interval), steps);
  }

  // ---- What the statistics count ---------------------------------------------

  function GrantsIn(grants: seq<Grant>, lane: Lane): nat {
    if grants == [] then 0
    else GrantsIn(grants[..|grants| - 1], lane) + if grants[|grants| - 1].lane == lane then 1 else 0
  }

  /** How long those granted in a lane had waited, from their start to their grant. */
  function WaitedIn(grants: seq<Grant>, waiters: map<Id, Waiter>, lane: Lane): int {
    if grants == [] then 0
    else
      var g := grants[|grants| - 1];
      WaitedIn(grants[..|grants| - 1], waiters, lane)
      + if g.lane == lane && g.id in waiters then g.at - waiters[g.id].start else 0
  }

  ghost predicate StatsOk(s: System) {
    && (forall g <- s.grants :: g.id in s.waiters)
    && s.limiter.backgroundStats.requests == GrantsIn(s.grants, Background)
    && s.limiter.interactiveStats.requests == GrantsIn(s.grants, Interactive)
    && s.limiter.backgroundStats.waited == WaitedIn(s.grants, s.waiters, Background)
    && s.limiter.interactiveStats.waited == WaitedIn(s.grants, s.waiters, Interactive)
  }

  lemma {:induction false} WaitedKept(grants: seq<Grant>, a: map<Id, Waiter>, b: map<Id, Waiter>, lane: Lane)
    requires forall g <- grants :: g.id in a && g.id in b && a[g.id].start == b[g.id].start
    ensures WaitedIn(grants, a, lane) == WaitedIn(grants, b, lane)
  {
    if grants != [] {
      WaitedKept(grants[..|grants| - 1], a, b, lane);
    }
  }

  /** Steps that grant nothing. */
  lemma QuietStats(s: System, r: System)
    requires StatsOk(s) && r.grants == s.grants
    requires s.limiter.backgroundStats == r.limiter.backgroundStats
    requires s.limiter.interactiveStats == r.limiter.interactiveStats
    requires forall id | id in s.waiters :: id in r.waiters && r.waiters[id].start == s.waiters[id].start
    ensures StatsOk(r)
  {
    WaitedKept(s.grants, s.waiters, r.waiters, Background);
    WaitedKept(s.grants, s.waiters, r.waiters, Interactive);
  }

  lemma PassedStats(s: System, id: Id)
    requires StatsOk(s) && id in s.waiters && s.waiters[id].start <= s.clock
    ensures StatsOk(Passed(s, id))
  {
    hide WaitedIn, GrantsIn, Without, Entitled;
    var r := Passed(s, id);
    if r.grants == s.grants {
      QuietStats(s, r);
    } else {
      WaitedKept(s.grants, s.waiters, r.waiters, Background);
      WaitedKept(s.grants, s.waiters, r.waiters, Interactive);
      assert r.grants[..|r.grants| - 1] == s.grants;
      OneGrant(r.grants, r.waiters, Background);
      OneGrant(r.grants, r.waiters, Interactive);
    }
  }

  lemma StepKeepsStats(s: System, step: Step)
    requires StatsOk(s) && Enabled(s, step)
    ensures StatsOk(Next(s, step))
  {
    hide StatsOk, Passed;
    match step
    case Enter(id) =>
      QuietStats(s, Joined(s, id));
      PassedStats(Joined(s, id), id);
    case Retry(id) => PassedStats(s, id);
    case _ => QuietStats(s, Next(s, step));
  }

  lemma OneGrant(grants: seq<Grant>, waiters: map<Id, Waiter>, lane: Lane)
    requires grants != [] && grants[|grants| - 1].id in waiters
    ensures var g, before := grants[|grants| - 1], grants[..|grants| - 1];
            && GrantsIn(grants, lane) == GrantsIn(before, lane) + (if g.lane == lane then 1 else 0)
            && WaitedIn(grants, waiters, lane) ==
               WaitedIn(before, waiters, lane) + (if g.lane == lane then g.at - waiters[g.id].start else 0)
  {
  }

  /** Over every run a lane's statistics are the number of its grants and the time they were waited for. */
  lemma {:induction false} StatsCount(s: System, steps: seq<Step>)
    requires StatsOk(s) && Run(s, steps)
    ensures StatsOk(End(s, steps))
    decreases |steps|
  {
    hide StatsOk;
    if steps != [] {
      StepKeepsStats(s, steps[0]);
      StatsCount(Next(s, steps[0]), steps[1..]);
    }
  }

  /** From the start on, since nothing is counted before. */
  lemma StatsAreGrants(interval: nat, steps: seq<Step>)
    requires Run(Start(interval), steps)
    ensures var s := End(Start(interval), steps);
            && s.limiter.backgroundStats.requests == GrantsIn(s.grants, Background)
            && s.limiter.interactiveStats.requests == GrantsIn(s.grants, Interactive)
            && s.limiter.backgroundStats.waited == WaitedIn(s.grants, s.waiters, Background)
            && s.limiter.interactiveStats.waited == WaitedIn(s.grants, s.waiters, Interactive)
  {
    hide Run, End;
    StatsCount(Start(interval), steps);
  }

  // ---- First in, first out: a matter of addresses ----------------------------

  /**
   * Lanes are first in, first out: slots go in the order of joining, and
   * whoever still waits joined after everyone its lane has served.
   */
  ghost predicate LaneOrder(s: System) {
    && (forall i, j | 0 <= i < j < |s.grants| && s.grants[i].lane == s.grants[j].lane ::
          s.grants[i].ticket < s.grants[j].ticket)
    && (forall id, k | id in s.waiters && Waiting(s.waiters[id]) && 0 <= k < |s.grants|
                       && s.grants[k].lane == s.waiters[id].lane ::
          s.grants[k].ticket < s.waiters[id].ticket)
  }

  /** No two waiters so far have the same address. */
  ghost predicate Apart(s: System) {
    forall x, y | x in s.waiters && y in s.waiters && s.waiters[x].addr == s.waiters[y].addr :: x == y
  }

  /** The queues are in the order of joining. */
  ghost predicate QueueOrder(s: System) {
    forall x, y, i, j | x in s.waiters && y in s.waiters && Waiting(s.waiters[x]) && Waiting(s.waiters[y])
                        && s.waiters[x].lane == s.waiters[y].lane
                        && Stands(s, x, i) && Stands(s, y, j) && i < j ::
      s.waiters[x].ticket < s.waiters[y].ticket
  }

  /** A waiter's address is at a place of its lane's queue. */
  predicate Stands(s: System, id: Id, i: int)
    requires id in s.waiters
  {
    var q := Queue(s.limiter, s.waiters[id].lane);
    0 <= i < |q| && q[i] == s.waiters[id].addr
  }

  ghost predicate Ordered(s: System) {
    QueueOrder(s) && LaneOrder(s)
  }

  lemma WaiterStands(s: System, id: Id) returns (i: nat)
    requires QueuesMatch(s) && id in s.waiters && Waiting(s.waiters[id])
    ensures Stands(s, id, i)
  {
    WaiterQueued(s, id);
    i :| 0 <= i < |Queue(s.limiter, s.waiters[id].lane)|
         && Queue(s.limiter, s.waiters[id].lane)[i] == s.waiters[id].addr;
  }

  /** Taking one place out leaves the others in order. */
  lemma {:induction false} WithoutPlace(q: seq<Addr>, a: Addr, i: nat) returns (was: nat)
    requires i < |Without(q, a)|
    ensures was < |q| && Without(q, a)[i] == q[was] && (was == i || was == i + 1)
    ensures was == i ==> a !in q[..i + 1]
    ensures was == i + 1 ==> a in q[..i + 1]
  {
    if q[0] == a {
      was := i + 1;
      assert q[..i + 1][0] == a;
    } else if i == 0 {
      was := 0;
    } else {
      var k := WithoutPlace(q[1..], a, i - 1);
      was := k + 1;
      assert q[..i + 1] == [q[0]] + q[1..][..i];
    }
  }

  /** The places a step of leaving keeps: r's queue of the lane is s's without one place. */
  lemma LeavingOrder(s: System, id: Id, p: Place, r: System)
    requires QueuesMatch(s) && QueueOrder(s) && id in s.waiters && Waiting(s.waiters[id]) && (p.Gone? || p.Served?)
    requires r.waiters == Placed(s, id, p)
    requires Queue(r.limiter, s.waiters[id].lane) == Without(Queue(s.limiter, s.waiters[id].lane), s.waiters[id].addr)
    requires forall other: Lane | other != s.waiters[id].lane :: Queue(r.limiter, other) == Queue(s.limiter, other)
    ensures QueueOrder(r)
  {
    hide Without, QueuesMatch;
    var lane := s.waiters[id].lane;
    forall x, y, i, j | x in r.waiters && y in r.waiters && Waiting(r.waiters[x]) && Waiting(r.waiters[y])
                        && r.waiters[x].lane == r.waiters[y].lane && Stands(r, x, i) && Stands(r, y, j) && i < j
      ensures r.waiters[x].ticket < r.waiters[y].ticket
    {
      if r.waiters[x].lane == lane {
        var a := s.waiters[id].addr;
        var i0 := WithoutPlace(Queue(s.limiter, lane), a, i);
        var j0 := WithoutPlace(Queue(s.limiter, lane), a, j);
        assert Queue(s.limiter, lane)[..i + 1] <= Queue(s.limiter, lane)[..j + 1];
        assert i0 < j0;
        assert Stands(s, x, i0) && Stands(s, y, j0);
      } else {
        assert Stands(s, x, i) && Stands(s, y, j);
      }
    }
  }

  /** A waiter that goes because its address is first joined before all that wait with it. */
  lemma HeadIsFirst(s: System, id: Id, y: Id)
    requires QueuesMatch(s) && QueueOrder(s) && Apart(s) && id in s.waiters && Waiting(s.waiters[id])
    requires Entitled(s.limiter, s.waiters[id].lane, s.waiters[id].addr)
    requires y in s.waiters && y != id && Waiting(s.waiters[y]) && s.waiters[y].lane == s.waiters[id].lane
    ensures s.waiters[id].ticket < s.waiters[y].ticket
  {
    var j := WaiterStands(s, y);
    assert Stands(s, id, 0);
  }

  lemma PassOrders(s: System, id: Id)
    requires Inv(s) && Ordered(s) && Apart(s) && id in s.waiters && s.waiters[id].place.Woken?
             && s.waiters[id].start <= s.clock
    ensures Ordered(Passed(s, id))
  {
    hide Alarmed, GrantsOk, QueuesMatch, WaitersAt;
    var w := s.waiters[id];
    var r := Passed(s, id);
    if w.cancelled {
      LeavingOrder(s, id, Gone, r);
      hide QueueOrder;
    } else if Entitled(s.limiter, w.lane, w.addr) && s.limiter.next <= s.clock {
      LeavingOrder(s, id, Served, r);
      forall y | y in s.waiters && y != id && Waiting(s.waiters[y]) && s.waiters[y].lane == w.lane
        ensures w.ticket < s.waiters[y].ticket
      {
        HeadIsFirst(s, id, y);
      }
      hide QueueOrder;
    } else {
      SleepOrders(s, id, r);
    }
  }

  lemma SleepOrders(s: System, id: Id, r: System)
    requires Ordered(s) && id in s.waiters && s.waiters[id].place.Woken?
    requires r.limiter == s.limiter && r.grants == s.grants && exists p: Place ::
               p.Asleep? && r.waiters == Placed(s, id, p)
    ensures Ordered(r)
  {
    QuietOrders(s, r);
  }

  /** Nobody joins or leaves a queue. */
  lemma QuietOrders(s: System, r: System)
    requires Ordered(s) && r.limiter == s.limiter && r.grants == s.grants && s.waiters.Keys <= r.waiters.Keys
    requires forall x | x in s.waiters ::
               r.waiters[x].lane == s.waiters[x].lane && r.waiters[x].addr == s.waiters[x].addr
               && r.waiters[x].ticket == s.waiters[x].ticket && Waiting(r.waiters[x]) == Waiting(s.waiters[x])
    requires forall x | x in r.waiters && x !in s.waiters :: !Waiting(r.waiters[x])
    ensures Ordered(r)
  {
    forall x, y, i, j | x in r.waiters && y in r.waiters && Waiting(r.waiters[x]) && Waiting(r.waiters[y])
                        && r.waiters[x].lane == r.waiters[y].lane && Stands(r, x, i) && Stands(r, y, j) && i < j
      ensures r.waiters[x].ticket < r.waiters[y].ticket
    {
      assert Stands(s, x, i) && Stands(s, y, j);
    }
    hide QueueOrder;
  }

  lemma JoinOrders(s: System, id: Id)
    requires Inv(s) && Ordered(s) && Apart(s) && id in s.waiters && s.waiters[id].place.Arriving?
    ensures Ordered(Joined(s, id))
  {
    var r := Joined(s, id);
    var n := |Queue(s.limiter, s.waiters[id].lane)|;
    forall x | x in s.waiters && Waiting(s.waiters[x])
      ensures s.waiters[x].ticket < s.tickets { assert WaiterOk(s, x); }
    assert WaitersAt(s, s.waiters[id].lane, s.waiters[id].addr) == {};
    QueuedIffWaiting(s, s.waiters[id].lane, s.waiters[id].addr);
    forall i | Stands(r, id, i) ensures i == n {}
    forall x, y, i, j | x in r.waiters && y in r.waiters && Waiting(r.waiters[x]) && Waiting(r.waiters[y])
                        && r.waiters[x].lane == r.waiters[y].lane && Stands(r, x, i) && Stands(r, y, j) && i < j
      ensures r.waiters[x].ticket < r.waiters[y].ticket
    {
      if x != id && y != id {
        OldPlace(s, id, x, i);
        OldPlace(s, id, y, j);
      }
    }
    hide QueueOrder, QueuesMatch, Alarmed;
  }

  /** Other waiters stand where they stood, the last place being the newcomer's alone. */
  lemma OldPlace(s: System, id: Id, x: Id, i: int)
    requires Apart(s) && id in s.waiters && x in s.waiters && x != id && s.waiters[id].place.Arriving?
    requires Stands(Joined(s, id), x, i)
    ensures Stands(s, x, i)
  {
  }

  lemma StepOrders(s: System, step: Step)
    requires Inv(s) && Ordered(s) && Enabled(s, step) && Apart(Next(s, step))
    ensures Ordered(Next(s, step)) && Apart(s)
  {
    hide Ordered, Inv;
    StillApart(s, step);
    match step
    case Enter(id) =>
      JoinOrders(s, id);
      JoinKeeps(s, id);
      JoinApart(s, id);
      PassOrders(Joined(s, id), id);
    case Retry(id) => PassOrders(s, id);
    case Arrive(_, _, _) => QuietOrders(s, Next(s, step));
    case Wake(_) => QuietOrders(s, Next(s, step));
    case Cancel(_) => QuietOrders(s, Next(s, step));
    case Tick(_) => QuietOrders(s, Next(s, step));
  }

  lemma JoinApart(s: System, id: Id)
    requires Apart(s) && id in s.waiters
    ensures Apart(Joined(s, id))
  {
  }

  /** Addresses are never taken back or changed. */
  lemma StillApart(s: System, step: Step)
    requires Enabled(s, step)
    ensures s.waiters.Keys <= Next(s, step).waiters.Keys
    ensures forall x | x in s.waiters :: Next(s, step).waiters[x].addr == s.waiters[x].addr
    ensures Apart(Next(s, step)) ==> Apart(s)
  {
    var r := Next(s, step);
    assert forall x | x in s.waiters :: r.waiters[x].addr == s.waiters[x].addr;
  }

  lemma {:induction false} EarlierApart(s: System, steps: seq<Step>)
    requires Run(s, steps) && Apart(End(s, steps))
    ensures Apart(s)
    decreases steps
  {
    hide Apart, Enabled, Next;
    if steps != [] {
      EarlierApart(Next(s, steps[0]), steps[1..]);
      StillApart(s, steps[0]);
    }
  }

  lemma {:induction false} RunOrders(s: System, steps: seq<Step>)
    requires Inv(s) && Ordered(s) && Run(s, steps) && Apart(End(s, steps))
    ensures Ordered(End(s, steps))
    decreases steps
  {
    hide Inv, Ordered, Apart, Enabled, Next;
    if steps != [] {
      EarlierApart(Next(s, steps[0]), steps[1..]);
      StepKeeps(s, steps[0]);
      StepOrders(s, steps[0]);
      RunOrders(Next(s, steps[0]), steps[1..]);
    }
  }

  lemma StartOrdered(interval: nat)
    ensures Ordered(Start(interval))
  {
  }

  /** In a run whose waiters have addresses of their own each lane is first in, first out. */
  lemma FirstInFirstOut(interval: nat, steps: seq<Step>)
    requires Run(Start(interval), steps) && Apart(End(Start(interval), steps))
    ensures LaneOrder(End(Start(interval), steps))
  {
    hide Run, End, Inv, QueueOrder, LaneOrder;
    StartInv(interval);
    StartOrdered(interval);
    RunOrders(Start(interval), steps);
  }

  /** Every waiter of a run is allocated where the allocator puts it. */
  ghost predicate Allocated(alloc: Id -> Addr, steps: seq<Step>) {
    forall i | 0 <= i < |steps| && steps[i].Arrive? :: steps[i].addr == alloc(steps[i].id)
  }

  ghost predicate OrdersLanes(alloc: Id -> Addr) {
    forall interval, steps | Allocated(alloc, steps) && Run(Start(interval), steps) ::
      LaneOrder(End(Start(interval), steps))
  }

  ghost predicate Distinguishes(alloc: Id -> Addr) {
    forall x: Id, y: Id | alloc(x) == alloc(y) :: x == y
  }

  /**
   * The run in which j overtakes i: k takes the first slot, i joins and sleeps, and j joins when
   * the next slot comes.
   */
  function Overtaking(k: Id, i: Id, j: Id, lane: Lane, at: Id -> Addr): seq<Step> {
    [Arrive(k, lane, at(k)), Enter(k), Arrive(i, lane, at(i)), Enter(i), Tick(250), Arrive(j, lane, at(j)), Enter(j)]
  }

  /** Two waiters at one address: the later one is granted while the earlier one still waits. */
  lemma Overtakes(k: Id, i: Id, j: Id, lane: Lane, at: Id -> Addr)
    requires k != i && k != j && i != j && at(i) == at(j)
    ensures var steps := Overtaking(k, i, j, lane, at);
            && Run(Start(250), steps)
            && var s := End(Start(250), steps);
            && i in s.waiters && Waiting(s.waiters[i]) && |s.grants| == 2 && s.grants[1].id == j
            && s.grants[1].lane == s.waiters[i].lane
            && s.waiters[i].ticket < s.grants[1].ticket && !LaneOrder(s)
  {
    hide Run, End, Next;
    var s := AfterOne(k, i, lane, at);
    var steps := [Arrive(k, lane, at(k))] + ([Enter(k)] + ([Arrive(i, lane, at(i))] + [Enter(i)]));
    var late := [Tick(250)] + ([Arrive(j, lane, at(j))] + [Enter(j)]);
    OneOvertakes(s, i, j, lane, at);
    RunsOn(Start(250), steps, late);
    assert steps + late == Overtaking(k, i, j, lane, at);
  }

  /** The first half: k has the slot, i sleeps on the next. */
  lemma AfterOne(k: Id, i: Id, lane: Lane, at: Id -> Addr) returns (s: System)
    requires k != i
    ensures var steps := [Arrive(k, lane, at(k))] + ([Enter(k)] + ([Arrive(i, lane, at(i))] + [Enter(i)]));
            Run(Start(250), steps) && End(Start(250), steps) == s
    ensures s.clock == 0 && s.limiter.next == 250 && s.waiters.Keys == {k, i} && s.tickets == 2 && |s.grants| == 1
    ensures Waiting(s.waiters[i]) && s.waiters[i].lane == lane && s.waiters[i].ticket == 1
            && Queue(s.limiter, lane) == [at(i)]
    ensures s.limiter.interactive == if lane.Interactive? then [at(i)] else []
  {
    hide Run, End;
    var s0 := Start(250);
    var s1 := Next(s0, Arrive(k, lane, at(k)));
    var s2 := Next(s1, Enter(k));
    var s3 := Next(s2, Arrive(i, lane, at(i)));
    s := Next(s3, Enter(i));
    RunOne(s3, Enter(i));
    RunMore(s2, Arrive(i, lane, at(i)), [Enter(i)]);
    RunMore(s1, Enter(k), [Arrive(i, lane, at(i))] + [Enter(i)]);
    RunMore(s0, Arrive(k, lane, at(k)), [Enter(k)] + ([Arrive(i, lane, at(i))] + [Enter(i)]));
  }

  /** The second: j joins behind i and takes the slot. */
  lemma OneOvertakes(s: System, i: Id, j: Id, lane: Lane, at: Id -> Addr)
    requires s.clock == 0 && s.limiter.next == 250 && i in s.waiters && j !in s.waiters && s.tickets == 2
             && |s.grants| == 1
    requires Waiting(s.waiters[i]) && s.waiters[i].lane == lane && s.waiters[i].ticket == 1
             && Queue(s.limiter, lane) == [at(i)]
    requires s.limiter.interactive == if lane.Interactive? then [at(i)] else []
    requires at(i) == at(j)
    ensures var late := [Tick(250)] + ([Arrive(j, lane, at(j))] + [Enter(j)]);
            && Run(s, late)
            && var r := End(s, late);
            && i in r.waiters && Waiting(r.waiters[i]) && |r.grants| == 2 && r.grants[1].id == j
            && r.grants[1].lane == r.waiters[i].lane
            && r.waiters[i].ticket < r.grants[1].ticket && !LaneOrder(r)
  {
    hide Run, End;
    var s5 := Next(s, Tick(250));
    var s6 := Next(s5, Arrive(j, lane, at(j)));
    var s7 := Next(s6, Enter(j));
    RunOne(s6, Enter(j));
    RunMore(s5, Arrive(j, lane, at(j)), [Enter(j)]);
    RunMore(s, Tick(250), [Arrive(j, lane, at(j))] + [Enter(j)]);
    assert s7.waiters[j].place.Served? && s7.grants[1].ticket == 2;
  }

  lemma {:induction false} RunsOn(s: System, steps: seq<Step>, more: seq<Step>)
    requires Run(s, steps) && Run(End(s, steps), more)
    ensures Run(s, steps + more) && End(s, steps + more) == End(End(s, steps), more)
    decreases steps
  {
    if steps == [] {
      assert steps + more == more;
    } else {
      RunsOn(Next(s, steps[0]), steps[1..], more);
      assert (steps + more)[1..] == steps[1..] + more;
    }
  }

  /** Lanes are first in, first out over all runs exactly when no two waiters are ever given one address. */
  lemma OrderIffDistinct(alloc: Id -> Addr)
    ensures OrdersLanes(alloc) <==> Distinguishes(alloc)
  {
    hide Run, End, LaneOrder;
    if Distinguishes(alloc) {
      forall interval, steps | Allocated(alloc, steps) && Run(Start(interval), steps)
        ensures LaneOrder(End(Start(interval), steps))
      {
        AllocatedApart(alloc, Start(interval), steps);
        FirstInFirstOut(interval, steps);
      }
    } else {
      var i: Id, j: Id :| alloc(i) == alloc(j) && i != j;
      Overtakes(i + j + 1, i, j, Background, alloc);
      assert Allocated(alloc, Overtaking(i + j + 1, i, j, Background, alloc));
    }
  }

  lemma {:induction false} AllocatedApart(alloc: Id -> Addr, s: System, steps: seq<Step>)
    requires Distinguishes(alloc) && Allocated(alloc, steps) && Run(s, steps)
    requires forall x | x in s.waiters :: s.waiters[x].addr == alloc(x)
    ensures Apart(End(s, steps))
    decreases steps
  {
    if steps != [] {
      var r := Next(s, steps[0]);
      StillApart(s, steps[0]);
      forall x | x in r.waiters ensures r.waiters[x].addr == alloc(x) {
        if x !in s.waiters { OnlyArrivals(s, steps[0], x); }
      }
      assert forall i | 0 <= i < |steps[1..]| :: steps[1..][i] == steps[i + 1];
      AllocatedApart(alloc, r, steps[1..]);
    }
  }

  lemma OnlyArrivals(s: System, step: Step, x: Id)
    requires Enabled(s, step) && x !in s.waiters && x in Next(s, step).waiters
    ensures step.Arrive? && step.id == x && Next(s, step).waiters[x].addr == step.addr
  {
  }

  /** Where the allocator has one address for all, every waiter of the lane whose turn it is may take the slot. */
  lemma OneAddressEntitlesAll(s: System, id: Id)
    requires QueuesMatch(s) && id in s.waiters && Waiting(s.waiters[id])
    requires forall x, y | x in s.waiters && y in s.waiters :: s.waiters[x].addr == s.waiters[y].addr
    ensures Entitled(s.limiter, s.waiters[id].lane, s.waiters[id].addr) <==>
            (s.waiters[id].lane.Background? ==> InteractiveWaiters(s) == {})
  {
    WaiterQueued(s, id);
    var q := Queue(s.limiter, s.waiters[id].lane);
    QueuedIffWaiting(s, s.waiters[id].lane, q[0]);
    var x :| x in WaitersAt(s, s.waiters[id].lane, q[0]);
    assert q[0] == s.waiters[id].addr;
    if s.limiter.interactive == [] {
      NoneAhead(s);
    } else {
      QueuedIffWaiting(s, Interactive, s.limiter.interactive[0]);
      var y :| y in WaitersAt(s, Interactive, s.limiter.interactive[0]);
      assert y in InteractiveWaiters(s);
    }
  }
}
