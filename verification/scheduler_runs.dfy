/**
 Whole runs of the scheduler: the invariant every operation keeps, fair grants, the
 token-bucket bound of every time window with the exact condition for it, and wake-ups.
*/
module SchedulerRuns {
  import opened Wrappers
  import opened SchedulerModel
  import opened SchedulerTheorems

  // ----- every operation is a staging step, then perhaps one drain -----

  function At(op: Op): int {
    op.now
  }

  function JitterOf(op: Op): int {
    match op
    case DoConsume(_, _, _) => 0
    case DoStatus(_) => 0
    case DoAcquire(_, jitter, _, _, _) => jitter
    case DoRelease(_, jitter, _) => jitter
    case Do429(_, jitter, _, _) => jitter
    case DoFire(_, jitter) => jitter
  }

  predicate Drains(s: Scheduler, op: Op) {
    match op
    case DoAcquire(_, _, weight, _, _) => ValidWeight(s, weight)
    case DoConsume(_, _, _) => false
    case DoRelease(_, _, id) => CanRelease(s, id)
    case Do429(_, _, _, _) => true
    case DoFire(now, _) => s.timer.Some? && s.timer.value <= now
    case DoStatus(_) => false
  }

  function Staged(s: Scheduler, op: Op): (r: Scheduler)
    ensures s.currentRate > 0 ==> r.currentRate > 0
  {
    match op
    case DoAcquire(_, _, weight, priority, deadline) =>
      if ValidWeight(s, weight) then
        s.(queue := s.queue + [Request(s.sequence, weight, priority, deadline)], sequence := s.sequence + 1)
      else s
    case DoConsume(now, id, amount) => Consume(s, id, amount, now)
    case DoRelease(now, _, id) => if CanRelease(s, id) then GiveBack(s, id, now) else s
    case Do429(now, _, reset, minimum) => Cool(s, reset, minimum, now)
    case DoFire(now, _) => if Drains(s, op) then Clear(s) else s
    case DoStatus(now) => Refill(s, now)
  }

  lemma ApplyIsStagedDrain(s: Scheduler, op: Op)
    requires s.currentRate > 0
    ensures Apply(s, op) == if Drains(s, op) then Drain(Staged(s, op), At(op), JitterOf(op)) else Staged(s, op)
  {
  }

  // ----- the invariant -----

  predicate LeaseOk(lease: Lease) {
    && lease.total == lease.consumed + lease.remaining + lease.released
    && (lease.closed <==> lease.remaining == 0)
  }

  /** Leases are those of the granted requests; the active ones are the open ones. */
  ghost predicate LeasesOk(leases: map<nat, Lease>, active: set<nat>, settled: map<nat, Outcome>) {
    && (forall id :: id in leases ==> LeaseOk(leases[id]))
    && (forall id :: id in active <==> id in leases && !leases[id].closed)
    && (forall id :: id in leases <==> id in settled && settled[id] == Granted)
  }

  ghost predicate StagedInv(s: Scheduler) {
    && QueueOk(s) && LeasesOk(s.leases, s.active, s.settled)
    && s.tokens <= s.capacity && s.currentRate > 0
  }

  /** Between operations a waiting request also has a timer armed for it. */
  ghost predicate Inv(s: Scheduler) {
    StagedInv(s) && (s.queue != [] ==> s.timer.Some?)
  }

  lemma {:induction false} GrantAllLeases(s: Scheduler)
    requires LeasesOk(s.leases, s.active, s.settled)
    requires forall r :: r in s.queue ==> r.weight > 0
    ensures var g := GrantAll(s); LeasesOk(g.leases, g.active, g.settled)
    decreases |s.queue|
  {
    if s.queue != [] && s.queue[0].weight <= s.tokens {
      assert forall r :: r in s.queue[1..] ==> r in s.queue;
      GrantAllLeases(GrantHead(s));
    }
  }

  lemma LeasesOutliveExpiry(leases: map<nat, Lease>, active: set<nat>, settled: map<nat, Outcome>,
                            expired: map<nat, Outcome>, dead: set<Request>)
    requires LeasesOk(leases, active, settled)
    requires Extends(settled, expired) && SettledNow(settled, expired, dead, DeadlineExpired)
    ensures LeasesOk(leases, active, expired)
  {
  }

  function Swept(s: Scheduler, now: int): Scheduler {
    Sweep(s, now).(queue := Line(s, now))
  }

  /** A drain sweeps, then serves the line if anybody is in it. */
  lemma DrainForm(s: Scheduler, now: int, jitter: int)
    requires s.currentRate > 0 && Distinct(s.queue)
    ensures var w := Swept(s, now);
            && Drain(s, now, jitter) == (if w.queue == [] then w else Serve(w, now, jitter))
            && w == s.(queue := Line(s, now), tokens := Refill(s, now).tokens, lastRefillAt := Refill(s, now).lastRefillAt,
                       settled := Settle(s.settled, Dead(s.queue, now), DeadlineExpired))
  {
    LineFacts(s, now);
    assert Dead(s.queue, now) == set r | r in s.queue && !Alive(r, now);
    assert Expire(s.settled, s.queue, now) == Settle(s.settled, Dead(s.queue, now), DeadlineExpired);
    hide Live, Sort, Settle, Expire, Serve, Dead;
  }

  lemma ServeLeases(s: Scheduler, now: int, jitter: int)
    requires s.queue != [] && s.currentRate > 0 && LeasesOk(s.leases, s.active, s.settled)
    requires forall r :: r in s.queue ==> r.weight > 0
    ensures var d := Serve(s, now, jitter); LeasesOk(d.leases, d.active, d.settled)
  {
    GrantAllLeases(s);
  }

  lemma DrainLeases(s: Scheduler, now: int, jitter: int)
    requires StagedInv(s)
    ensures var d := Drain(s, now, jitter); LeasesOk(d.leases, d.active, d.settled)
  {
    DrainSettles(s, now, jitter);
    DrainForm(s, now, jitter);
    LineFacts(s, now);
    var w := Swept(s, now);
    assert forall r :: r in w.queue ==> r in s.queue && r.weight > 0;
    hide Drain, Serve, Settle, Line, Pending, Swept, Dead;
    LeasesOutliveExpiry(s.leases, s.active, s.settled, w.settled, Dead(s.queue, now));
    hide LeasesOk, Extends, SettledNow, Distinct, Ordered;
    if w.queue != [] { ServeLeases(w, now, jitter); }
  }

  lemma StagingKeeps(s: Scheduler, op: Op)
    requires Inv(s)
    ensures StagedInv(Staged(s, op)) && Staged(s, op).settled == s.settled
    ensures !Drains(s, op) ==> Inv(Staged(s, op))
  {
    match op
    case DoAcquire(_, _, weight, priority, deadline) =>
      if ValidWeight(s, weight) { EnqueueKeeps(s, Request(s.sequence, weight, priority, deadline)); }
    case DoConsume(_, _, _) =>
    case DoRelease(_, _, _) =>
    case Do429(_, _, _, _) =>
    case DoFire(_, _) =>
    case DoStatus(_) =>
  }

  lemma EnqueueKeeps(s: Scheduler, r: Request)
    requires QueueOk(s) && r.id == s.sequence && 0 < r.weight <= s.capacity
    ensures Pending(s.queue + [r], s.settled, s.sequence + 1, s.capacity)
  {
    forall id: nat | id < s.sequence + 1 ensures id in s.settled || HasId(s.queue + [r], id) {
      if id == s.sequence {
        assert r in s.queue + [r];
      } else if id !in s.settled {
        assert HasId(s.queue, id);
        var q :| q in s.queue && q.id == id;
        assert q in s.queue + [r];
      }
    }
  }

  /** Every operation keeps the invariant, and never changes how a request settled. */
  lemma ApplyKeeps(s: Scheduler, op: Op)
    requires Inv(s)
    ensures Inv(Apply(s, op)) && Extends(s.settled, Apply(s, op).settled)
  {
    ApplyIsStagedDrain(s, op);
    StagingKeeps(s, op);
    if Drains(s, op) { DrainKeeps(Staged(s, op), At(op), JitterOf(op)); }
    hide Apply, Drain, Staged, Drains, Inv, StagedInv;
  }

  lemma DrainKeeps(s: Scheduler, now: int, jitter: int)
    requires StagedInv(s)
    ensures Inv(Drain(s, now, jitter)) && Extends(s.settled, Drain(s, now, jitter).settled)
  {
    DrainSettles(s, now, jitter);
    DrainServesInOrder(s, now, jitter);
    DrainLeases(s, now, jitter);
    assert Refill(s, now).tokens <= s.capacity;
    hide Drain, Line, Served, Settle, Pending, LeasesOk, Extends, SettledNow, Refill, Ordered, Distinct, Alive, Before;
  }

  function Run(s: Scheduler, ops: seq<Op>): (r: Scheduler)
    requires s.currentRate > 0
    ensures r.currentRate > 0
    decreases |ops|
  {
    if ops == [] then s
    else
      RateStaysPositive(s, ops[0]);
      Run(Apply(s, ops[0]), ops[1..])
  }

  /** The rate never falls below the floor once it decays, and only a 429 changes it. */
  lemma RateStaysPositive(s: Scheduler, op: Op)
    requires s.currentRate > 0
    ensures Apply(s, op).currentRate == if op.Do429? then Decayed(s.currentRate) else s.currentRate
    ensures Apply(s, op).rate == s.rate && Apply(s, op).capacity == s.capacity
  {
    ApplyIsStagedDrain(s, op);
    DrainKeepsSettings(Staged(s, op), At(op), JitterOf(op));
  }

  lemma DrainKeepsSettings(s: Scheduler, now: int, jitter: int)
    requires s.currentRate > 0
    ensures var d := Drain(s, now, jitter);
            d.currentRate == s.currentRate && d.rate == s.rate && d.capacity == s.capacity
  {
    var swept := Sweep(s, now);
    hide Live, Sort, Expire, Settle, Fit, Total, GrantAll;
    if swept.queue != [] { GrantAllTakesFront(swept.(queue := Sort(swept.queue))); }
  }

  /**
   Over every run each accepted request is queued or settled but never both, settles
   once, leases account for all of their weight, and a waiting request has a timer.
  */
  lemma {:induction false} RunKeeps(s: Scheduler, ops: seq<Op>)
    requires Inv(s)
    ensures Inv(Run(s, ops)) && Extends(s.settled, Run(s, ops).settled)
    decreases |ops|
  {
    if ops != [] {
      var next := Apply(s, ops[0]);
      ApplyKeeps(s, ops[0]);
      hide Inv, Apply;
      RunKeeps(next, ops[1..]);
      ExtendsTwice(s.settled, next.settled, Run(s, ops).settled);
    }
  }

  lemma FreshIsOk(rate: nat, capacity: nat, now: int)
    requires rate > 0
    ensures Inv(Fresh(rate, capacity, now))
  {
  }

  // ----- grants are fair -----

  predicate NewlyGranted(s: Scheduler, after: Scheduler, id: nat) {
    id in after.settled && after.settled[id] == Granted && id !in s.settled
  }

  ghost predicate FairGrant(offered: seq<Request>, after: Scheduler, now: int, id: nat) {
    && after.cooldownUntil <= now
    && exists r :: r in offered && r.id == id && Alive(r, now) && forall q :: q in after.queue ==> Before(r, q)
  }

  /**
   Whatever an operation grants was waiting, is before its deadline, comes ahead of
   everyone left waiting, and is granted outside the cooldown.
  */
  lemma GrantsAreFair(s: Scheduler, op: Op, id: nat)
    requires Inv(s) && NewlyGranted(s, Apply(s, op), id)
    ensures Drains(s, op) && FairGrant(Staged(s, op).queue, Apply(s, op), At(op), id)
  {
    ApplyIsStagedDrain(s, op);
    StagingKeeps(s, op);
    DrainGrantsFairly(Staged(s, op), At(op), JitterOf(op), id);
  }

  lemma DrainGrantsFairly(s: Scheduler, now: int, jitter: int, id: nat)
    requires StagedInv(s) && NewlyGranted(s, Drain(s, now, jitter), id)
    ensures FairGrant(s.queue, Drain(s, now, jitter), now, id)
  {
    var line := Line(s, now);
    var k := Served(s, now);
    assert k > 0 ==> !Cooling(s, now);
    hide Drain, Served, Line, Settle, Extends, SettledNow, Pending, LeasesOk, Refill, Ordered, Alive, Before;
    DrainSettles(s, now, jitter);
    DrainServesInOrder(s, now, jitter);
    var d := Drain(s, now, jitter);
    var r := FromTheFront(s.settled, d.settled, Dead(s.queue, now), Members(line[..k]), id);
    FrontIsFair(s.queue, d, now, line, k, r);
  }

  lemma FrontIsFair(offered: seq<Request>, after: Scheduler, now: int, line: seq<Request>, k: nat, r: Request)
    requires Ordered(line) && k <= |line| && r in Members(line[..k]) && after.queue == line[k..]
    requires after.cooldownUntil <= now && forall q :: q in line ==> q in offered && Alive(q, now)
    ensures FairGrant(offered, after, now, r.id)
  {
    FrontIsBefore(line, k, r);
    hide Alive, Before, Ordered;
  }

  /** A grant that was neither there before nor an expiry is of the served front. */
  lemma FromTheFront(settled: map<nat, Outcome>, after: map<nat, Outcome>, dead: set<Request>, front: set<Request>, id: nat)
    returns (r: Request)
    requires var expired := Settle(settled, dead, DeadlineExpired);
             && SettledNow(settled, expired, dead, DeadlineExpired)
             && SettledNow(expired, after, front, Granted) && Extends(expired, after)
    requires id in after && after[id] == Granted && id !in settled
    ensures r in front && r.id == id
  {
    hide Settle;
    r :| r in front && r.id == id;
  }

  lemma FrontIsBefore(line: seq<Request>, k: nat, r: Request)
    requires Ordered(line) && k <= |line| && r in Members(line[..k])
    ensures r in line && k > 0
    ensures forall q :: q in line[k..] ==> Before(r, q)
  {
    var i :| 0 <= i < k && line[i] == r;
    forall q | q in line[k..] ensures Before(r, q) {
      var j :| 0 <= j < |line[k..]| && line[k..][j] == q;
      assert Before(line[i], line[k + j]);
    }
  }

  // ----- the token-bucket bound -----

  /** What was granted and not given back, plus what could be granted at `t`. */
  function Potential(s: Scheduler, t: int): int {
    s.granted - s.returned + Refill(s, t).tokens
  }

  lemma RefillTwice(s: Scheduler, now: int)
    ensures Refill(Refill(s, now), now) == Refill(s, now)
  {
  }

  lemma DrainKeepsPotential(s: Scheduler, now: int, jitter: int)
    requires s.currentRate > 0 && Distinct(s.queue)
    ensures Potential(Drain(s, now, jitter), now) == Potential(s, now)
  {
    DrainServesInOrder(s, now, jitter);
    hide Drain, Line, Settle;
  }

  /** At these rates a 429 never speeds the bucket up. */
  predicate Steady(s: Scheduler) {
    RATE_FLOOR <= s.currentRate <= s.rate && s.tokens <= s.capacity
  }

  lemma LessTimesLess(a: nat, b: nat, x: nat, y: nat)
    requires a <= b && x <= y
    ensures a * x <= b * y
  {
    assert a * x <= b * x;
    assert b * x <= b * y;
  }

  lemma SplitTimes(a: int, b: int, c: int, x: int)
    ensures (c - a) * x == (b - a) * x + (c - b) * x
  {
  }

  lemma RefillAdds(s: Scheduler, t: int, u: int)
    requires t <= u && Steady(s)
    ensures Refill(s, u).tokens <= Refill(s, t).tokens + s.rate * (u - t)
  {
    if s.lastRefillAt < u {
      var from := Max(s.lastRefillAt, t);
      SplitTimes(s.lastRefillAt, from, u, s.currentRate);
      LessTimesLess(u - from, u - t, s.currentRate, s.rate);
    } else {
      LessTimesLess(0, u - t, 0, s.rate);
    }
  }

  /** A 429 at a steady rate: decaying can only slow the bucket. */
  lemma CoolingSlows(s: Scheduler, now: int, reset: Option<int>, minimum: int)
    requires RATE_FLOOR <= s.currentRate
    ensures Potential(Cool(s, reset, minimum, now), now) <= Potential(s, now)
  {
    if now > s.lastRefillAt {
      LessTimesLess(now - s.lastRefillAt, now - s.lastRefillAt, Decayed(s.currentRate), s.currentRate);
    }
  }

  predicate InClockOrder(ops: seq<Op>, from: int, to: int) {
    && (forall i :: 0 <= i < |ops| ==> from <= At(ops[i]) <= to)
    && (forall i, j :: 0 <= i < j < |ops| ==> At(ops[i]) <= At(ops[j]))
  }

  /** Staging alone adds nothing to the potential at its own instant. */
  lemma StagingBound(s: Scheduler, op: Op)
    requires Steady(s)
    ensures Potential(Staged(s, op), At(op)) <= Potential(s, At(op))
  {
    var now := At(op);
    match op
    case DoAcquire(_, _, _, _, _) =>
    case DoConsume(_, _, _) => RefillTwice(s, now);
    case DoRelease(_, _, _) => RefillTwice(s, now);
    case Do429(_, _, reset, minimum) => CoolingSlows(s, now, reset, minimum);
    case DoFire(_, _) =>
    case DoStatus(_) => RefillTwice(s, now);
  }

  lemma SteadyStays(s: Scheduler, op: Op)
    requires Inv(s) && Steady(s)
    ensures Inv(Apply(s, op)) && Steady(Apply(s, op))
    ensures Apply(s, op).rate == s.rate && Apply(s, op).capacity == s.capacity
  {
    ApplyKeeps(s, op);
    RateStaysPositive(s, op);
    hide Apply, QueueOk, LeasesOk;
  }

  /** No operation adds to the potential at its own instant. */
  lemma StepBound(s: Scheduler, op: Op)
    requires Inv(s) && Steady(s)
    ensures Potential(Apply(s, op), At(op)) <= Potential(s, At(op))
  {
    StagingBound(s, op);
    ApplyIsStagedDrain(s, op);
    StagingKeeps(s, op);
    assert StagedInv(Staged(s, op)) ==> Distinct(Staged(s, op).queue);
    hide Drain, Apply, Staged, Drains, QueueOk, LeasesOk, Potential, Distinct;
    if Drains(s, op) { DrainKeepsPotential(Staged(s, op), At(op), JitterOf(op)); }
  }

  lemma {:induction false} PotentialGrowsAtRate(s: Scheduler, ops: seq<Op>, from: int, to: int)
    requires Inv(s) && Steady(s) && InClockOrder(ops, from, to) && from <= to
    ensures Potential(Run(s, ops), to) <= Potential(s, from) + s.rate * (to - from)
    decreases |ops|
  {
    if ops == [] {
      RefillAdds(s, from, to);
    } else {
      var op := ops[0];
      var at := At(op);
      RefillAdds(s, from, at);
      StepBound(s, op);
      SteadyStays(s, op);
      assert InClockOrder(ops[1..], at, to);
      PotentialGrowsAtRate(Apply(s, op), ops[1..], at, to);
      hide Apply, Inv, Steady, Run, Potential;
      SplitTimes(from, at, to, s.rate);
    }
  }

  /**
   The token-bucket bound: in any run from any instant, the weight granted less the weight
   given back is at most the tokens there were plus the configured rate times the time.
  */
  lemma WindowBound(s: Scheduler, ops: seq<Op>, from: int, to: int)
    requires Inv(s) && Steady(s) && InClockOrder(ops, from, to) && from <= to
    ensures var after := Run(s, ops);
            && (after.granted - after.returned) - (s.granted - s.returned)
               <= Refill(s, from).tokens + s.rate * (to - from) - Refill(after, to).tokens
            && Refill(s, from).tokens <= s.capacity
  {
    PotentialGrowsAtRate(s, ops, from, to);
  }

  /** The bound for a scheduler from its start, which is the state a process creates. */
  predicate BoundHolds(rate: nat, capacity: nat, ops: seq<Op>, to: int)
    requires rate > 0
  {
    var after := Run(Fresh(rate, capacity, 0), ops);
    after.granted - after.returned <= capacity + rate * to
  }

  /** A 429 raises a configured rate below the floor up to the floor. */
  lemma DecayExactly(rate: nat)
    requires rate > 0
    ensures Decayed(rate) <= rate <==> rate >= 5
    ensures Decayed(rate) >= 5 && (Decayed(rate) > 5 ==> 4 * rate - 5 < 5 * Decayed(rate) <= 4 * rate)
    ensures 4 * rate >= 25 ==> 4 * rate - 5 < 5 * Decayed(rate) <= 4 * rate
  {
  }

  function SpeedUp(capacity: nat): seq<Op> {
    [DoAcquire(0, 0, capacity, 0, None), Do429(0, 0, Some(1), 0), DoAcquire(1, 0, RATE_FLOOR, 0, None)]
  }

  lemma SlowRatesBreakTheBound(rate: nat, capacity: nat)
    requires 0 < rate < RATE_FLOOR <= capacity
    ensures InClockOrder(SpeedUp(capacity), 0, 1) && !BoundHolds(rate, capacity, SpeedUp(capacity), 1)
  {
    var ops := SpeedUp(capacity);
    var s0 := Fresh(rate, capacity, 0);
    var r0 := Request(0, capacity, 0, None);
    var s1 := Apply(s0, ops[0]);
    OneInLine(s0.(queue := [r0], sequence := 1), r0, 0, 0);
    var s2 := Apply(s1, ops[1]);
    assert s1.queue == [] && s1.tokens == 0 && s1.granted == capacity;
    assert s2 == Cool(s1, Some(1), 0, 0);
    var r1 := Request(1, RATE_FLOOR, 0, None);
    OneInLine(s2.(queue := [r1], sequence := 2), r1, 1, 0);
    var s3 := Apply(s2, ops[2]);
    assert ops[1..] == [ops[1], ops[2]] && ops[1..][1..] == [ops[2]];
    hide Apply;
    assert Run(s2, [ops[2]]) == s3;
    assert Run(s1, ops[1..]) == s3;
    assert Run(s0, ops) == s3;
  }

  /** A single affordable request outside the cooldown is granted at once. */
  lemma OneInLine(s: Scheduler, r: Request, now: int, jitter: int)
    requires s.queue == [r] && r.deadline.None? && s.currentRate > 0
    requires !Cooling(s, now) && r.weight <= Refill(s, now).tokens
    ensures var d := Drain(s, now, jitter);
            && d.queue == [] && d.tokens == Refill(s, now).tokens - r.weight && d.granted == s.granted + r.weight
            && d.lastRefillAt == Refill(s, now).lastRefillAt && d.cooldownUntil == s.cooldownUntil
            && d.returned == s.returned && d.currentRate == s.currentRate && d.rate == s.rate
            && d.capacity == s.capacity && d.sequence == s.sequence
  {
    assert [r][..0] == [];
    assert Live([r], now) == [r];
    assert [r][1..] == [];
    assert Sort([r]) == InsertSorted(r, Sort([]));
    assert Line(s, now) == [r];
    assert Fit(Refill(s, now).tokens, [r]) == 1 + Fit(Refill(s, now).tokens - r.weight, []);
    assert [r][..1] == [r];
    assert Served(s, now) == 1;
    assert Total([r]) == r.weight + Total([]);
    hide Live, Sort, Settle, Refill, Served, Line, Fit, Total, Ordered;
    DrainServesInOrder(s, now, jitter);
    DrainKeepsSettings(s, now, jitter);
    hide Drain;
  }

  /** The bound holds in every window from the start exactly when the rate is at least the floor. */
  lemma WindowBoundExactly(rate: nat, capacity: nat)
    requires rate > 0 && capacity >= RATE_FLOOR
    ensures rate >= RATE_FLOOR <==>
            forall ops: seq<Op>, to: nat | InClockOrder(ops, 0, to) :: BoundHolds(rate, capacity, ops, to)
  {
    if rate >= RATE_FLOOR {
      FreshIsOk(rate, capacity, 0);
      forall ops: seq<Op>, to: nat | InClockOrder(ops, 0, to) ensures BoundHolds(rate, capacity, ops, to) {
        WindowBound(Fresh(rate, capacity, 0), ops, 0, to);
      }
    } else {
      SlowRatesBreakTheBound(rate, capacity);
    }
  }

  // ----- no lost wake-up -----

  lemma FirstStaysFirst(queue: seq<Request>, line: seq<Request>)
    requires Ordered(queue) && Ordered(line) && queue != [] && queue[0] in line
    requires forall r :: r in line ==> r in queue
    ensures line[0] == queue[0]
  {
    var j :| 0 <= j < |line| && line[j] == queue[0];
    if j > 0 {
      assert line[0] in line;
      var i :| 0 <= i < |queue| && queue[i] == line[0];
      assert Before(line[0], line[j]);
      BeforeIsStrictTotal(queue[0], line[0], queue[0]);
    }
  }

  lemma DelaySuffices(s: Scheduler, now: int, at: int)
    requires s.queue != [] && s.currentRate > 0 && s.queue[0].weight <= s.capacity && s.lastRefillAt <= now
    requires now + HeadDelay(s) <= at
    ensures s.queue[0].weight <= Refill(s, at).tokens
  {
    var needed := Max(0, s.queue[0].weight - s.tokens);
    assert needed <= CeilDiv(needed, s.currentRate) * s.currentRate;
    LessTimesLess(CeilDiv(needed, s.currentRate), at - s.lastRefillAt, s.currentRate, s.currentRate);
  }

  /** An ordered queue whose head fits and is alive gets its head granted. */
  lemma HeadIsServed(s: Scheduler, at: int, later: int)
    requires StagedInv(s) && Ordered(s.queue) && s.queue != []
    requires !Cooling(s, at) && Alive(s.queue[0], at) && s.queue[0].weight <= Refill(s, at).tokens
    ensures var head, d := s.queue[0].id, Drain(s, at, later);
            head in d.settled && d.settled[head] == Granted && Extends(s.settled, d.settled)
  {
    var line := Line(s, at);
    LineFacts(s, at);
    assert s.queue[0] in s.queue;
    FirstStaysFirst(s.queue, line);
    assert Served(s, at) > 0;
    assert s.queue[0] in line[..Served(s, at)];
    assert s.queue[0] in Front(s, at);
    DrainSettles(s, at, later);
  }

  lemma ServeArms(s: Scheduler, now: int, jitter: int)
    requires s.queue != [] && s.currentRate > 0 && Serve(s, now, jitter).queue != []
    ensures var d := Serve(s, now, jitter);
            && d.currentRate == s.currentRate
            && (!Cooling(s, now) ==> d.timer == Some(now + HeadDelay(d)))
            && (Cooling(s, now) && jitter >= 0 ==> d.timer.Some? && d.timer.value >= d.cooldownUntil)
  {
    hide GrantAll;
  }

  /** What a drain leaves waiting is in service order. */
  lemma DrainLeavesOrder(s: Scheduler, now: int, jitter: int)
    requires s.currentRate > 0 && Distinct(s.queue)
    ensures var d := Drain(s, now, jitter);
            && d.lastRefillAt == Refill(s, now).lastRefillAt && d.cooldownUntil == s.cooldownUntil && Ordered(d.queue)
  {
    DrainServesInOrder(s, now, jitter);
    assert Ordered(Line(s, now)[Served(s, now)..]);
    hide Drain, Line, Served, Settle, Refill, Total, Before;
  }

  /** The timer armed for a head that does not fit is its computed delay. */
  lemma DrainArms(s: Scheduler, now: int, jitter: int)
    requires s.currentRate > 0 && Distinct(s.queue) && Drain(s, now, jitter).queue != []
    ensures var d := Drain(s, now, jitter);
            && d.currentRate > 0
            && (!Cooling(s, now) ==> d.timer == Some(now + HeadDelay(d)))
            && (Cooling(s, now) && jitter >= 0 ==> d.timer.Some? && d.timer.value >= d.cooldownUntil)
  {
    DrainForm(s, now, jitter);
    hide Drain, Serve, Line, Settle, Dead, Distinct, Refill, HeadDelay;
    ServeArms(Swept(s, now), now, jitter);
  }

  // ----- the timer over whole runs -----

  /** Outside the cooldown, and whoever waits first fits by the time the timer is due. */
  ghost predicate Awake(s: Scheduler, t: int) {
    && Inv(s) && Ordered(s.queue) && s.lastRefillAt <= t && s.cooldownUntil <= t
    && (s.queue != [] ==> s.queue[0].weight <= Refill(s, s.timer.value).tokens)
  }

  /** The timer of a waiting request is never due inside the cooldown. */
  ghost predicate Timely(s: Scheduler, t: int) {
    && Inv(s) && Ordered(s.queue) && s.lastRefillAt <= t
    && (s.queue != [] ==> s.timer.value >= s.cooldownUntil)
  }

  lemma DrainAwakes(s: Scheduler, now: int, jitter: int)
    requires StagedInv(s) && s.lastRefillAt <= now && !Cooling(s, now)
    ensures Awake(Drain(s, now, jitter), now)
  {
    var d := Drain(s, now, jitter);
    DrainKeeps(s, now, jitter);
    DrainLeavesOrder(s, now, jitter);
    assert d.lastRefillAt <= now;
    if d.queue != [] {
      DrainArms(s, now, jitter);
      assert d.queue[0].weight <= d.capacity by { assert d.queue[0] in d.queue; }
      hide Drain, QueueOk, LeasesOk, Ordered, Extends, Refill;
      DelaySuffices(d, now, d.timer.value);
    }
  }

  lemma DrainIsTimely(s: Scheduler, now: int, jitter: int)
    requires StagedInv(s) && s.lastRefillAt <= now && jitter >= 0
    ensures Timely(Drain(s, now, jitter), now)
  {
    var d := Drain(s, now, jitter);
    DrainKeeps(s, now, jitter);
    DrainLeavesOrder(s, now, jitter);
    assert d.lastRefillAt <= now;
    if d.queue != [] {
      DrainArms(s, now, jitter);
      hide Drain, QueueOk, LeasesOk, Ordered, Extends, Refill;
    }
  }

  /** A refill is no smaller later. */
  lemma RefillLater(s: Scheduler, t: int, u: int)
    requires t <= u && s.tokens <= s.capacity
    ensures Refill(s, t).tokens <= Refill(s, u).tokens <= s.capacity
  {
    if s.lastRefillAt < t {
      LessTimesLess(t - s.lastRefillAt, u - s.lastRefillAt, s.currentRate, s.currentRate);
    } else if s.lastRefillAt < u {
      LessTimesLess(0, u - s.lastRefillAt, s.currentRate, s.currentRate);
    }
  }

  /** Refilling in between never takes away what a later refill would have given. */
  lemma RefillBetween(s: Scheduler, t: int, due: int)
    requires s.tokens <= s.capacity
    ensures Refill(Refill(s, t), due).tokens >= Refill(s, due).tokens
  {
    if s.lastRefillAt < t < due {
      SplitTimes(s.lastRefillAt, t, due, s.currentRate);
      LessTimesLess(0, due - t, s.currentRate, s.currentRate);
    } else if due <= t {
      RefillLater(s, due, t);
    }
  }

  /** An operation that does not drain leaves the queue, the timer and the cooldown, and at most refills. */
  lemma QuietOp(s: Scheduler, op: Op)
    requires !Drains(s, op)
    ensures var r := Staged(s, op);
            && r.queue == s.queue && r.timer == s.timer && r.cooldownUntil == s.cooldownUntil
            && r.capacity == s.capacity && r.currentRate == s.currentRate
            && (|| (r.tokens == s.tokens && r.lastRefillAt == s.lastRefillAt)
                || (r.tokens == Refill(s, At(op)).tokens && r.lastRefillAt == Refill(s, At(op)).lastRefillAt))
  {
  }

  lemma QuietKeepsAwake(s: Scheduler, t: int, op: Op)
    requires Awake(s, t) && t <= At(op) && !Drains(s, op)
    ensures Awake(Staged(s, op), At(op))
  {
    StagingKeeps(s, op);
    QuietOp(s, op);
    assert Refill(s, At(op)).lastRefillAt <= At(op);
    hide Staged, Drains, StagedInv, Ordered;
    if s.queue != [] {
      var r := Staged(s, op);
      RefillBetween(s, At(op), s.timer.value);
      assert Refill(r, s.timer.value).tokens >= Refill(s, s.timer.value).tokens;
    }
  }

  /** What the staging before a drain leaves of the clock. */
  lemma StagedClock(s: Scheduler, t: int, op: Op)
    requires s.lastRefillAt <= t <= At(op)
    ensures Staged(s, op).lastRefillAt <= At(op)
    ensures !op.Do429? ==> Staged(s, op).cooldownUntil == s.cooldownUntil
  {
  }

  lemma OpKeepsAwake(s: Scheduler, t: int, op: Op)
    requires Awake(s, t) && t <= At(op) && !op.Do429?
    ensures Awake(Apply(s, op), At(op))
  {
    ApplyIsStagedDrain(s, op);
    StagingKeeps(s, op);
    StagedClock(s, t, op);
    hide Apply, Staged, Drains, Drain, Refill, QueueOk, LeasesOk, Ordered;
    if Drains(s, op) { DrainAwakes(Staged(s, op), At(op), JitterOf(op)); } else { QuietKeepsAwake(s, t, op); }
  }

  lemma OpKeepsTimely(s: Scheduler, t: int, op: Op)
    requires Timely(s, t) && t <= At(op) && JitterOf(op) >= 0
    ensures Timely(Apply(s, op), At(op))
  {
    ApplyIsStagedDrain(s, op);
    StagingKeeps(s, op);
    StagedClock(s, t, op);
    hide Apply, Staged, Drains, Drain, Refill, QueueOk, LeasesOk, Ordered;
    if Drains(s, op) { DrainIsTimely(Staged(s, op), At(op), JitterOf(op)); } else { QuietOp(s, op); }
  }

  predicate NoRateLimit(ops: seq<Op>) {
    forall i :: 0 <= i < |ops| ==> !ops[i].Do429?
  }

  lemma {:induction false} StaysAwake(s: Scheduler, ops: seq<Op>, from: int, to: int)
    requires Awake(s, from) && InClockOrder(ops, from, to) && from <= to && NoRateLimit(ops)
    ensures Awake(Run(s, ops), to)
    decreases |ops|
  {
    if ops != [] {
      OpKeepsAwake(s, from, ops[0]);
      assert InClockOrder(ops[1..], At(ops[0]), to);
      hide Awake, Apply;
      StaysAwake(Apply(s, ops[0]), ops[1..], At(ops[0]), to);
    }
  }

  /** From the start of a process the timer is never due inside a cooldown, whatever happens. */
  lemma {:induction false} StaysTimely(s: Scheduler, ops: seq<Op>, from: int, to: int)
    requires Timely(s, from) && InClockOrder(ops, from, to) && from <= to
    requires forall i :: 0 <= i < |ops| ==> JitterOf(ops[i]) >= 0
    ensures Timely(Run(s, ops), to)
    decreases |ops|
  {
    if ops != [] {
      OpKeepsTimely(s, from, ops[0]);
      assert InClockOrder(ops[1..], At(ops[0]), to);
      hide Timely, Apply;
      StaysTimely(Apply(s, ops[0]), ops[1..], At(ops[0]), to);
    }
  }

  lemma FreshIsAwake(rate: nat, capacity: nat, now: nat)
    requires rate > 0
    ensures Awake(Fresh(rate, capacity, now), now) && Timely(Fresh(rate, capacity, now), now)
  {
  }

  /**
   Whatever was acquired, consumed, released, asked or fired since a drain outside the cooldown,
   so long as no 429 came: when the armed timer fires, the head of the queue is granted, if its
   deadline has not passed.
  */
  lemma TimerWakesHead(s: Scheduler, ops: seq<Op>, from: int, at: int, jitter: int)
    requires Awake(s, from) && InClockOrder(ops, from, at) && from <= at && NoRateLimit(ops)
    requires var d := Run(s, ops); d.queue != [] && d.timer.Some? && d.timer.value <= at && Alive(d.queue[0], at)
    ensures var d := Run(s, ops);
            var head, fired := d.queue[0].id, Fire(d, at, jitter);
            head !in d.settled && head in fired.settled && fired.settled[head] == Granted
  {
    StaysAwake(s, ops, from, at);
    hide Run, Fire;
    HeadWakes(Run(s, ops), at, jitter);
  }

  lemma HeadWakes(d: Scheduler, at: int, jitter: int)
    requires Awake(d, at) && d.queue != [] && d.timer.value <= at && Alive(d.queue[0], at)
    ensures var head, fired := d.queue[0].id, Fire(d, at, jitter);
            head !in d.settled && head in fired.settled && fired.settled[head] == Granted
  {
    assert d.queue[0] in d.queue;
    RefillLater(d, d.timer.value, at);
    assert Refill(Clear(d), at).tokens == Refill(d, at).tokens;
    assert Fire(d, at, jitter) == Drain(Clear(d), at, jitter);
    assert StagedInv(Clear(d));
    hide Drain, Fire, QueueOk, LeasesOk, Ordered, Refill, Extends;
    HeadIsServed(Clear(d), at, jitter);
  }

  /**
   After 429s too: a due timer of a waiting request fires outside the cooldown, so that whoever
   still waits afterwards has a timer by which the head fits.
  */
  lemma DueTimerEndsCooldown(s: Scheduler, t: int, at: int, jitter: int)
    requires Timely(s, t) && t <= at && s.queue != [] && s.timer.value <= at
    ensures Awake(Fire(s, at, jitter), at)
  {
    assert StagedInv(Clear(s)) && !Cooling(Clear(s), at);
    hide Drain, QueueOk, LeasesOk, Ordered, Refill;
    DrainAwakes(Clear(s), at, jitter);
  }

  // ----- what a 429 pauses -----

  /**
   After a 429 the pause ends no earlier than before; without a reset time it lasts at least a
   minute and at least the asked minimum, and a given reset time is used as it is.
  */
  lemma RateLimitPauses(s: Scheduler, now: int, jitter: int, reset: Option<int>, minimum: int)
    requires s.currentRate > 0
    ensures var d := Observe429(s, reset, minimum, now, jitter);
            && d.cooldownUntil >= s.cooldownUntil
            && (reset.None? || reset == Some(0) ==>
                  && d.cooldownUntil >= now + 60_000 && d.cooldownUntil >= now + minimum
                  && d.cooldownUntil in {s.cooldownUntil, now + 60_000, now + minimum})
            && (reset.Some? && reset.value != 0 ==>
                  && d.cooldownUntil >= reset.value && d.cooldownUntil in {s.cooldownUntil, reset.value})
  {
    DrainKeepsCooldown(Cool(s, reset, minimum, now), now, jitter);
    hide Drain;
  }

  lemma DrainKeepsCooldown(s: Scheduler, now: int, jitter: int)
    requires s.currentRate > 0
    ensures Drain(s, now, jitter).cooldownUntil == s.cooldownUntil
  {
    var swept := Sweep(s, now);
    hide Live, Sort, Expire, Settle, Fit, Total, GrantAll;
    if swept.queue != [] { GrantAllTakesFront(swept.(queue := Sort(swept.queue))); }
  }

  /** No operation ends a pause early. */
  lemma PausesOnlyGrow(s: Scheduler, op: Op)
    requires s.currentRate > 0
    ensures Apply(s, op).cooldownUntil >= s.cooldownUntil
  {
    ApplyIsStagedDrain(s, op);
    DrainKeepsCooldown(Staged(s, op), At(op), JitterOf(op));
    assert Staged(s, op).cooldownUntil >= s.cooldownUntil;
    hide Drain, Apply, Staged, Drains;
  }

  lemma NothingGrantedInPause(s: Scheduler, op: Op, id: nat)
    requires Inv(s) && At(op) < Apply(s, op).cooldownUntil
    ensures !NewlyGranted(s, Apply(s, op), id)
  {
    assert s.currentRate > 0;
    hide Inv;
    if NewlyGranted(s, Apply(s, op), id) { GrantsAreFair(s, op, id); }
  }

  /** Inside a pause nothing is granted, whatever is asked for, over any run. */
  lemma {:induction false} PausedRunGrantsNothing(s: Scheduler, ops: seq<Op>, from: int, to: int, id: nat)
    requires Inv(s) && InClockOrder(ops, from, to) && to < s.cooldownUntil
    ensures !NewlyGranted(s, Run(s, ops), id)
    decreases |ops|
  {
    if ops != [] {
      var next := Apply(s, ops[0]);
      PausesOnlyGrow(s, ops[0]);
      NothingGrantedInPause(s, ops[0], id);
      ApplyKeeps(s, ops[0]);
      assert InClockOrder(ops[1..], from, to);
      assert s.currentRate > 0 && next.currentRate > 0;
      hide Apply, Inv, NewlyGranted;
      PausedRunGrantsNothing(next, ops[1..], from, to, id);
      RunKeeps(next, ops[1..]);
      NeitherGrants(s, next, Run(next, ops[1..]), id);
    }
  }

  lemma NeitherGrants(a: Scheduler, b: Scheduler, c: Scheduler, id: nat)
    requires !NewlyGranted(a, b, id) && !NewlyGranted(b, c, id) && Extends(a.settled, b.settled) && Extends(b.settled, c.settled)
    ensures !NewlyGranted(a, c, id)
  {
  }

  /** A 429 without a reset time, and whatever comes in the minute after it: no request is granted. */
  lemma MinuteAfterRateLimit(s: Scheduler, now: int, jitter: int, minimum: int, ops: seq<Op>, to: int, id: nat)
    requires Inv(s) && InClockOrder(ops, now, to) && now <= to < now + 60_000
    ensures !NewlyGranted(s, Run(Observe429(s, None, minimum, now, jitter), ops), id)
  {
    var op := Do429(now, jitter, None, minimum);
    var paused := Observe429(s, None, minimum, now, jitter);
    assert Apply(s, op) == paused;
    RateLimitPauses(s, now, jitter, None, minimum);
    NothingGrantedInPause(s, op, id);
    ApplyKeeps(s, op);
    hide Apply, Inv, NewlyGranted, Observe429;
    PausedRunGrantsNothing(paused, ops, now, to, id);
    RunKeeps(paused, ops);
    NeitherGrants(s, paused, Run(paused, ops), id);
  }
}
