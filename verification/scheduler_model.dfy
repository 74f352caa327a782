/**
 The weighted rate scheduler as a state and its public operations. Weights and tokens are
 in thousandths of a unit and time in milliseconds, so that "elapsed seconds times rate"
 is the integer product of elapsed milliseconds and rate.
*/
module SchedulerModel {
  import opened Wrappers

  const MIN_COOLDOWN_MS := 60_000
  const RATE_FLOOR := 5

  function Min(a: int, b: int): int {
    if a < b then a else b
  }

  function Max(a: int, b: int): int {
    if a < b then b else a
  }

  datatype Request = Request(id: nat, weight: nat, priority: int, deadline: Option<int>)

  datatype Outcome = Granted | DeadlineExpired

  /** `consumed` and `released` record where the lease's weight went. */
  datatype Lease = Lease(total: nat, remaining: nat, closed: bool, consumed: nat, released: nat)

  datatype Scheduler = Scheduler(
    rate: nat, capacity: nat,
    currentRate: nat, tokens: nat, lastRefillAt: int, cooldownUntil: int,
    queue: seq<Request>, sequence: nat, timer: Option<int>,
    leases: map<nat, Lease>, active: set<nat>,
    settled: map<nat, Outcome>, granted: nat, returned: nat)

  function Fresh(rate: nat, capacity: nat, now: int): Scheduler {
    Scheduler(rate, capacity, rate, capacity, now, 0, [], 0, None, map[], {}, map[], 0, 0)
  }

  function Refill(s: Scheduler, now: int): Scheduler {
    if now <= s.lastRefillAt then s
    else s.(tokens := Min(s.capacity, s.tokens + (now - s.lastRefillAt) * s.currentRate), lastRefillAt := now)
  }

  // ----- the queue -----

  predicate Alive(r: Request, now: int) {
    r.deadline.None? || r.deadline.value > now
  }

  function Live(queue: seq<Request>, now: int): seq<Request> {
    if queue == [] then []
    else
      var front := Live(queue[..|queue| - 1], now);
      var last := queue[|queue| - 1];
      if Alive(last, now) then front + [last] else front
  }

  /** The promises of these requests settled one way. */
  function Settle(settled: map<nat, Outcome>, requests: set<Request>, outcome: Outcome): map<nat, Outcome> {
    settled + map r | r in requests :: r.id := outcome
  }

  function Expire(settled: map<nat, Outcome>, queue: seq<Request>, now: int): map<nat, Outcome> {
    var dead := set r | r in queue && !Alive(r, now);
    Settle(settled, dead, DeadlineExpired)
  }

  predicate EarlierDeadline(a: Option<int>, b: Option<int>) {
    a.Some? && (b.None? || a.value < b.value)
  }

  /** Priority, then deadline with none as the latest, then arrival. */
  predicate Before(a: Request, b: Request) {
    || a.priority < b.priority
    || (&& a.priority == b.priority
        && (EarlierDeadline(a.deadline, b.deadline) || (a.deadline == b.deadline && a.id < b.id)))
  }

  function InsertSorted(r: Request, queue: seq<Request>): seq<Request> {
    if queue == [] || Before(r, queue[0]) then [r] + queue else [queue[0]] + InsertSorted(r, queue[1..])
  }

  function Sort(queue: seq<Request>): seq<Request> {
    if queue == [] then [] else InsertSorted(queue[0], Sort(queue[1..]))
  }

  // ----- draining -----

  function GrantHead(s: Scheduler): Scheduler
    requires s.queue != [] && s.queue[0].weight <= s.tokens
  {
    var r := s.queue[0];
    s.(queue := s.queue[1..], tokens := s.tokens - r.weight,
       leases := s.leases[r.id := Lease(r.weight, r.weight, false, 0, 0)], active := s.active + {r.id},
       settled := s.settled[r.id := Granted], granted := s.granted + r.weight)
  }

  function GrantAll(s: Scheduler): (r: Scheduler)
    ensures r.currentRate == s.currentRate
    decreases |s.queue|
  {
    if s.queue == [] || s.tokens < s.queue[0].weight then s else GrantAll(GrantHead(s))
  }

  function CeilDiv(a: nat, b: nat): (r: nat)
    requires b > 0
    ensures a <= r * b < a + b
  {
    (a + b - 1) / b
  }

  /** Milliseconds until the head fits at the current rate, at least one. */
  function HeadDelay(s: Scheduler): int
    requires s.queue != [] && s.currentRate > 0
  {
    Max(1, CeilDiv(Max(0, s.queue[0].weight - s.tokens), s.currentRate))
  }

  /** Refills and rejects what has expired. */
  function Sweep(s: Scheduler, now: int): Scheduler {
    Refill(s, now).(queue := Live(s.queue, now), settled := Expire(s.settled, s.queue, now))
  }

  /** Serves a queue already in order, and arms the timer for whoever is left. */
  function Serve(s: Scheduler, now: int, jitter: int): Scheduler
    requires s.currentRate > 0 && s.queue != []
  {
    if s.cooldownUntil > now then
      s.(timer := Some(now + Max(1, s.cooldownUntil - now + jitter)))
    else
      var rest := GrantAll(s);
      if rest.queue == [] then rest else rest.(timer := Some(now + HeadDelay(rest)))
  }

  function Drain(s: Scheduler, now: int, jitter: int): Scheduler
    requires s.currentRate > 0
  {
    var live := Sweep(s, now);
    if live.queue == [] then live
    else
      SortKeepsSome(live.queue);
      Serve(live.(queue := Sort(live.queue)), now, jitter)
  }

  lemma SortKeepsSome(queue: seq<Request>)
    requires queue != []
    ensures Sort(queue) != []
  {
  }

  // ----- public operations -----

  function Clear(s: Scheduler): Scheduler {
    s.(timer := None)
  }

  predicate ValidWeight(s: Scheduler, weight: int) {
    0 < weight <= s.capacity
  }

  function Acquire(s: Scheduler, weight: int, priority: int, deadline: Option<int>, now: int, jitter: int): Scheduler
    requires s.currentRate > 0
  {
    if !ValidWeight(s, weight) then s
    else
      Drain(s.(queue := s.queue + [Request(s.sequence, weight, priority, deadline)], sequence := s.sequence + 1),
            now, jitter)
  }

  predicate CanConsume(s: Scheduler, id: nat, amount: int) {
    id in s.leases && !s.leases[id].closed && 0 < amount <= s.leases[id].remaining
  }

  /** A refused consumption throws and changes nothing. */
  function Consume(s: Scheduler, id: nat, amount: int, now: int): Scheduler {
    if !CanConsume(s, id, amount) then s
    else
      var lease := s.leases[id];
      var left := lease.remaining - amount;
      var spent := lease.(remaining := left, consumed := lease.consumed + amount, closed := left == 0);
      Refill(s, now).(leases := s.leases[id := spent], active := if left == 0 then s.active - {id} else s.active)
  }

  predicate CanRelease(s: Scheduler, id: nat) {
    id in s.leases && !s.leases[id].closed && s.leases[id].remaining > 0
  }

  function GiveBack(s: Scheduler, id: nat, now: int): Scheduler
    requires CanRelease(s, id)
  {
    var filled := Refill(s, now);
    var lease := s.leases[id];
    filled.(
      leases := s.leases[id := lease.(remaining := 0, closed := true, released := lease.released + lease.remaining)],
      active := s.active - {id}, tokens := Min(s.capacity, filled.tokens + lease.remaining),
      returned := s.returned + lease.remaining)
  }

  function Release(s: Scheduler, id: nat, now: int, jitter: int): Scheduler
    requires s.currentRate > 0
  {
    if CanRelease(s, id) then Drain(GiveBack(s, id, now), now, jitter) else s
  }

  function Decayed(rate: nat): nat {
    Max(RATE_FLOOR, rate * 4 / 5)
  }

  /** `reset` is the parsed reset time, when the provider sent one that parses. */
  function Cool(s: Scheduler, reset: Option<int>, minimum: int, now: int): Scheduler {
    var earliest := now + Max(MIN_COOLDOWN_MS, minimum);
    var until := match reset
      case Some(at) => Max(s.cooldownUntil, if at == 0 then earliest else at)
      case None => Max(Max(s.cooldownUntil, now + MIN_COOLDOWN_MS), earliest);
    s.(cooldownUntil := until, currentRate := Decayed(s.currentRate))
  }

  function Observe429(s: Scheduler, reset: Option<int>, minimum: int, now: int, jitter: int): Scheduler {
    Drain(Cool(s, reset, minimum, now), now, jitter)
  }

  /** The armed timer's callback; a callback of a cleared timer never runs. */
  function Fire(s: Scheduler, now: int, jitter: int): Scheduler
    requires s.currentRate > 0
  {
    if s.timer.None? || now < s.timer.value then s else Drain(Clear(s), now, jitter)
  }

  datatype Op =
    | DoAcquire(now: int, jitter: int, weight: int, priority: int, deadline: Option<int>)
    | DoConsume(now: int, id: nat, amount: int)
    | DoRelease(now: int, jitter: int, id: nat)
    | Do429(now: int, jitter: int, reset: Option<int>, minimum: int)
    | DoFire(now: int, jitter: int)
    | DoStatus(now: int)

  function Apply(s: Scheduler, op: Op): Scheduler
    requires s.currentRate > 0
  {
    match op
    case DoAcquire(now, jitter, weight, priority, deadline) => Acquire(s, weight, priority, deadline, now, jitter)
    case DoConsume(now, id, amount) => Consume(s, id, amount, now)
    case DoRelease(now, jitter, id) => Release(s, id, now, jitter)
    case Do429(now, jitter, reset, minimum) => Observe429(s, reset, minimum, now, jitter)
    case DoFire(now, jitter) => Fire(s, now, jitter)
    case DoStatus(now) => Refill(s, now)
  }
}
