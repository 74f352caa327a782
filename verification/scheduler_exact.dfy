/**
 What single operations of the scheduler do, said in numbers: who goes first, what expires, where
 every token goes, what a lease still covers, and when the timer is due.
*/
module SchedulerExact {
  import opened Wrappers
  import opened SchedulerModel
  import opened SchedulerTheorems
  import opened SchedulerRuns

  /** Whoever waits when the operation looks at the queue: a valid request joins it first. */
  function Offered(s: Scheduler, op: Op): seq<Request> {
    match op
    case DoAcquire(_, _, weight, priority, deadline) =>
      if 0 < weight <= s.capacity then s.queue + [Request(s.sequence, weight, priority, deadline)] else s.queue
    case _ => s.queue
  }

  lemma StagedOffers(s: Scheduler, op: Op)
    ensures Staged(s, op).queue == Offered(s, op)
  {
  }

  /** The deadline leaves time, and nobody of lower priority number, earlier deadline or earlier arrival is left waiting. */
  predicate Foremost(r: Request, left: seq<Request>, now: int) {
    && (r.deadline.Some? ==> r.deadline.value > now)
    && forall q :: q in left ==>
         || r.priority < q.priority
         || (r.priority == q.priority && r.deadline.Some? && (q.deadline.Some? ==> r.deadline.value < q.deadline.value))
         || (r.priority == q.priority && r.deadline == q.deadline && r.id < q.id)
  }

  /** A granted request was offered before its deadline, and goes before all that are left waiting. */
  lemma GrantsInOrder(s: Scheduler, op: Op, id: nat)
    requires Inv(s) && NewlyGranted(s, Apply(s, op), id)
    ensures op.now >= s.cooldownUntil
    ensures exists r :: r in Offered(s, op) && r.id == id && Foremost(r, Apply(s, op).queue, op.now)
  {
    assert s.currentRate > 0;
    hide Inv, Apply, Staged, Drains;
    GrantsAreFair(s, op, id);
    StagedOffers(s, op);
    PausesOnlyGrow(s, op);
    FairIsForemost(Offered(s, op), Apply(s, op), op.now, id);
  }

  lemma FairIsForemost(offered: seq<Request>, after: Scheduler, now: int, id: nat)
    requires FairGrant(offered, after, now, id)
    ensures exists r :: r in offered && r.id == id && Foremost(r, after.queue, now)
  {
    var r :| r in offered && r.id == id && Alive(r, now) && forall q :: q in after.queue ==> Before(r, q);
    forall q | q in after.queue
      ensures || r.priority < q.priority
              || (r.priority == q.priority && r.deadline.Some? && (q.deadline.Some? ==> r.deadline.value < q.deadline.value))
              || (r.priority == q.priority && r.deadline == q.deadline && r.id < q.id)
    {
      assert Before(r, q);
    }
    assert Foremost(r, after.queue, now);
  }

  /** A request on offer expires in a drain exactly when its deadline is not later than now. */
  lemma ExpiresExactly(s: Scheduler, op: Op, r: Request)
    requires Inv(s) && Drains(s, op) && r in Offered(s, op)
    ensures var after := Apply(s, op);
            (r.id in after.settled && after.settled[r.id] == DeadlineExpired) <==> (r.deadline.Some? && r.deadline.value <= op.now)
    ensures var after := Apply(s, op);
            r.deadline.Some? && r.deadline.value <= op.now ==> r !in after.queue
  {
    ApplyIsStagedDrain(s, op);
    StagingKeeps(s, op);
    StagedOffers(s, op);
    hide Apply, Staged, Drains;
    DrainExpires(Staged(s, op), op.now, JitterOf(op), r);
  }

  lemma DrainExpires(s: Scheduler, now: int, jitter: int, r: Request)
    requires StagedInv(s) && r in s.queue
    ensures var d := Drain(s, now, jitter);
            && ((r.id in d.settled && d.settled[r.id] == DeadlineExpired) <==> (r.deadline.Some? && r.deadline.value <= now))
            && (r.deadline.Some? && r.deadline.value <= now ==> r !in d.queue)
  {
    var d := Drain(s, now, jitter);
    var expired := Settle(s.settled, Dead(s.queue, now), DeadlineExpired);
    DrainSettles(s, now, jitter);
    DrainServesInOrder(s, now, jitter);
    LineFacts(s, now);
    hide Drain, Settle, Line, Served, LeasesOk, Refill, Before, Ordered, Fit;
    assert r.id !in s.settled;
    if Alive(r, now) {
      forall q | q in Dead(s.queue, now) ensures q.id != r.id { if q.id == r.id { SameIdSame(s.queue, q, r); } }
    } else {
      assert r in Dead(s.queue, now);
    }
  }

  // ----- where the tokens go -----

  /** The tokens after filling up at a rate until now, at most the capacity. */
  function Filled(s: Scheduler, now: int, rate: nat): int {
    if now <= s.lastRefillAt then s.tokens
    else if s.tokens + (now - s.lastRefillAt) * rate < s.capacity then s.tokens + (now - s.lastRefillAt) * rate
    else s.capacity
  }

  predicate OpenLease(s: Scheduler, id: nat) {
    id in s.leases && !s.leases[id].closed && s.leases[id].remaining > 0
  }

  /** What an operation leaves and grants is what was there, filled up, and what a release gave back. */
  function Available(s: Scheduler, op: Op): int
    requires s.currentRate > 0
  {
    match op
    case DoAcquire(now, _, weight, _, _) => if 0 < weight <= s.capacity then Filled(s, now, s.currentRate) else s.tokens
    case DoConsume(now, id, amount) =>
      if OpenLease(s, id) && 0 < amount <= s.leases[id].remaining then Filled(s, now, s.currentRate) else s.tokens
    case DoRelease(now, _, id) =>
      if !OpenLease(s, id) then s.tokens
      else if Filled(s, now, s.currentRate) + s.leases[id].remaining < s.capacity
      then Filled(s, now, s.currentRate) + s.leases[id].remaining else s.capacity
    case Do429(now, _, _, _) => Filled(s, now, Apply(s, op).currentRate)
    case DoFire(now, _) => if s.timer.Some? && s.timer.value <= now then Filled(s, now, s.currentRate) else s.tokens
    case DoStatus(now) => Filled(s, now, s.currentRate)
  }

  /** No token is lost or made: every operation leaves and grants exactly what was available to it. */
  lemma TokensBalance(s: Scheduler, op: Op)
    requires Inv(s)
    ensures Apply(s, op).tokens + (Apply(s, op).granted - s.granted) == Available(s, op)
  {
    ApplyIsStagedDrain(s, op);
    StagingKeeps(s, op);
    RateStaysPositive(s, op);
    StagedTokens(s, op);
    hide Apply, Staged, Drains, Available;
    if Drains(s, op) {
      DrainServesInOrder(Staged(s, op), op.now, JitterOf(op));
      hide Drain, Line, Settle, Served, Refill;
    }
  }

  lemma StagedTokens(s: Scheduler, op: Op)
    requires Inv(s) && Apply(s, op).currentRate == (if op.Do429? then Decayed(s.currentRate) else s.currentRate)
    ensures Staged(s, op).granted == s.granted
    ensures if Drains(s, op) then Refill(Staged(s, op), op.now).tokens == Available(s, op)
            else Staged(s, op).tokens == Available(s, op)
  {
    hide Apply;
    assert forall id :: id in s.leases ==> LeaseOk(s.leases[id]);
    hide QueueOk, LeasesOk;
  }

  /** A lease pays for exactly what it still holds, closes at nothing, and leaves every other lease alone. */
  lemma ConsumeSpends(s: Scheduler, id: nat, amount: int, now: int)
    requires Inv(s)
    ensures var d := Apply(s, DoConsume(now, id, amount));
            if id in s.leases && 0 < amount <= s.leases[id].remaining
            then && d.leases.Keys == s.leases.Keys && (forall other :: other in s.leases && other != id ==> d.leases[other] == s.leases[other])
                 && d.leases[id].remaining == s.leases[id].remaining - amount && d.leases[id].total == s.leases[id].total
                 && d.leases[id].consumed == s.leases[id].consumed + amount
                 && (id in d.active <==> amount < s.leases[id].remaining) && d.queue == s.queue && d.granted == s.granted
            else d == s
  {
    assert id in s.leases ==> LeaseOk(s.leases[id]);
    hide QueueOk;
  }

  // ----- when the timer is due -----

  /** The head fits after the wait, and a millisecond earlier it would not. */
  predicate WaitIsTight(weight: int, tokens: int, rate: int, wait: int) {
    && wait >= 1 && weight - tokens <= wait * rate
    && (wait > 1 ==> (wait - 1) * rate < weight - tokens)
  }

  lemma CeilIsTight(a: nat, b: nat)
    requires b > 0
    ensures a > 0 ==> (CeilDiv(a, b) - 1) * b < a <= CeilDiv(a, b) * b
    ensures a == 0 ==> CeilDiv(a, b) <= 1
  {
    var q := CeilDiv(a, b);
    assert (q - 1) * b == q * b - b;
    if a == 0 { assert (b - 1) / b == 0; }
  }

  /**
   Outside the cooldown the timer of the first that waits is due as soon as it fits and not later;
   inside, when the cooldown ends, and the jitter after that.
  */
  lemma TimerIsTight(s: Scheduler, now: int, jitter: int)
    requires StagedInv(s) && Drain(s, now, jitter).queue != []
    ensures var d := Drain(s, now, jitter);
            && d.timer.Some? && d.timer.value > now
            && (s.cooldownUntil <= now ==> WaitIsTight(d.queue[0].weight, d.tokens, d.currentRate, d.timer.value - now))
            && (s.cooldownUntil > now && jitter >= 0 ==> d.timer.value == s.cooldownUntil + jitter)
  {
    DrainForm(s, now, jitter);
    DrainKeepsSettings(s, now, jitter);
    hide Drain, Swept, Serve, Line, Settle, Dead, Distinct, QueueOk, LeasesOk, WaitIsTight;
    ServedTimerIsTight(Swept(s, now), now, jitter);
  }

  lemma ServedTimerIsTight(s: Scheduler, now: int, jitter: int)
    requires s.queue != [] && s.currentRate > 0 && Serve(s, now, jitter).queue != []
    ensures var d := Serve(s, now, jitter);
            && d.timer.Some? && d.timer.value > now
            && (s.cooldownUntil <= now ==> WaitIsTight(d.queue[0].weight, d.tokens, d.currentRate, d.timer.value - now))
            && (s.cooldownUntil > now && jitter >= 0 ==> d.timer.value == s.cooldownUntil + jitter)
  {
    ServeArms(s, now, jitter);
    HeadDelayIsTight(Serve(s, now, jitter));
    hide GrantAll, HeadDelay;
  }

  lemma HeadDelayIsTight(s: Scheduler)
    requires s.queue != [] && s.currentRate > 0
    ensures WaitIsTight(s.queue[0].weight, s.tokens, s.currentRate, HeadDelay(s))
  {
    var needed := Max(0, s.queue[0].weight - s.tokens);
    CeilIsTight(needed, s.currentRate);
    hide CeilDiv;
    if CeilDiv(needed, s.currentRate) < 1 { assert needed == 0; assert 1 * s.currentRate >= 0; }
  }
}
