/**
 The scheduler object: its methods update the fields in place and are proved to do
 exactly what the model's operations say, so the theorems about runs apply to it.
*/
module SchedulerObject {
  import opened Wrappers
  import opened SchedulerModel
  import opened SchedulerTheorems
  import opened SchedulerRuns

  class WeightedRateScheduler {
    const rate: nat
    const capacity: nat
    var currentRate: nat
    var tokens: nat
    var lastRefillAt: int
    var cooldownUntil: int
    var queue: seq<Request>
    var sequence: nat
    var timer: Option<int>
    var leases: map<nat, Lease>
    var activeLeases: set<nat>
    var settled: map<nat, Outcome>
    ghost var granted: nat
    ghost var returned: nat

    ghost function State(): Scheduler
      reads this
    {
      Scheduler(rate, capacity, currentRate, tokens, lastRefillAt, cooldownUntil, queue, sequence, timer, leases,
                activeLeases, settled, granted, returned)
    }

    constructor (rate: nat, capacity: nat, now: int)
      requires rate > 0
      ensures State() == Fresh(rate, capacity, now) && Inv(State())
    {
      this.rate, this.capacity, currentRate, tokens := rate, capacity, rate, capacity;
      lastRefillAt, cooldownUntil, timer := now, 0, None;
      queue, sequence, leases, activeLeases, settled := [], 0, map[], {}, map[];
      granted, returned := 0, 0;
    }

    method Refill(now: int)
      modifies this`tokens, this`lastRefillAt
      ensures State() == SchedulerModel.Refill(old(State()), now)
    {
      if now <= lastRefillAt { return; }
      tokens := Min(capacity, tokens + (now - lastRefillAt) * currentRate);
      lastRefillAt := now;
    }

    /** Keeps what is still in time and rejects the rest, in one pass. */
    method RejectExpired(now: int)
      modifies this`queue, this`settled
      ensures queue == Live(old(queue), now)
      ensures settled == Expire(old(settled), old(queue), now)
    {
      var items := queue;
      var kept: seq<Request> := [];
      ExpireNothing(settled, now);
      for i := 0 to |items|
        invariant kept == Live(items[..i], now) && settled == Expire(old(settled), items[..i], now)
      {
        var item := items[i];
        assert items[..i + 1][..i] == items[..i];
        ExpireOneMore(old(settled), items[..i], item, now);
        assert items[..i + 1] == items[..i] + [item];
        if Alive(item, now) {
          kept := kept + [item];
        } else {
          settled := settled[item.id := DeadlineExpired];
        }
      }
      assert items[..|items|] == items;
      queue := kept;
    }

    /** The loop that serves the head while it fits. */
    method GrantFitting()
      modifies this
      ensures State() == GrantAll(old(State()))
      ensures currentRate == old(currentRate)
    {
      while queue != [] && queue[0].weight <= tokens
        invariant currentRate == old(currentRate)
        invariant GrantAll(State()) == GrantAll(old(State()))
        decreases |queue|
      {
        assert GrantAll(State()) == GrantAll(GrantHead(State()));
        hide GrantAll;
        ghost var next := GrantHead(State());
        var item := queue[0];
        queue := queue[1..];
        tokens := tokens - item.weight;
        leases := leases[item.id := Lease(item.weight, item.weight, false, 0, 0)];
        activeLeases := activeLeases + {item.id};
        settled := settled[item.id := Granted];
        granted := granted + item.weight;
        assert State() == next;
      }
    }

    method Drain(now: int, jitter: int)
      requires currentRate > 0
      modifies this
      ensures State() == SchedulerModel.Drain(old(State()), now, jitter)
    {
      hide GrantAll, Live, Expire, Sort, Fit;
      Refill(now);
      RejectExpired(now);
      if queue == [] { return; }
      SortKeepsSome(queue);
      queue := Sort(queue);
      if cooldownUntil > now {
        timer := Some(now + Max(1, cooldownUntil - now + jitter));
        return;
      }
      GrantFitting();
      if queue != [] {
        var needed := Max(0, queue[0].weight - tokens);
        timer := Some(now + Max(1, CeilDiv(needed, currentRate)));
      }
    }

    method Acquire(weight: int, priority: int, deadline: Option<int>, now: int, jitter: int)
      returns (accepted: Option<nat>)
      requires Inv(State())
      modifies this
      ensures State() == SchedulerModel.Acquire(old(State()), weight, priority, deadline, now, jitter)
      ensures Inv(State()) && Extends(old(settled), settled)
      ensures accepted == if 0 < weight <= capacity then Some(old(sequence)) else None
    {
      hide SchedulerModel.Drain, Inv, StagedInv, Extends;
      KeepsAndRuns(State(), DoAcquire(now, jitter, weight, priority, deadline));
      if weight <= 0 || weight > capacity { return None; }
      accepted := Some(sequence);
      queue := queue + [Request(sequence, weight, priority, deadline)];
      sequence := sequence + 1;
      Drain(now, jitter);
    }

    method Consume(id: nat, amount: int, now: int) returns (ok: bool)
      requires Inv(State())
      modifies this
      ensures State() == SchedulerModel.Consume(old(State()), id, amount, now)
      ensures Inv(State()) && ok == CanConsume(old(State()), id, amount)
    {
      hide Inv, StagedInv, Extends, SchedulerModel.Drain;
      KeepsAndRuns(State(), DoConsume(now, id, amount));
      if id !in leases || leases[id].closed || amount <= 0 || amount > leases[id].remaining { return false; }
      ok := true;
      var lease := leases[id];
      var left := lease.remaining - amount;
      leases := leases[id := lease.(remaining := left, consumed := lease.consumed + amount)];
      Refill(now);
      if left == 0 {
        leases := leases[id := leases[id].(closed := true)];
        activeLeases := activeLeases - {id};
      }
    }

    method Release(id: nat, now: int, jitter: int) returns (released: nat)
      requires Inv(State())
      modifies this
      ensures State() == SchedulerModel.Release(old(State()), id, now, jitter)
      ensures Inv(State()) && Extends(old(settled), settled)
      ensures released == if CanRelease(old(State()), id) then old(leases[id].remaining) else 0
    {
      hide SchedulerModel.Drain, Inv, StagedInv, Extends;
      KeepsAndRuns(State(), DoRelease(now, jitter, id));
      if id !in leases || leases[id].closed || leases[id].remaining <= 0 { return 0; }
      var lease := leases[id];
      released := lease.remaining;
      leases := leases[id := lease.(remaining := 0, closed := true, released := lease.released + released)];
      activeLeases := activeLeases - {id};
      Refill(now);
      tokens := Min(capacity, tokens + released);
      returned := returned + released;
      Drain(now, jitter);
    }

    method Observe429(reset: Option<int>, minimum: int, now: int, jitter: int)
      requires Inv(State())
      modifies this
      ensures State() == SchedulerModel.Observe429(old(State()), reset, minimum, now, jitter)
      ensures Inv(State()) && Extends(old(settled), settled)
      ensures cooldownUntil >= old(cooldownUntil)
      ensures reset.None? ==> cooldownUntil >= now + 60_000 && cooldownUntil >= now + minimum
      ensures reset.Some? && reset.value != 0 ==> cooldownUntil in {old(cooldownUntil), reset.value}
    {
      hide SchedulerModel.Drain, Inv, StagedInv, Extends;
      KeepsAndRuns(State(), Do429(now, jitter, reset, minimum));
      var parsed := if reset.Some? then reset.value else now + MIN_COOLDOWN_MS;
      var earliest := now + Max(MIN_COOLDOWN_MS, minimum);
      cooldownUntil := Max(cooldownUntil, if parsed != 0 then parsed else earliest);
      if reset.None? { cooldownUntil := Max(cooldownUntil, earliest); }
      currentRate := Max(RATE_FLOOR, currentRate * 4 / 5);
      Drain(now, jitter);
      RateLimitPauses(old(State()), now, jitter, reset, minimum);
    }

    /** What the event loop calls when the armed timer is due. */
    method FireTimer(now: int, jitter: int)
      requires Inv(State())
      modifies this
      ensures State() == SchedulerModel.Fire(old(State()), now, jitter)
      ensures Inv(State()) && Extends(old(settled), settled)
    {
      hide SchedulerModel.Drain, Inv, StagedInv, Extends;
      KeepsAndRuns(State(), DoFire(now, jitter));
      if timer.None? || now < timer.value { return; }
      timer := None;
      Drain(now, jitter);
    }
  }

  lemma KeepsAndRuns(s: Scheduler, op: Op)
    requires Inv(s)
    ensures s.currentRate > 0 && Inv(Apply(s, op)) && Extends(s.settled, Apply(s, op).settled)
  {
    ApplyKeeps(s, op);
  }

  lemma ExpireNothing(settled: map<nat, Outcome>, now: int)
    ensures Expire(settled, [], now) == settled
  {
  }

  lemma ExpireOneMore(settled: map<nat, Outcome>, items: seq<Request>, item: Request, now: int)
    ensures Expire(settled, items + [item], now)
         == if Alive(item, now) then Expire(settled, items, now)
            else Expire(settled, items, now)[item.id := DeadlineExpired]
  {
    var before := set r | r in items && !Alive(r, now);
    var after := set r | r in items + [item] && !Alive(r, now);
    if Alive(item, now) {
      assert before == after;
    } else {
      assert after == before + {item};
      SettleOne(settled, item, before, DeadlineExpired);
      SettleLast(settled, before, item, DeadlineExpired);
    }
  }

  /** Settling the same way commutes. */
  lemma SettleLast(settled: map<nat, Outcome>, requests: set<Request>, r: Request, outcome: Outcome)
    ensures Settle(settled, requests, outcome)[r.id := outcome] == Settle(settled, requests + {r}, outcome)
  {
    SettleOne(settled, r, requests, outcome);
  }
}
