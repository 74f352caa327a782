/**
 What the scheduler promises over whole runs: the token-bucket bound of every time
 window, the order of grants, single settlement, lease accounting and no lost wake-up.
*/
module SchedulerTheorems {
  import opened Wrappers
  import opened SchedulerModel

  // ----- the sorted queue -----

  predicate Ordered(queue: seq<Request>) {
    forall i, j :: 0 <= i < j < |queue| ==> Before(queue[i], queue[j])
  }

  predicate Distinct(queue: seq<Request>) {
    forall i, j :: 0 <= i < j < |queue| ==> queue[i].id != queue[j].id
  }

  lemma BeforeIsStrictTotal(a: Request, b: Request, c: Request)
    ensures Before(a, b) && Before(b, c) ==> Before(a, c)
    ensures !Before(a, a)
    ensures a.id != b.id ==> Before(a, b) || Before(b, a)
  {
  }

  lemma {:induction false} InsertKeepsOrder(r: Request, queue: seq<Request>)
    requires Ordered(queue) && forall i :: 0 <= i < |queue| ==> queue[i].id != r.id
    ensures Ordered(InsertSorted(r, queue))
    ensures multiset(InsertSorted(r, queue)) == multiset(queue) + multiset{r}
  {
    if queue == [] || Before(r, queue[0]) {
      forall j | 0 < j <= |queue| ensures Before(r, ([r] + queue)[j]) {
        if j > 1 { BeforeIsStrictTotal(r, queue[0], queue[j - 1]); }
      }
    } else {
      var rest := InsertSorted(r, queue[1..]);
      InsertKeepsOrder(r, queue[1..]);
      assert queue == [queue[0]] + queue[1..];
      forall j | 0 <= j < |rest| ensures Before(queue[0], rest[j]) {
        assert rest[j] in multiset(queue[1..]) + multiset{r};
        if rest[j] == r { BeforeIsStrictTotal(queue[0], r, r); }
        else { assert rest[j] in queue[1..]; }
      }
    }
  }

  lemma {:induction false} SortOrders(queue: seq<Request>)
    requires Distinct(queue)
    ensures Ordered(Sort(queue)) && multiset(Sort(queue)) == multiset(queue)
  {
    if queue != [] {
      var rest := Sort(queue[1..]);
      SortOrders(queue[1..]);
      assert queue == [queue[0]] + queue[1..];
      forall i | 0 <= i < |rest| ensures rest[i].id != queue[0].id {
        assert rest[i] in multiset(queue[1..]);
      }
      InsertKeepsOrder(queue[0], rest);
    }
  }

  lemma MembersOfSort(queue: seq<Request>)
    requires Distinct(queue)
    ensures |Sort(queue)| == |queue|
    ensures forall r :: r in Sort(queue) <==> r in queue
    ensures Distinct(Sort(queue))
  {
    SortOrders(queue);
    assert |multiset(Sort(queue))| == |multiset(queue)|;
    forall r ensures r in Sort(queue) <==> r in queue {
      assert r in multiset(Sort(queue)) <==> r in multiset(queue);
    }
    DistinctByMultiset(queue, Sort(queue));
  }

  /** Distinctness of ids only depends on the multiset of requests. */
  lemma DistinctByMultiset(a: seq<Request>, b: seq<Request>)
    requires Distinct(a) && Ordered(b) && multiset(a) == multiset(b)
    ensures Distinct(b)
  {
    forall i, j | 0 <= i < j < |b| ensures b[i].id != b[j].id {
      BeforeIsStrictTotal(b[i], b[j], b[j]);
      assert b[i] in multiset(a) && b[j] in multiset(a);
      var k :| 0 <= k < |a| && a[k] == b[i];
      var l :| 0 <= l < |a| && a[l] == b[j];
    }
  }

  // ----- filtering -----

  lemma {:induction false} LiveMembers(queue: seq<Request>, now: int)
    requires Distinct(queue)
    ensures Distinct(Live(queue, now))
    ensures forall r :: r in Live(queue, now) <==> r in queue && Alive(r, now)
  {
    if queue != [] {
      var front := queue[..|queue| - 1];
      var last := queue[|queue| - 1];
      LiveMembers(front, now);
      assert queue == front + [last];
      assert forall r :: r in queue <==> r in front || r == last;
      forall i | 0 <= i < |Live(front, now)| ensures Live(front, now)[i].id != last.id {
        assert Live(front, now)[i] in front;
      }
    }
  }

  // ----- what one drain grants -----

  function Members(queue: seq<Request>): set<Request> {
    set r | r in queue
  }

  function Total(queue: seq<Request>): nat {
    if queue == [] then 0 else queue[0].weight + Total(queue[1..])
  }

  /** How many requests of the front fit into the tokens, one after another. */
  function Fit(tokens: nat, queue: seq<Request>): (k: nat)
    ensures k <= |queue|
  {
    if queue == [] || tokens < queue[0].weight then 0 else 1 + Fit(tokens - queue[0].weight, queue[1..])
  }

  /** Granting takes exactly the fitting front, pays for it, and touches nothing else. */
  lemma {:induction false} GrantAllTakesFront(s: Scheduler)
    ensures var k := Fit(s.tokens, s.queue);
            var r := GrantAll(s);
            && r.queue == s.queue[k..]
            && Total(s.queue[..k]) <= s.tokens
            && r.tokens == s.tokens - Total(s.queue[..k]) && r.granted == s.granted + Total(s.queue[..k])
            && (k < |s.queue| ==> r.tokens < s.queue[k].weight)
            && r == s.(queue := r.queue, tokens := r.tokens, leases := r.leases, active := r.active,
                       settled := r.settled, granted := r.granted)
    decreases |s.queue|
  {
    if s.queue != [] && s.queue[0].weight <= s.tokens {
      var h := GrantHead(s);
      var k := Fit(s.tokens, s.queue);
      GrantAllTakesFront(h);
      assert s.queue[..k] == [s.queue[0]] + h.queue[..k - 1];
    }
  }

  lemma SettleOne(settled: map<nat, Outcome>, r: Request, rest: set<Request>, outcome: Outcome)
    ensures Settle(settled[r.id := outcome], rest, outcome) == Settle(settled, rest + {r}, outcome)
  {
    var a := Settle(settled[r.id := outcome], rest, outcome);
    var b := Settle(settled, rest + {r}, outcome);
    assert r in rest + {r};
    forall id | id in a ensures id in b && a[id] == b[id] {
      if x :| x in rest && x.id == id { assert x in rest + {r}; }
    }
    forall id | id in b ensures id in a {
      if x :| x in rest + {r} && x.id == id { assert x in rest || x == r; }
    }
  }

  lemma {:induction false} GrantAllSettles(s: Scheduler)
    ensures GrantAll(s).settled == Settle(s.settled, Members(s.queue[..Fit(s.tokens, s.queue)]), Granted)
    decreases |s.queue|
  {
    var k := Fit(s.tokens, s.queue);
    hide Settle;
    if s.queue == [] || s.tokens < s.queue[0].weight {
      assert Members(s.queue[..k]) == {};
      SettleNone(s.settled, Granted);
    } else {
      var h := GrantHead(s);
      GrantAllSettles(h);
      assert s.queue[..k] == [s.queue[0]] + h.queue[..k - 1];
      assert Members(s.queue[..k]) == Members(h.queue[..k - 1]) + {s.queue[0]};
      SettleOne(s.settled, s.queue[0], Members(h.queue[..k - 1]), Granted);
    }
  }

  lemma SettleNone(settled: map<nat, Outcome>, outcome: Outcome)
    ensures Settle(settled, {}, outcome) == settled
  {
  }

  function Dead(queue: seq<Request>, now: int): set<Request> {
    set r | r in queue && !Alive(r, now)
  }

  /** The live requests in service order. */
  function Line(s: Scheduler, now: int): seq<Request> {
    Sort(Live(s.queue, now))
  }

  predicate Cooling(s: Scheduler, now: int) {
    s.cooldownUntil > now
  }

  /** How many of the line one drain grants. */
  function Served(s: Scheduler, now: int): (k: nat)
    ensures k <= |Line(s, now)|
  {
    if Cooling(s, now) then 0 else Fit(Refill(s, now).tokens, Line(s, now))
  }

  function FrontOf(s: Scheduler, now: int): (k: nat)
    ensures k <= |s.queue|
  {
    if Cooling(s, now) then 0 else Fit(s.tokens, s.queue)
  }

  lemma ServeTakesFront(s: Scheduler, now: int, jitter: int)
    requires s.currentRate > 0 && s.queue != []
    ensures var d := Serve(s, now, jitter);
            var k := FrontOf(s, now);
            && d.queue == s.queue[k..] && Total(s.queue[..k]) <= s.tokens
            && d.settled == Settle(s.settled, Members(s.queue[..k]), Granted)
            && d.tokens == s.tokens - Total(s.queue[..k]) && d.granted == s.granted + Total(s.queue[..k])
            && (!Cooling(s, now) && k < |s.queue| ==> d.tokens < s.queue[k].weight)
            && (d.queue != [] ==> d.timer.Some? && d.timer.value > now)
            && d == s.(queue := d.queue, tokens := d.tokens, timer := d.timer, leases := d.leases,
                       active := d.active, settled := d.settled, granted := d.granted)
  {
    hide Settle;
    if Cooling(s, now) {
      assert Members(s.queue[..0]) == {};
      SettleNone(s.settled, Granted);
    } else {
      GrantAllTakesFront(s);
      GrantAllSettles(s);
    }
  }

  /** What the sweep leaves is the line in service order. */
  lemma LineFacts(s: Scheduler, now: int)
    requires Distinct(s.queue)
    ensures Ordered(Line(s, now)) && Distinct(Line(s, now))
    ensures forall r :: r in Line(s, now) <==> r in s.queue && Alive(r, now)
    ensures Line(s, now) == [] <==> Live(s.queue, now) == []
  {
    LiveMembers(s.queue, now);
    SortOrders(Live(s.queue, now));
    MembersOfSort(Live(s.queue, now));
  }

  function SettledByDrain(s: Scheduler, now: int): map<nat, Outcome> {
    Settle(Settle(s.settled, Dead(s.queue, now), DeadlineExpired), Members(Line(s, now)[..Served(s, now)]), Granted)
  }

  /**
   One drain: expired requests are rejected, a front of the strict service order is
   granted until the next request does not fit, nothing is granted while cooling, and
   whoever is left has an armed timer in the future.
  */
  lemma DrainServesInOrder(s: Scheduler, now: int, jitter: int)
    requires s.currentRate > 0 && Distinct(s.queue)
    ensures var d := Drain(s, now, jitter);
            var line := Line(s, now);
            var k := Served(s, now);
            && Ordered(line) && (forall r :: r in line <==> r in s.queue && Alive(r, now))
            && d.queue == line[k..] && d.settled == SettledByDrain(s, now)
            && Total(line[..k]) <= Refill(s, now).tokens
            && d.tokens == Refill(s, now).tokens - Total(line[..k]) && d.granted == s.granted + Total(line[..k])
            && (!Cooling(s, now) && k < |line| ==> d.tokens < line[k].weight)
            && (d.queue != [] ==> d.timer.Some? && d.timer.value > now)
            && d == s.(lastRefillAt := Refill(s, now).lastRefillAt, queue := d.queue, tokens := d.tokens,
                       timer := d.timer, leases := d.leases, active := d.active, settled := d.settled,
                       granted := d.granted)
  {
    LineFacts(s, now);
    var swept := Sweep(s, now);
    var line := Line(s, now);
    assert Dead(s.queue, now) == set r | r in s.queue && !Alive(r, now);
    assert swept.settled == Settle(s.settled, Dead(s.queue, now), DeadlineExpired);
    hide Live, Sort, Settle, Ordered, Distinct, Expire;
    if line == [] {
      assert line[..0] == [] && Members([]) == {};
      SettleNone(swept.settled, Granted);
    } else {
      hide Serve;
      ServeTakesFront(swept.(queue := line), now, jitter);
    }
  }

  // ----- every request settles once -----

  /** Each accepted id is queued or settled, never both. */
  ghost predicate Pending(queue: seq<Request>, settled: map<nat, Outcome>, sequence: nat, capacity: nat) {
    && Distinct(queue)
    && (forall r :: r in queue ==> r.id < sequence && r.id !in settled && 0 < r.weight <= capacity)
    && (forall id :: id in settled ==> id < sequence)
    && (forall id: nat :: id < sequence ==> id in settled || HasId(queue, id))
  }

  ghost predicate HasId(queue: seq<Request>, id: nat) {
    exists r :: r in queue && r.id == id
  }

  ghost predicate Extends(before: map<nat, Outcome>, after: map<nat, Outcome>) {
    forall id :: id in before ==> id in after && after[id] == before[id]
  }

  /** What is newly settled between two tables is exactly these requests, this way. */
  ghost predicate SettledNow(before: map<nat, Outcome>, after: map<nat, Outcome>, gone: set<Request>, outcome: Outcome) {
    && (forall r :: r in gone ==> r.id in after && after[r.id] == outcome)
    && (forall id :: id in after && id !in before ==>
          after[id] == outcome && exists r :: r in gone && r.id == id)
  }

  lemma SettledIds(settled: map<nat, Outcome>, requests: set<Request>, outcome: Outcome)
    requires forall r :: r in requests ==> r.id !in settled
    ensures Extends(settled, Settle(settled, requests, outcome))
    ensures SettledNow(settled, Settle(settled, requests, outcome), requests, outcome)
  {
  }

  /** Settling part of a queue leaves the other part pending. */
  lemma SettleSome(queue: seq<Request>, settled: map<nat, Outcome>, sequence: nat, capacity: nat,
                   gone: set<Request>, left: seq<Request>, outcome: Outcome)
    requires Pending(queue, settled, sequence, capacity) && Distinct(left)
    requires forall r :: r in queue <==> r in gone || r in left
    requires forall r :: r in gone ==> r !in left
    ensures Pending(left, Settle(settled, gone, outcome), sequence, capacity)
    ensures Extends(settled, Settle(settled, gone, outcome))
    ensures SettledNow(settled, Settle(settled, gone, outcome), gone, outcome)
  {
    SettledIds(settled, gone, outcome);
    var after := Settle(settled, gone, outcome);
    hide Settle;
    forall r | r in left ensures r.id !in after {
      forall q | q in gone ensures q.id != r.id { if q.id == r.id { SameIdSame(queue, q, r); } }
    }
    forall id: nat | id < sequence ensures id in after || HasId(left, id) {
      if id !in settled {
        assert HasId(queue, id);
        var r :| r in queue && r.id == id;
        assert r in gone || r in left;
      }
    }
  }

  lemma SameIdSame(queue: seq<Request>, a: Request, b: Request)
    requires Distinct(queue) && a in queue && b in queue && a.id == b.id
    ensures a == b
  {
  }

  ghost predicate QueueOk(s: Scheduler) {
    Pending(s.queue, s.settled, s.sequence, s.capacity)
  }

  function Front(s: Scheduler, now: int): set<Request> {
    Members(Line(s, now)[..Served(s, now)])
  }

  lemma LineSplits(line: seq<Request>, k: nat)
    requires k <= |line| && Distinct(line)
    ensures Distinct(line[k..])
    ensures forall r :: r in line <==> r in Members(line[..k]) || r in line[k..]
    ensures forall r :: r in Members(line[..k]) ==> r !in line[k..]
  {
    assert line == line[..k] + line[k..];
  }

  /** Expiry settles the dead, then serving settles the front; the rest stays pending. */
  lemma DrainSettles(s: Scheduler, now: int, jitter: int)
    requires s.currentRate > 0 && QueueOk(s)
    ensures QueueOk(Drain(s, now, jitter)) && Extends(s.settled, Drain(s, now, jitter).settled)
    ensures var expired := Settle(s.settled, Dead(s.queue, now), DeadlineExpired);
            && Extends(s.settled, expired)
            && SettledNow(s.settled, expired, Dead(s.queue, now), DeadlineExpired)
            && SettledNow(expired, Drain(s, now, jitter).settled, Front(s, now), Granted)
            && Extends(expired, Drain(s, now, jitter).settled)
  {
    DrainServesInOrder(s, now, jitter);
    LineFacts(s, now);
    var line := Line(s, now);
    var k := Served(s, now);
    var dead := Dead(s.queue, now);
    assert forall r :: r in s.queue <==> r in dead || r in line;
    assert forall r :: r in dead ==> r !in line;
    var d := Drain(s, now, jitter);
    hide Drain, Line, Settle, Served, Pending, Extends, SettledNow, Distinct, Ordered, Dead, Members, Refill;
    SettleSome(s.queue, s.settled, s.sequence, s.capacity, dead, line, DeadlineExpired);
    LineSplits(line, k);
    var expired := Settle(s.settled, dead, DeadlineExpired);
    SettleSome(line, expired, s.sequence, s.capacity, Members(line[..k]), line[k..], Granted);
    ExtendsTwice(s.settled, expired, d.settled);
  }

  lemma ExtendsTwice(a: map<nat, Outcome>, b: map<nat, Outcome>, c: map<nat, Outcome>)
    requires Extends(a, b) && Extends(b, c)
    ensures Extends(a, c)
  {
  }
}
