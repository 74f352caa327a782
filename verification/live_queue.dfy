/**
 The in-memory queue of the live worker. The pump awaits one execution at a time, so a
 step of the model is what runs between two awaits; the histories of accepted and served
 signals are kept to say what order they are served in.
*/
module LiveQueueModel {
  import opened Wrappers

  type SignalId = int

  /** A row or a notification entry; an id that is not an integer is absent. */
  datatype Offer = Offer(id: Option<SignalId>, live: bool)

  datatype Queue = Queue(
    waiting: seq<SignalId>, queuedIds: set<SignalId>, inFlight: Option<SignalId>, processing: bool, stopping: bool,
    waiters: nat, accepted: seq<SignalId>, served: seq<SignalId>)

  const Fresh := Queue([], {}, None, false, false, 0, [], [])

  predicate Accepts(q: Queue, offer: Offer) {
    offer.id.Some? && offer.id.value !in q.queuedIds && offer.live
  }

  function Accept(q: Queue, id: SignalId): Queue {
    q.(queuedIds := q.queuedIds + {id}, waiting := q.waiting + [id], accepted := q.accepted + [id])
  }

  function AcceptAll(q: Queue, offers: seq<Offer>): Queue {
    if offers == [] then q
    else
      var before := AcceptAll(q, offers[..|offers| - 1]);
      var last := offers[|offers| - 1];
      if Accepts(before, last) then Accept(before, last.id.value) else before
  }

  /** The pump's loop head: take the first, or end and wake whoever waits for idleness. */
  function TakeNext(q: Queue): Queue {
    if !q.stopping && q.waiting != [] then q.(inFlight := Some(q.waiting[0]), waiting := q.waiting[1..])
    else q.(processing := false, waiters := 0)
  }

  function Pump(q: Queue): Queue {
    if q.processing || q.stopping then q else TakeNext(q.(processing := true))
  }

  function Enqueue(q: Queue, offers: seq<Offer>): Queue {
    if q.stopping then q
    else
      var filled := AcceptAll(q, offers);
      if |filled.accepted| > |q.accepted| then Pump(filled) else filled
  }

  /** The awaited execution settled, either way. */
  function Finish(q: Queue): Queue {
    match q.inFlight
    case None => q
    case Some(id) => TakeNext(q.(queuedIds := q.queuedIds - {id}, inFlight := None, served := q.served + [id]))
  }

  function Wait(q: Queue): Queue {
    if !q.processing && q.waiting == [] then q else q.(waiters := q.waiters + 1)
  }

  function Stop(q: Queue): Queue {
    Wait(q.(stopping := true))
  }

  function Configure(q: Queue): Queue {
    q.(stopping := false)
  }

  datatype Step = DoEnqueue(offers: seq<Offer>) | DoFinish | DoWait | DoStop | DoConfigure

  function Apply(q: Queue, step: Step): Queue {
    match step
    case DoEnqueue(offers) => Enqueue(q, offers)
    case DoFinish => Finish(q)
    case DoWait => Wait(q)
    case DoStop => Stop(q)
    case DoConfigure => Configure(q)
  }

  function Run(q: Queue, steps: seq<Step>): Queue
    decreases |steps|
  {
    if steps == [] then q else Run(Apply(q, steps[0]), steps[1..])
  }

  // ----- the invariant -----

  function Flying(q: Queue): seq<SignalId> {
    if q.inFlight.Some? then [q.inFlight.value] else []
  }

  predicate NoDuplicates(s: seq<SignalId>) {
    forall i, j :: 0 <= i < j < |s| ==> s[i] != s[j]
  }

  /** First in, first out, no signal twice at once, and the id set is what is queued or running. */
  ghost predicate QueueOk(q: Queue) {
    && q.accepted == q.served + Flying(q) + q.waiting
    && NoDuplicates(Flying(q) + q.waiting)
    && (forall id :: id in q.queuedIds <==> id in Flying(q) + q.waiting)
    && (q.processing <==> q.inFlight.Some?)
    && (q.waiters > 0 ==> q.processing || q.waiting != [])
  }

  lemma AcceptKeeps(q: Queue, id: SignalId)
    requires QueueOk(q) && id !in q.queuedIds
    ensures QueueOk(Accept(q, id))
  {
    assert Flying(q) + (q.waiting + [id]) == (Flying(q) + q.waiting) + [id];
    assert q.accepted + [id] == q.served + Flying(q) + (q.waiting + [id]);
  }

  lemma {:induction false} AcceptAllKeeps(q: Queue, offers: seq<Offer>)
    requires QueueOk(q)
    ensures var after := AcceptAll(q, offers);
            && QueueOk(after) && after.processing == q.processing && after.stopping == q.stopping
            && after.inFlight == q.inFlight && after.served == q.served
            && q.accepted <= after.accepted && (after.accepted == q.accepted ==> after == q)
  {
    if offers != [] {
      var before, last := AcceptAll(q, offers[..|offers| - 1]), offers[|offers| - 1];
      AcceptAllKeeps(q, offers[..|offers| - 1]);
      if Accepts(before, last) { AcceptKeeps(before, last.id.value); }
    }
  }

  lemma TakeNextKeeps(q: Queue)
    requires QueueOk(q.(processing := q.inFlight.Some?, waiters := 0)) && q.inFlight.None? && q.processing
    ensures QueueOk(TakeNext(q))
  {
    if !q.stopping && q.waiting != [] {
      assert [q.waiting[0]] + q.waiting[1..] == q.waiting;
      assert [] + q.waiting == q.waiting;
      assert q.served + [] + q.waiting == q.served + [q.waiting[0]] + q.waiting[1..];
    }
  }

  lemma DropFirst(id: SignalId, rest: seq<SignalId>)
    requires NoDuplicates([id] + rest)
    ensures NoDuplicates([] + rest) && id !in rest && [] + rest == rest
    ensures forall x :: x in [id] + rest <==> x == id || x in rest
  {
    var all := [id] + rest;
    forall i | 0 <= i < |rest| ensures all[i + 1] == rest[i] {}
    assert all[0] == id;
    forall x ensures x in all <==> x == id || x in rest {
      if x in rest { var k :| 0 <= k < |rest| && rest[k] == x; assert all[k + 1] == x; }
    }
  }

  lemma FinishKeeps(q: Queue)
    requires QueueOk(q)
    ensures QueueOk(Finish(q))
  {
    if q.inFlight.Some? {
      var id := q.inFlight.value;
      var idle := q.(queuedIds := q.queuedIds - {id}, inFlight := None, served := q.served + [id]);
      DropFirst(id, q.waiting);
      hide NoDuplicates;
      assert idle.served + [] + q.waiting == q.served + [id] + q.waiting;
      TakeNextKeeps(idle);
    }
  }

  lemma ApplyKeeps(q: Queue, step: Step)
    requires QueueOk(q)
    ensures QueueOk(Apply(q, step))
  {
    match step
    case DoEnqueue(offers) =>
      AcceptAllKeeps(q, offers);
      var filled := AcceptAll(q, offers);
      if !q.stopping && !filled.processing { TakeNextKeeps(filled.(processing := true)); }
    case DoFinish => FinishKeeps(q);
    case DoWait =>
    case DoStop =>
    case DoConfigure =>
  }

  /** Over every run: served and in flight and waiting are the accepted ones in their order. */
  lemma {:induction false} RunKeeps(q: Queue, steps: seq<Step>)
    requires QueueOk(q)
    ensures QueueOk(Run(q, steps)) && Run(q, steps).served <= Run(q, steps).accepted
    decreases |steps|
  {
    if steps == [] {
      assert q.served + Flying(q) + q.waiting == q.served + (Flying(q) + q.waiting);
    } else {
      ApplyKeeps(q, steps[0]);
      RunKeeps(Apply(q, steps[0]), steps[1..]);
    }
  }

  /**
   Of the offers exactly the live ones with an id are taken that are neither queued nor running,
   each once, behind whoever waits.
  */
  lemma {:induction false} OffersAreTaken(q: Queue, offers: seq<Offer>)
    ensures var after := AcceptAll(q, offers);
            && |after.accepted| >= |q.accepted| && after.accepted[..|q.accepted|] == q.accepted
            && var taken := after.accepted[|q.accepted|..];
            && after.waiting == q.waiting + taken && NoDuplicates(taken)
            && (forall id :: id in taken <==> Offer(Some(id), true) in offers && id !in q.queuedIds)
            && (forall id :: id in after.queuedIds <==> id in q.queuedIds || id in taken)
  {
    if offers == [] {
      assert q.waiting + [] == q.waiting;
    } else {
      var front, last := offers[..|offers| - 1], offers[|offers| - 1];
      OffersAreTaken(q, front);
      assert offers == front + [last];
      var before, after := AcceptAll(q, front), AcceptAll(q, offers);
      var taken := before.accepted[|q.accepted|..];
      if Accepts(before, last) {
        assert after.accepted[|q.accepted|..] == taken + [last.id.value];
        assert last == Offer(Some(last.id.value), true);
      }
    }
  }

  /** After a stop nothing more is accepted or started until the queue is reopened; only what runs is finished. */
  lemma {:induction false} StopStartsNothing(q: Queue, steps: seq<Step>)
    requires QueueOk(q) && q.stopping && forall i :: 0 <= i < |steps| ==> steps[i] != DoConfigure
    ensures var after := Run(q, steps);
            && after.accepted == q.accepted && after.waiting == q.waiting
            && (after.served == q.served || after.served == q.served + Flying(q))
            && (after.inFlight == q.inFlight || after.inFlight.None?)
    decreases |steps|
  {
    if steps != [] {
      ApplyKeeps(q, steps[0]);
      StopStartsNothing(Apply(q, steps[0]), steps[1..]);
    }
  }

  /** A stop shuts the queue, and like any wait joins the waiters unless nothing runs and nothing waits. */
  lemma WaitersAreCounted(q: Queue)
    ensures Apply(q, DoStop).stopping
    ensures var more := if q.processing || q.waiting != [] then 1 else 0;
            && Apply(q, DoStop) == q.(stopping := true, waiters := q.waiters + more)
            && Apply(q, DoWait) == q.(waiters := q.waiters + more)
  {
  }

  lemma FreshIsOk()
    ensures QueueOk(Fresh) && Pumped(Fresh)
  {
  }

  // ----- is somebody serving? -----

  /** While the queue is open and something waits, the pump is at work. */
  predicate Pumped(q: Queue) {
    q.waiting != [] && !q.stopping ==> q.processing
  }

  /** Left over from a stop: something waits and nothing runs. */
  predicate Stranded(q: Queue) {
    q.waiting != [] && !q.processing
  }

  /**
   Every step keeps the pump at work but one: reopening a queue that a stop left with
   signals in it. Those are served only after another signal is accepted.
  */
  lemma PumpStaysAtWork(q: Queue, step: Step)
    requires QueueOk(q) && Pumped(q)
    ensures Pumped(Apply(q, step)) <==> !(step.DoConfigure? && Stranded(q))
  {
    match step
    case DoEnqueue(offers) => AcceptAllKeeps(q, offers);
    case DoFinish =>
    case DoWait =>
    case DoStop =>
    case DoConfigure =>
  }

  /** The next accepted signal starts the pump on whoever waited longest. */
  lemma AcceptanceRestarts(q: Queue, offers: seq<Offer>)
    requires QueueOk(q) && !q.stopping && AcceptAll(q, offers).accepted != q.accepted
    ensures Pumped(Enqueue(q, offers))
    ensures Stranded(q) ==> Enqueue(q, offers).inFlight == Some(q.waiting[0])
  {
    AcceptAllKeeps(q, offers);
    if Stranded(q) {
      var filled := AcceptAll(q, offers);
      assert q.served + [] + q.waiting == q.accepted;
      assert filled.served + [] + filled.waiting == filled.accepted;
      assert filled.accepted[|q.served|] == q.accepted[|q.served|];
    }
  }

  /** Waiting for idleness on a stopped, stranded queue never ends while it stays stopped. */
  lemma {:induction false} StrandedWaiterWaits(q: Queue, steps: seq<Step>)
    requires QueueOk(q) && Stranded(q) && q.stopping && q.waiters > 0
    requires forall i :: 0 <= i < |steps| ==> !steps[i].DoConfigure?
    ensures Run(q, steps).waiters >= q.waiters
    decreases |steps|
  {
    if steps != [] { StrandedWaiterWaits(Apply(q, steps[0]), steps[1..]); }
  }
}

/** The queue object; each method runs up to its next await. */
module LiveQueueObject {
  import opened Wrappers
  import opened LiveQueueModel

  class LiveExecutionQueue {
    var waiting: seq<SignalId>
    var queuedIds: set<SignalId>
    var inFlight: Option<SignalId>
    var processing: bool
    var stopping: bool
    var waiters: nat
    ghost var accepted: seq<SignalId>
    ghost var served: seq<SignalId>

    ghost function State(): Queue
      reads this
    {
      Queue(waiting, queuedIds, inFlight, processing, stopping, waiters, accepted, served)
    }

    constructor ()
      ensures State() == Fresh && QueueOk(State())
    {
      waiting, queuedIds, inFlight, processing, stopping, waiters := [], {}, None, false, false, 0;
      accepted, served := [], [];
      new;
      FreshIsOk();
    }

    method TakeNext()
      modifies this
      ensures State() == LiveQueueModel.TakeNext(old(State()))
    {
      if !stopping && waiting != [] {
        inFlight := Some(waiting[0]);
        waiting := waiting[1..];
      } else {
        processing := false;
        waiters := 0;
      }
    }

    method Pump()
      modifies this
      ensures State() == LiveQueueModel.Pump(old(State()))
    {
      if processing || stopping { return; }
      processing := true;
      TakeNext();
    }

    method Enqueue(offers: seq<Offer>) returns (added: nat)
      requires QueueOk(State())
      modifies this
      ensures QueueOk(State()) && State() == LiveQueueModel.Enqueue(old(State()), offers)
      ensures added == |accepted| - |old(accepted)|
    {
      ApplyKeeps(State(), DoEnqueue(offers));
      added := 0;
      if stopping { return; }
      hide QueueOk;
      for i := 0 to |offers|
        invariant State() == AcceptAll(old(State()), offers[..i]) && added == |accepted| - |old(accepted)|
      {
        assert offers[..i + 1][..i] == offers[..i];
        var offer := offers[i];
        if offer.id.Some? && offer.id.value !in queuedIds && offer.live {
          queuedIds := queuedIds + {offer.id.value};
          waiting := waiting + [offer.id.value];
          accepted := accepted + [offer.id.value];
          added := added + 1;
        }
      }
      assert offers[..|offers|] == offers;
      if added > 0 { Pump(); }
    }

    /** The awaited execution of the in-flight signal came back, and the pump goes on. */
    method Finish()
      requires QueueOk(State())
      modifies this
      ensures QueueOk(State()) && State() == LiveQueueModel.Finish(old(State()))
    {
      FinishKeeps(State());
      if inFlight.None? { return; }
      served := served + [inFlight.value];
      queuedIds := queuedIds - {inFlight.value};
      inFlight := None;
      TakeNext();
    }

    method WaitForIdle() returns (resolved: bool)
      requires QueueOk(State())
      modifies this
      ensures QueueOk(State()) && State() == Wait(old(State()))
      ensures resolved == (!old(processing) && old(waiting) == [])
    {
      resolved := !processing && waiting == [];
      if !resolved { waiters := waiters + 1; }
    }

    method Stop() returns (resolved: bool)
      requires QueueOk(State())
      modifies this
      ensures QueueOk(State()) && State() == LiveQueueModel.Stop(old(State()))
    {
      stopping := true;
      resolved := WaitForIdle();
    }

    method Configure()
      requires QueueOk(State())
      modifies this
      ensures QueueOk(State()) && State() == LiveQueueModel.Configure(old(State()))
    {
      stopping := false;
    }
  }
}
