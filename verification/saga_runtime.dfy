/**
 What the trade sagas share: the classification of write errors, the weights of the
 reserved rate lease, and one execution's record of every outside call and its outcome.
*/
module SagaRuntime {
  import opened Text
  import opened Wrappers

  /** `transport` says the message speaks of a timeout, the network, a socket or JSON. */
  datatype Error = Error(status: Option<int>, code: string, transport: bool)

  datatype Kind = Blocked | Rejected | Uncertain

  const UNCERTAIN_CODES := {
    "ABORT_ERR", "ECONNABORTED", "ECONNRESET", "ETIMEDOUT", "GMGN_INVALID_JSON", "GMGN_ORDER_ID_MISSING",
    "GMGN_RESPONSE_INVALID", "GMGN_SUBMISSION_UNCERTAIN"}

  const DEFINITIVE_REJECTION_STATUSES := {
    400, 401, 402, 403, 404, 405, 406, 410, 411, 412, 413, 414, 415, 416, 417, 422}

  predicate RateLimited(e: Error) {
    e.status == Some(429) || Contains(e.code, "RATE_LIMIT")
  }

  function Classify(e: Error, writeStarted: bool): Kind {
    if RateLimited(e) then Blocked
    else if e.status.Some? && e.status.value in DEFINITIVE_REJECTION_STATUSES then Rejected
    else if writeStarted && (|| e.status.None?
                             || 400 <= e.status.value < 500
                             || e.status.value >= 500
                             || e.code in UNCERTAIN_CODES
                             || e.transport)
    then Uncertain
    else Rejected
  }

  predicate Definitive(e: Error) {
    Classify(e, true) == Rejected
  }

  /** The provider answered, and its answer neither limits the rate nor leaves the write open. */
  predicate Answered(e: Error) {
    && e.status.Some?
    && (|| (400 <= e.status.value <= 417 && e.status.value !in {407, 408, 409})
        || e.status.value == 422
        || (e.status.value < 400 && e.code !in UNCERTAIN_CODES && !e.transport))
  }

  /**
   A started write counts as rejected exactly when the provider answered so; an error
   before the write is never uncertain.
  */
  lemma RejectionNeedsAnAnswer(e: Error)
    ensures Definitive(e) <==> Answered(e) && !RateLimited(e)
    ensures Classify(e, false) != Uncertain
    ensures Classify(e, true) == Blocked <==> e.status == Some(429) || Contains(e.code, "RATE_LIMIT")
  {
    hide Contains;
  }

  // ----- steps and their record -----

  const QUOTE_WEIGHT := 2
  const SWAP_WEIGHT := 5
  const TRADE_WEIGHT := 7

  type GroupId = nat

  datatype Step =
    | CheckMode | CheckGate | Readiness | ConsumeToken | CheckToken | LoadConfig | CheckRetry | ReserveTrade
    | LoadContext | Sign | Consume(weight: nat) | SendQuote | CaptureEvidence | FinishPrepare
    | CheckTarget | CheckSnapshot | EvaluatePolicy | CheckRisk | CheckPrincipal
    | CreateAttempt | CaptureSnapshot | SaveSnapshot | BuildSwap | BeginSubmission | SignSwap | SendSwap
    | ParseOrder | RecordOrder | RecordTiming | SettleLane | WakeReconciliation
    | LoadPosition | CheckPosition | LoadBalance | SelectAmount | QueryStrategy(group: GroupId)
    | LoadGas | BeginPreparing | BeginSubmitting | AcquireLane
    | MarkCancelling(group: GroupId) | CancelOrder(group: GroupId) | VerifyCancel(group: GroupId)
    | MarkCancelled(group: GroupId) | ReleaseVerified | ReleaseCancelRejected | RestoreRunning(group: GroupId)
    | QuarantineCancel
    | ReleaseLease | MarkUncertain | Quarantine | ReleaseLane | RejectAttempt

  datatype Status =
    | StPending | StRunning | StPartial | StTriggered | StCancelling | StUnknown | StCancelled | StFailed | StExpired

  /** What the provider reports of one strategy. */
  datatype View = View(status: Status, closeTx: bool)

  datatype Event =
    | Ok(step: Step)
    | Threw(step: Step, error: Error)
    | MergedIntent
    | Saw(group: GroupId, state: Status)
    | Heard(group: GroupId, confirmed: bool)
    | Late(group: GroupId)
    | Checked(group: GroupId, view: Option<View>)

  datatype Lease = NoLease | Open(left: nat) | Closed

  predicate CanConsume(lease: Lease, weight: nat) {
    lease.Open? && 0 < weight <= lease.left
  }

  function LeaseStep(lease: Lease, e: Event): Lease {
    match e
    case Ok(ReserveTrade) => Open(TRADE_WEIGHT)
    case Ok(Consume(w)) =>
      if !CanConsume(lease, w) then lease else if lease.left == w then Closed else Open(lease.left - w)
    case Ok(ReleaseLease) => if lease.Open? then Closed else lease
    case _ => lease
  }

  function LeaseAfter(log: seq<Event>): Lease {
    if log == [] then NoLease else LeaseStep(LeaseAfter(log[..|log| - 1]), log[|log| - 1])
  }

  lemma LeaseAfterOne(log: seq<Event>, e: Event)
    ensures LeaseAfter(log + [e]) == LeaseStep(LeaseAfter(log), e)
  {
    assert (log + [e])[..|log|] == log;
  }

  /** The reservation refuses exactly what it cannot cover. */
  ghost predicate Accounted(log: seq<Event>) {
    forall i :: 0 <= i < |log| ==>
      && (log[i].Ok? && log[i].step.Consume? ==> CanConsume(LeaseAfter(log[..i]), log[i].step.weight))
      && (log[i].Threw? && log[i].step.Consume? ==> !CanConsume(LeaseAfter(log[..i]), log[i].step.weight))
  }

  lemma AccountedOne(log: seq<Event>, e: Event)
    requires Accounted(log)
    requires e.Ok? && e.step.Consume? ==> CanConsume(LeaseAfter(log), e.step.weight)
    requires e.Threw? && e.step.Consume? ==> !CanConsume(LeaseAfter(log), e.step.weight)
    ensures Accounted(log + [e])
  {
    forall i | 0 <= i < |log| ensures (log + [e])[..i] == log[..i] {
    }
    assert (log + [e])[..|log|] == log;
  }

  const RESERVATION_INVALID := Error(None, "GMGN_RATE_RESERVATION_INVALID", false)
  const STATE_CHANGED := Error(None, "TRADE_ATTEMPT_CAS_FAILED", false)

  /** Any outside call may throw anything. */
  method Outside() returns (error: Option<Error>)
  {
    error := *;
  }

  class Execution {
    var log: seq<Event>
    var lease: Lease
    var recorded: bool

    ghost predicate Valid()
      reads this
    {
      lease == LeaseAfter(log) && recorded == (Ok(RecordOrder) in log) && Accounted(log)
    }

    constructor ()
      ensures Valid() && log == []
    {
      log, lease, recorded := [], NoLease, false;
    }

    /** Records something observed. */
    method Note(e: Event)
      requires Valid() && !e.Ok? && !e.Threw?
      modifies this
      ensures Valid() && log == old(log) + [e] && lease == old(lease) && recorded == old(recorded)
    {
      LeaseAfterOne(log, e);
      AccountedOne(log, e);
      log := log + [e];
    }

    /**
     Makes one call. The lease decides what it covers, releasing it never fails, and an
     attempt whose order is recorded is no longer in a state that can be marked uncertain.
    */
    method Do(step: Step) returns (r: Result<(), Error>)
      requires Valid()
      modifies this
      ensures Valid() && log == old(log) + [if r.Success? then Ok(step) else Threw(step, r.error)]
      ensures step.Consume? ==> (r.Success? <==> CanConsume(old(lease), step.weight))
      ensures step == ReleaseLease ==> r.Success?
      ensures step == MarkUncertain && old(recorded) ==> r.Failure?
      ensures recorded == (old(recorded) || (step == RecordOrder && r.Success?))
      ensures r.Success? ==> lease == LeaseStep(old(lease), Ok(step))
      ensures r.Failure? ==> lease == old(lease)
    {
      var thrown := Outside();
      thrown := Verdict(step, lease, recorded, thrown);
      var e := if thrown.None? then Ok(step) else Threw(step, thrown.value);
      LeaseAfterOne(log, e);
      AccountedOne(log, e);
      assert LeaseStep(lease, e) == if thrown.None? then LeaseStep(lease, Ok(step)) else lease;
      hide Accounted, LeaseAfter, LeaseStep, Verdict, CanConsume;
      log := log + [e];
      recorded := recorded || e == Ok(RecordOrder);
      lease := LeaseStep(lease, e);
      r := if thrown.None? then Success(()) else Failure(thrown.value);
    }
  }

  /** What a call throws, given what the outside would throw. */
  function Verdict(step: Step, lease: Lease, recorded: bool, thrown: Option<Error>): Option<Error> {
    match step
    case Consume(w) => if CanConsume(lease, w) then None else Some(RESERVATION_INVALID)
    case ReleaseLease => None
    case MarkUncertain => if recorded && thrown.None? then Some(STATE_CHANGED) else thrown
    case _ => thrown
  }
}
