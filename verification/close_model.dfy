/**
 Closing a live position, as a function of the outcomes of its calls. The record lists
 every outcome in order; `PhaseAfter` says where the saga stands after a record, and a record
 the saga cannot leave ends `Stuck`. Any call may have any outcome, but the rate lease decides
 what it covers and an attempt whose order is recorded cannot be marked uncertain.
*/
module CloseModel {
  import opened Wrappers
  import opened SagaRuntime

  datatype Group = Group(id: GroupId, stored: Status, hasOrder: bool)

  predicate Active(status: Status) {
    status == StPending || status == StRunning || status == StPartial
  }

  predicate Unsafe(status: Status) {
    status == StTriggered || status == StCancelling || status == StUnknown
  }

  /** Over without having sold anything. */
  predicate Harmless(status: Status) {
    status == StCancelled || status == StFailed || status == StExpired
  }

  predicate Relevant(g: Group) {
    Active(g.stored) || Unsafe(g.stored)
  }

  /** The stored groups that might still act, in order. */
  function RelevantOf(groups: seq<Group>): (r: seq<Group>)
    ensures forall g :: g in r <==> g in groups && Relevant(g)
  {
    if groups == [] then []
    else RelevantOf(groups[..|groups| - 1]) + if Relevant(groups[|groups| - 1]) then [groups[|groups| - 1]] else []
  }

  predicate AnyUnsafe(states: seq<Status>) {
    exists i :: 0 <= i < |states| && Unsafe(states[i])
  }

  /** The groups whose state is active. */
  function Cancellable(groups: seq<Group>, states: seq<Status>): (r: seq<Group>)
    requires |states| <= |groups|
    ensures forall i :: 0 <= i < |states| && Active(states[i]) ==> groups[i] in r
    ensures forall g :: g in r ==> exists i :: 0 <= i < |states| && groups[i] == g && Active(states[i])
  {
    if states == [] then []
    else
      var last := |states| - 1;
      Cancellable(groups, states[..last]) + if Active(states[last]) then [groups[last]] else []
  }

  const TRIGGERED := "STRATEGY_TRIGGERED_DURING_CANCEL"
  const CANCEL_UNCERTAIN := "STRATEGY_CANCEL_UNCERTAIN"
  const CANCEL_UNVERIFIED := "STRATEGY_CANCEL_UNVERIFIED"

  predicate CancelCode(code: string) {
    code == TRIGGERED || code == CANCEL_UNCERTAIN || code == CANCEL_UNVERIFIED
  }

  const VERIFIED := View(StCancelled, false)
  const CANCEL_VERIFY_DELAYS_MS: seq<nat> := [0, 1000, 2000, 5000, 5000, 5000, 5000, 5000]
  const STATE_UNSAFE := Error(None, "STRATEGY_STATE_UNSAFE", false)

  function CancellationFailureCode(confirmed: bool, seen: Option<View>): Option<string> {
    if seen == Some(VERIFIED) then None
    else if seen.Some? && (seen.value.status == StTriggered || seen.value.closeTx) then Some(TRIGGERED)
    else if seen.None? && !confirmed then Some(CANCEL_UNCERTAIN)
    else Some(CANCEL_UNVERIFIED)
  }

  function CancellationError(code: string): Error {
    Error(None, code, false)
  }

  /** The error after the last poll; its code is whatever the failure code is, even none. */
  function GiveUpError(confirmed: bool, last: Option<View>): Error {
    CancellationError(match CancellationFailureCode(confirmed, last) case Some(code) => code case None => "")
  }

  function NormalizeCancellationWriteError(e: Error): Error {
    if Definitive(e) then e else CancellationError(CANCEL_UNCERTAIN)
  }

  // ----- where a close stands -----

  /** One close: the position's stored strategies, whether it has a deadline, and whether the worker retries it. */
  datatype Plan = Plan(groups: seq<Group>, timed: bool, retry: bool)

  /**
   `todo` and `rest` are strategies still to cancel and `g` is the one being cancelled. In the
   catch block `at` is the phase in which the error arose and `cause` is that error.
  */
  datatype Phase =
    | Opening(i: nat)
    | Loading(i: nat)
    | Asking(states: seq<Status>)
    | Told(states: seq<Status>)
    | Quoting(i: nat, todo: seq<Group>)
    | CheckingSnapshot(todo: seq<Group>)
    | Creating(todo: seq<Group>)
    | Merging
    | Beginning(todo: seq<Group>)
    | Cancelling(i: nat, g: Group, rest: seq<Group>)
    | Hearing(g: Group, rest: seq<Group>)
    | Polling(n: nat, confirmed: bool, last: Option<View>, g: Group, rest: seq<Group>)
    | Viewing(n: nat, confirmed: bool, last: Option<View>, g: Group, rest: seq<Group>)
    | Confirming(i: nat, g: Group, rest: seq<Group>)
    | Refusing(i: nat, refusal: Error, g: Group)
    | Doubting(doubt: Error, g: Group)
    | Arming(i: nat)
    | Selling(i: nat)
    | Catching(at: Phase, cause: Error)
    | Cleaning(at: Phase, cause: Error, second: bool)
    | Over(ending: CloseEnding)
    | Stuck

  /** `thrown` is the error that leaves the saga. */
  datatype CloseEnding =
    | NeverReserved(error: Error)
    | Sold
    | ExistingIntent
    | Broken(at: Phase, cause: Error, thrown: Error)

  const OPENING: seq<Step> := [CheckMode, ConsumeToken, CheckToken, ReserveTrade]
  const REOPENING: seq<Step> := [CheckMode, LoadConfig, CheckRetry, ReserveTrade]
  const LOADING: seq<Step> := [LoadPosition, CheckPosition, LoadBalance, SelectAmount]
  const QUOTING: seq<Step> := [Sign, Consume(QUOTE_WEIGHT), SendQuote, LoadGas, FinishPrepare]
  const ARMING: seq<Step> := [CaptureSnapshot, SaveSnapshot, BuildSwap, AcquireLane, BeginSubmitting]
  const SELLING: seq<Step> := [SignSwap, Consume(SWAP_WEIGHT), SendSwap, ParseOrder, RecordOrder, SettleLane]

  function StepAt(steps: seq<Step>, i: nat): Option<Step> {
    if i < |steps| then Some(steps[i]) else None
  }

  /** The attempt exists. */
  predicate Attempted(p: Phase) {
    match p
    case Beginning(_) => true
    case Cancelling(_, _, _) => true
    case Hearing(_, _) => true
    case Polling(_, _, _, _, _) => true
    case Viewing(_, _, _, _, _) => true
    case Confirming(_, _, _) => true
    case Refusing(_, _, _) => true
    case Doubting(_, _) => true
    case Arming(_) => true
    case Selling(_) => true
    case Catching(at, _) => Attempted(at)
    case Cleaning(at, _, _) => Attempted(at)
    case Over(ending) => ending.Sold? || (ending.Broken? && Attempted(ending.at))
    case _ => false
  }

  /** The attempt has been moved to submitting. */
  predicate SwapStarted(p: Phase) {
    match p
    case Selling(_) => true
    case Catching(at, _) => SwapStarted(at)
    case Cleaning(at, _, _) => SwapStarted(at)
    case Over(ending) => ending.Sold? || (ending.Broken? && SwapStarted(ending.at))
    case _ => false
  }

  predicate OrderRecorded(p: Phase) {
    match p
    case Selling(i) => i > 4
    case Catching(at, _) => OrderRecorded(at)
    case Cleaning(at, _, _) => OrderRecorded(at)
    case Over(ending) => ending.Sold? || (ending.Broken? && OrderRecorded(ending.at))
    case _ => false
  }

  /** The catch block's choice for an attempt that exists. */
  predicate Quarantines(at: Phase, cause: Error) {
    (SwapStarted(at) && Classify(cause, SwapStarted(at)) == Uncertain) || CancelCode(cause.code)
  }

  /** The call that the saga awaits. */
  function Next(plan: Plan, p: Phase): Option<Step> {
    match p
    case Opening(i) => StepAt(if plan.retry then REOPENING else OPENING, i)
    case Loading(i) => StepAt(LOADING, i)
    case Asking(states) =>
      var groups := RelevantOf(plan.groups);
      if |states| < |groups| && groups[|states|].hasOrder then Some(QueryStrategy(groups[|states|].id)) else None
    case Quoting(i, _) => StepAt(QUOTING, i)
    case CheckingSnapshot(_) => Some(CheckSnapshot)
    case Creating(_) => Some(CreateAttempt)
    case Merging => Some(ReleaseLease)
    case Beginning(_) => Some(BeginPreparing)
    case Cancelling(i, g, _) => StepAt([AcquireLane, MarkCancelling(g.id), CancelOrder(g.id)], i)
    case Polling(_, _, _, g, _) => Some(VerifyCancel(g.id))
    case Confirming(i, g, _) => StepAt([MarkCancelled(g.id), ReleaseVerified], i)
    case Refusing(i, _, g) => StepAt([ReleaseCancelRejected, RestoreRunning(g.id)], i)
    case Doubting(_, _) => Some(QuarantineCancel)
    case Arming(i) => StepAt(ARMING, i)
    case Selling(i) => StepAt(SELLING, i)
    case Catching(_, _) => Some(ReleaseLease)
    case Cleaning(at, cause, second) =>
      Some(if Quarantines(at, cause) then (if second then Quarantine else MarkUncertain)
           else if second then RejectAttempt else ReleaseLane)
    case _ => None
  }

  /** After these states: the next group, the refusal of an unsafe one, or the quote. */
  function AskFrom(plan: Plan, states: seq<Status>): Phase {
    var groups := RelevantOf(plan.groups);
    if |states| < |groups| then Asking(states)
    else if AnyUnsafe(states) || |states| > |groups| then Catching(Asking(states), STATE_UNSAFE)
    else Quoting(0, Cancellable(groups, states))
  }

  function CancelFrom(todo: seq<Group>): Phase {
    if todo == [] then Arming(0) else Cancelling(0, todo[0], todo[1..])
  }

  function GiveUp(n: nat, confirmed: bool, last: Option<View>, g: Group, rest: seq<Group>): Phase {
    Catching(Polling(n, confirmed, last, g, rest), GiveUpError(confirmed, last))
  }

  function PollFrom(n: nat, confirmed: bool, last: Option<View>, g: Group, rest: seq<Group>): Phase {
    if n < |CANCEL_VERIFY_DELAYS_MS| then Polling(n, confirmed, last, g, rest) else GiveUp(n, confirmed, last, g, rest)
  }

  function OnOk(plan: Plan, p: Phase): Phase {
    match p
    case Opening(i) => if i < 3 then Opening(i + 1) else Loading(0)
    case Loading(i) => if i < 3 then Loading(i + 1) else AskFrom(plan, [])
    case Asking(states) => Told(states)
    case Quoting(i, todo) =>
      if i < 4 then Quoting(i + 1, todo) else if plan.retry then Creating(todo) else CheckingSnapshot(todo)
    case CheckingSnapshot(todo) => Creating(todo)
    case Creating(todo) => Beginning(todo)
    case Merging => Over(ExistingIntent)
    case Beginning(todo) => CancelFrom(todo)
    case Cancelling(i, g, rest) => if i < 2 then Cancelling(i + 1, g, rest) else Hearing(g, rest)
    case Polling(n, confirmed, last, g, rest) => Viewing(n, confirmed, last, g, rest)
    case Confirming(i, g, rest) => if i < 1 then Confirming(i + 1, g, rest) else CancelFrom(rest)
    case Refusing(i, e, g) => if i < 1 then Refusing(i + 1, e, g) else Catching(p, e)
    case Doubting(e, _) => Catching(p, CancellationError(CANCEL_UNCERTAIN))
    case Arming(i) => if i < 4 then Arming(i + 1) else Selling(0)
    case Selling(i) => if i < 5 then Selling(i + 1) else Over(Sold)
    case Catching(at, cause) => if Attempted(at) then Cleaning(at, cause, false) else Over(Broken(at, cause, cause))
    case Cleaning(at, cause, second) => if second then Over(Broken(at, cause, cause)) else Cleaning(at, cause, true)
    case _ => Stuck
  }

  function OnThrow(plan: Plan, p: Phase, e: Error): Phase {
    match p
    case Opening(_) => Over(NeverReserved(e))
    case Cancelling(i, g, rest) =>
      if i < 2 then Catching(p, e) else if Definitive(e) then Refusing(0, e, g) else Doubting(e, g)
    case Polling(n, confirmed, last, g, rest) =>
      if e.code == TRIGGERED then Catching(p, e) else PollFrom(n + 1, confirmed, last, g, rest)
    case Cleaning(at, cause, _) => Over(Broken(at, cause, e))
    case _ => Catching(p, e)
  }

  /** What is observed without a call: states, answers, the deadline, an intent already there. */
  function OnSeen(plan: Plan, p: Phase, e: Event): Phase {
    match (p, e)
    case (Asking(states), Saw(id, status)) =>
      var groups := RelevantOf(plan.groups);
      if |states| < |groups| && !groups[|states|].hasOrder && id == groups[|states|].id && status == StUnknown
      then AskFrom(plan, states + [status]) else Stuck
    case (Told(states), Saw(id, status)) =>
      var groups := RelevantOf(plan.groups);
      if |states| < |groups| && id == groups[|states|].id then AskFrom(plan, states + [status]) else Stuck
    case (Creating(_), MergedIntent) => if plan.retry then Stuck else Merging
    case (Hearing(g, rest), Heard(id, confirmed)) => if id == g.id then PollFrom(0, confirmed, None, g, rest) else Stuck
    case (Polling(n, confirmed, last, g, rest), Late(id)) =>
      if id == g.id && plan.timed then GiveUp(n, confirmed, last, g, rest) else Stuck
    case (Viewing(n, confirmed, last, g, rest), Checked(id, view)) =>
      var code := CancellationFailureCode(confirmed, view);
      if id != g.id then Stuck
      else if code.None? then Confirming(0, g, rest)
      else if code.value == TRIGGERED then Catching(p, CancellationError(TRIGGERED))
      else PollFrom(n + 1, confirmed, view, g, rest)
    case _ => Stuck
  }

  /** Neither what the lease covers nor its release can throw. */
  predicate MayThrow(step: Step) {
    !step.Consume? && step != ReleaseLease
  }

  predicate MaySucceed(p: Phase) {
    !(p.Cleaning? && !p.second && Quarantines(p.at, p.cause) && OrderRecorded(p.at))
  }

  function Advance(plan: Plan, p: Phase, e: Event): Phase {
    match e
    case Ok(step) => if Next(plan, p) == Some(step) && MaySucceed(p) then OnOk(plan, p) else Stuck
    case Threw(step, error) => if Next(plan, p) == Some(step) && MayThrow(step) then OnThrow(plan, p, error) else Stuck
    case _ => OnSeen(plan, p, e)
  }

  function PhaseAfter(plan: Plan, log: seq<Event>): Phase {
    if log == [] then Opening(0) else Advance(plan, PhaseAfter(plan, log[..|log| - 1]), log[|log| - 1])
  }

  lemma PhaseAfterOne(plan: Plan, log: seq<Event>, e: Event)
    ensures PhaseAfter(plan, log + [e]) == Advance(plan, PhaseAfter(plan, log), e)
  {
    assert (log + [e])[..|log|] == log;
  }

  /** A record that the saga can leave, finished or not. */
  predicate Possible(plan: Plan, log: seq<Event>) {
    PhaseAfter(plan, log) != Stuck
  }
}
