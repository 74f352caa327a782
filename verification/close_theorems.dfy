/**
 What every record of a close guarantees: strategies are out of the way before the one sell
 leaves, the lease closes, and the lane is freed only over writes that are settled, with the
 exact condition under which an open cancel loses it.
*/
module CloseTheorems {
  import opened Wrappers
  import opened SagaRuntime
  import opened BuySagas
  import opened CloseModel

  // ----- phases that can be reached -----

  /** A phase of the try block, under the reservation. */
  predicate InTry(p: Phase) {
    !(p.Opening? || p.Merging? || p.Catching? || p.Cleaning? || p.Over? || p.Stuck?)
  }

  /** What is known of a phase without its record. */
  predicate Proper(p: Phase) {
    match p
    case Opening(i) => i <= 3
    case Polling(_, _, last, _, _) => last != Some(VERIFIED)
    case Viewing(_, _, last, _, _) => last != Some(VERIFIED)
    case Doubting(doubt, _) => !Definitive(doubt)
    case Catching(at, cause) => InTry(at) && (at.Doubting? ==> !Definitive(at.doubt)) && GaveUpByCode(at, cause)
    case Cleaning(at, cause, _) => InTry(at) && (at.Doubting? ==> !Definitive(at.doubt)) && GaveUpByCode(at, cause)
    case Over(Broken(at, cause, _)) => InTry(at) && (at.Doubting? ==> !Definitive(at.doubt)) && GaveUpByCode(at, cause)
    case _ => true
  }

  /** Waiting for a cancellation ends in one of its three codes, never in none. */
  predicate GaveUpByCode(at: Phase, cause: Error) {
    at.Polling? || at.Viewing? ==> CancelCode(cause.code)
  }

  lemma ProperStep(plan: Plan, p: Phase, e: Event)
    requires Proper(p) && Advance(plan, p, e) != Stuck
    ensures Proper(Advance(plan, p, e))
  {
    hide Definitive, RelevantOf, Cancellable, AnyUnsafe, Quarantines;
  }

  lemma {:induction false} ProperAlways(plan: Plan, log: seq<Event>)
    requires Possible(plan, log)
    ensures Proper(PhaseAfter(plan, log))
  {
    if log != [] {
      ProperAlways(plan, log[..|log| - 1]);
      ProperStep(plan, PhaseAfter(plan, log[..|log| - 1]), log[|log| - 1]);
    }
  }

  /** The phase of a record is the start, or one step from the phase before its last event. */
  lemma Unfold(plan: Plan, log: seq<Event>)
    requires Possible(plan, log)
    ensures log == [] ==> PhaseAfter(plan, log) == Opening(0)
    ensures log != [] ==>
              var front, last := log[..|log| - 1], log[|log| - 1];
              && Possible(plan, front) && Proper(PhaseAfter(plan, front)) && log == front + [last]
              && PhaseAfter(plan, log) == Advance(plan, PhaseAfter(plan, front), last)
  {
    if log != [] { ProperAlways(plan, log[..|log| - 1]); }
    hide Proper, Advance;
  }

  lemma NextGoesOn(plan: Plan, p: Phase, e: Error)
    requires Next(plan, p).Some?
    ensures OnOk(plan, p) != Stuck && OnThrow(plan, p, e) != Stuck
  {
    hide Definitive, RelevantOf, Cancellable, AnyUnsafe, Quarantines, GiveUpError, Attempted;
  }

  /** Every outcome of the awaited call has a place in the record. */
  lemma EveryOutcomeIsTaken(plan: Plan, log: seq<Event>, step: Step, e: Error)
    requires Possible(plan, log) && Next(plan, PhaseAfter(plan, log)) == Some(step)
    ensures MaySucceed(PhaseAfter(plan, log)) ==> Possible(plan, log + [Ok(step)])
    ensures MayThrow(step) ==> Possible(plan, log + [Threw(step, e)])
  {
    PhaseAfterOne(plan, log, Ok(step));
    PhaseAfterOne(plan, log, Threw(step, e));
    NextGoesOn(plan, PhaseAfter(plan, log), e);
    hide Next, OnOk, OnThrow, PhaseAfter, MaySucceed, MayThrow;
  }

  /** Which phase awaits each of the calls that matter. */
  lemma Awaited(plan: Plan, p: Phase, step: Step)
    requires Next(plan, p) == Some(step) && (p.Opening? ==> p.i <= 3)
    ensures step.Consume? <==> (p.Quoting? || p.Selling?) && p.i == 1
    ensures step.Consume? ==> step.weight == if p.Quoting? then QUOTE_WEIGHT else SWAP_WEIGHT
    ensures step == ReserveTrade <==> p == Opening(3)
    ensures step == ReleaseLease <==> p.Merging? || p.Catching?
    ensures step == CreateAttempt <==> p.Creating?
    ensures step == BeginSubmitting <==> p == Arming(4)
    ensures step == RecordOrder <==> p == Selling(4)
    ensures step == SendSwap <==> p == Selling(2)
    ensures (p.Quoting? || p.Arming? ==> p.i <= 4) && (p.Loading? ==> p.i <= 3) && (p.Selling? ==> p.i <= 5)
    ensures p.Cancelling? ==> p.i <= 2
  {
    hide Quarantines, RelevantOf;
  }

  // ----- the lease -----

  /** The lease in a phase of the try block. */
  function TryLease(p: Phase): Lease {
    match p
    case Loading(_) => Open(TRADE_WEIGHT)
    case Asking(_) => Open(TRADE_WEIGHT)
    case Told(_) => Open(TRADE_WEIGHT)
    case Quoting(i, _) => Open(if i < 2 then TRADE_WEIGHT else SWAP_WEIGHT)
    case Selling(i) => if i < 2 then Open(SWAP_WEIGHT) else Closed
    case _ => Open(SWAP_WEIGHT)
  }

  function LeaseOf(p: Phase): Lease {
    match p
    case Opening(_) => NoLease
    case Catching(at, _) => TryLease(at)
    case Cleaning(_, _, _) => Closed
    case Over(ending) => if ending.NeverReserved? then NoLease else Closed
    case _ => TryLease(p)
  }

  predicate BeforeQuote(p: Phase) {
    p.Opening? || p.Loading? || p.Asking? || p.Quoting?
  }

  lemma LeaseBeforeQuote(plan: Plan, p: Phase, step: Step)
    requires Next(plan, p) == Some(step) && BeforeQuote(p) && (p.Opening? ==> p.i <= 3)
    requires !step.Consume? && step != ReserveTrade
    ensures LeaseOf(OnOk(plan, p)) == LeaseOf(p)
  {
    Awaited(plan, p, step);
    hide Next, RelevantOf, Cancellable, AnyUnsafe, Attempted, CancelFrom;
  }

  lemma LeaseAfterQuote(plan: Plan, p: Phase, step: Step)
    requires Next(plan, p) == Some(step) && !BeforeQuote(p) && !step.Consume? && step != ReleaseLease
    ensures LeaseOf(OnOk(plan, p)) == LeaseOf(p)
  {
    Awaited(plan, p, step);
    if p.Beginning? { LeaseAtCancel(p.todo); }
    if p.Confirming? { LeaseAtCancel(p.rest); }
    hide Next, Attempted, AskFrom, CancelFrom;
  }

  lemma LeaseAtCancel(todo: seq<Group>)
    ensures LeaseOf(CancelFrom(todo)) == Open(SWAP_WEIGHT)
  {
  }

  lemma LeaseOnTouch(plan: Plan, p: Phase, step: Step)
    requires Proper(p) && Next(plan, p) == Some(step)
    requires step.Consume? || step == ReserveTrade || step == ReleaseLease
    ensures LeaseStep(LeaseOf(p), Ok(step)) == LeaseOf(OnOk(plan, p))
  {
    Awaited(plan, p, step);
    hide Next, Definitive, RelevantOf, Cancellable, AnyUnsafe, AskFrom, CancelFrom, Attempted, GaveUpByCode;
  }

  lemma LeaseOnOk(plan: Plan, p: Phase, step: Step)
    requires Proper(p) && Next(plan, p) == Some(step)
    ensures LeaseStep(LeaseOf(p), Ok(step)) == LeaseOf(OnOk(plan, p))
  {
    hide Next, OnOk, LeaseOf, InTry, GaveUpByCode, Definitive;
    if step.Consume? || step == ReserveTrade || step == ReleaseLease {
      LeaseOnTouch(plan, p, step);
    } else {
      if BeforeQuote(p) { LeaseBeforeQuote(plan, p, step); } else { LeaseAfterQuote(plan, p, step); }
    }
  }

  lemma LeaseOnThrow(plan: Plan, p: Phase, step: Step, e: Error)
    requires Proper(p) && Next(plan, p) == Some(step) && MayThrow(step)
    ensures LeaseOf(OnThrow(plan, p, e)) == LeaseOf(p)
  {
    hide Definitive, RelevantOf, Cancellable, AnyUnsafe, Quarantines, GiveUpError, GaveUpByCode, InTry;
    assert !p.Catching?;
  }

  lemma LeaseOnSeen(plan: Plan, p: Phase, e: Event)
    requires Proper(p) && OnSeen(plan, p, e) != Stuck
    ensures LeaseOf(OnSeen(plan, p, e)) == LeaseOf(p)
  {
    hide Definitive, RelevantOf, Cancellable, AnyUnsafe, Quarantines;
  }

  lemma LeaseOneStep(plan: Plan, p: Phase, e: Event)
    requires Proper(p) && Advance(plan, p, e) != Stuck
    ensures LeaseStep(LeaseOf(p), e) == LeaseOf(Advance(plan, p, e))
  {
    hide Proper, Next, OnOk, OnThrow, OnSeen, LeaseOf;
    match e
    case Ok(step) => LeaseOnOk(plan, p, step);
    case Threw(step, error) =>
      assert MayThrow(step);
      LeaseOnThrow(plan, p, step, error);
    case _ => LeaseOnSeen(plan, p, e);
  }

  lemma {:induction false} LeaseFollows(plan: Plan, log: seq<Event>)
    requires Possible(plan, log)
    ensures LeaseAfter(log) == LeaseOf(PhaseAfter(plan, log))
  {
    Unfold(plan, log);
    if log != [] {
      hide PhaseAfter, Advance, Proper, LeaseOf, LeaseStep;
      var front := log[..|log| - 1];
      LeaseFollows(plan, front);
      LeaseOneStep(plan, PhaseAfter(plan, front), log[|log| - 1]);
    }
  }

  lemma NothingRefused(plan: Plan, log: seq<Event>, i: nat)
    requires Possible(plan, log) && i < |log|
    ensures !(log[i].Threw? && log[i].step.Consume?)
  {
    PrefixIsPossible(plan, log, i + 1);
    Unfold(plan, log[..i + 1]);
    hide PhaseAfter, Proper, Next, OnOk, OnThrow, OnSeen;
  }

  /** Whatever happens, a reserved lease ends closed, and it never refused a request. */
  lemma LeaseAlwaysCloses(plan: Plan, log: seq<Event>, ending: CloseEnding)
    requires PhaseAfter(plan, log) == Over(ending)
    ensures LeaseAfter(log) == if ending.NeverReserved? then NoLease else Closed
    ensures forall i :: 0 <= i < |log| ==> !(log[i].Threw? && log[i].step.Consume?)
  {
    LeaseFollows(plan, log);
    forall i | 0 <= i < |log| ensures !(log[i].Threw? && log[i].step.Consume?) { NothingRefused(plan, log, i); }
    hide PhaseAfter, LeaseAfter;
  }

  lemma {:induction false} PrefixIsPossible(plan: Plan, log: seq<Event>, k: nat)
    requires Possible(plan, log) && k <= |log|
    ensures Possible(plan, log[..k])
    ensures k > 0 ==> log[..k][..k - 1] == log[..k - 1] && log[..k][k - 1] == log[k - 1]
    decreases |log|
  {
    Unfold(plan, log);
    hide PhaseAfter, Advance, Proper;
    if k == |log| {
      assert log[..k] == log;
    } else {
      PrefixIsPossible(plan, log[..|log| - 1], k);
      assert log[..|log| - 1][..k] == log[..k];
    }
  }

  // ----- what the phase tells of the record -----

  /** The phase a finished or catching run was in when its error arose, or the phase itself. */
  function Origin(p: Phase): Phase {
    match p
    case Catching(at, _) => at
    case Cleaning(at, _, _) => at
    case Over(ending) => if ending.Broken? then ending.at else p
    case _ => p
  }

  function CauseOf(p: Phase): Option<Error> {
    match p
    case Catching(_, cause) => Some(cause)
    case Cleaning(_, cause, _) => Some(cause)
    case Over(ending) => if ending.Broken? then Some(ending.cause) else None
    case _ => None
  }

  lemma FlagsOnOk(plan: Plan, p: Phase, step: Step)
    requires Proper(p) && Next(plan, p) == Some(step)
    ensures Attempted(OnOk(plan, p)) <==> Attempted(p) || step == CreateAttempt
    ensures SwapStarted(OnOk(plan, p)) <==> SwapStarted(p) || step == BeginSubmitting
    ensures OrderRecorded(OnOk(plan, p)) <==> OrderRecorded(p) || step == RecordOrder
  {
    Awaited(plan, p, step);
    hide Next, Definitive, RelevantOf, Cancellable, AnyUnsafe, GaveUpByCode;
  }

  lemma FlagsOnThrow(plan: Plan, p: Phase, e: Error)
    requires Proper(p)
    ensures Attempted(OnThrow(plan, p, e)) <==> Attempted(p)
    ensures SwapStarted(OnThrow(plan, p, e)) <==> SwapStarted(p)
    ensures OrderRecorded(OnThrow(plan, p, e)) <==> OrderRecorded(p)
  {
    hide Definitive, GaveUpByCode, GiveUpError, InTry;
  }

  lemma FlagsOnSeen(plan: Plan, p: Phase, e: Event)
    requires Proper(p) && OnSeen(plan, p, e) != Stuck
    ensures Attempted(OnSeen(plan, p, e)) <==> Attempted(p)
    ensures SwapStarted(OnSeen(plan, p, e)) <==> SwapStarted(p)
    ensures OrderRecorded(OnSeen(plan, p, e)) <==> OrderRecorded(p)
  {
    hide Definitive, RelevantOf, Cancellable, AnyUnsafe, GaveUpByCode, GiveUpError;
  }

  lemma FlagsOneStep(plan: Plan, p: Phase, e: Event)
    requires Proper(p) && Advance(plan, p, e) != Stuck
    ensures var q := Advance(plan, p, e);
            && (Attempted(q) <==> Attempted(p) || e == Ok(CreateAttempt))
            && (SwapStarted(q) <==> SwapStarted(p) || e == Ok(BeginSubmitting))
            && (OrderRecorded(q) <==> OrderRecorded(p) || e == Ok(RecordOrder))
  {
    hide Proper, Next, OnOk, OnThrow, OnSeen, Attempted, SwapStarted, OrderRecorded, MaySucceed, MayThrow;
    match e
    case Ok(step) => FlagsOnOk(plan, p, step);
    case Threw(step, error) => FlagsOnThrow(plan, p, error);
    case _ => FlagsOnSeen(plan, p, e);
  }

  /** The flags the catch block reads are exactly what the record says. */
  lemma {:induction false} FlagsFollow(plan: Plan, log: seq<Event>)
    requires Possible(plan, log)
    ensures var p := PhaseAfter(plan, log);
            && (Attempted(p) <==> Ok(CreateAttempt) in log)
            && (SwapStarted(p) <==> Ok(BeginSubmitting) in log)
            && (OrderRecorded(p) <==> Ok(RecordOrder) in log)
  {
    Unfold(plan, log);
    if log != [] {
      hide PhaseAfter, Advance, Proper, Attempted, SwapStarted, OrderRecorded;
      var front, last := log[..|log| - 1], log[|log| - 1];
      FlagsFollow(plan, front);
      FlagsOneStep(plan, PhaseAfter(plan, front), last);
    }
  }

  // ----- the sell goes out once -----

  predicate Sends(e: Event) {
    (e.Ok? || e.Threw?) && e.step == SendSwap
  }

  function SendsIn(log: seq<Event>): nat {
    if log == [] then 0 else SendsIn(log[..|log| - 1]) + if Sends(log[|log| - 1]) then 1 else 0
  }

  /** How many sell requests were made up to a phase. */
  function SentBy(p: Phase): nat {
    match p
    case Selling(i) => if i > 2 then 1 else 0
    case Catching(at, _) => if at.Selling? && at.i >= 2 then 1 else 0
    case Cleaning(at, _, _) => if at.Selling? && at.i >= 2 then 1 else 0
    case Over(Sold) => 1
    case Over(Broken(at, _, _)) => if at.Selling? && at.i >= 2 then 1 else 0
    case _ => 0
  }

  lemma SentOneStep(plan: Plan, p: Phase, e: Event)
    requires Proper(p) && Advance(plan, p, e) != Stuck
    ensures SentBy(Advance(plan, p, e)) == SentBy(p) + if Sends(e) then 1 else 0
  {
    if e.Ok? || e.Threw? { Awaited(plan, p, e.step); }
    hide Next, Definitive, RelevantOf, Cancellable, AnyUnsafe, Quarantines, MaySucceed, Attempted;
  }

  lemma {:induction false} SentFollows(plan: Plan, log: seq<Event>)
    requires Possible(plan, log)
    ensures SendsIn(log) == SentBy(PhaseAfter(plan, log))
  {
    Unfold(plan, log);
    if log != [] {
      hide PhaseAfter, Advance, Proper, SentBy;
      var front := log[..|log| - 1];
      SentFollows(plan, front);
      SentOneStep(plan, PhaseAfter(plan, front), log[|log| - 1]);
    }
  }

  /** Where the saga stands after so many successful selling calls. */
  function SoldTo(n: nat): Phase {
    if n < 6 then Selling(n) else Over(Sold)
  }

  lemma OnlyOkSells(plan: Plan, p: Phase, e: Event, error: Error)
    ensures !OnThrow(plan, p, error).Selling? && OnThrow(plan, p, error) != Over(Sold)
    ensures !OnSeen(plan, p, e).Selling? && OnSeen(plan, p, e) != Over(Sold)
  {
    hide Definitive, RelevantOf, Cancellable, AnyUnsafe;
  }

  lemma SellingOneStep(plan: Plan, p: Phase, e: Event, n: nat)
    requires Proper(p) && Advance(plan, p, e) == SoldTo(n + 1) && n < 6
    ensures p == SoldTo(n) && e == Ok(SELLING[n])
  {
    OnlyOkSells(plan, p, e, if e.Threw? then e.error else STATE_UNSAFE);
    assert e.Ok?;
    assert p == SoldTo(n) by { hide Next, RelevantOf, Cancellable, AnyUnsafe, Attempted, OnThrow, OnSeen, Proper; }
    hide OnOk, OnThrow, OnSeen, Proper;
  }

  lemma SellingCameFrom(plan: Plan, log: seq<Event>, k: nat, n: nat)
    requires k <= |log| && PhaseAfter(plan, log[..k]) == SoldTo(n + 1) && n < 6
    ensures k > 0 && log[k - 1] == Ok(SELLING[n]) && PhaseAfter(plan, log[..k - 1]) == SoldTo(n)
  {
    assert k > 0;
    assert log[..k][..k - 1] == log[..k - 1] && log[..k][k - 1] == log[k - 1];
    assert Possible(plan, log[..k - 1]);
    ProperAlways(plan, log[..k - 1]);
    hide Advance, Proper, PhaseAfter;
    SellingOneStep(plan, PhaseAfter(plan, log[..k - 1]), log[k - 1], n);
  }

  lemma SoldEnds(plan: Plan, log: seq<Event>)
    requires PhaseAfter(plan, log) == Over(Sold)
    ensures |log| >= 4 && log[|log| - 4..] == [Ok(SendSwap), Ok(ParseOrder), Ok(RecordOrder), Ok(SettleLane)]
  {
    hide PhaseAfter;
    var n := |log|;
    assert log[..n] == log;
    SellingCameFrom(plan, log, n, 5);
    SellingCameFrom(plan, log, n - 1, 4);
    SellingCameFrom(plan, log, n - 2, 3);
    SellingCameFrom(plan, log, n - 3, 2);
  }

  /**
   At most one sell request is made, whatever its outcome; a close that ends as sold made
   exactly one, which went through, and then parsed, recorded and settled its order.
  */
  lemma OneSell(plan: Plan, log: seq<Event>)
    requires Possible(plan, log)
    ensures SendsIn(log) <= 1
    ensures PhaseAfter(plan, log) == Over(Sold) ==>
              && SendsIn(log) == 1 && |log| >= 4
              && log[|log| - 4..] == [Ok(SendSwap), Ok(ParseOrder), Ok(RecordOrder), Ok(SettleLane)]
  {
    SentFollows(plan, log);
    hide PhaseAfter, SendsIn;
    if PhaseAfter(plan, log) == Over(Sold) { SoldEnds(plan, log); }
  }

  // ----- where the cause comes from -----

  /** The error the catch block sees is the one that was thrown there, or the code a cancellation ended with. */
  ghost predicate Raised(plan: Plan, log: seq<Event>, at: Phase, cause: Error) {
    match at
    case Asking(_) => cause == STATE_UNSAFE || ThrownAt(plan, log, at, cause)
    case Polling(_, _, _, _, _) => CancelCode(cause.code)
    case Viewing(_, _, _, _, _) => cause == CancellationError(TRIGGERED)
    case Refusing(_, refusal, _) => cause == refusal || ThrownAt(plan, log, at, cause)
    case Doubting(_, _) => cause == CancellationError(CANCEL_UNCERTAIN) || ThrownAt(plan, log, at, cause)
    case _ => ThrownAt(plan, log, at, cause)
  }

  predicate ThrownAt(plan: Plan, log: seq<Event>, at: Phase, cause: Error) {
    Next(plan, at).Some? && Threw(Next(plan, at).value, cause) in log
  }

  ghost predicate CauseFits(plan: Plan, log: seq<Event>, p: Phase) {
    CauseOf(p).Some? ==> Raised(plan, log, Origin(p), CauseOf(p).value)
  }

  /** A cause that is already there stays, and its event stays in the record. */
  lemma CauseStays(plan: Plan, log: seq<Event>, p: Phase, e: Event)
    requires CauseOf(p).Some? && CauseFits(plan, log, p) && Advance(plan, p, e) != Stuck
    ensures CauseFits(plan, log + [e], Advance(plan, p, e))
  {
    var q := Advance(plan, p, e);
    assert CauseOf(q) == CauseOf(p) && Origin(q) == Origin(p) by {
      hide Definitive, RelevantOf, Cancellable, AnyUnsafe, Quarantines, Raised, Attempted;
    }
    hide Advance, Next, CauseOf, Origin;
  }

  lemma CauseOnThrow(plan: Plan, log: seq<Event>, p: Phase, step: Step, e: Error)
    requires CauseOf(p).None? && Proper(p) && Next(plan, p) == Some(step) && Threw(step, e) in log
    ensures CauseFits(plan, log, OnThrow(plan, p, e))
  {
    assert ThrownAt(plan, log, p, e);
    hide Next, ThrownAt, Definitive;
  }

  lemma CauseOnOther(plan: Plan, log: seq<Event>, p: Phase, e: Event)
    requires CauseOf(p).None? && Proper(p)
    ensures !p.Catching? && !p.Cleaning? ==> CauseFits(plan, log, OnOk(plan, p))
    ensures CauseFits(plan, log, OnSeen(plan, p, e))
  {
    hide Next, ThrownAt, Definitive, RelevantOf, Cancellable, AnyUnsafe;
  }

  lemma CauseOneStep(plan: Plan, log: seq<Event>, p: Phase, e: Event)
    requires Proper(p) && CauseFits(plan, log, p) && Advance(plan, p, e) != Stuck
    ensures CauseFits(plan, log + [e], Advance(plan, p, e))
  {
    if CauseOf(p).Some? {
      CauseStays(plan, log, p, e);
    } else {
      assert !p.Catching? && !p.Cleaning?;
      CauseOnOther(plan, log + [e], p, e);
      hide CauseFits, CauseOf, Next, OnOk, OnThrow, OnSeen, Proper, MaySucceed, MayThrow;
      if e.Threw? { CauseOnThrow(plan, log + [e], p, e.step, e.error); }
    }
  }

  lemma {:induction false} CauseFollows(plan: Plan, log: seq<Event>)
    requires Possible(plan, log)
    ensures CauseFits(plan, log, PhaseAfter(plan, log))
  {
    Unfold(plan, log);
    if log != [] {
      hide PhaseAfter, Advance, Proper, CauseFits;
      var front, last := log[..|log| - 1], log[|log| - 1];
      CauseFollows(plan, front);
      CauseOneStep(plan, front, PhaseAfter(plan, front), last);
    }
  }

  /** The steps whose error goes straight to the catch block. */
  predicate Fatal(step: Step) {
    step == QuarantineCancel || step in SELLING
  }

  predicate ErrorsFit(plan: Plan, log: seq<Event>, p: Phase) {
    forall i :: 0 <= i < |log| && log[i].Threw? && Fatal(log[i].step) ==>
      CauseOf(p) == Some(log[i].error) && Next(plan, Origin(p)) == Some(log[i].step)
  }

  lemma ErrorsOneStep(plan: Plan, log: seq<Event>, p: Phase, e: Event)
    requires Proper(p) && ErrorsFit(plan, log, p) && Advance(plan, p, e) != Stuck
    ensures ErrorsFit(plan, log + [e], Advance(plan, p, e))
  {
    FatalStep(plan, p, e);
    hide Advance, Next, Fatal, Proper, Origin, CauseOf;
  }

  lemma FatalStep(plan: Plan, p: Phase, e: Event)
    requires Proper(p) && Advance(plan, p, e) != Stuck
    ensures var q := Advance(plan, p, e);
            && (CauseOf(p).Some? ==> CauseOf(q) == CauseOf(p) && Origin(q) == Origin(p))
            && (e.Threw? && Fatal(e.step) ==> CauseOf(q) == Some(e.error) && Next(plan, Origin(q)) == Some(e.step))
  {
    hide Definitive, RelevantOf, Cancellable, AnyUnsafe, Quarantines;
  }

  lemma {:induction false} ErrorsFollow(plan: Plan, log: seq<Event>)
    requires Possible(plan, log)
    ensures ErrorsFit(plan, log, PhaseAfter(plan, log))
  {
    Unfold(plan, log);
    if log != [] {
      hide PhaseAfter, Advance, Proper, ErrorsFit;
      var front, last := log[..|log| - 1], log[|log| - 1];
      ErrorsFollow(plan, front);
      ErrorsOneStep(plan, front, PhaseAfter(plan, front), last);
    }
  }

  // ----- whether a cancel is open -----

  /** A cancellation whose outcome is open: its call may have arrived, or was not seen done. */
  ghost predicate CancelOpen(log: seq<Event>, g: GroupId) {
    || (Ok(CancelOrder(g)) in log && Checked(g, Some(View(StCancelled, false))) !in log)
    || (exists e :: Threw(CancelOrder(g), e) in log && !Definitive(e))
  }

  ghost predicate NoDoubt(log: seq<Event>) {
    forall i :: 0 <= i < |log| && log[i].Threw? && log[i].step.CancelOrder? ==> Definitive(log[i].error)
  }

  /** Every cancel that went through was seen done, except perhaps one. */
  predicate AnsweredBut(log: seq<Event>, but: Option<GroupId>) {
    forall i :: 0 <= i < |log| && log[i].Ok? && log[i].step.CancelOrder? && but != Some(log[i].step.group) ==>
      Checked(log[i].step.group, Some(VERIFIED)) in log
  }

  lemma SettledMeansClosed(log: seq<Event>)
    requires NoDoubt(log) && AnsweredBut(log, None)
    ensures forall g :: !CancelOpen(log, g)
  {
    hide Definitive;
  }

  /** The strategy whose cancel a phase waits for, and the error that made a cancel doubtful. */
  function Awaiting(p: Phase): Option<GroupId> {
    match p
    case Hearing(g, _) => Some(g.id)
    case Polling(_, _, _, g, _) => Some(g.id)
    case Viewing(_, _, _, g, _) => Some(g.id)
    case _ => None
  }

  ghost predicate CancelsFit(log: seq<Event>, p: Phase) {
    && (!Origin(p).Doubting? ==> NoDoubt(log))
    && (Origin(p).Doubting? ==> Threw(CancelOrder(Origin(p).g.id), Origin(p).doubt) in log)
    && AnsweredBut(log, Awaiting(Origin(p)))
  }

  /** What one step does to a cancel: it goes through, is refused, becomes doubtful, or is seen done. */
  predicate CancelMove(o: Phase, q: Phase, e: Event) {
    && (e.Ok? && e.step.CancelOrder? ==> Awaiting(q) == Some(e.step.group))
    && (e.Threw? && e.step.CancelOrder? && !Definitive(e.error) ==>
          q.Doubting? && q.doubt == e.error && q.g.id == e.step.group)
    && (o.Doubting? ==> q == o)
    && (q.Doubting? && q != o ==> e == Threw(CancelOrder(q.g.id), q.doubt) && Awaiting(o) == Awaiting(q) == None)
    && (|| Awaiting(q) == Awaiting(o)
        || (Awaiting(o).Some? && Awaiting(q).None? && e == Checked(Awaiting(o).value, Some(VERIFIED)))
        || (Awaiting(o).None? && Awaiting(q).Some? && e == Ok(CancelOrder(Awaiting(q).value))))
  }

  lemma AwaitsCancel(plan: Plan, p: Phase, step: Step)
    requires Next(plan, p) == Some(step)
    ensures step.CancelOrder? <==> p.Cancelling? && p.i == 2
    ensures step.CancelOrder? ==> step.group == p.g.id
  {
    hide Quarantines, RelevantOf;
  }

  /** A call that went through and is no cancel leaves what the cancels wait for. */
  lemma OtherOk(plan: Plan, p: Phase)
    requires Proper(p) && !p.Cancelling? && OnOk(plan, p) != Stuck
    ensures var o, q := Origin(p), Origin(OnOk(plan, p));
            Awaiting(q) == Awaiting(o) && (o.Doubting? || q.Doubting? ==> q == o)
  {
    hide Definitive, RelevantOf, Cancellable, AnyUnsafe, GaveUpByCode, Attempted, GiveUpError;
  }

  lemma CancelOnOk(plan: Plan, p: Phase, step: Step)
    requires Proper(p) && Next(plan, p) == Some(step) && OnOk(plan, p) != Stuck
    ensures CancelMove(Origin(p), Origin(OnOk(plan, p)), Ok(step))
  {
    AwaitsCancel(plan, p, step);
    if p.Cancelling? {
      Awaited(plan, p, step);
      hide Next, Definitive, Proper;
    } else {
      OtherOk(plan, p);
      hide Next, Definitive, Proper, OnOk, Origin, Awaiting;
    }
  }

  lemma CancelOnThrow(plan: Plan, p: Phase, step: Step, e: Error)
    requires Proper(p) && Next(plan, p) == Some(step) && OnThrow(plan, p, e) != Stuck
    requires MayThrow(step)
    ensures CancelMove(Origin(p), Origin(OnThrow(plan, p, e)), Threw(step, e))
  {
    Awaited(plan, p, step);
    AwaitsCancel(plan, p, step);
    hide Next, Definitive, GaveUpByCode;
  }

  lemma CancelOnSeen(plan: Plan, p: Phase, e: Event)
    requires Proper(p) && !e.Ok? && !e.Threw? && OnSeen(plan, p, e) != Stuck
    ensures CancelMove(Origin(p), Origin(OnSeen(plan, p, e)), e)
  {
    hide Definitive, RelevantOf, Cancellable, AnyUnsafe, GaveUpByCode;
  }

  lemma CancelOneStep(plan: Plan, p: Phase, e: Event)
    requires Proper(p) && Advance(plan, p, e) != Stuck
    ensures CancelMove(Origin(p), Origin(Advance(plan, p, e)), e)
  {
    hide Proper, Next, OnOk, OnThrow, OnSeen, CancelMove, MaySucceed, MayThrow;
    match e
    case Ok(step) => CancelOnOk(plan, p, step);
    case Threw(step, error) =>
      assert MayThrow(step);
      CancelOnThrow(plan, p, step, error);
    case _ => CancelOnSeen(plan, p, e);
  }

  lemma CancelsGrow(plan: Plan, log: seq<Event>, p: Phase, e: Event)
    requires Proper(p) && CancelsFit(log, p) && Advance(plan, p, e) != Stuck
    ensures CancelsFit(log + [e], Advance(plan, p, e))
  {
    CancelOneStep(plan, p, e);
    hide Advance, Definitive, Proper, Awaiting, Origin;
  }

  lemma {:induction false} CancelsFollow(plan: Plan, log: seq<Event>)
    requires Possible(plan, log)
    ensures CancelsFit(log, PhaseAfter(plan, log))
  {
    Unfold(plan, log);
    if log != [] {
      hide PhaseAfter, Advance, Proper, CancelsFit;
      var front, last := log[..|log| - 1], log[|log| - 1];
      CancelsFollow(plan, front);
      CancelsGrow(plan, front, PhaseAfter(plan, front), last);
    }
  }

  // ----- the catch block -----

  lemma CalledOne(log: seq<Event>, e: Event, step: Step)
    ensures Called(log + [e], step) <==> Called(log, step) || ((e.Ok? || e.Threw?) && e.step == step)
  {
    CalledInSum(log, [e], step);
    assert Called([e], step) <==> ((e.Ok? || e.Threw?) && e.step == step) by { assert [e][0] == e; }
  }

  /** What of the catch block's four calls the record holds. */
  ghost predicate CleanupFits(log: seq<Event>, p: Phase) {
    match p
    case Cleaning(at, cause, second) =>
      && (Called(log, ReleaseLane) <==> second && !Quarantines(at, cause))
      && (Called(log, MarkUncertain) <==> second && Quarantines(at, cause))
      && (Ok(MarkUncertain) in log <==> second && Quarantines(at, cause))
      && !Called(log, Quarantine)
    case Over(Broken(at, cause, _)) =>
      && (Called(log, ReleaseLane) <==> Attempted(at) && !Quarantines(at, cause))
      && (Called(log, MarkUncertain) <==> Attempted(at) && Quarantines(at, cause))
      && (Ok(Quarantine) in log <==> Ok(MarkUncertain) in log && forall e :: Threw(Quarantine, e) !in log)
      && (OrderRecorded(at) ==> Ok(MarkUncertain) !in log)
    case _ => !Called(log, ReleaseLane) && !Called(log, MarkUncertain) && !Called(log, Quarantine)
  }

  lemma NotCalled(log: seq<Event>, step: Step)
    requires !Called(log, step)
    ensures Ok(step) !in log && forall e :: Threw(step, e) !in log
  {
  }

  /** Which phase makes the catch block's calls. */
  lemma AwaitedCleanup(plan: Plan, p: Phase, step: Step)
    requires Next(plan, p) == Some(step)
    ensures step == ReleaseLane <==> p.Cleaning? && !p.second && !Quarantines(p.at, p.cause)
    ensures step == MarkUncertain <==> p.Cleaning? && !p.second && Quarantines(p.at, p.cause)
    ensures step == Quarantine <==> p.Cleaning? && p.second && Quarantines(p.at, p.cause)
  {
    hide Quarantines, RelevantOf;
  }

  /** Outside the catch block's four calls a step only leads to the first of them, or past an attempt that does not exist. */
  lemma CleanupMoves(plan: Plan, p: Phase, e: Event)
    requires Advance(plan, p, e) != Stuck && !p.Cleaning?
    ensures var q := Advance(plan, p, e);
            (q.Cleaning? ==> !q.second) && (q.Over? && q.ending.Broken? ==> !Attempted(q.ending.at))
  {
    hide Quarantines, Attempted, Definitive, RelevantOf, Cancellable, AnyUnsafe, GiveUpError, MaySucceed, MayThrow;
    if e.Ok? { hide OnThrow, OnSeen; } else if e.Threw? { hide OnOk, OnSeen; } else { hide OnOk, OnThrow; }
  }

  /** What one more call adds to the record's catch-block calls. */
  lemma OneMoreCall(log: seq<Event>, e: Event)
    ensures Called(log + [e], ReleaseLane) <==> Called(log, ReleaseLane) || ((e.Ok? || e.Threw?) && e.step == ReleaseLane)
    ensures Called(log + [e], MarkUncertain) <==> Called(log, MarkUncertain) || ((e.Ok? || e.Threw?) && e.step == MarkUncertain)
    ensures Called(log + [e], Quarantine) <==> Called(log, Quarantine) || ((e.Ok? || e.Threw?) && e.step == Quarantine)
    ensures forall x :: x in log + [e] <==> x in log || x == e
  {
    CalledOne(log, e, ReleaseLane);
    CalledOne(log, e, MarkUncertain);
    CalledOne(log, e, Quarantine);
  }

  predicate NoCleanup(log: seq<Event>) {
    !Called(log, ReleaseLane) && !Called(log, MarkUncertain) && !Called(log, Quarantine)
  }

  /** A step outside the catch block's four calls. */
  lemma BeforeCleanup(plan: Plan, log: seq<Event>, p: Phase, e: Event)
    requires Proper(p) && CleanupFits(log, p) && Advance(plan, p, e) != Stuck && !p.Cleaning?
    ensures NoCleanup(log + [e]) && CleanupFits(log + [e], Advance(plan, p, e))
  {
    OneMoreCall(log, e);
    if e.Ok? || e.Threw? { AwaitedCleanup(plan, p, e.step); }
    CleanupMoves(plan, p, e);
    hide Advance, Called, Next, Quarantines, Proper, Attempted, OrderRecorded;
    assert NoCleanup(log) && NoCleanup(log + [e]);
    NothingOk(log + [e]);
  }

  lemma NothingOk(log: seq<Event>)
    requires NoCleanup(log)
    ensures Ok(MarkUncertain) !in log && Ok(Quarantine) !in log
  {
    NotCalled(log, MarkUncertain);
    NotCalled(log, Quarantine);
  }

  /** The first of the catch block's two calls went through. */
  lemma FirstDone(log: seq<Event>, at: Phase, cause: Error, e: Event)
    requires CleanupFits(log, Cleaning(at, cause, false))
    requires e == Ok(if Quarantines(at, cause) then MarkUncertain else ReleaseLane)
    ensures CleanupFits(log + [e], Cleaning(at, cause, true))
  {
    OneMoreCall(log, e);
    hide Called, Quarantines;
  }

  /** It threw, or the second one was made, which ends the run. */
  lemma LastCall(log: seq<Event>, at: Phase, cause: Error, second: bool, e: Event, thrown: Error)
    requires CleanupFits(log, Cleaning(at, cause, second)) && Attempted(at) && (e.Threw? || (e.Ok? && second))
    requires Quarantines(at, cause) ==> e.step == if second then Quarantine else MarkUncertain
    requires !Quarantines(at, cause) ==> e.step == if second then RejectAttempt else ReleaseLane
    requires second && Quarantines(at, cause) ==> !OrderRecorded(at)
    ensures CleanupFits(log + [e], Over(Broken(at, cause, thrown)))
  {
    OneMoreCall(log, e);
    NotCalled(log, Quarantine);
    hide Called, Quarantines, Attempted, OrderRecorded;
    if e.Threw? { assert Threw(e.step, e.error) in log + [e]; }
  }

  lemma {:induction false} SecondCallIsAllowed(plan: Plan, log: seq<Event>)
    requires Possible(plan, log)
    ensures var p := PhaseAfter(plan, log);
            p.Cleaning? ==> Attempted(p.at) && (p.second && Quarantines(p.at, p.cause) ==> !OrderRecorded(p.at))
  {
    Unfold(plan, log);
    if log != [] {
      hide PhaseAfter, Attempted, OrderRecorded, Quarantines, Definitive, RelevantOf, Cancellable, AnyUnsafe;
      SecondCallIsAllowed(plan, log[..|log| - 1]);
    }
  }

  /** One of the catch block's four calls. */
  lemma InCleanup(plan: Plan, log: seq<Event>, p: Phase, e: Event)
    requires CleanupFits(log, p) && Advance(plan, p, e) != Stuck && p.Cleaning? && Attempted(p.at)
    requires p.second && Quarantines(p.at, p.cause) ==> !OrderRecorded(p.at)
    ensures CleanupFits(log + [e], Advance(plan, p, e))
  {
    var q := Advance(plan, p, e);
    assert q == if e.Threw? then Over(Broken(p.at, p.cause, e.error))
                else if p.second then Over(Broken(p.at, p.cause, p.cause)) else p.(second := true);
    assert Next(plan, p) == Some(e.step);
    hide CleanupFits, Advance, Quarantines, Attempted, OrderRecorded;
    if q.Cleaning? { FirstDone(log, p.at, p.cause, e); }
    else { LastCall(log, p.at, p.cause, p.second, e, q.ending.thrown); }
  }

  lemma CleanupOneStep(plan: Plan, log: seq<Event>, p: Phase, e: Event)
    requires Proper(p) && CleanupFits(log, p) && Advance(plan, p, e) != Stuck
    requires p.Cleaning? ==> Attempted(p.at) && (p.second && Quarantines(p.at, p.cause) ==> !OrderRecorded(p.at))
    ensures CleanupFits(log + [e], Advance(plan, p, e))
  {
    hide CleanupFits, Advance, Proper, Attempted, OrderRecorded, Quarantines;
    if p.Cleaning? { InCleanup(plan, log, p, e); } else { BeforeCleanup(plan, log, p, e); }
  }

  lemma {:induction false} CleanupFollows(plan: Plan, log: seq<Event>)
    requires Possible(plan, log)
    ensures CleanupFits(log, PhaseAfter(plan, log))
  {
    Unfold(plan, log);
    if log != [] {
      hide PhaseAfter, Advance, Proper, CleanupFits, Attempted, OrderRecorded, Quarantines;
      var front, last := log[..|log| - 1], log[|log| - 1];
      CleanupFollows(plan, front);
      SecondCallIsAllowed(plan, front);
      CleanupOneStep(plan, front, PhaseAfter(plan, front), last);
    }
  }

  // ----- no sell before cancellation -----

  /** The group was cancelled by a call that went through, then seen cancelled and unsold. */
  predicate CancelledThenVerified(log: seq<Event>, g: GroupId) {
    exists i, j :: 0 <= i < j < |log| && log[i] == Ok(CancelOrder(g)) && log[j] == Checked(g, Some(View(StCancelled, false)))
  }

  predicate SeenHarmless(log: seq<Event>, g: GroupId) {
    exists i :: 0 <= i < |log| && log[i].Saw? && log[i].group == g && Harmless(log[i].state)
  }

  predicate OutOfTheWay(log: seq<Event>, g: Group) {
    SeenHarmless(log, g.id) || CancelledThenVerified(log, g.id)
  }

  lemma OutOfTheWayStays(log: seq<Event>, e: Event, g: Group)
    requires OutOfTheWay(log, g)
    ensures OutOfTheWay(log + [e], g)
  {
    var more := log + [e];
    if SeenHarmless(log, g.id) {
      var i :| 0 <= i < |log| && log[i].Saw? && log[i].group == g.id && Harmless(log[i].state);
      assert more[i] == log[i];
    } else {
      var i, j :| 0 <= i < j < |log| && log[i] == Ok(CancelOrder(g.id)) && log[j] == Checked(g.id, Some(VERIFIED));
      assert more[i] == log[i] && more[j] == log[j];
    }
  }

  /** Every strategy that might still act is out of the way or among these. */
  predicate Cleared(log: seq<Event>, groups: seq<Group>, todo: seq<Group>) {
    forall g :: g in groups && Relevant(g) ==> OutOfTheWay(log, g) || g in todo
  }

  lemma ClearedStays(log: seq<Event>, e: Event, groups: seq<Group>, todo: seq<Group>)
    requires Cleared(log, groups, todo)
    ensures Cleared(log + [e], groups, todo)
  {
    forall g | g in groups && Relevant(g) && OutOfTheWay(log, g) ensures OutOfTheWay(log + [e], g) {
      OutOfTheWayStays(log, e, g);
    }
    hide OutOfTheWay;
  }

  /** Every harmless state among these was seen. */
  predicate StatesSeen(log: seq<Event>, groups: seq<Group>, states: seq<Status>) {
    forall i :: 0 <= i < |states| && i < |groups| && Harmless(states[i]) ==> OutOfTheWay(log, groups[i])
  }

  lemma StatesSeenStay(log: seq<Event>, e: Event, groups: seq<Group>, states: seq<Status>)
    requires StatesSeen(log, groups, states)
    ensures StatesSeen(log + [e], groups, states)
  {
    forall i | 0 <= i < |states| && i < |groups| && Harmless(states[i]) ensures OutOfTheWay(log + [e], groups[i]) {
      OutOfTheWayStays(log, e, groups[i]);
    }
    hide OutOfTheWay;
  }

  lemma OneMoreState(log: seq<Event>, groups: seq<Group>, states: seq<Status>, status: Status)
    requires StatesSeen(log, groups, states) && |states| < |groups|
    ensures StatesSeen(log + [Saw(groups[|states|].id, status)], groups, states + [status])
  {
    var e := Saw(groups[|states|].id, status);
    StatesSeenStay(log, e, groups, states);
    assert Harmless(status) ==> OutOfTheWay(log + [e], groups[|states|]) by { assert (log + [e])[|log|] == e; }
    hide OutOfTheWay, Harmless;
  }

  /** What is known of the strategies in a phase. */
  predicate GuardFits(plan: Plan, log: seq<Event>, p: Phase) {
    match p
    case Asking(states) => |states| < |RelevantOf(plan.groups)| && StatesSeen(log, RelevantOf(plan.groups), states)
    case Told(states) => |states| < |RelevantOf(plan.groups)| && StatesSeen(log, RelevantOf(plan.groups), states)
    case Quoting(_, todo) => Cleared(log, plan.groups, todo)
    case CheckingSnapshot(todo) => Cleared(log, plan.groups, todo)
    case Creating(todo) => Cleared(log, plan.groups, todo)
    case Beginning(todo) => Cleared(log, plan.groups, todo)
    case Cancelling(_, g, rest) => Cleared(log, plan.groups, [g] + rest)
    case Hearing(g, rest) => Cleared(log, plan.groups, [g] + rest) && Ok(CancelOrder(g.id)) in log
    case Polling(_, _, _, g, rest) => Cleared(log, plan.groups, [g] + rest) && Ok(CancelOrder(g.id)) in log
    case Viewing(_, _, _, g, rest) => Cleared(log, plan.groups, [g] + rest) && Ok(CancelOrder(g.id)) in log
    case Confirming(_, g, rest) => Cleared(log, plan.groups, rest) && CancelledThenVerified(log, g.id)
    case Arming(_) => Cleared(log, plan.groups, [])
    case Selling(_) => Cleared(log, plan.groups, [])
    case _ => true
  }

  lemma AskedAll(plan: Plan, log: seq<Event>, states: seq<Status>)
    requires StatesSeen(log, RelevantOf(plan.groups), states) && |states| <= |RelevantOf(plan.groups)|
    ensures GuardFits(plan, log, AskFrom(plan, states))
  {
    var groups := RelevantOf(plan.groups);
    if |states| == |groups| && !AnyUnsafe(states) {
      var todo := Cancellable(groups, states);
      forall g | g in plan.groups && Relevant(g) ensures OutOfTheWay(log, g) || g in todo {
        assert g in groups;
        var i :| 0 <= i < |groups| && groups[i] == g;
        assert Harmless(states[i]) || Active(states[i]);
      }
    }
  }

  lemma CancelNext(plan: Plan, log: seq<Event>, todo: seq<Group>)
    requires Cleared(log, plan.groups, todo)
    ensures GuardFits(plan, log, CancelFrom(todo))
  {
    if todo != [] { assert [todo[0]] + todo[1..] == todo; }
    hide OutOfTheWay, Cleared;
  }

  /** The cancel that went through before is now seen done. */
  lemma VerifiedNow(plan: Plan, log: seq<Event>, g: Group, rest: seq<Group>)
    requires Cleared(log, plan.groups, [g] + rest) && Ok(CancelOrder(g.id)) in log
    ensures GuardFits(plan, log + [Checked(g.id, Some(VERIFIED))], Confirming(0, g, rest))
  {
    var e := Checked(g.id, Some(VERIFIED));
    var more := log + [e];
    var i :| 0 <= i < |log| && log[i] == Ok(CancelOrder(g.id));
    assert more[i] == Ok(CancelOrder(g.id)) && more[|log|] == e;
    assert CancelledThenVerified(more, g.id);
    ClearedStays(log, e, plan.groups, [g] + rest);
    hide SeenHarmless, CancelledThenVerified;
  }

  lemma VerifiedStays(a: seq<Event>, b: seq<Event>, g: GroupId)
    requires a <= b && CancelledThenVerified(a, g)
    ensures CancelledThenVerified(b, g)
  {
    var i, j :| 0 <= i < j < |a| && a[i] == Ok(CancelOrder(g)) && a[j] == Checked(g, Some(VERIFIED));
    assert b[i] == a[i] && b[j] == a[j];
  }

  /** What is known of the strategies stays known. */
  lemma GuardGrows(plan: Plan, log: seq<Event>, p: Phase, e: Event)
    requires GuardFits(plan, log, p)
    ensures GuardFits(plan, log + [e], p)
  {
    hide Cleared, StatesSeen, CancelledThenVerified, RelevantOf;
    match p
    case Asking(states) => StatesSeenStay(log, e, RelevantOf(plan.groups), states);
    case Told(states) => StatesSeenStay(log, e, RelevantOf(plan.groups), states);
    case Quoting(_, todo) => ClearedStays(log, e, plan.groups, todo);
    case CheckingSnapshot(todo) => ClearedStays(log, e, plan.groups, todo);
    case Creating(todo) => ClearedStays(log, e, plan.groups, todo);
    case Beginning(todo) => ClearedStays(log, e, plan.groups, todo);
    case Cancelling(_, g, rest) => ClearedStays(log, e, plan.groups, [g] + rest);
    case Hearing(g, rest) => ClearedStays(log, e, plan.groups, [g] + rest);
    case Polling(_, _, _, g, rest) => ClearedStays(log, e, plan.groups, [g] + rest);
    case Viewing(_, _, _, g, rest) => ClearedStays(log, e, plan.groups, [g] + rest);
    case Confirming(_, g, rest) =>
      ClearedStays(log, e, plan.groups, rest);
      VerifiedStays(log, log + [e], g.id);
    case Arming(_) => ClearedStays(log, e, plan.groups, []);
    case Selling(_) => ClearedStays(log, e, plan.groups, []);
    case _ =>
  }

  lemma NothingAsked(plan: Plan, log: seq<Event>)
    ensures GuardFits(plan, log, AskFrom(plan, []))
  {
    AskedAll(plan, log, []);
  }

  lemma GuardBeforeQuote(plan: Plan, log: seq<Event>, p: Phase, step: Step)
    requires GuardFits(plan, log, p) && Next(plan, p) == Some(step) && BeforeQuote(p)
    ensures GuardFits(plan, log, OnOk(plan, p))
  {
    NothingAsked(plan, log);
    hide Cleared, StatesSeen, CancelledThenVerified, RelevantOf, AskFrom, CancelFrom, Quarantines, Attempted, Next;
  }

  lemma GuardAfterQuote(plan: Plan, log: seq<Event>, p: Phase)
    requires GuardFits(plan, log, p) && !BeforeQuote(p)
    requires p.Cancelling? && p.i >= 2 ==> Ok(CancelOrder(p.g.id)) in log
    ensures GuardFits(plan, log, OnOk(plan, p))
  {
    if p.Beginning? { CancelNext(plan, log, p.todo); }
    if p.Confirming? { CancelNext(plan, log, p.rest); }
    hide Cleared, StatesSeen, CancelledThenVerified, RelevantOf, AskFrom, CancelFrom, Quarantines, Attempted;
  }

  lemma GuardOnOk(plan: Plan, log: seq<Event>, p: Phase, step: Step)
    requires GuardFits(plan, log, p) && Next(plan, p) == Some(step)
    ensures GuardFits(plan, log + [Ok(step)], OnOk(plan, p))
  {
    var more := log + [Ok(step)];
    GuardGrows(plan, log, p, Ok(step));
    AwaitsCancel(plan, p, step);
    assert Ok(step) in more by { assert more[|log|] == Ok(step); }
    assert p.Cancelling? ==> p.i <= 2;
    hide GuardFits, OnOk, Next;
    if BeforeQuote(p) { GuardBeforeQuote(plan, more, p, step); } else { GuardAfterQuote(plan, more, p); }
  }

  lemma GuardOnThrow(plan: Plan, log: seq<Event>, p: Phase, step: Step, e: Error)
    requires GuardFits(plan, log, p) && Next(plan, p) == Some(step)
    ensures GuardFits(plan, log + [Threw(step, e)], OnThrow(plan, p, e))
  {
    GuardGrows(plan, log, p, Threw(step, e));
    hide Cleared, StatesSeen, CancelledThenVerified, RelevantOf, Definitive, Next;
  }

  lemma GuardOnSeen(plan: Plan, log: seq<Event>, p: Phase, e: Event)
    requires GuardFits(plan, log, p) && OnSeen(plan, p, e) != Stuck
    ensures GuardFits(plan, log + [e], OnSeen(plan, p, e))
  {
    GuardGrows(plan, log, p, e);
    if (p.Asking? || p.Told?) && e.Saw? {
      OneMoreState(log, RelevantOf(plan.groups), p.states, e.state);
      AskedAll(plan, log + [e], p.states + [e.state]);
    }
    if p.Viewing? && e == Checked(p.g.id, Some(VERIFIED)) { VerifiedNow(plan, log, p.g, p.rest); }
    hide Cleared, StatesSeen, CancelledThenVerified, RelevantOf, AskFrom;
  }

  lemma GuardOneStep(plan: Plan, log: seq<Event>, p: Phase, e: Event)
    requires GuardFits(plan, log, p) && Advance(plan, p, e) != Stuck
    ensures GuardFits(plan, log + [e], Advance(plan, p, e))
  {
    hide GuardFits, Next, OnOk, OnThrow, OnSeen, MaySucceed, MayThrow;
    match e
    case Ok(step) => GuardOnOk(plan, log, p, step);
    case Threw(step, error) => GuardOnThrow(plan, log, p, step, error);
    case _ => GuardOnSeen(plan, log, p, e);
  }

  lemma {:induction false} GuardFollows(plan: Plan, log: seq<Event>)
    requires Possible(plan, log)
    ensures GuardFits(plan, log, PhaseAfter(plan, log))
  {
    Unfold(plan, log);
    if log != [] {
      hide PhaseAfter, Proper, Advance, GuardFits;
      var front, last := log[..|log| - 1], log[|log| - 1];
      GuardFollows(plan, front);
      GuardOneStep(plan, front, PhaseAfter(plan, front), last);
    }
  }

  /**
   Whenever a sell request is made, every stored active or unsafe strategy was seen harmless
   before, or its cancel call went through and it was then seen cancelled and unsold.
  */
  lemma NoSellBeforeCancellation(plan: Plan, log: seq<Event>, k: nat, g: Group)
    requires Possible(plan, log) && k < |log| && Sends(log[k]) && g in plan.groups
    requires g.stored !in {StCancelled, StFailed, StExpired}
    ensures exists i :: 0 <= i < k && (
              || (log[i].Saw? && log[i].group == g.id && log[i].state in {StCancelled, StFailed, StExpired})
              || (&& log[i] == Ok(CancelOrder(g.id))
                  && exists j :: i < j < k && log[j] == Checked(g.id, Some(View(StCancelled, false)))))
  {
    var before := log[..k];
    SendsFromSelling(plan, log, k);
    GuardFollows(plan, before);
    assert OutOfTheWay(before, g);
    if SeenHarmless(before, g.id) {
      var i :| 0 <= i < |before| && before[i].Saw? && before[i].group == g.id && Harmless(before[i].state);
      assert log[i] == before[i];
    } else {
      var i, j :| 0 <= i < j < |before| && before[i] == Ok(CancelOrder(g.id)) && before[j] == Checked(g.id, Some(VERIFIED));
      assert log[i] == before[i] && log[j] == before[j];
    }
  }

  lemma SendsFromSelling(plan: Plan, log: seq<Event>, k: nat)
    requires Possible(plan, log) && k < |log| && Sends(log[k])
    ensures PhaseAfter(plan, log[..k]) == Selling(2)
  {
    PrefixIsPossible(plan, log, k + 1);
    PrefixIsPossible(plan, log, k);
    ProperAlways(plan, log[..k]);
    assert Advance(plan, PhaseAfter(plan, log[..k]), log[k]) != Stuck;
    Awaited(plan, PhaseAfter(plan, log[..k]), SendSwap);
  }

  // ----- a sell is prepared in full -----

  /** The calls about the strategies and the lane, of which a close makes as many as it has strategies. */
  predicate PerStrategy(step: Step) {
    || step.QueryStrategy? || step.MarkCancelling? || step.CancelOrder? || step.VerifyCancel? || step.MarkCancelled?
    || step.RestoreRunning? || step == ReleaseVerified || step == ReleaseCancelRejected || step == QuarantineCancel
    || step == AcquireLane
  }

  /** The successful calls of a record, in order, but for those. */
  function Milestones(log: seq<Event>): seq<Step> {
    if log == [] then []
    else
      var last := log[|log| - 1];
      Milestones(log[..|log| - 1]) + if last.Ok? && !PerStrategy(last.step) then [last.step] else []
  }

  /** What an operator's close does from its token to the answer of the sell. */
  const OPERATOR_CLOSE: seq<Step> := [
    CheckMode, ConsumeToken, CheckToken, ReserveTrade, LoadPosition, CheckPosition, LoadBalance, SelectAmount, Sign,
    Consume(2), SendQuote, LoadGas, FinishPrepare, CheckSnapshot, CreateAttempt, BeginPreparing, CaptureSnapshot,
    SaveSnapshot, BuildSwap, BeginSubmitting, SignSwap, Consume(5), SendSwap, ParseOrder, RecordOrder, SettleLane]

  /** A retry looks at its configuration instead of a token and has no snapshot to compare. */
  const WORKER_CLOSE: seq<Step> := [
    CheckMode, LoadConfig, CheckRetry, ReserveTrade, LoadPosition, CheckPosition, LoadBalance, SelectAmount, Sign,
    Consume(2), SendQuote, LoadGas, FinishPrepare, CreateAttempt, BeginPreparing, CaptureSnapshot, SaveSnapshot,
    BuildSwap, BeginSubmitting, SignSwap, Consume(5), SendSwap, ParseOrder, RecordOrder, SettleLane]

  function Itinerary(plan: Plan): seq<Step> {
    if plan.retry then WORKER_CLOSE else OPERATOR_CLOSE
  }

  /** How many of the itinerary's calls a phase of the try block has behind it. */
  function Progress(plan: Plan, p: Phase): Option<nat> {
    var created := if plan.retry then 13 else 14;
    match p
    case Opening(i) => Some(i)
    case Loading(i) => Some(4 + i)
    case Asking(_) => Some(8)
    case Told(_) => Some(8)
    case Quoting(i, _) => Some(8 + i)
    case CheckingSnapshot(_) => Some(13)
    case Creating(_) => Some(created)
    case Beginning(_) => Some(created + 1)
    case Cancelling(_, _, _) => Some(created + 2)
    case Hearing(_, _) => Some(created + 2)
    case Polling(_, _, _, _, _) => Some(created + 2)
    case Viewing(_, _, _, _, _) => Some(created + 2)
    case Confirming(_, _, _) => Some(created + 2)
    case Arming(i) => Some(created + 2 + if i < 4 then i else 3)
    case Selling(i) => Some(created + 6 + i)
    case Over(Sold) => Some(created + 12)
    case _ => None
  }

  predicate OnItinerary(plan: Plan, p: Phase, step: Step) {
    var done := Progress(plan, p);
    done.Some? && done.value < |Itinerary(plan)| && Itinerary(plan)[done.value] == step
  }

  lemma OperatorParts()
    ensures |OPERATOR_CLOSE| == 26
    ensures forall i :: 0 <= i < 4 ==> OPERATOR_CLOSE[i] == OPENING[i]
    ensures forall i :: 0 <= i < 4 ==> OPERATOR_CLOSE[4 + i] == LOADING[i]
    ensures forall i :: 0 <= i < 5 ==> OPERATOR_CLOSE[8 + i] == QUOTING[i]
    ensures OPERATOR_CLOSE[13] == CheckSnapshot && OPERATOR_CLOSE[14] == CreateAttempt
    ensures OPERATOR_CLOSE[15] == BeginPreparing
    ensures forall i :: 0 <= i < 3 ==> OPERATOR_CLOSE[16 + i] == ARMING[i]
    ensures OPERATOR_CLOSE[19] == BeginSubmitting
    ensures forall i :: 0 <= i < 6 ==> OPERATOR_CLOSE[20 + i] == SELLING[i]
  {
  }

  lemma WorkerParts()
    ensures |WORKER_CLOSE| == 25
    ensures forall i :: 0 <= i < 4 ==> WORKER_CLOSE[i] == REOPENING[i]
    ensures forall i :: 0 <= i < 4 ==> WORKER_CLOSE[4 + i] == LOADING[i]
    ensures forall i :: 0 <= i < 5 ==> WORKER_CLOSE[8 + i] == QUOTING[i]
    ensures WORKER_CLOSE[13] == CreateAttempt && WORKER_CLOSE[14] == BeginPreparing
    ensures forall i :: 0 <= i < 3 ==> WORKER_CLOSE[15 + i] == ARMING[i]
    ensures WORKER_CLOSE[18] == BeginSubmitting
    ensures forall i :: 0 <= i < 6 ==> WORKER_CLOSE[19 + i] == SELLING[i]
  {
  }

  /** The itinerary's next call is the one awaited. */
  lemma NextIsOnItinerary(plan: Plan, p: Phase, step: Step)
    requires Next(plan, p) == Some(step) && !PerStrategy(step) && Progress(plan, p).Some?
    requires (p.Opening? ==> p.i <= 3) && (p.CheckingSnapshot? ==> !plan.retry)
    ensures OnItinerary(plan, p, step)
  {
    LaneCallsAreArming(plan, p, step);
    Awaited(plan, p, step);
    assert p.Arming? ==> p.i == 0 || p.i == 1 || p.i == 2 || p.i == 4;
    hide Next, Progress, OnItinerary, PerStrategy, OPERATOR_CLOSE, WORKER_CLOSE;
    if plan.retry { NextOfWorker(plan, p, step); } else { NextOfOperator(plan, p, step); }
  }

  lemma NextOfWorker(plan: Plan, p: Phase, step: Step)
    requires Next(plan, p) == Some(step) && Progress(plan, p).Some? && InBounds(p) && plan.retry
    requires !(p.Asking? || p.Cancelling? || p.Polling? || p.Confirming? || p.CheckingSnapshot? || p == Arming(3))
    ensures OnItinerary(plan, p, step)
  {
    WorkerParts();
    hide Quarantines, RelevantOf, OPERATOR_CLOSE, WORKER_CLOSE;
  }

  lemma NextOfOperator(plan: Plan, p: Phase, step: Step)
    requires Next(plan, p) == Some(step) && Progress(plan, p).Some? && InBounds(p) && !plan.retry
    requires !(p.Asking? || p.Cancelling? || p.Polling? || p.Confirming? || p == Arming(3))
    ensures OnItinerary(plan, p, step)
  {
    OperatorParts();
    hide Quarantines, RelevantOf, OPERATOR_CLOSE, WORKER_CLOSE;
  }

  /** The index of a phase's next call is within the phase's calls. */
  predicate InBounds(p: Phase) {
    && (p.Opening? || p.Loading? ==> p.i <= 3) && (p.Quoting? || p.Arming? ==> p.i <= 4) && (p.Selling? ==> p.i <= 5)
  }

  lemma ProgressBeforeQuote(plan: Plan, p: Phase)
    requires BeforeQuote(p) && (p.Opening? || p.Loading? ==> p.i <= 3) && (p.Quoting? ==> p.i <= 4)
    requires Progress(plan, OnOk(plan, p)).Some?
    ensures Progress(plan, OnOk(plan, p)).value == Progress(plan, p).value + if p.Asking? then 0 else 1
  {
    hide RelevantOf, Cancellable, AnyUnsafe, CancelFrom, Attempted;
  }

  lemma ProgressAfterQuote(plan: Plan, p: Phase)
    requires !BeforeQuote(p) && Progress(plan, OnOk(plan, p)).Some?
    requires (p.Arming? ==> p.i <= 4) && (p.Selling? ==> p.i <= 5) && (p.CheckingSnapshot? ==> !plan.retry)
    ensures Progress(plan, p).Some?
    ensures Progress(plan, OnOk(plan, p)).value
         == Progress(plan, p).value
            + if p.Cancelling? || p.Polling? || p.Confirming? || (p.Arming? && p.i == 3) then 0 else 1
  {
    hide AskFrom, Attempted;
  }

  lemma ProgressOnOk(plan: Plan, p: Phase, step: Step)
    requires Next(plan, p) == Some(step) && Progress(plan, OnOk(plan, p)).Some?
    requires (p.Opening? ==> p.i <= 3) && (p.CheckingSnapshot? ==> !plan.retry)
    ensures Progress(plan, p).Some?
    ensures Progress(plan, OnOk(plan, p)).value == Progress(plan, p).value + if PerStrategy(step) then 0 else 1
  {
    Awaited(plan, p, step);
    LaneCallsAreArming(plan, p, step);
    assert !p.Refusing? && !p.Doubting? by { hide Next, AskFrom, CancelFrom, Attempted; }
    hide Next, OnOk, Progress, PerStrategy;
    if BeforeQuote(p) {
      assert Progress(plan, p).Some? by { ProgressOfTry(plan, p); }
      ProgressBeforeQuote(plan, p);
    } else {
      ProgressAfterQuote(plan, p);
    }
  }

  lemma ProgressOfTry(plan: Plan, p: Phase)
    requires BeforeQuote(p)
    ensures Progress(plan, p).Some?
  {
  }

  /** Which of a phase's calls are not on the itinerary. */
  lemma LaneCallsAreArming(plan: Plan, p: Phase, step: Step)
    requires Next(plan, p) == Some(step)
    ensures PerStrategy(step) <==>
              || p.Asking? || p.Cancelling? || p.Polling? || p.Confirming? || p.Refusing? || p.Doubting?
              || (p.Arming? && p.i == 3)
    ensures p.Arming? ==> p.i <= 4
  {
    hide Quarantines, RelevantOf;
  }

  lemma ProgressOnOther(plan: Plan, p: Phase, e: Event, error: Error)
    ensures Progress(plan, OnThrow(plan, p, error)).Some? ==>
              Progress(plan, p) == Progress(plan, OnThrow(plan, p, error))
    ensures Progress(plan, OnSeen(plan, p, e)).Some? ==> Progress(plan, p) == Progress(plan, OnSeen(plan, p, e))
  {
    hide RelevantOf, Cancellable, AnyUnsafe, Definitive;
  }

  lemma SnapshotsAreTheOperators(plan: Plan, p: Phase, e: Event)
    requires (p.CheckingSnapshot? ==> !plan.retry) && Advance(plan, p, e).CheckingSnapshot?
    ensures !plan.retry
  {
    hide RelevantOf, Cancellable, AnyUnsafe, Definitive, Quarantines, Attempted;
  }

  lemma {:induction false} SnapshotFollows(plan: Plan, log: seq<Event>)
    requires Possible(plan, log)
    ensures PhaseAfter(plan, log).CheckingSnapshot? ==> !plan.retry
  {
    Unfold(plan, log);
    if log != [] && PhaseAfter(plan, log).CheckingSnapshot? {
      hide PhaseAfter, Advance, Proper;
      SnapshotFollows(plan, log[..|log| - 1]);
      SnapshotsAreTheOperators(plan, PhaseAfter(plan, log[..|log| - 1]), log[|log| - 1]);
    }
  }

  /** What one event adds to the record's milestones is what it adds to the phase's progress. */
  lemma ProgressOneStep(plan: Plan, p: Phase, e: Event)
    requires Advance(plan, p, e) != Stuck && Progress(plan, Advance(plan, p, e)).Some?
    requires (p.Opening? ==> p.i <= 3) && (p.CheckingSnapshot? ==> !plan.retry)
    ensures Progress(plan, p).Some?
    ensures var q := Advance(plan, p, e);
            if e.Ok? && !PerStrategy(e.step)
            then Progress(plan, q).value == Progress(plan, p).value + 1 && OnItinerary(plan, p, e.step)
            else Progress(plan, q) == Progress(plan, p)
  {
    hide Next, OnOk, OnThrow, OnSeen, Progress, OnItinerary, PerStrategy, MaySucceed, MayThrow;
    if e.Ok? {
      ProgressOnOk(plan, p, e.step);
      if !PerStrategy(e.step) { NextIsOnItinerary(plan, p, e.step); }
    } else {
      ProgressOnOther(plan, p, e, if e.Threw? then e.error else STATE_UNSAFE);
    }
  }

  lemma OneMoreMilestone(log: seq<Event>, e: Event)
    ensures Milestones(log + [e]) == Milestones(log) + if e.Ok? && !PerStrategy(e.step) then [e.step] else []
  {
    assert (log + [e])[..|log|] == log;
    hide PerStrategy;
  }

  lemma OneMoreCallOfIt(plan: Plan, p: Phase, step: Step, done: nat)
    requires OnItinerary(plan, p, step) && Progress(plan, p) == Some(done)
    ensures done < |Itinerary(plan)| && Itinerary(plan)[..done + 1] == Itinerary(plan)[..done] + [step]
  {
    hide Progress, Itinerary;
  }

  /** In the try block the record's milestones are the itinerary up to where the phase is. */
  lemma {:induction false} ItineraryFollows(plan: Plan, log: seq<Event>)
    requires Possible(plan, log)
    ensures var done := Progress(plan, PhaseAfter(plan, log));
            done.Some? ==> done.value <= |Itinerary(plan)| && Milestones(log) == Itinerary(plan)[..done.value]
  {
    Unfold(plan, log);
    if log == [] {
      assert Itinerary(plan)[..0] == [];
    } else if Progress(plan, PhaseAfter(plan, log)).Some? {
      var front, last := log[..|log| - 1], log[|log| - 1];
      var p := PhaseAfter(plan, front);
      SnapshotFollows(plan, front);
      assert p.Opening? ==> p.i <= 3;
      OneMoreMilestone(front, last);
      hide PhaseAfter, Advance, Progress, PerStrategy, Itinerary, Proper, Milestones, OnItinerary;
      ProgressOneStep(plan, p, last);
      ItineraryFollows(plan, front);
      if last.Ok? && !PerStrategy(last.step) { OneMoreCallOfIt(plan, p, last.step, Progress(plan, p).value); }
    }
  }

  /** Before a sell request every call of the itinerary up to it has succeeded, in order and once. */
  lemma SellIsPrepared(plan: Plan, log: seq<Event>, k: nat)
    requires Possible(plan, log) && k < |log| && Sends(log[k])
    ensures Milestones(log[..k]) == if plan.retry then WORKER_CLOSE[..21] else OPERATOR_CLOSE[..22]
  {
    SendsFromSelling(plan, log, k);
    PrefixIsPossible(plan, log, k);
    ItineraryFollows(plan, log[..k]);
    hide PhaseAfter, Milestones;
  }

  /** A sold close made every call of the itinerary. */
  lemma SoldInFull(plan: Plan, log: seq<Event>)
    requires PhaseAfter(plan, log) == Over(Sold)
    ensures Milestones(log) == if plan.retry then WORKER_CLOSE else OPERATOR_CLOSE
  {
    ItineraryFollows(plan, log);
    hide PhaseAfter, Milestones;
    assert Itinerary(plan)[..|Itinerary(plan)|] == Itinerary(plan);
  }

  // ----- writes happen under the wallet lane -----

  /** A call that gives the lane back. */
  predicate GivesBackLane(e: Event) {
    (e.Ok? || e.Threw?) && (e.step == ReleaseVerified || e.step == ReleaseCancelRejected || e.step == ReleaseLane)
  }

  /** The lane was acquired and no call since gave it back. */
  predicate LaneHeld(log: seq<Event>) {
    exists i :: 0 <= i < |log| && log[i] == Ok(AcquireLane) && forall j :: i < j < |log| ==> !GivesBackLane(log[j])
  }

  /** The phases in which the saga holds the lane. */
  predicate HoldsLane(p: Phase) {
    match p
    case Cancelling(i, _, _) => i > 0
    case Hearing(_, _) => true
    case Polling(_, _, _, _, _) => true
    case Viewing(_, _, _, _, _) => true
    case Confirming(_, _, _) => true
    case Arming(i) => i > 3
    case Selling(_) => true
    case _ => false
  }

  lemma LaneOneStep(plan: Plan, p: Phase, e: Event)
    requires Proper(p) && Advance(plan, p, e) != Stuck && HoldsLane(Advance(plan, p, e))
    ensures e == Ok(AcquireLane) || (HoldsLane(p) && !GivesBackLane(e))
  {
    hide Definitive, RelevantOf, Cancellable, AnyUnsafe, Quarantines, Attempted, GiveUpError;
  }

  lemma LaneGrows(log: seq<Event>, e: Event)
    ensures LaneHeld(log + [Ok(AcquireLane)])
    ensures LaneHeld(log) && !GivesBackLane(e) ==> LaneHeld(log + [e])
  {
    var taken := log + [Ok(AcquireLane)];
    assert taken[|log|] == Ok(AcquireLane);
    if LaneHeld(log) && !GivesBackLane(e) {
      var i :| 0 <= i < |log| && log[i] == Ok(AcquireLane) && forall j :: i < j < |log| ==> !GivesBackLane(log[j]);
      var more := log + [e];
      assert more[i] == Ok(AcquireLane);
      forall j | i < j < |more| ensures !GivesBackLane(more[j]) { if j < |log| { assert more[j] == log[j]; } }
    }
  }

  lemma {:induction false} LaneFollows(plan: Plan, log: seq<Event>)
    requires Possible(plan, log)
    ensures HoldsLane(PhaseAfter(plan, log)) ==> LaneHeld(log)
  {
    Unfold(plan, log);
    if log != [] && HoldsLane(PhaseAfter(plan, log)) {
      var front, last := log[..|log| - 1], log[|log| - 1];
      LaneOneStep(plan, PhaseAfter(plan, front), last);
      hide PhaseAfter, Advance, Proper, HoldsLane, LaneHeld, GivesBackLane;
      LaneFollows(plan, front);
      LaneGrows(front, last);
    }
  }

  /** A sell or a strategy cancel, whatever its outcome. */
  predicate Writes(e: Event) {
    (e.Ok? || e.Threw?) && (e.step == SendSwap || e.step.CancelOrder?)
  }

  /** Every sell and every cancel goes out while the saga holds the wallet lane. */
  lemma WritesUnderTheLane(plan: Plan, log: seq<Event>, k: nat)
    requires Possible(plan, log) && k < |log| && Writes(log[k])
    ensures exists i :: 0 <= i < k && log[i] == Ok(AcquireLane)
              && forall j :: i < j < k && (log[j].Ok? || log[j].Threw?) ==>
                   log[j].step != ReleaseVerified && log[j].step != ReleaseCancelRejected && log[j].step != ReleaseLane
  {
    var before := log[..k];
    PrefixIsPossible(plan, log, k + 1);
    PrefixIsPossible(plan, log, k);
    WriterHoldsLane(plan, before, log[k]);
    LaneFollows(plan, before);
    var i :| 0 <= i < |before| && before[i] == Ok(AcquireLane) && forall j :: i < j < |before| ==> !GivesBackLane(before[j]);
    assert log[i] == before[i];
    forall j | i < j < k && (log[j].Ok? || log[j].Threw?)
      ensures log[j].step != ReleaseVerified && log[j].step != ReleaseCancelRejected && log[j].step != ReleaseLane
    {
      assert log[j] == before[j] && !GivesBackLane(before[j]);
    }
  }

  lemma WriterHoldsLane(plan: Plan, log: seq<Event>, e: Event)
    requires Possible(plan, log) && Advance(plan, PhaseAfter(plan, log), e) != Stuck && Writes(e)
    ensures HoldsLane(PhaseAfter(plan, log))
  {
    ProperAlways(plan, log);
    Awaited(plan, PhaseAfter(plan, log), e.step);
    AwaitsCancel(plan, PhaseAfter(plan, log), e.step);
    hide PhaseAfter, Next, OnOk, OnThrow, OnSeen;
  }

  // ----- the wallet lane -----

  /** Quarantining was asked for by an open cancel and threw, with an error that is no cancellation's. */
  ghost predicate QuarantineLost(log: seq<Event>) {
    exists g, e, q :: Threw(CancelOrder(g), e) in log && !Definitive(e)
                      && Threw(QuarantineCancel, q) in log && !CancelCode(q.code)
  }

  predicate SellStep(step: Step) {
    step == SendSwap || step == ParseOrder || step == RecordOrder || step == SettleLane
  }

  /**
   The catch block frees the lane exactly when the attempt exists, its error is not an
   uncertain one of a started submission, and it does not carry a cancellation's code.
  */
  lemma FreedExactly(plan: Plan, log: seq<Event>, at: Phase, cause: Error, thrown: Error)
    requires PhaseAfter(plan, log) == Over(Broken(at, cause, thrown))
    ensures Called(log, ReleaseLane)
            <==> && Ok(CreateAttempt) in log && !CancelCode(cause.code)
                 && !(Ok(BeginSubmitting) in log && Classify(cause, true) == Uncertain)
  {
    FlagsFollow(plan, log);
    CleanupFollows(plan, log);
    hide PhaseAfter, Called, Classify, CancelCode;
  }

  /**
   After a sell request the lane is freed only when the sell's own error, that of the request
   or of what followed it, is a definitive answer or a rate limit.
  */
  lemma FreedLaneAfterSell(plan: Plan, log: seq<Event>, at: Phase, cause: Error, thrown: Error)
    requires PhaseAfter(plan, log) == Over(Broken(at, cause, thrown)) && SendsIn(log) > 0
    ensures exists step :: SellStep(step) && Threw(step, cause) in log
    ensures forall step, e :: SellStep(step) && Threw(step, e) in log ==> e == cause
    ensures Called(log, ReleaseLane) ==> RateLimited(cause) || Answered(cause)
  {
    SellErrorIsCause(plan, log, at, cause, thrown);
    SubmissionWasOpen(plan, log, at, cause, thrown);
    FreedExactly(plan, log, at, cause, thrown);
    RejectionNeedsAnAnswer(cause);
    hide PhaseAfter, Called, Classify, CancelCode, Answered, RateLimited, SendsIn;
  }

  lemma SubmissionWasOpen(plan: Plan, log: seq<Event>, at: Phase, cause: Error, thrown: Error)
    requires PhaseAfter(plan, log) == Over(Broken(at, cause, thrown)) && SendsIn(log) > 0
    ensures Ok(BeginSubmitting) in log
  {
    FlagsFollow(plan, log);
    SentFollows(plan, log);
    hide PhaseAfter, SendsIn;
  }

  lemma SellErrorIsCause(plan: Plan, log: seq<Event>, at: Phase, cause: Error, thrown: Error)
    requires PhaseAfter(plan, log) == Over(Broken(at, cause, thrown)) && SendsIn(log) > 0
    ensures exists step :: SellStep(step) && Threw(step, cause) in log
    ensures forall step, e :: SellStep(step) && Threw(step, e) in log ==> e == cause
  {
    SentFollows(plan, log);
    CauseFollows(plan, log);
    ErrorsFollow(plan, log);
    hide PhaseAfter, SendsIn;
    assert SellStep(SELLING[at.i]) && Threw(SELLING[at.i], cause) in log;
    forall step, e | SellStep(step) && Threw(step, e) in log ensures e == cause {
      assert step in SELLING by { AllSellStepsSell(step); }
      assert Fatal(step);
    }
  }

  lemma AllSellStepsSell(step: Step)
    requires SellStep(step)
    ensures step in SELLING
  {
    assert SELLING[2] == SendSwap && SELLING[3] == ParseOrder && SELLING[4] == RecordOrder && SELLING[5] == SettleLane;
  }

  /**
   The catch block frees the lane although a cancel is open exactly when the cancel was not
   definitively rejected and the quarantine it asked for threw an error without a cancellation's code.
  */
  lemma OpenCancelLosesLaneExactly(plan: Plan, log: seq<Event>, at: Phase, cause: Error, thrown: Error)
    requires PhaseAfter(plan, log) == Over(Broken(at, cause, thrown))
    ensures Called(log, ReleaseLane) && (exists g :: CancelOpen(log, g)) <==> QuarantineLost(log)
  {
    FreedExactly(plan, log, at, cause, thrown);
    hide PhaseAfter, Called, CancelCode, Classify, CancelOpen, QuarantineLost;
    if Called(log, ReleaseLane) && exists g :: CancelOpen(log, g) { OpenAndFreed(plan, log, at, cause, thrown); }
    if QuarantineLost(log) {
      LostIsOpen(plan, log, at, cause, thrown);
      DoubtHasAttempt(plan, log, at, cause, thrown);
    }
  }

  lemma DoubtHasAttempt(plan: Plan, log: seq<Event>, at: Phase, cause: Error, thrown: Error)
    requires PhaseAfter(plan, log) == Over(Broken(at, cause, thrown)) && at.Doubting?
    ensures Ok(CreateAttempt) in log && Ok(BeginSubmitting) !in log
  {
    FlagsFollow(plan, log);
    hide PhaseAfter;
  }

  lemma OpenAndFreed(plan: Plan, log: seq<Event>, at: Phase, cause: Error, thrown: Error)
    requires PhaseAfter(plan, log) == Over(Broken(at, cause, thrown)) && !CancelCode(cause.code)
    requires exists g :: CancelOpen(log, g)
    ensures QuarantineLost(log)
  {
    ProperAlways(plan, log);
    CauseFollows(plan, log);
    CancelsFollow(plan, log);
    hide PhaseAfter, Definitive;
    if !at.Doubting? { SettledMeansClosed(log); }
    assert Threw(CancelOrder(at.g.id), at.doubt) in log && Threw(QuarantineCancel, cause) in log;
  }

  lemma AwaitsQuarantine(plan: Plan, p: Phase)
    requires Next(plan, p) == Some(QuarantineCancel)
    ensures p.Doubting?
  {
    hide Quarantines, RelevantOf;
  }

  lemma QuarantineErrorIsCause(plan: Plan, log: seq<Event>, at: Phase, cause: Error, thrown: Error, q: Error)
    requires PhaseAfter(plan, log) == Over(Broken(at, cause, thrown)) && Threw(QuarantineCancel, q) in log
    ensures at.Doubting? && cause == q
  {
    ErrorsFollow(plan, log);
    hide PhaseAfter, Next;
    var i :| 0 <= i < |log| && log[i] == Threw(QuarantineCancel, q);
    assert CauseOf(Over(Broken(at, cause, thrown))) == Some(log[i].error);
    AwaitsQuarantine(plan, at);
  }

  lemma LostIsOpen(plan: Plan, log: seq<Event>, at: Phase, cause: Error, thrown: Error)
    requires PhaseAfter(plan, log) == Over(Broken(at, cause, thrown)) && QuarantineLost(log)
    ensures !CancelCode(cause.code) && at.Doubting? && exists g :: CancelOpen(log, g)
  {
    hide PhaseAfter, Definitive, CancelCode;
    var g, e, q :| Threw(CancelOrder(g), e) in log && !Definitive(e) && Threw(QuarantineCancel, q) in log && !CancelCode(q.code);
    assert CancelOpen(log, g);
    hide CancelOpen;
    QuarantineErrorIsCause(plan, log, at, cause, thrown, q);
  }

  lemma StartedIsAttempted(p: Phase)
    requires InTry(p) && (SwapStarted(p) || Awaiting(p).Some? || p.Doubting?)
    ensures Attempted(p)
  {
  }

  lemma OpenNeedsAttempt(plan: Plan, log: seq<Event>, at: Phase, cause: Error, thrown: Error)
    requires PhaseAfter(plan, log) == Over(Broken(at, cause, thrown))
    requires Ok(BeginSubmitting) in log || (exists g :: CancelOpen(log, g))
    ensures Attempted(at)
  {
    FlagsFollow(plan, log);
    CancelsFollow(plan, log);
    ProperAlways(plan, log);
    assert InTry(at);
    hide PhaseAfter, Attempted, InTry, SwapStarted;
    if !at.Doubting? && Awaiting(at).None? && !(Ok(BeginSubmitting) in log) { SettledMeansClosed(log); }
    hide NoDoubt, AnsweredBut, CancelOpen;
    StartedIsAttempted(at);
  }

  /**
   An uncertain error of a started submission, or a cancel left open whose quarantine was not
   lost, never frees the lane. It is always marked, and quarantined exactly when the marking
   and the quarantine did not throw; an attempt whose order is recorded cannot be marked.
  */
  lemma OpenWriteIsQuarantined(plan: Plan, log: seq<Event>, at: Phase, cause: Error, thrown: Error)
    requires PhaseAfter(plan, log) == Over(Broken(at, cause, thrown))
    requires || (Ok(BeginSubmitting) in log && Classify(cause, true) == Uncertain)
             || ((exists g :: CancelOpen(log, g)) && !QuarantineLost(log))
    ensures !Called(log, ReleaseLane) && Called(log, MarkUncertain)
    ensures Ok(Quarantine) in log <==> Ok(MarkUncertain) in log && forall e :: Threw(Quarantine, e) !in log
    ensures Ok(RecordOrder) in log ==> Ok(Quarantine) !in log
  {
    FlagsFollow(plan, log);
    CleanupFollows(plan, log);
    OpenCancelLosesLaneExactly(plan, log, at, cause, thrown);
    OpenNeedsAttempt(plan, log, at, cause, thrown);
    hide PhaseAfter, Called, Classify, CancelCode, CancelOpen, QuarantineLost;
  }

  /** The error that leaves the saga is the catch block's own when its last call threw, the cause otherwise. */
  lemma LeavingError(plan: Plan, log: seq<Event>, at: Phase, cause: Error, thrown: Error)
    requires PhaseAfter(plan, log) == Over(Broken(at, cause, thrown))
    ensures log != [] && thrown == if log[|log| - 1].Threw? then log[|log| - 1].error else cause
  {
    Unfold(plan, log);
    hide PhaseAfter, Attempted, Quarantines, Definitive, RelevantOf, Cancellable, AnyUnsafe;
  }

  // ----- the one way an open cancel loses its lane -----

  const TIMEOUT := Error(None, "GMGN_REQUEST_TIMEOUT", true)
  const DATABASE_DOWN := Error(None, "ECONNREFUSED", false)
  const ONE_STRATEGY := Plan([Group(1, StRunning, true)], true, false)

  const UNTIL_ASKED: seq<Event> :=
    [Ok(CheckMode), Ok(ConsumeToken), Ok(CheckToken), Ok(ReserveTrade)]
    + [Ok(LoadPosition), Ok(CheckPosition), Ok(LoadBalance), Ok(SelectAmount)]
    + [Ok(QueryStrategy(1)), Saw(1, StRunning), Ok(Sign), Ok(Consume(QUOTE_WEIGHT))]

  const UNTIL_BEGUN: seq<Event> :=
    UNTIL_ASKED
    + [Ok(SendQuote), Ok(LoadGas), Ok(FinishPrepare), Ok(CheckSnapshot)]
    + [Ok(CreateAttempt), Ok(BeginPreparing), Ok(AcquireLane), Ok(MarkCancelling(1))]

  /** The outcomes of a close whose one cancel times out and whose quarantine finds the database down. */
  const LOST_LANE: seq<Event> :=
    UNTIL_BEGUN
    + [Threw(CancelOrder(1), TIMEOUT), Threw(QuarantineCancel, DATABASE_DOWN), Ok(ReleaseLease), Ok(ReleaseLane)]
    + [Ok(RejectAttempt)]

  lemma AfterTwo(plan: Plan, log: seq<Event>, a: Event, b: Event)
    ensures PhaseAfter(plan, log + [a, b]) == Advance(plan, Advance(plan, PhaseAfter(plan, log), a), b)
  {
    hide Advance, PhaseAfter;
    PhaseAfterOne(plan, log, a);
    PhaseAfterOne(plan, log + [a], b);
    assert log + [a] + [b] == log + [a, b];
  }

  lemma AfterFour(plan: Plan, log: seq<Event>, a: Event, b: Event, c: Event, d: Event)
    ensures PhaseAfter(plan, log + [a, b, c, d])
         == Advance(plan, Advance(plan, Advance(plan, Advance(plan, PhaseAfter(plan, log), a), b), c), d)
  {
    hide Advance, PhaseAfter;
    AfterTwo(plan, log, a, b);
    AfterTwo(plan, log + [a, b], c, d);
    assert log + [a, b] + [c, d] == log + [a, b, c, d];
  }

  lemma OneStrategyReserved(p: Plan)
    requires p == ONE_STRATEGY
    ensures Advance(p, Advance(p, Advance(p, Advance(p, Opening(0), Ok(CheckMode)), Ok(ConsumeToken)), Ok(CheckToken)),
                    Ok(ReserveTrade)) == Loading(0)
  {
    hide RelevantOf, Cancellable, Quarantines, AnyUnsafe;
  }

  lemma OneStrategyLoaded(p: Plan)
    requires p == ONE_STRATEGY
    ensures Advance(p, Advance(p, Advance(p, Advance(p, Loading(0), Ok(LoadPosition)), Ok(CheckPosition)), Ok(LoadBalance)),
                    Ok(SelectAmount)) == Asking([])
  {
    OneRelevant();
    hide RelevantOf, Cancellable, Quarantines;
  }

  lemma OneStrategyAsked(p: Plan, g: Group)
    requires p == ONE_STRATEGY && g == Group(1, StRunning, true)
    ensures Advance(p, Advance(p, Asking([]), Ok(QueryStrategy(1))), Saw(1, StRunning)) == Quoting(0, [g])
  {
    OneRelevant();
    var states: seq<Status> := [];
    assert states + [StRunning] == [StRunning] && !AnyUnsafe([StRunning]);
    hide RelevantOf, Cancellable, Quarantines, AnyUnsafe;
    assert Advance(p, Asking([]), Ok(QueryStrategy(1))) == Told([]);
    assert AskFrom(p, [StRunning]) == Quoting(0, [g]);
  }

  lemma OneStrategyQuoted(p: Plan, g: Group)
    requires p == ONE_STRATEGY
    ensures Advance(p, Advance(p, Quoting(0, [g]), Ok(Sign)), Ok(Consume(QUOTE_WEIGHT))) == Quoting(2, [g])
    ensures Advance(p, Advance(p, Advance(p, Advance(p, Quoting(2, [g]), Ok(SendQuote)), Ok(LoadGas)), Ok(FinishPrepare)),
                    Ok(CheckSnapshot)) == Creating([g])
  {
    hide RelevantOf, Cancellable, Quarantines, AnyUnsafe, Definitive;
  }

  lemma OneRelevant()
    ensures RelevantOf(ONE_STRATEGY.groups) == [Group(1, StRunning, true)]
    ensures Cancellable([Group(1, StRunning, true)], [StRunning]) == [Group(1, StRunning, true)]
  {
    var groups := ONE_STRATEGY.groups;
    assert groups[..0] == [] && RelevantOf([]) == [];
    var states := [StRunning];
    assert states[..0] == [];
  }

  lemma OneStrategyCancelled(p: Plan, g: Group)
    requires p == ONE_STRATEGY && g == Group(1, StRunning, true)
    ensures Advance(p, Advance(p, Advance(p, Advance(p, Creating([g]), Ok(CreateAttempt)), Ok(BeginPreparing)),
                    Ok(AcquireLane)), Ok(MarkCancelling(1))) == Cancelling(2, g, [])
  {
    hide RelevantOf, Cancellable, Quarantines, AnyUnsafe, Definitive;
  }

  lemma TimeoutThenDatabase()
    ensures !Definitive(TIMEOUT) && !CancelCode(DATABASE_DOWN.code)
  {
    RejectionNeedsAnAnswer(TIMEOUT);
    hide Definitive, RateLimited;
  }

  /** A doubtful cancel whose quarantine throws, up to the catch block. */
  lemma DoubtfulCancel(p: Plan, g: Group, doubt: Error, cause: Error)
    requires !Definitive(doubt)
    ensures var at := Doubting(doubt, g);
            && Advance(p, Cancelling(2, g, []), Threw(CancelOrder(g.id), doubt)) == at
            && Advance(p, at, Threw(QuarantineCancel, cause)) == Catching(at, cause)
            && Advance(p, Catching(at, cause), Ok(ReleaseLease)) == Cleaning(at, cause, false)
  {
    hide RelevantOf, Cancellable, AnyUnsafe, Definitive, CancelCode, Quarantines;
  }

  lemma FreedInTurn(p: Plan, at: Phase, cause: Error)
    requires !Quarantines(at, cause)
    ensures Advance(p, Cleaning(at, cause, false), Ok(ReleaseLane)) == Cleaning(at, cause, true)
    ensures Advance(p, Cleaning(at, cause, true), Ok(RejectAttempt)) == Over(Broken(at, cause, cause))
  {
    hide RelevantOf, Cancellable, AnyUnsafe, Quarantines, OrderRecorded;
  }

  lemma DoubtIsNotQuarantined(doubt: Error, g: Group, cause: Error)
    requires !CancelCode(cause.code)
    ensures !Quarantines(Doubting(doubt, g), cause)
  {
    hide Classify, CancelCode;
  }

  lemma UntilAsked()
    ensures PhaseAfter(ONE_STRATEGY, UNTIL_ASKED) == Quoting(2, [Group(1, StRunning, true)])
  {
    var p := ONE_STRATEGY;
    var none: seq<Event> := [];
    var reserved := [Ok(CheckMode), Ok(ConsumeToken), Ok(CheckToken), Ok(ReserveTrade)];
    assert PhaseAfter(p, none) == Opening(0) && none + reserved == reserved;
    OneStrategyReserved(p);
    OneStrategyLoaded(p);
    OneStrategyAsked(p, Group(1, StRunning, true));
    OneStrategyQuoted(p, Group(1, StRunning, true));
    hide PhaseAfter, Advance;
    AfterFour(p, none, Ok(CheckMode), Ok(ConsumeToken), Ok(CheckToken), Ok(ReserveTrade));
    AfterFour(p, reserved, Ok(LoadPosition), Ok(CheckPosition), Ok(LoadBalance), Ok(SelectAmount));
    AfterFour(p, reserved + [Ok(LoadPosition), Ok(CheckPosition), Ok(LoadBalance), Ok(SelectAmount)],
              Ok(QueryStrategy(1)), Saw(1, StRunning), Ok(Sign), Ok(Consume(QUOTE_WEIGHT)));
  }

  lemma UntilBegun()
    ensures PhaseAfter(ONE_STRATEGY, UNTIL_BEGUN) == Cancelling(2, Group(1, StRunning, true), [])
  {
    var p := ONE_STRATEGY;
    UntilAsked();
    OneStrategyQuoted(p, Group(1, StRunning, true));
    OneStrategyCancelled(p, Group(1, StRunning, true));
    hide PhaseAfter, Advance;
    AfterFour(p, UNTIL_ASKED, Ok(SendQuote), Ok(LoadGas), Ok(FinishPrepare), Ok(CheckSnapshot));
    AfterFour(p, UNTIL_ASKED + [Ok(SendQuote), Ok(LoadGas), Ok(FinishPrepare), Ok(CheckSnapshot)],
              Ok(CreateAttempt), Ok(BeginPreparing), Ok(AcquireLane), Ok(MarkCancelling(1)));
  }

  lemma LostLaneEvents()
    ensures Threw(CancelOrder(1), TIMEOUT) in LOST_LANE && Ok(ReleaseLane) in LOST_LANE
  {
    var n := |UNTIL_BEGUN|;
    assert LOST_LANE[n] == Threw(CancelOrder(1), TIMEOUT) && LOST_LANE[n + 3] == Ok(ReleaseLane);
  }

  /**
   A cancel times out and its quarantine finds the database down: these outcomes end the close
   with the quarantine's own error, and its catch block frees the lane although the cancel is open.
  */
  lemma OpenCancelCanLoseItsLane()
    ensures PhaseAfter(ONE_STRATEGY, LOST_LANE)
         == Over(Broken(Doubting(TIMEOUT, Group(1, StRunning, true)), DATABASE_DOWN, DATABASE_DOWN))
    ensures Ok(ReleaseLane) in LOST_LANE && CancelOpen(LOST_LANE, 1)
  {
    var p := ONE_STRATEGY;
    UntilBegun();
    var g := Group(1, StRunning, true);
    TimeoutThenDatabase();
    LostLaneEvents();
    hide PhaseAfter, Advance, Definitive, CancelCode, Quarantines;
    DoubtfulCancel(p, g, TIMEOUT, DATABASE_DOWN);
    DoubtIsNotQuarantined(TIMEOUT, g, DATABASE_DOWN);
    FreedInTurn(p, Doubting(TIMEOUT, g), DATABASE_DOWN);
    AfterFour(p, UNTIL_BEGUN, Threw(CancelOrder(1), TIMEOUT), Threw(QuarantineCancel, DATABASE_DOWN), Ok(ReleaseLease),
              Ok(ReleaseLane));
    PhaseAfterOne(p, UNTIL_BEGUN + [Threw(CancelOrder(1), TIMEOUT), Threw(QuarantineCancel, DATABASE_DOWN),
                                    Ok(ReleaseLease), Ok(ReleaseLane)], Ok(RejectAttempt));
  }
}
