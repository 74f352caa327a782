/**
 The three buying sagas. Each is a script of calls under a reserved rate lease; whichever
 call throws, the catch block cleans up. The methods below are proved to leave exactly
 the records `BuyRun` allows, and the lemmas say what every such record guarantees.
*/
module BuySagas {
  import opened Wrappers
  import opened SagaRuntime

  /**
   The calls of one try block, where in it the calls that matter stand, and whether creating
   the attempt may find the intent already there.
  */
  datatype Script = Script(
    body: seq<Step>, quote: nat, create: nat, mayMerge: bool, begin: nat, swap: nat, record: nat)

  const AUTOMATIC := Script(
    [LoadContext, CaptureEvidence, Sign, Consume(QUOTE_WEIGHT), SendQuote, FinishPrepare, CheckTarget, EvaluatePolicy,
     CheckRisk, CreateAttempt, BuildSwap, BeginSubmission, SignSwap, Consume(SWAP_WEIGHT), SendSwap, ParseOrder,
     RecordOrder, RecordTiming, SettleLane, WakeReconciliation],
    3, 9, true, 11, 12, 16)

  const MANUAL := Script(
    [LoadContext, Sign, Consume(QUOTE_WEIGHT), SendQuote, FinishPrepare, CheckTarget, CheckSnapshot, EvaluatePolicy,
     CheckRisk, CreateAttempt, CaptureSnapshot, BuildSwap, BeginSubmission, SignSwap, Consume(SWAP_WEIGHT), SendSwap,
     ParseOrder, RecordOrder, SettleLane, WakeReconciliation],
    2, 9, true, 12, 13, 17)

  const RETRY := Script(
    [LoadContext, Sign, Consume(QUOTE_WEIGHT), SendQuote, FinishPrepare, CheckTarget, EvaluatePolicy, CheckRisk,
     CheckPrincipal, CreateAttempt, CaptureSnapshot, BuildSwap, BeginSubmission, SignSwap, Consume(SWAP_WEIGHT),
     SendSwap, ParseOrder, RecordOrder, SettleLane, WakeReconciliation],
    2, 9, false, 12, 13, 17)

  predicate Preparatory(step: Step) {
    match step
    case CheckMode => true
    case CheckGate => true
    case Readiness => true
    case ConsumeToken => true
    case CheckToken => true
    case LoadConfig => true
    case CheckRetry => true
    case _ => false
  }

  /** Neither the lease, the lane, the attempt nor the provider's write is touched. */
  predicate Plain(step: Step) {
    step in {LoadContext, Sign, SendQuote, CaptureEvidence, FinishPrepare, CheckTarget, CheckSnapshot, EvaluatePolicy,
             CheckRisk, CheckPrincipal, CaptureSnapshot, BuildSwap, ParseOrder, RecordTiming, SettleLane,
             WakeReconciliation}
  }

  /** The quote comes first, then the attempt, the lane, the one swap, and its order. */
  ghost predicate WellFormed(s: Script) {
    && s.quote < s.create < s.begin < s.swap && s.swap + 2 < s.record < |s.body|
    && s.body[s.quote] == Consume(QUOTE_WEIGHT) && s.body[s.create] == CreateAttempt
    && s.body[s.begin] == BeginSubmission && s.body[s.record] == RecordOrder
    && s.body[s.swap] == SignSwap && s.body[s.swap + 1] == Consume(SWAP_WEIGHT) && s.body[s.swap + 2] == SendSwap
    && forall i | 0 <= i < |s.body| && i !in {s.quote, s.create, s.begin, s.swap, s.swap + 1, s.swap + 2, s.record} ::
         Plain(s.body[i])
  }

  predicate CleanupStep(step: Step) {
    step == ReleaseLane || step == RejectAttempt || step == MarkUncertain || step == Quarantine
  }

  /** What the step at an index is not, and which index each marked step has. */
  lemma BodyStep(s: Script, i: nat)
    requires WellFormed(s) && i < |s.body|
    ensures s.body[i] != ReserveTrade && s.body[i] != ReleaseLease && !CleanupStep(s.body[i])
    ensures s.body[i].Consume? <==> i == s.quote || i == s.swap + 1
    ensures s.body[i] == SendSwap <==> i == s.swap + 2
    ensures s.body[i] == RecordOrder <==> i == s.record
  {
    assert i !in {s.quote, s.create, s.begin, s.swap, s.swap + 1, s.swap + 2, s.record} ==> Plain(s.body[i]);
  }

  lemma QuietStep(before: seq<Event>, i: nat)
    requires Quiet(before) && i < |before|
    ensures before[i].Ok? || before[i].Threw?
    ensures !CleanupStep(before[i].step) && before[i].step != SendSwap && !TouchesLease(before[i])
  {
  }

  lemma AutomaticIsWellFormed()
    ensures WellFormed(AUTOMATIC)
  {
  }

  lemma ManualIsWellFormed()
    ensures WellFormed(MANUAL)
  {
  }

  lemma RetryIsWellFormed()
    ensures WellFormed(RETRY)
  {
  }

  function Oks(steps: seq<Step>): seq<Event> {
    if steps == [] then [] else Oks(steps[..|steps| - 1]) + [Ok(steps[|steps| - 1])]
  }

  datatype Ending =
    | NotReserved
    | Done
    | AlreadyIntended
    | Failed(at: nat, cause: Error, tail: seq<Event>)

  // ----- what the records of a run may look like -----

  /** Before the reservation nothing but preparatory calls happened, the last perhaps throwing. */
  predicate Quiet(before: seq<Event>) {
    forall i :: 0 <= i < |before| ==>
      || (before[i].Ok? && Preparatory(before[i].step))
      || (before[i].Threw? && (Preparatory(before[i].step) || before[i].step == ReserveTrade))
  }

  /** Two calls in a row, the second only if the first does not throw. */
  predicate InTurn(tail: seq<Event>, first: Step, second: Step) {
    || (|tail| == 1 && tail[0].Threw? && tail[0].step == first)
    || (|tail| == 2 && tail[0] == Ok(first) && (tail[1] == Ok(second) || (tail[1].Threw? && tail[1].step == second)))
  }

  /** The catch block after the lease is released. */
  predicate Cleanup(tail: seq<Event>, hasAttempt: bool, cause: Error, swapStarted: bool) {
    if !hasAttempt then tail == []
    else if Classify(cause, swapStarted) == Uncertain then InTurn(tail, MarkUncertain, Quarantine)
    else InTurn(tail, ReleaseLane, RejectAttempt)
  }

  /** The record when the body's call at an index is about to be made. */
  function Reached(s: Script, before: seq<Event>, at: nat): seq<Event>
    requires at <= |s.body|
  {
    before + [Ok(ReserveTrade)] + Oks(s.body[..at])
  }

  ghost predicate BuyRun(s: Script, before: seq<Event>, log: seq<Event>, ending: Ending)
    requires s.create < |s.body|
  {
    && Quiet(before) && Accounted(log)
    && match ending
       case NotReserved => log == before
       case Done => log == Reached(s, before, |s.body|)
       case AlreadyIntended => s.mayMerge && log == Reached(s, before, s.create) + [MergedIntent, Ok(ReleaseLease)]
       case Failed(at, cause, tail) =>
         && at < |s.body|
         && log == Reached(s, before, at) + [Threw(s.body[at], cause), Ok(ReleaseLease)] + tail
         && Cleanup(tail, s.create < at, cause, s.swap <= at)
         && (s.record < at ==> Ok(MarkUncertain) !in tail)
  }

  // ----- the lease -----

  lemma {:induction false} QuietLease(before: seq<Event>)
    requires Quiet(before)
    ensures LeaseAfter(before) == NoLease
  {
    if before != [] {
      QuietLease(before[..|before| - 1]);
      QuietStep(before, |before| - 1);
      hide Quiet, Preparatory;
    }
  }

  function LeaseIn(s: Script, i: nat): Lease {
    if i <= s.quote then Open(TRADE_WEIGHT) else if i <= s.swap + 1 then Open(SWAP_WEIGHT) else Closed
  }

  lemma LeaseStepInBody(s: Script, i: nat)
    requires WellFormed(s) && 0 < i <= |s.body|
    ensures LeaseStep(LeaseIn(s, i - 1), Ok(s.body[i - 1])) == LeaseIn(s, i)
  {
    BodyStep(s, i - 1);
    hide Plain;
  }

  lemma ReachedOne(s: Script, before: seq<Event>, i: nat)
    requires i < |s.body|
    ensures Reached(s, before, i + 1) == Reached(s, before, i) + [Ok(s.body[i])]
  {
    assert s.body[..i + 1][..i] == s.body[..i];
  }

  lemma ReachedNone(s: Script, before: seq<Event>)
    ensures Reached(s, before, 0) == before + [Ok(ReserveTrade)]
  {
  }

  lemma {:induction false} LeaseInBody(s: Script, before: seq<Event>, i: nat)
    requires WellFormed(s) && Quiet(before) && i <= |s.body|
    ensures LeaseAfter(Reached(s, before, i)) == LeaseIn(s, i)
  {
    hide WellFormed, Quiet, Reached, LeaseAfter;
    if i == 0 {
      QuietLease(before);
      LeaseAfterOne(before, Ok(ReserveTrade));
      ReachedNone(s, before);
    } else {
      hide LeaseStep, LeaseIn;
      LeaseInBody(s, before, i - 1);
      LeaseStepInBody(s, i);
      ReachedOne(s, before, i - 1);
      LeaseAfterOne(Reached(s, before, i - 1), Ok(s.body[i - 1]));
    }
  }

  predicate TouchesLease(e: Event) {
    e.Ok? && (e.step == ReserveTrade || e.step == ReleaseLease || e.step.Consume?)
  }

  lemma {:induction false} LeaseUntouched(log: seq<Event>, tail: seq<Event>)
    requires forall i :: 0 <= i < |tail| ==> !TouchesLease(tail[i])
    ensures LeaseAfter(log + tail) == LeaseAfter(log)
    decreases |tail|
  {
    if tail == [] {
      assert log + tail == log;
    } else {
      var front := tail[..|tail| - 1];
      LeaseUntouched(log, front);
      LeaseAfterOne(log + front, tail[|tail| - 1]);
      assert log + tail == log + front + [tail[|tail| - 1]];
    }
  }

  /** The reservation covers both requests: neither is ever refused. */
  lemma QuoteAndSwapAreCovered(s: Script, before: seq<Event>, log: seq<Event>, ending: Ending)
    requires WellFormed(s) && BuyRun(s, before, log, ending) && ending.Failed?
    ensures !s.body[ending.at].Consume?
  {
    var reached := Reached(s, before, ending.at);
    assert log[..|reached|] == reached && log[|reached|] == Threw(s.body[ending.at], ending.cause);
    LeaseInBody(s, before, ending.at);
    BodyStep(s, ending.at);
  }

  lemma CleanupLeavesLease(s: Script, tail: seq<Event>, hasAttempt: bool, cause: Error, swapStarted: bool)
    requires Cleanup(tail, hasAttempt, cause, swapStarted)
    ensures forall i :: 0 <= i < |tail| ==> !TouchesLease(tail[i])
  {
    hide Classify;
  }

  /** Whatever happens, a reserved lease ends closed. */
  lemma LeaseAlwaysCloses(s: Script, before: seq<Event>, log: seq<Event>, ending: Ending)
    requires WellFormed(s) && BuyRun(s, before, log, ending)
    ensures LeaseAfter(log) == if ending.NotReserved? then NoLease else Closed
  {
    match ending
    case NotReserved => QuietLease(before);
    case Done => LeaseInBody(s, before, |s.body|);
    case AlreadyIntended =>
      LeaseInBody(s, before, s.create);
      EndsClosed(Reached(s, before, s.create), MergedIntent, []);
      assert log == log + [];
    case Failed(at, cause, tail) =>
      LeaseInBody(s, before, at);
      BodyStep(s, at);
      CleanupLeavesLease(s, tail, s.create < at, cause, s.swap <= at);
      EndsClosed(Reached(s, before, at), Threw(s.body[at], cause), tail);
  }

  lemma EndsClosed(reached: seq<Event>, e: Event, tail: seq<Event>)
    requires LeaseAfter(reached) != NoLease && !e.Ok?
    requires forall i :: 0 <= i < |tail| ==> !TouchesLease(tail[i])
    ensures LeaseAfter(reached + [e, Ok(ReleaseLease)] + tail) == Closed
  {
    LeaseAfterOne(reached, e);
    LeaseAfterOne(reached + [e], Ok(ReleaseLease));
    assert reached + [e, Ok(ReleaseLease)] == reached + [e] + [Ok(ReleaseLease)];
    LeaseUntouched(reached + [e, Ok(ReleaseLease)], tail);
  }

  // ----- the wallet lane -----

  predicate Called(log: seq<Event>, step: Step) {
    exists i :: 0 <= i < |log| && (log[i].Ok? || log[i].Threw?) && log[i].step == step
  }

  /** The swap request left, whether or not an answer came back. */
  predicate SwapSent(log: seq<Event>) {
    Called(log, SendSwap)
  }

  lemma CalledInSum(a: seq<Event>, b: seq<Event>, step: Step)
    ensures Called(a + b, step) <==> Called(a, step) || Called(b, step)
  {
    var sum := a + b;
    forall i | 0 <= i < |a| ensures sum[i] == a[i] {}
    forall i | 0 <= i < |b| ensures sum[|a| + i] == b[i] {}
    if Called(b, step) {
      var i :| 0 <= i < |b| && (b[i].Ok? || b[i].Threw?) && b[i].step == step;
      assert sum[|a| + i].step == step;
    }
  }

  lemma QuietCalls(before: seq<Event>, step: Step)
    requires Quiet(before) && (CleanupStep(step) || step == SendSwap)
    ensures !Called(before, step)
  {
    forall i | 0 <= i < |before| ensures before[i].step != step { QuietStep(before, i); }
    hide Quiet;
  }

  lemma ReachedOneCalls(s: Script, before: seq<Event>, at: nat, step: Step)
    requires at < |s.body|
    ensures Called(Reached(s, before, at + 1), step) <==> Called(Reached(s, before, at), step) || s.body[at] == step
  {
    ReachedOne(s, before, at);
    var last := [Ok(s.body[at])];
    assert Called(last, step) <==> s.body[at] == step by { assert last[0].step == s.body[at]; }
    hide Reached, Called;
    CalledInSum(Reached(s, before, at), last, step);
  }

  lemma BodyCall(s: Script, i: nat, step: Step)
    requires WellFormed(s) && i < |s.body| && (CleanupStep(step) || step == SendSwap)
    ensures s.body[i] == step <==> step == SendSwap && i == s.swap + 2
  {
    BodyStep(s, i);
    hide WellFormed;
  }

  /** Up to an index of the body only its own calls were made. */
  lemma {:induction false} ReachedCalls(s: Script, before: seq<Event>, at: nat, step: Step)
    requires WellFormed(s) && Quiet(before) && at <= |s.body| && (CleanupStep(step) || step == SendSwap)
    ensures Called(Reached(s, before, at), step) <==> step == SendSwap && at > s.swap + 2
  {
    hide WellFormed, Quiet, Reached;
    if at == 0 {
      ReachedNone(s, before);
      QuietCalls(before, step);
      var reserve := [Ok(ReserveTrade)];
      assert !Called(reserve, step);
      hide Called, CleanupStep;
      CalledInSum(before, reserve, step);
    } else {
      hide Called, CleanupStep;
      ReachedCalls(s, before, at - 1, step);
      BodyCall(s, at - 1, step);
      ReachedOneCalls(s, before, at - 1, step);
    }
  }

  lemma ThrownCalls(thrower: Step, cause: Error, step: Step)
    requires step != ReleaseLease
    ensures Called([Threw(thrower, cause), Ok(ReleaseLease)], step) <==> thrower == step
  {
    var thrown := [Threw(thrower, cause), Ok(ReleaseLease)];
    assert thrown[0].step == thrower;
  }

  /** Everything a failed run called: what it reached, what threw, and the cleanup. */
  lemma FailedCalls(s: Script, before: seq<Event>, log: seq<Event>, ending: Ending, step: Step)
    requires WellFormed(s) && BuyRun(s, before, log, ending) && ending.Failed?
    requires CleanupStep(step) || step == SendSwap
    ensures Called(log, step) <==> Called(ending.tail, step) || (step == SendSwap && ending.at >= s.swap + 2)
  {
    hide Called, WellFormed, Quiet, Reached, Accounted, Cleanup;
    var reached := Reached(s, before, ending.at);
    var thrown := [Threw(s.body[ending.at], ending.cause), Ok(ReleaseLease)];
    ReachedCalls(s, before, ending.at, step);
    BodyCall(s, ending.at, step);
    ThrownCalls(s.body[ending.at], ending.cause, step);
    CalledInSum(reached, thrown, step);
    CalledInSum(reached + thrown, ending.tail, step);
  }

  /** The calls of a cleanup. */
  lemma CleanupCalls(tail: seq<Event>, hasAttempt: bool, cause: Error, swapStarted: bool)
    requires Cleanup(tail, hasAttempt, cause, swapStarted)
    ensures Called(tail, ReleaseLane) <==> hasAttempt && Classify(cause, swapStarted) != Uncertain
    ensures Called(tail, MarkUncertain) <==> hasAttempt && Classify(cause, swapStarted) == Uncertain
    ensures !Called(tail, SendSwap)
    ensures Ok(Quarantine) in tail ==> Ok(MarkUncertain) in tail
    ensures Called(tail, MarkUncertain) && Ok(MarkUncertain) in tail ==>
              (Ok(Quarantine) in tail <==> forall e :: Threw(Quarantine, e) !in tail)
  {
    hide Classify;
    if hasAttempt {
      assert 0 < |tail| <= 2;
      assert tail[0].Ok? || tail[0].Threw?;
      if |tail| == 2 { assert tail == [tail[0], tail[1]]; } else { assert tail == [tail[0]]; }
    }
  }

  lemma MergeCalls(step: Step)
    requires CleanupStep(step)
    ensures !Called([MergedIntent, Ok(ReleaseLease)], step) && !Called([MergedIntent, Ok(ReleaseLease)], SendSwap)
  {
  }

  /** A run that did not fail leaves the lane to what the order's settlement decided. */
  lemma OnlyFailuresCleanUp(s: Script, before: seq<Event>, log: seq<Event>, ending: Ending, step: Step)
    requires WellFormed(s) && BuyRun(s, before, log, ending) && !ending.Failed? && CleanupStep(step)
    ensures !Called(log, step)
    ensures SwapSent(log) <==> ending.Done?
  {
    assert s.create < s.swap && s.swap + 2 < |s.body|;
    hide Called, WellFormed, Quiet, Reached, Accounted;
    MergeCalls(step);
    match ending
    case NotReserved =>
      QuietCalls(before, step);
      QuietCalls(before, SendSwap);
    case Done =>
      ReachedCalls(s, before, |s.body|, step);
      ReachedCalls(s, before, |s.body|, SendSwap);
    case AlreadyIntended =>
      ReachedCalls(s, before, s.create, step);
      ReachedCalls(s, before, s.create, SendSwap);
      CalledInSum(Reached(s, before, s.create), [MergedIntent, Ok(ReleaseLease)], step);
      CalledInSum(Reached(s, before, s.create), [MergedIntent, Ok(ReleaseLease)], SendSwap);
  }

  /**
   The cleanup frees the lane exactly when an attempt exists and the error is not an
   uncertain one; it then follows that no swap was sent, or that its error was a
   definitive answer or a rate limit.
  */
  lemma FreedLaneMeansNoOpenWrite(s: Script, before: seq<Event>, log: seq<Event>, ending: Ending)
    requires WellFormed(s) && BuyRun(s, before, log, ending) && ending.Failed?
    ensures Called(log, ReleaseLane)
            <==> s.create < ending.at && Classify(ending.cause, s.swap <= ending.at) != Uncertain
    ensures Called(log, ReleaseLane) ==> !SwapSent(log) || RateLimited(ending.cause) || Answered(ending.cause)
  {
    FailedCalls(s, before, log, ending, ReleaseLane);
    FailedCalls(s, before, log, ending, SendSwap);
    CleanupCalls(ending.tail, s.create < ending.at, ending.cause, s.swap <= ending.at);
    RejectionNeedsAnAnswer(ending.cause);
    hide Called, WellFormed, Quiet, Reached, Accounted, Cleanup, RateLimited, Answered;
  }

  /**
   After an uncertain error the lane is never freed, and it is quarantined exactly when
   marking the attempt worked and the quarantine itself did not throw. A failure after
   the order was recorded cannot be marked, so it is not quarantined.
  */
  lemma UncertainWriteIsQuarantined(s: Script, before: seq<Event>, log: seq<Event>, ending: Ending)
    requires WellFormed(s) && BuyRun(s, before, log, ending) && ending.Failed?
    requires s.swap <= ending.at && Classify(ending.cause, true) == Uncertain
    ensures !Called(log, ReleaseLane) && Called(log, MarkUncertain)
    ensures Ok(Quarantine) in ending.tail
            <==> Ok(MarkUncertain) in ending.tail && forall e :: Threw(Quarantine, e) !in ending.tail
    ensures s.record < ending.at ==> Ok(Quarantine) !in ending.tail
  {
    FailedCalls(s, before, log, ending, ReleaseLane);
    FailedCalls(s, before, log, ending, MarkUncertain);
    CleanupCalls(ending.tail, s.create < ending.at, ending.cause, s.swap <= ending.at);
    hide Called, WellFormed, Quiet, Reached, Accounted, Cleanup, Classify;
  }

  // ----- the checks before the swap -----

  lemma {:induction false} OksAt(steps: seq<Step>, i: nat)
    requires i < |steps|
    ensures |Oks(steps)| == |steps| && Oks(steps)[i] == Ok(steps[i])
    decreases |steps|
  {
    if i < |steps| - 1 { OksAt(steps[..|steps| - 1], i); } else if |steps| > 1 { OksAt(steps[..|steps| - 1], 0); }
  }

  /** The record up to an index of the body, read off position by position. */
  lemma ReachedAt(s: Script, before: seq<Event>, at: nat, i: nat)
    requires i < at <= |s.body|
    ensures |Reached(s, before, at)| == |before| + 1 + at
    ensures Reached(s, before, at)[|before| + 1 + i] == Ok(s.body[i])
  {
    OksAt(s.body[..at], i);
  }

  /** A swap request stands at its own place in the record, behind everything the body has before it. */
  lemma SwapStandsBehind(s: Script, before: seq<Event>, log: seq<Event>, ending: Ending, k: nat)
    requires WellFormed(s) && BuyRun(s, before, log, ending) && k < |log| && Sends(log[k])
    ensures k == |before| + 1 + s.swap + 2
    ensures log[..k] == Reached(s, before, s.swap + 2)
  {
    assert s.create < s.swap && s.swap + 2 < s.record < |s.body|;
    if ending.NotReserved? {
      QuietStep(before, k);
    } else {
      SwapInRecord(s, before, log, ending, k, ReachedUpTo(s, ending));
    }
  }

  /** The index of the body up to which a reserved run's calls succeeded. */
  function ReachedUpTo(s: Script, ending: Ending): nat
    requires !ending.NotReserved?
  {
    match ending
    case Done => |s.body|
    case AlreadyIntended => s.create
    case Failed(at, _, _) => at
  }

  predicate Sends(e: Event) {
    (e.Ok? || e.Threw?) && e.step == SendSwap
  }

  lemma SwapInRecord(s: Script, before: seq<Event>, log: seq<Event>, ending: Ending, k: nat, at: nat)
    requires WellFormed(s) && BuyRun(s, before, log, ending) && !ending.NotReserved? && k < |log| && Sends(log[k])
    requires at == ReachedUpTo(s, ending)
    ensures k == |before| + 1 + s.swap + 2 && log[..k] == Reached(s, before, s.swap + 2)
  {
    hide BuyRun, WellFormed, Reached, Quiet, ReachedUpTo, Oks;
    RunFacts(s, before, log, ending);
    RecordBegins(s, before, log, ending, at);
    ReachedHead(s, before, at, |before|);
    AfterReached(s, before, log, ending, k, at);
    if k < |before| + 1 + at {
      assert Sends(Reached(s, before, at)[k]);
      SwapInReached(s, before, at, k);
    }
    ReachedIsPrefix(s, before, s.swap + 2, at);
    PrefixAt(Reached(s, before, s.swap + 2), Reached(s, before, at), log);
  }

  lemma RunFacts(s: Script, before: seq<Event>, log: seq<Event>, ending: Ending)
    requires WellFormed(s) && BuyRun(s, before, log, ending)
    ensures Quiet(before) && s.create < |s.body| && s.swap + 2 < |s.body|
  {
    hide Quiet, Reached, Accounted, Cleanup;
  }

  /** The record of a reserved run begins with what was reached. */
  lemma RecordBegins(s: Script, before: seq<Event>, log: seq<Event>, ending: Ending, at: nat)
    requires s.create < |s.body| && BuyRun(s, before, log, ending) && !ending.NotReserved? && at == ReachedUpTo(s, ending)
    ensures at <= |s.body| && Reached(s, before, at) <= log
  {
    hide Reached, Quiet, Accounted, Cleanup;
  }

  lemma ReachedHead(s: Script, before: seq<Event>, at: nat, k: nat)
    requires at <= |s.body| && k <= |before|
    ensures |Reached(s, before, at)| == |before| + 1 + at
    ensures Reached(s, before, at)[k] == if k < |before| then before[k] else Ok(ReserveTrade)
  {
    OksLength(s.body[..at]);
  }

  lemma SwapInReached(s: Script, before: seq<Event>, at: nat, k: nat)
    requires WellFormed(s) && Quiet(before) && at <= |s.body| && k < |Reached(s, before, at)|
    requires Sends(Reached(s, before, at)[k])
    ensures k == |before| + 1 + s.swap + 2 && s.swap + 2 < at
  {
    hide WellFormed, Quiet, Reached;
    ReachedHead(s, before, at, |before|);
    if k < |before| {
      ReachedHead(s, before, at, k);
      QuietStep(before, k);
    } else if k > |before| {
      ReachedAt(s, before, at, k - |before| - 1);
      BodyStep(s, k - |before| - 1);
    }
  }

  lemma {:induction false} OksLength(steps: seq<Step>)
    ensures |Oks(steps)| == |steps|
  {
    if steps != [] { OksAt(steps, 0); }
  }

  lemma CleanupNeverSends(tail: seq<Event>, hasAttempt: bool, cause: Error, swapStarted: bool)
    requires Cleanup(tail, hasAttempt, cause, swapStarted)
    ensures forall i :: 0 <= i < |tail| ==> !Sends(tail[i])
  {
    hide Classify;
  }

  /** Past what was reached only the body's own call at that place can be the swap. */
  lemma AfterReached(s: Script, before: seq<Event>, log: seq<Event>, ending: Ending, k: nat, at: nat)
    requires WellFormed(s) && BuyRun(s, before, log, ending) && !ending.NotReserved? && k < |log| && Sends(log[k])
    requires at == ReachedUpTo(s, ending)
    requires |Reached(s, before, at)| == |before| + 1 + at
    ensures k < |before| + 1 + at || (k == |before| + 1 + at && at == s.swap + 2)
  {
    hide Reached, Quiet, Accounted, WellFormed, Classify, Cleanup, Oks;
    if ending.Failed? {
      BodyStep(s, at);
      CleanupNeverSends(ending.tail, s.create < at, ending.cause, s.swap <= at);
      PastReached(Reached(s, before, at), Threw(s.body[at], ending.cause), ending.tail, k);
    }
  }

  lemma PastReached(reached: seq<Event>, first: Event, tail: seq<Event>, k: nat)
    requires var log := reached + [first, Ok(ReleaseLease)] + tail; k < |log| && Sends(log[k])
    requires forall i :: 0 <= i < |tail| ==> !Sends(tail[i])
    ensures k < |reached| || (k == |reached| && Sends(first))
  {
  }

  lemma PrefixAt(a: seq<Event>, b: seq<Event>, log: seq<Event>)
    requires a <= b <= log
    ensures log[..|a|] == a
  {
  }

  lemma ReachedIsPrefix(s: Script, before: seq<Event>, i: nat, at: nat)
    requires i <= at <= |s.body|
    ensures Reached(s, before, i) <= Reached(s, before, at) && |Reached(s, before, i)| == |before| + 1 + i
  {
    OksLength(s.body[..i]);
    OksLength(s.body[..at]);
    var a, b := Reached(s, before, i), Reached(s, before, at);
    forall j | 0 <= j < |a| ensures a[j] == b[j] {
      if j > |before| {
        ReachedAt(s, before, i, j - |before| - 1);
        ReachedAt(s, before, at, j - |before| - 1);
      }
    }
  }

  /** What the record of a buy with a swap request holds in front of it: `calls`, all successful, under a reservation. */
  ghost predicate SwapFollows(log: seq<Event>, k: nat, before: seq<Event>, calls: seq<Step>) {
    k < |log| && log[..k] == before + [Ok(ReserveTrade)] + Oks(calls)
  }

  lemma SwapFollowsBody(s: Script, before: seq<Event>, log: seq<Event>, ending: Ending, k: nat)
    requires WellFormed(s) && BuyRun(s, before, log, ending) && k < |log| && Sends(log[k])
    ensures s.swap + 2 <= |s.body| && SwapFollows(log, k, before, s.body[..s.swap + 2])
  {
    assert s.swap + 2 < |s.body|;
    SwapStandsBehind(s, before, log, ending, k);
    hide WellFormed, BuyRun;
  }

  lemma {:induction false} OksSum(a: seq<Step>, b: seq<Step>)
    ensures Oks(a + b) == Oks(a) + Oks(b)
    decreases |b|
  {
    if b == [] {
      assert a + b == a;
    } else {
      var front := b[..|b| - 1];
      OksSum(a, front);
      assert (a + b)[..|a + b| - 1] == a + front;
    }
  }

  /** A buy that completed went on behind its swap with `rest`. */
  ghost predicate SwapCompletes(log: seq<Event>, k: nat, rest: seq<Step>) {
    k < |log| && log[k..] == Oks([SendSwap] + rest)
  }

  lemma ReachedSplit(s: Script, before: seq<Event>, n: nat)
    requires n < |s.body|
    ensures Reached(s, before, |s.body|) == Reached(s, before, n) + Oks([s.body[n]] + s.body[n + 1..])
  {
    assert s.body[..|s.body|] == s.body[..n] + s.body[n..];
    assert s.body[n..] == [s.body[n]] + s.body[n + 1..];
    OksSum(s.body[..n], s.body[n..]);
    hide Oks;
    assert before + [Ok(ReserveTrade)] + Oks(s.body[..|s.body|])
        == before + [Ok(ReserveTrade)] + Oks(s.body[..n]) + Oks(s.body[n..]);
  }

  lemma SwapCompletesBody(s: Script, before: seq<Event>, log: seq<Event>, k: nat)
    requires WellFormed(s) && BuyRun(s, before, log, Done) && k < |log| && Sends(log[k])
    ensures s.swap + 3 <= |s.body| && SwapCompletes(log, k, s.body[s.swap + 3..])
  {
    var n := s.swap + 2;
    assert n < |s.body| && s.body[n] == SendSwap && log == Reached(s, before, |s.body|);
    SwapStandsBehind(s, before, log, Done, k);
    hide WellFormed, Oks, BuyRun, Reached;
    ReachedSplit(s, before, n);
    assert |log[..k]| == k;
  }

  lemma AutomaticAfterSwap()
    ensures AUTOMATIC.swap + 3 <= |AUTOMATIC.body|
    ensures AUTOMATIC.body[AUTOMATIC.swap + 3..] == [ParseOrder, RecordOrder, RecordTiming, SettleLane, WakeReconciliation]
  {
  }

  lemma AutomaticBeforeSwap()
    ensures AUTOMATIC.swap + 2 <= |AUTOMATIC.body| && AUTOMATIC.body[..AUTOMATIC.swap + 2] == [
      LoadContext, CaptureEvidence, Sign, Consume(2), SendQuote, FinishPrepare, CheckTarget, EvaluatePolicy, CheckRisk,
      CreateAttempt, BuildSwap, BeginSubmission, SignSwap, Consume(5)]
  {
  }

  lemma ManualAfterSwap()
    ensures MANUAL.swap + 3 <= |MANUAL.body|
    ensures MANUAL.body[MANUAL.swap + 3..] == [ParseOrder, RecordOrder, SettleLane, WakeReconciliation]
  {
  }

  lemma ManualBeforeSwap()
    ensures MANUAL.swap + 2 <= |MANUAL.body| && MANUAL.body[..MANUAL.swap + 2] == [
      LoadContext, Sign, Consume(2), SendQuote, FinishPrepare, CheckTarget, CheckSnapshot, EvaluatePolicy, CheckRisk,
      CreateAttempt, CaptureSnapshot, BuildSwap, BeginSubmission, SignSwap, Consume(5)]
  {
  }

  lemma RetryAfterSwap()
    ensures RETRY.swap + 3 <= |RETRY.body|
    ensures RETRY.body[RETRY.swap + 3..] == [ParseOrder, RecordOrder, SettleLane, WakeReconciliation]
  {
  }

  lemma RetryBeforeSwap()
    ensures RETRY.swap + 2 <= |RETRY.body| && RETRY.body[..RETRY.swap + 2] == [
      LoadContext, Sign, Consume(2), SendQuote, FinishPrepare, CheckTarget, EvaluatePolicy, CheckRisk, CheckPrincipal,
      CreateAttempt, CaptureSnapshot, BuildSwap, BeginSubmission, SignSwap, Consume(5)]
  {
  }

  /**
   The live worker's swap leaves only behind its evidence, the quote, and the target, policy and
   risk checks, each passed and in this order, and then the attempt and the submission's lane.
  */
  lemma AutomaticSwapIsChecked(before: seq<Event>, log: seq<Event>, ending: Ending, k: nat)
    requires BuyRun(AUTOMATIC, before, log, ending) && k < |log| && Sends(log[k])
    ensures SwapFollows(log, k, before, [
      LoadContext, CaptureEvidence, Sign, Consume(2), SendQuote, FinishPrepare, CheckTarget, EvaluatePolicy, CheckRisk,
      CreateAttempt, BuildSwap, BeginSubmission, SignSwap, Consume(5)])
  {
    AutomaticIsWellFormed();
    AutomaticBeforeSwap();
    hide WellFormed, BuyRun, SwapFollows;
    SwapFollowsBody(AUTOMATIC, before, log, ending, k);
  }

  /** A completed run goes on with the order, its record, its timing, the lane and the reconciliation. */
  lemma AutomaticSwapCompletes(before: seq<Event>, log: seq<Event>, k: nat)
    requires BuyRun(AUTOMATIC, before, log, Done) && k < |log| && Sends(log[k])
    ensures SwapCompletes(log, k, [ParseOrder, RecordOrder, RecordTiming, SettleLane, WakeReconciliation])
  {
    AutomaticIsWellFormed();
    AutomaticAfterSwap();
    hide WellFormed, BuyRun, SwapCompletes;
    SwapCompletesBody(AUTOMATIC, before, log, k);
  }

  /** The operator's swap also follows the comparison with the prepared snapshot, and its own saved evidence. */
  lemma ManualSwapIsChecked(before: seq<Event>, log: seq<Event>, ending: Ending, k: nat)
    requires BuyRun(MANUAL, before, log, ending) && k < |log| && Sends(log[k])
    ensures SwapFollows(log, k, before, [
      LoadContext, Sign, Consume(2), SendQuote, FinishPrepare, CheckTarget, CheckSnapshot, EvaluatePolicy, CheckRisk,
      CreateAttempt, CaptureSnapshot, BuildSwap, BeginSubmission, SignSwap, Consume(5)])
  {
    ManualIsWellFormed();
    ManualBeforeSwap();
    hide WellFormed, BuyRun, SwapFollows;
    SwapFollowsBody(MANUAL, before, log, ending, k);
  }

  lemma ManualSwapCompletes(before: seq<Event>, log: seq<Event>, k: nat)
    requires BuyRun(MANUAL, before, log, Done) && k < |log| && Sends(log[k])
    ensures SwapCompletes(log, k, [ParseOrder, RecordOrder, SettleLane, WakeReconciliation])
  {
    ManualIsWellFormed();
    ManualAfterSwap();
    hide WellFormed, BuyRun, SwapCompletes;
    SwapCompletesBody(MANUAL, before, log, k);
  }

  /** A retried swap also follows the comparison of its principal with the intent's. */
  lemma RetrySwapIsChecked(before: seq<Event>, log: seq<Event>, ending: Ending, k: nat)
    requires BuyRun(RETRY, before, log, ending) && k < |log| && Sends(log[k])
    ensures SwapFollows(log, k, before, [
      LoadContext, Sign, Consume(2), SendQuote, FinishPrepare, CheckTarget, EvaluatePolicy, CheckRisk, CheckPrincipal,
      CreateAttempt, CaptureSnapshot, BuildSwap, BeginSubmission, SignSwap, Consume(5)])
  {
    RetryIsWellFormed();
    RetryBeforeSwap();
    hide WellFormed, BuyRun, SwapFollows;
    SwapFollowsBody(RETRY, before, log, ending, k);
  }

  lemma RetrySwapCompletes(before: seq<Event>, log: seq<Event>, k: nat)
    requires BuyRun(RETRY, before, log, Done) && k < |log| && Sends(log[k])
    ensures SwapCompletes(log, k, [ParseOrder, RecordOrder, SettleLane, WakeReconciliation])
  {
    RetryIsWellFormed();
    RetryAfterSwap();
    hide WellFormed, BuyRun, SwapCompletes;
    SwapCompletesBody(RETRY, before, log, k);
  }

  // ----- a recorded order that is neither freed nor quarantined -----

  lemma {:induction false} QuietIsAccounted(before: seq<Event>)
    requires Quiet(before)
    ensures Accounted(before)
  {
    forall i | 0 <= i < |before| ensures !((before[i].Ok? || before[i].Threw?) && before[i].step.Consume?) {
      QuietStep(before, i);
    }
    hide Quiet, LeaseAfter;
  }

  /** The lease accounts for every call up to an index of the body. */
  lemma {:induction false} ReachedIsAccounted(s: Script, before: seq<Event>, i: nat)
    requires WellFormed(s) && Quiet(before) && i <= |s.body|
    ensures Accounted(Reached(s, before, i))
  {
    hide WellFormed, Quiet, Reached, LeaseAfter, Accounted;
    if i == 0 {
      QuietIsAccounted(before);
      ReachedNone(s, before);
      AccountedOne(before, Ok(ReserveTrade));
    } else {
      ReachedIsAccounted(s, before, i - 1);
      ReachedOne(s, before, i - 1);
      LeaseInBody(s, before, i - 1);
      BodyIsCovered(s, i - 1);
      AccountedOne(Reached(s, before, i - 1), Ok(s.body[i - 1]));
    }
  }

  lemma BodyIsCovered(s: Script, i: nat)
    requires WellFormed(s) && i < |s.body|
    ensures s.body[i].Consume? ==> CanConsume(LeaseIn(s, i), s.body[i].weight)
  {
    BodyStep(s, i);
  }

  lemma UnmarkedIsAccounted(reached: seq<Event>, first: Event, last: Event)
    requires Accounted(reached) && first.Threw? && !first.step.Consume? && last.Threw? && !last.step.Consume?
    ensures Accounted(reached + [first, Ok(ReleaseLease)] + [last])
  {
    hide Accounted, LeaseAfter;
    AccountedOne(reached, first);
    AccountedOne(reached + [first], Ok(ReleaseLease));
    assert reached + [first] + [Ok(ReleaseLease)] == reached + [first, Ok(ReleaseLease)];
    AccountedOne(reached + [first, Ok(ReleaseLease)], last);
  }

  /** A marking that throws is a record the saga can leave whenever an uncertain error arose after the order was recorded. */
  lemma UnmarkedRun(s: Script, before: seq<Event>, at: nat, cause: Error, thrown: Error)
    requires WellFormed(s) && Quiet(before) && s.record < at < |s.body| && Classify(cause, true) == Uncertain
    ensures var tail := [Threw(MarkUncertain, thrown)];
            BuyRun(s, before, Reached(s, before, at) + [Threw(s.body[at], cause), Ok(ReleaseLease)] + tail,
                   Failed(at, cause, tail))
  {
    var reached, tail := Reached(s, before, at), [Threw(MarkUncertain, thrown)];
    ReachedIsAccounted(s, before, at);
    assert !s.body[at].Consume? && s.create < s.swap < s.record by { BodyStep(s, at); }
    UnmarkedCleanup(cause, thrown);
    hide WellFormed, Quiet, Reached, LeaseAfter, Accounted, Classify, Cleanup, Oks;
    UnmarkedIsAccounted(reached, Threw(s.body[at], cause), tail[0]);
  }

  lemma UnmarkedCleanup(cause: Error, thrown: Error)
    requires Classify(cause, true) == Uncertain
    ensures Cleanup([Threw(MarkUncertain, thrown)], true, cause, true)
  {
    hide Classify;
  }

  /** A lost database connection, whose error carries no code. */
  const LANE_DOWN := Error(None, "", false)
  const PREPARED: seq<Event> := [Ok(CheckMode), Ok(Readiness), Ok(ConsumeToken), Ok(CheckToken)]

  /** An operator's buy whose order is recorded and whose lane settlement then throws. */
  function UnsettledBuy(): seq<Event> {
    Reached(MANUAL, PREPARED, 18)
    + [Threw(SettleLane, LANE_DOWN), Ok(ReleaseLease)] + [Threw(MarkUncertain, STATE_CHANGED)]
  }

  /** Its swap is out and its error uncertain, yet the cleanup neither frees nor quarantines the lane. */
  lemma RecordedOrderKeepsItsLane()
    ensures BuyRun(MANUAL, PREPARED, UnsettledBuy(), Failed(18, LANE_DOWN, [Threw(MarkUncertain, STATE_CHANGED)]))
    ensures SwapSent(UnsettledBuy()) && Classify(LANE_DOWN, true) == Uncertain
    ensures !Called(UnsettledBuy(), ReleaseLane) && !Called(UnsettledBuy(), Quarantine)
  {
    ManualIsWellFormed();
    LaneDownIsUncertain();
    UnmarkedCalls();
    assert MANUAL.body[18] == SettleLane && MANUAL.swap == 13 && MANUAL.record == 17 && |MANUAL.body| == 20;
    assert Quiet(PREPARED);
    hide BuyRun, Reached, Quiet, WellFormed, Classify, Called, LeaseAfter;
    UnmarkedRun(MANUAL, PREPARED, 18, LANE_DOWN, STATE_CHANGED);
    UnsettledCalls(MANUAL, PREPARED, UnsettledBuy(), 18, LANE_DOWN);
  }

  lemma UnsettledCalls(s: Script, before: seq<Event>, log: seq<Event>, at: nat, cause: Error)
    requires WellFormed(s) && s.swap + 2 <= at
    requires BuyRun(s, before, log, Failed(at, cause, [Threw(MarkUncertain, STATE_CHANGED)]))
    ensures SwapSent(log) && !Called(log, ReleaseLane) && !Called(log, Quarantine)
  {
    UnmarkedCalls();
    hide WellFormed, BuyRun, Called;
    var ending := Failed(at, cause, [Threw(MarkUncertain, STATE_CHANGED)]);
    FailedCalls(s, before, log, ending, ReleaseLane);
    FailedCalls(s, before, log, ending, Quarantine);
    FailedCalls(s, before, log, ending, SendSwap);
  }

  lemma UnmarkedCalls()
    ensures !Called([Threw(MarkUncertain, STATE_CHANGED)], ReleaseLane)
    ensures !Called([Threw(MarkUncertain, STATE_CHANGED)], Quarantine)
  {
  }

  lemma LaneDownIsUncertain()
    ensures Classify(LANE_DOWN, true) == Uncertain
  {
  }

  // ----- the sagas as they run -----

  /** The body's first `i` calls have succeeded. */
  ghost predicate At(log: seq<Event>, recorded: bool, s: Script, before: seq<Event>, i: nat) {
    i <= |s.body| && log == Reached(s, before, i) && recorded == (s.record < i)
  }

  ghost predicate StoppedAt(log: seq<Event>, recorded: bool, s: Script, before: seq<Event>, i: nat, e: Error) {
    i < |s.body| && log == Reached(s, before, i) + [Threw(s.body[i], e)] && recorded == (s.record < i)
  }

  /** What one more call makes of the record. */
  lemma AtNext(log: seq<Event>, recorded: bool, s: Script, before: seq<Event>, i: nat)
    requires WellFormed(s) && i < |s.body| && At(log, recorded, s, before, i)
    ensures At(log + [Ok(s.body[i])], recorded || s.body[i] == RecordOrder, s, before, i + 1)
    ensures forall e :: StoppedAt(log + [Threw(s.body[i], e)], recorded, s, before, i, e)
  {
    BodyStep(s, i);
    ReachedOne(s, before, i);
    hide Reached, WellFormed;
  }

  /** The awaited calls of a stretch of a try block, in order, until one throws. */
  method Await(x: Execution, s: Script, from: nat, to: nat, ghost before: seq<Event>)
    returns (r: Result<(), Error>, ghost at: nat)
    requires WellFormed(s) && from <= to <= |s.body| && x.Valid() && At(x.log, x.recorded, s, before, from)
    modifies x
    ensures x.Valid()
    ensures r.Success? ==> At(x.log, x.recorded, s, before, to)
    ensures r.Failure? ==> from <= at < to && StoppedAt(x.log, x.recorded, s, before, at, r.error)
  {
    hide At, StoppedAt, WellFormed, LeaseStep, CanConsume, Accounted, LeaseAfter;
    at := from;
    for i := from to to
      invariant x.Valid() && At(x.log, x.recorded, s, before, i)
    {
      AtNext(x.log, x.recorded, s, before, i);
      r := x.Do(s.body[i]);
      if r.Failure? { return r, i; }
    }
    r := Success(());
  }

  /** A call of a catch block after the lease is released. */
  method Settle(x: Execution, step: Step) returns (r: Result<(), Error>)
    requires x.Valid() && !TouchesLease(Ok(step)) && step != RecordOrder
    modifies x
    ensures x.Valid() && x.lease == old(x.lease) && x.recorded == old(x.recorded)
    ensures x.log == old(x.log) + [if r.Success? then Ok(step) else Threw(step, r.error)]
    ensures step == MarkUncertain && x.recorded ==> r.Failure?
  {
    assert LeaseStep(x.lease, Ok(step)) == x.lease;
    hide Accounted, LeaseAfter, CanConsume, LeaseStep, TouchesLease;
    r := x.Do(step);
  }

  lemma BothInTurn(first: Step, second: Step, e: Error)
    ensures InTurn([Threw(first, e)], first, second)
    ensures InTurn([Ok(first), Threw(second, e)], first, second)
    ensures InTurn([Ok(first), Ok(second)], first, second)
  {
  }

  /** Two calls of a catch block, the second only if the first does not throw. */
  method CallInTurn(x: Execution, first: Step, second: Step) returns (thrown: Option<Error>, ghost tail: seq<Event>)
    requires x.Valid() && !TouchesLease(Ok(first)) && !TouchesLease(Ok(second))
    requires first != RecordOrder && second != RecordOrder && second != MarkUncertain
    modifies x
    ensures x.Valid() && x.log == old(x.log) + tail && x.lease == old(x.lease) && x.recorded == old(x.recorded)
    ensures InTurn(tail, first, second) && tail != []
    ensures x.recorded ==> Ok(MarkUncertain) !in tail
    ensures thrown == if tail[|tail| - 1].Threw? then Some(tail[|tail| - 1].error) else None
  {
    hide Accounted, LeaseAfter, TouchesLease, InTurn;
    var r := Settle(x, first);
    if r.Failure? {
      BothInTurn(first, second, r.error);
      return Some(r.error), [Threw(first, r.error)];
    }
    r := Settle(x, second);
    if r.Failure? {
      BothInTurn(first, second, r.error);
      return Some(r.error), [Ok(first), Threw(second, r.error)];
    }
    BothInTurn(first, second, STATE_CHANGED);
    return None, [Ok(first), Ok(second)];
  }

  /** The catch block shared by the three sagas, ending in the error that leaves the saga. */
  method Catch(x: Execution, cause: Error, hasAttempt: bool, swapStarted: bool)
    returns (thrown: Error, ghost tail: seq<Event>)
    requires x.Valid()
    modifies x
    ensures x.Valid() && x.log == old(x.log) + [Ok(ReleaseLease)] + tail
    ensures Cleanup(tail, hasAttempt, cause, swapStarted)
    ensures old(x.recorded) ==> Ok(MarkUncertain) !in tail
    ensures thrown == if tail != [] && tail[|tail| - 1].Threw? then tail[|tail| - 1].error else cause
  {
    hide Accounted, LeaseAfter, Classify, InTurn, LeaseStep, Cleanup;
    var _ := x.Do(ReleaseLease);
    tail := [];
    thrown := cause;
    if hasAttempt {
      thrown, tail := CleanUp(x, cause, swapStarted);
    } else {
      CleanupFrom(tail, hasAttempt, cause, swapStarted);
    }
  }

  /** What the catch block does for an attempt that exists. */
  method CleanUp(x: Execution, cause: Error, swapStarted: bool) returns (thrown: Error, ghost tail: seq<Event>)
    requires x.Valid()
    modifies x
    ensures x.Valid() && x.log == old(x.log) + tail
    ensures Cleanup(tail, true, cause, swapStarted)
    ensures old(x.recorded) ==> Ok(MarkUncertain) !in tail
    ensures thrown == if tail != [] && tail[|tail| - 1].Threw? then tail[|tail| - 1].error else cause
  {
    hide Accounted, LeaseAfter, Classify, InTurn, LeaseStep, TouchesLease, Cleanup;
    var failure;
    NotLeaseSteps();
    if Classify(cause, swapStarted) == Uncertain {
      failure, tail := CallInTurn(x, MarkUncertain, Quarantine);
    } else {
      failure, tail := CallInTurn(x, ReleaseLane, RejectAttempt);
    }
    CleanupFrom(tail, true, cause, swapStarted);
    thrown := if failure.Some? then failure.value else cause;
  }

  lemma NotLeaseSteps()
    ensures !TouchesLease(Ok(MarkUncertain)) && !TouchesLease(Ok(Quarantine))
    ensures !TouchesLease(Ok(ReleaseLane)) && !TouchesLease(Ok(RejectAttempt))
  {
  }

  lemma CleanupFrom(tail: seq<Event>, hasAttempt: bool, cause: Error, swapStarted: bool)
    requires !hasAttempt ==> tail == []
    requires hasAttempt && Classify(cause, swapStarted) == Uncertain ==> InTurn(tail, MarkUncertain, Quarantine)
    requires hasAttempt && Classify(cause, swapStarted) != Uncertain ==> InTurn(tail, ReleaseLane, RejectAttempt)
    ensures Cleanup(tail, hasAttempt, cause, swapStarted)
  {
    hide Classify, InTurn;
  }

  /** The cleanup's own error when it threw, the cause otherwise. */
  function LeavingError(ending: Ending): Error
    requires ending.Failed?
  {
    var n := |ending.tail|;
    if n > 0 && ending.tail[n - 1].Threw? then ending.tail[n - 1].error else ending.cause
  }

  lemma RunCompletes(s: Script, before: seq<Event>, log: seq<Event>, recorded: bool)
    requires WellFormed(s) && Quiet(before) && Accounted(log) && At(log, recorded, s, before, |s.body|)
    ensures BuyRun(s, before, log, Done)
  {
  }

  lemma RunMerges(s: Script, before: seq<Event>, log: seq<Event>, recorded: bool)
    requires s.mayMerge && WellFormed(s) && Quiet(before) && At(log, recorded, s, before, s.create)
    ensures Accounted(log + [MergedIntent] + [Ok(ReleaseLease)]) ==>
              BuyRun(s, before, log + [MergedIntent] + [Ok(ReleaseLease)], AlreadyIntended)
  {
    assert log + [MergedIntent] + [Ok(ReleaseLease)] == log + [MergedIntent, Ok(ReleaseLease)];
    hide WellFormed, Quiet, Reached, Accounted;
  }

  lemma RunFails(s: Script, before: seq<Event>, log: seq<Event>, at: nat, cause: Error, recorded: bool, tail: seq<Event>)
    requires WellFormed(s) && Quiet(before) && StoppedAt(log, recorded, s, before, at, cause)
    requires Cleanup(tail, s.create < at, cause, s.swap <= at) && (recorded ==> Ok(MarkUncertain) !in tail)
    requires Accounted(log + [Ok(ReleaseLease)] + tail)
    ensures BuyRun(s, before, log + [Ok(ReleaseLease)] + tail, Failed(at, cause, tail))
  {
    assert log + [Ok(ReleaseLease)] + tail
        == Reached(s, before, at) + [Threw(s.body[at], cause), Ok(ReleaseLease)] + tail;
    hide WellFormed, Quiet, Reached, Accounted, Cleanup;
  }

  /**
   The try and catch blocks: prepare and check, create the attempt (or find the intent
   already there and give the lease back), open the submission, swap, record and settle.
  */
  method TryAndCatch(x: Execution, s: Script, ghost before: seq<Event>)
    returns (r: Result<bool, Error>, ghost ending: Ending)
    requires WellFormed(s) && Quiet(before) && x.Valid() && At(x.log, x.recorded, s, before, 0)
    modifies x
    ensures BuyRun(s, before, x.log, ending) && !ending.NotReserved?
    ensures r.Success? ==> ending == if r.value then AlreadyIntended else Done
    ensures r.Failure? ==> ending.Failed? && r.error == LeavingError(ending)
  {
    hide WellFormed, Quiet, Accounted, LeaseAfter, LeaseStep, Cleanup, At, StoppedAt, BuyRun;
    var tried, attempt, swapStarted, at := Try(x, s, before);
    if tried.Failure? {
      r, ending := Caught(x, s, before, at, tried.error, attempt, swapStarted);
    } else {
      r, ending := tried, if tried.value then AlreadyIntended else Done;
    }
  }

  /** The try block: whether the intent was there already, with the flags the catch block reads. */
  method Try(x: Execution, s: Script, ghost before: seq<Event>)
    returns (r: Result<bool, Error>, attempt: bool, swapStarted: bool, ghost at: nat)
    requires WellFormed(s) && Quiet(before) && x.Valid() && At(x.log, x.recorded, s, before, 0)
    modifies x
    ensures x.Valid()
    ensures r.Success? ==> BuyRun(s, before, x.log, if r.value then AlreadyIntended else Done)
    ensures r.Failure? ==> StoppedAt(x.log, x.recorded, s, before, at, r.error)
    ensures r.Failure? ==> attempt == (s.create < at) && swapStarted == (s.swap <= at)
  {
    assert s.create < s.swap < s.record < |s.body|;
    hide WellFormed, Quiet, Accounted, LeaseAfter, LeaseStep, Reached, At, StoppedAt, BuyRun;
    r, attempt, swapStarted, at := Success(false), false, false, 0;
    var step;
    step, at := Await(x, s, 0, s.create, before);
    if step.Failure? { return Failure(step.error), attempt, swapStarted, at; }
    var merged: bool := *;
    if s.mayMerge && merged {
      r := Merge(x, s, before);
      return;
    }
    r, attempt, swapStarted, at := CreateAndSubmit(x, s, before);
  }

  /** Creates the attempt and goes on under it. */
  method CreateAndSubmit(x: Execution, s: Script, ghost before: seq<Event>)
    returns (r: Result<bool, Error>, attempt: bool, swapStarted: bool, ghost at: nat)
    requires WellFormed(s) && Quiet(before) && x.Valid() && At(x.log, x.recorded, s, before, s.create)
    modifies x
    ensures x.Valid()
    ensures r.Success? ==> !r.value && BuyRun(s, before, x.log, Done)
    ensures r.Failure? ==> StoppedAt(x.log, x.recorded, s, before, at, r.error)
    ensures r.Failure? ==> attempt == (s.create < at) && swapStarted == (s.swap <= at)
  {
    assert s.create < s.swap < s.record < |s.body|;
    hide WellFormed, Quiet, Accounted, LeaseAfter, LeaseStep, Reached, At, StoppedAt, BuyRun;
    r, attempt, swapStarted, at := Success(false), false, false, 0;
    var step;
    step, at := Await(x, s, s.create, s.create + 1, before);
    if step.Failure? { return Failure(step.error), attempt, swapStarted, at; }
    attempt := true;
    r, swapStarted, at := Submit(x, s, before);
  }

  /** The rest of the try block, once an attempt exists. */
  method Submit(x: Execution, s: Script, ghost before: seq<Event>)
    returns (r: Result<bool, Error>, swapStarted: bool, ghost at: nat)
    requires WellFormed(s) && Quiet(before) && x.Valid() && At(x.log, x.recorded, s, before, s.create + 1)
    modifies x
    ensures x.Valid()
    ensures r.Success? ==> !r.value && BuyRun(s, before, x.log, Done)
    ensures r.Failure? ==> StoppedAt(x.log, x.recorded, s, before, at, r.error)
    ensures r.Failure? ==> s.create < at && swapStarted == (s.swap <= at)
  {
    assert s.create < s.swap < s.record < |s.body|;
    hide WellFormed, Quiet, Accounted, LeaseAfter, LeaseStep, At, StoppedAt, BuyRun;
    r, swapStarted, at := Success(false), false, 0;
    var step;
    step, at := Await(x, s, s.create + 1, s.swap, before);
    if step.Failure? { return Failure(step.error), swapStarted, at; }
    swapStarted := true;
    step, at := Await(x, s, s.swap, |s.body|, before);
    if step.Failure? { return Failure(step.error), swapStarted, at; }
    RunCompletes(s, before, x.log, x.recorded);
  }

  /** The intent is there already: the lease goes back and no attempt is made. */
  method Merge(x: Execution, ghost s: Script, ghost before: seq<Event>) returns (r: Result<bool, Error>)
    requires s.mayMerge && WellFormed(s) && Quiet(before) && x.Valid() && At(x.log, x.recorded, s, before, s.create)
    modifies x
    ensures x.Valid() && BuyRun(s, before, x.log, AlreadyIntended) && r == Success(true)
  {
    RunMerges(s, before, x.log, x.recorded);
    hide WellFormed, Quiet, Accounted, LeaseAfter, LeaseStep, At, BuyRun;
    x.Note(MergedIntent);
    var _ := x.Do(ReleaseLease);
    r := Success(true);
  }

  /** The catch block, seen from the saga. */
  method Caught(x: Execution, ghost s: Script, ghost before: seq<Event>, ghost at: nat, cause: Error, attempt: bool,
                swapStarted: bool)
    returns (r: Result<bool, Error>, ghost ending: Ending)
    requires WellFormed(s) && Quiet(before) && x.Valid() && StoppedAt(x.log, x.recorded, s, before, at, cause)
    requires attempt == (s.create < at) && swapStarted == (s.swap <= at)
    modifies x
    ensures BuyRun(s, before, x.log, ending) && r.Failure? && ending.Failed? && r.error == LeavingError(ending)
  {
    hide WellFormed, Quiet, Accounted, LeaseAfter, Cleanup, StoppedAt, BuyRun;
    ghost var log, recorded := x.log, x.recorded;
    var thrown, tail := Catch(x, cause, attempt, swapStarted);
    RunFails(s, before, log, at, cause, recorded, tail);
    return Failure(thrown), Failed(at, cause, tail);
  }

  /** A call before anything is reserved, or the reservation itself. */
  method Before(x: Execution, step: Step) returns (r: Result<(), Error>)
    requires x.Valid() && Quiet(x.log) && !x.recorded && (Preparatory(step) || step == ReserveTrade)
    modifies x
    ensures x.Valid() && !x.recorded
    ensures x.log == old(x.log) + [if r.Success? then Ok(step) else Threw(step, r.error)]
    ensures r.Failure? || Preparatory(step) ==> Quiet(x.log)
  {
    QuietOne(x.log, step);
    hide Quiet, Preparatory, Accounted, LeaseAfter, LeaseStep;
    r := x.Do(step);
  }

  lemma QuietOne(log: seq<Event>, step: Step)
    requires Quiet(log)
    ensures forall e :: Preparatory(step) || step == ReserveTrade ==> Quiet(log + [Threw(step, e)])
    ensures Preparatory(step) ==> Quiet(log + [Ok(step)])
  {
    hide Preparatory;
  }

  /** Reserves the rate lease; everything after it runs under the try block. */
  method UnderLease(x: Execution, s: Script)
    returns (r: Result<bool, Error>, ghost before: seq<Event>, ghost ending: Ending)
    requires WellFormed(s) && Quiet(x.log) && x.Valid() && !x.recorded
    modifies x
    ensures BuyRun(s, before, x.log, ending)
    ensures r.Success? <==> ending.Done? || ending.AlreadyIntended?
    ensures !ending.NotReserved? ==> before == old(x.log)
  {
    before := x.log;
    StartsAt(s, before);
    assert s.create < |s.body|;
    hide WellFormed, Quiet, Accounted, LeaseAfter, LeaseStep, At, Preparatory, BuyRun;
    var reserved := Before(x, ReserveTrade);
    if reserved.Failure? {
      NotReservedRun(s, x.log);
      return Failure(reserved.error), x.log, NotReserved;
    }
    r, ending := TryAndCatch(x, s, before);
  }

  lemma StartsAt(s: Script, before: seq<Event>)
    requires WellFormed(s)
    ensures At(before + [Ok(ReserveTrade)], false, s, before, 0)
  {
    ReachedNone(s, before);
  }

  lemma NotReservedRun(s: Script, log: seq<Event>)
    requires Quiet(log) && Accounted(log) && s.create < |s.body|
    ensures BuyRun(s, log, log, NotReserved)
  {
  }

  method BeforeExecute(x: Execution) returns (r: Result<(), Error>)
    requires x.Valid() && Quiet(x.log) && !x.recorded
    modifies x
    ensures x.Valid() && Quiet(x.log) && !x.recorded
    ensures r.Success? ==> x.log == old(x.log) + [Ok(CheckMode), Ok(Readiness), Ok(ConsumeToken), Ok(CheckToken)]
  {
    hide Quiet, Accounted, LeaseAfter, LeaseStep;
    var _ :- Before(x, CheckMode);
    var _ :- Before(x, Readiness);
    var _ :- Before(x, ConsumeToken);
    r := Before(x, CheckToken);
  }

  /** An operator executes a signal with a prepare token. */
  method Execute(x: Execution) returns (r: Result<bool, Error>, ghost before: seq<Event>, ghost ending: Ending)
    requires x.Valid() && x.log == []
    modifies x
    ensures BuyRun(MANUAL, before, x.log, ending)
    ensures r.Success? <==> ending.Done? || ending.AlreadyIntended?
    ensures !ending.NotReserved? ==> before == [Ok(CheckMode), Ok(Readiness), Ok(ConsumeToken), Ok(CheckToken)]
  {
    ManualIsWellFormed();
    assert !x.recorded && Quiet(x.log);
    hide WellFormed, Quiet, LeaseAfter, LeaseStep, Accounted, BuyRun;
    var prepared := BeforeExecute(x);
    if prepared.Failure? {
      NotReservedRun(MANUAL, x.log);
      return Failure(prepared.error), x.log, NotReserved;
    }
    r, before, ending := UnderLease(x, MANUAL);
  }

  /** The gate let the claimed signal pass, at once or after one refresh of its stale answer. */
  ghost predicate Opens(before: seq<Event>) {
    || before == [Ok(CheckMode), Ok(CheckGate)]
    || (&& |before| == 4 && before[0] == Ok(CheckMode)
        && before[1].Threw? && before[1].step == CheckGate && before[1].error.code == "EXECUTION_GATE_STALE"
        && before[2] == Ok(Readiness) && before[3] == Ok(CheckGate))
  }

  method BeforeExecuteAutomatic(x: Execution) returns (r: Result<(), Error>)
    requires x.Valid() && x.log == [] && Quiet(x.log) && !x.recorded
    modifies x
    ensures x.Valid() && Quiet(x.log) && !x.recorded
    ensures r.Success? ==> Opens(x.log)
  {
    hide Quiet, Accounted, LeaseAfter, LeaseStep;
    var _ :- Before(x, CheckMode);
    r := Before(x, CheckGate);
    if r.Failure? && r.error.code == "EXECUTION_GATE_STALE" {
      var _ :- Before(x, Readiness);
      var _ :- Before(x, CheckGate);
      var ready: bool := *;
      if ready { r := Success(()); }
    }
  }

  /** The live worker executes a claimed signal; a stale gate is refreshed once. */
  method ExecuteAutomatic(x: Execution) returns (r: Result<bool, Error>, ghost before: seq<Event>, ghost ending: Ending)
    requires x.Valid() && x.log == []
    modifies x
    ensures BuyRun(AUTOMATIC, before, x.log, ending)
    ensures r.Success? <==> ending.Done? || ending.AlreadyIntended?
    ensures !ending.NotReserved? ==> Opens(before)
  {
    AutomaticIsWellFormed();
    assert !x.recorded && Quiet(x.log);
    hide WellFormed, Quiet, LeaseAfter, LeaseStep, Accounted, BuyRun;
    var prepared := BeforeExecuteAutomatic(x);
    if prepared.Failure? {
      NotReservedRun(AUTOMATIC, x.log);
      return Failure(prepared.error), x.log, NotReserved;
    }
    r, before, ending := UnderLease(x, AUTOMATIC);
  }

  method BeforeRetryIntent(x: Execution) returns (r: Result<(), Error>)
    requires x.Valid() && Quiet(x.log) && !x.recorded
    modifies x
    ensures x.Valid() && Quiet(x.log) && !x.recorded
    ensures r.Success? ==> x.log == old(x.log) + [Ok(CheckMode), Ok(LoadConfig), Ok(CheckRetry), Ok(Readiness)]
  {
    hide Quiet, Accounted, LeaseAfter, LeaseStep;
    var _ :- Before(x, CheckMode);
    var _ :- Before(x, LoadConfig);
    var _ :- Before(x, CheckRetry);
    r := Before(x, Readiness);
  }

  /** The retry worker executes an intent again. */
  method RetryIntent(x: Execution) returns (r: Result<bool, Error>, ghost before: seq<Event>, ghost ending: Ending)
    requires x.Valid() && x.log == []
    modifies x
    ensures BuyRun(RETRY, before, x.log, ending)
    ensures r.Success? <==> ending.Done? || ending.AlreadyIntended?
    ensures !ending.NotReserved? ==> before == [Ok(CheckMode), Ok(LoadConfig), Ok(CheckRetry), Ok(Readiness)]
  {
    RetryIsWellFormed();
    assert !x.recorded && Quiet(x.log);
    hide WellFormed, Quiet, LeaseAfter, LeaseStep, Accounted, BuyRun;
    var prepared := BeforeRetryIntent(x);
    if prepared.Failure? {
      NotReservedRun(RETRY, x.log);
      return Failure(prepared.error), x.log, NotReserved;
    }
    r, before, ending := UnderLease(x, RETRY);
  }
}
