/**
 The two close sagas as they run. Each method makes the calls its source function awaits and
 is proved to follow the model: it leaves the saga in the phase that the outcomes so far give.
*/
module CloseSagas {
  import opened Wrappers
  import opened SagaRuntime
  import opened BuySagas
  import opened CloseModel
  import opened CloseTheorems

  /** The try block has failed with this error and the catch block comes next. */
  predicate FailedWith(p: Phase, e: Error) {
    p.Catching? && p.cause == e
  }

  /** An error before there is an attempt. */
  predicate FailedPreparing(p: Phase, e: Error) {
    FailedWith(p, e) && !Attempted(p.at) && !SwapStarted(p.at)
  }

  /** Makes the call the saga awaits; its outcome decides what comes next. */
  method Go(x: Execution, ghost plan: Plan, step: Step) returns (r: Result<(), Error>)
    requires x.Valid() && Next(plan, PhaseAfter(plan, x.log)) == Some(step)
    modifies x
    ensures x.Valid() && x.log == old(x.log) + [if r.Success? then Ok(step) else Threw(step, r.error)]
    ensures r.Success? ==> PhaseAfter(plan, x.log) == OnOk(plan, PhaseAfter(plan, old(x.log)))
    ensures r.Failure? ==> MayThrow(step) && PhaseAfter(plan, x.log) == OnThrow(plan, PhaseAfter(plan, old(x.log)), r.error)
  {
    ghost var before, p := x.log, PhaseAfter(plan, x.log);
    OutcomeFits(plan, before, step, x.lease, x.recorded);
    hide PhaseAfter, Next, OnOk, OnThrow, LeaseAfter, LeaseStep, Accounted, MaySucceed, MayThrow;
    r := x.Do(step);
    assert x.log == before + [if r.Success? then Ok(step) else Threw(step, r.error)];
    PhaseAfterOne(plan, before, if r.Success? then Ok(step) else Threw(step, r.error));
  }

  /** Spends weight the lease covers, which cannot throw. */
  method Spend(x: Execution, ghost plan: Plan, weight: nat)
    requires x.Valid() && Next(plan, PhaseAfter(plan, x.log)) == Some(Consume(weight))
    modifies x
    ensures x.Valid() && x.log == old(x.log) + [Ok(Consume(weight))]
    ensures PhaseAfter(plan, x.log) == OnOk(plan, PhaseAfter(plan, old(x.log)))
  {
    hide PhaseAfter, Next, OnOk, OnThrow, LeaseAfter, Accounted;
    var spent := Go(x, plan, Consume(weight));
  }

  /** What the lease and the record allow of a call is what its phase allows. */
  lemma OutcomeFits(plan: Plan, log: seq<Event>, step: Step, lease: Lease, recorded: bool)
    requires Next(plan, PhaseAfter(plan, log)) == Some(step)
    requires lease == LeaseAfter(log) && recorded == (Ok(RecordOrder) in log)
    ensures step.Consume? ==> CanConsume(lease, step.weight) && !MayThrow(step)
    ensures step != ReleaseLease && !step.Consume? ==> MayThrow(step)
    ensures !(step == MarkUncertain && recorded) ==> MaySucceed(PhaseAfter(plan, log))
  {
    var p := PhaseAfter(plan, log);
    ProperAlways(plan, log);
    LeaseFollows(plan, log);
    FlagsFollow(plan, log);
    Awaited(plan, p, step);
    AwaitedCleanup(plan, p, step);
    hide PhaseAfter, Next, LeaseAfter, Quarantines;
  }

  /** Records something observed. */
  method Observe(x: Execution, ghost plan: Plan, e: Event)
    requires x.Valid() && !e.Ok? && !e.Threw?
    modifies x
    ensures x.Valid() && x.log == old(x.log) + [e]
    ensures PhaseAfter(plan, x.log) == OnSeen(plan, PhaseAfter(plan, old(x.log)), e)
  {
    PhaseAfterOne(plan, x.log, e);
    hide PhaseAfter, OnSeen, LeaseAfter, LeaseStep, Accounted;
    x.Note(e);
  }

  /** A stretch of calls, each made when the one before went through; an error goes to the catch block. */
  ghost predicate Line(plan: Plan, steps: seq<Step>, phase: nat -> Phase) {
    forall i | 0 <= i < |steps| ::
      && Next(plan, phase(i)) == Some(steps[i]) && OnOk(plan, phase(i)) == phase(i + 1)
      && (MayThrow(steps[i]) ==> forall e :: OnThrow(plan, phase(i), e) == Catching(phase(i), e))
  }

  lemma OksOne(steps: seq<Step>, i: nat)
    requires i < |steps|
    ensures Oks(steps[..i + 1]) == Oks(steps[..i]) + [Ok(steps[i])]
  {
    assert steps[..i + 1][..i] == steps[..i];
  }

  lemma LineAt(plan: Plan, steps: seq<Step>, phase: nat -> Phase, i: nat, e: Error)
    requires Line(plan, steps, phase) && i < |steps|
    ensures Next(plan, phase(i)) == Some(steps[i]) && OnOk(plan, phase(i)) == phase(i + 1)
    ensures MayThrow(steps[i]) ==> OnThrow(plan, phase(i), e) == Catching(phase(i), e)
  {
    hide Next, OnOk, OnThrow, MayThrow;
  }

  /** Awaits a stretch of calls in order, each once, until one throws. */
  method Await(x: Execution, ghost plan: Plan, steps: seq<Step>, ghost phase: nat -> Phase)
    returns (r: Result<(), Error>, ghost done: nat)
    requires x.Valid() && Line(plan, steps, phase) && PhaseAfter(plan, x.log) == phase(0)
    modifies x
    ensures x.Valid() && done <= |steps|
    ensures r.Success? ==> PhaseAfter(plan, x.log) == phase(|steps|) && x.log == old(x.log) + Oks(steps)
    ensures r.Failure? ==>
              && done < |steps| && PhaseAfter(plan, x.log) == Catching(phase(done), r.error)
              && x.log == old(x.log) + Oks(steps[..done]) + [Threw(steps[done], r.error)]
  {
    done := 0;
    assert Oks(steps[..0]) == [];
    hide PhaseAfter, Next, OnOk, OnThrow, Accounted, LeaseAfter, Oks, MayThrow, Line;
    for i := 0 to |steps|
      invariant x.Valid() && PhaseAfter(plan, x.log) == phase(i) && x.log == old(x.log) + Oks(steps[..i])
    {
      OksOne(steps, i);
      LineAt(plan, steps, phase, i, STATE_UNSAFE);
      r := Go(x, plan, steps[i]);
      if r.Failure? {
        LineAt(plan, steps, phase, i, r.error);
        return r, i;
      }
    }
    assert steps[..|steps|] == steps;
    r := Success(());
  }

  // ----- preparing the close -----

  /** Asks for the state of every stored group that might still act. */
  method LoadStrategyState(x: Execution, ghost plan: Plan, groups: seq<Group>) returns (r: Result<seq<Status>, Error>)
    requires x.Valid() && groups == plan.groups && PhaseAfter(plan, x.log) == AskFrom(plan, [])
    modifies x
    ensures x.Valid()
    ensures r.Success? ==> |r.value| == |RelevantOf(groups)| && PhaseAfter(plan, x.log) == AskFrom(plan, r.value)
    ensures r.Success? ==> forall i :: 0 <= i < |r.value| ==> Saw(RelevantOf(groups)[i].id, r.value[i]) in x.log
    ensures r.Failure? ==> FailedPreparing(PhaseAfter(plan, x.log), r.error)
  {
    var active := RelevantOf(groups);
    hide PhaseAfter, RelevantOf, Cancellable, AnyUnsafe, Accounted, LeaseAfter;
    var states: seq<Status> := [];
    for k := 0 to |active|
      invariant x.Valid() && |states| == k && PhaseAfter(plan, x.log) == AskFrom(plan, states)
      invariant forall i :: 0 <= i < k ==> Saw(active[i].id, states[i]) in x.log
    {
      var status := StUnknown;
      if active[k].hasOrder {
        var _ :- Go(x, plan, QueryStrategy(active[k].id));
        status := *;
      }
      Observe(x, plan, Saw(active[k].id, status));
      states := states + [status];
    }
    r := Success(states);
  }

  /** The groups whose state is active, or nothing when one is unsafe. */
  method SelectCancellable(groups: seq<Group>, states: seq<Status>) returns (r: Option<seq<Group>>)
    requires |states| == |groups|
    ensures r == if AnyUnsafe(states) then None else Some(Cancellable(groups, states))
  {
    var picked: seq<Group> := [];
    for i := 0 to |states|
      invariant forall k :: 0 <= k < i ==> !Unsafe(states[k])
      invariant picked == Cancellable(groups, states[..i])
    {
      if Unsafe(states[i]) { return None; }
      assert states[..i + 1][..i] == states[..i];
      if Active(states[i]) { picked := picked + [groups[i]]; }
    }
    assert states[..|states|] == states;
    r := Some(picked);
  }

  /** The phase of a close that is prepared. */
  function PreparedPhase(plan: Plan, todo: seq<Group>): Phase {
    if plan.retry then Creating(todo) else CheckingSnapshot(todo)
  }

  ghost function LoadingPhase(plan: Plan): nat -> Phase {
    (i: nat) => if i < |LOADING| then Loading(i) else AskFrom(plan, [])
  }

  lemma LoadingLine(plan: Plan)
    ensures Line(plan, LOADING, LoadingPhase(plan))
  {
    hide AskFrom, RelevantOf;
  }

  lemma PreparedFacts(plan: Plan, log: seq<Event>, todo: seq<Group>)
    requires PhaseAfter(plan, log) == PreparedPhase(plan, todo)
    ensures Cleared(log, plan.groups, todo) && LeaseAfter(log) == Open(SWAP_WEIGHT)
  {
    GuardFollows(plan, log);
    LeaseFollows(plan, log);
    hide PhaseAfter, LeaseAfter, Cleared;
  }

  /** Loads the position and its strategies, refuses unsafe ones, and quotes the sell. */
  method BuildClosePrepared(x: Execution, ghost plan: Plan, groups: seq<Group>) returns (r: Result<seq<Group>, Error>)
    requires x.Valid() && groups == plan.groups && PhaseAfter(plan, x.log) == Loading(0)
    modifies x
    ensures x.Valid()
    ensures r.Success? ==> PhaseAfter(plan, x.log) == PreparedPhase(plan, r.value) && Cleared(x.log, groups, r.value)
    ensures r.Success? ==> x.lease == Open(SWAP_WEIGHT)
    ensures r.Failure? ==> FailedPreparing(PhaseAfter(plan, x.log), r.error)
  {
    hide PhaseAfter, RelevantOf, Cancellable, AnyUnsafe, Accounted, LeaseAfter, Cleared, Quarantines, Next, OnOk, OnThrow;
    hide Line;
    LoadingLine(plan);
    var loaded, _ := Await(x, plan, LOADING, LoadingPhase(plan));
    if loaded.Failure? { return Failure(loaded.error); }
    var states :- LoadStrategyState(x, plan, groups);
    var cancellable := SelectCancellable(RelevantOf(groups), states);
    if cancellable.None? { return Failure(STATE_UNSAFE); }
    QuotingLine(plan, cancellable.value);
    var quoted, _ := Await(x, plan, QUOTING, QuotingPhase(plan, cancellable.value));
    if quoted.Failure? { return Failure(quoted.error); }
    PreparedFacts(plan, x.log, cancellable.value);
    r := Success(cancellable.value);
  }

  ghost function QuotingPhase(plan: Plan, todo: seq<Group>): nat -> Phase {
    (i: nat) => if i < |QUOTING| then Quoting(i, todo) else PreparedPhase(plan, todo)
  }

  lemma QuotingLine(plan: Plan, todo: seq<Group>)
    ensures Line(plan, QUOTING, QuotingPhase(plan, todo))
  {
    hide RelevantOf;
    var phase := QuotingPhase(plan, todo);
    forall i | 0 <= i < |QUOTING|
      ensures Next(plan, phase(i)) == Some(QUOTING[i]) && OnOk(plan, phase(i)) == phase(i + 1)
    {
      assert phase(i) == Quoting(i, todo);
      assert phase(i + 1) == if i < 4 then Quoting(i + 1, todo) else PreparedPhase(plan, todo);
    }
  }

  // ----- cancelling the strategies -----

  /** An error while a strategy is being cancelled, before any submission. */
  predicate FailedCancelling(p: Phase, e: Error) {
    FailedWith(p, e) && Attempted(p.at) && !SwapStarted(p.at)
  }

  lemma PollFacts(plan: Plan, k: nat, confirmed: bool, last: Option<View>, g: Group, rest: seq<Group>)
    requires last != Some(VERIFIED)
    ensures var p := Polling(k, confirmed, last, g, rest);
            && Next(plan, p) == Some(VerifyCancel(g.id)) && OnOk(plan, p) == Viewing(k, confirmed, last, g, rest)
            && (plan.timed ==> OnSeen(plan, p, Late(g.id)) == GiveUp(k, confirmed, last, g, rest))
            && forall e :: OnThrow(plan, p, e)
                        == if e.code == TRIGGERED then Catching(p, e) else PollFrom(k + 1, confirmed, last, g, rest)
    ensures FailedCancelling(GiveUp(k, confirmed, last, g, rest), GiveUpError(confirmed, last))
    ensures CancelCode(GiveUpError(confirmed, last).code)
  {
    hide RelevantOf, PollFrom;
  }

  lemma ViewFacts(plan: Plan, k: nat, confirmed: bool, last: Option<View>, g: Group, rest: seq<Group>, seen: Option<View>)
    ensures var p := Viewing(k, confirmed, last, g, rest);
            OnSeen(plan, p, Checked(g.id, seen))
            == match CancellationFailureCode(confirmed, seen)
               case None => Confirming(0, g, rest)
               case Some(code) => if code == TRIGGERED then Catching(p, CancellationError(TRIGGERED))
                                  else PollFrom(k + 1, confirmed, seen, g, rest)
  {
    hide RelevantOf, PollFrom, CancellationFailureCode;
  }

  datatype PollResult = Verified | Again(last: Option<View>) | GaveUp(error: Error)

  /** One poll, after its delay and before the deadline. */
  method Poll(x: Execution, ghost plan: Plan, ghost g: Group, ghost rest: seq<Group>, id: GroupId, k: nat, confirmed: bool,
              last: Option<View>, deadline: Option<int>)
    returns (r: PollResult)
    requires x.Valid() && id == g.id && plan.timed == deadline.Some? && k < |CANCEL_VERIFY_DELAYS_MS|
    requires last != Some(VERIFIED) && PhaseAfter(plan, x.log) == Polling(k, confirmed, last, g, rest)
    modifies x
    ensures x.Valid() && old(x.log) <= x.log && |x.log| <= |old(x.log)| + 2
    ensures r.Verified? ==> PhaseAfter(plan, x.log) == Confirming(0, g, rest)
    ensures r.Again? ==> r.last != Some(VERIFIED) && PhaseAfter(plan, x.log) == PollFrom(k + 1, confirmed, r.last, g, rest)
    ensures r.GaveUp? ==> CancelCode(r.error.code) && FailedCancelling(PhaseAfter(plan, x.log), r.error)
  {
    PollFacts(plan, k, confirmed, last, g, rest);
    hide PhaseAfter, Accounted, LeaseAfter, Next, OnOk, OnThrow, OnSeen, PollFrom, GiveUp, GiveUpError;
    var now, later: int := *, *;
    if deadline.Some? && (now + CANCEL_VERIFY_DELAYS_MS[k] >= deadline.value || later >= deadline.value) {
      Observe(x, plan, Late(id));
      return GaveUp(GiveUpError(confirmed, last));
    }
    var query := Go(x, plan, VerifyCancel(id));
    if query.Failure? {
      return if query.error.code == TRIGGERED then GaveUp(query.error) else Again(last);
    }
    r := LookAt(x, plan, g, rest, id, k, confirmed, last);
  }

  /** What the provider shows of the strategy. */
  method LookAt(x: Execution, ghost plan: Plan, ghost g: Group, ghost rest: seq<Group>, id: GroupId, ghost k: nat,
                confirmed: bool, ghost last: Option<View>)
    returns (r: PollResult)
    requires x.Valid() && id == g.id && PhaseAfter(plan, x.log) == Viewing(k, confirmed, last, g, rest)
    modifies x
    ensures x.Valid() && old(x.log) <= x.log && |x.log| == |old(x.log)| + 1
    ensures r.Verified? ==> PhaseAfter(plan, x.log) == Confirming(0, g, rest)
    ensures r.Again? ==> r.last != Some(VERIFIED) && PhaseAfter(plan, x.log) == PollFrom(k + 1, confirmed, r.last, g, rest)
    ensures r.GaveUp? ==> CancelCode(r.error.code) && FailedCancelling(PhaseAfter(plan, x.log), r.error)
  {
    var seen: Option<View> := *;
    ViewFacts(plan, k, confirmed, last, g, rest, seen);
    hide PhaseAfter, Accounted, LeaseAfter, OnSeen, PollFrom;
    Observe(x, plan, Checked(id, seen));
    var code := CancellationFailureCode(confirmed, seen);
    r := if code.None? then Verified
         else if code == Some(TRIGGERED) then GaveUp(CancellationError(TRIGGERED)) else Again(seen);
  }

  /**
   Polls at most as often as there are delays and before the deadline. It succeeds only on a
   verified cancellation, and otherwise always throws one of the three codes.
  */
  method WaitForStrategyCancellation(x: Execution, ghost plan: Plan, ghost g: Group, ghost rest: seq<Group>, id: GroupId,
                                     confirmed: bool, deadline: Option<int>)
    returns (r: Result<View, Error>)
    requires x.Valid() && id == g.id && plan.timed == deadline.Some?
    requires PhaseAfter(plan, x.log) == PollFrom(0, confirmed, None, g, rest)
    modifies x
    ensures x.Valid() && old(x.log) <= x.log && |x.log| <= |old(x.log)| + 2 * |CANCEL_VERIFY_DELAYS_MS|
    ensures r.Success? ==> r.value == VERIFIED && PhaseAfter(plan, x.log) == Confirming(0, g, rest)
    ensures r.Success? ==> CancelledThenVerified(x.log, id)
    ensures r.Failure? ==> CancelCode(r.error.code) && FailedCancelling(PhaseAfter(plan, x.log), r.error)
  {
    hide PhaseAfter, Accounted, LeaseAfter, CancelledThenVerified, Cleared, RelevantOf;
    var last: Option<View> := None;
    for k := 0 to |CANCEL_VERIFY_DELAYS_MS|
      invariant x.Valid() && old(x.log) <= x.log && |x.log| <= |old(x.log)| + 2 * k
      invariant last != Some(VERIFIED) && PhaseAfter(plan, x.log) == PollFrom(k, confirmed, last, g, rest)
    {
      var poll := Poll(x, plan, g, rest, id, k, confirmed, last, deadline);
      match poll {
        case Verified =>
          GuardFollows(plan, x.log);
          return Success(VERIFIED);
        case GaveUp(error) => return Failure(error);
        case Again(seen) => last := seen;
      }
    }
    r := Failure(GiveUpError(confirmed, last));
  }

  /** Makes the cancel call; a definitive rejection restores the group, anything else quarantines. */
  method SendCancel(x: Execution, ghost plan: Plan, ghost g: Group, ghost rest: seq<Group>, id: GroupId)
    returns (r: Result<(), Error>)
    requires x.Valid() && id == g.id && PhaseAfter(plan, x.log) == Cancelling(2, g, rest)
    modifies x
    ensures x.Valid() && old(x.log) <= x.log
    ensures r.Success? ==> PhaseAfter(plan, x.log) == Hearing(g, rest)
    ensures r.Failure? ==> FailedCancelling(PhaseAfter(plan, x.log), r.error)
  {
    hide PhaseAfter, Accounted, LeaseAfter, RelevantOf, Cancellable, AnyUnsafe, Definitive, Quarantines;
    var cancel := Go(x, plan, CancelOrder(id));
    if cancel.Success? { return cancel; }
    if Definitive(cancel.error) {
      var _ :- RestoreGroup(x, plan, g, id, cancel.error);
    } else {
      var _ :- QuarantineLane(x, plan, g, cancel.error);
    }
    r := Failure(NormalizeCancellationWriteError(cancel.error));
  }

  /** Gives the lane back and marks the group running again, then fails with the rejection. */
  method RestoreGroup(x: Execution, ghost plan: Plan, ghost g: Group, id: GroupId, ghost refusal: Error)
    returns (r: Result<(), Error>)
    requires x.Valid() && id == g.id && PhaseAfter(plan, x.log) == Refusing(0, refusal, g)
    modifies x
    ensures x.Valid() && old(x.log) <= x.log
    ensures FailedCancelling(PhaseAfter(plan, x.log), if r.Success? then refusal else r.error)
  {
    hide PhaseAfter, Accounted, LeaseAfter, RelevantOf, Definitive, Quarantines;
    var _ :- Go(x, plan, ReleaseCancelRejected);
    r := Go(x, plan, RestoreRunning(id));
  }

  method QuarantineLane(x: Execution, ghost plan: Plan, ghost g: Group, ghost doubt: Error) returns (r: Result<(), Error>)
    requires x.Valid() && PhaseAfter(plan, x.log) == Doubting(doubt, g)
    modifies x
    ensures x.Valid() && old(x.log) <= x.log
    ensures FailedCancelling(PhaseAfter(plan, x.log), if r.Success? then CancellationError(CANCEL_UNCERTAIN) else r.error)
  {
    hide PhaseAfter, Accounted, LeaseAfter, RelevantOf, Definitive, Quarantines;
    r := Go(x, plan, QuarantineCancel);
  }

  method CancelStrategy(x: Execution, ghost plan: Plan, g: Group, ghost rest: seq<Group>, deadline: Option<int>)
    returns (r: Result<(), Error>)
    requires x.Valid() && plan.timed == deadline.Some? && PhaseAfter(plan, x.log) == Cancelling(0, g, rest)
    modifies x
    ensures x.Valid() && old(x.log) <= x.log
    ensures r.Success? ==> PhaseAfter(plan, x.log) == CancelFrom(rest) && CancelledThenVerified(x.log, g.id)
    ensures r.Failure? ==> FailedCancelling(PhaseAfter(plan, x.log), r.error)
  {
    hide PhaseAfter, Accounted, LeaseAfter, CancelledThenVerified, PollFrom, Next, OnOk, OnThrow, OnSeen;
    var _ :- TakeLane(x, plan, g, rest, g.id);
    var _ :- SendCancel(x, plan, g, rest, g.id);
    var confirmed := Hear(x, plan, g, rest, g.id);
    var _ :- WaitForStrategyCancellation(x, plan, g, rest, g.id, confirmed, deadline);
    r := RecordCancelled(x, plan, g, rest, g.id);
  }

  method TakeLane(x: Execution, ghost plan: Plan, ghost g: Group, ghost rest: seq<Group>, id: GroupId)
    returns (r: Result<(), Error>)
    requires x.Valid() && id == g.id && PhaseAfter(plan, x.log) == Cancelling(0, g, rest)
    modifies x
    ensures x.Valid() && old(x.log) <= x.log
    ensures r.Success? ==> PhaseAfter(plan, x.log) == Cancelling(2, g, rest)
    ensures r.Failure? ==> FailedCancelling(PhaseAfter(plan, x.log), r.error)
  {
    hide PhaseAfter, Accounted, LeaseAfter, RelevantOf, Definitive, Quarantines;
    var _ :- Go(x, plan, AcquireLane);
    r := Go(x, plan, MarkCancelling(id));
  }

  /** Whether the answer to the cancel call confirms it. */
  method Hear(x: Execution, ghost plan: Plan, ghost g: Group, ghost rest: seq<Group>, id: GroupId) returns (confirmed: bool)
    requires x.Valid() && id == g.id && PhaseAfter(plan, x.log) == Hearing(g, rest)
    modifies x
    ensures x.Valid() && old(x.log) <= x.log && PhaseAfter(plan, x.log) == PollFrom(0, confirmed, None, g, rest)
  {
    hide PhaseAfter, PollFrom, Accounted, LeaseAfter;
    confirmed := *;
    Observe(x, plan, Heard(id, confirmed));
  }

  /** Records the verified cancellation and gives the lane back. */
  method RecordCancelled(x: Execution, ghost plan: Plan, ghost g: Group, ghost rest: seq<Group>, id: GroupId)
    returns (r: Result<(), Error>)
    requires x.Valid() && id == g.id && PhaseAfter(plan, x.log) == Confirming(0, g, rest)
    requires CancelledThenVerified(x.log, id)
    modifies x
    ensures x.Valid() && old(x.log) <= x.log && CancelledThenVerified(x.log, id)
    ensures r.Success? ==> PhaseAfter(plan, x.log) == CancelFrom(rest)
    ensures r.Failure? ==> FailedCancelling(PhaseAfter(plan, x.log), r.error)
  {
    hide PhaseAfter, CancelFrom, Accounted, LeaseAfter, CancelledThenVerified, RelevantOf, Definitive, Quarantines;
    ghost var verified := x.log;
    var marked := Go(x, plan, MarkCancelled(id));
    VerifiedStays(verified, x.log, id);
    if marked.Failure? { return marked; }
    ghost var recorded := x.log;
    r := Go(x, plan, ReleaseVerified);
    VerifiedStays(recorded, x.log, id);
  }

  /** Cancels one strategy after another; it succeeds only when each was verified cancelled. */
  method CancelStrategies(x: Execution, ghost plan: Plan, todo: seq<Group>, deadline: Option<int>)
    returns (r: Result<(), Error>)
    requires x.Valid() && plan.timed == deadline.Some? && PhaseAfter(plan, x.log) == CancelFrom(todo)
    modifies x
    ensures x.Valid() && old(x.log) <= x.log
    ensures r.Success? ==> PhaseAfter(plan, x.log) == Arming(0) && forall g :: g in todo ==> CancelledThenVerified(x.log, g.id)
    ensures r.Failure? ==> FailedCancelling(PhaseAfter(plan, x.log), r.error)
  {
    hide PhaseAfter, Accounted, LeaseAfter, CancelledThenVerified;
    for i := 0 to |todo|
      invariant x.Valid() && old(x.log) <= x.log && PhaseAfter(plan, x.log) == CancelFrom(todo[i..])
      invariant forall k :: 0 <= k < i ==> CancelledThenVerified(x.log, todo[k].id)
    {
      ghost var before := x.log;
      assert todo[i..][0] == todo[i] && todo[i..][1..] == todo[i + 1..];
      var _ :- CancelStrategy(x, plan, todo[i], todo[i + 1..], deadline);
      forall k | 0 <= k < i ensures CancelledThenVerified(x.log, todo[k].id) {
        VerifiedStays(before, x.log, todo[k].id);
      }
    }
    r := Success(());
  }

  // ----- the sell -----

  ghost function ArmingPhase(i: nat): Phase {
    if i < |ARMING| then Arming(i) else Selling(0)
  }

  lemma ArmingLine(plan: Plan)
    ensures Line(plan, ARMING, ArmingPhase)
  {
    hide RelevantOf;
  }

  /** From the snapshot to the open submission. */
  method Arm(x: Execution, ghost plan: Plan) returns (r: Result<(), Error>)
    requires x.Valid() && PhaseAfter(plan, x.log) == Arming(0)
    modifies x
    ensures x.Valid()
    ensures r.Success? ==> PhaseAfter(plan, x.log) == Selling(0)
    ensures r.Failure? ==> FailedCancelling(PhaseAfter(plan, x.log), r.error)
  {
    ArmingLine(plan);
    hide PhaseAfter, Line, Accounted, LeaseAfter;
    ghost var done;
    r, done := Await(x, plan, ARMING, ArmingPhase);
  }

  lemma SellingLine(plan: Plan)
    ensures Line(plan, SELLING, SoldTo)
  {
    hide RelevantOf;
  }

  /**
   The sell: its calls are made in order, each once, until one throws. The request is one of
   them, so it goes out at most once, and a sale is its success and that of what follows it.
  */
  method Sell(x: Execution, ghost plan: Plan) returns (r: Result<(), Error>, ghost done: nat)
    requires x.Valid() && PhaseAfter(plan, x.log) == Selling(0)
    modifies x
    ensures x.Valid() && done <= |SELLING|
    ensures r.Success? ==> PhaseAfter(plan, x.log) == Over(Sold) && x.log == old(x.log) + Oks(SELLING)
    ensures r.Failure? ==>
              && done < |SELLING| && PhaseAfter(plan, x.log) == Catching(Selling(done), r.error)
              && x.log == old(x.log) + Oks(SELLING[..done]) + [Threw(SELLING[done], r.error)]
  {
    SellingLine(plan);
    hide PhaseAfter, Line, Accounted, LeaseAfter, Oks;
    r, done := Await(x, plan, SELLING, SoldTo);
  }

  // ----- try and catch -----

  /** Checks the snapshot and creates the attempt, or reports the intent as existing; a retry always makes one. */
  method CreateClose(x: Execution, ghost plan: Plan, ghost todo: seq<Group>, retry: bool) returns (r: Result<bool, Error>)
    requires x.Valid() && retry == plan.retry && PhaseAfter(plan, x.log) == PreparedPhase(plan, todo)
    modifies x
    ensures x.Valid() && (r.Success? && r.value ==> !retry)
    ensures r.Success? ==> PhaseAfter(plan, x.log) == if r.value then Merging else Beginning(todo)
    ensures r.Failure? ==> FailedPreparing(PhaseAfter(plan, x.log), r.error)
  {
    hide PhaseAfter, Accounted, LeaseAfter, RelevantOf, Quarantines, Definitive;
    if !retry {
      var check := Go(x, plan, CheckSnapshot);
      if check.Failure? { return Failure(check.error); }
      var merged: bool := *;
      if merged {
        Observe(x, plan, MergedIntent);
        return Success(true);
      }
    }
    var create := Go(x, plan, CreateAttempt);
    r := if create.Success? then Success(false) else Failure(create.error);
  }

  /** The intent is there already: the lease goes back and no attempt is made. */
  method MergeClose(x: Execution, ghost plan: Plan)
    requires x.Valid() && PhaseAfter(plan, x.log) == Merging
    modifies x
    ensures x.Valid() && PhaseAfter(plan, x.log) == Over(ExistingIntent)
  {
    hide PhaseAfter, Accounted, LeaseAfter, RelevantOf, Quarantines;
    var _ := Go(x, plan, ReleaseLease);
  }

  /** The rest of the try block, once an attempt exists: cancel, arm and sell. */
  method CancelThenSell(x: Execution, ghost plan: Plan, todo: seq<Group>, deadline: Option<int>)
    returns (r: Result<bool, Error>, swapStarted: bool)
    requires x.Valid() && plan.timed == deadline.Some? && PhaseAfter(plan, x.log) == Beginning(todo)
    modifies x
    ensures x.Valid()
    ensures r.Success? ==> !r.value && PhaseAfter(plan, x.log) == Over(Sold)
    ensures r.Failure? ==> var p := PhaseAfter(plan, x.log);
                           FailedWith(p, r.error) && Attempted(p.at) && swapStarted == SwapStarted(p.at)
  {
    hide PhaseAfter, Accounted, LeaseAfter, CancelFrom, CancelledThenVerified, Oks;
    swapStarted := false;
    var begun := Begin(x, plan, todo);
    if begun.Failure? { return Failure(begun.error), swapStarted; }
    var cancelled := CancelStrategies(x, plan, todo, deadline);
    if cancelled.Failure? { return Failure(cancelled.error), swapStarted; }
    var armed := Arm(x, plan);
    if armed.Failure? { return Failure(armed.error), swapStarted; }
    swapStarted := true;
    var sold, _ := Sell(x, plan);
    r := if sold.Success? then Success(false) else Failure(sold.error);
  }

  method Begin(x: Execution, ghost plan: Plan, ghost todo: seq<Group>) returns (r: Result<(), Error>)
    requires x.Valid() && PhaseAfter(plan, x.log) == Beginning(todo)
    modifies x
    ensures x.Valid()
    ensures r.Success? ==> PhaseAfter(plan, x.log) == CancelFrom(todo)
    ensures r.Failure? ==> FailedCancelling(PhaseAfter(plan, x.log), r.error)
  {
    hide PhaseAfter, Accounted, LeaseAfter, CancelFrom, RelevantOf, Quarantines, Definitive;
    r := Go(x, plan, BeginPreparing);
  }

  /** The try block: whether the intent was there already, with the flags the catch block reads. */
  method TryClose(x: Execution, ghost plan: Plan, groups: seq<Group>, deadline: Option<int>, retry: bool)
    returns (r: Result<bool, Error>, attempt: bool, swapStarted: bool)
    requires x.Valid() && plan == Plan(groups, deadline.Some?, retry) && PhaseAfter(plan, x.log) == Loading(0)
    modifies x
    ensures x.Valid()
    ensures r.Success? ==> PhaseAfter(plan, x.log) == Over(if r.value then ExistingIntent else Sold)
    ensures r.Failure? ==> var p := PhaseAfter(plan, x.log);
                           FailedWith(p, r.error) && attempt == Attempted(p.at) && swapStarted == SwapStarted(p.at)
  {
    hide PhaseAfter, Accounted, LeaseAfter, Cleared, RelevantOf;
    attempt, swapStarted := false, false;
    var prepared := BuildClosePrepared(x, plan, groups);
    if prepared.Failure? { return Failure(prepared.error), attempt, swapStarted; }
    var created := CreateClose(x, plan, prepared.value, retry);
    if created.Failure? { return Failure(created.error), attempt, swapStarted; }
    if created.value {
      MergeClose(x, plan);
      return created, attempt, swapStarted;
    }
    attempt := true;
    r, swapStarted := CancelThenSell(x, plan, prepared.value, deadline);
  }

  /** The catch block, ending in the error that leaves the saga. */
  method CatchClose(x: Execution, ghost plan: Plan, ghost at: Phase, cause: Error, attempt: bool, swapStarted: bool)
    returns (thrown: Error)
    requires x.Valid() && PhaseAfter(plan, x.log) == Catching(at, cause)
    requires attempt == Attempted(at) && swapStarted == SwapStarted(at)
    modifies x
    ensures x.Valid() && PhaseAfter(plan, x.log) == Over(Broken(at, cause, thrown))
  {
    hide PhaseAfter, Accounted, LeaseAfter, RelevantOf, Classify, CancelCode, Attempted, SwapStarted;
    var _ := Go(x, plan, ReleaseLease);
    if !attempt { return cause; }
    if (swapStarted && Classify(cause, swapStarted) == Uncertain) || CancelCode(cause.code) {
      assert Quarantines(at, cause);
      thrown := CleanUp(x, plan, at, cause, MarkUncertain, Quarantine);
    } else {
      assert !Quarantines(at, cause);
      thrown := CleanUp(x, plan, at, cause, ReleaseLane, RejectAttempt);
    }
  }

  /** The two calls of the catch block, the second only if the first does not throw. */
  method CleanUp(x: Execution, ghost plan: Plan, ghost at: Phase, cause: Error, first: Step, second: Step)
    returns (thrown: Error)
    requires x.Valid() && PhaseAfter(plan, x.log) == Cleaning(at, cause, false)
    requires first == (if Quarantines(at, cause) then MarkUncertain else ReleaseLane)
    requires second == (if Quarantines(at, cause) then Quarantine else RejectAttempt)
    modifies x
    ensures x.Valid() && PhaseAfter(plan, x.log) == Over(Broken(at, cause, thrown))
  {
    hide PhaseAfter, Accounted, LeaseAfter, RelevantOf, Quarantines, Attempted, Definitive;
    var one := Go(x, plan, first);
    if one.Failure? { return one.error; }
    var two := Go(x, plan, second);
    thrown := if two.Failure? then two.error else cause;
  }

  /** What happens before anything is reserved, and the reservation. */
  method OpenClose(x: Execution, ghost plan: Plan, retry: bool) returns (r: Result<(), Error>)
    requires x.Valid() && retry == plan.retry && PhaseAfter(plan, x.log) == Opening(0)
    modifies x
    ensures x.Valid()
    ensures PhaseAfter(plan, x.log) == if r.Success? then Loading(0) else Over(NeverReserved(r.error))
  {
    hide PhaseAfter, Accounted, LeaseAfter, RelevantOf, Quarantines, AskFrom;
    var _ :- Go(x, plan, CheckMode);
    if retry {
      var _ :- Go(x, plan, LoadConfig);
      var _ :- Go(x, plan, CheckRetry);
    } else {
      var _ :- Go(x, plan, ConsumeToken);
      var _ :- Go(x, plan, CheckToken);
    }
    r := Go(x, plan, ReserveTrade);
  }

  /**
   An operator closes a position with a prepare token, or (`retry`) the worker closes it again.
   The outcomes of the calls decide the run and its end: the model's, to the last call.
  */
  method Close(x: Execution, groups: seq<Group>, deadline: Option<int>, retry: bool)
    returns (r: Result<bool, Error>, ghost ending: CloseEnding)
    requires x.Valid() && x.log == []
    modifies x
    ensures PhaseAfter(Plan(groups, deadline.Some?, retry), x.log) == Over(ending)
    ensures r.Success? ==> ending == if r.value then ExistingIntent else Sold
    ensures r.Failure? ==> ending == NeverReserved(r.error) || (ending.Broken? && ending.thrown == r.error)
  {
    ghost var plan := Plan(groups, deadline.Some?, retry);
    assert PhaseAfter(plan, x.log) == Opening(0);
    hide PhaseAfter, Accounted, LeaseAfter, Attempted, SwapStarted;
    var ready := OpenClose(x, plan, retry);
    if ready.Failure? { return Failure(ready.error), NeverReserved(ready.error); }
    var attempt, swapStarted;
    r, attempt, swapStarted := TryClose(x, plan, groups, deadline, retry);
    if r.Success? {
      ending := if r.value then ExistingIntent else Sold;
    } else {
      ghost var at := PhaseAfter(plan, x.log).at;
      var cause := r.error;
      var thrown := CatchClose(x, plan, at, cause, attempt, swapStarted);
      r, ending := Failure(thrown), Broken(at, cause, thrown);
    }
  }
}
