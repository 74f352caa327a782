/**
 How a close waits for a cancelled strategy: what each look at it decides, when the saga gives
 up and with which error, read off the record alone.
*/
module CloseCancellations {
  import opened Wrappers
  import opened SagaRuntime
  import opened BuySagas
  import opened CloseModel
  import opened CloseTheorems

  // ----- what the record says of the cancel in hand -----

  /** How often the strategy was asked about since its cancel was answered. */
  function Polls(log: seq<Event>): nat {
    if log == [] then 0
    else
      var before := Polls(log[..|log| - 1]);
      match log[|log| - 1]
      case Heard(_, _) => 0
      case Ok(VerifyCancel(_)) => before + 1
      case Threw(VerifyCancel(_), _) => before + 1
      case _ => before
  }

  /** Whether the answer to the cancel confirmed it. */
  function Confirmed(log: seq<Event>): bool {
    if log == [] then false
    else if log[|log| - 1].Heard? then log[|log| - 1].confirmed
    else Confirmed(log[..|log| - 1])
  }

  /** The last look at the strategy since its cancel was answered. */
  function LastLook(log: seq<Event>): Option<View> {
    if log == [] || log[|log| - 1].Heard? then None
    else if log[|log| - 1].Checked? then log[|log| - 1].view
    else LastLook(log[..|log| - 1])
  }

  predicate SeenCancelled(view: Option<View>) {
    view == Some(View(StCancelled, false))
  }

  predicate SeenTriggered(view: Option<View>) {
    view.Some? && (view.value.status == StTriggered || view.value.closeTx)
  }

  predicate PollsFit(log: seq<Event>, p: Phase) {
    match p
    case Polling(n, confirmed, last, _, _) =>
      n < 8 && Polls(log) == n && Confirmed(log) == confirmed && LastLook(log) == last && !SeenCancelled(last) && !SeenTriggered(last)
    case Viewing(n, confirmed, last, _, _) =>
      n < 8 && Polls(log) == n + 1 && Confirmed(log) == confirmed && LastLook(log) == last && !SeenCancelled(last) && !SeenTriggered(last)
    case _ => Polls(log) <= 8
  }

  lemma OneMore(log: seq<Event>, e: Event)
    ensures Polls(log + [e]) == match e
                                case Heard(_, _) => 0
                                case Ok(VerifyCancel(_)) => Polls(log) + 1
                                case Threw(VerifyCancel(_), _) => Polls(log) + 1
                                case _ => Polls(log)
    ensures Confirmed(log + [e]) == if e.Heard? then e.confirmed else Confirmed(log)
    ensures LastLook(log + [e]) == if e.Heard? then None else if e.Checked? then e.view else LastLook(log)
  {
    assert (log + [e])[..|log|] == log;
  }

  /** A poll is awaited in the polling phase alone. */
  lemma PollIsAwaited(plan: Plan, p: Phase, id: GroupId)
    requires Next(plan, p) == Some(VerifyCancel(id))
    ensures p.Polling? && p.g.id == id
  {
    hide Quarantines, RelevantOf;
  }

  lemma PollsOnOk(plan: Plan, log: seq<Event>, p: Phase, step: Step)
    requires PollsFit(log, p) && Next(plan, p) == Some(step) && OnOk(plan, p) != Stuck
    ensures PollsFit(log + [Ok(step)], OnOk(plan, p))
  {
    OneMore(log, Ok(step));
    if step.VerifyCancel? { PollIsAwaited(plan, p, step.group); }
    hide Polls, Confirmed, LastLook, RelevantOf, Quarantines, Attempted, Cancellable, AnyUnsafe;
  }

  lemma PollsOnThrow(plan: Plan, log: seq<Event>, p: Phase, step: Step, e: Error)
    requires PollsFit(log, p) && Next(plan, p) == Some(step)
    ensures PollsFit(log + [Threw(step, e)], OnThrow(plan, p, e))
  {
    OneMore(log, Threw(step, e));
    if step.VerifyCancel? { PollIsAwaited(plan, p, step.group); }
    hide Polls, Confirmed, LastLook, RelevantOf, Quarantines, Attempted, Definitive, GiveUpError;
  }

  lemma PollsOnSeen(plan: Plan, log: seq<Event>, p: Phase, e: Event)
    requires PollsFit(log, p) && !e.Ok? && !e.Threw? && OnSeen(plan, p, e) != Stuck
    ensures PollsFit(log + [e], OnSeen(plan, p, e))
  {
    OneMore(log, e);
    hide Polls, Confirmed, LastLook, RelevantOf, Cancellable, AnyUnsafe, GiveUpError;
  }

  lemma {:induction false} PollsFollow(plan: Plan, log: seq<Event>)
    requires Possible(plan, log)
    ensures PollsFit(log, PhaseAfter(plan, log))
  {
    Unfold(plan, log);
    if log != [] {
      var front, last := log[..|log| - 1], log[|log| - 1];
      PollsFollow(plan, front);
      var p := PhaseAfter(plan, front);
      hide PhaseAfter, Proper, PollsFit, Next, OnOk, OnThrow, OnSeen;
      match last
      case Ok(step) => PollsOnOk(plan, front, p, step);
      case Threw(step, e) => PollsOnThrow(plan, front, p, step, e);
      case _ => PollsOnSeen(plan, front, p, last);
    }
  }

  // ----- what each look decides -----

  /** A cancel is looked at eight times at the most. */
  lemma AtMostEightPolls(plan: Plan, log: seq<Event>)
    requires Possible(plan, log)
    ensures Polls(log) <= 8
  {
    PollsFollow(plan, log);
    hide PhaseAfter;
  }

  /** The code of a cancel that was neither seen done nor seen triggered. */
  function OpenCode(view: Option<View>, confirmed: bool): string {
    if view.None? && !confirmed then "STRATEGY_CANCEL_UNCERTAIN" else "STRATEGY_CANCEL_UNVERIFIED"
  }

  /** The catch block is entered with this error. */
  predicate FailsWith(p: Phase, e: Error) {
    p.Catching? && p.cause == e
  }

  /** After fewer than eight looks comes another, and after the eighth the saga gives up. */
  predicate AsksAgain(plan: Plan, p: Phase, id: GroupId, polls: nat, code: string) {
    if polls < 8 then Next(plan, p) == Some(VerifyCancel(id)) else FailsWith(p, Error(None, code, false))
  }

  /** A look decides: cancelled without a sale goes on, a triggered strategy fails the close, and anything else is asked again. */
  lemma LookDecides(plan: Plan, log: seq<Event>, id: GroupId, view: Option<View>)
    requires Possible(plan, log + [Checked(id, view)])
    ensures var p := PhaseAfter(plan, log + [Checked(id, view)]);
            if SeenCancelled(view) then Next(plan, p) == Some(MarkCancelled(id))
            else if SeenTriggered(view) then FailsWith(p, Error(None, "STRATEGY_TRIGGERED_DURING_CANCEL", false))
            else AsksAgain(plan, p, id, Polls(log), OpenCode(view, Confirmed(log)))
  {
    var e := Checked(id, view);
    PhaseAfterOne(plan, log, e);
    PollsFollow(plan, log);
    hide PhaseAfter, Polls, Confirmed, LastLook, RelevantOf, Quarantines;
  }

  /** A look that throws is one of the eight, unless its own error says that the strategy triggered. */
  lemma FailedLookDecides(plan: Plan, log: seq<Event>, id: GroupId, e: Error)
    requires Possible(plan, log + [Threw(VerifyCancel(id), e)])
    ensures var p := PhaseAfter(plan, log + [Threw(VerifyCancel(id), e)]);
            if e.code == "STRATEGY_TRIGGERED_DURING_CANCEL" then FailsWith(p, e)
            else AsksAgain(plan, p, id, Polls(log) + 1, OpenCode(LastLook(log), Confirmed(log)))
  {
    PhaseAfterOne(plan, log, Threw(VerifyCancel(id), e));
    PollsFollow(plan, log);
    PollIsAwaited(plan, PhaseAfter(plan, log), id);
    hide PhaseAfter, Polls, Confirmed, LastLook, RelevantOf, Quarantines;
  }

  /** Only a close with a deadline gives up early, with the code of its last look. */
  lemma DeadlineDecides(plan: Plan, log: seq<Event>, id: GroupId)
    requires Possible(plan, log + [Late(id)])
    ensures plan.timed
    ensures FailsWith(PhaseAfter(plan, log + [Late(id)]), Error(None, OpenCode(LastLook(log), Confirmed(log)), false))
  {
    PhaseAfterOne(plan, log, Late(id));
    PollsFollow(plan, log);
    hide PhaseAfter, Polls, Confirmed, LastLook, RelevantOf, Quarantines;
  }

  // ----- the other observations -----

  /** An intent already there ends an operator's close, and only before an attempt was made. */
  lemma MergesAreTheOperators(plan: Plan, log: seq<Event>)
    requires Possible(plan, log + [MergedIntent])
    ensures !plan.retry && Ok(CreateAttempt) !in log
    ensures Next(plan, PhaseAfter(plan, log + [MergedIntent])) == Some(ReleaseLease)
  {
    PhaseAfterOne(plan, log, MergedIntent);
    FlagsFollow(plan, log);
    hide PhaseAfter, RelevantOf;
  }

  /** The state of a strategy is what the provider answered just before, or unknown for one without an order. */
  lemma SightingsAreAnswers(plan: Plan, log: seq<Event>, id: GroupId, status: Status)
    requires Possible(plan, log + [Saw(id, status)])
    ensures || (log != [] && log[|log| - 1] == Ok(QueryStrategy(id)))
            || (status == StUnknown && exists g :: g in plan.groups && Relevant(g) && !g.hasOrder && g.id == id)
  {
    var e := Saw(id, status);
    PhaseAfterOne(plan, log, e);
    Unfold(plan, log);
    var p := PhaseAfter(plan, log);
    var groups := RelevantOf(plan.groups);
    hide PhaseAfter, RelevantOf;
    if p.Told? {
      var front, last := log[..|log| - 1], log[|log| - 1];
      ToldByQuery(plan, PhaseAfter(plan, front), last, p.states);
    } else {
      assert groups[|p.states|] in groups;
    }
  }

  lemma ToldByQuery(plan: Plan, p: Phase, e: Event, states: seq<Status>)
    requires Advance(plan, p, e) == Told(states)
    ensures var groups := RelevantOf(plan.groups);
            |states| < |groups| && e == Ok(QueryStrategy(groups[|states|].id))
  {
    hide RelevantOf, Cancellable, AnyUnsafe, Quarantines, Definitive, GiveUpError, Attempted;
  }
}
