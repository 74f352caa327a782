/**
 The persisted live-engine gate. One process keeps the record in memory and in one row; a
 restart loses the memory. Which call the database or the mode refuses is up to the
 environment. `operatorPrint` remembers the fingerprint of the last direct arm.

 Restoring the saved intent reads the intent once and then takes several looks with sleeps
 between them. `pending` is such a restore under way: anything may happen between two looks.
*/
module EngineModel {
  import opened Wrappers

  datatype Status = Stopped | Recovering | Running | PausedTransient | FaultProtected

  datatype Record = Record(
    desired: bool, status: Status, operator: string, requestedAt: Option<int>, snapshotHash: Option<string>,
    fingerprint: Option<string>, lastError: Option<string>, transientAt: Option<int>)

  const Default := Record(false, Stopped, "", None, None, None, None, None)

  /** A readiness snapshot; `retryable` says that every blocker it names may pass by itself. */
  datatype Snapshot = Snapshot(ready: bool, retryable: bool, fingerprint: Option<string>, hash: Option<string>)

  /** How many looks are left, the coming one included, and whether exhausting them only pauses. */
  datatype Restore = Restore(left: nat, pauses: bool)

  datatype Engine = Engine(
    armed: bool, record: Record, initialized: bool, saved: Option<Record>, operatorPrint: Option<string>,
    pending: Option<Restore>)

  const Pristine := Engine(false, Default, false, None, None, None)

  /** The row and the memory take the new record together. */
  function Persisted(e: Engine, next: Record): Engine {
    e.(record := next, saved := Some(next))
  }

  function Restarted(e: Engine): Engine {
    e.(armed := false, record := Default, initialized := false, pending := None)
  }

  function Initialized(e: Engine): Engine {
    var next := match e.saved
      case None => e.record.(desired := false, status := Stopped)
      case Some(saved) => saved.(status := if saved.desired then Recovering else Stopped);
    Persisted(e, next).(armed := false, initialized := true)
  }

  function ArmRecord(r: Record, fingerprint: Option<string>, hash: Option<string>, operator: string, preserve: bool, now: int)
    : Record
  {
    r.(desired := true, status := Running, operator := operator,
       requestedAt := if preserve && r.requestedAt.Some? then r.requestedAt else Some(now),
       snapshotHash := hash, fingerprint := fingerprint, lastError := None, transientAt := None)
  }

  predicate SameLife(before: Engine, after: Engine) {
    && after.initialized == before.initialized && after.operatorPrint == before.operatorPrint
    && after.pending == before.pending
  }

  /** The gate open under this fingerprint; the rest of the record is bookkeeping. */
  predicate ArmedUnder(before: Engine, after: Engine, fingerprint: Option<string>) {
    && after.armed && after.record.desired && after.record.status == Running && after.record.fingerprint == fingerprint
    && after.saved == Some(after.record) && SameLife(before, after)
  }

  predicate ClosedAs(before: Engine, after: Engine, desired: bool, status: Status) {
    && !after.armed && after.record.desired == desired && after.record.status == status
    && after.record.fingerprint == before.record.fingerprint
    && after.saved == Some(after.record) && SameLife(before, after)
  }

  predicate MayPause(e: Engine) {
    e.record.desired && e.record.status != Stopped
  }

  /** Recovery from a pause: the gate opens, or another fingerprint clears the intent. */
  predicate Recovered(before: Engine, after: Engine) {
    && before.record.desired && before.record.status == PausedTransient
    && (|| (before.record.fingerprint.Some? && ArmedUnder(before, after, before.record.fingerprint))
        || ClosedAs(before, after, false, FaultProtected))
  }

  /** What the monitor may do to the gate on its own. */
  predicate Automatic(before: Engine, after: Engine) {
    || after == before
    || (MayPause(before) && ClosedAs(before, after, true, PausedTransient))
    || ClosedAs(before, after, before.record.desired, FaultProtected)
    || ClosedAs(before, after, false, FaultProtected)
    || Recovered(before, after)
  }

  predicate Direct(before: Engine, after: Engine, fingerprint: Option<string>) {
    || after == before
    || (after.operatorPrint == fingerprint
        && ArmedUnder(before, after.(operatorPrint := before.operatorPrint), fingerprint))
  }

  // ----- restoring, look by look -----

  function RestoreOver(e: Engine): Engine {
    e.(pending := None)
  }

  predicate SamePrint(e: Engine, seen: Snapshot) {
    e.record.fingerprint.Some? && e.record.fingerprint == seen.fingerprint
  }

  /** An error inside the restore: the gate is shut with the intent kept, unless that is refused too. */
  predicate Faulted(before: Engine, after: Engine) {
    after == before || ClosedAs(before, after, before.record.desired, FaultProtected)
  }

  predicate GoesOn(e: Engine, seen: Option<Snapshot>)
    requires e.pending.Some?
  {
    seen.Some? && !seen.value.ready && seen.value.retryable && e.pending.value.left > 1
  }

  /**
   One look of a pending restore, which may throw. A ready snapshot opens the gate under the
   fingerprint the record has by then; the intent itself is not read again.
  */
  predicate Looked(before: Engine, after: Engine, seen: Option<Snapshot>)
    requires before.pending.Some?
  {
    var over := RestoreOver(before);
    if GoesOn(before, seen) then after == before.(pending := Some(before.pending.value.(left := before.pending.value.left - 1)))
    else
      || Faulted(over, after)
      || (seen.Some? && seen.value.ready && SamePrint(before, seen.value) && ArmedUnder(over, after, seen.value.fingerprint))
      || (seen.Some? && seen.value.ready && !SamePrint(before, seen.value) && ClosedAs(over, after, false, FaultProtected))
      || (&& seen.Some? && !seen.value.ready && seen.value.retryable && before.pending.value.pauses
          && MayPause(before) && ClosedAs(over, after, true, PausedTransient))
  }

  datatype Move =
    | OperatorArm(fingerprint: Option<string>)
    | OperatorStop
    | Monitor
    | BeginRestore(restore: Restore)
    | Look(seen: Option<Snapshot>)
    | Restart
    | Init

  /** One move of the engine's life; only a direct arm is an operator's. */
  predicate Next(before: Engine, after: Engine, move: Move) {
    match move
    case OperatorArm(fingerprint) => Direct(before, after, fingerprint)
    case OperatorStop => after == before || ClosedAs(before, after, false, Stopped)
    case Monitor => Automatic(before, after)
    case BeginRestore(restore) =>
      if before.record.desired && before.pending.None? then after == before.(pending := Some(restore)) else after == before
    case Look(seen) => if before.pending.Some? then Looked(before, after, seen) else after == before
    case Restart => after == Restarted(before)
    case Init => if before.initialized then after == before
                 else after == Initialized(before) || after == before.(armed := false)
  }

  predicate Life(states: seq<Engine>, moves: seq<Move>) {
    && |states| == |moves| + 1
    && forall i :: 0 <= i < |moves| ==> Next(states[i], states[i + 1], moves[i])
  }

  predicate NoOperatorArm(moves: seq<Move>) {
    forall i :: 0 <= i < |moves| ==> !moves[i].OperatorArm?
  }

  // ----- what every life keeps -----

  predicate PrintOk(r: Record, e: Engine) {
    r.desired ==> r.fingerprint == e.operatorPrint
  }

  predicate EngineOk(e: Engine) {
    && (e.armed ==> e.record.desired && e.record.status == Running)
    && (e.record.desired ==> e.record.status != Stopped)
    && PrintOk(e.record, e) && (e.saved.Some? ==> PrintOk(e.saved.value, e))
    && (e.pending.Some? ==> e.record.fingerprint == e.operatorPrint)
    && (e.record.desired || e.pending.Some? ==> e.saved == Some(e.record))
  }

  lemma NextKeeps(before: Engine, after: Engine, move: Move)
    requires EngineOk(before) && Next(before, after, move)
    ensures EngineOk(after)
  {
  }

  /** A restarted process takes over the saved intent and its fingerprint, but never the open gate. */
  lemma RestartKeepsIntent(e: Engine, restarted: Engine, loaded: Engine)
    requires Next(e, restarted, Restart) && Next(restarted, loaded, Init)
    ensures !restarted.armed && restarted.pending.None? && !loaded.armed
    ensures loaded.initialized && e.saved.Some? ==>
              && loaded.record.desired == e.saved.value.desired && loaded.record.fingerprint == e.saved.value.fingerprint
              && loaded.record.status == (if e.saved.value.desired then Recovering else Stopped)
              && loaded.saved == Some(loaded.record)
    ensures loaded.initialized && e.saved.None? ==> !loaded.record.desired && loaded.record.status == Stopped
  {
  }

  /**
   A look waits for another exactly when the snapshot may still become ready and looks are left. It
   opens the gate only for a ready snapshot of the record's own fingerprint, gives the intent up only
   for a ready one of another, and pauses only when its last look found something that may pass.
  */
  lemma WhatALookDoes(before: Engine, after: Engine, seen: Option<Snapshot>)
    requires EngineOk(before) && before.pending.Some? && Next(before, after, Look(seen))
    ensures after.pending.Some? <==> seen.Some? && !seen.value.ready && seen.value.retryable && before.pending.value.left > 1
    ensures after.pending.Some? ==>
              after == before.(pending := Some(Restore(before.pending.value.left - 1, before.pending.value.pauses)))
    ensures after.armed && !before.armed ==>
              && seen.Some? && seen.value.ready && seen.value.fingerprint.Some?
              && before.record.fingerprint == seen.value.fingerprint == after.record.fingerprint
    ensures before.record.desired && !after.record.desired ==>
              && seen.Some? && seen.value.ready
              && (before.record.fingerprint.None? || before.record.fingerprint != seen.value.fingerprint)
    ensures after.record.status == PausedTransient && before.record.status != PausedTransient ==>
              && seen.Some? && !seen.value.ready && seen.value.retryable && before.pending.value.left <= 1
              && before.pending.value.pauses && before.record.desired
  {
  }

  /** Nothing wants the gate open: not the memory, not the row. */
  predicate Quiet(e: Engine) {
    !e.armed && !e.record.desired && (e.saved.Some? ==> !e.saved.value.desired)
  }

  /** In every reachable state armed means wanted and running, under the last direct arm's fingerprint. */
  lemma {:induction false} LifeKeeps(states: seq<Engine>, moves: seq<Move>, i: nat)
    requires Life(states, moves) && i < |states| && EngineOk(states[0])
    ensures EngineOk(states[i])
  {
    if i > 0 {
      LifeKeeps(states, moves, i - 1);
      assert Next(states[i - 1], states[i], moves[i - 1]);
      NextKeeps(states[i - 1], states[i], moves[i - 1]);
    }
  }

  /** No restore under way can open the gate: there is none, or it has no fingerprint to compare. */
  predicate NothingPending(e: Engine) {
    e.pending.None? || e.record.fingerprint.None?
  }

  lemma QuietMove(before: Engine, after: Engine, move: Move)
    requires Quiet(before) && NothingPending(before) && Next(before, after, move) && !move.OperatorArm?
    requires before.pending.Some? ==> before.saved == Some(before.record)
    ensures Quiet(after) && NothingPending(after)
    ensures after.pending.Some? ==> after.saved == Some(after.record)
  {
  }

  lemma {:induction false} StaysQuiet(states: seq<Engine>, moves: seq<Move>, i: nat)
    requires Life(states, moves) && i < |states| && NoOperatorArm(moves)
    requires EngineOk(states[0]) && Quiet(states[0]) && NothingPending(states[0])
    ensures Quiet(states[i]) && NothingPending(states[i])
    ensures states[i].pending.Some? ==> states[i].saved == Some(states[i].record)
  {
    if i > 0 {
      StaysQuiet(states, moves, i - 1);
      assert Next(states[i - 1], states[i], moves[i - 1]);
      QuietMove(states[i - 1], states[i], moves[i - 1]);
    }
  }

  /** Whatever happens from here without an operator's arm, nothing ever wants the gate open. */
  ghost predicate QuietForGood(e: Engine) {
    forall states: seq<Engine>, moves: seq<Move>, i: nat ::
      Life(states, moves) && i < |states| && states[0] == e && NoOperatorArm(moves) ==> Quiet(states[i])
  }

  /** What the coming look of a pending restore does when it finds everything ready. */
  function Resurrected(e: Engine): Engine {
    var open := ArmRecord(e.record, e.record.fingerprint, None, "supervisor-restore", true, 0);
    Persisted(RestoreOver(e), open).(armed := true)
  }

  lemma PendingLookArms(e: Engine)
    requires e.pending.Some? && e.record.fingerprint.Some?
    ensures Looked(e, Resurrected(e), Some(Snapshot(true, false, e.record.fingerprint, None)))
    ensures Resurrected(e).armed && Resurrected(e).record.desired
  {
  }

  /**
   Once neither memory nor row wants the gate open, only a direct arm opens it, through every
   restart, check and recovery, if and only if no restore with a fingerprint is under way.
  */
  lemma QuietHoldsExactly(e: Engine)
    requires EngineOk(e) && Quiet(e)
    ensures QuietForGood(e) <==> NothingPending(e)
  {
    if NothingPending(e) {
      forall states: seq<Engine>, moves: seq<Move>, i: nat
        | Life(states, moves) && i < |states| && states[0] == e && NoOperatorArm(moves)
        ensures Quiet(states[i])
      {
        StaysQuiet(states, moves, i);
      }
    } else {
      PendingLookArms(e);
      var states := [e, Resurrected(e)];
      var moves := [Look(Some(Snapshot(true, false, e.record.fingerprint, None)))];
      assert Life(states, moves) && NoOperatorArm(moves) && !Quiet(states[1]);
    }
  }

  /** An intent that an operator armed under this fingerprint, as the row keeps it. */
  const WANTED := ArmRecord(Default, Some("f1"), Some("h1"), "admin", false, 0)

  const STILL_BLOCKED := Snapshot(false, true, Some("f1"), None)
  const READY_AGAIN := Snapshot(true, false, Some("f1"), None)

  /** The operator arms, the process restarts, and a restore begins; between two of its looks the operator stops. */
  function StoppedWhileRestoring(): seq<Engine> {
    var armed := Engine(true, WANTED, true, Some(WANTED), Some("f1"), None);
    var restarted := Restarted(armed);
    var loaded := Initialized(restarted);
    var restoring := loaded.(pending := Some(Restore(16, true)));
    var sleeping := loaded.(pending := Some(Restore(15, true)));
    var stopped := Persisted(sleeping, sleeping.record.(desired := false, status := Stopped, operator := "admin"));
    [Pristine, Initialized(Pristine), armed, restarted, loaded, restoring, sleeping, stopped, Resurrected(stopped)]
  }

  const STOPPED_WHILE_RESTORING: seq<Move> := [
    Init, OperatorArm(Some("f1")), Restart, Init, BeginRestore(Restore(16, true)), Look(Some(STILL_BLOCKED)), OperatorStop,
    Look(Some(READY_AGAIN))]

  /** A stop during a restore is undone by the next look that finds everything ready. */
  lemma StopDuringRestoreIsUndone()
    ensures var states, moves := StoppedWhileRestoring(), STOPPED_WHILE_RESTORING;
            && Life(states, moves) && states[0] == Pristine
            && moves[6] == OperatorStop && Quiet(states[7]) && NoOperatorArm(moves[6..]) && states[8].armed
  {
  }

  /** Whoever arms without an operator does it under the fingerprint an operator armed last. */
  lemma AutomaticArmIsTheOperators(states: seq<Engine>, moves: seq<Move>, i: nat)
    requires Life(states, moves) && i + 1 < |states| && EngineOk(states[0]) && !moves[i].OperatorArm?
    requires states[i + 1].armed && !states[i].armed
    ensures states[i].operatorPrint.Some? && states[i + 1].record.fingerprint == states[i].operatorPrint
    ensures states[i].record.desired || states[i].pending.Some?
  {
    LifeKeeps(states, moves, i);
    assert Next(states[i], states[i + 1], moves[i]);
  }
}

/** The engine's functions over its module variables; a restore is cut at its looks. */
module EngineObject {
  import opened Wrappers
  import opened EngineModel

  datatype Error = LiveModeRequired | Database | RecoveryNotAllowed | RecoveryNotReady | ConfigurationChanged

  datatype Restored = Skipped | Waiting | Paused | Protected | Open

  class EngineState {
    var isArmed: bool
    var record: Record
    var initialized: bool
    var saved: Option<Record>
    var pending: Option<Restore>
    ghost var operatorPrint: Option<string>

    ghost function State(): Engine
      reads this
    {
      Engine(isArmed, record, initialized, saved, operatorPrint, pending)
    }

    constructor ()
      ensures State() == Pristine && EngineOk(State())
    {
      isArmed, record, initialized, saved, operatorPrint, pending := false, Default, false, None, None, None;
    }

    /** The upsert may throw; then neither the row nor the memory changes. */
    method Persist(next: Record) returns (r: Result<(), Error>)
      modifies `record, `saved
      ensures r.Success? ==> State() == Persisted(old(State()), next)
      ensures r.Failure? ==> State() == old(State()) && r.error == Database
    {
      var refused: bool := *;
      if refused { return Failure(Database); }
      saved := Some(next);
      record := next;
      r := Success(());
    }

    method Init() returns (r: Result<(), Error>)
      modifies this
      ensures Next(old(State()), State(), Move.Init)
      ensures !old(initialized) && r.Success? ==> State() == Initialized(old(State()))
      ensures r.Failure? ==> State() == old(State()).(armed := false)
    {
      if initialized { return Success(()); }
      isArmed := false;
      var next := record.(desired := false, status := Stopped);
      if saved.Some? { next := saved.value.(status := if saved.value.desired then Recovering else Stopped); }
      var _ :- Persist(next);
      initialized := true;
      r := Success(());
    }

    /** Arming can be refused by the mode, by withdrawing the stale signals, or by the upsert. */
    method Arm(live: bool, fingerprint: Option<string>, hash: Option<string>, operator: string, preserve: bool, now: int)
      returns (r: Result<(), Error>)
      modifies `isArmed, `record, `saved
      ensures r.Success? ==> ArmedUnder(old(State()), State(), fingerprint)
      ensures r.Success? ==> record == ArmRecord(old(record), fingerprint, hash, operator, preserve, now)
      ensures r.Failure? ==> State() == old(State()) && (r.error == Database || r.error == LiveModeRequired)
      ensures r.Success? ==> live
    {
      if !live { return Failure(LiveModeRequired); }
      var next := ArmRecord(record, fingerprint, hash, operator, preserve, now);
      var refused: bool := *;
      if refused { return Failure(Database); }
      var _ :- Persist(next);
      isArmed := true;
      r := Success(());
    }

    /** The operator's own arm. */
    method ArmDirectly(live: bool, fingerprint: Option<string>, hash: Option<string>, operator: string, now: int)
      returns (r: Result<(), Error>)
      requires EngineOk(State())
      modifies this
      ensures EngineOk(State()) && Next(old(State()), State(), OperatorArm(fingerprint))
      ensures r.Success? ==> isArmed && operatorPrint == fingerprint
      ensures r.Success? ==> record == Record(true, Running, operator, Some(now), hash, fingerprint, None, None)
      ensures r.Failure? ==> State() == old(State())
    {
      r := Arm(live, fingerprint, hash, operator, false, now);
      if r.Success? { operatorPrint := fingerprint; }
    }

    method Stop(operator: string, reason: Option<string>) returns (r: Result<(), Error>)
      requires EngineOk(State())
      modifies this
      ensures EngineOk(State()) && Next(old(State()), State(), OperatorStop)
      ensures r.Success? ==> ClosedAs(old(State()), State(), false, Stopped) && Quiet(State())
      ensures r.Failure? ==> State() == old(State())
    {
      var _ :- Persist(record.(desired := false, status := Stopped, operator := operator, lastError := reason));
      isArmed := false;
      r := Success(());
    }

    method SetFaulted(clearIntent: bool, reason: string) returns (r: Result<(), Error>)
      modifies `isArmed, `record, `saved
      ensures r.Success? ==>
                ClosedAs(old(State()), State(), if clearIntent then false else old(record.desired), FaultProtected)
      ensures r.Success? && clearIntent ==> Quiet(State())
      ensures r.Failure? ==> State() == old(State()) && r.error == Database
    {
      var _ :- Persist(record.(desired := if clearIntent then false else record.desired, status := FaultProtected,
                               lastError := Some(reason)));
      isArmed := false;
      r := Success(());
    }

    method PauseTransient(reason: string, now: int) returns (r: Result<(), Error>)
      modifies `isArmed, `record, `saved
      ensures !MayPause(old(State())) ==> r.Success? && State() == old(State())
      ensures MayPause(old(State())) && r.Success? ==> ClosedAs(old(State()), State(), true, PausedTransient)
      ensures r.Failure? ==> State() == old(State())
    {
      if !record.desired || record.status == Stopped { return Success(()); }
      var _ :- Persist(record.(desired := true, status := PausedTransient, lastError := Some(reason),
                               transientAt := if record.transientAt.Some? then record.transientAt else Some(now)));
      isArmed := false;
      r := Success(());
    }

    /** Reopens a paused gate for a ready snapshot of the same configuration. */
    method RecoverTransient(snapshot: Option<Snapshot>, live: bool, operator: string, now: int)
      returns (r: Result<(), Error>)
      requires EngineOk(State())
      modifies this
      ensures EngineOk(State()) && Automatic(old(State()), State())
      ensures r.Success? ==> snapshot.Some? && snapshot.value.ready && SamePrint(old(State()), snapshot.value)
                             && old(record.desired) && old(record.status) == PausedTransient
                             && ArmedUnder(old(State()), State(), snapshot.value.fingerprint)
                             && record.requestedAt == (if old(record.requestedAt).Some? then old(record.requestedAt) else Some(now))
      ensures r == Failure(RecoveryNotAllowed) <==> !(old(record.desired) && old(record.status) == PausedTransient)
      ensures r == Failure(RecoveryNotReady) <==>
                old(record.desired) && old(record.status) == PausedTransient && (snapshot.None? || !snapshot.value.ready)
      ensures r == Failure(ConfigurationChanged) ==>
                && snapshot.Some? && snapshot.value.ready && !SamePrint(old(State()), snapshot.value)
                && ClosedAs(old(State()), State(), false, FaultProtected) && Quiet(State())
      ensures r.Failure? && r.error != ConfigurationChanged ==> State() == old(State())
    {
      if !record.desired || record.status != PausedTransient { return Failure(RecoveryNotAllowed); }
      if snapshot.None? || !snapshot.value.ready { return Failure(RecoveryNotReady); }
      var current := snapshot.value.fingerprint;
      if record.fingerprint.None? || record.fingerprint != current {
        var _ :- SetFaulted(true, "LIVE_CONFIGURATION_CHANGED");
        return Failure(ConfigurationChanged);
      }
      r := Arm(live, current, snapshot.value.hash, operator, true, now);
    }

    // ----- restoring -----

    /** The first lines of a restore: without a saved intent there is nothing to do. */
    method StartRestore(maxAttempts: nat, pauses: bool) returns (outcome: Restored)
      requires EngineOk(State()) && pending.None?
      modifies `pending
      ensures EngineOk(State())
      ensures Next(old(State()), State(), BeginRestore(Restore(if maxAttempts == 0 then 1 else maxAttempts, pauses)))
      ensures outcome == if old(record.desired) then Waiting else Skipped
      ensures outcome == Waiting <==> pending.Some?
    {
      if !record.desired { return Skipped; }
      pending := Some(Restore(if maxAttempts == 0 then 1 else maxAttempts, pauses));
      outcome := Waiting;
    }

    /**
     The body of the restore's loop once its snapshot is there (or threw). The gate is opened
     only for a ready snapshot with the fingerprint the record has at that moment.
    */
    method LookOnce(seen: Option<Snapshot>, live: bool, now: int) returns (outcome: Restored)
      requires EngineOk(State()) && pending.Some?
      modifies this
      ensures EngineOk(State()) && Next(old(State()), State(), Look(seen)) && initialized == old(initialized)
      ensures outcome == Waiting <==> GoesOn(old(State()), seen)
      ensures outcome == Waiting <==> pending.Some?
      ensures outcome == Open ==> seen.Some? && seen.value.ready && SamePrint(old(State()), seen.value)
                                  && ArmedUnder(RestoreOver(old(State())), State(), seen.value.fingerprint)
      ensures outcome != Skipped && (outcome != Open && !old(isArmed) ==> !isArmed)
    {
      var restore := pending.value;
      if seen.Some? && !seen.value.ready && seen.value.retryable && restore.left > 1 {
        pending := Some(restore.(left := restore.left - 1));
        return Waiting;
      }
      pending := None;
      var failed;
      outcome, failed := Conclude(seen, restore.pauses, live, now);
      if failed {
        var _ := SetFaulted(false, "READINESS_CHECK_ERROR_ON_RESTART");
        outcome := Protected;
      }
    }

    /** What follows the last look inside the try block; `failed` is the error its catch turns into a fault. */
    method Conclude(seen: Option<Snapshot>, pauses: bool, live: bool, now: int)
      returns (outcome: Restored, failed: bool)
      requires EngineOk(State()) && pending.None?
      modifies `isArmed, `record, `saved
      ensures failed ==> State() == old(State())
      ensures !failed ==> outcome == Open || outcome == Paused || outcome == Protected
      ensures !failed && outcome == Open ==>
                seen.Some? && seen.value.ready && SamePrint(old(State()), seen.value)
                && ArmedUnder(old(State()), State(), seen.value.fingerprint)
      ensures !failed && outcome == Paused ==>
                && seen.Some? && !seen.value.ready && seen.value.retryable && pauses
                && (if MayPause(old(State())) then ClosedAs(old(State()), State(), true, PausedTransient)
                    else State() == old(State()))
      ensures !failed && outcome == Protected ==>
                && seen.Some? && (seen.value.ready ==> !SamePrint(old(State()), seen.value))
                && ClosedAs(old(State()), State(), if seen.value.ready then false else old(record.desired), FaultProtected)
    {
      outcome, failed := Protected, true;
      if seen.None? { return; }
      var snapshot := seen.value;
      if !snapshot.ready {
        if snapshot.retryable && pauses {
          var paused := PauseTransient("TRANSIENT_READINESS_FAILURE", now);
          return Paused, paused.Failure?;
        }
        var faulted := SetFaulted(false, "READINESS_FAILED_ON_RESTART");
        return Protected, faulted.Failure?;
      }
      if record.fingerprint.None? || record.fingerprint != snapshot.fingerprint {
        var changed := SetFaulted(true, "LIVE_CONFIGURATION_CHANGED");
        return Protected, changed.Failure?;
      }
      var armed := Arm(live, snapshot.fingerprint, snapshot.hash, "supervisor-restore", true, now);
      return Open, armed.Failure?;
    }

    /** Whatever the operator and the monitor do while a restore awaits its snapshot or sleeps. */
    method Meanwhile(live: bool, now: int)
      requires EngineOk(State())
      modifies this
      ensures EngineOk(State()) && pending == old(pending)
    {
      var calls: int := *;
      while calls > 0
        invariant EngineOk(State()) && pending == old(pending)
      {
        calls := calls - 1;
        var choice: int := *;
        if choice == 0 {
          var _ := Stop("admin", None);
        } else if choice == 1 {
          var fingerprint: Option<string> := *;
          var _ := ArmDirectly(live, fingerprint, None, "admin", now);
        } else if choice == 2 {
          var clearIntent: bool := *;
          var _ := SetFaulted(clearIntent, "READINESS_FAILED");
        } else if choice == 3 {
          var _ := PauseTransient("TRANSIENT_READINESS_FAILURE", now);
        } else {
          var snapshot: Option<Snapshot> := *;
          var _ := RecoverTransient(snapshot, live, "readiness-monitor", now);
        }
      }
    }

    /**
     Restores the persisted intent after a restart, in at most `maxAttempts` looks, whatever
     is done to the engine between them. What it opens is open under the operator's fingerprint.
    */
    method RestoreDesiredState(maxAttempts: nat, pauses: bool, live: bool, now: int) returns (outcome: Restored, looks: nat)
      requires EngineOk(State()) && pending.None?
      modifies this
      ensures EngineOk(State()) && pending.None?
      ensures looks <= if maxAttempts == 0 then 1 else maxAttempts
      ensures !old(record.desired) <==> outcome == Skipped
      ensures outcome == Skipped ==> looks == 0 && State() == old(State())
      ensures outcome != Waiting
      ensures outcome == Open ==> isArmed && record.fingerprint.Some? && record.fingerprint == operatorPrint
    {
      looks := 0;
      outcome := StartRestore(maxAttempts, pauses);
      while outcome == Waiting
        invariant EngineOk(State()) && (outcome == Waiting <==> pending.Some?)
        invariant pending.Some? ==> pending.value.left >= 1
        invariant looks + (if pending.Some? then pending.value.left else 0) <= if maxAttempts == 0 then 1 else maxAttempts
        invariant !old(record.desired) <==> outcome == Skipped
        invariant outcome == Skipped ==> looks == 0 && State() == old(State())
        invariant outcome == Open ==> isArmed && record.fingerprint.Some? && record.fingerprint == operatorPrint
        decreases if pending.Some? then pending.value.left else 0
      {
        Meanwhile(live, now);
        var seen: Option<Snapshot> := *;
        looks := looks + 1;
        outcome := LookOnce(seen, live, now);
      }
    }
  }
}
