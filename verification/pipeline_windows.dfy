/**
 When things happen to a launch window: it lives half a minute, waits between its looks, and is never
 taken over from the worker that claimed it, because it expires before that worker's lease does.
*/
module PipelineWindows {
  import opened Wrappers
  import opened PipelineTables
  import opened PipelineInvariants
  import opened PipelineProtocol
  import opened PipelineSafety

  predicate Unfinished(row: Window) {
    row.status == WinPending || row.status == WinProcessing
  }

  // ----- what a step may do to one window, and when -----

  predicate TakenAt(a: Window, b: Window, now: int) {
    && (|| (a.status == WinPending && a.nextAttemptAt <= now)
        || (a.status == WinProcessing && a.leaseExpiresAt.Some? && a.leaseExpiresAt.value < now))
    && a.expiresAt > now
    && b == a.(status := WinProcessing, attempts := a.attempts + 1, worker := b.worker, leaseExpiresAt := Some(now + 120_000))
  }

  /** What its holder makes of a window: a renewed lease, or a status under which nobody holds it. */
  predicate HeldWrite(a: Window, b: Window, now: int) {
    && a.status == WinProcessing && a.leaseExpiresAt.Some? && a.leaseExpiresAt.value > now
    && (|| b == a.(leaseExpiresAt := Some(now + 120_000))
        || (&& b == a.(status := b.status, nextAttemptAt := b.nextAttemptAt, leaseExpiresAt := None)
            && b.status in {WinPending, WinResolved, WinFailed} && (b.status == WinPending ==> b.nextAttemptAt >= now)))
  }

  predicate Dropped(a: Window, b: Window, now: int) {
    && Unfinished(a)
    && (|| (a.expiresAt <= now && b == a.(status := WinExpired, leaseExpiresAt := None))
        || b == a.(status := WinFailed, leaseExpiresAt := None))
  }

  predicate Timed(a: Window, b: Window, now: int) {
    b == a || TakenAt(a, b, now) || HeldWrite(a, b, now) || Dropped(a, b, now)
  }

  ghost predicate WindowsTimed(a: Windows, b: Windows, now: int) {
    && (forall j :: j in a ==> j in b && Timed(a[j], b[j], now))
    && (forall j :: j in b && j !in a ==> b[j] == Window(WinPending, 0, now, now + 30_000, None, None))
  }

  lemma SameTimed(windows: Windows, now: int)
    ensures WindowsTimed(windows, windows, now)
  {
  }

  lemma OneTimed(windows: Windows, j: JobId, b: Window, now: int)
    requires j in windows && Timed(windows[j], b, now)
    ensures WindowsTimed(windows, windows[j := b], now)
  {
  }

  lemma HolderTimed(t: Tables, j: JobId, w: WorkerId, status: WindowStatus, next: int)
    requires WindowOwned(t, j, w) && status in {WinPending, WinResolved, WinFailed} && (status == WinPending ==> next >= t.now)
    ensures WindowsTimed(t.windows, SetWindow(t, j, status, next).windows, t.now) && SetWindow(t, j, status, next).now == t.now
    ensures WindowsTimed(t.windows, RenewWindow(t, j).windows, t.now) && RenewWindow(t, j).now == t.now
  {
    hide WindowsTimed;
    OneTimed(t.windows, j, SetWindow(t, j, status, next).windows[j], t.now);
    OneTimed(t.windows, j, RenewWindow(t, j).windows[j], t.now);
  }

  lemma TakingTimed(t: Tables, j: JobId, w: WorkerId)
    requires WindowClaimable(t, j)
    ensures WindowsTimed(t.windows, ClaimWindow(t, w, j).windows, t.now) && ClaimWindow(t, w, j).now == t.now
  {
    hide WindowsTimed;
    OneTimed(t.windows, j, ClaimWindow(t, w, j).windows[j], t.now);
  }

  lemma WindowStepTimed(t: Tables, w: nat, run: WindowRun, step: WindowStep)
    ensures WindowsTimed(t.windows, WindowStepOf(t, w, run, step).0.windows, t.now) && WindowStepOf(t, w, run, step).0.now == t.now
  {
    SameTimed(t.windows, t.now);
    var me, after := LaunchWorker(w), WindowStepOf(t, w, run, step).0;
    QueueOnlyMeans(t, t);
    QueueOnlyMeans(t, after);
    hide WindowsTimed, QueueOnly, SetWindow, RenewWindow, ClaimWindow, CancelJob, RequeueJob, EffectiveMode, NextAttempt;
    if step.TakeWindow? {
      if WindowClaimable(t, step.j) { TakingTimed(t, step.j, me); }
    } else if !run.WinIdle? {
      RequeueQueueOnly(t, run.job, me);
      EndQueueOnly(t, run.job, me, 0, MODE_CHANGED);
      HeldStepTimed(t, run.job, me);
    }
  }

  /** Whatever the holder's branches write. */
  lemma HeldStepTimed(t: Tables, j: JobId, w: WorkerId)
    ensures WindowOwned(t, j, w) ==>
              && HeldWriteTimed(t, SetWindow(t, j, WinFailed, NextAttempt(t, j))) && HeldWriteTimed(t, SetWindow(t, j, WinPending, t.now))
              && HeldWriteTimed(t, SetWindow(t, j, WinResolved, NextAttempt(t, j))) && HeldWriteTimed(t, RenewWindow(t, j))
              && HeldWriteTimed(t, SetWindow(t, j, WinPending, t.now + WINDOW_WAIT_MS))
              && HeldWriteTimed(t, FailWindow(t, j, w))
  {
    hide WindowsTimed, SetWindow, RenewWindow, NextAttempt;
    if WindowOwned(t, j, w) {
      HolderTimed(t, j, w, WinFailed, NextAttempt(t, j));
      HolderTimed(t, j, w, WinPending, t.now);
      HolderTimed(t, j, w, WinResolved, NextAttempt(t, j));
      HolderTimed(t, j, w, WinPending, t.now + WINDOW_WAIT_MS);
      HolderTimed(t, j, w, if t.windows[j].attempts >= 3 then WinFailed else WinPending, t.now + WINDOW_RETRY_MS);
    }
  }

  ghost predicate HeldWriteTimed(a: Tables, b: Tables) {
    WindowsTimed(a.windows, b.windows, a.now) && b.now == a.now
  }

  lemma ClosedTimed(t: Tables, ctx: Context, result: Resolution)
    requires Fenced(t, ctx)
    ensures WindowsTimed(t.windows, Closed(t, ctx, result).windows, t.now) && Closed(t, ctx, result).now == t.now
  {
    SameTimed(t.windows, t.now);
  }

  lemma SignalTimed(t: Tables, ctx: Context, selected: Candidate)
    ensures WriteSignal(t, ctx, selected).windows == t.windows && WriteSignal(t, ctx, selected).now == t.now
  {
  }

  lemma CommitTimed(t: Tables, ctx: Context, result: Resolution)
    requires Commit(t, ctx, result).Some?
    ensures WindowsTimed(t.windows, Commit(t, ctx, result).value.windows, t.now) && Commit(t, ctx, result).value.now == t.now
  {
    ClosedTimed(t, ctx, result);
    if result.ResolvedTo? { SignalTimed(Closed(t, ctx, result), ctx, result.selected); }
    hide Closed, WriteSignal, WindowsTimed, TargetAllowed;
  }

  /** A statement on the queue leaves the windows and the clock alone. */
  predicate QueueOnly(a: Tables, b: Tables) {
    b.windows == a.windows && b.now == a.now
  }

  lemma RenewQueueOnly(t: Tables, w: WorkerId, j: JobId)
    ensures QueueOnly(t, RenewJob(t, j, w))
    ensures Claimable(t, j) ==> QueueOnly(t, ClaimJob(t, w, j))
  {
  }

  lemma RequeueQueueOnly(t: Tables, j: JobId, w: WorkerId)
    ensures QueueOnly(t, RequeueJob(t, j, w))
  {
  }

  lemma EndQueueOnly(t: Tables, j: JobId, w: WorkerId, count: nat, code: string)
    ensures QueueOnly(t, FailJob(t, j, count, code, Some(w))) && QueueOnly(t, CancelJob(t, j, code, Some(w)))
  {
    hide Failable, Cancellable, AfterFailure;
  }

  lemma WorkerTimed(t: Tables, w: nat, run: Run, step: JobStep)
    ensures WindowsTimed(t.windows, JobStepOf(t, w, run, step).0.windows, t.now) && JobStepOf(t, w, run, step).0.now == t.now
  {
    SameTimed(t.windows, t.now);
    if step.TryCommit? {
      hide WindowsTimed, Commit, RollbackCode;
      if run.Ready? && Commit(t, run.ctx, run.result).Some? { CommitTimed(t, run.ctx, run.result); }
    } else {
      hide WindowsTimed, JobStepOf, QueueOnly;
      StatementQueueOnly(t, w, run, step);
      QueueOnlyMeans(t, JobStepOf(t, w, run, step).0);
    }
  }

  lemma QueueOnlyMeans(a: Tables, b: Tables)
    ensures QueueOnly(a, b) ==> b.windows == a.windows && b.now == a.now
    ensures QueueOnly(a, a)
  {
  }

  lemma StatementQueueOnly(t: Tables, w: nat, run: Run, step: JobStep)
    requires !step.TryCommit?
    ensures QueueOnly(t, JobStepOf(t, w, run, step).0)
  {
    QueueOnlyMeans(t, t);
    hide QueueOnly, RenewJob, FailJob, CancelJob, ClaimJob, Claimable, EffectiveMode, LoadContext, Renewable;
    var me := SignalWorker(w);
    if step.ClaimNext? {
      RenewQueueOnly(t, me, step.j);
    } else if step.LateRenew? {
      RenewQueueOnly(t, me, step.renewed);
    } else if !run.Idle? {
      RenewQueueOnly(t, me, run.job);
      EndQueueOnly(t, run.job, me, 0, POLICY_CHANGED);
      EndQueueOnly(t, run.job, me, 0, MODE_CHANGED);
      if run.Failing? { EndQueueOnly(t, run.job, me, run.count, run.code); }
    }
  }

  lemma FailedTimed(t: Tables, p: PolicyId, kept: Option<nat>)
    ensures WindowsTimed(t.windows, FailWindows(t.windows, t.jobs, p, kept), t.now)
  {
  }

  lemma CascadeQueueOnly(t: Tables, p: PolicyId, kept: Option<nat>, code: string)
    ensures QueueOnly(t, Cascade(t, p, kept, code))
  {
    hide WithdrawSignals, ArchiveWhitelist, ActiveRows, PauseTargets, CancelJobs;
  }

  lemma ChangeTimed(t: Tables, p: PolicyId, config: Config)
    requires !LiveLimitsMissing(config) && p in t.policies && t.policies[p].Hash() != config
    ensures WindowsTimed(t.windows, UpsertPolicy(t, p, config).windows, t.now) && UpsertPolicy(t, p, config).now == t.now
  {
    var kept := Some(t.policies[p].revision + 1);
    var windowed := t.(windows := FailWindows(t.windows, t.jobs, p, kept));
    var bumped := Bumped(windowed, p, config);
    assert bumped.windows == windowed.windows && bumped.now == t.now;
    hide UpsertPolicy, Cascade, FailWindows, WindowsTimed, Bumped;
    ChangedRows(t, p, config);
    FailedTimed(t, p, kept);
    CascadeQueueOnly(bumped, p, kept, "DYNAMIC_POLICY_CHANGED");
  }

  lemma ChangedRows(t: Tables, p: PolicyId, config: Config)
    requires !LiveLimitsMissing(config) && p in t.policies && t.policies[p].Hash() != config
    ensures var kept := Some(t.policies[p].revision + 1);
            var windowed := t.(windows := FailWindows(t.windows, t.jobs, p, kept));
            UpsertPolicy(t, p, config) == Cascade(Bumped(windowed, p, config), p, kept, "DYNAMIC_POLICY_CHANGED")
  {
    hide Cascade, FailWindows, Bumped;
  }

  lemma EditTimed(t: Tables, p: PolicyId, config: Config)
    ensures WindowsTimed(t.windows, UpsertPolicy(t, p, config).windows, t.now) && UpsertPolicy(t, p, config).now == t.now
  {
    hide *;
    if LiveLimitsMissing(config) || p !in t.policies || t.policies[p].Hash() == config {
      UnchangedTimed(t, p, config);
    } else {
      ChangeTimed(t, p, config);
    }
  }

  lemma UnchangedTimed(t: Tables, p: PolicyId, config: Config)
    requires LiveLimitsMissing(config) || p !in t.policies || t.policies[p].Hash() == config
    ensures WindowsTimed(t.windows, UpsertPolicy(t, p, config).windows, t.now) && UpsertPolicy(t, p, config).now == t.now
  {
    SameTimed(t.windows, t.now);
    hide Cascade, FailWindows, WindowsTimed;
  }

  lemma RemovalTimed(t: Tables, p: PolicyId)
    ensures QueueOnly(t, RemovePolicy(t, p))
  {
    if p in t.policies {
      CascadeQueueOnly(Bumped(t, p, t.policies[p].config.(mode := Paused, enabled := false)), p, None, "DYNAMIC_POLICY_REMOVED");
    }
    hide Cascade;
  }

  lemma SweepTimed(t: Tables)
    ensures WindowsTimed(t.windows, ExpireWindows(t).windows, t.now) && ExpireWindows(t).now == t.now
  {
  }

  predicate TouchesWindows(step: Step) {
    step.OfWorker? || step.OfWindow? || step.EditPolicy? || step.DropPolicy? || step.SweepWindows?
  }

  lemma OthersKeepWindows(s: System, step: Step)
    requires !TouchesWindows(step)
    ensures TablesAfter(s, step).windows == s.t.windows && TablesAfter(s, step).now >= s.t.now
  {
    hide JobStepOf, WindowStepOf, UpsertPolicy, RemovePolicy, LiveClaimable, EffectiveMode, Selectable;
  }

  /** Every step moves every window row as one of these, at the time it happens. */
  lemma StepIsTimed(s: System, step: Step)
    ensures WindowsTimed(s.t.windows, TablesAfter(s, step).windows, s.t.now) && s.t.now <= TablesAfter(s, step).now
  {
    hide WindowsTimed, JobStepOf, WindowStepOf, UpsertPolicy, RemovePolicy, ExpireWindows, LiveStepOf, Enqueue;
    SameTimed(s.t.windows, s.t.now);
    if !TouchesWindows(step) {
      OthersKeepWindows(s, step);
      hide TablesAfter;
    } else {
      match step
      case OfWorker(w, js) => WorkerTimed(s.t, w, RunOf(s, w), js);
      case OfWindow(w, ws) => WindowStepTimed(s.t, w, WindowRunOf(s, w), ws);
      case EditPolicy(p, config) => EditTimed(s.t, p, config);
      case DropPolicy(p) => RemovalTimed(s.t, p);
      case SweepWindows => SweepTimed(s.t);
    }
  }

  // ----- nobody takes a window over -----

  /** An unfinished window ends within half a minute, and a held one is held for longer than that. */
  predicate RowInTime(row: Window, now: int) {
    && (Unfinished(row) ==> row.expiresAt <= now + 30_000)
    && (row.status == WinProcessing ==> row.leaseExpiresAt.Some? && row.leaseExpiresAt.value >= row.expiresAt + 90_000)
  }

  ghost predicate InTime(windows: Windows, now: int) {
    forall j :: j in windows ==> RowInTime(windows[j], now)
  }

  lemma TimedStaysInTime(a: Windows, b: Windows, now: int, later: int)
    requires InTime(a, now) && WindowsTimed(a, b, now) && now <= later
    ensures InTime(b, later)
  {
    forall j | j in b ensures RowInTime(b[j], later) {
      if j in a { assert Timed(a[j], b[j], now) && RowInTime(a[j], now); }
    }
  }

  lemma {:induction false} RunStaysInTime(s: System, steps: seq<Step>)
    requires InTime(s.t.windows, s.t.now)
    ensures InTime(Execute(s, steps).t.windows, Execute(s, steps).t.now)
    decreases |steps|
  {
    if steps != [] {
      var next := Next(s, steps[0]);
      StepIsTimed(s, steps[0]);
      hide TablesAfter, HistoryAfter, InTime, WindowsTimed;
      TimedStaysInTime(s.t.windows, next.t.windows, s.t.now, next.t.now);
      hide Next;
      RunStaysInTime(next, steps[1..]);
    }
  }

  /**
   A window that a worker claimed is never up for another claim: it expires first. If that worker is
   lost, the window is not looked at again and only the sweep ends it.
  */
  lemma WindowsAreNeverTakenOver(s: System, j: JobId)
    requires Reachable(s) && WindowClaimable(s.t, j)
    ensures s.t.windows[j].status == WinPending
  {
    var steps :| s == Execute(Start, steps);
    hide Execute;
    RunStaysInTime(Start, steps);
    assert RowInTime(s.t.windows[j], s.t.now);
  }

  /** An idle window worker takes a window exactly when it waits no longer, is not over, and its job is still rejected. */
  lemma TakesExactly(s: System, w: nat, j: JobId)
    requires Reachable(s) && WindowRunOf(s, w).WinIdle?
    ensures var after := Next(s, OfWindow(w, WindowStep.TakeWindow(j)));
            if && j in s.t.windows && s.t.windows[j].status == WinPending && s.t.windows[j].nextAttemptAt <= s.t.now
               && s.t.now < s.t.windows[j].expiresAt && j in s.t.jobs && s.t.jobs[j].status == Rejected
            then after.t == s.t.(windows := s.t.windows[j := s.t.windows[j].(
                   status := WinProcessing, attempts := s.t.windows[j].attempts + 1, worker := Some(LaunchWorker(w)),
                   leaseExpiresAt := Some(s.t.now + 120_000))]) && WindowRunOf(after, w) == WinHolding(j, s.t.jobs[j].mode)
            else after.t == s.t && WindowRunOf(after, w) == WinIdle
  {
    if WindowClaimable(s.t, j) { WindowsAreNeverTakenOver(s, j); }
    hide Reachable, HistoryAfter;
  }

  /** The worker that resolved a window puts its job back, and no other worker does. */
  lemma RequeuesExactly(s: System, w: nat)
    requires WindowRunOf(s, w).WinRequeueing?
    ensures var j, after := WindowRunOf(s, w).job, Next(s, OfWindow(w, RequeueItsJob));
            && WindowRunOf(after, w) == WinIdle
            && after.t == if && j in s.t.jobs && s.t.jobs[j].status == Rejected && j in s.t.windows
                             && s.t.windows[j].status == WinResolved && s.t.windows[j].worker == Some(LaunchWorker(w))
                          then s.t.(jobs := s.t.jobs[j := s.t.jobs[j].(
                                 status := Pending, nextAttemptAt := s.t.now, failureCode := "")])
                          else s.t
  {
    hide HistoryAfter;
  }

  // ----- a window's life -----

  /** Its end is fixed. */
  lemma {:induction false} EndIsFixed(s: System, steps: seq<Step>, j: JobId)
    requires j in s.t.windows
    ensures j in Execute(s, steps).t.windows && Execute(s, steps).t.windows[j].expiresAt == s.t.windows[j].expiresAt
    decreases |steps|
  {
    if steps != [] {
      StepIsTimed(s, steps[0]);
      assert Timed(s.t.windows[j], TablesAfter(s, steps[0]).windows[j], s.t.now);
      hide TablesAfter, HistoryAfter, WindowsTimed;
      EndIsFixed(Next(s, steps[0]), steps[1..], j);
    }
  }

  /** From the commit that asked for it a window can be claimed for half a minute, over every run. */
  lemma WindowLivesHalfAMinute(s: System, step: Step, steps: seq<Step>, j: JobId)
    requires j !in s.t.windows && j in Next(s, step).t.windows
    ensures var later := Execute(Next(s, step), steps);
            && j in later.t.windows && later.t.windows[j].expiresAt == s.t.now + 30_000
            && (WindowClaimable(later.t, j) ==> later.t.now < s.t.now + 30_000)
  {
    StepIsTimed(s, step);
    assert Next(s, step).t.windows[j].expiresAt == s.t.now + 30_000;
    hide TablesAfter, HistoryAfter, WindowsTimed, Next, Execute;
    EndIsFixed(Next(s, step), steps, j);
  }

  /** The sweep ends exactly the unfinished windows whose time is over. */
  lemma SweepEndsExactly(s: System, j: JobId)
    requires j in s.t.windows
    ensures var row, swept := s.t.windows[j], Next(s, SweepWindows).t.windows;
            && swept.Keys == s.t.windows.Keys
            && swept[j] == if row.status in {WinPending, WinProcessing} && row.expiresAt <= s.t.now
                           then row.(status := WinExpired, leaseExpiresAt := None) else row
  {
    hide HistoryAfter;
  }

  // ----- between two looks -----

  predicate RestsUntil(row: Window, attempts: nat, until: int) {
    && row.attempts == attempts
    && if row.status == WinPending then row.nextAttemptAt >= until else row.status != WinProcessing
  }

  lemma {:induction false} RestsThrough(s: System, steps: seq<Step>, j: JobId, attempts: nat, until: int)
    requires j in s.t.windows && RestsUntil(s.t.windows[j], attempts, until) && Execute(s, steps).t.now < until
    ensures j in Execute(s, steps).t.windows && RestsUntil(Execute(s, steps).t.windows[j], attempts, until)
    decreases |steps|
  {
    TimeOnlyGrows(s, steps);
    if steps != [] {
      StepIsTimed(s, steps[0]);
      assert Timed(s.t.windows[j], TablesAfter(s, steps[0]).windows[j], s.t.now);
      hide TablesAfter, HistoryAfter, WindowsTimed;
      RestsThrough(Next(s, steps[0]), steps[1..], j, attempts, until);
    }
  }

  lemma {:induction false} TimeOnlyGrows(s: System, steps: seq<Step>)
    ensures s.t.now <= Execute(s, steps).t.now
    decreases |steps|
  {
    if steps != [] {
      StepIsTimed(s, steps[0]);
      hide TablesAfter, HistoryAfter, WindowsTimed;
      TimeOnlyGrows(Next(s, steps[0]), steps[1..]);
    }
  }

  /** A look that found nothing is followed by none for two seconds, over every run. */
  lemma NothingFoundWaits(s: System, w: nat, steps: seq<Step>)
    requires WindowRunOf(s, w).WinHolding? && WindowOwned(s.t, WindowRunOf(s, w).job, LaunchWorker(w))
    requires Execute(Next(s, OfWindow(w, WaitLonger)), steps).t.now < s.t.now + 2_000
    ensures var j, later := WindowRunOf(s, w).job, Execute(Next(s, OfWindow(w, WaitLonger)), steps);
            j in later.t.windows && later.t.windows[j].attempts == s.t.windows[j].attempts
  {
    var j := WindowRunOf(s, w).job;
    var after := Next(s, OfWindow(w, WaitLonger));
    assert j in after.t.windows && RestsUntil(after.t.windows[j], s.t.windows[j].attempts, s.t.now + 2_000) by {
      hide HistoryAfter, Execute;
    }
    hide Next, Execute;
    RestsThrough(after, steps, j, s.t.windows[j].attempts, s.t.now + 2_000);
  }

  /** A look that failed is followed by none for five seconds, and after the third by none at all. */
  lemma FailedLookWaits(s: System, w: nat, steps: seq<Step>)
    requires WindowRunOf(s, w).WinFailing? && WindowOwned(s.t, WindowRunOf(s, w).job, LaunchWorker(w))
    ensures var j, failed := WindowRunOf(s, w).job, Next(s, OfWindow(w, FailItsWindow));
            && j in failed.t.windows && failed.t.windows[j].status == (if s.t.windows[j].attempts < 3 then WinPending else WinFailed)
            && (Execute(failed, steps).t.now < s.t.now + 5_000 ==>
                  && j in Execute(failed, steps).t.windows
                  && Execute(failed, steps).t.windows[j].attempts == s.t.windows[j].attempts)
  {
    var j := WindowRunOf(s, w).job;
    var after := Next(s, OfWindow(w, FailItsWindow));
    assert j in after.t.windows && RestsUntil(after.t.windows[j], s.t.windows[j].attempts, s.t.now + 5_000)
        && after.t.windows[j].status == (if s.t.windows[j].attempts < 3 then WinPending else WinFailed) by {
      hide HistoryAfter, Execute;
    }
    hide Next, Execute;
    if Execute(after, steps).t.now < s.t.now + 5_000 {
      RestsThrough(after, steps, j, s.t.windows[j].attempts, s.t.now + 5_000);
    }
  }
}
