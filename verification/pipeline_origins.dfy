/**
 Where a signal comes from: in every reachable state a signal, its target and its whitelist row
 name the candidate that its own job's attempt resolved to, and one commit writes all three for
 that candidate under the policy's terms.
*/
module PipelineOrigins {
  import opened Wrappers
  import opened PipelineTables
  import opened PipelineInvariants
  import opened PipelineProtocol
  import opened PipelineSafety

  type Attempts = map<JobId, Attempt>
  type Targets = map<TargetKey, Target>
  type Rows = map<WhitelistId, Whitelist>

  /** The key names this policy and this candidate's chain and address. */
  predicate Names(key: TargetKey, policy: PolicyId, c: Candidate) {
    key.policy == policy && key.chain == c.chain && key.address == c.address
  }

  predicate ResolvedFor(attempts: Attempts, j: JobId, key: TargetKey, policy: PolicyId) {
    j in attempts && attempts[j].result.ResolvedTo? && Names(key, policy, attempts[j].result.selected)
  }

  ghost predicate SignalSources(signals: Signals, attempts: Attempts, rows: Rows) {
    forall x :: x in signals ==>
      && ResolvedFor(attempts, signals[x].job, signals[x].target, signals[x].policy)
      && signals[x].whitelist in rows && rows[signals[x].whitelist].key == signals[x].target
  }

  predicate TargetSource(key: TargetKey, target: Target, attempts: Attempts, jobs: Jobs, rows: Rows) {
    && target.attempt in jobs && jobs[target.attempt].status == Resolved
    && ResolvedFor(attempts, target.attempt, key, jobs[target.attempt].policy)
    && target.mode == jobs[target.attempt].mode && target.revision == jobs[target.attempt].revision
    && target.whitelist.Some? && target.whitelist.value in rows && rows[target.whitelist.value].key == key
  }

  ghost predicate TargetSources(targets: Targets, attempts: Attempts, jobs: Jobs, rows: Rows) {
    forall k :: k in targets ==> TargetSource(k, targets[k], attempts, jobs, rows)
  }

  ghost predicate Origins(t: Tables) {
    SignalSources(t.signals, t.attempts, t.whitelist) && TargetSources(t.targets, t.attempts, t.jobs, t.whitelist)
  }

  // ----- steps other than a commit -----

  ghost predicate SignalsKeepSource(a: Signals, b: Signals) {
    forall x :: x in b ==> x in a && b[x].job == a[x].job && b[x].policy == a[x].policy
                           && b[x].target == a[x].target && b[x].whitelist == a[x].whitelist
  }

  ghost predicate TargetsKeepSource(a: Targets, b: Targets) {
    forall k :: k in b ==> k in a && b[k].attempt == a[k].attempt && b[k].mode == a[k].mode
                           && b[k].revision == a[k].revision && b[k].whitelist == a[k].whitelist
  }

  ghost predicate RowsKeepKeys(a: Rows, b: Rows) {
    forall w :: w in a ==> w in b && b[w].key == a[w].key
  }

  /** Nothing that an origin reads has changed. */
  ghost predicate SameSources(a: Tables, b: Tables) {
    && b.attempts == a.attempts && SignalsKeepSource(a.signals, b.signals) && TargetsKeepSource(a.targets, b.targets)
    && RowsKeepKeys(a.whitelist, b.whitelist)
  }

  lemma OriginsStay(a: Tables, b: Tables)
    requires Origins(a) && SameSources(a, b) && JobsEvolve(a.jobs, b.jobs)
    ensures Origins(b)
  {
  }

  lemma Untouched(t: Tables)
    ensures SameSources(t, t)
  {
  }

  lemma WithdrawnSources(t: Tables, p: PolicyId, kept: Option<nat>)
    ensures SignalsKeepSource(t.signals, WithdrawSignals(t.signals, p, kept))
    ensures TargetsKeepSource(t.targets, PauseTargets(t.targets, p, kept))
    ensures RowsKeepKeys(t.whitelist, ArchiveWhitelist(t.whitelist, p, kept))
  {
  }

  lemma CascadeSources(t: Tables, u: Tables, p: PolicyId, kept: Option<nat>, code: string)
    requires u.attempts == t.attempts && u.signals == t.signals && u.targets == t.targets && u.whitelist == t.whitelist
    ensures SameSources(t, Cascade(u, p, kept, code))
  {
    WithdrawnSources(t, p, kept);
    hide CancelJobs, ActiveRows, SignalsKeepSource, TargetsKeepSource, RowsKeepKeys;
    hide WithdrawSignals, PauseTargets, ArchiveWhitelist;
  }

  lemma EditSources(t: Tables, p: PolicyId, config: Config)
    ensures SameSources(t, UpsertPolicy(t, p, config)) && SameSources(t, RemovePolicy(t, p))
  {
    Untouched(t);
    if p in t.policies {
      var kept := Some(t.policies[p].revision + 1);
      var windowed := t.(windows := FailWindows(t.windows, t.jobs, p, kept));
      CascadeSources(t, Bumped(windowed, p, config), p, kept, "DYNAMIC_POLICY_CHANGED");
      var paused := t.policies[p].config.(mode := Paused, enabled := false);
      CascadeSources(t, Bumped(t, p, paused), p, None, "DYNAMIC_POLICY_REMOVED");
    }
    hide Cascade, FailWindows, SameSources;
  }

  lemma SignalUpdateSources(t: Tables, x: SignalId, status: SignalStatus)
    requires x in t.signals
    ensures SameSources(t, SetSignal(t, x, status))
  {
  }

  /** Neither the signals nor what they were made from is written. */
  predicate WritesQueueOnly(a: Tables, b: Tables) {
    b == a.(jobs := b.jobs, windows := b.windows)
  }

  lemma QueueIsNoSource(a: Tables, b: Tables)
    ensures WritesQueueOnly(a, b) ==> SameSources(a, b)
    ensures WritesQueueOnly(a, a)
  {
  }

  lemma QueueWrites(t: Tables, w: WorkerId, j: JobId)
    ensures WritesQueueOnly(t, RenewJob(t, j, w)) && (Claimable(t, j) ==> WritesQueueOnly(t, ClaimJob(t, w, j)))
  {
    hide Renewable;
  }

  lemma EndWrites(t: Tables, w: WorkerId, j: JobId, count: nat, code: string)
    ensures WritesQueueOnly(t, FailJob(t, j, count, code, Some(w))) && WritesQueueOnly(t, CancelJob(t, j, code, Some(w)))
  {
    hide Failable, Cancellable, AfterFailure;
  }

  /** The worker's statements before the commit. */
  lemma WorkerWrites(t: Tables, w: nat, run: Run, step: JobStep)
    requires !step.TryCommit?
    ensures WritesQueueOnly(t, JobStepOf(t, w, run, step).0)
  {
    QueueIsNoSource(t, t);
    hide WritesQueueOnly, SameSources, RenewJob, FailJob, CancelJob, ClaimJob, Claimable, Renewable, EffectiveMode, LoadContext;
    var me := SignalWorker(w);
    if step.ClaimNext? {
      QueueWrites(t, me, step.j);
    } else if step.LateRenew? {
      QueueWrites(t, me, step.renewed);
    } else if !run.Idle? {
      QueueWrites(t, me, run.job);
      EndWrites(t, me, run.job, 0, POLICY_CHANGED);
      EndWrites(t, me, run.job, 0, MODE_CHANGED);
      if run.Failing? { EndWrites(t, me, run.job, run.count, run.code); }
    }
  }

  lemma TakingWrites(t: Tables, w: WorkerId, j: JobId)
    ensures WindowClaimable(t, j) ==> WritesQueueOnly(t, ClaimWindow(t, w, j))
  {
  }

  lemma HolderWrites(t: Tables, w: WorkerId, j: JobId, status: WindowStatus, next: int)
    ensures WindowOwned(t, j, w) ==> WritesQueueOnly(t, SetWindow(t, j, status, next)) && WritesQueueOnly(t, RenewWindow(t, j))
  {
  }

  lemma ClosingWrites(t: Tables, w: WorkerId, j: JobId)
    ensures WritesQueueOnly(t, FailWindow(t, j, w))
  {
    QueueIsNoSource(t, t);
    if WindowOwned(t, j, w) {
      HolderWrites(t, w, j, if t.windows[j].attempts >= 3 then WinFailed else WinPending, t.now + WINDOW_RETRY_MS);
    }
    hide WritesQueueOnly, SetWindow, WindowOwned;
  }

  lemma RequeueWrites(t: Tables, w: WorkerId, j: JobId)
    ensures WritesQueueOnly(t, RequeueJob(t, j, w))
  {
  }

  lemma WindowWrites(t: Tables, w: nat, run: WindowRun, step: WindowStep)
    ensures WritesQueueOnly(t, WindowStepOf(t, w, run, step).0)
  {
    QueueIsNoSource(t, t);
    hide WritesQueueOnly, SameSources, FailWindow, RequeueJob, CancelJob, ClaimWindow, WindowClaimable, WindowOwned, SetWindow;
    hide RenewWindow, EffectiveMode, NextAttempt;
    var me := LaunchWorker(w);
    if step.TakeWindow? {
      TakingWrites(t, me, step.j);
    } else if !run.WinIdle? {
      EndWrites(t, me, run.job, 0, MODE_CHANGED);
      ClosingWrites(t, me, run.job);
      RequeueWrites(t, me, run.job);
      HolderWrites(t, me, run.job, WinFailed, NextAttempt(t, run.job));
      HolderWrites(t, me, run.job, WinResolved, NextAttempt(t, run.job));
      HolderWrites(t, me, run.job, WinPending, t.now);
      HolderWrites(t, me, run.job, WinPending, t.now + WINDOW_WAIT_MS);
    }
  }

  lemma LiveSources(t: Tables, run: LiveRun, step: LiveStep)
    ensures SameSources(t, LiveStepOf(t, run, step).0)
  {
    Untouched(t);
    hide SameSources, SetSignal, LiveClaimable;
    match step
    case ClaimSignal(x) => if x in t.signals { SignalUpdateSources(t, x, SigPending); } else { NotClaimable(t, x); }
    case RejectIt => if run.LiveCalled? && run.signal in t.signals { SignalUpdateSources(t, run.signal, SigRejected); }
    case _ =>
  }

  lemma NotClaimable(t: Tables, x: SignalId)
    requires x !in t.signals
    ensures !LiveClaimable(t, x)
  {
  }

  predicate Commits(step: Step) {
    step.OfWorker? && step.jobStep.TryCommit?
  }

  lemma OtherStepSources(s: System, step: Step)
    requires !Commits(step)
    ensures SameSources(s.t, TablesAfter(s, step))
  {
    hide JobStepOf, WindowStepOf, LiveStepOf, UpsertPolicy, RemovePolicy, SameSources;
    Untouched(s.t);
    match step
    case EditPolicy(p, config) => EditSources(s.t, p, config);
    case DropPolicy(p) => EditSources(s.t, p, Config(Paused, false, {}, map[], 0));
    case OfWorker(w, js) =>
      WorkerWrites(s.t, w, RunOf(s, w), js);
      QueueIsNoSource(s.t, TablesAfter(s, step));
    case OfWindow(w, ws) =>
      WindowWrites(s.t, w, WindowRunOf(s, w), ws);
      QueueIsNoSource(s.t, TablesAfter(s, step));
    case OfLive(p, ls) => LiveSources(s.t, LiveRunOf(s, p), ls);
    case WithdrawSignal(x, status) => if x in s.t.signals { SignalUpdateSources(s.t, x, status); }
    case TradeWrite(x, status) => if x in s.t.signals { SignalUpdateSources(s.t, x, status); }
    case _ => SmallSteps(s, step);
  }

  lemma SmallSteps(s: System, step: Step)
    requires step.Tick? || step.EnqueueOne? || step.SweepWindows? || step.Activate?
    ensures SameSources(s.t, TablesAfter(s, step))
  {
  }

  // ----- the commit -----

  /** What a commit of a resolved paper or live job leaves for the candidate's key. */
  ghost predicate WrittenForCandidate(t: Tables, ctx: Context, key: TargetKey) {
    && key in t.targets && t.targets[key].active && t.targets[key].attempt == ctx.job
    && t.targets[key].revision == ctx.revision && t.targets[key].hash == ctx.hash && t.targets[key].mode == ctx.mode
    && t.targets[key].whitelist.Some?
    && var w := t.targets[key].whitelist.value;
    && w in t.whitelist && t.whitelist[w].key == key && t.whitelist[w].active && !t.whitelist[w].liveReady
    && t.whitelist[w].revision == ctx.revision
    && ctx.job in t.signalIndex && t.signalIndex[ctx.job] in t.signals
    && var x := t.signals[t.signalIndex[ctx.job]];
    && x.job == ctx.job && x.target == key && x.whitelist == w && x.policy == ctx.policy && x.revision == ctx.revision
    && x.hash == ctx.hash && x.mode == ctx.mode && x.status == SigRecorded
    && x.waitVersion == (if ctx.mode == Live then Some(t.whitelist[w].activationVersion) else None)
  }

  lemma WritesForCandidate(u: Tables, ctx: Context, selected: Candidate)
    requires ctx.job !in u.signalIndex && WhitelistTable(u.whitelist, u.activeWhitelist, u.nextWhitelist)
    ensures WrittenForCandidate(WriteSignal(u, ctx, selected), ctx, TargetKey(ctx.policy, selected.chain, selected.address))
    ensures VersionKept(u.whitelist, WriteSignal(u, ctx, selected), TargetKey(ctx.policy, selected.chain, selected.address))
  {
  }

  /** The row keeps its activation version when it was there, and starts at one when it is new. */
  predicate VersionKept(before: Rows, after: Tables, key: TargetKey) {
    && key in after.targets && after.targets[key].whitelist.Some?
    && var w := after.targets[key].whitelist.value;
    && w in after.whitelist
    && after.whitelist[w].activationVersion == if w in before then before[w].activationVersion else 1
  }

  predicate AttemptWritten(a: Attempts, b: Attempts, ctx: Context, result: Resolution) {
    && ctx.job in b && b[ctx.job].result == result
    && (forall j :: j in a && j != ctx.job ==> j in b && b[j] == a[j])
    && (if ctx.job in a then b[ctx.job].revision == a[ctx.job].revision && b[ctx.job].hash == a[ctx.job].hash
        else b[ctx.job].revision == ctx.revision && b[ctx.job].hash == ctx.hash)
  }

  lemma ClosedAttempt(t: Tables, ctx: Context, result: Resolution)
    requires Fenced(t, ctx)
    ensures AttemptWritten(t.attempts, Closed(t, ctx, result).attempts, ctx, result)
  {
  }

  /** The attempt row takes the result, keeps the revision it was first made for, and no other row changes. */
  lemma CommitAttempt(t: Tables, ctx: Context, result: Resolution)
    requires Commit(t, ctx, result).Some?
    ensures AttemptWritten(t.attempts, Commit(t, ctx, result).value.attempts, ctx, result)
  {
    ClosedAttempt(t, ctx, result);
    hide AttemptWritten, Closed, TargetAllowed;
  }

  /**
   A commit closes a running claim of the context's worker under its result's own code, asks for a
   launch window exactly for a miss with window terms that has none, and touches no other job or window.
  */
  lemma CommitClosesExactly(t: Tables, ctx: Context, result: Resolution)
    requires Commit(t, ctx, result).Some?
    ensures ctx.job in t.jobs
    ensures var job, after := t.jobs[ctx.job], Commit(t, ctx, result).value;
            && job.status == Processing && ctx.worker.Some? && job.worker == ctx.worker
            && job.leaseExpiresAt.Some? && job.leaseExpiresAt.value > t.now
            && after.jobs == t.jobs[ctx.job := job.(
                 status := if result.ResolvedTo? then Resolved else Rejected,
                 failureCode := if result.ResolvedTo? then "" else result.code, leaseExpiresAt := None)]
            && after.windows == if result.NotFound? && result.hasWindowTerms && ctx.job !in t.windows
                                then t.windows[ctx.job := Window(WinPending, 0, t.now, t.now + 30_000, None, None)]
                                else t.windows
  {
    hide TargetAllowed, UpsertWhitelist, RecordAttempt;
    RecordsAttemptOnly(t, ctx, result);
    if result.ResolvedTo? { UpsertsRowsOnly(Closed(t, ctx, result), ctx, KeyOf(ctx, result.selected)); }
  }

  lemma RecordsAttemptOnly(t: Tables, ctx: Context, result: Resolution)
    ensures RecordAttempt(t, ctx, result) == t.(attempts := RecordAttempt(t, ctx, result).attempts)
  {
  }

  lemma UpsertsRowsOnly(t: Tables, ctx: Context, key: TargetKey)
    ensures UpsertWhitelist(t, ctx, key).windows == t.windows && UpsertWhitelist(t, ctx, key).signalIndex == t.signalIndex
    ensures WhitelistSlot(t, key) in UpsertWhitelist(t, ctx, key).whitelist
  {
  }

  lemma ClosedParts(t: Tables, ctx: Context, result: Resolution)
    requires Fenced(t, ctx)
    ensures var u := Closed(t, ctx, result);
            && u.signals == t.signals && u.signalIndex == t.signalIndex && u.targets == t.targets
            && u.whitelist == t.whitelist && u.activeWhitelist == t.activeWhitelist && u.nextWhitelist == t.nextWhitelist
            && u.policies == t.policies && u.nextSignal == t.nextSignal
  {
  }

  /**
   A committed resolution of a paper or live job is one the policy as it stands allows, and it
   writes target, active whitelist row and signal for the resolved candidate's own chain and address.
  */
  lemma CommitWritesSelected(t: Tables, ctx: Context, result: Resolution)
    requires TablesInv(t) && ContextOk(t.jobs, ctx) && Commit(t, ctx, result).Some?
    requires result.ResolvedTo? && Materializes(ctx.mode)
    ensures ctx.policy in t.policies
    ensures var policy := t.policies[ctx.policy];
            policy.config.enabled && policy.revision == ctx.revision && result.selected.chain in policy.config.budgets
    ensures WrittenForCandidate(Commit(t, ctx, result).value, ctx,
                                TargetKey(ctx.policy, result.selected.chain, result.selected.address))
    ensures VersionKept(t.whitelist, Commit(t, ctx, result).value,
                        TargetKey(ctx.policy, result.selected.chain, result.selected.address))
  {
    NoSignalYet(t, ctx.job);
    ClosedParts(t, ctx, result);
    assert TargetAllowed(t, ctx, result.selected);
    hide Closed, WriteSignal, WrittenForCandidate, VersionKept;
    WritesForCandidate(Closed(t, ctx, result), ctx, result.selected);
  }

  // ----- every reachable state -----

  /** A committed job was not resolved before, so no target was made by it and no signal is its own. */
  lemma NotYetASource(t: Tables, ctx: Context, result: Resolution)
    requires TablesInv(t) && ContextOk(t.jobs, ctx) && Commit(t, ctx, result).Some?
    requires TargetSources(t.targets, t.attempts, t.jobs, t.whitelist)
    ensures forall k :: k in t.targets ==> t.targets[k].attempt != ctx.job
    ensures forall x :: x in t.signals ==> t.signals[x].job != ctx.job
  {
    NoSignalYet(t, ctx.job);
    hide TablesInv, Commit;
  }

  /** Without a materialised result the three tables stay as they were. */
  lemma NothingMaterialized(t: Tables, ctx: Context, result: Resolution)
    requires Commit(t, ctx, result).Some? && (!result.ResolvedTo? || !Materializes(ctx.mode))
    ensures var t' := Commit(t, ctx, result).value;
            t'.signals == t.signals && t'.targets == t.targets && t'.whitelist == t.whitelist
  {
    ClosedParts(t, ctx, result);
    hide Closed;
  }

  predicate Materialized(ctx: Context, result: Resolution) {
    result.ResolvedTo? && Materializes(ctx.mode)
  }

  /** A target that is not the candidate's is one that was there, as it was. */
  predicate OtherTargetsStay(a: Targets, b: Targets, ctx: Context, result: Resolution) {
    forall k :: k in b && !(Materialized(ctx, result) && Names(k, ctx.policy, result.selected)) ==> k in a && b[k] == a[k]
  }

  predicate OtherSignalsStay(a: Signals, b: Signals, j: JobId) {
    forall x :: x in b && b[x].job != j ==> x in a && b[x] == a[x]
  }

  /** A row of another key stays as it was, and no row changes its key. */
  predicate OtherRowsStay(a: Rows, b: Rows, ctx: Context, result: Resolution) {
    forall w :: w in a ==>
      && w in b && b[w].key == a[w].key
      && (!(Materialized(ctx, result) && Names(a[w].key, ctx.policy, result.selected)) ==> b[w] == a[w])
  }

  lemma UpsertedRowsStay(u: Tables, ctx: Context, result: Resolution)
    requires WhitelistTable(u.whitelist, u.activeWhitelist, u.nextWhitelist) && Materialized(ctx, result)
    ensures OtherRowsStay(u.whitelist, UpsertWhitelist(u, ctx, KeyOf(ctx, result.selected)).whitelist, ctx, result)
  {
  }

  lemma WritesNoOther(u: Tables, ctx: Context, result: Resolution)
    requires ctx.job !in u.signalIndex && WhitelistTable(u.whitelist, u.activeWhitelist, u.nextWhitelist)
    requires Materialized(ctx, result)
    ensures var t' := WriteSignal(u, ctx, result.selected);
            && OtherTargetsStay(u.targets, t'.targets, ctx, result) && OtherSignalsStay(u.signals, t'.signals, ctx.job)
            && OtherRowsStay(u.whitelist, t'.whitelist, ctx, result)
  {
    WriteSignalShape(u, ctx, result.selected);
    UpsertedRowsStay(u, ctx, result);
    hide WriteSignal, UpsertWhitelist, WhitelistTable, OtherRowsStay;
  }

  /** A commit changes no target, whitelist row or signal but its own candidate's and its own job's. */
  lemma CommitWritesNoOther(t: Tables, ctx: Context, result: Resolution)
    requires TablesInv(t) && ContextOk(t.jobs, ctx) && Commit(t, ctx, result).Some?
    ensures var t' := Commit(t, ctx, result).value;
            && OtherTargetsStay(t.targets, t'.targets, ctx, result) && OtherSignalsStay(t.signals, t'.signals, ctx.job)
            && OtherRowsStay(t.whitelist, t'.whitelist, ctx, result)
  {
    NoSignalYet(t, ctx.job);
    ClosedParts(t, ctx, result);
    assert WhitelistTable(t.whitelist, t.activeWhitelist, t.nextWhitelist);
    hide Closed, TablesInv, WriteSignal, WhitelistTable, OtherTargetsStay, OtherSignalsStay, OtherRowsStay, TargetAllowed, ContextOk;
    if Materialized(ctx, result) {
      WritesNoOther(Closed(t, ctx, result), ctx, result);
    } else {
      hide Commit;
      NothingMaterialized(t, ctx, result);
      NothingOtherChanges(t, ctx, result);
    }
  }

  lemma NothingOtherChanges(t: Tables, ctx: Context, result: Resolution)
    ensures OtherTargetsStay(t.targets, t.targets, ctx, result) && OtherSignalsStay(t.signals, t.signals, ctx.job)
    ensures OtherRowsStay(t.whitelist, t.whitelist, ctx, result)
  {
  }

  /** What a commit does to the tables, as its origins see it. */
  ghost predicate CommitEffect(t: Tables, t': Tables, ctx: Context, result: Resolution) {
    && AttemptWritten(t.attempts, t'.attempts, ctx, result) && OtherRowsStay(t.whitelist, t'.whitelist, ctx, result)
    && OtherSignalsStay(t.signals, t'.signals, ctx.job) && OtherTargetsStay(t.targets, t'.targets, ctx, result)
    && (Materialized(ctx, result) ==>
          WrittenForCandidate(t', ctx, TargetKey(ctx.policy, result.selected.chain, result.selected.address)))
    && (!Materialized(ctx, result) ==> t'.signals == t.signals)
  }

  lemma CommitHasEffect(t: Tables, ctx: Context, result: Resolution)
    requires TablesInv(t) && ContextOk(t.jobs, ctx) && Commit(t, ctx, result).Some?
    ensures CommitEffect(t, Commit(t, ctx, result).value, ctx, result)
  {
    CommitAttempt(t, ctx, result);
    CommitWritesNoOther(t, ctx, result);
    if Materialized(ctx, result) { CommitWritesSelected(t, ctx, result); } else { NothingMaterialized(t, ctx, result); }
    hide Commit, TablesInv, ContextOk, AttemptWritten, OtherRowsStay, WrittenForCandidate, OtherTargetsStay, OtherSignalsStay;
  }

  lemma SignalsAfterCommit(t: Tables, t': Tables, ctx: Context, result: Resolution)
    requires SignalSources(t.signals, t.attempts, t.whitelist) && CommitEffect(t, t', ctx, result)
    requires SignalTable(t'.signals, t'.signalIndex, t'.nextSignal)
    requires forall x :: x in t.signals ==> t.signals[x].job != ctx.job
    ensures SignalSources(t'.signals, t'.attempts, t'.whitelist)
  {
    forall x | x in t'.signals
      ensures && ResolvedFor(t'.attempts, t'.signals[x].job, t'.signals[x].target, t'.signals[x].policy)
              && t'.signals[x].whitelist in t'.whitelist
              && t'.whitelist[t'.signals[x].whitelist].key == t'.signals[x].target
    {
      if t'.signals[x].job == ctx.job { assert t'.signalIndex[ctx.job] == x; }
    }
  }

  lemma TargetsAfterCommit(t: Tables, t': Tables, ctx: Context, result: Resolution)
    requires TargetSources(t.targets, t.attempts, t.jobs, t.whitelist) && CommitEffect(t, t', ctx, result)
    requires JobsEvolve(t.jobs, t'.jobs) && ContextOk(t'.jobs, ctx)
    requires result.ResolvedTo? ==> t'.jobs[ctx.job].status == Resolved
    requires forall k :: k in t.targets ==> t.targets[k].attempt != ctx.job
    ensures TargetSources(t'.targets, t'.attempts, t'.jobs, t'.whitelist)
  {
    forall k | k in t'.targets ensures TargetSource(k, t'.targets[k], t'.attempts, t'.jobs, t'.whitelist) {
      if Materialized(ctx, result) && Names(k, ctx.policy, result.selected) {
        assert k == TargetKey(ctx.policy, result.selected.chain, result.selected.address);
      } else {
        assert TargetSource(k, t.targets[k], t.attempts, t.jobs, t.whitelist);
      }
    }
  }

  lemma CommitKeepsOrigins(t: Tables, ctx: Context, result: Resolution)
    requires TablesInv(t) && ContextOk(t.jobs, ctx) && Commit(t, ctx, result).Some? && Origins(t)
    ensures Origins(Commit(t, ctx, result).value)
  {
    var t' := Commit(t, ctx, result).value;
    CommitKeeps(t, ctx, result);
    CommitHasEffect(t, ctx, result);
    NotYetASource(t, ctx, result);
    assert JobsEvolve(t.jobs, t'.jobs) && SignalTable(t'.signals, t'.signalIndex, t'.nextSignal);
    assert t'.jobs[ctx.job].status == if result.ResolvedTo? then Resolved else Rejected;
    hide Commit, TablesInv, Evolves, Keeps, CommitEffect, SignalSources, TargetSources, JobsEvolve, SignalTable;
    assert ContextOk(t'.jobs, ctx) by { SameContext(t.jobs, t'.jobs, ctx); }
    SignalsAfterCommit(t, t', ctx, result);
    TargetsAfterCommit(t, t', ctx, result);
  }

  lemma SameContext(a: Jobs, b: Jobs, ctx: Context)
    requires JobsEvolve(a, b) && ContextOk(a, ctx)
    ensures ContextOk(b, ctx)
  {
  }

  lemma StepKeepsOrigins(s: System, step: Step)
    requires SystemInv(s) && Origins(s.t)
    ensures Origins(Next(s, step).t)
  {
    StepKeepsTables(s, step);
    assert JobsEvolve(s.t.jobs, Next(s, step).t.jobs);
    assert RunsOk(s);
    hide TablesInv, SystemInv, RunsOk, Evolves, Origins, HistoryAfter, JobsEvolve, TablesAfter;
    if !Commits(step) {
      OtherStepSources(s, step);
      hide SameSources;
      OriginsStay(s.t, Next(s, step).t);
    } else {
      CommittingKeepsOrigins(s, step);
    }
  }

  lemma CommittingKeepsOrigins(s: System, step: Step)
    requires TablesInv(s.t) && RunsOk(s) && Origins(s.t) && Commits(step)
    ensures Origins(TablesAfter(s, step))
  {
    var run := RunOf(s, step.w);
    hide TablesInv, Origins, Commit, RollbackCode;
    if run.Ready? && !run.lost && !step.jobStep.aborts && Commit(s.t, run.ctx, run.result).Some? {
      assert RunOk(s.t.jobs, step.w, run);
      assert ContextOk(s.t.jobs, run.ctx);
      CommitKeepsOrigins(s.t, run.ctx, run.result);
    }
  }

  lemma {:induction false} RunKeepsOrigins(s: System, steps: seq<Step>)
    requires SystemInv(s) && Origins(s.t)
    ensures Origins(Execute(s, steps).t)
    decreases |steps|
  {
    if steps != [] {
      StepKeeps(s, steps[0]);
      StepKeepsOrigins(s, steps[0]);
      hide SystemInv, Origins, Next;
      RunKeepsOrigins(Next(s, steps[0]), steps[1..]);
    }
  }

  /**
   In every reachable state a signal, its whitelist row and its policy name the candidate that the
   signal's own job resolved to, and so does every target of the job that made it.
  */
  lemma SignalNamesItsCandidate(s: System)
    requires Reachable(s)
    ensures forall x :: x in s.t.signals ==>
              var signal := s.t.signals[x];
              && signal.job in s.t.jobs && signal.job in s.t.attempts && s.t.attempts[signal.job].result.ResolvedTo?
              && var c := s.t.attempts[signal.job].result.selected;
              && signal.target.chain == c.chain && signal.target.address == c.address
              && signal.target.policy == signal.policy == s.t.jobs[signal.job].policy
              && signal.whitelist in s.t.whitelist && s.t.whitelist[signal.whitelist].key == signal.target
    ensures forall k :: k in s.t.targets ==>
              var target := s.t.targets[k];
              && target.attempt in s.t.jobs && s.t.jobs[target.attempt].status == Resolved
              && target.attempt in s.t.attempts && s.t.attempts[target.attempt].result.ResolvedTo?
              && var c := s.t.attempts[target.attempt].result.selected;
              && k.chain == c.chain && k.address == c.address && k.policy == s.t.jobs[target.attempt].policy
              && target.whitelist.Some? && target.whitelist.value in s.t.whitelist
              && s.t.whitelist[target.whitelist.value].key == k
  {
    ReachableOrigins(s);
    assert SignalSources(s.t.signals, s.t.attempts, s.t.whitelist);
    hide Reachable;
    forall k | k in s.t.targets ensures TargetSource(k, s.t.targets[k], s.t.attempts, s.t.jobs, s.t.whitelist) {
    }
  }

  lemma ReachableOrigins(s: System)
    requires Reachable(s)
    ensures Origins(s.t) && SignalJobs(s.t.signals, s.t.jobs)
  {
    ReachableOk(s);
    var steps :| s == Execute(Start, steps);
    StartOk();
    assert SignalJobs(s.t.signals, s.t.jobs);
    hide SystemInv, TablesInv, Execute;
    RunKeepsOrigins(Start, steps);
  }
}
