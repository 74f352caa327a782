/**
 What the tables keep under every statement and transaction of the pipeline: the
 unique indexes, the revision fence, and "a signal exactly when resolved". Each part
 is a predicate of the tables it reads, so that a statement re-proves only those it writes.
*/
module PipelineInvariants {
  import opened Wrappers
  import opened PipelineTables

  type Jobs = map<JobId, Job>
  type Signals = map<SignalId, Signal>
  type Windows = map<JobId, Window>
  type Policies = map<PolicyId, Policy>

  function KeyOfJob(job: Job): JobKey {
    JobKey(job.activity, job.policy, job.revision)
  }

  // ----- one predicate per table or pair of tables -----

  ghost predicate JobTable(jobs: Jobs, index: map<JobKey, JobId>, next: JobId) {
    && (forall j :: j in jobs ==> j < next && KeyOfJob(jobs[j]) in index && index[KeyOfJob(jobs[j])] == j)
    && (forall k :: k in index ==> index[k] in jobs && KeyOfJob(jobs[index[k]]) == k)
  }

  ghost predicate JobPolicies(jobs: Jobs, policies: Policies) {
    forall j :: j in jobs ==> Known(policies, jobs[j].policy, jobs[j].revision)
  }

  ghost predicate JobWorkers(jobs: Jobs) {
    forall j :: j in jobs && jobs[j].worker.Some? ==> jobs[j].worker.value.SignalWorker?
  }

  ghost predicate JobsOf<V>(rows: map<JobId, V>, jobs: Jobs) {
    forall j :: j in rows ==> j in jobs
  }

  ghost predicate SignalTable(signals: Signals, index: map<JobId, SignalId>, next: SignalId) {
    && (forall s :: s in signals ==> s < next && signals[s].job in index && index[signals[s].job] == s)
    && (forall j :: j in index ==> index[j] in signals && signals[index[j]].job == j)
  }

  predicate BornFrom(signal: Signal, job: Job) {
    && job.status == Resolved && Materializes(job.mode)
    && signal.mode == job.mode && signal.policy == job.policy && signal.revision == job.revision
  }

  ghost predicate SignalJobs(signals: Signals, jobs: Jobs) {
    forall s :: s in signals ==> signals[s].job in jobs && BornFrom(signals[s], jobs[signals[s].job])
  }

  ghost predicate ResolvedSignals(jobs: Jobs, index: map<JobId, SignalId>) {
    forall j :: j in jobs && jobs[j].status == Resolved && Materializes(jobs[j].mode) ==> j in index
  }

  ghost predicate WhitelistTable(
    rows: map<WhitelistId, Whitelist>, active: map<TargetKey, WhitelistId>, next: WhitelistId)
  {
    && (forall w :: w in rows ==> w < next)
    && (forall w :: w in rows && rows[w].active ==> rows[w].key in active && active[rows[w].key] == w)
    && (forall k :: k in active ==> active[k] in rows && rows[active[k]].active && rows[active[k]].key == k)
  }

  ghost predicate Known(policies: Policies, p: PolicyId, revision: nat) {
    p in policies && revision <= policies[p].revision
  }

  ghost predicate Current(policies: Policies, p: PolicyId, revision: nat, hash: ContextHash) {
    p in policies && policies[p].revision == revision && policies[p].Hash() == hash
  }

  /** An actionable signal carries its policy's current revision and hash. */
  ghost predicate SignalFence(signals: Signals, policies: Policies) {
    forall s :: s in signals ==>
      && Known(policies, signals[s].policy, signals[s].revision)
      && (Actionable(signals[s].status) ==>
            Current(policies, signals[s].policy, signals[s].revision, signals[s].hash))
  }

  ghost predicate TargetFence(targets: map<TargetKey, Target>, policies: Policies) {
    forall k :: k in targets ==>
      && Known(policies, k.policy, targets[k].revision)
      && (targets[k].active ==> Current(policies, k.policy, targets[k].revision, targets[k].hash))
  }

  ghost predicate WhitelistFence(rows: map<WhitelistId, Whitelist>, policies: Policies) {
    forall w :: w in rows ==>
      && Known(policies, rows[w].key.policy, rows[w].revision)
      && (rows[w].active ==> policies[rows[w].key.policy].revision == rows[w].revision)
  }

  ghost predicate Fence(t: Tables) {
    SignalFence(t.signals, t.policies) && TargetFence(t.targets, t.policies) && WhitelistFence(t.whitelist, t.policies)
  }

  ghost predicate TablesInv(t: Tables) {
    && JobTable(t.jobs, t.jobIndex, t.nextJob)
    && JobPolicies(t.jobs, t.policies)
    && JobWorkers(t.jobs)
    && JobsOf(t.windows, t.jobs) && JobsOf(t.attempts, t.jobs)
    && SignalTable(t.signals, t.signalIndex, t.nextSignal)
    && SignalJobs(t.signals, t.jobs)
    && ResolvedSignals(t.jobs, t.signalIndex)
    && WhitelistTable(t.whitelist, t.activeWhitelist, t.nextWhitelist)
    && Fence(t)
  }

  // ----- what may change from one state to a later one -----

  predicate Terminal(status: JobStatus) {
    status == Resolved || status == Failed || status == Cancelled
  }

  predicate SameIdentity(a: Job, b: Job) {
    a.activity == b.activity && a.eventType == b.eventType && a.policy == b.policy
    && a.revision == b.revision && a.mode == b.mode
  }

  ghost predicate JobsEvolve(a: Jobs, b: Jobs) {
    forall j :: j in a ==>
      j in b && SameIdentity(a[j], b[j]) && (Terminal(a[j].status) ==> a[j] == b[j]) && a[j].attempts <= b[j].attempts
  }

  ghost predicate SignalsEvolve(a: Signals, b: Signals) {
    forall s :: s in a ==>
      && s in b && a[s].job == b[s].job && a[s].policy == b[s].policy
      && a[s].revision == b[s].revision && a[s].mode == b[s].mode
      && (a[s].status != SigRecorded ==> b[s].status != SigRecorded)
  }

  ghost predicate WindowsEvolve(a: Windows, b: Windows) {
    forall j :: j in a ==> j in b && (a[j].status == WinResolved ==> a[j] == b[j])
  }

  ghost predicate PoliciesEvolve(a: Policies, b: Policies) {
    forall p :: p in a ==>
      p in b && a[p].revision <= b[p].revision && (a[p].revision == b[p].revision ==> a[p] == b[p])
  }

  ghost predicate Evolves(a: Tables, b: Tables) {
    && a.now <= b.now
    && PoliciesEvolve(a.policies, b.policies)
    && JobsEvolve(a.jobs, b.jobs)
    && WindowsEvolve(a.windows, b.windows)
    && SignalsEvolve(a.signals, b.signals)
  }

  lemma EvolvesTransitive(a: Tables, b: Tables, c: Tables)
    requires Evolves(a, b) && Evolves(b, c)
    ensures Evolves(a, c)
  {
    assert PoliciesEvolve(a.policies, c.policies);
    assert JobsEvolve(a.jobs, c.jobs);
    assert WindowsEvolve(a.windows, c.windows);
    assert SignalsEvolve(a.signals, c.signals);
  }

  ghost predicate Keeps(a: Tables, b: Tables) {
    TablesInv(b) && Evolves(a, b)
  }

  // ----- job statements -----

  lemma JobInsertKeeps(jobs: Jobs, index: map<JobKey, JobId>, next: JobId, job: Job)
    requires JobTable(jobs, index, next) && KeyOfJob(job) !in index
    ensures JobTable(jobs[next := job], index[KeyOfJob(job) := next], next + 1)
    ensures next !in jobs
  {
  }

  lemma JobInsertLinks(t: Tables, job: Job)
    requires TablesInv(t) && job.status == Pending && job.worker.None? && Known(t.policies, job.policy, job.revision)
    ensures var jobs := t.jobs[t.nextJob := job];
            && JobPolicies(jobs, t.policies) && JobWorkers(jobs) && ResolvedSignals(jobs, t.signalIndex)
            && SignalJobs(t.signals, jobs) && JobsOf(t.windows, jobs) && JobsOf(t.attempts, jobs)
            && JobsEvolve(t.jobs, jobs)
  {
    hide SignalTable, WhitelistTable, Fence;
  }

  lemma EnqueueKeeps(t: Tables, activity: ActivityId, e: EventType, p: PolicyId, row: Policy, flags: Flags)
    requires TablesInv(t) && p in t.policies && row.revision <= t.policies[p].revision
    ensures Keeps(t, Enqueue(t, activity, e, p, row, flags))
  {
    var t' := Enqueue(t, activity, e, p, row, flags);
    if t' != t {
      var job := t'.jobs[t.nextJob];
      assert t' == t.(jobs := t.jobs[t.nextJob := job], jobIndex := t.jobIndex[KeyOfJob(job) := t.nextJob],
                      nextJob := t.nextJob + 1);
      assert KeyOfJob(job) !in t.jobIndex;
      hide Enqueue;
      JobInsertKeeps(t.jobs, t.jobIndex, t.nextJob, job);
      JobInsertLinks(t, job);
      hide JobTable, JobPolicies, JobWorkers, ResolvedSignals, SignalJobs, JobsOf, JobsEvolve, Fence;
      hide SignalTable, WhitelistTable;
    }
  }

  /** A change of one job that neither enters nor leaves the terminal states. */
  predicate Reopens(a: Job, b: Job) {
    SameIdentity(a, b) && !Terminal(a.status) && b.status != Resolved && a.attempts <= b.attempts
    && (b.worker.Some? ==> b.worker.value.SignalWorker?)
  }

  lemma UpdatedRowKeeps(jobs: Jobs, index: map<JobKey, JobId>, next: JobId, policies: Policies, j: JobId, b: Job)
    requires j in jobs && Reopens(jobs[j], b) && JobTable(jobs, index, next) && JobPolicies(jobs, policies) && JobWorkers(jobs)
    ensures var after := jobs[j := b];
            JobTable(after, index, next) && JobPolicies(after, policies) && JobWorkers(after) && JobsEvolve(jobs, after)
  {
  }

  lemma UpdatedRowLinks(jobs: Jobs, signals: Signals, index: map<JobId, SignalId>, j: JobId, b: Job)
    requires j in jobs && Reopens(jobs[j], b) && SignalJobs(signals, jobs) && ResolvedSignals(jobs, index)
    ensures var after := jobs[j := b]; SignalJobs(signals, after) && ResolvedSignals(after, index)
  {
  }

  lemma JobUpdateKeeps(t: Tables, j: JobId, b: Job)
    requires TablesInv(t) && j in t.jobs && Reopens(t.jobs[j], b)
    ensures Keeps(t, t.(jobs := t.jobs[j := b]))
  {
    UpdatedRowKeeps(t.jobs, t.jobIndex, t.nextJob, t.policies, j, b);
    UpdatedRowLinks(t.jobs, t.signals, t.signalIndex, j, b);
    hide JobTable, JobPolicies, JobWorkers, SignalJobs, ResolvedSignals, JobsEvolve, SignalTable, WhitelistTable, Fence;
    hide Reopens;
  }

  lemma ClaimKeeps(t: Tables, w: WorkerId, j: JobId)
    requires TablesInv(t) && Claimable(t, j) && w.SignalWorker?
    ensures Keeps(t, ClaimJob(t, w, j))
  {
    JobUpdateKeeps(t, j, ClaimJob(t, w, j).jobs[j]);
  }

  lemma RenewKeeps(t: Tables, j: JobId, w: WorkerId)
    requires TablesInv(t)
    ensures Keeps(t, RenewJob(t, j, w))
  {
    if Renewable(t, j, w) { JobUpdateKeeps(t, j, RenewJob(t, j, w).jobs[j]); }
  }

  lemma FailKeeps(t: Tables, j: JobId, count: nat, code: string, w: Option<WorkerId>)
    requires TablesInv(t)
    ensures Keeps(t, FailJob(t, j, count, code, w))
  {
    if Failable(t, j, w) { JobUpdateKeeps(t, j, FailJob(t, j, count, code, w).jobs[j]); }
  }

  lemma CancelKeeps(t: Tables, j: JobId, code: string, w: Option<WorkerId>)
    requires TablesInv(t)
    ensures Keeps(t, CancelJob(t, j, code, w))
  {
    if Cancellable(t, j, w) { JobUpdateKeeps(t, j, CancelJob(t, j, code, w).jobs[j]); }
  }

  lemma RequeueKeeps(t: Tables, j: JobId, w: WorkerId)
    requires TablesInv(t)
    ensures Keeps(t, RequeueJob(t, j, w))
  {
    if Requeueable(t, j, w) { JobUpdateKeeps(t, j, RequeueJob(t, j, w).jobs[j]); }
  }

  // ----- the commit transaction -----

  /** The context's copies of the job's unchanging columns are still right. */
  ghost predicate ContextOk(jobs: Jobs, ctx: Context) {
    && ctx.job in jobs
    && ctx.policy == jobs[ctx.job].policy && ctx.revision == jobs[ctx.job].revision
    && ctx.mode == jobs[ctx.job].mode
  }

  /** The same job row after a commit closed it. */
  predicate Closes(a: Job, b: Job) {
    SameIdentity(a, b) && a.status == Processing && a.worker == b.worker && a.attempts == b.attempts
  }

  lemma ClosedRowKeeps(jobs: Jobs, index: map<JobKey, JobId>, next: JobId, policies: Policies, j: JobId, b: Job)
    requires j in jobs && Closes(jobs[j], b) && JobTable(jobs, index, next) && JobPolicies(jobs, policies) && JobWorkers(jobs)
    ensures var after := jobs[j := b];
            && JobTable(after, index, next) && JobPolicies(after, policies) && JobWorkers(after) && JobsEvolve(jobs, after)
  {
  }

  lemma ClosedRowLinks(jobs: Jobs, signals: Signals, index: map<JobId, SignalId>, j: JobId, b: Job)
    requires j in jobs && Closes(jobs[j], b) && SignalJobs(signals, jobs) && ResolvedSignals(jobs, index)
    ensures var after := jobs[j := b];
            && SignalJobs(signals, after)
            && (b.status != Resolved || !Materializes(b.mode) ==> ResolvedSignals(after, index))
  {
  }

  /** What closing does to the job table alone. */
  lemma ClosedJobsKeep(t: Tables, ctx: Context, result: Resolution)
    requires TablesInv(t) && Fenced(t, ctx)
    ensures var jobs := CloseJob(t, ctx, result).jobs;
            && JobTable(jobs, t.jobIndex, t.nextJob) && JobPolicies(jobs, t.policies) && JobWorkers(jobs)
            && SignalJobs(t.signals, jobs) && JobsEvolve(t.jobs, jobs)
            && JobsOf(t.windows, jobs) && JobsOf(t.attempts, jobs)
            && (!result.ResolvedTo? || !Materializes(t.jobs[ctx.job].mode) ==> ResolvedSignals(jobs, t.signalIndex))
  {
    var b := CloseJob(t, ctx, result).jobs[ctx.job];
    assert CloseJob(t, ctx, result).jobs == t.jobs[ctx.job := b];
    hide Fence, SignalTable, WhitelistTable;
    ClosedRowKeeps(t.jobs, t.jobIndex, t.nextJob, t.policies, ctx.job, b);
    ClosedRowLinks(t.jobs, t.signals, t.signalIndex, ctx.job, b);
    hide JobTable, JobPolicies, JobWorkers, SignalJobs, JobsEvolve, ResolvedSignals;
  }

  /** Closing writes the job, its attempt and perhaps its window, and nothing else. */
  lemma ClosedShape(t: Tables, ctx: Context, result: Resolution)
    requires Fenced(t, ctx)
    ensures var t' := Closed(t, ctx, result);
            && t' == t.(jobs := CloseJob(t, ctx, result).jobs, attempts := t'.attempts, windows := t'.windows)
            && t'.attempts.Keys == t.attempts.Keys + {ctx.job}
            && (t'.windows == t.windows
                || (ctx.job !in t.windows && ctx.job in t'.windows
                    && t'.windows == t.windows[ctx.job := t'.windows[ctx.job]]))
  {
  }

  lemma ClosedRowsOf(t: Tables, ctx: Context, result: Resolution)
    requires Fenced(t, ctx) && JobsOf(t.windows, t.jobs) && JobsOf(t.attempts, t.jobs)
    ensures var t' := Closed(t, ctx, result);
            && JobsOf(t'.windows, t'.jobs) && JobsOf(t'.attempts, t'.jobs) && WindowsEvolve(t.windows, t'.windows)
  {
    ClosedShape(t, ctx, result);
    var t' := Closed(t, ctx, result);
    assert t'.jobs.Keys == t.jobs.Keys;
    hide Closed, CloseJob;
    forall j | j in t'.attempts ensures j in t'.jobs { assert j in t'.attempts.Keys; }
  }

  lemma ClosedKeeps(t: Tables, ctx: Context, result: Resolution)
    requires TablesInv(t) && Fenced(t, ctx)
    ensures var t' := Closed(t, ctx, result);
            && JobTable(t'.jobs, t'.jobIndex, t'.nextJob) && JobPolicies(t'.jobs, t'.policies) && JobWorkers(t'.jobs)
            && JobsOf(t'.windows, t'.jobs) && JobsOf(t'.attempts, t'.jobs)
            && SignalJobs(t'.signals, t'.jobs) && Evolves(t, t')
  {
    ClosedJobsKeep(t, ctx, result);
    ClosedShape(t, ctx, result);
    assert JobsEvolve(t.jobs, Closed(t, ctx, result).jobs);
    ClosedRowsOf(t, ctx, result);
    assert PoliciesEvolve(t.policies, t.policies) && SignalsEvolve(t.signals, t.signals);
    hide WindowsEvolve, PoliciesEvolve, SignalsEvolve, JobsOf;
    hide Closed, JobTable, JobPolicies, JobWorkers, SignalJobs, JobsEvolve, SignalTable, WhitelistTable, Fence, CloseJob;
  }

  /** Closing without a signal: a rejected result, or a record-mode resolution. */
  lemma CloseKeeps(t: Tables, ctx: Context, result: Resolution)
    requires TablesInv(t) && ContextOk(t.jobs, ctx) && Fenced(t, ctx)
    requires !result.ResolvedTo? || !Materializes(ctx.mode)
    ensures Keeps(t, Closed(t, ctx, result))
    ensures Closed(t, ctx, result).signals == t.signals
  {
    ClosedJobsKeep(t, ctx, result);
    ClosedShape(t, ctx, result);
    ClosedKeeps(t, ctx, result);
  }

  lemma WhitelistUpsertKeeps(t: Tables, ctx: Context, key: TargetKey)
    requires WhitelistTable(t.whitelist, t.activeWhitelist, t.nextWhitelist)
    requires WhitelistFence(t.whitelist, t.policies)
    requires key.policy in t.policies && t.policies[key.policy].revision == ctx.revision
    ensures var t' := UpsertWhitelist(t, ctx, key);
            WhitelistTable(t'.whitelist, t'.activeWhitelist, t'.nextWhitelist) && WhitelistFence(t'.whitelist, t.policies)
  {
  }

  lemma NoSignalYet(t: Tables, j: JobId)
    requires TablesInv(t) && j in t.jobs && t.jobs[j].status != Resolved
    ensures j !in t.signalIndex
    ensures forall s :: s in t.signals ==> t.signals[s].job != j
  {
  }

  lemma SignalInsertKeeps(signals: Signals, index: map<JobId, SignalId>, next: SignalId, signal: Signal)
    requires SignalTable(signals, index, next) && signal.job !in index
    ensures SignalTable(signals[next := signal], index[signal.job := next], next + 1)
  {
  }

  predicate WrittenFor(signal: Signal, ctx: Context) {
    && signal.job == ctx.job && signal.policy == ctx.policy && signal.revision == ctx.revision
    && signal.hash == ctx.hash && signal.mode == ctx.mode && signal.status == SigRecorded
  }

  lemma WriteSignalShape(t: Tables, ctx: Context, selected: Candidate)
    requires ctx.job !in t.signalIndex
    ensures var t' := WriteSignal(t, ctx, selected);
            var key := KeyOf(ctx, selected);
            var w := UpsertWhitelist(t, ctx, key);
            && key in t'.targets && t'.targets[key].revision == ctx.revision && t'.targets[key].hash == ctx.hash
            && t.nextSignal in t'.signals && WrittenFor(t'.signals[t.nextSignal], ctx)
            && t' == t.(
                 whitelist := w.whitelist, activeWhitelist := w.activeWhitelist, nextWhitelist := w.nextWhitelist,
                 targets := t.targets[key := t'.targets[key]],
                 signals := t.signals[t.nextSignal := t'.signals[t.nextSignal]],
                 signalIndex := t.signalIndex[ctx.job := t.nextSignal], nextSignal := t.nextSignal + 1)
  {
  }

  lemma TargetInsertKeeps(targets: map<TargetKey, Target>, policies: Policies, key: TargetKey, target: Target)
    requires TargetFence(targets, policies) && Current(policies, key.policy, target.revision, target.hash)
    ensures TargetFence(targets[key := target], policies)
  {
  }

  /** The inserted signal is born from the job that the same transaction closed. */
  lemma SignalWriteKeeps(t: Tables, jobs: Jobs, ctx: Context, signal: Signal)
    requires TablesInv(t) && ContextOk(t.jobs, ctx) && ctx.job !in t.signalIndex
    requires SignalJobs(t.signals, jobs) && ctx.job in jobs && BornFrom(signal, jobs[ctx.job])
    requires Current(t.policies, ctx.policy, ctx.revision, ctx.hash) && WrittenFor(signal, ctx)
    ensures var signals := t.signals[t.nextSignal := signal];
            && SignalJobs(signals, jobs) && SignalFence(signals, t.policies) && SignalsEvolve(t.signals, signals)
  {
  }

  /** The committing branch that writes target, whitelist row and signal. */
  lemma MaterializeKeeps(t: Tables, ctx: Context, result: Resolution)
    requires TablesInv(t) && ContextOk(t.jobs, ctx)
    requires result.ResolvedTo? && Materializes(ctx.mode) && Commit(t, ctx, result).Some?
    ensures Keeps(t, Commit(t, ctx, result).value)
    ensures var t' := Commit(t, ctx, result).value;
            && t.nextSignal !in t.signals && t.nextSignal in t'.signals && WrittenFor(t'.signals[t.nextSignal], ctx)
            && t'.signals == t.signals[t.nextSignal := t'.signals[t.nextSignal]]
  {
    var u := Closed(t, ctx, result);
    var t' := Commit(t, ctx, result).value;
    var key := KeyOf(ctx, result.selected);
    NoSignalYet(t, ctx.job);
    ClosedShape(t, ctx, result);
    ClosedKeeps(t, ctx, result);
    WriteSignalShape(u, ctx, result.selected);
    WhitelistUpsertKeeps(u, ctx, key);
    SignalInsertKeeps(t.signals, t.signalIndex, t.nextSignal, t'.signals[t.nextSignal]);
    SignalWriteKeeps(t, t'.jobs, ctx, t'.signals[t.nextSignal]);
    TargetInsertKeeps(t.targets, t.policies, key, t'.targets[key]);
    assert ResolvedSignals(t'.jobs, t'.signalIndex);
  }

  lemma CommitKeeps(t: Tables, ctx: Context, result: Resolution)
    requires TablesInv(t) && ContextOk(t.jobs, ctx) && Commit(t, ctx, result).Some?
    ensures Keeps(t, Commit(t, ctx, result).value)
  {
    if result.ResolvedTo? && Materializes(ctx.mode) {
      MaterializeKeeps(t, ctx, result);
    } else {
      CloseKeeps(t, ctx, result);
    }
  }

  // ----- policy edits -----

  lemma CancelledTable(jobs: Jobs, index: map<JobKey, JobId>, next: JobId, p: PolicyId, kept: Option<nat>, code: string)
    requires JobTable(jobs, index, next) && JobWorkers(jobs)
    ensures var after := CancelJobs(jobs, p, kept, code);
            && JobTable(after, index, next) && JobWorkers(after) && after.Keys == jobs.Keys && JobsEvolve(jobs, after)
  {
  }

  lemma CancelledLinks(
      jobs: Jobs, signals: Signals, index: map<JobId, SignalId>, policies: Policies, p: PolicyId, kept: Option<nat>,
      code: string)
    requires SignalJobs(signals, jobs) && ResolvedSignals(jobs, index) && JobPolicies(jobs, policies)
    ensures var after := CancelJobs(jobs, p, kept, code);
            SignalJobs(signals, after) && ResolvedSignals(after, index) && JobPolicies(after, policies)
  {
  }

  lemma WindowsReplaced(t: Tables, windows: Windows)
    requires TablesInv(t) && WindowsEvolve(t.windows, windows) && windows.Keys == t.windows.Keys
    ensures Keeps(t, t.(windows := windows))
  {
    assert JobsOf(windows, t.jobs);
  }

  lemma PoliciesGrow(a: Policies, b: Policies, jobs: Jobs)
    requires PoliciesEvolve(a, b) && JobPolicies(jobs, a)
    ensures JobPolicies(jobs, b)
  {
  }

  lemma WithdrawKeeps(signals: Signals, index: map<JobId, SignalId>, next: SignalId, p: PolicyId, kept: Option<nat>)
    requires SignalTable(signals, index, next)
    ensures var after := WithdrawSignals(signals, p, kept);
            SignalTable(after, index, next) && SignalsEvolve(signals, after)
  {
  }

  lemma WithdrawJobs(signals: Signals, jobs: Jobs, p: PolicyId, kept: Option<nat>)
    requires SignalJobs(signals, jobs)
    ensures SignalJobs(WithdrawSignals(signals, p, kept), jobs)
  {
  }

  /** `b` is `a` with `p` moved past `old`; the edit keeps at most a revision nobody carries yet. */
  ghost predicate Moves(a: Policies, b: Policies, p: PolicyId, kept: Option<nat>) {
    && p in a && p in b && b[p].revision == a[p].revision + 1
    && b == a[p := b[p]]
    && (kept.None? || kept == Some(b[p].revision))
  }

  lemma SignalsRefenced(signals: Signals, a: Policies, b: Policies, p: PolicyId, kept: Option<nat>)
    requires SignalFence(signals, a) && Moves(a, b, p, kept)
    ensures SignalFence(WithdrawSignals(signals, p, kept), b)
  {
  }

  lemma TargetsRefenced(targets: map<TargetKey, Target>, a: Policies, b: Policies, p: PolicyId, kept: Option<nat>)
    requires TargetFence(targets, a) && Moves(a, b, p, kept)
    ensures TargetFence(PauseTargets(targets, p, kept), b)
  {
  }

  lemma WhitelistRefenced(rows: map<WhitelistId, Whitelist>, a: Policies, b: Policies, p: PolicyId, kept: Option<nat>)
    requires WhitelistFence(rows, a) && Moves(a, b, p, kept)
    ensures WhitelistFence(ArchiveWhitelist(rows, p, kept), b)
  {
  }

  lemma ArchiveKeeps(
      rows: map<WhitelistId, Whitelist>, index: map<TargetKey, WhitelistId>, next: WhitelistId, p: PolicyId,
      kept: Option<nat>)
    requires WhitelistTable(rows, index, next)
    ensures var after := ArchiveWhitelist(rows, p, kept); WhitelistTable(after, ActiveRows(after, index), next)
  {
  }

  /** The cascade restores the fence that bumping the revision broke. */
  lemma CascadeKeeps(t: Tables, p: PolicyId, config: Config, kept: Option<nat>, code: string)
    requires TablesInv(t) && p in t.policies
    requires kept.None? || kept == Some(t.policies[p].revision + 1)
    ensures Keeps(t, Cascade(Bumped(t, p, config), p, kept, code))
  {
    var b := Bumped(t, p, config).policies;
    CancelledTable(t.jobs, t.jobIndex, t.nextJob, p, kept, code);
    CancelledLinks(t.jobs, t.signals, t.signalIndex, t.policies, p, kept, code);
    PoliciesGrow(t.policies, b, CancelJobs(t.jobs, p, kept, code));
    WithdrawKeeps(t.signals, t.signalIndex, t.nextSignal, p, kept);
    WithdrawJobs(t.signals, CancelJobs(t.jobs, p, kept, code), p, kept);
    SignalsRefenced(t.signals, t.policies, b, p, kept);
    TargetsRefenced(t.targets, t.policies, b, p, kept);
    WhitelistRefenced(t.whitelist, t.policies, b, p, kept);
    ArchiveKeeps(t.whitelist, t.activeWhitelist, t.nextWhitelist, p, kept);
  }

  lemma NewPolicyKeeps(t: Tables, p: PolicyId, policy: Policy)
    requires TablesInv(t) && p !in t.policies
    ensures Keeps(t, t.(policies := t.policies[p := policy]))
  {
    var policies := t.policies[p := policy];
    assert PoliciesEvolve(t.policies, policies);
    assert JobPolicies(t.jobs, policies);
    assert SignalFence(t.signals, policies);
    assert TargetFence(t.targets, policies);
    assert WhitelistFence(t.whitelist, policies);
  }

  lemma ChangeKeeps(t: Tables, p: PolicyId, config: Config)
    requires TablesInv(t) && p in t.policies
    ensures var kept := Some(t.policies[p].revision + 1);
            var windowed := t.(windows := FailWindows(t.windows, t.jobs, p, kept));
            Keeps(t, Cascade(Bumped(windowed, p, config), p, kept, "DYNAMIC_POLICY_CHANGED"))
  {
    var kept := Some(t.policies[p].revision + 1);
    var windowed := t.(windows := FailWindows(t.windows, t.jobs, p, kept));
    WindowsReplaced(t, windowed.windows);
    var edited := Cascade(Bumped(windowed, p, config), p, kept, "DYNAMIC_POLICY_CHANGED");
    hide Cascade, Bumped, TablesInv, FailWindows;
    CascadeKeeps(windowed, p, config, kept, "DYNAMIC_POLICY_CHANGED");
    hide Evolves;
    EvolvesTransitive(t, windowed, edited);
  }

  lemma EditKeeps(t: Tables, p: PolicyId, config: Config)
    requires TablesInv(t)
    ensures Keeps(t, UpsertPolicy(t, p, config))
  {
    hide Cascade, Bumped, FailWindows, Fence, JobTable, SignalTable, WhitelistTable;
    if p !in t.policies {
      NewPolicyKeeps(t, p, Policy(1, config));
    } else {
      ChangeKeeps(t, p, config);
    }
  }

  lemma RemoveKeeps(t: Tables, p: PolicyId)
    requires TablesInv(t)
    ensures Keeps(t, RemovePolicy(t, p))
  {
    if p in t.policies {
      var config := t.policies[p].config.(mode := Paused, enabled := false);
      CascadeKeeps(t, p, config, None, "DYNAMIC_POLICY_REMOVED");
    }
  }

  // ----- windows and signals -----

  lemma WindowUpdateKeeps(t: Tables, j: JobId, b: Window)
    requires TablesInv(t) && j in t.windows && t.windows[j].status != WinResolved
    ensures Keeps(t, t.(windows := t.windows[j := b]))
  {
    WindowsReplaced(t, t.windows[j := b]);
  }

  lemma ExpireWindowsKeeps(t: Tables)
    requires TablesInv(t)
    ensures Keeps(t, ExpireWindows(t))
  {
    WindowsReplaced(t, ExpireWindows(t).windows);
  }

  lemma SignalRowKeeps(
      signals: Signals, index: map<JobId, SignalId>, next: SignalId, jobs: Jobs, policies: Policies, s: SignalId,
      status: SignalStatus)
    requires s in signals && status != SigRecorded && (Actionable(status) ==> Actionable(signals[s].status))
    requires SignalTable(signals, index, next) && SignalJobs(signals, jobs) && SignalFence(signals, policies)
    ensures var after := signals[s := signals[s].(status := status)];
            && SignalTable(after, index, next) && SignalJobs(after, jobs) && SignalFence(after, policies)
            && SignalsEvolve(signals, after)
  {
  }

  lemma SignalUpdateKeeps(t: Tables, s: SignalId, status: SignalStatus)
    requires TablesInv(t) && s in t.signals && status != SigRecorded
    requires Actionable(status) ==> Actionable(t.signals[s].status)
    ensures Keeps(t, SetSignal(t, s, status))
  {
    SignalRowKeeps(t.signals, t.signalIndex, t.nextSignal, t.jobs, t.policies, s, status);
  }

  lemma ReadyRowKeeps(
      rows: map<WhitelistId, Whitelist>, active: map<TargetKey, WhitelistId>, next: WhitelistId, policies: Policies,
      w: WhitelistId)
    requires w in rows && WhitelistTable(rows, active, next) && WhitelistFence(rows, policies)
    ensures var after := rows[w := rows[w].(liveReady := true)];
            WhitelistTable(after, active, next) && WhitelistFence(after, policies)
  {
  }

  lemma ActivationKeeps(t: Tables, w: WhitelistId, version: nat)
    requires TablesInv(t)
    ensures Keeps(t, CompleteActivation(t, w, version))
  {
    if w in t.whitelist {
      ReadyRowKeeps(t.whitelist, t.activeWhitelist, t.nextWhitelist, t.policies, w);
    }
  }
}
