/**
 The rows of the dynamic-signal pipeline and the effect of every SQL statement (or
 transaction) the pipeline runs on them. Time is in milliseconds. A unique index of
 the schema is a map from the indexed columns to the row's serial number.
*/
module PipelineTables {
  import opened Wrappers

  type PolicyId = nat
  type ActivityId = nat
  type EventType = nat
  type JobId = nat
  type SignalId = nat
  type WhitelistId = nat
  /** Job workers and launch-window workers draw their identities from disjoint prefixes. */
  datatype WorkerId = SignalWorker(n: nat) | LaunchWorker(n: nat)

  const LEASE_MS := 60_000
  const RETRY_MS := 15_000
  const MAX_ATTEMPTS := 3
  const WINDOW_LEASE_MS := 120_000
  const WINDOW_LIFE_MS := 30_000
  const WINDOW_WAIT_MS := 2_000
  const WINDOW_RETRY_MS := 5_000

  datatype Mode = Record | Paper | Live | Paused

  datatype Flags = Flags(resolution: bool, record: bool, paper: bool, live: bool)

  /** The mode a policy may run in under the feature flags, if any. */
  function EffectiveMode(mode: Mode, flags: Flags): Option<Mode> {
    if !flags.resolution || !flags.record then None
    else match mode
      case Record => Some(Record)
      case Paper => if flags.paper then Some(Paper) else None
      case Live => if flags.live then Some(Live) else None
      case Paused => None
  }

  predicate Materializes(mode: Mode) {
    mode == Paper || mode == Live
  }

  datatype Chain = Sol | Bsc | Base | Eth | Robinhood

  type Address = string

  datatype Budget = Budget(perTrade: nat, daily: nat)

  datatype Config = Config(
    mode: Mode, enabled: bool, events: set<EventType>, budgets: map<Chain, Budget>, newTokenLimit: int)

  /** The context hash covers the whole normalised configuration and is taken as injective. */
  type ContextHash = Config

  datatype Policy = Policy(revision: nat, config: Config) {
    function Hash(): ContextHash {
      config
    }
  }

  datatype JobStatus = Pending | Processing | Resolved | Rejected | Failed | Cancelled

  datatype Job = Job(
    activity: ActivityId, eventType: EventType, policy: PolicyId, revision: nat, mode: Mode,
    status: JobStatus, attempts: nat, nextAttemptAt: int, worker: Option<WorkerId>,
    leaseExpiresAt: Option<int>, failureCode: string)

  datatype JobKey = JobKey(activity: ActivityId, policy: PolicyId, revision: nat)

  datatype WindowStatus = WinPending | WinProcessing | WinResolved | WinExpired | WinFailed

  datatype Window = Window(
    status: WindowStatus, attempts: nat, nextAttemptAt: int, expiresAt: int,
    worker: Option<WorkerId>, leaseExpiresAt: Option<int>)

  datatype Candidate = Candidate(chain: Chain, address: Address)

  /** What the resolver hands to the commit: a resolved result always names its candidate. */
  datatype Resolution =
    | ResolvedTo(selected: Candidate)
    | NotFound(hasWindowTerms: bool, code: string)
    | Unresolved(code: string)

  datatype Attempt = Attempt(result: Resolution, revision: nat, hash: ContextHash)

  datatype TargetKey = TargetKey(policy: PolicyId, chain: Chain, address: Address)

  datatype Target = Target(
    revision: nat, hash: ContextHash, attempt: JobId, mode: Mode, active: bool, whitelist: Option<WhitelistId>)

  datatype Whitelist = Whitelist(
    key: TargetKey, revision: nat, active: bool, liveReady: bool, activationVersion: nat)

  datatype SignalStatus =
    | SigRecorded | SigPending | SigApproved
    | SigSignalOnly | SigExpired | SigRejected | SigReserved | SigExecuted

  datatype Signal = Signal(
    job: JobId, policy: PolicyId, revision: nat, hash: ContextHash, mode: Mode, status: SignalStatus,
    target: TargetKey, whitelist: WhitelistId, waitVersion: Option<nat>)

  /** The statuses a policy edit withdraws: the signal may still be executed. */
  predicate Actionable(status: SignalStatus) {
    status == SigRecorded || status == SigPending || status == SigApproved
  }

  datatype Tables = Tables(
    now: int,
    policies: map<PolicyId, Policy>,
    jobs: map<JobId, Job>, jobIndex: map<JobKey, JobId>, nextJob: JobId,
    attempts: map<JobId, Attempt>,
    windows: map<JobId, Window>,
    targets: map<TargetKey, Target>,
    whitelist: map<WhitelistId, Whitelist>, activeWhitelist: map<TargetKey, WhitelistId>,
    nextWhitelist: WhitelistId,
    signals: map<SignalId, Signal>, signalIndex: map<JobId, SignalId>, nextSignal: SignalId)

  const Empty := Tables(
    0, map[], map[], map[], 0, map[], map[], map[], map[], map[], 0, map[], map[], 0)

  // ----- job queue -----

  /** Whether the enqueueing SELECT returned this policy row for the activity. */
  predicate Selectable(row: Policy, eventType: EventType) {
    row.config.enabled && row.config.mode != Paused && eventType in row.config.events
  }

  /** `row` is the policy as the enqueueing SELECT read it, possibly before later edits. */
  function Enqueue(t: Tables, activity: ActivityId, eventType: EventType, policy: PolicyId, row: Policy, flags: Flags)
    : Tables
  {
    var key := JobKey(activity, policy, row.revision);
    match EffectiveMode(row.config.mode, flags)
    case None => t
    case Some(mode) =>
      if !Selectable(row, eventType) || key in t.jobIndex then t
      else
        var job := Job(activity, eventType, policy, row.revision, mode, Pending, 0, t.now, None, None, "");
        t.(jobs := t.jobs[t.nextJob := job], jobIndex := t.jobIndex[key := t.nextJob], nextJob := t.nextJob + 1)
  }

  predicate Expired(lease: Option<int>, now: int) {
    lease.Some? && lease.value < now
  }

  predicate Held(lease: Option<int>, now: int) {
    lease.Some? && lease.value > now
  }

  predicate Claimable(t: Tables, j: JobId) {
    j in t.jobs &&
    (|| (t.jobs[j].status == Pending && t.jobs[j].nextAttemptAt <= t.now)
     || (t.jobs[j].status == Processing && Expired(t.jobs[j].leaseExpiresAt, t.now)))
  }

  function ClaimJob(t: Tables, w: WorkerId, j: JobId): Tables
    requires Claimable(t, j)
  {
    var job := t.jobs[j];
    t.(jobs := t.jobs[j := job.(
         status := Processing, attempts := job.attempts + 1, worker := Some(w),
         leaseExpiresAt := Some(t.now + LEASE_MS))])
  }

  /** The row the worker reads after claiming: job columns joined with the policy as it is now. */
  datatype Context = Context(
    job: JobId, activity: ActivityId, eventType: EventType, policy: PolicyId, revision: nat, mode: Mode,
    worker: Option<WorkerId>, configuredMode: Mode, policyEnabled: bool, allowedEvents: set<EventType>,
    hash: ContextHash, currentRevision: nat)

  function LoadContext(t: Tables, j: JobId): Option<Context> {
    if j in t.jobs && t.jobs[j].policy in t.policies then
      var job := t.jobs[j];
      var policy := t.policies[job.policy];
      Some(Context(j, job.activity, job.eventType, job.policy, job.revision, job.mode, job.worker,
                   policy.config.mode, policy.config.enabled, policy.config.events,
                   policy.Hash(), policy.revision))
    else None
  }

  predicate Renewable(t: Tables, j: JobId, w: WorkerId) {
    j in t.jobs && t.jobs[j].status == Processing && t.jobs[j].worker == Some(w) &&
    (t.jobs[j].leaseExpiresAt.None? || Held(t.jobs[j].leaseExpiresAt, t.now))
  }

  function RenewJob(t: Tables, j: JobId, w: WorkerId): Tables {
    if Renewable(t, j, w) then
      t.(jobs := t.jobs[j := t.jobs[j].(leaseExpiresAt := Some(t.now + LEASE_MS))])
    else t
  }

  predicate Failable(t: Tables, j: JobId, w: Option<WorkerId>) {
    j in t.jobs && t.jobs[j].status == Processing && (w.None? || t.jobs[j].worker == w)
  }

  /** `attemptCount` is the count the failing worker saw when it claimed the job. */
  function AfterFailure(job: Job, attemptCount: nat, code: string, now: int): Job {
    var retry := attemptCount < MAX_ATTEMPTS;
    job.(status := if retry then Pending else Failed,
         nextAttemptAt := if retry then now + RETRY_MS else job.nextAttemptAt,
         failureCode := code, leaseExpiresAt := None)
  }

  function FailJob(t: Tables, j: JobId, attemptCount: nat, code: string, w: Option<WorkerId>): Tables {
    if Failable(t, j, w) then t.(jobs := t.jobs[j := AfterFailure(t.jobs[j], attemptCount, code, t.now)]) else t
  }

  predicate Cancellable(t: Tables, j: JobId, w: Option<WorkerId>) {
    j in t.jobs && t.jobs[j].status in {Pending, Processing, Rejected} && (w.None? || t.jobs[j].worker == w)
  }

  function CancelJob(t: Tables, j: JobId, code: string, w: Option<WorkerId>): Tables {
    if Cancellable(t, j, w) then
      t.(jobs := t.jobs[j := t.jobs[j].(status := Cancelled, failureCode := code, leaseExpiresAt := None)])
    else t
  }

  // ----- the commit transaction -----

  function ResultCode(result: Resolution): string {
    if result.ResolvedTo? then "" else result.code
  }

  predicate Fenced(t: Tables, ctx: Context) {
    && ctx.job in t.jobs && ctx.worker.Some?
    && t.jobs[ctx.job].status == Processing
    && t.jobs[ctx.job].worker == ctx.worker
    && Held(t.jobs[ctx.job].leaseExpiresAt, t.now)
  }

  /** The attempt upsert; a second attempt of a job keeps the row's revision and hash. */
  function RecordAttempt(t: Tables, ctx: Context, result: Resolution): Tables {
    var row :=
      if ctx.job in t.attempts then t.attempts[ctx.job].(result := result)
      else Attempt(result, ctx.revision, ctx.hash);
    t.(attempts := t.attempts[ctx.job := row])
  }

  function CloseJob(t: Tables, ctx: Context, result: Resolution): Tables
    requires ctx.job in t.jobs
  {
    t.(jobs := t.jobs[ctx.job := t.jobs[ctx.job].(
         status := if result.ResolvedTo? then Resolved else Rejected,
         failureCode := ResultCode(result), leaseExpiresAt := None)])
  }

  /** resolution-store's persist: None when the fenced update hit no row. */
  function Persist(t: Tables, ctx: Context, result: Resolution): Option<Tables> {
    if Fenced(t, ctx) then Some(CloseJob(RecordAttempt(t, ctx, result), ctx, result)) else None
  }

  function RequestWindow(t: Tables, ctx: Context, result: Resolution): Tables {
    if result.NotFound? && result.hasWindowTerms && ctx.job !in t.windows then
      t.(windows := t.windows[ctx.job :=
           Window(WinPending, 0, t.now, t.now + WINDOW_LIFE_MS, None, None)])
    else t
  }

  predicate PolicyUnchanged(t: Tables, ctx: Context) {
    && ctx.policy in t.policies
    && t.policies[ctx.policy].config.enabled
    && t.policies[ctx.policy].revision == ctx.revision
    && t.policies[ctx.policy].Hash() == ctx.hash
  }

  predicate TargetAllowed(t: Tables, ctx: Context, selected: Candidate) {
    PolicyUnchanged(t, ctx) && selected.chain in t.policies[ctx.policy].config.budgets
  }

  function KeyOf(ctx: Context, selected: Candidate): TargetKey {
    TargetKey(ctx.policy, selected.chain, selected.address)
  }

  /** The whitelist row the upsert writes: the active one for the key, or a fresh serial. */
  function WhitelistSlot(t: Tables, key: TargetKey): WhitelistId {
    if key in t.activeWhitelist then t.activeWhitelist[key] else t.nextWhitelist
  }

  function UpsertWhitelist(t: Tables, ctx: Context, key: TargetKey): Tables {
    var id := WhitelistSlot(t, key);
    var version := if id in t.whitelist then t.whitelist[id].activationVersion else 1;
    t.(whitelist := t.whitelist[id := Whitelist(key, ctx.revision, true, false, version)],
       activeWhitelist := t.activeWhitelist[key := id],
       nextWhitelist := if key in t.activeWhitelist then t.nextWhitelist else t.nextWhitelist + 1)
  }

  function Materialize(t: Tables, ctx: Context, selected: Candidate): Tables {
    var key := KeyOf(ctx, selected);
    var target := Target(ctx.revision, ctx.hash, ctx.job, ctx.mode, true, Some(WhitelistSlot(t, key)));
    UpsertWhitelist(t, ctx, key).(targets := t.targets[key := target])
  }

  /** Inserts the signal of the attempt unless the attempt already has one. */
  function CreateSignal(t: Tables, ctx: Context, key: TargetKey, row: WhitelistId): Tables
    requires row in t.whitelist
  {
    if ctx.job in t.signalIndex then t
    else
      var wait := if ctx.mode == Live then Some(t.whitelist[row].activationVersion) else None;
      var signal := Signal(ctx.job, ctx.policy, ctx.revision, ctx.hash, ctx.mode, SigRecorded, key, row, wait);
      t.(signals := t.signals[t.nextSignal := signal],
         signalIndex := t.signalIndex[ctx.job := t.nextSignal], nextSignal := t.nextSignal + 1)
  }

  /** The tables after persisting and requesting a launch window. */
  function Closed(t: Tables, ctx: Context, result: Resolution): (r: Tables)
    requires Fenced(t, ctx)
    ensures r.jobs == CloseJob(t, ctx, result).jobs
  {
    RequestWindow(Persist(t, ctx, result).value, ctx, result)
  }

  function WriteSignal(t: Tables, ctx: Context, selected: Candidate): (r: Tables)
    ensures r.jobs == t.jobs
  {
    CreateSignal(Materialize(t, ctx, selected), ctx, KeyOf(ctx, selected), WhitelistSlot(t, KeyOf(ctx, selected)))
  }

  /** The worker's one transaction; None is a rollback. */
  function Commit(t: Tables, ctx: Context, result: Resolution): (r: Option<Tables>)
    ensures r.Some? ==> Fenced(t, ctx) && r.value.jobs == CloseJob(t, ctx, result).jobs
  {
    if !Fenced(t, ctx) then None
    else if !result.ResolvedTo? || !Materializes(ctx.mode) then Some(Closed(t, ctx, result))
    else if !TargetAllowed(t, ctx, result.selected) then None
    else Some(WriteSignal(Closed(t, ctx, result), ctx, result.selected))
  }

  // ----- policy edits -----

  /** A row of policy `p` that an edit withdraws: an edit keeps its own revision, a removal keeps none. */
  predicate Outdated(rowPolicy: PolicyId, rowRevision: nat, p: PolicyId, kept: Option<nat>) {
    rowPolicy == p && kept != Some(rowRevision)
  }

  function WithdrawSignals(signals: map<SignalId, Signal>, p: PolicyId, kept: Option<nat>): map<SignalId, Signal> {
    map s | s in signals ::
      if Outdated(signals[s].policy, signals[s].revision, p, kept) && Actionable(signals[s].status)
      then signals[s].(status := SigSignalOnly) else signals[s]
  }

  function ArchiveWhitelist(rows: map<WhitelistId, Whitelist>, p: PolicyId, kept: Option<nat>)
    : map<WhitelistId, Whitelist>
  {
    map w | w in rows ::
      if Outdated(rows[w].key.policy, rows[w].revision, p, kept) then rows[w].(active := false) else rows[w]
  }

  /** The partial unique index after the archived rows left it. */
  function ActiveRows(rows: map<WhitelistId, Whitelist>, index: map<TargetKey, WhitelistId>)
    : map<TargetKey, WhitelistId>
  {
    map k | k in index && index[k] in rows && rows[index[k]].active :: index[k]
  }

  function PauseTargets(targets: map<TargetKey, Target>, p: PolicyId, kept: Option<nat>): map<TargetKey, Target> {
    map k | k in targets ::
      if Outdated(k.policy, targets[k].revision, p, kept) then targets[k].(active := false) else targets[k]
  }

  function FailWindows(windows: map<JobId, Window>, jobs: map<JobId, Job>, p: PolicyId, kept: Option<nat>)
    : map<JobId, Window>
  {
    map j | j in windows ::
      if j in jobs && Outdated(jobs[j].policy, jobs[j].revision, p, kept)
         && windows[j].status in {WinPending, WinProcessing}
      then windows[j].(status := WinFailed, leaseExpiresAt := None) else windows[j]
  }

  function CancelJobs(jobs: map<JobId, Job>, p: PolicyId, kept: Option<nat>, code: string): map<JobId, Job> {
    map j | j in jobs ::
      if Outdated(jobs[j].policy, jobs[j].revision, p, kept) && jobs[j].status in {Pending, Processing}
      then jobs[j].(status := Cancelled, failureCode := code, leaseExpiresAt := None) else jobs[j]
  }

  /** Everything of policy `p` outside the kept revision that could still act is withdrawn. */
  function Cascade(t: Tables, p: PolicyId, kept: Option<nat>, code: string): Tables {
    var rows := ArchiveWhitelist(t.whitelist, p, kept);
    t.(signals := WithdrawSignals(t.signals, p, kept),
       whitelist := rows, activeWhitelist := ActiveRows(rows, t.activeWhitelist),
       targets := PauseTargets(t.targets, p, kept),
       jobs := CancelJobs(t.jobs, p, kept, code))
  }

  predicate LiveLimitsMissing(config: Config) {
    config.mode == Live && config.newTokenLimit <= 0
  }

  function Bumped(t: Tables, p: PolicyId, config: Config): Tables
    requires p in t.policies
  {
    t.(policies := t.policies[p := Policy(t.policies[p].revision + 1, config)])
  }

  /** `config` is the normalised input; a rejected one leaves every row as it was. */
  function UpsertPolicy(t: Tables, p: PolicyId, config: Config): Tables {
    if LiveLimitsMissing(config) then t
    else if p !in t.policies then t.(policies := t.policies[p := Policy(1, config)])
    else if t.policies[p].Hash() == config then t
    else
      var kept := Some(t.policies[p].revision + 1);
      var windowed := t.(windows := FailWindows(t.windows, t.jobs, p, kept));
      Cascade(Bumped(windowed, p, config), p, kept, "DYNAMIC_POLICY_CHANGED")
  }

  /** Removal pauses the row under a new revision and, unlike an edit, leaves the launch windows. */
  function RemovePolicy(t: Tables, p: PolicyId): Tables {
    if p !in t.policies then t
    else
      var config := t.policies[p].config.(mode := Paused, enabled := false);
      Cascade(Bumped(t, p, config), p, None, "DYNAMIC_POLICY_REMOVED")
  }

  // ----- launch windows -----

  predicate WindowClaimable(t: Tables, j: JobId) {
    && j in t.windows && j in t.jobs
    && (|| (t.windows[j].status == WinPending && t.windows[j].nextAttemptAt <= t.now)
        || (t.windows[j].status == WinProcessing && Expired(t.windows[j].leaseExpiresAt, t.now)))
    && t.windows[j].expiresAt > t.now
    && t.jobs[j].status == Rejected
  }

  function ClaimWindow(t: Tables, w: WorkerId, j: JobId): Tables
    requires WindowClaimable(t, j)
  {
    var row := t.windows[j];
    t.(windows := t.windows[j := row.(
         status := WinProcessing, attempts := row.attempts + 1, worker := Some(w),
         leaseExpiresAt := Some(t.now + WINDOW_LEASE_MS))])
  }

  predicate WindowOwned(t: Tables, j: JobId, w: WorkerId) {
    && j in t.windows && t.windows[j].status == WinProcessing && t.windows[j].worker == Some(w)
    && Held(t.windows[j].leaseExpiresAt, t.now)
  }

  function SetWindow(t: Tables, j: JobId, status: WindowStatus, next: int): Tables
    requires j in t.windows
  {
    t.(windows := t.windows[j := t.windows[j].(status := status, nextAttemptAt := next, leaseExpiresAt := None)])
  }

  function RenewWindow(t: Tables, j: JobId): Tables
    requires j in t.windows
  {
    t.(windows := t.windows[j := t.windows[j].(leaseExpiresAt := Some(t.now + WINDOW_LEASE_MS))])
  }

  function FailWindow(t: Tables, j: JobId, w: WorkerId): Tables {
    if WindowOwned(t, j, w) then
      SetWindow(t, j, if t.windows[j].attempts >= 3 then WinFailed else WinPending, t.now + WINDOW_RETRY_MS)
    else t
  }

  function ExpireWindows(t: Tables): Tables {
    t.(windows := map j | j in t.windows ::
         if t.windows[j].status in {WinPending, WinProcessing} && t.windows[j].expiresAt <= t.now
         then t.windows[j].(status := WinExpired, leaseExpiresAt := None) else t.windows[j])
  }

  predicate Requeueable(t: Tables, j: JobId, w: WorkerId) {
    && j in t.jobs && t.jobs[j].status == Rejected
    && j in t.windows && t.windows[j].status == WinResolved && t.windows[j].worker == Some(w)
  }

  function RequeueJob(t: Tables, j: JobId, w: WorkerId): Tables {
    if Requeueable(t, j, w) then
      t.(jobs := t.jobs[j := t.jobs[j].(status := Pending, nextAttemptAt := t.now, failureCode := "")])
    else t
  }

  // ----- signals -----

  function SetSignal(t: Tables, s: SignalId, status: SignalStatus): Tables
    requires s in t.signals
  {
    t.(signals := t.signals[s := t.signals[s].(status := status)])
  }

  /** Expiry, a stopped gate or a failed activation withdraw a recorded signal only. */
  function WithdrawRecorded(t: Tables, s: SignalId, status: SignalStatus): Tables {
    if s in t.signals && t.signals[s].status == SigRecorded then SetSignal(t, s, status) else t
  }

  predicate LiveClaimable(t: Tables, s: SignalId) {
    && s in t.signals
    && t.signals[s].status == SigRecorded && t.signals[s].mode == Live
    && t.signals[s].whitelist in t.whitelist
    && t.whitelist[t.signals[s].whitelist].active
    && t.whitelist[t.signals[s].whitelist].liveReady
    && (t.signals[s].waitVersion.None?
        || t.signals[s].waitVersion.value == t.whitelist[t.signals[s].whitelist].activationVersion)
  }

  function RejectPending(t: Tables, s: SignalId): Tables {
    if s in t.signals && t.signals[s].status == SigPending then SetSignal(t, s, SigRejected) else t
  }

  /** The activation worker marks a still active row ready for its version. */
  function CompleteActivation(t: Tables, w: WhitelistId, version: nat): Tables {
    if w in t.whitelist && t.whitelist[w].active && t.whitelist[w].activationVersion == version then
      t.(whitelist := t.whitelist[w := t.whitelist[w].(liveReady := true)])
    else t
  }
}
