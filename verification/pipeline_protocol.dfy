/**
 The running system: any number of signal workers, launch-window workers and live
 processes take steps on shared tables in any order, each step being one statement or
 one transaction. Between two steps of a worker anything else may happen, including its
 crash. Job counters and call counters are observed from outside.
*/
module PipelineProtocol {
  import opened Wrappers
  import opened PipelineTables

  // ----- signal workers -----

  /**
   One runOnce of a signal worker; `lost` is its leaseLost flag. A late renewal is one that its
   timer had in flight when the run failed, committed or ended.
  */
  datatype Run =
    | Idle
    | Claimed(job: JobId, count: nat, lost: bool)
    | Loaded(job: JobId, count: nat, lost: bool, ctx: Context)
    | Checked(job: JobId, count: nat, lost: bool, ctx: Context)
    | Ready(job: JobId, count: nat, lost: bool, ctx: Context, result: Resolution)
    | Committed(job: JobId, count: nat)
    | Failing(job: JobId, count: nat, code: string)

  datatype JobStep =
    | ClaimNext(j: JobId)
    | Load
    | Check(flags: Flags)
    | Resolve(resolveFlags: Flags, resolution: Resolution)
    | Renew
    | LateRenew(renewed: JobId)
    | TryCommit(aborts: bool)
    | Throw(code: string)
    | Fail
    | Finish

  const POLICY_CHANGED := "DYNAMIC_POLICY_CHANGED"
  const MODE_CHANGED := "DYNAMIC_RUNTIME_MODE_CHANGED"

  function RollbackCode(t: Tables, ctx: Context, result: Resolution): string {
    if !Fenced(t, ctx) then "DYNAMIC_JOB_LEASE_LOST"
    else if result.ResolvedTo? && !PolicyUnchanged(t, ctx) then POLICY_CHANGED
    else if result.ResolvedTo? && !TargetAllowed(t, ctx, result.selected) then "DYNAMIC_CHAIN_BUDGET_NOT_CONFIGURED"
    else "DYNAMIC_JOB_FAILED"
  }

  function CheckContext(t: Tables, w: nat, run: Run, flags: Flags): (Tables, Run)
    requires run.Loaded?
  {
    var ctx := run.ctx;
    if !ctx.policyEnabled || ctx.revision != ctx.currentRevision then
      (CancelJob(t, run.job, POLICY_CHANGED, Some(SignalWorker(w))), Idle)
    else if EffectiveMode(ctx.configuredMode, flags) != Some(ctx.mode) then
      (CancelJob(t, run.job, MODE_CHANGED, Some(SignalWorker(w))), Idle)
    else if ctx.eventType !in ctx.allowedEvents then
      (t, Failing(run.job, run.count, "DYNAMIC_EVENT_NOT_ALLOWED"))
    else (t, Checked(run.job, run.count, run.lost, ctx))
  }

  function JobStepOf(t: Tables, w: nat, run: Run, step: JobStep): (Tables, Run) {
    match step
    case ClaimNext(j) =>
      if run.Idle? && Claimable(t, j)
      then (ClaimJob(t, SignalWorker(w), j), Claimed(j, t.jobs[j].attempts + 1, false)) else (t, run)
    case Load =>
      if !run.Claimed? then (t, run)
      else (match LoadContext(t, run.job)
            case None => (CancelJob(t, run.job, POLICY_CHANGED, Some(SignalWorker(w))), Idle)
            case Some(ctx) => (t, Loaded(run.job, run.count, run.lost, ctx)))
    case Check(flags) =>
      if run.Loaded? then CheckContext(t, w, run, flags) else (t, run)
    case Resolve(flags, result) =>
      if !run.Checked? then (t, run)
      else if EffectiveMode(run.ctx.configuredMode, flags) != Some(run.ctx.mode) then
        (CancelJob(t, run.job, MODE_CHANGED, Some(SignalWorker(w))), Idle)
      else (t, Ready(run.job, run.count, run.lost, run.ctx, result))
    case Renew =>
      if !(run.Claimed? || run.Loaded? || run.Checked? || run.Ready?) || run.lost then (t, run)
      else if Renewable(t, run.job, SignalWorker(w)) then (RenewJob(t, run.job, SignalWorker(w)), run)
      else (t, run.(lost := true))
    case LateRenew(j) => (RenewJob(t, j, SignalWorker(w)), run)
    case TryCommit(aborts) =>
      if !run.Ready? then (t, run)
      else if run.lost then (t, Failing(run.job, run.count, "DYNAMIC_JOB_LEASE_LOST"))
      else if aborts || Commit(t, run.ctx, run.result).None? then
        (t, Failing(run.job, run.count, RollbackCode(t, run.ctx, run.result)))
      else (Commit(t, run.ctx, run.result).value, Committed(run.job, run.count))
    case Throw(code) => (t, if run.Idle? then run else Failing(run.job, run.count, code))
    case Fail =>
      if run.Failing? then (FailJob(t, run.job, run.count, run.code, Some(SignalWorker(w))), Idle) else (t, run)
    case Finish => (t, Idle)
  }

  // ----- launch-window workers -----

  datatype WindowRun =
    | WinIdle
    | WinHolding(job: JobId, mode: Mode)
    | WinCancelling(job: JobId)
    | WinRequeueing(job: JobId)
    | WinFailing(job: JobId)

  datatype WindowStep =
    | TakeWindow(j: JobId)
    | ModeOff(flags: Flags)
    | CancelItsJob
    | PutBack
    | RenewLease
    | ResolveWindow
    | RequeueItsJob
    | WaitLonger
    | ThrowWindow
    | FailItsWindow
    | FinishWindow

  /** The guarded window update every holding branch starts with; a miss throws. */
  function IfOwned(t: Tables, w: nat, run: WindowRun, status: WindowStatus, next: int, granted: WindowRun): (Tables, WindowRun)
    requires run.WinHolding?
  {
    if WindowOwned(t, run.job, LaunchWorker(w)) then (SetWindow(t, run.job, status, next), granted)
    else (t, WinFailing(run.job))
  }

  function NextAttempt(t: Tables, j: JobId): int {
    if j in t.windows then t.windows[j].nextAttemptAt else 0
  }

  function WindowStepOf(t: Tables, w: nat, run: WindowRun, step: WindowStep): (Tables, WindowRun) {
    match step
    case TakeWindow(j) =>
      if run.WinIdle? && WindowClaimable(t, j)
      then (ClaimWindow(t, LaunchWorker(w), j), WinHolding(j, t.jobs[j].mode)) else (t, run)
    case ModeOff(flags) =>
      if run.WinHolding? && EffectiveMode(run.mode, flags) != Some(run.mode)
      then IfOwned(t, w, run, WinFailed, NextAttempt(t, run.job), WinCancelling(run.job)) else (t, run)
    case CancelItsJob =>
      if run.WinCancelling? then (CancelJob(t, run.job, MODE_CHANGED, Some(LaunchWorker(w))), WinIdle) else (t, run)
    case PutBack =>
      if !run.WinHolding? then (t, run)
      else (IfOwned(t, w, run, WinPending, t.now, WinIdle).0, WinIdle)
    case RenewLease =>
      if !run.WinHolding? then (t, run)
      else if WindowOwned(t, run.job, LaunchWorker(w)) then (RenewWindow(t, run.job), run)
      else (t, WinFailing(run.job))
    case ResolveWindow =>
      if run.WinHolding?
      then IfOwned(t, w, run, WinResolved, NextAttempt(t, run.job), WinRequeueing(run.job)) else (t, run)
    case RequeueItsJob =>
      if run.WinRequeueing? then (RequeueJob(t, run.job, LaunchWorker(w)), WinIdle) else (t, run)
    case WaitLonger =>
      if run.WinHolding? then IfOwned(t, w, run, WinPending, t.now + WINDOW_WAIT_MS, WinIdle) else (t, run)
    case ThrowWindow => (t, if run.WinIdle? then run else WinFailing(run.job))
    case FailItsWindow =>
      if run.WinFailing? then (FailWindow(t, run.job, LaunchWorker(w)), WinIdle) else (t, run)
    case FinishWindow => (t, WinIdle)
  }

  // ----- live execution processes -----

  datatype LiveRun = LiveIdle | LiveClaimed(signal: SignalId) | LiveCalled(signal: SignalId)

  datatype LiveStep = ClaimSignal(s: SignalId) | CallExecution | RejectIt | FinishLive

  function LiveStepOf(t: Tables, run: LiveRun, step: LiveStep): (Tables, LiveRun) {
    match step
    case ClaimSignal(s) =>
      if run.LiveIdle? && LiveClaimable(t, s) then (SetSignal(t, s, SigPending), LiveClaimed(s)) else (t, run)
    case CallExecution => if run.LiveClaimed? then (t, LiveCalled(run.signal)) else (t, run)
    case RejectIt => if run.LiveCalled? then (RejectPending(t, run.signal), LiveIdle) else (t, run)
    case FinishLive => (t, LiveIdle)
  }

  // ----- the system -----

  /** How often each transition of one job's row was observed. */
  datatype JobHistory = JobHistory(
    claims: nat, reclaims: nat, retries: nat, requeues: nat, commits: nat, resolvedCommits: nat)

  const NoHistory := JobHistory(0, 0, 0, 0, 0, 0)

  /** Reads the transition off the row alone, before and after a step. */
  function Observe(h: JobHistory, a: Job, b: Job): JobHistory {
    if a.status == Pending && b.status == Processing then h.(claims := h.claims + 1)
    else if a.status == Processing && b.status == Processing && a.attempts != b.attempts then
      h.(reclaims := h.reclaims + 1)
    else if a.status == Processing && b.status == Pending then h.(retries := h.retries + 1)
    else if a.status == Rejected && b.status == Pending then h.(requeues := h.requeues + 1)
    else if a.status == Processing && b.status == Rejected then h.(commits := h.commits + 1)
    else if a.status == Processing && b.status == Resolved then
      h.(commits := h.commits + 1, resolvedCommits := h.resolvedCommits + 1)
    else h
  }

  datatype System = System(
    t: Tables,
    runs: map<nat, Run>, windowRuns: map<nat, WindowRun>, liveRuns: map<nat, LiveRun>,
    history: map<JobId, JobHistory>, calls: map<SignalId, nat>)

  const Start := System(Empty, map[], map[], map[], map[], map[])

  function RunOf(s: System, w: nat): Run {
    if w in s.runs then s.runs[w] else Idle
  }

  function WindowRunOf(s: System, w: nat): WindowRun {
    if w in s.windowRuns then s.windowRuns[w] else WinIdle
  }

  function LiveRunOf(s: System, p: nat): LiveRun {
    if p in s.liveRuns then s.liveRuns[p] else LiveIdle
  }

  function CallsOf(s: System, signal: SignalId): nat {
    if signal in s.calls then s.calls[signal] else 0
  }

  datatype Step =
    | Tick(ms: nat)
    | EnqueueOne(activity: ActivityId, eventType: EventType, policy: PolicyId, row: Policy, flags: Flags)
    | EditPolicy(policy: PolicyId, config: Config)
    | DropPolicy(policy: PolicyId)
    | OfWorker(w: nat, jobStep: JobStep)
    | OfWindow(w: nat, windowStep: WindowStep)
    | SweepWindows
    | OfLive(p: nat, liveStep: LiveStep)
    | WithdrawSignal(signal: SignalId, status: SignalStatus)
    | TradeWrite(signal: SignalId, status: SignalStatus)
    | Activate(whitelist: WhitelistId, version: nat)

  /** A policy row read at or before now: its revision is one the policy has had. */
  predicate WasRead(t: Tables, p: PolicyId, row: Policy) {
    p in t.policies && row.revision <= t.policies[p].revision
  }

  function TablesAfter(s: System, step: Step): Tables {
    match step
    case Tick(ms) => s.t.(now := s.t.now + ms)
    case EnqueueOne(activity, e, p, row, flags) =>
      if WasRead(s.t, p, row) then Enqueue(s.t, activity, e, p, row, flags) else s.t
    case EditPolicy(p, config) => UpsertPolicy(s.t, p, config)
    case DropPolicy(p) => RemovePolicy(s.t, p)
    case OfWorker(w, js) => JobStepOf(s.t, w, RunOf(s, w), js).0
    case OfWindow(w, ws) => WindowStepOf(s.t, w, WindowRunOf(s, w), ws).0
    case SweepWindows => ExpireWindows(s.t)
    case OfLive(p, ls) => LiveStepOf(s.t, LiveRunOf(s, p), ls).0
    case WithdrawSignal(signal, status) =>
      if status == SigSignalOnly || status == SigExpired then WithdrawRecorded(s.t, signal, status) else s.t
    case TradeWrite(signal, status) =>
      if signal in s.t.signals && status in {SigReserved, SigExecuted, SigRejected}
      then SetSignal(s.t, signal, status) else s.t
    case Activate(w, version) => CompleteActivation(s.t, w, version)
  }

  function HistoryAfter(history: map<JobId, JobHistory>, a: map<JobId, Job>, b: map<JobId, Job>): map<JobId, JobHistory> {
    map j | j in b :: if j in a && j in history then Observe(history[j], a[j], b[j]) else NoHistory
  }

  function CallsAfter(s: System, step: Step): map<SignalId, nat> {
    if step.OfLive? && step.liveStep == CallExecution && LiveRunOf(s, step.p).LiveClaimed? then
      var signal := LiveRunOf(s, step.p).signal;
      s.calls[signal := CallsOf(s, signal) + 1]
    else s.calls
  }

  function Next(s: System, step: Step): System {
    var t := TablesAfter(s, step);
    System(
      t,
      if step.OfWorker? then s.runs[step.w := JobStepOf(s.t, step.w, RunOf(s, step.w), step.jobStep).1] else s.runs,
      if step.OfWindow?
      then s.windowRuns[step.w := WindowStepOf(s.t, step.w, WindowRunOf(s, step.w), step.windowStep).1]
      else s.windowRuns,
      if step.OfLive? then s.liveRuns[step.p := LiveStepOf(s.t, LiveRunOf(s, step.p), step.liveStep).1]
      else s.liveRuns,
      HistoryAfter(s.history, s.t.jobs, t.jobs),
      CallsAfter(s, step))
  }

  function Execute(s: System, steps: seq<Step>): System
    decreases |steps|
  {
    if steps == [] then s else Execute(Next(s, steps[0]), steps[1..])
  }
}
