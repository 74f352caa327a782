/**
 The theorems of the pipeline: what holds after any sequence of steps of any number of
 workers, policy edits, launch windows and live processes.
*/
module PipelineSafety {
  import opened Wrappers
  import opened PipelineTables
  import opened PipelineInvariants
  import opened PipelineProtocol

  // ----- every step keeps the tables' invariants -----

  /** While the row still names this worker's claim, its attempt count is the one the worker saw. */
  ghost predicate RunOk(jobs: Jobs, w: nat, run: Run) {
    !run.Idle? ==>
      && run.job in jobs
      && (jobs[run.job].status == Processing && jobs[run.job].worker == Some(SignalWorker(w)) ==>
            jobs[run.job].attempts == run.count)
      && (run.Loaded? || run.Checked? || run.Ready? ==> run.ctx.job == run.job && ContextOk(jobs, run.ctx))
  }

  lemma SameKeeps(t: Tables)
    requires TablesInv(t)
    ensures Keeps(t, t)
  {
  }

  lemma TickKeeps(t: Tables, ms: nat)
    requires TablesInv(t)
    ensures Keeps(t, t.(now := t.now + ms))
  {
  }

  lemma JobStepKeeps(t: Tables, w: nat, run: Run, step: JobStep)
    requires TablesInv(t) && RunOk(t.jobs, w, run)
    ensures Keeps(t, JobStepOf(t, w, run, step).0)
  {
    hide TablesInv, Evolves;
    SameKeeps(t);
    var worker := Some(SignalWorker(w));
    match step
    case ClaimNext(j) => if run.Idle? && Claimable(t, j) { ClaimKeeps(t, SignalWorker(w), j); }
    case Load => if run.Claimed? { CancelKeeps(t, run.job, POLICY_CHANGED, worker); }
    case Check(flags) =>
      if run.Loaded? {
        CancelKeeps(t, run.job, POLICY_CHANGED, worker);
        CancelKeeps(t, run.job, MODE_CHANGED, worker);
      }
    case Resolve(flags, result) => if run.Checked? { CancelKeeps(t, run.job, MODE_CHANGED, worker); }
    case Renew => if !run.Idle? { RenewKeeps(t, run.job, SignalWorker(w)); }
    case LateRenew(j) => RenewKeeps(t, j, SignalWorker(w));
    case TryCommit(aborts) =>
      if run.Ready? && Commit(t, run.ctx, run.result).Some? { CommitKeeps(t, run.ctx, run.result); }
    case Throw(code) =>
    case Fail => if run.Failing? { FailKeeps(t, run.job, run.count, run.code, worker); }
    case Finish =>
  }

  /** Whatever a holder writes to the window it still owns. */
  lemma HolderKeeps(t: Tables, w: nat, run: WindowRun, status: WindowStatus, next: int)
    requires TablesInv(t)
    ensures run.WinHolding? && WindowOwned(t, run.job, LaunchWorker(w)) ==>
              Keeps(t, SetWindow(t, run.job, status, next)) && Keeps(t, RenewWindow(t, run.job))
  {
    hide TablesInv, Evolves;
    if run.WinHolding? && WindowOwned(t, run.job, LaunchWorker(w)) {
      WindowUpdateKeeps(t, run.job, SetWindow(t, run.job, status, next).windows[run.job]);
      WindowUpdateKeeps(t, run.job, RenewWindow(t, run.job).windows[run.job]);
    }
  }

  lemma WindowStepKeeps(t: Tables, w: nat, run: WindowRun, step: WindowStep)
    requires TablesInv(t)
    ensures Keeps(t, WindowStepOf(t, w, run, step).0)
  {
    hide TablesInv, Evolves, EffectiveMode, CancelJob, RequeueJob, NextAttempt;
    SameKeeps(t);
    var t' := WindowStepOf(t, w, run, step).0;
    match step
    case TakeWindow(j) =>
      if run.WinIdle? && WindowClaimable(t, j) { WindowUpdateKeeps(t, j, t'.windows[j]); }
    case CancelItsJob => if run.WinCancelling? { CancelKeeps(t, run.job, MODE_CHANGED, Some(LaunchWorker(w))); }
    case RequeueItsJob => if run.WinRequeueing? { RequeueKeeps(t, run.job, LaunchWorker(w)); }
    case FailItsWindow =>
      if run.WinFailing? && WindowOwned(t, run.job, LaunchWorker(w)) {
        WindowUpdateKeeps(t, run.job, t'.windows[run.job]);
      }
    case ThrowWindow =>
    case FinishWindow =>
    case ModeOff(flags) => HolderKeeps(t, w, run, WinFailed, NextAttempt(t, if run.WinHolding? then run.job else 0));
    case PutBack => HolderKeeps(t, w, run, WinPending, t.now);
    case RenewLease => HolderKeeps(t, w, run, WinPending, t.now);
    case ResolveWindow => HolderKeeps(t, w, run, WinResolved, NextAttempt(t, if run.WinHolding? then run.job else 0));
    case WaitLonger => HolderKeeps(t, w, run, WinPending, t.now + WINDOW_WAIT_MS);
  }

  lemma LiveStepKeeps(t: Tables, run: LiveRun, step: LiveStep)
    requires TablesInv(t)
    ensures Keeps(t, LiveStepOf(t, run, step).0)
  {
    hide TablesInv, Evolves;
    SameKeeps(t);
    match step
    case ClaimSignal(s) => if run.LiveIdle? && LiveClaimable(t, s) { SignalUpdateKeeps(t, s, SigPending); }
    case RejectIt =>
      if run.LiveCalled? && run.signal in t.signals { SignalUpdateKeeps(t, run.signal, SigRejected); }
    case _ =>
  }

  ghost predicate RunsOk(s: System) {
    forall w :: w in s.runs ==> RunOk(s.t.jobs, w, s.runs[w])
  }

  lemma StepKeepsTables(s: System, step: Step)
    requires TablesInv(s.t) && RunsOk(s)
    ensures Keeps(s.t, Next(s, step).t)
  {
    hide TablesInv, Evolves;
    SameKeeps(s.t);
    var t := s.t;
    match step
    case EnqueueOne(activity, e, p, row, flags) =>
      if WasRead(t, p, row) { EnqueueKeeps(t, activity, e, p, row, flags); }
    case EditPolicy(p, config) => EditKeeps(t, p, config);
    case DropPolicy(p) => RemoveKeeps(t, p);
    case OfWorker(w, js) => JobStepKeeps(t, w, RunOf(s, w), js);
    case OfWindow(w, ws) => WindowStepKeeps(t, w, WindowRunOf(s, w), ws);
    case SweepWindows => ExpireWindowsKeeps(t);
    case OfLive(p, ls) => LiveStepKeeps(t, LiveRunOf(s, p), ls);
    case WithdrawSignal(signal, status) =>
      if signal in t.signals && (status == SigSignalOnly || status == SigExpired) {
        SignalUpdateKeeps(t, signal, status);
      }
    case TradeWrite(signal, status) =>
      if signal in t.signals && status in {SigReserved, SigExecuted, SigRejected} {
        SignalUpdateKeeps(t, signal, status);
      }
    case Activate(w, version) => ActivationKeeps(t, w, version);
    case Tick(ms) => TickKeeps(t, ms);
  }

  // ----- how one step may move a job row -----

  predicate Settles(a: JobStatus, b: JobStatus) {
    || (a == Processing && b in {Resolved, Rejected, Failed})
    || (a in {Pending, Processing, Rejected} && b == Cancelled)
  }

  predicate Move(a: Job, b: Job, claimer: Option<WorkerId>, requeue: bool) {
    || (a.status in {Pending, Processing} && b.status == Processing
        && b.attempts == a.attempts + 1 && claimer.Some? && b.worker == claimer)
    || (&& b.attempts == a.attempts && b.worker == a.worker
        && (|| b.status == a.status
            || Settles(a.status, b.status)
            || (a.status == Processing && b.status == Pending && a.attempts < MAX_ATTEMPTS)
            || (requeue && a.status == Rejected && b.status == Pending)))
  }

  ghost predicate JobsMove(a: Jobs, b: Jobs, claimer: Option<WorkerId>, requeued: Option<JobId>) {
    && (forall j :: j in a ==> j in b && Move(a[j], b[j], claimer, requeued == Some(j)))
    && (forall j :: j in b && j !in a ==> b[j].status == Pending && b[j].attempts == 0 && b[j].worker.None?)
  }

  function Claimer(s: System, step: Step): Option<WorkerId> {
    if step.OfWorker? && step.jobStep.ClaimNext? && RunOf(s, step.w).Idle? then Some(SignalWorker(step.w)) else None
  }

  function Requeued(s: System, step: Step): Option<JobId> {
    if step.OfWindow? && step.windowStep == RequeueItsJob && WindowRunOf(s, step.w).WinRequeueing?
    then Some(WindowRunOf(s, step.w).job) else None
  }

  lemma NoMove(jobs: Jobs, claimer: Option<WorkerId>, requeued: Option<JobId>)
    ensures JobsMove(jobs, jobs, claimer, requeued)
  {
  }

  lemma RowMoves(jobs: Jobs, j: JobId, b: Job, claimer: Option<WorkerId>, requeued: Option<JobId>)
    requires j in jobs && Move(jobs[j], b, claimer, requeued == Some(j))
    ensures JobsMove(jobs, jobs[j := b], claimer, requeued)
  {
  }

  lemma CommitMoves(t: Tables, ctx: Context, result: Resolution)
    requires Commit(t, ctx, result).Some?
    ensures JobsMove(t.jobs, Commit(t, ctx, result).value.jobs, None, None)
  {
    hide JobsMove, Commit;
    var t' := Commit(t, ctx, result).value;
    RowMoves(t.jobs, ctx.job, t'.jobs[ctx.job], None, None);
  }

  lemma CancelMoves(t: Tables, j: JobId, code: string, w: WorkerId)
    ensures JobsMove(t.jobs, CancelJob(t, j, code, Some(w)).jobs, None, None)
  {
    hide JobsMove;
    NoMove(t.jobs, None, None);
    if Cancellable(t, j, Some(w)) { RowMoves(t.jobs, j, CancelJob(t, j, code, Some(w)).jobs[j], None, None); }
  }

  lemma ClaimMoves(t: Tables, w: WorkerId, j: JobId)
    requires Claimable(t, j)
    ensures JobsMove(t.jobs, ClaimJob(t, w, j).jobs, Some(w), None)
  {
    hide JobsMove;
    RowMoves(t.jobs, j, ClaimJob(t, w, j).jobs[j], Some(w), None);
  }

  lemma RenewMoves(t: Tables, j: JobId, w: WorkerId)
    ensures JobsMove(t.jobs, RenewJob(t, j, w).jobs, None, None)
  {
    hide JobsMove;
    NoMove(t.jobs, None, None);
    if Renewable(t, j, w) { RowMoves(t.jobs, j, RenewJob(t, j, w).jobs[j], None, None); }
  }

  /** The failing worker's count is the row's, so a retry only follows an attempt below the cap. */
  lemma FailMoves(t: Tables, j: JobId, count: nat, code: string, w: WorkerId)
    requires j in t.jobs && t.jobs[j].status == Processing && t.jobs[j].worker == Some(w) ==> t.jobs[j].attempts == count
    ensures JobsMove(t.jobs, FailJob(t, j, count, code, Some(w)).jobs, None, None)
  {
    hide JobsMove;
    NoMove(t.jobs, None, None);
    if Failable(t, j, Some(w)) { RowMoves(t.jobs, j, FailJob(t, j, count, code, Some(w)).jobs[j], None, None); }
  }

  lemma JobStepMoves(t: Tables, w: nat, run: Run, step: JobStep)
    requires RunOk(t.jobs, w, run)
    ensures JobsMove(t.jobs, JobStepOf(t, w, run, step).0.jobs,
                     if step.ClaimNext? && run.Idle? then Some(SignalWorker(w)) else None, None)
  {
    hide JobsMove, Commit, CancelJob, ClaimJob, RenewJob, FailJob;
    NoMove(t.jobs, Some(SignalWorker(w)), None);
    NoMove(t.jobs, None, None);
    match step
    case ClaimNext(j) => if run.Idle? && Claimable(t, j) { ClaimMoves(t, SignalWorker(w), j); }
    case TryCommit(aborts) =>
      if run.Ready? && Commit(t, run.ctx, run.result).Some? { CommitMoves(t, run.ctx, run.result); }
    case Renew => if !run.Idle? { RenewMoves(t, run.job, SignalWorker(w)); }
    case LateRenew(j) => RenewMoves(t, j, SignalWorker(w));
    case Fail => if run.Failing? { FailMoves(t, run.job, run.count, run.code, SignalWorker(w)); }
    case Throw(code) =>
    case Finish =>
    case Load => if run.Claimed? { CancelMoves(t, run.job, POLICY_CHANGED, SignalWorker(w)); }
    case Check(flags) =>
      if run.Loaded? {
        CancelMoves(t, run.job, POLICY_CHANGED, SignalWorker(w));
        CancelMoves(t, run.job, MODE_CHANGED, SignalWorker(w));
      }
    case Resolve(flags, result) => if run.Checked? { CancelMoves(t, run.job, MODE_CHANGED, SignalWorker(w)); }
  }

  lemma WindowStepMoves(t: Tables, w: nat, run: WindowRun, step: WindowStep)
    ensures JobsMove(t.jobs, WindowStepOf(t, w, run, step).0.jobs, None,
                     if step == RequeueItsJob && run.WinRequeueing? then Some(run.job) else None)
  {
    hide JobsMove, CancelJob;
    NoMove(t.jobs, None, None);
    if step == CancelItsJob && run.WinCancelling? {
      CancelMoves(t, run.job, MODE_CHANGED, LaunchWorker(w));
    } else if step == RequeueItsJob && run.WinRequeueing? {
      NoMove(t.jobs, None, Some(run.job));
      if Requeueable(t, run.job, LaunchWorker(w)) {
        RowMoves(t.jobs, run.job, RequeueJob(t, run.job, LaunchWorker(w)).jobs[run.job], None, Some(run.job));
      }
    }
  }

  lemma WithdrawalMoves(jobs: Jobs, p: PolicyId, kept: Option<nat>, code: string)
    ensures JobsMove(jobs, CancelJobs(jobs, p, kept, code), None, None)
  {
  }

  lemma EnqueueMoves(t: Tables, activity: ActivityId, e: EventType, p: PolicyId, row: Policy, flags: Flags)
    requires JobTable(t.jobs, t.jobIndex, t.nextJob)
    ensures JobsMove(t.jobs, Enqueue(t, activity, e, p, row, flags).jobs, None, None)
  {
  }

  lemma EditMoves(t: Tables, p: PolicyId, config: Config)
    ensures JobsMove(t.jobs, UpsertPolicy(t, p, config).jobs, None, None)
    ensures JobsMove(t.jobs, RemovePolicy(t, p).jobs, None, None)
  {
    hide JobsMove, CancelJobs;
    NoMove(t.jobs, None, None);
    if p in t.policies {
      WithdrawalMoves(t.jobs, p, Some(t.policies[p].revision + 1), "DYNAMIC_POLICY_CHANGED");
      WithdrawalMoves(t.jobs, p, None, "DYNAMIC_POLICY_REMOVED");
    }
  }

  predicate TouchesJobs(step: Step) {
    step.OfWorker? || step.OfWindow? || step.EditPolicy? || step.DropPolicy? || step.EnqueueOne?
  }

  /** The clock, the live processes and the other writers leave the job rows alone. */
  lemma OthersKeepJobs(s: System, step: Step)
    requires !TouchesJobs(step)
    ensures TablesAfter(s, step).jobs == s.t.jobs
  {
    hide JobStepOf, WindowStepOf, Enqueue, UpsertPolicy, RemovePolicy, LiveStepOf;
    if step.OfLive? { LiveKeepsJobs(s.t, LiveRunOf(s, step.p), step.liveStep); }
  }

  lemma LiveKeepsJobs(t: Tables, run: LiveRun, step: LiveStep)
    ensures LiveStepOf(t, run, step).0.jobs == t.jobs
  {
    hide LiveClaimable;
  }

  lemma StepMoves(s: System, step: Step)
    requires TablesInv(s.t) && RunsOk(s)
    ensures JobsMove(s.t.jobs, TablesAfter(s, step).jobs, Claimer(s, step), Requeued(s, step))
  {
    assert JobTable(s.t.jobs, s.t.jobIndex, s.t.nextJob);
    hide JobsMove, JobStepOf, WindowStepOf, Enqueue, TablesInv, JobTable, UpsertPolicy, RemovePolicy, LiveStepOf;
    if !TouchesJobs(step) {
      OthersKeepJobs(s, step);
      NoMove(s.t.jobs, None, None);
      hide TablesAfter;
    } else {
      match step
      case OfWorker(w, js) => JobStepMoves(s.t, w, RunOf(s, w), js);
      case OfWindow(w, ws) => WindowStepMoves(s.t, w, WindowRunOf(s, w), ws);
      case EditPolicy(p, config) => EditMoves(s.t, p, config);
      case DropPolicy(p) => EditMoves(s.t, p, Config(Paused, false, {}, map[], 0));
      case EnqueueOne(activity, e, p, row, flags) =>
        NoMove(s.t.jobs, None, None);
        EnqueueMoves(s.t, activity, e, p, row, flags);
    }
  }

  // ----- what the observed transitions of a job add up to -----

  /** A processing job has been closed by no commit since it was last opened. */
  predicate HistoryOk(job: Job, h: JobHistory) {
    && job.attempts == h.claims + h.reclaims
    && h.claims + (if job.status == Pending then 1 else 0) <= 1 + h.retries + h.requeues
    && h.retries < MAX_ATTEMPTS && h.retries <= job.attempts
    && (job.status == Processing ==> h.retries < job.attempts)
    && h.commits <= h.requeues + (if job.status in {Resolved, Rejected, Cancelled} then 1 else 0)
    && h.resolvedCommits == (if job.status == Resolved then 1 else 0)
    && h.requeues <= 1
  }

  lemma ObservedOk(a: Job, b: Job, h: JobHistory, claimer: Option<WorkerId>, requeue: bool)
    requires HistoryOk(a, h) && Move(a, b, claimer, requeue) && (requeue ==> h.requeues == 0)
    ensures HistoryOk(b, Observe(h, a, b))
  {
  }

  type Histories = map<JobId, JobHistory>

  ghost predicate CountersFit(jobs: Jobs, history: Histories) {
    history.Keys == jobs.Keys && forall j :: j in history ==> HistoryOk(jobs[j], history[j])
  }

  /** Only a resolved window has requeued its job. */
  ghost predicate RequeuesLinked(history: Histories, windows: Windows) {
    forall j :: j in history && history[j].requeues > 0 ==> j in windows && windows[j].status == WinResolved
  }

  ghost predicate HistoriesOk(s: System) {
    CountersFit(s.t.jobs, s.history) && RequeuesLinked(s.history, s.t.windows)
  }

  /** A worker about to requeue holds the only resolution of that job's window, still unspent. */
  ghost predicate WindowRunOk(windows: Windows, history: Histories, w: nat, run: WindowRun) {
    run.WinRequeueing? ==>
      && run.job in windows && windows[run.job].status == WinResolved
      && windows[run.job].worker == Some(LaunchWorker(w))
      && run.job in history && history[run.job].requeues == 0
  }

  ghost predicate WindowRunsOk(s: System) {
    forall w :: w in s.windowRuns ==> WindowRunOk(s.t.windows, s.history, w, s.windowRuns[w])
  }

  type LiveRuns = map<nat, LiveRun>

  predicate Holds(runs: LiveRuns, p: nat) {
    p in runs && runs[p].LiveClaimed?
  }

  predicate Uncalled(calls: map<SignalId, nat>, x: SignalId) {
    x !in calls || calls[x] == 0
  }

  /** A signal is called at most once: by the process whose claim took it out of recorded. */
  ghost predicate CallsOk(signals: Signals, calls: map<SignalId, nat>, runs: LiveRuns) {
    && (forall x :: x in calls ==> x in signals && calls[x] <= 1)
    && (forall x :: x in calls && calls[x] > 0 ==> signals[x].status != SigRecorded && signals[x].mode == Live)
    && (forall p :: Holds(runs, p) ==>
          && runs[p].signal in signals && Uncalled(calls, runs[p].signal)
          && signals[runs[p].signal].status != SigRecorded && signals[runs[p].signal].mode == Live)
    && (forall p, q :: p != q && Holds(runs, p) && Holds(runs, q) ==> runs[p].signal != runs[q].signal)
  }

  ghost predicate SystemInv(s: System) {
    TablesInv(s.t) && RunsOk(s) && HistoriesOk(s) && WindowRunsOk(s) && CallsOk(s.t.signals, s.calls, s.liveRuns)
  }

  // ----- each part survives a step -----

  lemma ForeignRun(a: Jobs, b: Jobs, claimer: Option<WorkerId>, requeued: Option<JobId>, w: nat, run: Run)
    requires JobsMove(a, b, claimer, requeued) && JobsEvolve(a, b) && RunOk(a, w, run)
    requires claimer != Some(SignalWorker(w))
    ensures RunOk(b, w, run)
  {
  }

  /** Later stages of a run carry on its job, count and context. */
  lemma OwnRunCarries(t: Tables, w: nat, run: Run, step: JobStep, jobs: Jobs)
    requires RunOk(jobs, w, run) && !(step.ClaimNext? && run.Idle?)
    requires step.Load? && run.Claimed? ==>
               run.job in t.jobs && run.job in jobs && SameIdentity(t.jobs[run.job], jobs[run.job])
    ensures RunOk(jobs, w, JobStepOf(t, w, run, step).1)
  {
    hide Commit, CancelJob, RenewJob, FailJob;
  }

  lemma OwnRun(s: System, w: nat, step: JobStep)
    requires TablesInv(s.t) && RunsOk(s)
    ensures RunOk(JobStepOf(s.t, w, RunOf(s, w), step).0.jobs, w, JobStepOf(s.t, w, RunOf(s, w), step).1)
  {
    var run := RunOf(s, w);
    if step.ClaimNext? && run.Idle? {
      hide TablesInv;
    } else {
      var t' := JobStepOf(s.t, w, run, step).0;
      JobStepMoves(s.t, w, run, step);
      JobStepKeeps(s.t, w, run, step);
      assert JobsEvolve(s.t.jobs, t'.jobs);
      hide TablesInv, JobsMove, JobStepOf, Evolves;
      ForeignRun(s.t.jobs, t'.jobs, None, None, w, run);
      OwnRunCarries(s.t, w, run, step, t'.jobs);
    }
  }

  lemma StepKeepsRuns(s: System, step: Step)
    requires TablesInv(s.t) && RunsOk(s)
    ensures RunsOk(Next(s, step))
  {
    var s' := Next(s, step);
    StepMoves(s, step);
    StepKeepsTables(s, step);
    assert JobsEvolve(s.t.jobs, s'.t.jobs);
    hide TablesInv, JobsMove, JobsEvolve, TablesAfter, JobStepOf, Evolves;
    forall w | w in s'.runs ensures RunOk(s'.t.jobs, w, s'.runs[w]) {
      if step.OfWorker? && step.w == w {
        OwnRun(s, w, step.jobStep);
        assert s'.t == JobStepOf(s.t, w, RunOf(s, w), step.jobStep).0 by { TablesOfWorker(s, w, step.jobStep); }
      } else {
        ForeignRun(s.t.jobs, s'.t.jobs, Claimer(s, step), Requeued(s, step), w, s.runs[w]);
      }
    }
  }

  lemma TablesOfWorker(s: System, w: nat, js: JobStep)
    ensures TablesAfter(s, OfWorker(w, js)) == JobStepOf(s.t, w, RunOf(s, w), js).0
  {
  }

  /** Rows that moved keep fitting their counters; new rows start from nothing. */
  lemma CountersStep(a: Jobs, b: Jobs, history: Histories, claimer: Option<WorkerId>, requeued: Option<JobId>)
    requires JobsMove(a, b, claimer, requeued) && CountersFit(a, history)
    requires requeued.Some? && requeued.value in history ==> history[requeued.value].requeues == 0
    ensures CountersFit(b, HistoryAfter(history, a, b))
    ensures forall j :: j in b && HistoryAfter(history, a, b)[j].requeues > 0 && requeued != Some(j) ==>
              j in history && history[j].requeues == HistoryAfter(history, a, b)[j].requeues
    ensures forall j :: j in history ==> j in HistoryAfter(history, a, b)
  {
    forall j | j in b ensures HistoryOk(b[j], HistoryAfter(history, a, b)[j]) {
      if j in a { ObservedOk(a[j], b[j], history[j], claimer, requeued == Some(j)); }
    }
  }

  /** The requeueing worker's window is resolved and unspent. */
  lemma RequeuedFacts(s: System, step: Step)
    requires WindowRunsOk(s)
    ensures var r := Requeued(s, step);
            r.Some? ==>
              && r.value in s.history && s.history[r.value].requeues == 0
              && r.value in s.t.windows && s.t.windows[r.value].status == WinResolved
              && step.OfWindow? && s.t.windows[r.value].worker == Some(LaunchWorker(step.w))
  {
  }

  lemma LinksStep(a: Windows, b: Windows, history: Histories, after: Histories, requeued: Option<JobId>)
    requires RequeuesLinked(history, a) && WindowsEvolve(a, b)
    requires forall j :: j in after && after[j].requeues > 0 && requeued != Some(j) ==>
               j in history && history[j].requeues == after[j].requeues
    requires requeued.Some? ==> requeued.value in a && a[requeued.value].status == WinResolved
    ensures RequeuesLinked(after, b)
  {
  }

  lemma StepKeepsHistories(s: System, step: Step)
    requires SystemInv(s)
    ensures HistoriesOk(Next(s, step))
  {
    StepMoves(s, step);
    StepKeepsTables(s, step);
    assert WindowsEvolve(s.t.windows, TablesAfter(s, step).windows);
    RequeuedFacts(s, step);
    hide TablesInv, JobsMove, TablesAfter, Evolves, CountersFit, RequeuesLinked, HistoryAfter, WindowsEvolve, Requeued,
         RunsOk, WindowRunsOk, CallsOk;
    CountersStep(s.t.jobs, TablesAfter(s, step).jobs, s.history, Claimer(s, step), Requeued(s, step));
    LinksStep(s.t.windows, TablesAfter(s, step).windows, s.history,
              HistoryAfter(s.history, s.t.jobs, TablesAfter(s, step).jobs), Requeued(s, step));
  }

  /** Resolving the window is the only step that hands a worker the requeue. */
  lemma OwnWindowRun(t: Tables, history: Histories, w: nat, run: WindowRun, step: WindowStep)
    requires JobsOf(t.windows, t.jobs) && history.Keys == t.jobs.Keys && RequeuesLinked(history, t.windows)
    requires WindowRunOk(t.windows, history, w, run)
    ensures var next := WindowStepOf(t, w, run, step);
            && WindowRunOk(next.0.windows, history, w, next.1)
            && (step == RequeueItsJob ==> !next.1.WinRequeueing?)
  {
    hide CancelJob, RequeueJob, ClaimWindow, FailWindow, RequeuesLinked, JobsOf;
    if step.ResolveWindow? && run.WinHolding? && WindowOwned(t, run.job, LaunchWorker(w)) {
      ProcessingUnspent(t, history, run.job);
    }
  }

  lemma ProcessingUnspent(t: Tables, history: Histories, j: JobId)
    requires JobsOf(t.windows, t.jobs) && history.Keys == t.jobs.Keys && RequeuesLinked(history, t.windows)
    requires j in t.windows && t.windows[j].status != WinResolved
    ensures j in history && history[j].requeues == 0
  {
  }

  lemma WindowRunStep(
      a: Windows, b: Windows, history: Histories, after: Histories, requeued: Option<JobId>, w: nat, run: WindowRun)
    requires WindowRunOk(a, history, w, run) && WindowsEvolve(a, b)
    requires forall j :: j in history ==> j in after
    requires forall j :: j in after && after[j].requeues > 0 && requeued != Some(j) ==>
               j in history && history[j].requeues == after[j].requeues
    requires run.WinRequeueing? ==> requeued != Some(run.job)
    ensures WindowRunOk(b, after, w, run)
  {
  }

  lemma OwnWindowStep(t: Tables, history: Histories, v: nat, run: WindowRun, ws: WindowStep)
    requires JobsOf(t.windows, t.jobs) && CountersFit(t.jobs, history) && RequeuesLinked(history, t.windows)
    requires WindowRunOk(t.windows, history, v, run)
    ensures var next := WindowStepOf(t, v, run, ws);
            WindowRunOk(next.0.windows, HistoryAfter(history, t.jobs, next.0.jobs), v, next.1)
  {
    var next := WindowStepOf(t, v, run, ws);
    var requeued := if ws == RequeueItsJob && run.WinRequeueing? then Some(run.job) else None;
    WindowStepMoves(t, v, run, ws);
    OwnWindowRun(t, history, v, run, ws);
    assert requeued.Some? ==> !next.1.WinRequeueing? && run.job in history && history[run.job].requeues == 0;
    hide JobsMove, HistoryOk, HistoryAfter, WindowStepOf, RequeuesLinked, JobsOf, CountersFit;
    CountersStep(t.jobs, next.0.jobs, history, None, requeued);
    if next.1.WinRequeueing? {
      WindowRunStep(next.0.windows, next.0.windows, history, HistoryAfter(history, t.jobs, next.0.jobs), None, v, next.1);
    }
  }

  /** Another worker's requeue spends another window. */
  lemma ForeignWindowRun(
      a: Windows, b: Windows, history: Histories, after: Histories, requeued: Option<JobId>, v: nat, w: nat,
      run: WindowRun)
    requires WindowRunOk(a, history, w, run) && WindowsEvolve(a, b) && v != w
    requires forall j :: j in history ==> j in after
    requires forall j :: j in after && after[j].requeues > 0 && requeued != Some(j) ==>
               j in history && history[j].requeues == after[j].requeues
    requires requeued.Some? ==> requeued.value in a && a[requeued.value].worker == Some(LaunchWorker(v))
    ensures WindowRunOk(b, after, w, run)
  {
    WindowRunStep(a, b, history, after, requeued, w, run);
  }

  lemma StepKeepsWindowRuns(s: System, step: Step)
    requires SystemInv(s)
    ensures WindowRunsOk(Next(s, step))
  {
    var s' := Next(s, step);
    var v := if step.OfWindow? then step.w else 0;
    StepMoves(s, step);
    StepKeepsTables(s, step);
    RequeuedFacts(s, step);
    if step.OfWindow? {
      assert JobsOf(s.t.windows, s.t.jobs);
      OwnWindowStep(s.t, s.history, v, WindowRunOf(s, v), step.windowStep);
      assert s'.t == WindowStepOf(s.t, v, WindowRunOf(s, v), step.windowStep).0;
    }
    assert WindowsEvolve(s.t.windows, s'.t.windows);
    CountersStep(s.t.jobs, s'.t.jobs, s.history, Claimer(s, step), Requeued(s, step));
    hide TablesInv, JobsMove, Evolves, HistoryOk, HistoryAfter, WindowsEvolve, RunsOk, CallsOk, TablesAfter,
         WindowStepOf, RequeuesLinked, JobsOf, WindowRunOk, JobStepOf, CountersFit;
    forall w | w in s'.windowRuns ensures WindowRunOk(s'.t.windows, s'.history, w, s'.windowRuns[w]) {
      if step.OfWindow? && w == v {
        assert s'.windowRuns[v] == WindowStepOf(s.t, v, WindowRunOf(s, v), step.windowStep).1;
      } else if step.OfWindow? {
        ForeignWindowRun(s.t.windows, s'.t.windows, s.history, s'.history, Requeued(s, step), v, w, s.windowRuns[w]);
      } else {
        WindowRunStep(s.t.windows, s'.t.windows, s.history, s'.history, None, w, s.windowRuns[w]);
      }
    }
  }

  lemma CallsStable(a: Signals, b: Signals, calls: map<SignalId, nat>, runs: LiveRuns)
    requires CallsOk(a, calls, runs) && SignalsEvolve(a, b)
    ensures CallsOk(b, calls, runs)
  {
  }

  lemma ClaimKeepsCalls(a: Signals, calls: map<SignalId, nat>, runs: LiveRuns, p: nat, x: SignalId)
    requires CallsOk(a, calls, runs) && x in a && a[x].status == SigRecorded && a[x].mode == Live && !Holds(runs, p)
    ensures CallsOk(a[x := a[x].(status := SigPending)], calls, runs[p := LiveClaimed(x)])
  {
  }

  lemma CallKeepsCalls(a: Signals, calls: map<SignalId, nat>, runs: LiveRuns, p: nat)
    requires CallsOk(a, calls, runs) && Holds(runs, p)
    ensures CallsOk(a, calls[runs[p].signal := 1], runs[p := LiveCalled(runs[p].signal)])
  {
  }

  lemma LetGoKeepsCalls(a: Signals, calls: map<SignalId, nat>, runs: LiveRuns, p: nat, run: LiveRun)
    requires CallsOk(a, calls, runs) && (!run.LiveClaimed? || (p in runs && runs[p] == run))
    ensures CallsOk(a, calls, runs[p := run])
  {
  }

  lemma StepKeepsCalls(s: System, step: Step)
    requires SystemInv(s)
    ensures var s' := Next(s, step); CallsOk(s'.t.signals, s'.calls, s'.liveRuns)
  {
    var s' := Next(s, step);
    StepKeepsTables(s, step);
    assert SignalsEvolve(s.t.signals, s'.t.signals);
    hide TablesInv, RunsOk, HistoriesOk, WindowRunsOk, HistoryAfter, Evolves, CallsOk, SignalsEvolve, JobStepOf,
         WindowStepOf, Commit, UpsertPolicy, RemovePolicy, Enqueue;
    if step.OfLive? {
      LiveKeepsCalls(s, step.p, step.liveStep);
    } else {
      hide TablesAfter, LiveStepOf;
      CallsStable(s.t.signals, s'.t.signals, s.calls, s.liveRuns);
    }
  }

  lemma LiveKeepsCalls(s: System, p: nat, live: LiveStep)
    requires CallsOk(s.t.signals, s.calls, s.liveRuns)
    requires SignalsEvolve(s.t.signals, Next(s, OfLive(p, live)).t.signals)
    ensures var s' := Next(s, OfLive(p, live)); CallsOk(s'.t.signals, s'.calls, s'.liveRuns)
  {
    hide HistoryAfter, CallsOk, SignalsEvolve;
    var s', run, runs := Next(s, OfLive(p, live)), LiveRunOf(s, p), s.liveRuns;
    if live.ClaimSignal? && run.LiveIdle? && LiveClaimable(s.t, live.s) {
      ClaimKeepsCalls(s.t.signals, s.calls, runs, p, live.s);
    } else if live == CallExecution && run.LiveClaimed? {
      assert Uncalled(s.calls, run.signal) by { HeldUncalled(s.t.signals, s.calls, runs, p); }
      CallKeepsCalls(s.t.signals, s.calls, runs, p);
    } else {
      LetGoKeepsCalls(s.t.signals, s.calls, runs, p, s'.liveRuns[p]);
      CallsStable(s.t.signals, s'.t.signals, s.calls, s'.liveRuns);
    }
  }

  lemma HeldUncalled(a: Signals, calls: map<SignalId, nat>, runs: LiveRuns, p: nat)
    requires CallsOk(a, calls, runs) && Holds(runs, p)
    ensures Uncalled(calls, runs[p].signal)
  {
  }

  // ----- the main theorems -----

  lemma StepKeeps(s: System, step: Step)
    requires SystemInv(s)
    ensures SystemInv(Next(s, step)) && Evolves(s.t, Next(s, step).t)
  {
    StepKeepsTables(s, step);
    StepKeepsRuns(s, step);
    StepKeepsHistories(s, step);
    StepKeepsWindowRuns(s, step);
    StepKeepsCalls(s, step);
  }

  lemma StartOk()
    ensures SystemInv(Start)
  {
  }

  /** Any run from a good state ends in a good state that it could evolve into. */
  lemma {:induction false} RunKeeps(s: System, steps: seq<Step>)
    requires SystemInv(s)
    ensures SystemInv(Execute(s, steps)) && Evolves(s.t, Execute(s, steps).t)
    decreases |steps|
  {
    if steps == [] {
      SameKeeps(s.t);
    } else {
      StepKeeps(s, steps[0]);
      hide SystemInv, Next, Evolves;
      RunKeeps(Next(s, steps[0]), steps[1..]);
      EvolvesTransitive(s.t, Next(s, steps[0]).t, Execute(s, steps).t);
    }
  }

  ghost predicate Reachable(s: System) {
    exists steps :: s == Execute(Start, steps)
  }

  lemma ReachableOk(s: System)
    requires Reachable(s)
    ensures SystemInv(s)
  {
    var steps :| s == Execute(Start, steps);
    StartOk();
    RunKeeps(Start, steps);
  }

  /** Revision fence: whatever can still act carries its policy's current revision and hash. */
  lemma RevisionFence(s: System)
    requires Reachable(s)
    ensures forall x :: x in s.t.signals && Actionable(s.t.signals[x].status) ==>
              Current(s.t.policies, s.t.signals[x].policy, s.t.signals[x].revision, s.t.signals[x].hash)
    ensures forall k :: k in s.t.targets && s.t.targets[k].active ==>
              Current(s.t.policies, k.policy, s.t.targets[k].revision, s.t.targets[k].hash)
    ensures forall w :: w in s.t.whitelist && s.t.whitelist[w].active ==>
              && s.t.whitelist[w].key.policy in s.t.policies
              && s.t.policies[s.t.whitelist[w].key.policy].revision == s.t.whitelist[w].revision
    ensures forall w, v | w in s.t.whitelist && v in s.t.whitelist && s.t.whitelist[w].active && s.t.whitelist[v].active
              && s.t.whitelist[w].key == s.t.whitelist[v].key :: w == v
  {
    ReachableOk(s);
  }

  /** A paper or live job has a signal exactly when it is resolved, and then exactly one. */
  lemma SignalExactlyWhenResolved(s: System, j: JobId)
    requires Reachable(s) && j in s.t.jobs
    ensures (s.t.jobs[j].status == Resolved && Materializes(s.t.jobs[j].mode))
              <==> exists x :: x in s.t.signals && s.t.signals[x].job == j
    ensures forall x, y | x in s.t.signals && y in s.t.signals
              && s.t.signals[x].job == j && s.t.signals[y].job == j :: x == y
  {
    ReachableOk(s);
    assert SignalTable(s.t.signals, s.t.signalIndex, s.t.nextSignal);
    hide JobTable, JobPolicies, WhitelistTable, Fence, HistoriesOk, WindowRunsOk, RunsOk, CallsOk;
    if s.t.jobs[j].status == Resolved && Materializes(s.t.jobs[j].mode) {
      assert s.t.signals[s.t.signalIndex[j]].job == j;
    }
  }

  /** What the observed transitions of one job are bounded by, whatever the interleaving. */
  lemma LifecycleBound(s: System, j: JobId)
    requires Reachable(s) && j in s.t.jobs
    ensures j in s.history
    ensures var h := s.history[j];
            && h.commits <= 2 && h.resolvedCommits <= 1 && h.requeues <= 1
            && h.commits <= 1 + h.requeues
            && s.t.jobs[j].attempts == h.claims + h.reclaims
            && s.t.jobs[j].attempts <= 4 + h.reclaims
  {
    ReachableOk(s);
  }

  /** Resolved, failed and cancelled jobs, resolved windows and spent signals stay so in every later state. */
  lemma Absorbing(s: System, steps: seq<Step>)
    requires Reachable(s)
    ensures var s' := Execute(s, steps);
            && (forall j :: j in s.t.jobs && Terminal(s.t.jobs[j].status) ==>
                  j in s'.t.jobs && s'.t.jobs[j] == s.t.jobs[j])
            && (forall j :: j in s.t.windows && s.t.windows[j].status == WinResolved ==>
                  j in s'.t.windows && s'.t.windows[j] == s.t.windows[j])
            && (forall x :: x in s.t.signals && s.t.signals[x].status != SigRecorded ==>
                  x in s'.t.signals && s'.t.signals[x].status != SigRecorded)
            && (forall p :: p in s.t.policies ==>
                  p in s'.t.policies && s.t.policies[p].revision <= s'.t.policies[p].revision)
  {
    ReachableOk(s);
    RunKeeps(s, steps);
    hide TablesInv, SystemInv;
  }

  /** A transaction that does not commit leaves no row behind, and one that does closes a live claim. */
  lemma CommitIsAllOrNothing(t: Tables, w: nat, run: Run, aborts: bool, h: JobHistory)
    requires RunOk(t.jobs, w, run) && run.Ready?
    ensures var next := JobStepOf(t, w, run, TryCommit(aborts));
            && (next.1.Committed? || next.1.Failing?)
            && (next.1.Failing? ==> next.0 == t)
            && (next.1.Committed? ==>
                  var before, after := t.jobs[run.job], next.0.jobs[run.job];
                  && !run.lost && before.status == Processing && before.worker == run.ctx.worker
                  && Held(before.leaseExpiresAt, t.now)
                  && after.status in {Resolved, Rejected} && after.attempts == before.attempts
                  && Observe(h, before, after).commits == h.commits + 1)
  {
    hide Commit;
  }

  /** While a job is closed no worker's transaction on it commits, whatever context it holds. */
  lemma ClosedJobTakesNoCommit(t: Tables, w: nat, run: Run, aborts: bool)
    requires run.Ready? && run.ctx.job in t.jobs && t.jobs[run.ctx.job].status != Processing
    ensures JobStepOf(t, w, run, TryCommit(aborts)).0 == t
  {
    hide Commit;
  }

  /** Each live job causes at most one execution call, and no other job causes any. */
  lemma AtMostOneExecution(s: System)
    requires Reachable(s)
    ensures forall x :: CallsOf(s, x) <= 1
    ensures forall x, y | CallsOf(s, x) > 0 && CallsOf(s, y) > 0 && x in s.t.signals && y in s.t.signals
              && s.t.signals[x].job == s.t.signals[y].job :: x == y
    ensures forall x :: CallsOf(s, x) > 0 ==>
              && x in s.t.signals && s.t.signals[x].job in s.t.jobs
              && s.t.jobs[s.t.signals[x].job].status == Resolved && s.t.jobs[s.t.signals[x].job].mode == Live
  {
    ReachableOk(s);
    hide JobTable, JobPolicies, WhitelistTable, Fence, HistoriesOk, WindowRunsOk, RunsOk;
  }

  /** The launch window's mode-change cancel names its own worker, which no job row ever does. */
  lemma WindowCancelChangesNothing(s: System, w: nat)
    requires Reachable(s)
    ensures Next(s, OfWindow(w, CancelItsJob)).t == s.t
  {
    ReachableOk(s);
    assert JobWorkers(s.t.jobs);
    hide TablesInv, HistoriesOk, WindowRunsOk, RunsOk, CallsOk;
  }

  /** The fence does not stop a job of a superseded revision from being enqueued late and claimed. */
  lemma StaleJobClaimed(c1: Config, c2: Config)
    requires c1 != c2 && c1.mode == Record && c1.enabled && 0 in c1.events && c2.mode == Record
    ensures exists s :: Reachable(s) && 0 in s.t.jobs && 0 in s.t.policies
              && s.t.jobs[0].status == Processing && s.t.jobs[0].revision < s.t.policies[0].revision
  {
    var flags := Flags(true, true, false, false);
    var s1 := Next(Start, EditPolicy(0, c1));
    var s2 := Next(s1, EditPolicy(0, c2));
    var s3 := Next(s2, EnqueueOne(7, 0, 0, Policy(1, c1), flags));
    var s4 := Next(s3, OfWorker(0, ClaimNext(0)));
    assert s1.t == UpsertPolicy(Empty, 0, c1) && s2.t == UpsertPolicy(s1.t, 0, c2);
    assert WasRead(s2.t, 0, Policy(1, c1)) && s2.t.jobIndex == map[] by { EditedTwice(c1, c2); }
    assert s3.t == Enqueue(s2.t, 7, 0, 0, Policy(1, c1), flags) && s3.runs == map[];
    EditedTwice(c1, c2);
    hide UpsertPolicy, HistoryAfter, Execute, WindowStepOf, LiveStepOf;
    EnqueuedLate(s2.t, c1, flags);
    assert s4.t == JobStepOf(s3.t, 0, Idle, ClaimNext(0)).0;
    assert s4.t.jobs[0].status == Processing && s4.t.policies == s2.t.policies;
    FourSteps(Start, EditPolicy(0, c1), EditPolicy(0, c2), EnqueueOne(7, 0, 0, Policy(1, c1), flags),
              OfWorker(0, ClaimNext(0)));
    assert Reachable(s4);
  }

  lemma EditedTwice(c1: Config, c2: Config)
    requires c1 != c2 && c1.mode == Record && c2.mode == Record
    ensures var t := UpsertPolicy(UpsertPolicy(Empty, 0, c1), 0, c2);
            t.policies == map[0 := Policy(2, c2)] && t.jobIndex == map[] && t.now == 0 && t.nextJob == 0
  {
    var t1 := UpsertPolicy(Empty, 0, c1);
    assert t1.policies == map[0 := Policy(1, c1)];
  }

  lemma EnqueuedLate(t: Tables, c1: Config, flags: Flags)
    requires t.jobIndex == map[] && t.now == 0 && t.nextJob == 0
    requires flags.resolution && flags.record && c1.mode == Record && c1.enabled && 0 in c1.events
    ensures var t' := Enqueue(t, 7, 0, 0, Policy(1, c1), flags);
            Claimable(t', 0) && t'.jobs[0].revision == 1 && t'.policies == t.policies
  {
  }

  lemma FourSteps(s: System, a: Step, b: Step, c: Step, d: Step)
    ensures Execute(s, [a, b, c, d]) == Next(Next(Next(Next(s, a), b), c), d)
  {
    var s1 := Next(s, a);
    var s2 := Next(s1, b);
    var s3 := Next(s2, c);
    hide Next;
    assert [a, b, c, d][1..] == [b, c, d] && [b, c, d][1..] == [c, d] && [c, d][1..] == [d] && [d][1..] == [];
    assert Execute(s3, [d]) == Execute(Next(s3, d), []);
    assert Execute(s2, [c, d]) == Execute(s3, [d]);
    assert Execute(s1, [b, c, d]) == Execute(s2, [c, d]);
  }
}
