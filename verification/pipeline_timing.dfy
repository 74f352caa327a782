/**
 When things happen to a job: claims last a minute, failed attempts wait before the next, no job is
 ever stuck, and who besides the claiming worker may write a claimed row.
*/
module PipelineTiming {
  import opened Wrappers
  import opened PipelineTables
  import opened PipelineInvariants
  import opened PipelineProtocol
  import opened PipelineSafety

  // ----- what a step may do to one row, and when -----

  predicate TakenAt(a: Job, b: Job, now: int) {
    && (|| (a.status == Pending && a.nextAttemptAt <= now)
        || (a.status == Processing && a.leaseExpiresAt.Some? && a.leaseExpiresAt.value < now))
    && b.status == Processing && b.attempts == a.attempts + 1
    && b.leaseExpiresAt == Some(now + 60_000) && b.nextAttemptAt == a.nextAttemptAt
  }

  predicate RenewedAt(a: Job, b: Job, now: int) {
    && a.status == Processing && b == a.(leaseExpiresAt := Some(now + 60_000))
    && (a.leaseExpiresAt.Some? ==> a.leaseExpiresAt.value > now)
  }

  predicate RetriedAt(a: Job, b: Job, now: int) {
    && a.status == Processing && b.status == Pending && b.attempts == a.attempts && a.attempts < 3
    && b.nextAttemptAt == now + 15_000 && b.leaseExpiresAt.None?
  }

  predicate ReopenedAt(a: Job, b: Job, now: int) {
    && a.status == Rejected && b.status == Pending && b.attempts == a.attempts
    && b.nextAttemptAt == now && b.leaseExpiresAt == a.leaseExpiresAt
  }

  predicate Ended(a: Job, b: Job) {
    && a.status in {Pending, Processing, Rejected} && b.status in {Resolved, Rejected, Failed, Cancelled}
    && b.attempts == a.attempts && b.leaseExpiresAt.None?
    && (b.status != Cancelled ==> a.status == Processing) && (b.status == Failed ==> a.attempts >= 3)
  }

  predicate Timed(a: Job, b: Job, now: int) {
    b == a || TakenAt(a, b, now) || RenewedAt(a, b, now) || RetriedAt(a, b, now) || ReopenedAt(a, b, now) || Ended(a, b)
  }

  ghost predicate JobsTimed(a: Jobs, b: Jobs, now: int) {
    && (forall j :: j in a ==> j in b && Timed(a[j], b[j], now))
    && (forall j :: j in b && j !in a ==> b[j].status == Pending && b[j].nextAttemptAt == now && b[j].leaseExpiresAt.None?)
  }

  lemma SameTimed(jobs: Jobs, now: int)
    ensures JobsTimed(jobs, jobs, now)
  {
  }

  lemma OneTimed(jobs: Jobs, j: JobId, b: Job, now: int)
    requires j in jobs && Timed(jobs[j], b, now)
    ensures JobsTimed(jobs, jobs[j := b], now)
  {
  }

  lemma QueueTimed(t: Tables, w: WorkerId, j: JobId)
    ensures Claimable(t, j) ==> JobsTimed(t.jobs, ClaimJob(t, w, j).jobs, t.now)
    ensures JobsTimed(t.jobs, RenewJob(t, j, w).jobs, t.now)
  {
    hide JobsTimed;
    SameTimed(t.jobs, t.now);
    if Claimable(t, j) {
      assert TakenAt(t.jobs[j], ClaimJob(t, w, j).jobs[j], t.now);
      OneTimed(t.jobs, j, ClaimJob(t, w, j).jobs[j], t.now);
    }
    if Renewable(t, j, w) {
      assert RenewedAt(t.jobs[j], RenewJob(t, j, w).jobs[j], t.now);
      OneTimed(t.jobs, j, RenewJob(t, j, w).jobs[j], t.now);
    }
  }

  lemma RequeueTimed(t: Tables, w: WorkerId, j: JobId)
    ensures JobsTimed(t.jobs, RequeueJob(t, j, w).jobs, t.now)
  {
    hide JobsTimed;
    SameTimed(t.jobs, t.now);
    if Requeueable(t, j, w) { OneTimed(t.jobs, j, RequeueJob(t, j, w).jobs[j], t.now); }
  }

  lemma CancelTimed(t: Tables, j: JobId, code: string, w: WorkerId)
    ensures JobsTimed(t.jobs, CancelJob(t, j, code, Some(w)).jobs, t.now)
  {
    hide JobsTimed;
    SameTimed(t.jobs, t.now);
    if Cancellable(t, j, Some(w)) { OneTimed(t.jobs, j, CancelJob(t, j, code, Some(w)).jobs[j], t.now); }
  }

  lemma FailTimed(t: Tables, j: JobId, count: nat, code: string, w: WorkerId)
    requires j in t.jobs && t.jobs[j].status == Processing && t.jobs[j].worker == Some(w) ==> t.jobs[j].attempts == count
    ensures JobsTimed(t.jobs, FailJob(t, j, count, code, Some(w)).jobs, t.now)
  {
    hide JobsTimed;
    SameTimed(t.jobs, t.now);
    if Failable(t, j, Some(w)) { OneTimed(t.jobs, j, FailJob(t, j, count, code, Some(w)).jobs[j], t.now); }
  }

  lemma CommitTimed(t: Tables, ctx: Context, result: Resolution)
    requires Commit(t, ctx, result).Some?
    ensures JobsTimed(t.jobs, Commit(t, ctx, result).value.jobs, t.now)
  {
    hide JobsTimed, Commit;
    OneTimed(t.jobs, ctx.job, CloseJob(t, ctx, result).jobs[ctx.job], t.now);
  }

  lemma EditTimed(t: Tables, p: PolicyId, config: Config)
    ensures JobsTimed(t.jobs, UpsertPolicy(t, p, config).jobs, t.now)
    ensures JobsTimed(t.jobs, RemovePolicy(t, p).jobs, t.now)
  {
    hide JobsTimed, CancelJobs;
    SameTimed(t.jobs, t.now);
    if p in t.policies {
      WithdrawalTimed(t.jobs, p, Some(t.policies[p].revision + 1), "DYNAMIC_POLICY_CHANGED", t.now);
      WithdrawalTimed(t.jobs, p, None, "DYNAMIC_POLICY_REMOVED", t.now);
    }
  }

  lemma WithdrawalTimed(jobs: Jobs, p: PolicyId, kept: Option<nat>, code: string, now: int)
    ensures JobsTimed(jobs, CancelJobs(jobs, p, kept, code), now)
  {
  }

  lemma EnqueueTimed(t: Tables, activity: ActivityId, e: EventType, p: PolicyId, row: Policy, flags: Flags)
    requires JobTable(t.jobs, t.jobIndex, t.nextJob)
    ensures JobsTimed(t.jobs, Enqueue(t, activity, e, p, row, flags).jobs, t.now)
  {
  }

  lemma WorkerTimed(t: Tables, w: nat, run: Run, step: JobStep)
    requires RunOk(t.jobs, w, run)
    ensures JobsTimed(t.jobs, JobStepOf(t, w, run, step).0.jobs, t.now)
  {
    hide JobsTimed, Commit, CancelJob, ClaimJob, RenewJob, FailJob;
    SameTimed(t.jobs, t.now);
    var me := SignalWorker(w);
    match step
    case ClaimNext(j) => QueueTimed(t, me, j);
    case TryCommit(aborts) => if run.Ready? && Commit(t, run.ctx, run.result).Some? { CommitTimed(t, run.ctx, run.result); }
    case Renew => if !run.Idle? { QueueTimed(t, me, run.job); }
    case LateRenew(j) => QueueTimed(t, me, j);
    case Fail => if run.Failing? { FailTimed(t, run.job, run.count, run.code, me); }
    case Load => if run.Claimed? { CancelTimed(t, run.job, POLICY_CHANGED, me); }
    case Check(flags) =>
      if run.Loaded? {
        CancelTimed(t, run.job, POLICY_CHANGED, me);
        CancelTimed(t, run.job, MODE_CHANGED, me);
      }
    case Resolve(flags, result) => if run.Checked? { CancelTimed(t, run.job, MODE_CHANGED, me); }
    case _ =>
  }

  lemma WindowTimed(t: Tables, w: nat, run: WindowRun, step: WindowStep)
    ensures JobsTimed(t.jobs, WindowStepOf(t, w, run, step).0.jobs, t.now)
  {
    hide JobsTimed, CancelJob, RequeueJob;
    SameTimed(t.jobs, t.now);
    if !run.WinIdle? {
      CancelTimed(t, run.job, MODE_CHANGED, LaunchWorker(w));
      RequeueTimed(t, LaunchWorker(w), run.job);
    }
  }

  /** Every step moves every job row as one of these, at the time it happens. */
  lemma StepIsTimed(s: System, step: Step)
    requires TablesInv(s.t) && RunsOk(s)
    ensures JobsTimed(s.t.jobs, TablesAfter(s, step).jobs, s.t.now)
  {
    assert JobTable(s.t.jobs, s.t.jobIndex, s.t.nextJob);
    hide JobsTimed, JobStepOf, WindowStepOf, Enqueue, TablesInv, JobTable, UpsertPolicy, RemovePolicy, LiveStepOf;
    SameTimed(s.t.jobs, s.t.now);
    if !TouchesJobs(step) {
      OthersKeepJobs(s, step);
      hide TablesAfter;
    } else {
      match step
      case OfWorker(w, js) => WorkerTimed(s.t, w, RunOf(s, w), js);
      case OfWindow(w, ws) => WindowTimed(s.t, w, WindowRunOf(s, w), ws);
      case EditPolicy(p, config) => EditTimed(s.t, p, config);
      case DropPolicy(p) => EditTimed(s.t, p, Config(Paused, false, {}, map[], 0));
      case EnqueueOne(activity, e, p, row, flags) => EnqueueTimed(s.t, activity, e, p, row, flags);
    }
  }

  // ----- no job is stuck -----

  /** A claimed job has a lease of a minute at most, any other none, and nobody waits longer than fifteen seconds. */
  predicate RowInTime(job: Job, now: int) {
    && (job.leaseExpiresAt.Some? <==> job.status == Processing)
    && (job.status == Processing ==> job.leaseExpiresAt.value <= now + 60_000)
    && (job.status == Pending ==> job.nextAttemptAt <= now + 15_000)
  }

  ghost predicate InTime(jobs: Jobs, now: int) {
    forall j :: j in jobs ==> RowInTime(jobs[j], now)
  }

  lemma TimedStaysInTime(a: Jobs, b: Jobs, now: int, later: int)
    requires InTime(a, now) && JobsTimed(a, b, now) && now <= later
    ensures InTime(b, later)
  {
  }

  lemma StepStaysInTime(s: System, step: Step)
    requires SystemInv(s) && InTime(s.t.jobs, s.t.now)
    ensures InTime(Next(s, step).t.jobs, Next(s, step).t.now) && SystemInv(Next(s, step)) && s.t.now <= Next(s, step).t.now
  {
    StepIsTimed(s, step);
    StepKeeps(s, step);
    hide SystemInv, TablesAfter, HistoryAfter, InTime, JobsTimed;
    TimedStaysInTime(s.t.jobs, Next(s, step).t.jobs, s.t.now, Next(s, step).t.now);
  }

  lemma {:induction false} RunStaysInTime(s: System, steps: seq<Step>)
    requires SystemInv(s) && InTime(s.t.jobs, s.t.now)
    ensures InTime(Execute(s, steps).t.jobs, Execute(s, steps).t.now) && SystemInv(Execute(s, steps))
    decreases |steps|
  {
    if steps != [] {
      StepStaysInTime(s, steps[0]);
      hide SystemInv, InTime, Next;
      RunStaysInTime(Next(s, steps[0]), steps[1..]);
    }
  }

  lemma ReachableInTime(s: System)
    requires Reachable(s)
    ensures InTime(s.t.jobs, s.t.now) && SystemInv(s)
  {
    var steps :| s == Execute(Start, steps);
    StartOk();
    hide SystemInv, Execute;
    RunStaysInTime(Start, steps);
  }

  /** Whatever happened, a job that is not closed can be claimed once a minute has passed without a renewal. */
  lemma NoJobIsStuck(s: System, j: JobId, ms: nat)
    requires Reachable(s) && j in s.t.jobs && s.t.jobs[j].status in {Pending, Processing} && ms > 60_000
    ensures Claimable(Next(s, Tick(ms)).t, j)
  {
    ReachableInTime(s);
    assert RowInTime(s.t.jobs[j], s.t.now);
    hide Reachable, SystemInv, HistoryAfter;
  }

  // ----- a claim lasts -----

  /** A job that is processing is not up for another claim before this time. */
  predicate HeldUntil(job: Job, until: int) {
    job.status == Processing ==> job.leaseExpiresAt.Some? && job.leaseExpiresAt.value >= until
  }

  lemma HeldStep(s: System, step: Step, j: JobId, until: int)
    requires SystemInv(s) && InTime(s.t.jobs, s.t.now) && j in s.t.jobs && HeldUntil(s.t.jobs[j], until)
    requires s.t.now <= until <= s.t.now + 60_000
    ensures var after := Next(s, step);
            && j in after.t.jobs && HeldUntil(after.t.jobs[j], until)
            && j in s.history && j in after.history && after.history[j].reclaims == s.history[j].reclaims
  {
    StepIsTimed(s, step);
    assert CountersFit(s.t.jobs, s.history);
    assert Timed(s.t.jobs[j], TablesAfter(s, step).jobs[j], s.t.now) && RowInTime(s.t.jobs[j], s.t.now);
    hide SystemInv, TablesAfter, InTime, JobsTimed, Timed, RowInTime, Observe, HeldUntil;
    HeldRow(s.t.jobs[j], TablesAfter(s, step).jobs[j], s.t.now, until, s.history[j]);
  }

  lemma HeldRow(a: Job, b: Job, now: int, until: int, h: JobHistory)
    requires Timed(a, b, now) && RowInTime(a, now) && HeldUntil(a, until) && now <= until <= now + 60_000
    ensures HeldUntil(b, until) && Observe(h, a, b).reclaims == h.reclaims
  {
  }

  /** Until the lease of a claimed job runs out, whatever happens, nobody takes the job over. */
  lemma {:induction false} NoTakeoverBefore(s: System, steps: seq<Step>, j: JobId, until: int)
    requires SystemInv(s) && InTime(s.t.jobs, s.t.now) && j in s.t.jobs && HeldUntil(s.t.jobs[j], until)
    requires until <= s.t.now + 60_000 && Execute(s, steps).t.now <= until
    ensures j in s.history && j in Execute(s, steps).history
    ensures Execute(s, steps).history[j].reclaims == s.history[j].reclaims
    decreases |steps|
  {
    RunKeeps(s, steps);
    assert s.t.now <= Execute(s, steps).t.now && CountersFit(s.t.jobs, s.history);
    if steps != [] {
      HeldStep(s, steps[0], j, until);
      StepStaysInTime(s, steps[0]);
      hide SystemInv, InTime, Next, HeldUntil, Evolves;
      NoTakeoverBefore(Next(s, steps[0]), steps[1..], j, until);
    }
  }

  lemma ClaimedRow(s: System, w: nat, j: JobId)
    requires RunOf(s, w).Idle? && Claimable(s.t, j)
    ensures var claimed := Next(s, OfWorker(w, ClaimNext(j)));
            && claimed.t.now == s.t.now && j in claimed.t.jobs && claimed.t.jobs[j].worker == Some(SignalWorker(w))
            && HeldUntil(claimed.t.jobs[j], s.t.now + 60_000)
  {
    hide HistoryAfter;
  }

  lemma RenewedRow(s: System, w: nat, j: JobId)
    requires Renewable(s.t, j, SignalWorker(w))
    ensures var renewed := Next(s, OfWorker(w, LateRenew(j)));
            && renewed.t.now == s.t.now && j in renewed.t.jobs && HeldUntil(renewed.t.jobs[j], s.t.now + 60_000)
  {
    hide HistoryAfter;
  }

  /** In the minute after a claim no other worker takes the job over, over every run. */
  lemma ClaimLastsAMinute(s: System, w: nat, j: JobId, steps: seq<Step>)
    requires Reachable(s) && RunOf(s, w).Idle? && Claimable(s.t, j)
    requires Execute(Next(s, OfWorker(w, ClaimNext(j))), steps).t.now <= s.t.now + 60_000
    ensures var claimed := Next(s, OfWorker(w, ClaimNext(j)));
            && claimed.t.jobs[j].worker == Some(SignalWorker(w)) && j in claimed.history
            && j in Execute(claimed, steps).history
            && Execute(claimed, steps).history[j].reclaims == claimed.history[j].reclaims
  {
    hide SystemInv, InTime, Execute, Reachable;
    ReachableInTime(s);
    var claimed := Next(s, OfWorker(w, ClaimNext(j)));
    ClaimedRow(s, w, j);
    StepStaysInTime(s, OfWorker(w, ClaimNext(j)));
    hide Next, Claimable;
    NoTakeoverBefore(claimed, steps, j, s.t.now + 60_000);
  }

  /** A renewal by the claiming worker makes it a minute from then. */
  lemma RenewalLastsAMinute(s: System, w: nat, j: JobId, steps: seq<Step>)
    requires Reachable(s) && j in s.t.jobs && s.t.jobs[j].status == Processing
    requires s.t.jobs[j].worker == Some(SignalWorker(w))
    requires s.t.jobs[j].leaseExpiresAt.Some? && s.t.jobs[j].leaseExpiresAt.value > s.t.now
    requires Execute(Next(s, OfWorker(w, LateRenew(j))), steps).t.now <= s.t.now + 60_000
    ensures var renewed := Next(s, OfWorker(w, LateRenew(j)));
            && j in renewed.history && j in Execute(renewed, steps).history
            && Execute(renewed, steps).history[j].reclaims == renewed.history[j].reclaims
  {
    hide SystemInv, InTime, Execute, Reachable;
    ReachableInTime(s);
    var renewed := Next(s, OfWorker(w, LateRenew(j)));
    RenewedRow(s, w, j);
    StepStaysInTime(s, OfWorker(w, LateRenew(j)));
    hide Next;
    NoTakeoverBefore(renewed, steps, j, s.t.now + 60_000);
  }

  // ----- a failed attempt waits -----

  /** Not before this time, or never again. */
  predicate RestsUntil(job: Job, attempts: nat, until: int) {
    job.attempts == attempts && ((job.status == Pending && job.nextAttemptAt >= until) || Terminal(job.status))
  }

  lemma RestStep(s: System, step: Step, j: JobId, attempts: nat, until: int)
    requires SystemInv(s) && j in s.t.jobs && RestsUntil(s.t.jobs[j], attempts, until) && s.t.now < until
    ensures j in Next(s, step).t.jobs && RestsUntil(Next(s, step).t.jobs[j], attempts, until)
  {
    StepIsTimed(s, step);
    StepKeeps(s, step);
    assert JobsEvolve(s.t.jobs, Next(s, step).t.jobs);
    assert Timed(s.t.jobs[j], TablesAfter(s, step).jobs[j], s.t.now);
    hide SystemInv, TablesAfter, HistoryAfter, JobsTimed, Evolves, Timed, RestsUntil;
    RestRow(s.t.jobs[j], TablesAfter(s, step).jobs[j], s.t.now, attempts, until);
  }

  lemma RestRow(a: Job, b: Job, now: int, attempts: nat, until: int)
    requires Timed(a, b, now) && RestsUntil(a, attempts, until) && now < until && (Terminal(a.status) ==> b == a)
    ensures RestsUntil(b, attempts, until)
  {
  }

  lemma {:induction false} RestsThrough(s: System, steps: seq<Step>, j: JobId, attempts: nat, until: int)
    requires SystemInv(s) && j in s.t.jobs && RestsUntil(s.t.jobs[j], attempts, until)
    requires Execute(s, steps).t.now < until
    ensures j in Execute(s, steps).t.jobs && RestsUntil(Execute(s, steps).t.jobs[j], attempts, until)
    decreases |steps|
  {
    RunKeeps(s, steps);
    assert s.t.now <= Execute(s, steps).t.now;
    if steps != [] {
      RestStep(s, steps[0], j, attempts, until);
      StepKeeps(s, steps[0]);
      hide SystemInv, Next, RestsUntil, Evolves;
      RestsThrough(Next(s, steps[0]), steps[1..], j, attempts, until);
    }
  }

  lemma FailedRow(a: Job, b: Job, now: int)
    requires Timed(a, b, now) && a.status == Processing && b.status in {Pending, Failed}
    ensures b.status == if a.attempts < 3 then Pending else Failed
    ensures b.status == Pending ==> RestsUntil(b, a.attempts, now + 15_000)
  {
  }

  /**
   A failed attempt puts the job back while it was claimed fewer than three times, and then nobody
   claims it for fifteen seconds, over every run; otherwise the job has failed for good.
  */
  lemma FailureWaits(s: System, step: Step, steps: seq<Step>, j: JobId)
    requires Reachable(s) && j in s.t.jobs && s.t.jobs[j].status == Processing
    requires j in Next(s, step).t.jobs && Next(s, step).t.jobs[j].status in {Pending, Failed}
    ensures Next(s, step).t.jobs[j].status == if s.t.jobs[j].attempts < 3 then Pending else Failed
    ensures Next(s, step).t.jobs[j].status == Pending && Execute(Next(s, step), steps).t.now < s.t.now + 15_000 ==>
              && j in Execute(Next(s, step), steps).t.jobs
              && Execute(Next(s, step), steps).t.jobs[j].attempts == s.t.jobs[j].attempts
  {
    ReachableInTime(s);
    StepIsTimed(s, step);
    StepKeeps(s, step);
    assert Timed(s.t.jobs[j], TablesAfter(s, step).jobs[j], s.t.now);
    var after := Next(s, step);
    hide SystemInv, TablesAfter, HistoryAfter, JobsTimed, InTime, Reachable, Evolves, Execute, Timed, RestsUntil;
    FailedRow(s.t.jobs[j], after.t.jobs[j], s.t.now);
    if after.t.jobs[j].status == Pending && Execute(after, steps).t.now < s.t.now + 15_000 {
      RestsThrough(after, steps, j, s.t.jobs[j].attempts, s.t.now + 15_000);
    }
  }

  /** A failing worker writes its error to the job it still has, and to nothing else. */
  lemma FailsExactly(s: System, w: nat)
    requires Reachable(s) && RunOf(s, w).Failing?
    ensures RunOf(s, w).job in s.t.jobs
    ensures var run, job := RunOf(s, w), s.t.jobs[RunOf(s, w).job];
            Next(s, OfWorker(w, Fail)).t == if job.status != Processing || job.worker != Some(SignalWorker(w)) then s.t
              else s.t.(jobs := s.t.jobs[run.job := job.(
                status := if job.attempts < 3 then Pending else Failed,
                nextAttemptAt := if job.attempts < 3 then s.t.now + 15_000 else job.nextAttemptAt,
                failureCode := run.code, leaseExpiresAt := None)])
  {
    ReachableOk(s);
    assert RunOk(s.t.jobs, w, s.runs[w]);
    hide Reachable, SystemInv, RunsOk, ContextOk, HistoryAfter, Commit, CheckContext, Claimable, LoadContext, EffectiveMode;
  }

  /** The worker gives the job up, if the row still names it; a closed job other than a rejected one stays. */
  predicate GivenUp(a: Tables, b: Tables, j: JobId, w: nat, code: string) {
    b == if j in a.jobs && a.jobs[j].worker == Some(SignalWorker(w)) && !Terminal(a.jobs[j].status)
         then a.(jobs := a.jobs[j := a.jobs[j].(status := Cancelled, failureCode := code, leaseExpiresAt := None)]) else a
  }

  /** The mode is still the policy's, and it may run under these flags. */
  predicate StillRuns(ctx: Context, flags: Flags) {
    && ctx.configuredMode == ctx.mode && flags.resolution && flags.record
    && (ctx.mode == Record || (ctx.mode == Paper && flags.paper) || (ctx.mode == Live && flags.live))
  }

  /** What a worker checks of the row it loaded, in order: the policy, its mode under the flags, and the event. */
  lemma ChecksExactly(s: System, w: nat, flags: Flags)
    requires RunOf(s, w).Loaded?
    ensures var run, after := RunOf(s, w), Next(s, OfWorker(w, Check(flags)));
            if !run.ctx.policyEnabled || run.ctx.revision != run.ctx.currentRevision
            then GivenUp(s.t, after.t, run.job, w, "DYNAMIC_POLICY_CHANGED") && RunOf(after, w) == Idle
            else if !StillRuns(run.ctx, flags)
            then GivenUp(s.t, after.t, run.job, w, "DYNAMIC_RUNTIME_MODE_CHANGED") && RunOf(after, w) == Idle
            else if run.ctx.eventType !in run.ctx.allowedEvents
            then after.t == s.t && RunOf(after, w) == Failing(run.job, run.count, "DYNAMIC_EVENT_NOT_ALLOWED")
            else after.t == s.t && RunOf(after, w) == Checked(run.job, run.count, run.lost, run.ctx)
  {
    CancelGivesUp(s.t, RunOf(s, w).job, w, "DYNAMIC_POLICY_CHANGED");
    CancelGivesUp(s.t, RunOf(s, w).job, w, "DYNAMIC_RUNTIME_MODE_CHANGED");
    assert EffectiveMode(RunOf(s, w).ctx.configuredMode, flags) == Some(RunOf(s, w).ctx.mode)
      <==> StillRuns(RunOf(s, w).ctx, flags);
    hide HistoryAfter, CancelJob, GivenUp, EffectiveMode, StillRuns;
  }

  lemma CancelGivesUp(t: Tables, j: JobId, w: nat, code: string)
    ensures GivenUp(t, CancelJob(t, j, code, Some(SignalWorker(w))), j, w, code)
  {
  }

  // ----- who writes a claimed row -----

  /** The worker's transaction would close this job under the claim that its context was loaded with. */
  predicate ClosesWith(s: System, v: nat, step: JobStep, j: JobId) {
    && step == TryCommit(false) && RunOf(s, v).Ready? && !RunOf(s, v).lost
    && RunOf(s, v).ctx.job == j && j in s.t.jobs && RunOf(s, v).ctx.worker.Some? && RunOf(s, v).ctx.worker == s.t.jobs[j].worker
    && (RunOf(s, v).result.ResolvedTo? && Materializes(RunOf(s, v).ctx.mode) ==>
          TargetAllowed(s.t, RunOf(s, v).ctx, RunOf(s, v).result.selected))
  }

  /**
   While a job's lease runs, another worker's step changes its row in one case only: its own commit,
   with a context that it loaded when the job was already claimed by the worker that has it now.
  */
  lemma ForeignWritesExactly(s: System, v: nat, step: JobStep, j: JobId)
    requires HeldByOther(s.t, SignalWorker(v), j)
    ensures j in Next(s, OfWorker(v, step)).t.jobs
    ensures Next(s, OfWorker(v, step)).t.jobs[j] != s.t.jobs[j] <==> ClosesWith(s, v, step, j)
  {
    hide HistoryAfter, JobStepOf, ClosesWith;
    ForeignRow(s.t, SignalWorker(v), j);
    ForeignStep(s, v, step, j);
  }

  lemma ForeignStep(s: System, v: nat, step: JobStep, j: JobId)
    requires HeldByOther(s.t, SignalWorker(v), j)
    ensures j in JobStepOf(s.t, v, RunOf(s, v), step).0.jobs
    ensures JobStepOf(s.t, v, RunOf(s, v), step).0.jobs[j] != s.t.jobs[j] <==> ClosesWith(s, v, step, j)
  {
    var me, run := SignalWorker(v), RunOf(s, v);
    hide Commit, CancelJob, FailJob, RenewJob, ClaimJob, Claimable, TargetAllowed, HeldByOther, EffectiveMode, LoadContext;
    ForeignRow(s.t, me, j);
    match step
    case TryCommit(aborts) => if run.Ready? { ForeignCommits(s.t, run, j); }
    case ClaimNext(i) => ForeignClaim(s.t, me, i, j);
    case LateRenew(i) => ForeignStatements(s.t, me, i, 0, "", j);
    case _ =>
      if !run.Idle? {
        ForeignStatements(s.t, me, run.job, 0, POLICY_CHANGED, j);
        ForeignStatements(s.t, me, run.job, 0, MODE_CHANGED, j);
        if run.Failing? { ForeignStatements(s.t, me, run.job, run.count, run.code, j); }
      }
  }

  /** The job is claimed, by somebody else, and its lease runs. */
  predicate HeldByOther(t: Tables, me: WorkerId, j: JobId) {
    && j in t.jobs && t.jobs[j].status == Processing && t.jobs[j].worker != Some(me)
    && t.jobs[j].leaseExpiresAt.Some? && t.jobs[j].leaseExpiresAt.value > t.now
  }

  lemma ForeignRow(t: Tables, me: WorkerId, j: JobId)
    requires HeldByOther(t, me, j)
    ensures j in t.jobs && t.jobs[j].status == Processing
    ensures t.jobs[j].leaseExpiresAt.Some? && t.jobs[j].leaseExpiresAt.value > t.now
  {
  }

  lemma ForeignClaim(t: Tables, me: WorkerId, i: JobId, j: JobId)
    requires HeldByOther(t, me, j)
    ensures j in t.jobs
    ensures Claimable(t, i) ==> j in ClaimJob(t, me, i).jobs && ClaimJob(t, me, i).jobs[j] == t.jobs[j]
  {
  }

  /** What a worker does to the queue under its own name leaves a job alone that another has. */
  lemma ForeignStatements(t: Tables, me: WorkerId, i: JobId, count: nat, code: string, j: JobId)
    requires HeldByOther(t, me, j)
    ensures j in t.jobs
    ensures j in CancelJob(t, i, code, Some(me)).jobs && CancelJob(t, i, code, Some(me)).jobs[j] == t.jobs[j]
    ensures j in FailJob(t, i, count, code, Some(me)).jobs && FailJob(t, i, count, code, Some(me)).jobs[j] == t.jobs[j]
    ensures j in RenewJob(t, i, me).jobs && RenewJob(t, i, me).jobs[j] == t.jobs[j]
  {
    ForeignCancel(t, me, i, code, j);
    ForeignFail(t, me, i, count, code, j);
    ForeignRenew(t, me, i, j);
    hide CancelJob, FailJob, RenewJob, HeldByOther;
  }

  lemma ForeignCancel(t: Tables, me: WorkerId, i: JobId, code: string, j: JobId)
    requires HeldByOther(t, me, j)
    ensures j in t.jobs && j in CancelJob(t, i, code, Some(me)).jobs && CancelJob(t, i, code, Some(me)).jobs[j] == t.jobs[j]
  {
  }

  lemma ForeignFail(t: Tables, me: WorkerId, i: JobId, count: nat, code: string, j: JobId)
    requires HeldByOther(t, me, j)
    ensures j in t.jobs && j in FailJob(t, i, count, code, Some(me)).jobs
    ensures FailJob(t, i, count, code, Some(me)).jobs[j] == t.jobs[j]
  {
    hide AfterFailure;
    if i == j { assert !Failable(t, j, Some(me)); }
  }

  lemma ForeignRenew(t: Tables, me: WorkerId, i: JobId, j: JobId)
    requires HeldByOther(t, me, j)
    ensures j in t.jobs && j in RenewJob(t, i, me).jobs && RenewJob(t, i, me).jobs[j] == t.jobs[j]
  {
  }

  lemma ForeignCommits(t: Tables, run: Run, j: JobId)
    requires j in t.jobs && t.jobs[j].status == Processing && run.Ready?
    requires t.jobs[j].leaseExpiresAt.Some? && t.jobs[j].leaseExpiresAt.value > t.now
    ensures var after := Commit(t, run.ctx, run.result);
            && (after.Some? ==> j in after.value.jobs)
            && (after.Some? && after.value.jobs[j] != t.jobs[j] <==>
                  && run.ctx.job == j && run.ctx.worker.Some? && run.ctx.worker == t.jobs[j].worker
                  && (run.result.ResolvedTo? && Materializes(run.ctx.mode) ==> TargetAllowed(t, run.ctx, run.result.selected)))
  {
    hide Closed, WriteSignal, TargetAllowed;
  }

  /** A renewal that reaches the row in between finds the claim gone, and then the commit is not made. */
  lemma RenewalFindsOut(s: System, v: nat, j: JobId)
    requires Reachable(s) && HeldByOther(s.t, SignalWorker(v), j)
    ensures !ClosesWith(Next(s, OfWorker(v, Renew)), v, TryCommit(false), j)
  {
    ReachableOk(s);
    assert RunsOk(s);
    hide Reachable, SystemInv, HistoryAfter, ContextOk, TargetAllowed, Commit, CheckContext, RollbackCode, EffectiveMode, Claimable;
    assert !Renewable(s.t, j, SignalWorker(v));
    if v in s.runs { assert RunOk(s.t.jobs, v, s.runs[v]); }
    hide RunsOk, Renewable, RenewJob;
  }

  // ----- a worker that commits under another's claim -----

  lemma {:induction false} ExecuteSum(s: System, a: seq<Step>, b: seq<Step>)
    ensures Execute(s, a + b) == Execute(Execute(s, a), b)
    decreases |a|
  {
    if a == [] {
      assert a + b == b;
    } else {
      assert (a + b)[1..] == a[1..] + b && (a + b)[0] == a[0];
      hide Next;
      ExecuteSum(Next(s, a[0]), a[1..], b);
    }
  }

  /** One record policy with one pending job, and nobody at work yet. */
  predicate Seeded(s: System, c: Config) {
    && s.t.now == 0 && s.t.policies == map[0 := Policy(1, c)] && s.runs == map[]
    && s.t.jobs == map[0 := Job(7, 0, 0, 1, Record, Pending, 0, 0, None, None, "")]
  }

  const RECORDING := Flags(true, true, false, false)

  lemma SeedIsPlanted(c: Config)
    requires c.mode == Record && c.enabled && 0 in c.events
    ensures Seeded(Next(Next(Start, EditPolicy(0, c)), EnqueueOne(7, 0, 0, Policy(1, c), RECORDING)), c)
  {
    var s1 := Next(Start, EditPolicy(0, c));
    assert s1.t == UpsertPolicy(Empty, 0, c) && s1.t.policies == map[0 := Policy(1, c)] && s1.t.jobIndex == map[];
    assert s1.runs == map[];
    hide HistoryAfter;
    var s2 := Next(s1, EnqueueOne(7, 0, 0, Policy(1, c), RECORDING));
    assert s2.t == Enqueue(s1.t, 7, 0, 0, Policy(1, c), RECORDING);
  }

  /** The first worker's claim ran out before it loaded the job, and a second worker has claimed it. */
  predicate Overtaken(s: System, c: Config) {
    && s.t.now == 60_001 && s.t.policies == map[0 := Policy(1, c)]
    && s.t.jobs == map[0 := Job(7, 0, 0, 1, Record, Processing, 2, 0, Some(SignalWorker(1)), Some(120_001), "")]
    && RunOf(s, 0) == Claimed(0, 1, false)
  }

  /** A minute and a millisecond after the first worker's claim. */
  predicate RunOut(s: System, c: Config) {
    && s.t.now == 60_001 && s.t.policies == map[0 := Policy(1, c)] && s.runs == map[0 := Claimed(0, 1, false)]
    && s.t.jobs == map[0 := Job(7, 0, 0, 1, Record, Processing, 1, 0, Some(SignalWorker(0)), Some(60_000), "")]
  }

  lemma ClaimRunsOut(s: System, c: Config)
    requires Seeded(s, c)
    ensures RunOut(Next(Next(s, OfWorker(0, ClaimNext(0))), Tick(60_001)), c)
  {
    hide HistoryAfter;
    var first := Next(s, OfWorker(0, ClaimNext(0)));
    assert first.t.jobs == map[0 := Job(7, 0, 0, 1, Record, Processing, 1, 0, Some(SignalWorker(0)), Some(60_000), "")];
    assert first.runs == map[0 := Claimed(0, 1, false)];
  }

  lemma SecondClaims(s: System, c: Config)
    requires RunOut(s, c)
    ensures Overtaken(Next(s, OfWorker(1, ClaimNext(0))), c)
  {
    hide HistoryAfter;
    assert Next(s, OfWorker(1, ClaimNext(0))).t == ClaimJob(s.t, SignalWorker(1), 0);
  }

  const NOTHING_FOUND := Unresolved("CA_NOT_FOUND")

  /** The first worker loads the row as the second has claimed it, and goes on. */
  lemma OvertakenGoesOn(s: System, c: Config)
    requires Overtaken(s, c) && c.mode == Record && c.enabled && 0 in c.events
    ensures var ready := Next(Next(Next(s, OfWorker(0, Load)), OfWorker(0, Check(RECORDING))),
                              OfWorker(0, Resolve(RECORDING, NOTHING_FOUND)));
            HeldByOther(ready.t, SignalWorker(0), 0) && ClosesWith(ready, 0, TryCommit(false), 0)
  {
    hide HistoryAfter;
    var loaded := Next(s, OfWorker(0, Load));
    var ctx := LoadContext(s.t, 0).value;
    assert ctx.worker == Some(SignalWorker(1)) && ctx.job == 0;
    assert loaded.t == s.t && RunOf(loaded, 0) == Loaded(0, 1, false, ctx);
    var checked := Next(loaded, OfWorker(0, Check(RECORDING)));
    assert checked.t == s.t && RunOf(checked, 0) == Checked(0, 1, false, ctx);
    var ready := Next(checked, OfWorker(0, Resolve(RECORDING, NOTHING_FOUND)));
    assert ready.t == s.t && RunOf(ready, 0) == Ready(0, 1, false, ctx, NOTHING_FOUND);
  }

  /**
   Such a commit can happen: a worker whose claim ran out before it loaded the job, and whose renewal
   before the commit throws (which is only logged), closes the job under the claim of the worker that
   took it over.
  */
  lemma OvertakenWorkerCommits(c: Config)
    requires c.mode == Record && c.enabled && 0 in c.events
    ensures exists s :: Reachable(s) && HeldByOther(s.t, SignalWorker(0), 0)
              && 0 in Next(s, OfWorker(0, TryCommit(false))).t.jobs
              && Next(s, OfWorker(0, TryCommit(false))).t.jobs[0] != s.t.jobs[0]
  {
    var a, b := EditPolicy(0, c), EnqueueOne(7, 0, 0, Policy(1, c), RECORDING);
    var d, e, f := OfWorker(0, ClaimNext(0)), Tick(60_001), OfWorker(1, ClaimNext(0));
    var g, h, i := OfWorker(0, Load), OfWorker(0, Check(RECORDING)), OfWorker(0, Resolve(RECORDING, NOTHING_FOUND));
    SeedIsPlanted(c);
    hide Next, Seeded, RunOut, Overtaken, HeldByOther, ClosesWith, Execute;
    var seeded := Next(Next(Start, a), b);
    ClaimRunsOut(seeded, c);
    SecondClaims(Next(Next(seeded, d), e), c);
    var overtaken := Next(Next(Next(seeded, d), e), f);
    OvertakenGoesOn(overtaken, c);
    var ready := Next(Next(Next(overtaken, g), h), i);
    ForeignWritesExactly(ready, 0, TryCommit(false), 0);
    EightSteps(Start, a, b, d, e, f, g, h, i);
    ReachedBy([a, b, d, e] + [f, g, h, i]);
    hide Reachable;
  }

  lemma ReachedBy(steps: seq<Step>)
    ensures Reachable(Execute(Start, steps))
  {
  }

  lemma EightSteps(s: System, a: Step, b: Step, c: Step, d: Step, e: Step, f: Step, g: Step, h: Step)
    ensures Execute(s, [a, b, c, d] + [e, f, g, h])
         == Next(Next(Next(Next(Next(Next(Next(Next(s, a), b), c), d), e), f), g), h)
  {
    hide Next, Execute;
    FourSteps(s, a, b, c, d);
    FourSteps(Next(Next(Next(Next(s, a), b), c), d), e, f, g, h);
    ExecuteSum(s, [a, b, c, d], [e, f, g, h]);
  }
}
