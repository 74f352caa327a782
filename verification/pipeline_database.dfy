/**
 The same statements as they run: a database whose tables are updated in place, and the
 signal worker's runOnce cut at its awaits. Every method is proved against the table
 functions the safety theorems speak of, transactions included.
*/
module PipelineDatabase {
  import opened Wrappers
  import opened PipelineTables
  import opened PipelineProtocol

  /** The rows one enqueueing SELECT returned, inserted in order. */
  function EnqueueAll(t: Tables, activity: ActivityId, e: EventType, rows: seq<(PolicyId, Policy)>, flags: Flags): Tables
    decreases |rows|
  {
    if rows == [] then t
    else
      var front := rows[..|rows| - 1];
      var last := rows[|rows| - 1];
      Enqueue(EnqueueAll(t, activity, e, front, flags), activity, e, last.0, last.1, flags)
  }

  class Database {
    var now: int
    var policies: map<PolicyId, Policy>
    var jobs: map<JobId, Job>
    var jobIndex: map<JobKey, JobId>
    var nextJob: JobId
    var attempts: map<JobId, Attempt>
    var windows: map<JobId, Window>
    var targets: map<TargetKey, Target>
    var whitelist: map<WhitelistId, Whitelist>
    var activeWhitelist: map<TargetKey, WhitelistId>
    var nextWhitelist: WhitelistId
    var signals: map<SignalId, Signal>
    var signalIndex: map<JobId, SignalId>
    var nextSignal: SignalId

    function Rows(): Tables
      reads this
    {
      Tables(now, policies, jobs, jobIndex, nextJob, attempts, windows, targets,
             whitelist, activeWhitelist, nextWhitelist, signals, signalIndex, nextSignal)
    }

    constructor ()
      ensures Rows() == Empty
    {
      now, policies, jobs, jobIndex, nextJob := 0, map[], map[], map[], 0;
      attempts, windows, targets := map[], map[], map[];
      whitelist, activeWhitelist, nextWhitelist := map[], map[], 0;
      signals, signalIndex, nextSignal := map[], map[], 0;
    }

    // ----- job queue -----

    method EnqueueForActivity(activity: ActivityId, e: EventType, rows: seq<(PolicyId, Policy)>, flags: Flags)
      returns (output: seq<JobId>)
      modifies this
      ensures Rows() == EnqueueAll(old(Rows()), activity, e, rows, flags)
      ensures |output| == nextJob - old(nextJob)
      ensures forall i :: 0 <= i < |output| ==> output[i] == old(nextJob) + i
    {
      output := [];
      for i := 0 to |rows|
        invariant Rows() == EnqueueAll(old(Rows()), activity, e, rows[..i], flags)
        invariant |output| == nextJob - old(nextJob)
        invariant forall k :: 0 <= k < |output| ==> output[k] == old(nextJob) + k
      {
        var policy, row := rows[i].0, rows[i].1;
        assert rows[..i + 1][..i] == rows[..i];
        var mode := EffectiveMode(row.config.mode, flags);
        if mode.Some? && Selectable(row, e) {
          var key := JobKey(activity, policy, row.revision);
          if key !in jobIndex {
            jobs := jobs[nextJob :=
              Job(activity, e, policy, row.revision, mode.value, Pending, 0, now, None, None, "")];
            jobIndex := jobIndex[key := nextJob];
            output := output + [nextJob];
            nextJob := nextJob + 1;
          }
        }
      }
      assert rows[..|rows|] == rows;
    }

    /** Locked rows are skipped, so any claimable row may be the one returned. */
    method ClaimNext(w: WorkerId) returns (claimed: Option<JobId>)
      modifies this`jobs
      ensures claimed.None? ==> Rows() == old(Rows()) && forall j :: !Claimable(old(Rows()), j)
      ensures claimed.Some? ==>
                Claimable(old(Rows()), claimed.value) && Rows() == ClaimJob(old(Rows()), w, claimed.value)
    {
      var candidates := set j | j in jobs && Claimable(Rows(), j);
      if candidates == {} {
        forall j ensures !Claimable(Rows(), j) { assert j !in candidates; }
        return None;
      }
      var j :| j in candidates;
      jobs := jobs[j := jobs[j].(
        status := Processing, attempts := jobs[j].attempts + 1, worker := Some(w),
        leaseExpiresAt := Some(now + LEASE_MS))];
      claimed := Some(j);
    }

    method Renew(j: JobId, w: WorkerId) returns (owned: bool)
      modifies this`jobs
      ensures owned == Renewable(old(Rows()), j, w)
      ensures Rows() == RenewJob(old(Rows()), j, w)
    {
      owned := Renewable(Rows(), j, w);
      if owned { jobs := jobs[j := jobs[j].(leaseExpiresAt := Some(now + LEASE_MS))]; }
    }

    method Fail(j: JobId, attemptCount: nat, code: string, w: Option<WorkerId>) returns (hit: bool)
      modifies this`jobs
      ensures hit == Failable(old(Rows()), j, w)
      ensures Rows() == FailJob(old(Rows()), j, attemptCount, code, w)
    {
      hit := Failable(Rows(), j, w);
      if hit { jobs := jobs[j := AfterFailure(jobs[j], attemptCount, code, now)]; }
    }

    method Cancel(j: JobId, code: string, w: Option<WorkerId>) returns (hit: bool)
      modifies this`jobs
      ensures hit == Cancellable(old(Rows()), j, w)
      ensures Rows() == CancelJob(old(Rows()), j, code, w)
    {
      hit := Cancellable(Rows(), j, w);
      if hit { jobs := jobs[j := jobs[j].(status := Cancelled, failureCode := code, leaseExpiresAt := None)]; }
    }

    // ----- the commit transaction, statement by statement -----

    /** Writes the attempt row first; false means the fenced update then hit no row. */
    method PersistResult(ctx: Context, result: Resolution) returns (held: bool)
      modifies this`attempts, this`jobs
      ensures held == Fenced(old(Rows()), ctx)
      ensures held ==> Rows() == Persist(old(Rows()), ctx, result).value
    {
      if ctx.job in attempts {
        attempts := attempts[ctx.job := attempts[ctx.job].(result := result)];
      } else {
        attempts := attempts[ctx.job := Attempt(result, ctx.revision, ctx.hash)];
      }
      held := ctx.job in jobs && ctx.worker.Some? && jobs[ctx.job].status == Processing
        && jobs[ctx.job].worker == ctx.worker && Held(jobs[ctx.job].leaseExpiresAt, now);
      if held {
        jobs := jobs[ctx.job := jobs[ctx.job].(
          status := if result.ResolvedTo? then Resolved else Rejected,
          failureCode := ResultCode(result), leaseExpiresAt := None)];
      }
    }

    method InsertWindow(ctx: Context, result: Resolution)
      modifies this`windows
      ensures Rows() == RequestWindow(old(Rows()), ctx, result)
    {
      if result.NotFound? && result.hasWindowTerms && ctx.job !in windows {
        windows := windows[ctx.job := Window(WinPending, 0, now, now + WINDOW_LIFE_MS, None, None)];
      }
    }

    method UpsertRow(ctx: Context, key: TargetKey) returns (id: WhitelistId)
      modifies this`whitelist, this`activeWhitelist, this`nextWhitelist
      ensures Rows() == UpsertWhitelist(old(Rows()), ctx, key)
      ensures id == WhitelistSlot(old(Rows()), key) && id in whitelist
    {
      id := nextWhitelist;
      if key in activeWhitelist {
        id := activeWhitelist[key];
      } else {
        nextWhitelist := nextWhitelist + 1;
      }
      var version := if id in whitelist then whitelist[id].activationVersion else 1;
      whitelist := whitelist[id := Whitelist(key, ctx.revision, true, false, version)];
      activeWhitelist := activeWhitelist[key := id];
    }

    /** None when the policy moved on or has no budget for the chain. */
    method MaterializeTarget(ctx: Context, selected: Candidate) returns (row: Option<WhitelistId>)
      modifies this`targets, this`whitelist, this`activeWhitelist, this`nextWhitelist
      ensures row.Some? == TargetAllowed(old(Rows()), ctx, selected)
      ensures row.Some? ==>
                && row.value == WhitelistSlot(old(Rows()), KeyOf(ctx, selected)) && row.value in whitelist
                && Rows() == Materialize(old(Rows()), ctx, selected)
      ensures row.None? ==> Rows() == old(Rows())
      ensures row.Some? ==>
                var key := TargetKey(ctx.policy, selected.chain, selected.address);
                && targets == old(targets)[key := Target(ctx.revision, ctx.hash, ctx.job, ctx.mode, true, row)]
                && key in activeWhitelist && activeWhitelist[key] == row.value
                && whitelist[row.value].key == key && whitelist[row.value].active && !whitelist[row.value].liveReady
                && whitelist[row.value].revision == ctx.revision
    {
      if ctx.policy !in policies { return None; }
      var policy := policies[ctx.policy];
      if !policy.config.enabled || policy.revision != ctx.revision || policy.Hash() != ctx.hash { return None; }
      if selected.chain !in policy.config.budgets { return None; }
      var key := TargetKey(ctx.policy, selected.chain, selected.address);
      var inserted := targets[key := Target(ctx.revision, ctx.hash, ctx.job, ctx.mode, true, None)];
      var id := UpsertRow(ctx, key);
      targets := inserted[key := inserted[key].(whitelist := Some(id))];
      assert targets == old(targets)[key := Target(ctx.revision, ctx.hash, ctx.job, ctx.mode, true, Some(id))];
      row := Some(id);
    }

    method InsertSignal(ctx: Context, selected: Candidate, row: WhitelistId) returns (created: Option<SignalId>)
      requires row in whitelist
      modifies this`signals, this`signalIndex, this`nextSignal
      ensures Rows() == CreateSignal(old(Rows()), ctx, KeyOf(ctx, selected), row)
      ensures created == if ctx.job in old(signalIndex) then None else Some(old(nextSignal))
      ensures created.Some? ==>
                && signalIndex == old(signalIndex)[ctx.job := created.value] && created.value in signals
                && signals[created.value].target == TargetKey(ctx.policy, selected.chain, selected.address)
                && signals[created.value].whitelist == row && signals[created.value].job == ctx.job
    {
      if ctx.job in signalIndex { return None; }
      var wait := if ctx.mode == Live then Some(whitelist[row].activationVersion) else None;
      signals := signals[nextSignal :=
        Signal(ctx.job, ctx.policy, ctx.revision, ctx.hash, ctx.mode, SigRecorded, KeyOf(ctx, selected), row, wait)];
      signalIndex := signalIndex[ctx.job := nextSignal];
      created := Some(nextSignal);
      nextSignal := nextSignal + 1;
    }

    /** BEGIN .. COMMIT, with ROLLBACK restoring every row when a statement throws. */
    method CommitResult(ctx: Context, result: Resolution) returns (committed: bool)
      modifies this
      ensures committed == Commit(old(Rows()), ctx, result).Some?
      ensures Rows() == if committed then Commit(old(Rows()), ctx, result).value else old(Rows())
      ensures committed && result.ResolvedTo? && Materializes(ctx.mode) && ctx.job !in old(signalIndex) ==>
                var key := TargetKey(ctx.policy, result.selected.chain, result.selected.address);
                && key in targets && targets[key].active && targets[key].attempt == ctx.job
                && ctx.job in signalIndex && signalIndex[ctx.job] in signals
                && var signal := signals[signalIndex[ctx.job]];
                && signal.target == key && signal.job == ctx.job && signal.whitelist in whitelist
                && whitelist[signal.whitelist].key == key && whitelist[signal.whitelist].active
                && targets[key].whitelist == Some(signal.whitelist)
    {
      var savedAttempts, savedJobs, savedWindows := attempts, jobs, windows;
      committed := PersistResult(ctx, result);
      if committed {
        InsertWindow(ctx, result);
        if result.ResolvedTo? && Materializes(ctx.mode) {
          var row := MaterializeTarget(ctx, result.selected);
          if row.Some? {
            var _ := InsertSignal(ctx, result.selected, row.value);
          } else {
            committed := false;
          }
        }
      }
      if !committed {
        attempts, jobs, windows := savedAttempts, savedJobs, savedWindows;
      }
    }

    // ----- policy edits -----

    /** The withdrawals of one edit, in the order the transaction issues them. */
    method WithdrawOutdated(p: PolicyId, kept: Option<nat>, code: string)
      modifies this`signals, this`whitelist, this`activeWhitelist, this`targets, this`jobs
      ensures Rows() == Cascade(old(Rows()), p, kept, code)
    {
      signals := WithdrawSignals(signals, p, kept);
      whitelist := ArchiveWhitelist(whitelist, p, kept);
      activeWhitelist := ActiveRows(whitelist, activeWhitelist);
      targets := PauseTargets(targets, p, kept);
      jobs := CancelJobs(jobs, p, kept, code);
    }

    method Upsert(p: PolicyId, config: Config) returns (saved: Result<Policy, string>)
      modifies this
      ensures saved.Failure? == LiveLimitsMissing(config)
      ensures saved.Success? ==> p in policies && policies[p] == saved.value && saved.value.config == config
      ensures Rows() == UpsertPolicy(old(Rows()), p, config)
    {
      if LiveLimitsMissing(config) { return Failure("DYNAMIC_POLICY_LIVE_LIMITS_REQUIRED"); }
      if p !in policies {
        policies := policies[p := Policy(1, config)];
      } else if policies[p].Hash() != config {
        var revision := policies[p].revision + 1;
        policies := policies[p := Policy(revision, config)];
        windows := FailWindows(windows, jobs, p, Some(revision));
        WithdrawOutdated(p, Some(revision), "DYNAMIC_POLICY_CHANGED");
      }
      saved := Success(policies[p]);
    }

    method Remove(p: PolicyId) returns (found: bool)
      modifies this
      ensures found == (p in old(policies))
      ensures Rows() == RemovePolicy(old(Rows()), p)
    {
      found := p in policies;
      if found {
        var policy := policies[p];
        policies := policies[p := Policy(policy.revision + 1, policy.config.(mode := Paused, enabled := false))];
        WithdrawOutdated(p, None, "DYNAMIC_POLICY_REMOVED");
      }
    }

    // ----- launch windows -----

    method TakeWindow(j: JobId, w: WorkerId)
      requires WindowClaimable(Rows(), j)
      modifies this`windows
      ensures Rows() == ClaimWindow(old(Rows()), w, j)
    {
      windows := windows[j := windows[j].(
        status := WinProcessing, attempts := windows[j].attempts + 1, worker := Some(w),
        leaseExpiresAt := Some(now + WINDOW_LEASE_MS))];
    }

    /** The update every holder issues under its lease; false when the lease was lost. */
    method UpdateOwned(j: JobId, w: WorkerId, status: WindowStatus, next: int) returns (owned: bool)
      modifies this`windows
      ensures owned == WindowOwned(old(Rows()), j, w)
      ensures Rows() == if owned then SetWindow(old(Rows()), j, status, next) else old(Rows())
    {
      owned := WindowOwned(Rows(), j, w);
      if owned {
        windows := windows[j := windows[j].(status := status, nextAttemptAt := next, leaseExpiresAt := None)];
      }
    }

    method RenewOwned(j: JobId, w: WorkerId) returns (owned: bool)
      modifies this`windows
      ensures owned == WindowOwned(old(Rows()), j, w)
      ensures Rows() == if owned then RenewWindow(old(Rows()), j) else old(Rows())
    {
      owned := WindowOwned(Rows(), j, w);
      if owned { windows := windows[j := windows[j].(leaseExpiresAt := Some(now + WINDOW_LEASE_MS))]; }
    }

    method Requeue(j: JobId, w: WorkerId)
      modifies this`jobs
      ensures Rows() == RequeueJob(old(Rows()), j, w)
    {
      if Requeueable(Rows(), j, w) {
        jobs := jobs[j := jobs[j].(status := Pending, nextAttemptAt := now, failureCode := "")];
      }
    }

    // ----- live claim -----

    /** The compare-and-set by which one process takes a recorded signal. */
    method ClaimSignal(s: SignalId) returns (claimed: bool)
      modifies this`signals
      ensures claimed == LiveClaimable(old(Rows()), s)
      ensures Rows() == if claimed then SetSignal(old(Rows()), s, SigPending) else old(Rows())
    {
      claimed := LiveClaimable(Rows(), s);
      if claimed { signals := signals[s := signals[s].(status := SigPending)]; }
    }
  }

  /** One worker object; `run` is where its current runOnce stands, one await at a time. */
  class DynamicSignalWorker {
    const id: nat
    var run: Run
    var processed: nat

    constructor (id: nat)
      ensures this.id == id && run == Idle && processed == 0
    {
      this.id := id;
      run := Idle;
      processed := 0;
    }

    /** Claims the next job unless a run is already active; any claimable row may be the one. */
    method Begin(db: Database) returns (step: JobStep)
      modifies this`run, db
      ensures step == Finish || step.ClaimNext?
      ensures step.ClaimNext? ==> (db.Rows(), run) == JobStepOf(old(db.Rows()), id, old(run), step)
      ensures step == Finish ==>
                db.Rows() == old(db.Rows()) && run == old(run) &&
                (!old(run).Idle? || forall j :: !Claimable(old(db.Rows()), j))
    {
      step := Finish;
      if !run.Idle? { return; }
      var claimed := db.ClaimNext(SignalWorker(id));
      if claimed.Some? {
        run := Claimed(claimed.value, db.jobs[claimed.value].attempts, false);
        step := ClaimNext(claimed.value);
      }
    }

    method Load(db: Database)
      modifies this`run, db
      ensures (db.Rows(), run) == JobStepOf(old(db.Rows()), id, old(run), JobStep.Load)
    {
      if !run.Claimed? { return; }
      var context := LoadContext(db.Rows(), run.job);
      if context.None? {
        var _ := db.Cancel(run.job, POLICY_CHANGED, Some(SignalWorker(id)));
        run := Idle;
      } else {
        run := Loaded(run.job, run.count, run.lost, context.value);
      }
    }

    /** The checks between loading the context and resolving. */
    method Check(db: Database, flags: Flags)
      modifies this`run, db
      ensures (db.Rows(), run) == JobStepOf(old(db.Rows()), id, old(run), JobStep.Check(flags))
    {
      if !run.Loaded? { return; }
      var ctx := run.ctx;
      if !ctx.policyEnabled || ctx.revision != ctx.currentRevision {
        var _ := db.Cancel(run.job, POLICY_CHANGED, Some(SignalWorker(id)));
        run := Idle;
        return;
      }
      var mode := EffectiveMode(ctx.configuredMode, flags);
      if mode != Some(ctx.mode) {
        var _ := db.Cancel(run.job, MODE_CHANGED, Some(SignalWorker(id)));
        run := Idle;
      } else if ctx.eventType !in ctx.allowedEvents {
        run := Failing(run.job, run.count, "DYNAMIC_EVENT_NOT_ALLOWED");
      } else {
        run := Checked(run.job, run.count, run.lost, ctx);
      }
    }

    /** The lease timer and the renewal before persistence: a refused renewal is remembered. */
    method RenewLease(db: Database)
      modifies this`run, db
      ensures (db.Rows(), run) == JobStepOf(old(db.Rows()), id, old(run), Renew)
    {
      if (run.Claimed? || run.Loaded? || run.Checked? || run.Ready?) && !run.lost {
        var owned := db.Renew(run.job, SignalWorker(id));
        if !owned { run := run.(lost := true); }
      }
    }

    method TryCommitResult(db: Database)
      modifies this`run, this`processed, db
      ensures (db.Rows(), run) == JobStepOf(old(db.Rows()), id, old(run), TryCommit(false))
      ensures processed == old(processed) + if old(run).Ready? && run.Committed? then 1 else 0
    {
      if !run.Ready? { return; }
      if run.lost {
        run := Failing(run.job, run.count, "DYNAMIC_JOB_LEASE_LOST");
        return;
      }
      var code := RollbackCode(db.Rows(), run.ctx, run.result);
      var committed := db.CommitResult(run.ctx, run.result);
      if committed {
        run := Committed(run.job, run.count);
        processed := processed + 1;
      } else {
        run := Failing(run.job, run.count, code);
      }
    }

    /** The catch block records the failure under the worker guard. */
    method FailRun(db: Database)
      modifies this`run, db
      ensures (db.Rows(), run) == JobStepOf(old(db.Rows()), id, old(run), JobStep.Fail)
    {
      if run.Failing? {
        var _ := db.Fail(run.job, run.count, run.code, Some(SignalWorker(id)));
        run := Idle;
      }
    }

    /** The resolver's answer arrives: the mode is checked once more before anything is persisted. */
    method Resolve(db: Database, flags: Flags, result: Resolution)
      modifies this`run, db
      ensures (db.Rows(), run) == JobStepOf(old(db.Rows()), id, old(run), JobStep.Resolve(flags, result))
    {
      if !run.Checked? { return; }
      var mode := EffectiveMode(run.ctx.configuredMode, flags);
      if mode != Some(run.ctx.mode) {
        var _ := db.Cancel(run.job, MODE_CHANGED, Some(SignalWorker(id)));
        run := Idle;
      } else {
        run := Ready(run.job, run.count, run.lost, run.ctx, result);
      }
    }

    /** Whichever awaited call the run has reached, or its end, is one step of the protocol. */
    method Advance(db: Database, step: JobStep)
      requires !step.ClaimNext? && (step.TryCommit? ==> !step.aborts)
      modifies this`run, this`processed, db
      ensures (db.Rows(), run) == JobStepOf(old(db.Rows()), id, old(run), step)
    {
      match step {
        case Load => Load(db);
        case Check(flags) => Check(db, flags);
        case Resolve(flags, result) => Resolve(db, flags, result);
        case Renew => RenewLease(db);
        case LateRenew(j) => var _ := db.Renew(j, SignalWorker(id));
        case TryCommit(_) => TryCommitResult(db);
        case Throw(code) => if !run.Idle? { run := Failing(run.job, run.count, code); }
        case Fail => FailRun(db);
        case Finish => run := Idle;
      }
    }
  }

  /** The launch-window worker, one statement at a time. */
  class DynamicLaunchWindowWorker {
    const id: nat
    var run: WindowRun

    constructor (id: nat)
      ensures this.id == id && run == WinIdle
    {
      this.id := id;
      run := WinIdle;
    }

    method Advance(db: Database, step: WindowStep)
      modifies this`run, db
      ensures (db.Rows(), run) == WindowStepOf(old(db.Rows()), id, old(run), step)
    {
      var me := LaunchWorker(id);
      var next := if run.WinIdle? then 0 else NextAttempt(db.Rows(), run.job);
      match step {
        case TakeWindow(j) =>
          if run.WinIdle? && WindowClaimable(db.Rows(), j) {
            var mode := db.jobs[j].mode;
            db.TakeWindow(j, me);
            run := WinHolding(j, mode);
          }
        case ModeOff(flags) =>
          if run.WinHolding? && EffectiveMode(run.mode, flags) != Some(run.mode) {
            var owned := db.UpdateOwned(run.job, me, WinFailed, next);
            run := if owned then WinCancelling(run.job) else WinFailing(run.job);
          }
        case CancelItsJob =>
          if run.WinCancelling? {
            var _ := db.Cancel(run.job, MODE_CHANGED, Some(me));
            run := WinIdle;
          }
        case PutBack =>
          if run.WinHolding? {
            var _ := db.UpdateOwned(run.job, me, WinPending, db.now);
            run := WinIdle;
          }
        case RenewLease =>
          if run.WinHolding? {
            var owned := db.RenewOwned(run.job, me);
            if !owned { run := WinFailing(run.job); }
          }
        case ResolveWindow =>
          if run.WinHolding? {
            var owned := db.UpdateOwned(run.job, me, WinResolved, next);
            run := if owned then WinRequeueing(run.job) else WinFailing(run.job);
          }
        case RequeueItsJob =>
          if run.WinRequeueing? {
            db.Requeue(run.job, me);
            run := WinIdle;
          }
        case WaitLonger =>
          if run.WinHolding? {
            var owned := db.UpdateOwned(run.job, me, WinPending, db.now + WINDOW_WAIT_MS);
            run := if owned then WinIdle else WinFailing(run.job);
          }
        case ThrowWindow =>
          if !run.WinIdle? { run := WinFailing(run.job); }
        case FailItsWindow =>
          if run.WinFailing? {
            var exhausted := run.job in db.windows && db.windows[run.job].attempts >= 3;
            var _ := db.UpdateOwned(run.job, me, if exhausted then WinFailed else WinPending, db.now + WINDOW_RETRY_MS);
            run := WinIdle;
          }
        case FinishWindow =>
          run := WinIdle;
      }
    }
  }
}
