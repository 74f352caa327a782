/**
 What enqueueing, editing a policy and claiming a signal do to every row, without the tables'
 own functions: which rows change, how, and that no other does.
*/
module PipelineEdits {
  import opened Wrappers
  import opened PipelineTables
  import opened PipelineInvariants
  import opened PipelineProtocol
  import opened PipelineSafety
  import opened PipelineOrigins

  // ----- enqueueing -----

  /** The policy row asks for this event, and its own flag and both general ones are on. */
  predicate Asks(row: Policy, e: EventType, flags: Flags) {
    && row.config.enabled && e in row.config.events && flags.resolution && flags.record
    && (|| row.config.mode == Record || (row.config.mode == Paper && flags.paper) || (row.config.mode == Live && flags.live))
  }

  /** A job for this activity under this revision of the policy. */
  predicate JobFor(job: Job, activity: ActivityId, p: PolicyId, revision: nat) {
    job.activity == activity && job.policy == p && job.revision == revision
  }

  lemma IndexedExactly(t: Tables, activity: ActivityId, p: PolicyId, revision: nat)
    requires JobTable(t.jobs, t.jobIndex, t.nextJob)
    ensures JobKey(activity, p, revision) in t.jobIndex <==> exists j :: j in t.jobs && JobFor(t.jobs[j], activity, p, revision)
  {
    var key := JobKey(activity, p, revision);
    if key in t.jobIndex { assert JobFor(t.jobs[t.jobIndex[key]], activity, p, revision); }
    if j :| j in t.jobs && JobFor(t.jobs[j], activity, p, revision) { assert KeyOfJob(t.jobs[j]) == key; }
  }

  lemma EnqueueWrites(t: Tables, activity: ActivityId, e: EventType, p: PolicyId, row: Policy, flags: Flags)
    ensures Enqueue(t, activity, e, p, row, flags).jobs
         == if Asks(row, e, flags) && JobKey(activity, p, row.revision) !in t.jobIndex
            then t.jobs[t.nextJob := Job(activity, e, p, row.revision, row.config.mode, Pending, 0, t.now, None, None, "")]
            else t.jobs
  {
  }

  /**
   Enqueueing makes one job exactly when the policy row asks for the event and its revision has no
   job for the activity yet; the job starts pending in the row's own mode, and no other job changes.
  */
  lemma EnqueuesExactly(s: System, activity: ActivityId, e: EventType, p: PolicyId, row: Policy, flags: Flags)
    requires Reachable(s) && WasRead(s.t, p, row)
    ensures var after := Next(s, EnqueueOne(activity, e, p, row, flags)).t;
            && s.t.nextJob !in s.t.jobs
            && after.jobs == if Asks(row, e, flags) && !exists j :: j in s.t.jobs && JobFor(s.t.jobs[j], activity, p, row.revision)
                             then s.t.jobs[s.t.nextJob :=
                                    Job(activity, e, p, row.revision, row.config.mode, Pending, 0, s.t.now, None, None, "")]
                             else s.t.jobs
  {
    ReachableOk(s);
    assert JobTable(s.t.jobs, s.t.jobIndex, s.t.nextJob);
    IndexedExactly(s.t, activity, p, row.revision);
    EnqueueWrites(s.t, activity, e, p, row, flags);
    assert s.t.nextJob !in s.t.jobs;
    hide Reachable, SystemInv, HistoryAfter, JobTable, Enqueue, Asks, JobFor;
  }

  /** No revision of a policy ever has two jobs for one activity. */
  lemma OneJobEach(s: System, i: JobId, j: JobId)
    requires Reachable(s) && i in s.t.jobs && j in s.t.jobs
    requires s.t.jobs[i].activity == s.t.jobs[j].activity && s.t.jobs[i].policy == s.t.jobs[j].policy
    requires s.t.jobs[i].revision == s.t.jobs[j].revision
    ensures i == j
  {
    ReachableOk(s);
    assert JobTable(s.t.jobs, s.t.jobIndex, s.t.nextJob);
    hide Reachable, SystemInv;
  }

  // ----- editing -----

  /** Everything of the policy that could still act is withdrawn, and no row of another policy changes. */
  ghost predicate Withdrawn(a: Tables, b: Tables, p: PolicyId, code: string) {
    && SignalsWithdrawn(a.signals, b.signals, p) && TargetsPaused(a.targets, b.targets, p)
    && RowsArchived(a.whitelist, b.whitelist, p) && JobsCancelled(a.jobs, b.jobs, p, code)
    && (forall k :: k in b.activeWhitelist <==> k in a.activeWhitelist && k.policy != p)
    && (forall k :: k in b.activeWhitelist ==> b.activeWhitelist[k] == a.activeWhitelist[k])
    && b.attempts == a.attempts && b.signalIndex == a.signalIndex && b.jobIndex == a.jobIndex && b.now == a.now
    && b.nextJob == a.nextJob && b.nextSignal == a.nextSignal && b.nextWhitelist == a.nextWhitelist
  }

  ghost predicate SignalsWithdrawn(a: Signals, b: Signals, p: PolicyId) {
    && b.Keys == a.Keys
    && forall x :: x in a ==>
         b[x] == if a[x].policy == p && a[x].status in {SigRecorded, SigPending, SigApproved}
                 then a[x].(status := SigSignalOnly) else a[x]
  }

  ghost predicate TargetsPaused(a: Targets, b: Targets, p: PolicyId) {
    b.Keys == a.Keys && forall k :: k in a ==> b[k] == if k.policy == p then a[k].(active := false) else a[k]
  }

  ghost predicate RowsArchived(a: Rows, b: Rows, p: PolicyId) {
    b.Keys == a.Keys && forall w :: w in a ==> b[w] == if a[w].key.policy == p then a[w].(active := false) else a[w]
  }

  ghost predicate JobsCancelled(a: Jobs, b: Jobs, p: PolicyId, code: string) {
    && b.Keys == a.Keys
    && forall j :: j in a ==>
         b[j] == if a[j].policy == p && a[j].status in {Pending, Processing}
                 then a[j].(status := Cancelled, failureCode := code, leaseExpiresAt := None) else a[j]
  }

  ghost predicate WindowsFailed(a: Windows, b: Windows, jobs: Jobs, p: PolicyId) {
    && b.Keys == a.Keys
    && forall j :: j in a ==>
         b[j] == if j in jobs && jobs[j].policy == p && a[j].status in {WinPending, WinProcessing}
                 then a[j].(status := WinFailed, leaseExpiresAt := None) else a[j]
  }

  /** Rows of a policy carry a revision it has had, so an edit keeps none of them. */
  lemma CascadeWithdraws(t: Tables, u: Tables, p: PolicyId, kept: Option<nat>, code: string)
    requires TablesInv(t) && p in t.policies && (kept.None? || kept == Some(t.policies[p].revision + 1))
    requires u == t.(policies := u.policies, windows := u.windows)
    ensures Withdrawn(t, Cascade(u, p, kept, code), p, code)
    ensures Cascade(u, p, kept, code).policies == u.policies && Cascade(u, p, kept, code).windows == u.windows
  {
    SignalsGo(t.signals, t.policies, p, kept);
    TargetsGo(t.targets, t.policies, p, kept);
    RowsGo(t.whitelist, t.activeWhitelist, t.nextWhitelist, t.policies, p, kept);
    JobsGo(t.jobs, t.policies, p, kept, code);
    hide TablesInv, WithdrawSignals, PauseTargets, ArchiveWhitelist, CancelJobs, ActiveRows;
    hide SignalsWithdrawn, TargetsPaused, RowsArchived, JobsCancelled;
  }

  lemma SignalsGo(signals: Signals, policies: Policies, p: PolicyId, kept: Option<nat>)
    requires SignalFence(signals, policies) && p in policies && (kept.None? || kept == Some(policies[p].revision + 1))
    ensures SignalsWithdrawn(signals, WithdrawSignals(signals, p, kept), p)
  {
  }

  lemma TargetsGo(targets: Targets, policies: Policies, p: PolicyId, kept: Option<nat>)
    requires TargetFence(targets, policies) && p in policies && (kept.None? || kept == Some(policies[p].revision + 1))
    ensures TargetsPaused(targets, PauseTargets(targets, p, kept), p)
  {
  }

  lemma RowsGo(rows: Rows, index: map<TargetKey, WhitelistId>, next: WhitelistId, policies: Policies, p: PolicyId,
               kept: Option<nat>)
    requires WhitelistFence(rows, policies) && WhitelistTable(rows, index, next)
    requires p in policies && (kept.None? || kept == Some(policies[p].revision + 1))
    ensures var after := ArchiveWhitelist(rows, p, kept);
            && RowsArchived(rows, after, p)
            && (forall k :: k in ActiveRows(after, index) <==> k in index && k.policy != p)
            && (forall k :: k in ActiveRows(after, index) ==> ActiveRows(after, index)[k] == index[k])
  {
  }

  lemma JobsGo(jobs: Jobs, policies: Policies, p: PolicyId, kept: Option<nat>, code: string)
    requires JobPolicies(jobs, policies) && p in policies && (kept.None? || kept == Some(policies[p].revision + 1))
    ensures JobsCancelled(jobs, CancelJobs(jobs, p, kept, code), p, code)
  {
  }

  lemma WindowsGo(windows: Windows, jobs: Jobs, policies: Policies, p: PolicyId, kept: Option<nat>)
    requires JobPolicies(jobs, policies) && p in policies && (kept.None? || kept == Some(policies[p].revision + 1))
    ensures WindowsFailed(windows, FailWindows(windows, jobs, p, kept), jobs, p)
  {
  }

  /**
   An edit of a policy is refused for a live configuration without limits, and changes nothing when
   the configuration is the same; otherwise it takes the next revision and withdraws every row of
   the policy that could still act, launch windows included, and no row of another policy.
  */
  lemma EditsExactly(s: System, p: PolicyId, config: Config)
    requires Reachable(s) && p in s.t.policies
    ensures var after := Next(s, EditPolicy(p, config)).t;
            if (config.mode == Live && config.newTokenLimit <= 0) || s.t.policies[p].config == config then after == s.t
            else && after.policies == s.t.policies[p := Policy(s.t.policies[p].revision + 1, config)]
                 && Withdrawn(s.t, after, p, "DYNAMIC_POLICY_CHANGED")
                 && WindowsFailed(s.t.windows, after.windows, s.t.jobs, p)
  {
    ReachableOk(s);
    assert TablesInv(s.t) && JobPolicies(s.t.jobs, s.t.policies);
    hide Reachable, SystemInv, TablesInv, HistoryAfter, Withdrawn, WindowsFailed;
    var kept := Some(s.t.policies[p].revision + 1);
    var windowed := s.t.(windows := FailWindows(s.t.windows, s.t.jobs, p, kept));
    CascadeWithdraws(s.t, Bumped(windowed, p, config), p, kept, "DYNAMIC_POLICY_CHANGED");
    WindowsGo(s.t.windows, s.t.jobs, s.t.policies, p, kept);
    hide Cascade, FailWindows;
  }

  /** A removal pauses the policy under its next revision and withdraws the same rows, but no launch window. */
  lemma RemovesExactly(s: System, p: PolicyId)
    requires Reachable(s) && p in s.t.policies
    ensures var after := Next(s, DropPolicy(p)).t;
            && after.policies == s.t.policies[p := Policy(s.t.policies[p].revision + 1,
                                                         s.t.policies[p].config.(mode := Paused, enabled := false))]
            && Withdrawn(s.t, after, p, "DYNAMIC_POLICY_REMOVED") && after.windows == s.t.windows
  {
    ReachableOk(s);
    assert TablesInv(s.t);
    hide Reachable, SystemInv, TablesInv, HistoryAfter, Withdrawn;
    var paused := s.t.policies[p].config.(mode := Paused, enabled := false);
    CascadeWithdraws(s.t, Bumped(s.t, p, paused), p, None, "DYNAMIC_POLICY_REMOVED");
    hide Cascade;
  }

  // ----- claiming a signal -----

  /**
   A live process takes a signal exactly when it is recorded, live, and its whitelist row is active,
   ready, and at the version the signal waits for; the signal then is pending and nothing else changes.
  */
  lemma ClaimsExactly(s: System, p: nat, x: SignalId)
    requires x in s.t.signals && LiveRunOf(s, p).LiveIdle?
    ensures var signal, after := s.t.signals[x], Next(s, OfLive(p, LiveStep.ClaimSignal(x)));
            if && signal.status == SigRecorded && signal.mode == Live
               && signal.whitelist in s.t.whitelist
               && s.t.whitelist[signal.whitelist].active && s.t.whitelist[signal.whitelist].liveReady
               && (signal.waitVersion.Some? ==> signal.waitVersion.value == s.t.whitelist[signal.whitelist].activationVersion)
            then after.t == s.t.(signals := s.t.signals[x := signal.(status := SigPending)]) && LiveRunOf(after, p) == LiveClaimed(x)
            else after.t == s.t && LiveRunOf(after, p) == LiveIdle
  {
    hide HistoryAfter;
  }

  /**
   In a reachable state such a signal is for the candidate that its job resolved to, under the
   policy as it is now, and its whitelist row is the one active row for that candidate.
  */
  lemma ClaimsAreCleared(s: System, p: nat, x: SignalId)
    requires Reachable(s) && x in s.t.signals && LiveRunOf(s, p).LiveIdle?
    requires LiveRunOf(Next(s, OfLive(p, LiveStep.ClaimSignal(x))), p) == LiveClaimed(x)
    ensures var signal := s.t.signals[x];
            && signal.policy in s.t.policies && s.t.policies[signal.policy].revision == signal.revision
            && s.t.policies[signal.policy].config == signal.hash
            && signal.job in s.t.jobs && s.t.jobs[signal.job].status == Resolved && s.t.jobs[signal.job].mode == Live
            && signal.job in s.t.attempts && s.t.attempts[signal.job].result.ResolvedTo?
            && var c := s.t.attempts[signal.job].result.selected;
            && signal.whitelist in s.t.whitelist
            && var row := s.t.whitelist[signal.whitelist];
            && row.active && row.liveReady && row.key == TargetKey(signal.policy, c.chain, c.address)
            && forall w :: w in s.t.whitelist && s.t.whitelist[w].active && s.t.whitelist[w].key == row.key ==> w == signal.whitelist
  {
    ClaimsExactly(s, p, x);
    RevisionFence(s);
    SignalNamesItsCandidate(s);
    ReachableOk(s);
    assert SignalJobs(s.t.signals, s.t.jobs);
    hide Reachable, SystemInv, Next;
  }

  /** A process whose call was refused rejects its signal while it is still pending, and leaves it otherwise. */
  lemma RejectsExactly(s: System, p: nat)
    requires LiveRunOf(s, p).LiveCalled?
    ensures var x, after := LiveRunOf(s, p).signal, Next(s, OfLive(p, RejectIt));
            && LiveRunOf(after, p) == LiveIdle
            && after.t == if x in s.t.signals && s.t.signals[x].status == SigPending
                          then s.t.(signals := s.t.signals[x := s.t.signals[x].(status := SigRejected)]) else s.t
  {
    hide HistoryAfter;
  }

  /** Expiry, a shut gate and a failed activation withdraw a signal while it is recorded, and never later. */
  lemma WithdrawsExactly(s: System, x: SignalId, status: SignalStatus)
    ensures Next(s, WithdrawSignal(x, status)).t
         == if status in {SigSignalOnly, SigExpired} && x in s.t.signals && s.t.signals[x].status == SigRecorded
            then s.t.(signals := s.t.signals[x := s.t.signals[x].(status := status)]) else s.t
  {
    hide HistoryAfter;
  }

  // ----- who makes a row ready -----

  /** No row is ready that was not ready before. */
  ghost predicate NoneReadied(a: Rows, b: Rows) {
    forall w :: w in b && b[w].liveReady ==> w in a && a[w].liveReady
  }

  lemma ArchiveReadiesNone(rows: Rows, p: PolicyId, kept: Option<nat>)
    ensures NoneReadied(rows, rows) && NoneReadied(rows, ArchiveWhitelist(rows, p, kept))
  {
  }

  lemma CascadeReadiesNone(rows: Rows, u: Tables, p: PolicyId, kept: Option<nat>, code: string)
    requires u.whitelist == rows
    ensures NoneReadied(rows, Cascade(u, p, kept, code).whitelist)
  {
    ArchiveReadiesNone(rows, p, kept);
    hide NoneReadied, ArchiveWhitelist, ActiveRows, WithdrawSignals, PauseTargets, CancelJobs;
  }

  lemma EditReadiesNone(t: Tables, p: PolicyId, config: Config)
    ensures NoneReadied(t.whitelist, UpsertPolicy(t, p, config).whitelist)
  {
    ArchiveReadiesNone(t.whitelist, p, None);
    if p in t.policies {
      var kept := Some(t.policies[p].revision + 1);
      var windowed := t.(windows := FailWindows(t.windows, t.jobs, p, kept));
      CascadeReadiesNone(t.whitelist, Bumped(windowed, p, config), p, kept, "DYNAMIC_POLICY_CHANGED");
    }
    hide NoneReadied, Cascade, FailWindows;
  }

  lemma RemovalReadiesNone(t: Tables, p: PolicyId)
    ensures NoneReadied(t.whitelist, RemovePolicy(t, p).whitelist)
  {
    ArchiveReadiesNone(t.whitelist, p, None);
    if p in t.policies {
      var paused := t.policies[p].config.(mode := Paused, enabled := false);
      CascadeReadiesNone(t.whitelist, Bumped(t, p, paused), p, None, "DYNAMIC_POLICY_REMOVED");
    }
    hide NoneReadied, Cascade;
  }

  lemma CommitReadiesNone(t: Tables, ctx: Context, result: Resolution)
    requires Commit(t, ctx, result).Some?
    ensures NoneReadied(t.whitelist, Commit(t, ctx, result).value.whitelist)
  {
    ClosedParts(t, ctx, result);
    ArchiveReadiesNone(t.whitelist, 0, None);
    if result.ResolvedTo? { SignalReadiesNone(Closed(t, ctx, result), ctx, result.selected); }
    hide Closed, WriteSignal, NoneReadied, TargetAllowed;
  }

  lemma SignalReadiesNone(t: Tables, ctx: Context, selected: Candidate)
    ensures NoneReadied(t.whitelist, WriteSignal(t, ctx, selected).whitelist)
  {
  }

  lemma LiveReadiesNone(t: Tables, run: LiveRun, step: LiveStep)
    ensures LiveStepOf(t, run, step).0.whitelist == t.whitelist
  {
    hide LiveClaimable;
  }

  lemma StepReadiesNone(s: System, step: Step)
    requires !step.Activate?
    ensures NoneReadied(s.t.whitelist, TablesAfter(s, step).whitelist)
  {
    ArchiveReadiesNone(s.t.whitelist, 0, None);
    hide NoneReadied, Commit, WindowStepOf, LiveStepOf, UpsertPolicy, RemovePolicy, RollbackCode, Enqueue, ExpireWindows;
    match step
    case EditPolicy(p, config) => EditReadiesNone(s.t, p, config);
    case DropPolicy(p) => RemovalReadiesNone(s.t, p);
    case OfWindow(w, ws) => WindowWrites(s.t, w, WindowRunOf(s, w), ws);
    case OfLive(p, ls) => LiveReadiesNone(s.t, LiveRunOf(s, p), ls);
    case OfWorker(w, js) => WorkerReadiesNone(s.t, w, RunOf(s, w), js);
    case EnqueueOne(activity, e, p, row, flags) => EnqueueReadiesNone(s.t, activity, e, p, row, flags);
    case _ => OtherReadiesNone(s, step);
  }

  lemma EnqueueReadiesNone(t: Tables, activity: ActivityId, e: EventType, p: PolicyId, row: Policy, flags: Flags)
    ensures Enqueue(t, activity, e, p, row, flags).whitelist == t.whitelist
  {
  }

  lemma WorkerReadiesNone(t: Tables, w: nat, run: Run, step: JobStep)
    ensures NoneReadied(t.whitelist, JobStepOf(t, w, run, step).0.whitelist)
  {
    ArchiveReadiesNone(t.whitelist, 0, None);
    if step.TryCommit? {
      hide NoneReadied, Commit, RollbackCode;
      if run.Ready? && Commit(t, run.ctx, run.result).Some? { CommitReadiesNone(t, run.ctx, run.result); }
    } else {
      hide NoneReadied, JobStepOf;
      WorkerWrites(t, w, run, step);
    }
  }

  lemma OtherReadiesNone(s: System, step: Step)
    requires step.Tick? || step.SweepWindows? || step.WithdrawSignal? || step.TradeWrite?
    ensures TablesAfter(s, step).whitelist == s.t.whitelist
  {
  }

  /** A row becomes ready for live trading by the activation of its own version alone, while it is active. */
  lemma ReadyByActivationOnly(s: System, step: Step, w: WhitelistId)
    requires w in Next(s, step).t.whitelist && Next(s, step).t.whitelist[w].liveReady
    ensures w in s.t.whitelist
    ensures !s.t.whitelist[w].liveReady ==>
              step == Activate(w, s.t.whitelist[w].activationVersion) && s.t.whitelist[w].active
  {
    hide HistoryAfter;
    if !step.Activate? {
      StepReadiesNone(s, step);
      hide TablesAfter;
    }
  }
}
