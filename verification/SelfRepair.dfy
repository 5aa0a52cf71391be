/**
 Recovery of stuck jobs (src/agent/self_repair.rs and the `help` command of
 src/agent/agent_loop.rs): its limit, and what becomes of a job that was recovered.
 */
module SelfRepair {
  import opened Wrappers
  import opened JobState
  import opened ContextManager
  import opened Scheduler

  // ---------------------------------------------------------------------
  // One pass of the repair loop
  // ---------------------------------------------------------------------

  datatype StuckJob = StuckJob(id: JobId, repairAttempts: nat)

  datatype RepairResult = Success | Retry | ManualRequired

  predicate IsStuck(c: Contexts, id: JobId) {
    id in c && c[id].state == Stuck
  }

  /** Looks at the jobs of `ids` in turn; `tables[i]` is the table when its lock is taken for the i-th. */
  method DetectStuckJobs(ids: seq<JobId>, tables: seq<Contexts>) returns (stuck: seq<StuckJob>)
    requires |tables| == |ids|
    ensures forall j :: j in stuck <==> exists i :: 0 <= i < |ids| && Reports(tables[i], ids[i], j)
    ensures |stuck| <= |ids|
  {
    stuck := [];
    for i := 0 to |ids|
      invariant |stuck| <= i
      invariant forall j :: j in stuck <==> exists k :: 0 <= k < i && Reports(tables[k], ids[k], j)
    {
      var id := ids[i];
      if id in tables[i] && tables[i][id].state == Stuck {
        stuck := stuck + [StuckJob(id, tables[i][id].repairAttempts)];
      }
    }
  }

  predicate Reports(c: Contexts, id: JobId, j: StuckJob) {
    IsStuck(c, id) && j == StuckJob(id, c[id].repairAttempts)
  }

  /**
   Repairs one reported job. The limit is checked against the count in the report, the
   state against the context as it is now.
   */
  method RepairStuckJob(cm: Manager, job: StuckJob, maxRepair: nat, now: int)
    returns (r: Result<RepairResult, ContextError>)
    requires cm.Valid()
    modifies cm
    ensures cm.Valid()
    ensures cm.contexts == if job.repairAttempts >= maxRepair then old(cm.contexts)
                           else Updated(old(cm.contexts), job.id, Recover(now))
    ensures r == Ok(ManualRequired) <==> job.repairAttempts >= maxRepair
    ensures r == Ok(Success) <==> job.repairAttempts < maxRepair && IsStuck(old(cm.contexts), job.id)
    ensures r.Err? <==> job.repairAttempts < maxRepair && job.id !in old(cm.contexts)
  {
    if job.repairAttempts >= maxRepair {
      return Ok(ManualRequired);
    }
    var wasStuck := IsStuck(cm.contexts, job.id);
    var updated := cm.UpdateContext(job.id, Recover(now));
    match updated {
      case Err(e) => return Err(e);
      case Ok(_) => return Ok(if wasStuck then Success else Retry);
    }
  }

  // ---------------------------------------------------------------------
  // The attempt limit
  // ---------------------------------------------------------------------

  /** The counts that the loop has read are still current, and none is over the limit. */
  ghost predicate WithinLimit(cfg: Config, s: Sys) {
    && (forall id :: id in s.contexts ==> s.contexts[id].repairAttempts <= cfg.maxRepair)
    && (forall id :: id in s.found && id in s.contexts ==> s.found[id] == s.contexts[id].repairAttempts)
    && (forall id :: id in s.found ==> id < s.nextJob)
  }

  lemma RequestKeepsAttempts(j: Job, to: State, reason: Option<string>, now: int)
    ensures Apply(j, Request(to, reason, now)).repairAttempts == j.repairAttempts
  {
  }

  lemma RequestKeepsLimit(cfg: Config, s: Sys, id: JobId, op: JobOp)
    requires op.Request? && WithinLimit(cfg, s)
    ensures WithinLimit(cfg, OnContext(s, id, op))
  {
    if id in s.contexts {
      RequestKeepsAttempts(s.contexts[id], op.to, op.reason, op.now);
    }
    hide Apply;
  }

  lemma RepairKeepsLimit(cfg: Config, s: Sys, id: JobId, now: int)
    requires WithinLimit(cfg, s)
    ensures WithinLimit(cfg, Repair(cfg, s, id, now))
  {
  }

  lemma StepKeepsLimit(cfg: Config, s: Sys, a: Action)
    requires WithinLimit(cfg, s) && Fresh(s) && !a.Help?
    ensures WithinLimit(cfg, Step(cfg, s, a))
  {
    hide Updated, Active, Decide;
    match a
    case CreateJob => assert Create(cfg, s).found == s.found;
    case RemoveJob(id) => assert Forget(s, id).found == s.found;
    case ScheduleLocked(id, now) => RequestKeepsLimit(cfg, s, id, Request(InProgress, SCHEDULED, now));
    case StopCancel(now) =>
      if s.lock.Stopping? { RequestKeepsLimit(cfg, s, s.lock.job, Request(Cancelled, STOPPED, now)); }
    case WorkerMark(worker, to, reason, now) =>
      if CanMark(s, worker, to) {
        RequestKeepsLimit(cfg, Done(s, worker), s.live[worker].job, Request(to, Some(reason), now));
      }
    case ToolCancel(id, now) => RequestKeepsLimit(cfg, s, id, Request(Cancelled, USER_CANCELLED, now));
    case RepairApply(id, now) => RepairKeepsLimit(cfg, s, id, now);
    case _ =>
  }

  lemma {:induction false} ExecKeepsLimit(cfg: Config, s: Sys, acts: seq<Action>)
    requires Inv(cfg, s) && WithinLimit(cfg, s)
    requires forall i :: 0 <= i < |acts| ==> !acts[i].Help?
    ensures WithinLimit(cfg, Exec(cfg, s, acts))
    decreases acts
  {
    hide Tracked, CleanupsSafe, Capacity, Step, WithinLimit;
    if acts != [] {
      StepKeepsInv(cfg, s, acts[0]);
      StepKeepsLimit(cfg, s, acts[0]);
      ExecKeepsLimit(cfg, Step(cfg, s, acts[0]), acts[1..]);
    }
  }

  /** While the repair loop is the only recoverer, no job exceeds the attempt limit in any interleaving. */
  lemma AttemptLimitHolds(cfg: Config, acts: seq<Action>, id: JobId)
    requires forall i :: 0 <= i < |acts| ==> !acts[i].Help?
    requires id in Exec(cfg, Init(), acts).contexts
    ensures Exec(cfg, Init(), acts).contexts[id].repairAttempts <= cfg.maxRepair
  {
    ExecKeepsLimit(cfg, Init(), acts);
  }

  // ---------------------------------------------------------------------
  // What recovery leads to
  // ---------------------------------------------------------------------

  /** No worker of this job has work left to do. */
  ghost predicate Idle(s: Sys, id: JobId) {
    forall w :: w in s.live && s.live[w].job == id ==> s.live[w].done
  }

  /** A job becomes stuck only when its one worker has given up. */
  ghost predicate StuckIsIdle(s: Sys) {
    forall id :: IsStuck(s.contexts, id) ==> Idle(s, id)
  }

  lemma WorkersOfOneJob(s: Sys, v: WorkerId, w: WorkerId)
    requires Tracked(s) && v in s.live && w in s.live && s.live[v].job == s.live[w].job
    ensures v == w
  {
  }

  lemma MarkKeepsIdle(s: Sys, worker: WorkerId, to: State, reason: string, now: int)
    requires Tracked(s) && StuckIsIdle(s) && CanMark(s, worker, to)
    ensures StuckIsIdle(Mark(s, worker, to, reason, now))
  {
    var s' := Mark(s, worker, to, reason, now);
    var job := s.live[worker].job;
    forall w | w in s.live && s.live[w].job == job
      ensures w == worker
    {
      WorkersOfOneJob(s, w, worker);
    }
    hide Tracked;
    forall id | IsStuck(s'.contexts, id)
      ensures Idle(s', id)
    {
      if id != job {
        assert IsStuck(s.contexts, id);
      }
    }
  }

  /** An operation that does not make the job stuck makes no job stuck. */
  lemma ContextKeepsIdle(s: Sys, id: JobId, op: JobOp)
    requires StuckIsIdle(s) && (op.Request? ==> op.to != Stuck)
    ensures StuckIsIdle(OnContext(s, id, op))
  {
    var s' := OnContext(s, id, op);
    forall k | IsStuck(s'.contexts, k)
      ensures Idle(s', k)
    {
      assert IsStuck(s.contexts, k);
    }
  }

  lemma ScheduleKeepsIdle(cfg: Config, s: Sys, id: JobId, now: int)
    requires StuckIsIdle(s) && Fresh(s) && s.lock == Free && Decide(cfg, s, id) == Started
    ensures StuckIsIdle(ScheduleBegin(cfg, s, id, now))
  {
    var s' := ScheduleBegin(cfg, s, id, now);
    forall k | IsStuck(s'.contexts, k)
      ensures Idle(s', k)
    {
      assert k != id && IsStuck(s.contexts, k);
    }
  }

  /** Steps that touch neither a context nor the worker table, or only take away. */
  lemma ShrinkKeepsIdle(s: Sys, s': Sys)
    requires StuckIsIdle(s)
    requires forall id :: IsStuck(s'.contexts, id) ==> IsStuck(s.contexts, id)
    requires forall w :: w in s'.live ==> w in s.live && s'.live[w] == s.live[w]
    ensures StuckIsIdle(s')
  {
  }

  lemma StepKeepsIdle(cfg: Config, s: Sys, a: Action)
    requires Inv(cfg, s) && StuckIsIdle(s)
    ensures StuckIsIdle(Step(cfg, s, a))
  {
    hide Tracked, CleanupsSafe, Capacity, Updated, Active, Decide, CanMark, StuckIsIdle;
    match a
    case ScheduleLocked(id, now) =>
      if s.lock == Free && Decide(cfg, s, id) == Started { ScheduleKeepsIdle(cfg, s, id, now); }
    case StopCancel(now) =>
      if s.lock.Stopping? && s.lock.aborted {
        ContextKeepsIdle(s, s.lock.job, Request(Cancelled, STOPPED, now));
        ShrinkKeepsIdle(OnContext(s, s.lock.job, Request(Cancelled, STOPPED, now)), StopEnd(s, now));
      }
    case WorkerMark(worker, to, reason, now) =>
      if CanMark(s, worker, to) { MarkKeepsIdle(s, worker, to, reason, now); }
    case ToolCancel(id, now) => ContextKeepsIdle(s, id, Request(Cancelled, USER_CANCELLED, now));
    case RepairApply(id, now) =>
      ShrinkKeepsIdle(s, s.(found := s.found - {id}));
      ContextKeepsIdle(s.(found := s.found - {id}), id, Recover(now));
    case Help(id, now) => ContextKeepsIdle(s, id, Recover(now));
    case _ => ShrinkKeepsIdle(s, Step(cfg, s, a));
  }

  lemma {:induction false} ExecKeepsIdle(cfg: Config, s: Sys, acts: seq<Action>)
    requires Inv(cfg, s) && StuckIsIdle(s)
    ensures StuckIsIdle(Exec(cfg, s, acts))
    decreases acts
  {
    hide Inv, Step, StuckIsIdle;
    if acts != [] {
      StepKeepsInv(cfg, s, acts[0]);
      StepKeepsIdle(cfg, s, acts[0]);
      ExecKeepsIdle(cfg, Step(cfg, s, acts[0]), acts[1..]);
    }
  }

  /** In progress with nobody working on it, or over. */
  ghost predicate Stranded(s: Sys, id: JobId) {
    && id < s.nextJob
    && Idle(s, id)
    && (id in s.contexts ==> s.contexts[id].state == InProgress || Closed(s.contexts[id].state))
  }

  lemma StrandedOnContext(s: Sys, target: JobId, op: JobOp, id: JobId)
    requires Stranded(s, id) && (target == id && op.Request? ==> op.to == InProgress || op.to == Cancelled)
    ensures Stranded(OnContext(s, target, op), id)
  {
  }

  lemma StrandedIsRefused(cfg: Config, s: Sys, id: JobId)
    requires Stranded(s, id)
    ensures Decide(cfg, s, id) != Started
  {
  }

  lemma StrandedStep(cfg: Config, s: Sys, a: Action, id: JobId)
    requires Fresh(s) && Stranded(s, id)
    ensures Stranded(Step(cfg, s, a), id)
  {
    hide Updated, Decide, Active;
    if a.WorkerMark? && CanMark(s, a.worker, a.to) {
      StrandedOnContext(Done(s, a.worker), s.live[a.worker].job, Request(a.to, Some(a.reason), a.now), id);
    } else if a.RepairApply? {
      StrandedOnContext(s.(found := s.found - {a.id}), a.id, Recover(a.now), id);
    } else if a.StopCancel? && s.lock.Stopping? {
      StrandedOnContext(s, s.lock.job, Request(Cancelled, STOPPED, a.now), id);
    } else if a.ScheduleLocked? {
      StrandedIsRefused(cfg, s, id);
      StrandedOnContext(s, a.id, Request(InProgress, SCHEDULED, a.now), id);
    } else if a.ToolCancel? {
      StrandedOnContext(s, a.id, Request(Cancelled, USER_CANCELLED, a.now), id);
    } else if a.Help? {
      StrandedOnContext(s, a.id, Recover(a.now), id);
    }
  }

  lemma {:induction false} StrandedStays(cfg: Config, s: Sys, acts: seq<Action>, id: JobId)
    requires Inv(cfg, s) && Stranded(s, id)
    ensures Stranded(Exec(cfg, s, acts), id)
    decreases acts
  {
    hide Tracked, CleanupsSafe, Capacity, Step, Stranded;
    if acts != [] {
      StepKeepsInv(cfg, s, acts[0]);
      StrandedStep(cfg, s, acts[0], id);
      StrandedStays(cfg, Step(cfg, s, acts[0]), acts[1..], id);
    }
  }

  lemma RecoveryStrands(s: Sys, id: JobId, now: int)
    requires Fresh(s) && StuckIsIdle(s) && IsStuck(s.contexts, id)
    ensures Stranded(OnContext(s, id, Recover(now)), id)
  {
  }

  predicate IsRecovery(cfg: Config, s: Sys, a: Action) {
    (a.Help? || (a.RepairApply? && a.id in s.found && s.found[a.id] < cfg.maxRepair)) && IsStuck(s.contexts, a.id)
  }

  lemma RecoveryStrandsNow(cfg: Config, s: Sys, a: Action)
    requires Fresh(s) && StuckIsIdle(s) && IsRecovery(cfg, s, a)
    ensures Stranded(Step(cfg, s, a), a.id)
  {
    if a.RepairApply? {
      ShrinkKeepsIdle(s, s.(found := s.found - {a.id}));
      RecoveryStrands(s.(found := s.found - {a.id}), a.id, a.now);
    } else {
      RecoveryStrands(s, a.id, a.now);
    }
    hide Stranded, OnContext;
  }

  /**
   A recovered job is not retried: whatever happens after the recovery, by the repair loop or by
   `help`, no worker ever works on the job again. It stays in progress with nobody working on it
   until it is cancelled or removed.
   */
  lemma RecoveredIsNotRetried(cfg: Config, before: seq<Action>, recovery: Action, after: seq<Action>)
    requires IsRecovery(cfg, Exec(cfg, Init(), before), recovery)
    ensures Stranded(Exec(cfg, Step(cfg, Exec(cfg, Init(), before), recovery), after), recovery.id)
  {
    ReachableInv(cfg, before);
    ExecKeepsIdle(cfg, Init(), before);
    hide Exec, Tracked, CleanupsSafe, Capacity, Stranded, StuckIsIdle, Step, IsRecovery;
    var s := Exec(cfg, Init(), before);
    StepKeepsInv(cfg, s, recovery);
    RecoveryStrandsNow(cfg, s, recovery);
    StrandedStays(cfg, Step(cfg, s, recovery), after, recovery.id);
  }

  // ---------------------------------------------------------------------
  // Whether the limit can be exceeded
  // ---------------------------------------------------------------------

  /** A job is recovered at most once: afterwards it is stranded, and a stranded job never gets stuck. */
  ghost predicate RecoveredOnce(s: Sys) {
    forall id :: id in s.contexts ==>
      s.contexts[id].repairAttempts <= 1 && (s.contexts[id].repairAttempts == 1 ==> Stranded(s, id))
  }

  lemma RecoverCounts(j: Job, now: int)
    ensures Apply(j, Recover(now)).repairAttempts == j.repairAttempts + if j.state == Stuck then 1 else 0
  {
  }

  /** The one context operation of an action, with the job that it is for. */
  function ContextOp(cfg: Config, s: Sys, a: Action): Option<(JobId, JobOp)> {
    match a
    case ScheduleLocked(id, now) =>
      if s.lock == Free && Decide(cfg, s, id) == Started then Some((id, Request(InProgress, SCHEDULED, now)))
      else None
    case StopCancel(now) =>
      if s.lock.Stopping? && s.lock.aborted then Some((s.lock.job, Request(Cancelled, STOPPED, now))) else None
    case WorkerMark(worker, to, reason, now) =>
      if CanMark(s, worker, to) then Some((s.live[worker].job, Request(to, Some(reason), now))) else None
    case ToolCancel(id, now) => Some((id, Request(Cancelled, USER_CANCELLED, now)))
    case RepairApply(id, now) =>
      if id in s.found && s.found[id] < cfg.maxRepair then Some((id, Recover(now))) else None
    case Help(id, now) => Some((id, Recover(now)))
    case _ => None
  }

  /** Beside creation and removal, an action changes the contexts by its operation only. */
  lemma StepOnContexts(cfg: Config, s: Sys, a: Action)
    ensures var after := Step(cfg, s, a).contexts; var op := ContextOp(cfg, s, a);
      match a
      case CreateJob => after == s.contexts || after == s.contexts[s.nextJob := NewJob()]
      case RemoveJob(id) => after == s.contexts - {id}
      case _ => after == if op.Some? then Updated(s.contexts, op.value.0, op.value.1) else s.contexts
  {
    hide Active, Decide, CanMark, Updated;
  }

  lemma OpKinds(cfg: Config, s: Sys, a: Action)
    ensures var op := ContextOp(cfg, s, a);
      && (op.Some? && op.value.1.Request? && op.value.1.to == InProgress <==> a.ScheduleLocked? && op.Some?)
      && (op.Some? && op.value.1.Recover? <==>
            a.Help? || (a.RepairApply? && a.id in s.found && s.found[a.id] < cfg.maxRepair))
      && (op.Some? && op.value.1.Recover? ==> op.value.0 == a.id)
      && (a.CreateJob? || a.RemoveJob? ==> op == None)
  {
    hide Decide;
  }

  predicate Recovers(cfg: Config, s: Sys, a: Action, id: JobId) {
    IsRecovery(cfg, s, a) && a.id == id
  }

  /** Only a recovery counts an attempt. */
  lemma AttemptsAfter(cfg: Config, s: Sys, a: Action, id: JobId)
    requires id in s.contexts && id in Step(cfg, s, a).contexts && id != s.nextJob
    ensures Step(cfg, s, a).contexts[id].repairAttempts ==
            s.contexts[id].repairAttempts + if Recovers(cfg, s, a, id) then 1 else 0
  {
    hide Apply, Step, ContextOp;
    StepOnContexts(cfg, s, a);
    OpKinds(cfg, s, a);
    var op := ContextOp(cfg, s, a);
    if op.Some? && op.value.0 == id {
      match op.value.1
      case Request(to, reason, now) => RequestKeepsAttempts(s.contexts[id], to, reason, now);
      case Recover(now) => RecoverCounts(s.contexts[id], now);
    }
  }

  lemma StepKeepsRecoveredOnce(cfg: Config, s: Sys, a: Action)
    requires Inv(cfg, s) && StuckIsIdle(s) && RecoveredOnce(s)
    ensures RecoveredOnce(Step(cfg, s, a))
  {
    hide Inv, Step, Stranded, StuckIsIdle, IsRecovery;
    InvIsFresh(cfg, s);
    var s' := Step(cfg, s, a);
    forall id | id in s'.contexts
      ensures s'.contexts[id].repairAttempts <= 1 && (s'.contexts[id].repairAttempts == 1 ==> Stranded(s', id))
    {
      if id in s.contexts {
        AttemptsAfter(cfg, s, a, id);
        if s.contexts[id].repairAttempts == 1 {
          StrandedIsNotStuck(cfg, s, a, id);
          StrandedStep(cfg, s, a, id);
        } else if Recovers(cfg, s, a, id) {
          RecoveryStrandsNow(cfg, s, a);
        }
      } else {
        OnlyCreatedJobsAppear(cfg, s, a, id);
      }
    }
  }

  lemma InvIsFresh(cfg: Config, s: Sys)
    requires Inv(cfg, s)
    ensures Fresh(s) && s.nextJob !in s.contexts
  {
  }

  lemma StrandedIsNotStuck(cfg: Config, s: Sys, a: Action, id: JobId)
    requires Stranded(s, id) && id in s.contexts
    ensures !Recovers(cfg, s, a, id)
  {
  }

  lemma OnlyCreatedJobsAppear(cfg: Config, s: Sys, a: Action, id: JobId)
    requires id !in s.contexts && id in Step(cfg, s, a).contexts
    ensures id == s.nextJob && Step(cfg, s, a).contexts[id] == NewJob()
  {
    hide Apply, Step, ContextOp;
    StepOnContexts(cfg, s, a);
  }

  lemma {:induction false} ExecKeepsRecoveredOnce(cfg: Config, s: Sys, acts: seq<Action>)
    requires Inv(cfg, s) && StuckIsIdle(s) && RecoveredOnce(s)
    ensures RecoveredOnce(Exec(cfg, s, acts))
    decreases acts
  {
    hide Inv, Step, StuckIsIdle, RecoveredOnce;
    if acts != [] {
      StepKeepsInv(cfg, s, acts[0]);
      StepKeepsIdle(cfg, s, acts[0]);
      StepKeepsRecoveredOnce(cfg, s, acts[0]);
      ExecKeepsRecoveredOnce(cfg, Step(cfg, s, acts[0]), acts[1..]);
    }
  }

  lemma NothingYet(cfg: Config)
    ensures Inv(cfg, Init()) && StuckIsIdle(Init()) && RecoveredOnce(Init())
  {
  }

  /** In every interleaving, by the repair loop or by `help`, no job is ever recovered twice. */
  lemma RecoveredAtMostOnce(cfg: Config, acts: seq<Action>, id: JobId)
    requires id in Exec(cfg, Init(), acts).contexts
    ensures Exec(cfg, Init(), acts).contexts[id].repairAttempts <= 1
    ensures IsStuck(Exec(cfg, Init(), acts).contexts, id) ==>
              Exec(cfg, Init(), acts).contexts[id].repairAttempts == 0
  {
    hide Exec, Inv;
    NothingYet(cfg);
    ExecKeepsRecoveredOnce(cfg, Init(), acts);
  }

  /** The `help` command checks no limit: it recovers every stuck job, for the first and last time. */
  lemma HelpIgnoresLimit(cfg: Config, acts: seq<Action>, id: JobId, now: int)
    requires IsStuck(Exec(cfg, Init(), acts).contexts, id)
    ensures var after := Step(cfg, Exec(cfg, Init(), acts), Help(id, now));
      id in after.contexts && after.contexts[id].state == InProgress && after.contexts[id].repairAttempts == 1
  {
    RecoveredAtMostOnce(cfg, acts, id);
    hide Exec;
  }

  ghost predicate StaysWithinLimit(cfg: Config) {
    forall acts, id :: id in Exec(cfg, Init(), acts).contexts ==>
      Exec(cfg, Init(), acts).contexts[id].repairAttempts <= cfg.maxRepair
  }

  function HelpRun(): seq<Action> {
    [CreateJob, ScheduleLocked(0, 0), ScheduleInsert, WorkerMark(0, Stuck, "Execution timeout", 0), Help(0, 0)]
  }

  /** The first states of `HelpRun`: one job, created, scheduled, stored in the map. */
  function HelpState(k: nat): Sys {
    var job := if k == 1 then NewJob() else Transitioned(NewJob(), InProgress, SCHEDULED, 0);
    var s := Init().(contexts := map[0 := job], nextJob := 1);
    if k == 1 then s
    else
      var scheduled := s.(live := map[0 := Worker(0, false)], nextWorker := 1);
      if k == 2 then scheduled.(lock := Scheduling(0, 0))
      else scheduled.(jobs := map[0 := 0], cleanups := map[0 := Cleanup(0, Checking)])
  }

  lemma HelpRunStarts(cfg: Config)
    requires cfg.maxJobs > 0 && cfg.maxParallel > 0
    ensures Step(cfg, Init(), CreateJob) == HelpState(1)
    ensures Step(cfg, HelpState(1), ScheduleLocked(0, 0)) == HelpState(2)
    ensures Step(cfg, HelpState(2), ScheduleInsert) == HelpState(3)
  {
    assert Active(Init().contexts) == {};
    assert Decide(cfg, HelpState(1), 0) == Started;
  }

  lemma HelpRunGetsStuck(cfg: Config)
    ensures var stuck := Step(cfg, HelpState(3), WorkerMark(0, Stuck, "Execution timeout", 0));
      IsStuck(stuck.contexts, 0) && stuck.contexts[0].repairAttempts == 0
  {
  }

  /** Wherever jobs can run at all, `help` takes a job over a limit of zero. */
  lemma HelpCanExceedLimit(cfg: Config)
    requires cfg.maxJobs > 0 && cfg.maxParallel > 0 && cfg.maxRepair == 0
    ensures 0 in Exec(cfg, Init(), HelpRun()).contexts
    ensures Exec(cfg, Init(), HelpRun()).contexts[0].repairAttempts > cfg.maxRepair
  {
    hide Step, HelpState;
    HelpRunStarts(cfg);
    var stuck := Step(cfg, HelpState(3), WorkerMark(0, Stuck, "Execution timeout", 0));
    HelpRunGetsStuck(cfg);
    HelpRecovers(cfg, stuck);
    ExecFive(cfg, Init(), HelpRun());
  }

  lemma HelpRecovers(cfg: Config, s: Sys)
    requires IsStuck(s.contexts, 0)
    ensures 0 in Step(cfg, s, Help(0, 0)).contexts
    ensures Step(cfg, s, Help(0, 0)).contexts[0].repairAttempts == s.contexts[0].repairAttempts + 1
  {
  }

  lemma ExecFive(cfg: Config, s: Sys, acts: seq<Action>)
    requires |acts| == 5
    ensures Exec(cfg, s, acts) ==
            Step(cfg, Step(cfg, Step(cfg, Step(cfg, Step(cfg, s, acts[0]), acts[1]), acts[2]), acts[3]), acts[4])
  {
    hide Step;
    var s1 := Step(cfg, s, acts[0]);
    var s2 := Step(cfg, s1, acts[1]);
    var s3 := Step(cfg, s2, acts[2]);
    var s4 := Step(cfg, s3, acts[3]);
    assert acts[1..][0] == acts[1] && acts[1..][1..] == acts[2..];
    assert acts[2..][0] == acts[2] && acts[2..][1..] == acts[3..];
    assert acts[3..][0] == acts[3] && acts[3..][1..] == acts[4..];
    assert acts[4..][0] == acts[4] && acts[4..][1..] == [];
    assert Exec(cfg, s4, acts[4..]) == Exec(cfg, Step(cfg, s4, acts[4]), []);
    assert Exec(cfg, s3, acts[3..]) == Exec(cfg, s4, acts[4..]);
    assert Exec(cfg, s2, acts[2..]) == Exec(cfg, s3, acts[3..]);
    assert Exec(cfg, s1, acts[1..]) == Exec(cfg, s2, acts[2..]);
  }

  lemma {:induction false} NoJobsNoContexts(cfg: Config, s: Sys, acts: seq<Action>)
    requires cfg.maxJobs == 0 && s.contexts == map[]
    ensures Exec(cfg, s, acts).contexts == map[]
    decreases acts
  {
    hide Step, ContextOp;
    if acts != [] {
      StepOnContexts(cfg, s, acts[0]);
      if acts[0].CreateJob? {
        NoJobIsCreated(cfg, s);
      }
      NoJobsNoContexts(cfg, Step(cfg, s, acts[0]), acts[1..]);
    }
  }

  lemma NoJobIsCreated(cfg: Config, s: Sys)
    requires cfg.maxJobs == 0
    ensures Step(cfg, s, CreateJob) == s
  {
    hide Active;
  }

  /** Without room for a worker no job ever leaves Pending, but to be cancelled. */
  ghost predicate NeverStarted(s: Sys) {
    && s.live == map[]
    && forall id :: id in s.contexts ==>
         s.contexts[id].repairAttempts == 0 && (s.contexts[id].state == Pending || s.contexts[id].state == Cancelled)
  }

  lemma {:induction false} NoRoomNoStart(cfg: Config, s: Sys, acts: seq<Action>)
    requires cfg.maxParallel == 0 && NeverStarted(s)
    ensures NeverStarted(Exec(cfg, s, acts))
    decreases acts
  {
    if acts != [] {
      NoRoomStep(cfg, s, acts[0]);
      hide Step, NeverStarted;
      NoRoomNoStart(cfg, Step(cfg, s, acts[0]), acts[1..]);
    }
  }

  lemma NoRoomOps(cfg: Config, s: Sys, a: Action)
    requires cfg.maxParallel == 0 && s.live == map[]
    ensures Step(cfg, s, a).live == map[]
    ensures var op := ContextOp(cfg, s, a); op.Some? && op.value.1.Request? ==> op.value.1.to == Cancelled
  {
    hide Active, Updated;
  }

  lemma NoRoomStep(cfg: Config, s: Sys, a: Action)
    requires cfg.maxParallel == 0 && NeverStarted(s)
    ensures NeverStarted(Step(cfg, s, a))
  {
    hide Step, ContextOp;
    NoRoomOps(cfg, s, a);
    StepOnContexts(cfg, s, a);
  }

  /**
   Every run, with `help` or without, stays within the attempt limit if and only if the limit is at least
   one, or no job can ever run.
   */
  lemma WithinLimitIff(cfg: Config)
    ensures StaysWithinLimit(cfg) <==> cfg.maxRepair >= 1 || cfg.maxJobs == 0 || cfg.maxParallel == 0
  {
    hide Exec;
    if cfg.maxRepair == 0 && cfg.maxJobs > 0 && cfg.maxParallel > 0 {
      HelpCanExceedLimit(cfg);
    } else {
      forall acts, id | id in Exec(cfg, Init(), acts).contexts
        ensures Exec(cfg, Init(), acts).contexts[id].repairAttempts <= cfg.maxRepair
      {
        if cfg.maxRepair >= 1 {
          RecoveredAtMostOnce(cfg, acts, id);
        } else if cfg.maxJobs == 0 {
          NoJobsNoContexts(cfg, Init(), acts);
        } else {
          NoRoomNoStart(cfg, Init(), acts);
        }
      }
    }
  }

  // ---------------------------------------------------------------------
  // The contexts of a run
  // ---------------------------------------------------------------------

  ghost predicate AllReachable(c: Contexts) {
    forall id :: id in c ==> Reachable(c[id])
  }

  lemma NewJobReachable()
    ensures Reachable(NewJob())
  {
    assert RunJob([]) == NewJob();
  }

  lemma ApplyReachable(j: Job, op: JobOp)
    requires Reachable(j)
    ensures Reachable(Apply(j, op))
  {
    var ops :| j == RunJob(ops);
    assert (ops + [op])[..|ops|] == ops;
    assert RunJob(ops + [op]) == Apply(j, op);
  }

  lemma UpdatedReachable(c: Contexts, id: JobId, op: JobOp)
    requires AllReachable(c)
    ensures AllReachable(Updated(c, id, op))
  {
    if id in c {
      ApplyReachable(c[id], op);
    }
    hide Reachable, Apply;
  }

  lemma StepReachable(cfg: Config, s: Sys, a: Action)
    requires AllReachable(s.contexts)
    ensures AllReachable(Step(cfg, s, a).contexts)
  {
    hide Step, ContextOp, Updated, Reachable;
    NewJobReachable();
    StepOnContexts(cfg, s, a);
    var op := ContextOp(cfg, s, a);
    if op.Some? {
      UpdatedReachable(s.contexts, op.value.0, op.value.1);
    }
  }

  lemma {:induction false} ExecReachable(cfg: Config, s: Sys, acts: seq<Action>)
    requires AllReachable(s.contexts)
    ensures AllReachable(Exec(cfg, s, acts).contexts)
    decreases acts
  {
    hide Step, AllReachable;
    if acts != [] {
      StepReachable(cfg, s, acts[0]);
      ExecReachable(cfg, Step(cfg, s, acts[0]), acts[1..]);
    }
  }

  /**
   Every context in every interleaving is what some run of operations on that one job leads to;
   so its stored history chains up to the current state and its completion time tells whether it is closed.
   */
  lemma ContextsInRuns(cfg: Config, acts: seq<Action>, id: JobId)
    requires id in Exec(cfg, Init(), acts).contexts
    ensures var j := Exec(cfg, Init(), acts).contexts[id];
      && Reachable(j)
      && |j.transitions| <= MAX_TRANSITIONS
      && (forall i :: 0 < i < |j.transitions| ==> j.transitions[i - 1].to == j.transitions[i].from)
      && (j.transitions != [] ==> j.transitions[|j.transitions| - 1].to == j.state)
      && (j.completedAt.Some? <==> Closed(j.state))
  {
    hide Exec, Reachable;
    ExecReachable(cfg, Init(), acts);
    ReachableFacts(Exec(cfg, Init(), acts).contexts[id]);
  }

  lemma ReachableFacts(j: Job)
    requires Reachable(j)
    ensures |j.transitions| <= MAX_TRANSITIONS
    ensures forall i :: 0 < i < |j.transitions| ==> j.transitions[i - 1].to == j.transitions[i].from
    ensures j.transitions != [] ==> j.transitions[|j.transitions| - 1].to == j.state
    ensures j.completedAt.Some? <==> Closed(j.state)
  {
    hide RunJob, FullLog;
    var ops :| j == RunJob(ops);
    StoredHistory(ops);
    CompletedAtIffClosed(ops);
  }

  // ---------------------------------------------------------------------
  // How long a job's run can be
  // ---------------------------------------------------------------------

  /** The operations that an action performs on the context of `id`: none or one. */
  function OpsOf(cfg: Config, s: Sys, a: Action, id: JobId): seq<JobOp> {
    var op := ContextOp(cfg, s, a);
    if id in s.contexts && op.Some? && op.value.0 == id then [op.value.1] else []
  }

  /** All operations of a run on the context of `id`. */
  function JobOps(cfg: Config, s: Sys, acts: seq<Action>, id: JobId): seq<JobOp>
    decreases acts
  {
    if acts == [] then []
    else OpsOf(cfg, s, acts[0], id) + JobOps(cfg, Step(cfg, s, acts[0]), acts[1..], id)
  }

  /** How often `schedule` starts the job anew out of Stuck. */
  function Reschedules(cfg: Config, s: Sys, acts: seq<Action>, id: JobId): nat
    decreases acts
  {
    if acts == [] then 0
    else
      (if acts[0].ScheduleLocked? && OpsOf(cfg, s, acts[0], id) != [] && s.contexts[id].state == Stuck then 1 else 0)
      + Reschedules(cfg, Step(cfg, s, acts[0]), acts[1..], id)
  }

  lemma OpsOfStep(cfg: Config, s: Sys, a: Action, id: JobId)
    requires id in s.contexts && id in Step(cfg, s, a).contexts && id != s.nextJob
    ensures var ops := OpsOf(cfg, s, a, id);
      && |ops| <= 1
      && Step(cfg, s, a).contexts[id] == (if ops == [] then s.contexts[id] else Apply(s.contexts[id], ops[0]))
      && (ops != [] && ops[0].Request? && ops[0].to == InProgress <==> a.ScheduleLocked? && ops != [])
  {
    hide Apply, Step, ContextOp;
    StepOnContexts(cfg, s, a);
    OpKinds(cfg, s, a);
  }

  /** The context is what its operations lead to, and `schedule` alone takes it out of Stuck by a plain request. */
  lemma {:induction false} JobOpsLead(cfg: Config, s: Sys, acts: seq<Action>, id: JobId, ops: seq<JobOp>)
    requires Inv(cfg, s)
    requires if id in s.contexts then s.contexts[id] == RunJob(ops) else ops == [] || id < s.nextJob
    requires id in Exec(cfg, s, acts).contexts
    ensures Exec(cfg, s, acts).contexts[id] == RunJob(ops + JobOps(cfg, s, acts, id))
    ensures PlainReentries(ops + JobOps(cfg, s, acts, id)) == PlainReentries(ops) + Reschedules(cfg, s, acts, id)
    decreases acts
  {
    hide Tracked, CleanupsSafe, Capacity, Step, OpsOf, RunJob, PlainReentries;
    if acts == [] {
      assert ops + [] == ops;
    } else {
      var s' := Step(cfg, s, acts[0]);
      var now := OpsOf(cfg, s, acts[0], id);
      StepKeepsInv(cfg, s, acts[0]);
      NextJobGrows(cfg, s, acts[0]);
      if id in s.contexts {
        if id in s'.contexts {
          OneStepLeads(cfg, s, acts[0], id, ops);
        } else {
          GoneForGood(cfg, s', acts[1..], id);
        }
      } else {
        NoOpsWithoutContext(cfg, s, acts[0], id);
        assert ops + now == ops;
        if id in s'.contexts {
          OnlyCreatedJobsAppear(cfg, s, acts[0], id);
          RunOfNothing();
        }
      }
      JobOpsLead(cfg, s', acts[1..], id, ops + now);
      assert ops + now + JobOps(cfg, s', acts[1..], id) == ops + JobOps(cfg, s, acts, id);
    }
  }

  lemma OneStepLeads(cfg: Config, s: Sys, a: Action, id: JobId, ops: seq<JobOp>)
    requires id in s.contexts && id in Step(cfg, s, a).contexts && id != s.nextJob && s.contexts[id] == RunJob(ops)
    ensures var now := OpsOf(cfg, s, a, id);
      && Step(cfg, s, a).contexts[id] == RunJob(ops + now)
      && PlainReentries(ops + now) ==
         PlainReentries(ops) + if a.ScheduleLocked? && now != [] && s.contexts[id].state == Stuck then 1 else 0
  {
    hide Apply, Step, OpsOf, RunJob, PlainReentries;
    OpsOfStep(cfg, s, a, id);
    var now := OpsOf(cfg, s, a, id);
    if now == [] {
      assert ops + now == ops;
    } else {
      assert now == [now[0]];
      RunJobSnoc(ops, now[0]);
    }
  }

  lemma RunOfNothing()
    ensures RunJob([]) == NewJob()
  {
  }

  lemma NoOpsWithoutContext(cfg: Config, s: Sys, a: Action, id: JobId)
    requires id !in s.contexts
    ensures OpsOf(cfg, s, a, id) == []
  {
  }

  lemma NextJobGrows(cfg: Config, s: Sys, a: Action)
    ensures s.nextJob <= Step(cfg, s, a).nextJob
  {
    hide Active, Decide, CanMark, Updated;
  }

  /** A job that was removed never comes back. */
  lemma {:induction false} GoneForGood(cfg: Config, s: Sys, acts: seq<Action>, id: JobId)
    requires Inv(cfg, s) && id !in s.contexts && id < s.nextJob
    ensures id !in Exec(cfg, s, acts).contexts
    decreases acts
  {
    hide Tracked, CleanupsSafe, Capacity, Step;
    if acts != [] {
      StepKeepsInv(cfg, s, acts[0]);
      NextJobGrows(cfg, s, acts[0]);
      if id in Step(cfg, s, acts[0]).contexts {
        OnlyCreatedJobsAppear(cfg, s, acts[0], id);
      }
      GoneForGood(cfg, Step(cfg, s, acts[0]), acts[1..], id);
    }
  }

  /**
   In every interleaving a job makes at most six transitions, and two more each time it is scheduled again
   out of Stuck.
   */
  lemma JobRunIsBounded(cfg: Config, acts: seq<Action>, id: JobId)
    requires id in Exec(cfg, Init(), acts).contexts
    ensures var ops := JobOps(cfg, Init(), acts, id); var j := Exec(cfg, Init(), acts).contexts[id];
      && j == RunJob(ops)
      && |FullLog(ops)| <= 4 + 2 * j.repairAttempts + 2 * Reschedules(cfg, Init(), acts, id)
      && |FullLog(ops)| <= 6 + 2 * Reschedules(cfg, Init(), acts, id)
  {
    NothingYet(cfg);
    JobOpsLead(cfg, Init(), acts, id, []);
    RecoveredAtMostOnce(cfg, acts, id);
    hide Exec, RunJob, FullLog, JobOps;
    assert [] + JobOps(cfg, Init(), acts, id) == JobOps(cfg, Init(), acts, id);
    TransitionBound(JobOps(cfg, Init(), acts, id));
  }
}
