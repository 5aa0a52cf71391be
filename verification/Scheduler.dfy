/**
 Jobs in parallel: the scheduler, the workers, the per-job cleanup tasks and the
 self-repair loop (src/agent/scheduler.rs, worker.rs and self_repair.rs).

 Tasks interleave between lock acquisitions. The write lock on the job map is a
 part of the state, because `schedule` and `stop` hold it while other tasks go on
 running. An action whose lock is taken or whose guard is false leaves the state
 as it was, so the runs of the system are all finite sequences of actions.
 */
module Scheduler {
  import opened Wrappers
  import opened JobState
  import opened ContextManager

  type WorkerId = nat

  datatype Config = Config(maxJobs: nat, maxParallel: nat, maxRepair: nat)

  /** Who holds the write lock on the job map. */
  datatype Lock =
    | Free
    | Scheduling(job: JobId, worker: WorkerId)
    | Stopping(job: JobId, worker: WorkerId, aborted: bool)

  /** A worker that is `done` has recorded its result and only has to return. */
  datatype Worker = Worker(job: JobId, done: bool)

  /** A cleanup task sleeps between its check and its removal: two lock acquisitions. */
  datatype Pc = Checking | Removing

  datatype Cleanup = Cleanup(job: JobId, pc: Pc)

  /**
   `jobs` holds the handle stored for each scheduled job, `live` every worker task that has
   not finished, `cleanups` the cleanup task spawned beside each worker, and `found` the
   attempt counts that the self-repair loop has read but not yet used.
   */
  datatype Sys = Sys(
    contexts: Contexts,
    jobs: map<JobId, WorkerId>,
    live: map<WorkerId, Worker>,
    cleanups: map<WorkerId, Cleanup>,
    lock: Lock,
    found: map<JobId, nat>,
    nextJob: JobId,
    nextWorker: WorkerId)

  function Init(): Sys {
    Sys(map[], map[], map[], map[], Free, map[], 0, 0)
  }

  datatype Action =
    | CreateJob
    | RemoveJob(id: JobId)
    | ScheduleLocked(id: JobId, now: int)
    | ScheduleInsert
    | StopLocked(id: JobId)
    | StopAbort
    | StopCancel(now: int)
    | CleanupCheck(task: WorkerId)
    | CleanupRemove(task: WorkerId)
    | WorkerMark(worker: WorkerId, to: State, reason: string, now: int)
    | WorkerExit(worker: WorkerId)
    | ToolCancel(id: JobId, now: int)
    | RepairObserve(id: JobId)
    | RepairApply(id: JobId, now: int)
    | Help(id: JobId, now: int)

  datatype ScheduleOutcome =
    | AlreadyScheduled
    | TooMany
    | Unknown
    | Refused
    | Started

  /** What `schedule` decides while it holds the lock. */
  function Decide(cfg: Config, s: Sys, id: JobId): ScheduleOutcome {
    if id in s.jobs then AlreadyScheduled
    else if |s.jobs| >= cfg.maxParallel then TooMany
    else if id !in s.contexts then Unknown
    else if !CanTransitionTo(s.contexts[id].state, InProgress) then Refused
    else Started
  }

  const SCHEDULED := Some("Scheduled for execution")
  const STOPPED := Some("Stopped by scheduler")
  const USER_CANCELLED := Some("Cancelled by user")

  function OnContext(s: Sys, id: JobId, op: JobOp): Sys {
    s.(contexts := Updated(s.contexts, id, op))
  }

  function Create(cfg: Config, s: Sys): Sys {
    if |Active(s.contexts)| >= cfg.maxJobs then s
    else s.(contexts := s.contexts[s.nextJob := NewJob()], nextJob := s.nextJob + 1)
  }

  function Forget(s: Sys, id: JobId): Sys {
    s.(contexts := s.contexts - {id})
  }

  /** `schedule` up to the spawn of the worker; the lock stays taken. */
  function ScheduleBegin(cfg: Config, s: Sys, id: JobId, now: int): Sys {
    if s.lock != Free || Decide(cfg, s, id) != Started then s
    else OnContext(s, id, Request(InProgress, SCHEDULED, now))
         .(live := s.live[s.nextWorker := Worker(id, false)],
           lock := Scheduling(id, s.nextWorker),
           nextWorker := s.nextWorker + 1)
  }

  /** The rest of `schedule`: store the handle, release the lock, spawn the cleanup task. */
  function ScheduleEnd(s: Sys): Sys {
    if !s.lock.Scheduling? then s
    else s.(jobs := s.jobs[s.lock.job := s.lock.worker],
            cleanups := s.cleanups[s.lock.worker := Cleanup(s.lock.job, Checking)],
            lock := Free)
  }

  /** `stop` takes the handle out of the map and keeps the lock. */
  function StopBegin(s: Sys, id: JobId): Sys {
    if s.lock != Free || id !in s.jobs then s
    else s.(jobs := s.jobs - {id}, lock := Stopping(id, s.jobs[id], false))
  }

  function WithoutWorker(s: Sys, worker: WorkerId): Sys {
    s.(live := s.live - {worker})
  }

  /** The same state, with the holder of the lock further on. */
  function WithLock(s: Sys, lock: Lock): Sys {
    s.(lock := lock)
  }

  function Abort(s: Sys): Sys {
    if !s.lock.Stopping? then s
    else WithLock(WithoutWorker(s, s.lock.worker), s.lock.(aborted := true))
  }

  /** The end of `stop`: cancel the context and release the lock. */
  function StopEnd(s: Sys, now: int): Sys {
    if !s.lock.Stopping? || !s.lock.aborted then s
    else OnContext(s, s.lock.job, Request(Cancelled, STOPPED, now)).(lock := Free)
  }

  function Check(s: Sys, task: WorkerId): Sys {
    if s.lock != Free || task !in s.cleanups || !Finished(s, s.cleanups[task].job) then s
    else s.(cleanups := s.cleanups[task := s.cleanups[task].(pc := Removing)])
  }

  function Remove(s: Sys, task: WorkerId): Sys {
    if s.lock != Free || task !in s.cleanups || s.cleanups[task].pc != Removing then s
    else s.(jobs := s.jobs - {s.cleanups[task].job}, cleanups := s.cleanups - {task})
  }

  /** A worker records how its job ended, once; the transition may be refused. */
  predicate CanMark(s: Sys, worker: WorkerId, to: State) {
    && worker in s.live && !s.live[worker].done
    && (to == Completed || to == Failed || to == Stuck)
    && s.live[worker].job in s.contexts
    && CanTransitionTo(s.contexts[s.live[worker].job].state, to)
  }

  function Done(s: Sys, worker: WorkerId): Sys
    requires worker in s.live
  {
    s.(live := s.live[worker := s.live[worker].(done := true)])
  }

  function Mark(s: Sys, worker: WorkerId, to: State, reason: string, now: int): Sys {
    if !CanMark(s, worker, to) then s
    else OnContext(Done(s, worker), s.live[worker].job, Request(to, Some(reason), now))
  }

  function Observe(s: Sys, id: JobId): Sys {
    if id !in s.contexts || s.contexts[id].state != Stuck then s
    else s.(found := s.found[id := s.contexts[id].repairAttempts])
  }

  function Repair(cfg: Config, s: Sys, id: JobId, now: int): Sys {
    if id !in s.found then s
    else if s.found[id] >= cfg.maxRepair then s.(found := s.found - {id})
    else OnContext(s.(found := s.found - {id}), id, Recover(now))
  }

  function Step(cfg: Config, s: Sys, a: Action): Sys {
    match a
    case CreateJob => Create(cfg, s)
    case RemoveJob(id) => Forget(s, id)
    case ScheduleLocked(id, now) => ScheduleBegin(cfg, s, id, now)
    case ScheduleInsert => ScheduleEnd(s)
    case StopLocked(id) => StopBegin(s, id)
    case StopAbort => Abort(s)
    case StopCancel(now) => StopEnd(s, now)
    case CleanupCheck(task) => Check(s, task)
    case CleanupRemove(task) => Remove(s, task)
    case WorkerMark(worker, to, reason, now) => Mark(s, worker, to, reason, now)
    case WorkerExit(worker) => WithoutWorker(s, worker)
    case ToolCancel(id, now) => OnContext(s, id, Request(Cancelled, USER_CANCELLED, now))
    case RepairObserve(id) => Observe(s, id)
    case RepairApply(id, now) => Repair(cfg, s, id, now)
    case Help(id, now) => OnContext(s, id, Recover(now))
  }

  /** What a cleanup task sees under the read lock. */
  predicate Finished(s: Sys, id: JobId) {
    id !in s.jobs || s.jobs[id] !in s.live
  }

  function Exec(cfg: Config, s: Sys, acts: seq<Action>): Sys
    decreases acts
  {
    if acts == [] then s else Exec(cfg, Step(cfg, s, acts[0]), acts[1..])
  }

  // ---------------------------------------------------------------------
  // The invariant
  // ---------------------------------------------------------------------

  /** Identifiers are never used again. */
  ghost predicate Fresh(s: Sys) {
    && (forall id :: id in s.contexts ==> id < s.nextJob)
    && (forall id :: id in s.found ==> id < s.nextJob)
    && (forall id :: id in s.jobs ==> id < s.nextJob && s.jobs[id] < s.nextWorker)
    && (forall w :: w in s.live ==> w < s.nextWorker)
    && (forall w :: w in s.cleanups ==> w < s.nextWorker && s.cleanups[w].job < s.nextJob)
    && (!s.lock.Free? ==> s.lock.job < s.nextJob && s.lock.worker < s.nextWorker)
  }

  /** The handle `w` of job `id` is in the map, or in the hands of whoever holds the lock. */
  ghost predicate Held(s: Sys, id: JobId, w: WorkerId) {
    || (id in s.jobs && s.jobs[id] == w)
    || (!s.lock.Free? && s.lock.job == id && s.lock.worker == w)
  }

  ghost predicate Tracked(s: Sys) {
    && (forall w :: w in s.live ==> Held(s, s.live[w].job, w))
    && (forall id :: id in s.jobs && s.jobs[id] in s.live ==> s.live[s.jobs[id]].job == id)
    && (forall i, j :: i in s.jobs && j in s.jobs && s.jobs[i] == s.jobs[j] ==> i == j)
    && (!s.lock.Free? ==> s.lock.job !in s.jobs && forall id :: id in s.jobs ==> s.jobs[id] != s.lock.worker)
    && (!s.lock.Free? && s.lock.worker in s.live ==> s.live[s.lock.worker].job == s.lock.job)
    && (s.lock.Stopping? && s.lock.aborted ==> s.lock.worker !in s.live)
  }

  /** No worker can ever be started for `id` again. */
  predicate Sealed(s: Sys, id: JobId) {
    id < s.nextJob && (id in s.contexts ==> Closed(s.contexts[id].state))
  }

  /** A cleanup task that may still remove an entry can only remove its own worker's, and only a dead one. */
  ghost predicate CleanupsSafe(s: Sys) {
    && (forall id :: id in s.jobs ==> s.jobs[id] in s.cleanups && s.cleanups[s.jobs[id]].job == id)
    && (forall c :: c in s.cleanups && s.cleanups[c].job in s.jobs ==> s.jobs[s.cleanups[c].job] == c)
    && (forall c :: c in s.cleanups && s.cleanups[c].pc == Removing && s.cleanups[c].job in s.jobs ==> c !in s.live)
    && (forall c :: c in s.cleanups && s.cleanups[c].job !in s.jobs ==>
          || Sealed(s, s.cleanups[c].job)
          || (s.lock.Stopping? && s.lock.job == s.cleanups[c].job))
    && (s.lock.Scheduling? ==>
          s.lock.worker !in s.cleanups && forall c :: c in s.cleanups ==> s.cleanups[c].job != s.lock.job)
  }

  ghost predicate Capacity(cfg: Config, s: Sys) {
    && |s.jobs| <= cfg.maxParallel
    && (!s.lock.Free? ==> |s.jobs| < cfg.maxParallel)
    && |Active(s.contexts)| <= cfg.maxJobs
  }

  /** Every context is one that some run of its own operations leads to. */
  ghost predicate Reachable(j: Job) {
    exists ops :: j == RunJob(ops)
  }

  ghost predicate Inv(cfg: Config, s: Sys) {
    Fresh(s) && Tracked(s) && CleanupsSafe(s) && Capacity(cfg, s)
  }

  lemma MapMinusSize<K, V>(m: map<K, V>, k: K)
    ensures |m - {k}| == if k in m then |m| - 1 else |m|
  {
    assert (m - {k}).Keys == m.Keys - {k};
    assert |m.Keys| == |m|;
  }

  lemma SealedIsRefused(cfg: Config, s: Sys, id: JobId)
    requires Sealed(s, id)
    ensures Decide(cfg, s, id) != Started
  {
  }

  ghost predicate SealsKept(s: Sys, s': Sys) {
    forall k :: Sealed(s, k) ==> Sealed(s', k)
  }

  lemma TrackedFrame(s: Sys, s': Sys)
    requires Tracked(s)
    requires s'.jobs == s.jobs && s'.lock == s.lock && s'.live.Keys == s.live.Keys
    requires forall w :: w in s.live ==> s'.live[w].job == s.live[w].job
    ensures Tracked(s')
  {
  }

  lemma CleanupsFrame(s: Sys, s': Sys)
    requires CleanupsSafe(s) && SealsKept(s, s')
    requires s'.jobs == s.jobs && s'.live.Keys == s.live.Keys && s'.lock == s.lock && s'.cleanups == s.cleanups
    ensures CleanupsSafe(s')
  {
    hide Sealed;
  }

  lemma ContextSeals(s: Sys, id: JobId, op: JobOp)
    ensures SealsKept(s, OnContext(s, id, op))
  {
  }

  lemma ContextBasics(cfg: Config, s: Sys, id: JobId, op: JobOp)
    requires Fresh(s) && Capacity(cfg, s)
    ensures Fresh(OnContext(s, id, op)) && Capacity(cfg, OnContext(s, id, op))
  {
    UpdateAddsNoActive(s.contexts, id, op);
    hide Apply;
  }

  /** Whatever a task does to one context, the job map, the workers and the cleanup tasks stay in step. */
  lemma ContextKeeps(cfg: Config, s: Sys, id: JobId, op: JobOp)
    requires Inv(cfg, s)
    ensures Inv(cfg, OnContext(s, id, op))
  {
    hide Fresh, Tracked, CleanupsSafe, Capacity, SealsKept, Updated;
    ContextBasics(cfg, s, id, op);
    ContextSeals(s, id, op);
    TrackedFrame(s, OnContext(s, id, op));
    CleanupsFrame(s, OnContext(s, id, op));
  }

  lemma CreateBasics(cfg: Config, s: Sys)
    requires Fresh(s) && Capacity(cfg, s)
    ensures Fresh(Create(cfg, s)) && Capacity(cfg, Create(cfg, s)) && SealsKept(s, Create(cfg, s))
  {
    if |Active(s.contexts)| < cfg.maxJobs {
      CreateAddsOne(s.contexts, s.nextJob);
    }
  }

  lemma CreateKeeps(cfg: Config, s: Sys)
    requires Inv(cfg, s)
    ensures Inv(cfg, Create(cfg, s))
  {
    hide Fresh, Tracked, CleanupsSafe, Capacity, SealsKept;
    CreateBasics(cfg, s);
    TrackedFrame(s, Create(cfg, s));
    CleanupsFrame(s, Create(cfg, s));
  }

  lemma ForgetBasics(cfg: Config, s: Sys, id: JobId)
    requires Fresh(s) && Capacity(cfg, s)
    ensures Fresh(Forget(s, id)) && Capacity(cfg, Forget(s, id)) && SealsKept(s, Forget(s, id))
  {
    RemoveAddsNoActive(s.contexts, id);
  }

  lemma ForgetKeeps(cfg: Config, s: Sys, id: JobId)
    requires Inv(cfg, s)
    ensures Inv(cfg, Forget(s, id))
  {
    hide Fresh, Tracked, CleanupsSafe, Capacity, SealsKept;
    ForgetBasics(cfg, s, id);
    TrackedFrame(s, Forget(s, id));
    CleanupsFrame(s, Forget(s, id));
  }

  lemma ScheduleBeginBasics(cfg: Config, s: Sys, id: JobId, now: int)
    requires Fresh(s) && Capacity(cfg, s) && s.lock == Free && Decide(cfg, s, id) == Started
    ensures Fresh(ScheduleBegin(cfg, s, id, now)) && Capacity(cfg, ScheduleBegin(cfg, s, id, now))
  {
    UpdateAddsNoActive(s.contexts, id, Request(InProgress, SCHEDULED, now));
    hide Apply;
  }

  lemma ScheduleBeginTracked(cfg: Config, s: Sys, id: JobId, now: int)
    requires Fresh(s) && Tracked(s) && s.lock == Free && Decide(cfg, s, id) == Started
    ensures Tracked(ScheduleBegin(cfg, s, id, now))
  {
    hide Updated;
  }

  lemma ScheduleBeginCleanups(cfg: Config, s: Sys, id: JobId, now: int)
    requires Fresh(s) && CleanupsSafe(s) && s.lock == Free && Decide(cfg, s, id) == Started
    ensures CleanupsSafe(ScheduleBegin(cfg, s, id, now))
  {
    if Sealed(s, id) {
      SealedIsRefused(cfg, s, id);
    }
    ContextSeals(s, id, Request(InProgress, SCHEDULED, now));
    var s' := ScheduleBegin(cfg, s, id, now);
    assert SealsKept(s, s');
    hide Sealed, Updated;
    assert forall c :: c in s.cleanups ==> s.cleanups[c].job != id;
  }

  lemma ScheduleBeginKeeps(cfg: Config, s: Sys, id: JobId, now: int)
    requires Inv(cfg, s) && s.lock == Free && Decide(cfg, s, id) == Started
    ensures Inv(cfg, ScheduleBegin(cfg, s, id, now))
  {
    hide Fresh, Tracked, CleanupsSafe, Capacity, ScheduleBegin;
    ScheduleBeginBasics(cfg, s, id, now);
    ScheduleBeginTracked(cfg, s, id, now);
    ScheduleBeginCleanups(cfg, s, id, now);
  }

  lemma ScheduleEndBasics(cfg: Config, s: Sys)
    requires Fresh(s) && Capacity(cfg, s) && s.lock.Scheduling?
    ensures Fresh(ScheduleEnd(s)) && Capacity(cfg, ScheduleEnd(s))
  {
  }

  lemma ScheduleEndTracked(s: Sys)
    requires Tracked(s) && s.lock.Scheduling?
    ensures Tracked(ScheduleEnd(s))
  {
  }

  lemma ScheduleEndCleanups(s: Sys)
    requires Tracked(s) && CleanupsSafe(s) && s.lock.Scheduling?
    ensures CleanupsSafe(ScheduleEnd(s))
  {
    var s' := ScheduleEnd(s);
    assert SealsKept(s, s');
    hide Sealed;
  }

  lemma ScheduleEndKeeps(cfg: Config, s: Sys)
    requires Inv(cfg, s) && s.lock.Scheduling?
    ensures Inv(cfg, ScheduleEnd(s))
  {
    hide Fresh, Tracked, CleanupsSafe, Capacity, ScheduleEnd;
    ScheduleEndBasics(cfg, s);
    ScheduleEndTracked(s);
    ScheduleEndCleanups(s);
  }

  lemma StopBeginBasics(cfg: Config, s: Sys, id: JobId)
    requires Fresh(s) && Capacity(cfg, s) && s.lock == Free && id in s.jobs
    ensures Fresh(StopBegin(s, id)) && Capacity(cfg, StopBegin(s, id))
  {
    MapMinusSize(s.jobs, id);
  }

  lemma StopBeginTracked(s: Sys, id: JobId)
    requires Tracked(s) && s.lock == Free && id in s.jobs
    ensures Tracked(StopBegin(s, id))
  {
  }

  lemma StopBeginCleanups(s: Sys, id: JobId)
    requires CleanupsSafe(s) && s.lock == Free && id in s.jobs
    ensures CleanupsSafe(StopBegin(s, id))
  {
    assert SealsKept(s, StopBegin(s, id));
    hide Sealed;
  }

  lemma StopBeginKeeps(cfg: Config, s: Sys, id: JobId)
    requires Inv(cfg, s) && s.lock == Free && id in s.jobs
    ensures Inv(cfg, StopBegin(s, id))
  {
    hide Fresh, Tracked, CleanupsSafe, Capacity, StopBegin;
    StopBeginBasics(cfg, s, id);
    StopBeginTracked(s, id);
    StopBeginCleanups(s, id);
  }

  lemma DeathTracked(s: Sys, worker: WorkerId)
    requires Tracked(s)
    ensures Tracked(WithoutWorker(s, worker))
  {
  }

  lemma DeathCleanups(s: Sys, worker: WorkerId)
    requires CleanupsSafe(s)
    ensures CleanupsSafe(WithoutWorker(s, worker))
  {
    assert SealsKept(s, WithoutWorker(s, worker));
    hide Sealed;
  }

  /** A worker that is gone makes no handle untracked and no removal unsafe. */
  lemma DeathKeeps(cfg: Config, s: Sys, worker: WorkerId)
    requires Inv(cfg, s)
    ensures Inv(cfg, WithoutWorker(s, worker))
  {
    hide Tracked, CleanupsSafe, Active;
    DeathTracked(s, worker);
    DeathCleanups(s, worker);
  }

  lemma AbortKeeps(cfg: Config, s: Sys)
    requires Inv(cfg, s) && s.lock.Stopping?
    ensures Inv(cfg, Abort(s))
  {
    hide Tracked, CleanupsSafe, Active;
    DeathKeeps(cfg, s, s.lock.worker);
    var dead, lock := WithoutWorker(s, s.lock.worker), s.lock.(aborted := true);
    AbortedTracked(dead, lock);
    AbortedCleanups(dead, lock);
  }

  lemma AbortedTracked(s: Sys, lock: Lock)
    requires Tracked(s) && s.lock.Stopping? && s.lock.worker !in s.live && lock == s.lock.(aborted := true)
    ensures Tracked(WithLock(s, lock))
  {
  }

  lemma AbortedCleanups(s: Sys, lock: Lock)
    requires CleanupsSafe(s) && s.lock.Stopping? && lock == s.lock.(aborted := true)
    ensures CleanupsSafe(WithLock(s, lock))
  {
    assert SealsKept(s, WithLock(s, lock));
    hide Sealed;
  }

  /** The end of `stop` leaves the job in a state from which it cannot be scheduled again. */
  lemma StopEndSeals(s: Sys, now: int)
    requires Fresh(s) && s.lock.Stopping? && s.lock.aborted
    ensures Sealed(StopEnd(s, now), s.lock.job)
  {
  }

  lemma ReleaseTracked(s: Sys)
    requires Tracked(s) && s.lock.Stopping? && s.lock.aborted
    ensures Tracked(WithLock(s, Free))
  {
  }

  /** Giving the lock back after a stop: the job in hand is sealed, so its cleanup task is harmless. */
  lemma ReleaseCleanups(s: Sys)
    requires CleanupsSafe(s) && s.lock.Stopping? && Sealed(s, s.lock.job)
    ensures CleanupsSafe(WithLock(s, Free))
  {
    assert SealsKept(s, WithLock(s, Free));
    hide Sealed;
  }

  lemma ReleaseKeeps(cfg: Config, s: Sys)
    requires Inv(cfg, s) && s.lock.Stopping? && s.lock.aborted && Sealed(s, s.lock.job)
    ensures Inv(cfg, WithLock(s, Free))
  {
    hide Tracked, CleanupsSafe, Active, Sealed;
    ReleaseTracked(s);
    ReleaseCleanups(s);
  }

  lemma StopEndKeeps(cfg: Config, s: Sys, now: int)
    requires Inv(cfg, s) && s.lock.Stopping? && s.lock.aborted
    ensures Inv(cfg, StopEnd(s, now))
  {
    var op := Request(Cancelled, STOPPED, now);
    ContextKeeps(cfg, s, s.lock.job, op);
    StopEndSeals(s, now);
    SealedAnyLock(OnContext(s, s.lock.job, op), s.lock.job);
    hide Inv, Sealed, Updated;
    ReleaseKeeps(cfg, OnContext(s, s.lock.job, op));
  }

  lemma SealedAnyLock(s: Sys, id: JobId)
    ensures Sealed(WithLock(s, Free), id) == Sealed(s, id)
  {
  }

  lemma CheckCleanups(s: Sys, task: WorkerId)
    requires CleanupsSafe(s) && s.lock == Free && task in s.cleanups && Finished(s, s.cleanups[task].job)
    ensures CleanupsSafe(Check(s, task))
  {
    assert SealsKept(s, Check(s, task));
    hide Sealed;
  }

  lemma CheckKeeps(cfg: Config, s: Sys, task: WorkerId)
    requires Inv(cfg, s) && s.lock == Free && task in s.cleanups && Finished(s, s.cleanups[task].job)
    ensures Inv(cfg, Check(s, task))
  {
    hide Tracked, CleanupsSafe, Active;
    TrackedFrame(s, Check(s, task));
    CheckCleanups(s, task);
  }

  /** The second half of a cleanup never takes a running worker's handle away. */
  lemma RemoveTracked(s: Sys, task: WorkerId)
    requires Tracked(s) && CleanupsSafe(s)
    requires s.lock == Free && task in s.cleanups && s.cleanups[task].pc == Removing
    ensures Tracked(Remove(s, task))
  {
    var id := s.cleanups[task].job;
    assert id in s.jobs ==> s.jobs[id] == task && task !in s.live;
  }

  lemma RemoveCleanups(s: Sys, task: WorkerId)
    requires Tracked(s) && CleanupsSafe(s)
    requires s.lock == Free && task in s.cleanups && s.cleanups[task].pc == Removing
    ensures CleanupsSafe(Remove(s, task))
  {
    var s', id := Remove(s, task), s.cleanups[task].job;
    assert SealsKept(s, s');
    assert id in s.jobs ==> s.jobs[id] == task;
    hide Sealed;
  }

  lemma RemoveBasics(cfg: Config, s: Sys, task: WorkerId)
    requires Fresh(s) && Capacity(cfg, s)
    requires s.lock == Free && task in s.cleanups && s.cleanups[task].pc == Removing
    ensures Fresh(Remove(s, task)) && Capacity(cfg, Remove(s, task))
  {
    MapMinusSize(s.jobs, s.cleanups[task].job);
  }

  lemma RemoveKeeps(cfg: Config, s: Sys, task: WorkerId)
    requires Inv(cfg, s) && s.lock == Free && task in s.cleanups && s.cleanups[task].pc == Removing
    ensures Inv(cfg, Remove(s, task))
  {
    hide Fresh, Tracked, CleanupsSafe, Capacity, Remove;
    RemoveBasics(cfg, s, task);
    RemoveTracked(s, task);
    RemoveCleanups(s, task);
  }

  lemma DoneSeals(s: Sys, worker: WorkerId)
    requires worker in s.live
    ensures SealsKept(s, Done(s, worker))
  {
  }

  lemma MarkKeeps(cfg: Config, s: Sys, worker: WorkerId, to: State, reason: string, now: int)
    requires Inv(cfg, s) && CanMark(s, worker, to)
    ensures Inv(cfg, Mark(s, worker, to, reason, now))
  {
    hide Tracked, CleanupsSafe, SealsKept, Active, Updated;
    var s' := Done(s, worker);
    DoneSeals(s, worker);
    TrackedFrame(s, s');
    CleanupsFrame(s, s');
    ContextKeeps(cfg, s', s.live[worker].job, Request(to, Some(reason), now));
  }

  lemma FoundSeals(s: Sys, found: map<JobId, nat>)
    ensures SealsKept(s, s.(found := found))
  {
  }

  lemma FoundKeeps(cfg: Config, s: Sys, found: map<JobId, nat>)
    requires Inv(cfg, s)
    requires forall id :: id in found ==> id in s.found || id in s.contexts
    ensures Inv(cfg, s.(found := found))
  {
    var s' := s.(found := found);
    hide Tracked, CleanupsSafe, SealsKept, Active;
    FoundSeals(s, found);
    TrackedFrame(s, s');
    CleanupsFrame(s, s');
  }

  lemma StepKeepsInv(cfg: Config, s: Sys, a: Action)
    requires Inv(cfg, s)
    ensures Inv(cfg, Step(cfg, s, a))
  {
    hide Inv, Updated, Active, Decide, CanMark;
    match a
    case CreateJob => CreateKeeps(cfg, s);
    case RemoveJob(id) => ForgetKeeps(cfg, s, id);
    case ScheduleLocked(id, now) =>
      if s.lock == Free && Decide(cfg, s, id) == Started { ScheduleBeginKeeps(cfg, s, id, now); }
    case ScheduleInsert => if s.lock.Scheduling? { ScheduleEndKeeps(cfg, s); }
    case StopLocked(id) => if s.lock == Free && id in s.jobs { StopBeginKeeps(cfg, s, id); }
    case StopAbort => if s.lock.Stopping? { AbortKeeps(cfg, s); }
    case StopCancel(now) => if s.lock.Stopping? && s.lock.aborted { StopEndKeeps(cfg, s, now); }
    case CleanupCheck(task) =>
      if s.lock == Free && task in s.cleanups && Finished(s, s.cleanups[task].job) { CheckKeeps(cfg, s, task); }
    case CleanupRemove(task) =>
      if s.lock == Free && task in s.cleanups && s.cleanups[task].pc == Removing { RemoveKeeps(cfg, s, task); }
    case WorkerMark(worker, to, reason, now) =>
      if CanMark(s, worker, to) { MarkKeeps(cfg, s, worker, to, reason, now); }
    case WorkerExit(worker) => DeathKeeps(cfg, s, worker);
    case ToolCancel(id, now) => ContextKeeps(cfg, s, id, Request(Cancelled, USER_CANCELLED, now));
    case RepairObserve(id) => FoundKeeps(cfg, s, Observe(s, id).found);
    case RepairApply(id, now) =>
      FoundKeeps(cfg, s, s.found - {id});
      ContextKeeps(cfg, s.(found := s.found - {id}), id, Recover(now));
    case Help(id, now) => ContextKeeps(cfg, s, id, Recover(now));
  }

  lemma {:induction false} ExecKeepsInv(cfg: Config, s: Sys, acts: seq<Action>)
    requires Inv(cfg, s)
    ensures Inv(cfg, Exec(cfg, s, acts))
    decreases acts
  {
    if acts != [] {
      StepKeepsInv(cfg, s, acts[0]);
      ExecKeepsInv(cfg, Step(cfg, s, acts[0]), acts[1..]);
    }
  }

  lemma ReachableInv(cfg: Config, acts: seq<Action>)
    ensures Inv(cfg, Exec(cfg, Init(), acts))
  {
    ExecKeepsInv(cfg, Init(), acts);
  }

  lemma NextIsFresh(cfg: Config, s: Sys)
    requires Inv(cfg, s)
    ensures s.nextJob !in s.contexts && s.nextWorker !in s.live
  {
  }

  lemma UnlockedStored(cfg: Config, s: Sys)
    requires Inv(cfg, s) && s.lock == Free
    ensures forall w :: w in s.live ==> s.live[w].job in s.jobs && s.jobs[s.live[w].job] == w
  {
    hide CleanupsSafe, Fresh, Capacity;
  }

  // ---------------------------------------------------------------------
  // What holds in every reachable state
  // ---------------------------------------------------------------------

  lemma {:induction false} InjectiveSize<A, B>(f: map<A, B>, into: set<B>)
    requires forall a :: a in f ==> f[a] in into
    requires forall a, b :: a in f && b in f && f[a] == f[b] ==> a == b
    ensures |f| <= |into|
  {
    if f != map[] {
      var a :| a in f;
      MapMinusSize(f, a);
      InjectiveSize(f - {a}, into - {f[a]});
    }
  }

  /** In no interleaving do two workers run for one job. */
  lemma OneWorkerPerJob(cfg: Config, acts: seq<Action>, v: WorkerId, w: WorkerId)
    requires var s := Exec(cfg, Init(), acts); v in s.live && w in s.live && s.live[v].job == s.live[w].job
    ensures v == w
  {
    hide Exec, CleanupsSafe, Fresh, Capacity;
    ReachableInv(cfg, acts);
  }

  /** Whenever the lock is free, every running worker is the handle stored under its own job. */
  lemma LiveWorkersAreStored(cfg: Config, acts: seq<Action>, w: WorkerId)
    requires var s := Exec(cfg, Init(), acts); s.lock.Free? && w in s.live
    ensures var s := Exec(cfg, Init(), acts); s.live[w].job in s.jobs && s.jobs[s.live[w].job] == w
  {
    hide Exec, Inv;
    ReachableInv(cfg, acts);
    UnlockedStored(cfg, Exec(cfg, Init(), acts));
  }

  /**
   The capacity guarantee: in every interleaving at most `maxParallel` jobs are in the map and
   at most `maxParallel` workers run, and at most `maxJobs` jobs are active.
   */
  lemma CapacityHolds(cfg: Config, acts: seq<Action>)
    ensures var s := Exec(cfg, Init(), acts);
      |s.jobs| <= cfg.maxParallel && |s.live| <= cfg.maxParallel && |Active(s.contexts)| <= cfg.maxJobs
  {
    hide Exec, CleanupsSafe, Active;
    ReachableInv(cfg, acts);
    var s := Exec(cfg, Init(), acts);
    var owners := if s.lock.Free? then s.jobs.Keys else s.jobs.Keys + {s.lock.job};
    assert |owners| <= cfg.maxParallel by {
      assert |s.jobs.Keys| == |s.jobs|;
    }
    var jobOf := map w | w in s.live :: s.live[w].job;
    assert jobOf.Keys == s.live.Keys;
    assert |jobOf| == |s.live|;
    InjectiveSize(jobOf, owners);
  }

  /** A job that `stop` has cancelled, or that has vanished, with no worker and no handle. */
  ghost predicate Over(s: Sys, id: JobId) {
    && Sealed(s, id)
    && id !in s.jobs
    && (forall w :: w in s.live ==> s.live[w].job != id)
    && (!s.lock.Free? ==> s.lock.job != id)
  }

  lemma {:induction false} OverStays(cfg: Config, s: Sys, acts: seq<Action>, id: JobId)
    requires Inv(cfg, s) && Over(s, id)
    ensures Over(Exec(cfg, s, acts), id)
    decreases acts
  {
    if acts != [] {
      StepKeepsInv(cfg, s, acts[0]);
      OverStep(cfg, s, acts[0], id);
      OverStays(cfg, Step(cfg, s, acts[0]), acts[1..], id);
    }
  }

  lemma SealedOnContext(s: Sys, target: JobId, op: JobOp, id: JobId)
    requires Sealed(s, id)
    ensures Sealed(OnContext(s, target, op), id)
  {
  }

  lemma SealedStep(cfg: Config, s: Sys, a: Action, id: JobId)
    requires Sealed(s, id)
    ensures Sealed(Step(cfg, s, a), id)
  {
    if a.WorkerMark? && CanMark(s, a.worker, a.to) {
      SealedOnContext(Done(s, a.worker), s.live[a.worker].job, Request(a.to, Some(a.reason), a.now), id);
    } else if a.RepairApply? {
      SealedOnContext(s.(found := s.found - {a.id}), a.id, Recover(a.now), id);
    } else if a.StopCancel? && s.lock.Stopping? {
      SealedOnContext(s, s.lock.job, Request(Cancelled, STOPPED, a.now), id);
    } else if a.ScheduleLocked? {
      SealedOnContext(s, a.id, Request(InProgress, SCHEDULED, a.now), id);
    } else if a.ToolCancel? {
      SealedOnContext(s, a.id, Request(Cancelled, USER_CANCELLED, a.now), id);
    } else if a.Help? {
      SealedOnContext(s, a.id, Recover(a.now), id);
    }
    hide Updated;
  }

  lemma OverStep(cfg: Config, s: Sys, a: Action, id: JobId)
    requires Fresh(s) && Over(s, id)
    ensures Over(Step(cfg, s, a), id)
  {
    SealedStep(cfg, s, a, id);
    SealedIsRefused(cfg, s, id);
    hide Sealed, Updated, Decide, CanMark;
  }

  lemma StopEndIsOver(s: Sys, now: int)
    requires Tracked(s) && s.lock.Stopping? && s.lock.aborted && Sealed(StopEnd(s, now), s.lock.job)
    ensures Over(StopEnd(s, now), s.lock.job)
  {
    hide Sealed;
    hide Updated;
  }

  /** Once `stop` has run to its end on a job, no interleaving ever runs that job again. */
  lemma StoppedForGood(cfg: Config, before: seq<Action>, now: int, after: seq<Action>)
    requires Exec(cfg, Init(), before).lock.Stopping? && Exec(cfg, Init(), before).lock.aborted
    ensures var s := Exec(cfg, Init(), before); Over(Exec(cfg, StepStop(cfg, s, now), after), s.lock.job)
  {
    hide Exec, Fresh, Tracked, CleanupsSafe, Capacity, Over, StopEnd;
    ReachableInv(cfg, before);
    var s := Exec(cfg, Init(), before);
    StepKeepsInv(cfg, s, StopCancel(now));
    StopEndSeals(s, now);
    StopEndIsOver(s, now);
    OverStays(cfg, StepStop(cfg, s, now), after, s.lock.job);
  }

  function StepStop(cfg: Config, s: Sys, now: int): Sys {
    Step(cfg, s, StopCancel(now))
  }
}
