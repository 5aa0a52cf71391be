/**
 The tasks of src/agent/scheduler.rs as imperative code over the shared maps. Each method is
 one stretch between lock operations, and is tied to the action of module Scheduler that it performs.
 */
module SchedulerTasks {
  import opened Wrappers
  import opened JobState
  import opened ContextManager
  import opened Scheduler

  class Host {
    const cfg: Config
    var contexts: Contexts
    var jobs: map<JobId, WorkerId>
    var live: map<WorkerId, Worker>
    var cleanups: map<WorkerId, Cleanup>
    var lock: Lock
    var found: map<JobId, nat>
    var nextJob: JobId
    var nextWorker: WorkerId

    function View(): Sys
      reads this
    {
      Sys(contexts, jobs, live, cleanups, lock, found, nextJob, nextWorker)
    }

    ghost predicate Valid()
      reads this
    {
      Inv(cfg, View())
    }

    constructor (cfg: Config)
      ensures Valid() && View() == Init() && this.cfg == cfg
    {
      this.cfg := cfg;
      contexts, jobs, live, cleanups := map[], map[], map[], map[];
      lock, found, nextJob, nextWorker := Free, map[], 0, 0;
      new;
      ReachableInv(cfg, []);
    }

    method CreateJob() returns (r: Option<JobId>)
      requires Valid()
      modifies this
      ensures Valid() && View() == Step(cfg, old(View()), Action.CreateJob)
      ensures r.Some? <==> |Active(old(contexts))| < cfg.maxJobs
      ensures r.Some? ==> r.value !in old(contexts) && r.value in contexts
    {
      hide Inv, Active;
      StepKeepsInv(cfg, View(), Action.CreateJob);
      NextIsFresh(cfg, View());
      if |Active(contexts)| >= cfg.maxJobs {
        return None;
      }
      var id := nextJob;
      nextJob := nextJob + 1;
      contexts := contexts[id := NewJob()];
      return Some(id);
    }

    /** `schedule` from taking the lock to spawning the worker. */
    method ScheduleLocked(id: JobId, now: int) returns (r: ScheduleOutcome)
      requires Valid() && lock == Free
      modifies this
      ensures Valid() && View() == Step(cfg, old(View()), Action.ScheduleLocked(id, now))
      ensures r == Started <==>
        && id !in old(jobs) && |old(jobs)| < cfg.maxParallel
        && id in old(contexts) && (old(contexts)[id].state == Pending || old(contexts)[id].state == Stuck)
      ensures r == AlreadyScheduled <==> id in old(jobs)
      ensures r == TooMany <==> id !in old(jobs) && |old(jobs)| >= cfg.maxParallel
      ensures r == Unknown <==> id !in old(jobs) && |old(jobs)| < cfg.maxParallel && id !in old(contexts)
      ensures r != Started ==> View() == old(View())
      ensures r == Started ==> lock == Scheduling(id, old(nextWorker))
      ensures r == Started ==> lock.worker in live && lock.worker !in old(live)
    {
      hide Inv;
      StepKeepsInv(cfg, View(), Action.ScheduleLocked(id, now));
      NextIsFresh(cfg, View());
      if id in jobs {
        return AlreadyScheduled;
      }
      if |jobs| >= cfg.maxParallel {
        return TooMany;
      }
      if id !in contexts {
        return Unknown;
      }
      if !CanTransitionTo(contexts[id].state, InProgress) {
        return Refused;
      }
      contexts := contexts[id := Transitioned(contexts[id], InProgress, SCHEDULED, now)];
      var worker := nextWorker;
      nextWorker := nextWorker + 1;
      live := live[worker := Worker(id, false)];
      lock := Scheduling(id, worker);
      return Started;
    }

    /** The rest of `schedule`: store the handle, release the lock, spawn the cleanup task. */
    method ScheduleInsert()
      requires Valid() && lock.Scheduling?
      modifies this
      ensures Valid() && View() == Step(cfg, old(View()), Action.ScheduleInsert)
      ensures lock == Free && old(lock).job in jobs && jobs[old(lock).job] == old(lock).worker
    {
      hide Inv;
      StepKeepsInv(cfg, View(), Action.ScheduleInsert);
      var id, worker := lock.job, lock.worker;
      jobs := jobs[id := worker];
      lock := Free;
      cleanups := cleanups[worker := Cleanup(id, Checking)];
    }

    method CleanupCheck(task: WorkerId) returns (finished: bool)
      requires Valid() && lock == Free && task in cleanups
      modifies this
      ensures Valid() && View() == Step(cfg, old(View()), Action.CleanupCheck(task))
      ensures finished <==> Finished(old(View()), old(cleanups)[task].job)
    {
      hide Inv;
      StepKeepsInv(cfg, View(), Action.CleanupCheck(task));
      var id := cleanups[task].job;
      if id in jobs {
        finished := jobs[id] !in live;
      } else {
        finished := true;
      }
      if finished {
        cleanups := cleanups[task := Cleanup(id, Removing)];
      }
    }

    /** The removal is unconditional; no running worker loses its handle by it. */
    method CleanupRemove(task: WorkerId)
      requires Valid() && lock == Free && task in cleanups && cleanups[task].pc == Removing
      modifies this
      ensures Valid() && View() == Step(cfg, old(View()), Action.CleanupRemove(task))
      ensures forall w :: w in live ==> live[w].job in jobs && jobs[live[w].job] == w
    {
      hide Inv;
      StepKeepsInv(cfg, View(), Action.CleanupRemove(task));
      jobs := jobs - {cleanups[task].job};
      cleanups := cleanups - {task};
      UnlockedStored(cfg, View());
    }

    /** `stop` takes the handle out of the map, if there is one. */
    method StopLocked(id: JobId) returns (taken: bool)
      requires Valid() && lock == Free
      modifies this
      ensures Valid() && View() == Step(cfg, old(View()), Action.StopLocked(id))
      ensures taken <==> id in old(jobs)
      ensures taken ==> lock == Stopping(id, old(jobs)[id], false)
      ensures !taken ==> View() == old(View())
    {
      hide Inv;
      StepKeepsInv(cfg, View(), Action.StopLocked(id));
      if id !in jobs {
        return false;
      }
      var worker := jobs[id];
      jobs := jobs - {id};
      lock := Stopping(id, worker, false);
      return true;
    }

    /** The end of `stop`, after the grace period: abort, cancel, release. */
    method StopFinish(now: int)
      requires Valid() && lock.Stopping?
      modifies this
      ensures Valid() && View() == StopEnd(Abort(old(View())), now)
      ensures lock == Free && Over(View(), old(lock).job)
    {
      hide Inv, Over;
      ghost var s := View();
      StepKeepsInv(cfg, s, StopAbort);
      StepKeepsInv(cfg, Abort(s), StopCancel(now));
      FinishedStopIsOver(cfg, s, now);
      var id, worker := lock.job, lock.worker;
      if worker in live {
        live := live - {worker};
      }
      assert live == Abort(s).live;
      if id in contexts {
        contexts := contexts[id := Transitioned(contexts[id], Cancelled, STOPPED, now)];
      }
      lock := Free;
    }

    /** `stop` when no other task runs in between. */
    method Stop(id: JobId, now: int)
      requires Valid() && lock == Free
      modifies this
      ensures Valid() && lock == Free
      ensures jobs == old(jobs) - {id}
      ensures id in old(jobs) ==> Over(View(), id)
      ensures forall other :: old(Over(View(), other)) ==> Over(View(), other)
    {
      hide Over, Inv;
      ghost var before := View();
      var taken := StopLocked(id);
      if taken {
        ghost var mid := View();
        StopFinish(now);
        StepKeepsOver(cfg, before, Action.StopLocked(id));
        StepKeepsInv(cfg, mid, StopAbort);
        StepKeepsOver(cfg, mid, StopAbort);
        StepKeepsOver(cfg, Abort(mid), StopCancel(now));
      }
    }

    /** `stop_all` when no other task runs in between. */
    method StopAll(ids: seq<JobId>, now: int)
      requires Valid() && lock == Free
      requires forall id :: id in jobs ==> id in ids
      modifies this
      ensures Valid() && lock == Free
      ensures jobs == map[] && live == map[]
      ensures forall id :: id in old(jobs) ==> Over(View(), id)
    {
      hide Over, Inv;
      ghost var start := jobs;
      for i := 0 to |ids|
        invariant Valid() && lock == Free
        invariant forall id :: id in jobs ==> id in ids[i..] && id in start
        invariant forall id :: id in start && id !in jobs ==> Over(View(), id)
      {
        Stop(ids[i], now);
      }
      NoJobsNoWorkers(cfg, View());
    }
  }

  lemma StepKeepsOver(cfg: Config, s: Sys, a: Action)
    requires Inv(cfg, s)
    ensures forall id :: Over(s, id) ==> Over(Step(cfg, s, a), id)
  {
    hide Over, Step, Tracked, CleanupsSafe, Capacity;
    forall id | Over(s, id)
      ensures Over(Step(cfg, s, a), id)
    {
      OverStep(cfg, s, a, id);
    }
  }

  lemma NoJobsNoWorkers(cfg: Config, s: Sys)
    requires Inv(cfg, s) && s.lock == Free && (forall id :: id !in s.jobs)
    ensures s.live == map[] && s.jobs == map[]
  {
    hide CleanupsSafe, Fresh, Capacity;
    assert forall w :: w in s.live ==> s.live[w].job in s.jobs;
  }

  lemma FinishedStopIsOver(cfg: Config, s: Sys, now: int)
    requires Inv(cfg, s) && s.lock.Stopping?
    ensures Over(StopEnd(Abort(s), now), s.lock.job)
  {
    hide Fresh, Tracked, CleanupsSafe, Capacity, Over, StopEnd;
    StepKeepsInv(cfg, s, StopAbort);
    StopEndSeals(Abort(s), now);
    StopEndIsOver(Abort(s), now);
  }

  /** The other tasks, while `stop` or `schedule` holds the lock, cannot move the holder on. */
  predicate Others(acts: seq<Action>) {
    forall i :: 0 <= i < |acts| ==> !(acts[i].StopAbort? || acts[i].StopCancel? || acts[i].ScheduleInsert?)
  }

  lemma {:induction false} OthersKeepLock(cfg: Config, s: Sys, acts: seq<Action>)
    requires !s.lock.Free? && Others(acts)
    ensures Exec(cfg, s, acts).lock == s.lock
    decreases acts
  {
    if acts != [] {
      OtherKeepsLock(cfg, s, acts[0]);
      hide Step;
      OthersKeepLock(cfg, Step(cfg, s, acts[0]), acts[1..]);
    }
  }

  lemma OtherKeepsLock(cfg: Config, s: Sys, a: Action)
    requires !s.lock.Free? && !(a.StopAbort? || a.StopCancel? || a.ScheduleInsert?)
    ensures Step(cfg, s, a).lock == s.lock
  {
  }

  /**
   `stop` on a scheduled job, with anything going on during its grace period and afterwards:
   the job is over for good.
   */
  lemma StopIsFinal(cfg: Config, before: seq<Action>, id: JobId, during: seq<Action>, now: int, after: seq<Action>)
    requires var s := Exec(cfg, Init(), before); s.lock == Free && id in s.jobs
    requires Others(during)
    ensures var s := Exec(cfg, StopBegin(Exec(cfg, Init(), before), id), during);
      Over(Exec(cfg, StopEnd(Abort(s), now), after), id)
  {
    hide Exec, Inv, Over, Others;
    ReachableInv(cfg, before);
    var s0 := Exec(cfg, Init(), before);
    StepKeepsInv(cfg, s0, StopLocked(id));
    var s1 := StopBegin(s0, id);
    StopIsFinalFrom(cfg, s1, during, now, after);
  }

  lemma StopIsFinalFrom(cfg: Config, s: Sys, during: seq<Action>, now: int, after: seq<Action>)
    requires Inv(cfg, s) && s.lock.Stopping? && Others(during)
    ensures Over(Exec(cfg, StopEnd(Abort(Exec(cfg, s, during)), now), after), s.lock.job)
  {
    hide Exec, Inv, Over, Others;
    ExecKeepsInv(cfg, s, during);
    OthersKeepLock(cfg, s, during);
    var s' := Exec(cfg, s, during);
    FinishedStopIsOver(cfg, s', now);
    StepKeepsInv(cfg, s', StopAbort);
    StepKeepsInv(cfg, Abort(s'), StopCancel(now));
    OverStays(cfg, StopEnd(Abort(s'), now), after, s.lock.job);
  }

  /** No capacity is lost: the slot of a dead worker is freed by its own cleanup task, and nothing else is. */
  lemma SlotIsFreed(cfg: Config, acts: seq<Action>, id: JobId)
    requires var s := Exec(cfg, Init(), acts); s.lock == Free && id in s.jobs && s.jobs[id] !in s.live
    ensures var s := Exec(cfg, Init(), acts);
      && s.jobs[id] in s.cleanups
      && Step(cfg, Step(cfg, s, CleanupCheck(s.jobs[id])), CleanupRemove(s.jobs[id])).jobs == s.jobs - {id}
  {
    ReachableInv(cfg, acts);
    hide Exec, Fresh, Tracked, Capacity;
    var s := Exec(cfg, Init(), acts);
    assert s.jobs[id] in s.cleanups && s.cleanups[s.jobs[id]].job == id;
  }

  // ---------------------------------------------------------------------
  // Why the guarantee leaves `cleanup_finished` out
  // ---------------------------------------------------------------------

  /** `cleanup_finished` removes every entry whose worker is dead, whoever else is about to. */
  function CleanupFinished(s: Sys): Sys {
    if s.lock != Free then s else s.(jobs := map id | id in s.jobs && s.jobs[id] in s.live :: s.jobs[id])
  }

  /** One stuck job whose worker has exited and whose cleanup task has made its check. */
  function StuckAndChecked(): Sys {
    var stuck := Transitioned(Transitioned(NewJob(), InProgress, SCHEDULED, 0), Stuck, Some("Execution timeout"), 0);
    Sys(map[0 := stuck], map[0 := 0], map[], map[0 := Cleanup(0, Removing)], Free, map[], 1, 1)
  }

  /**
   If `cleanup_finished` runs between the two halves of a cleanup task, the second half can take
   the handle of a running worker away: here job 0 is scheduled again in between.
   */
  lemma CleanupFinishedLosesAWorker(cfg: Config)
    requires cfg.maxParallel > 0
    ensures var s0 := CleanupFinished(StuckAndChecked());
      var s1 := Step(cfg, Step(cfg, s0, ScheduleLocked(0, 0)), ScheduleInsert);
      var s2 := Step(cfg, s1, CleanupRemove(0));
      && s2.lock == Free
      && s2.live == map[1 := Worker(0, false)]
      && s2.jobs == map[]
  {
    StuckAgain();
    hide Transitioned, Apply;
    var s0 := CleanupFinished(StuckAndChecked());
    assert s0.jobs == map[];
    assert Decide(cfg, s0, 0) == Started;
    var s1 := Step(cfg, Step(cfg, s0, ScheduleLocked(0, 0)), ScheduleInsert);
    assert s1.jobs == map[0 := 1] && s1.live == map[1 := Worker(0, false)];
    assert s1.cleanups == map[0 := Cleanup(0, Removing), 1 := Cleanup(0, Checking)];
  }

  lemma StuckAgain()
    ensures 0 in StuckAndChecked().contexts && StuckAndChecked().contexts[0].state == Stuck
  {
  }

  // ---------------------------------------------------------------------
  // Every step takes effect when it may
  // ---------------------------------------------------------------------

  /** The job may be started: it is not stored, there is room, and it is known and pending or stuck. */
  predicate MayStart(cfg: Config, s: Sys, id: JobId) {
    && id !in s.jobs && |s.jobs| < cfg.maxParallel
    && id in s.contexts && (s.contexts[id].state == Pending || s.contexts[id].state == Stuck)
  }

  /** A job with a worker of its own that was not there before. */
  predicate RunsAnew(before: Sys, after: Sys, id: JobId) {
    id in after.jobs && after.jobs[id] in after.live && after.jobs[id] !in before.live
  }

  lemma ScheduleTakesRoom(cfg: Config, s: Sys, id: JobId, now: int)
    requires Fresh(s) && s.lock == Free
    ensures !MayStart(cfg, s, id) ==> Scheduled(cfg, s, id, now) == s
    ensures MayStart(cfg, s, id) ==> Placed(s, Scheduled(cfg, s, id, now), id)
  {
    hide Fresh;
  }

  /** The new worker has the next number; the contexts are the same jobs. */
  predicate Placed(s: Sys, after: Sys, id: JobId) {
    && after.jobs == s.jobs[id := s.nextWorker] && after.live == s.live[s.nextWorker := Worker(id, false)]
    && after.contexts.Keys == s.contexts.Keys
    && id in after.contexts && after.contexts[id].state == InProgress
    && after.lock == Free && after.nextJob == s.nextJob && after.nextWorker == s.nextWorker + 1
  }

  lemma PlacedIsAlone(s: Sys, after: Sys, id: JobId)
    requires Fresh(s) && Placed(s, after, id)
    ensures StartedAlone(s, after, id)
  {
  }

  /** `schedule` with nothing in between. */
  function Scheduled(cfg: Config, s: Sys, id: JobId, now: int): Sys {
    Step(cfg, Step(cfg, s, ScheduleLocked(id, now)), ScheduleInsert)
  }

  /** The job got one new worker and one place in the map; nothing else was added. */
  predicate StartedAlone(s: Sys, after: Sys, id: JobId) {
    && id in after.jobs && after.jobs[id] in after.live && after.jobs[id] !in s.live
    && after.jobs.Keys == s.jobs.Keys + {id}
    && after.live.Keys == s.live.Keys + {after.jobs[id]}
    && id in after.contexts && after.contexts[id].state == InProgress
    && after.lock == Free
  }

  /**
   From every reachable state with the lock free, scheduling a job leaves it in the map with a new live worker
   exactly if it was not there, the map had room, and the job is known and pending or stuck; otherwise nothing
   changes.
   */
  lemma ScheduleUsesRoom(cfg: Config, acts: seq<Action>, id: JobId, now: int)
    requires Exec(cfg, Init(), acts).lock == Free
    ensures var s := Exec(cfg, Init(), acts);
      && (RunsAnew(s, Scheduled(cfg, s, id, now), id) <==>
            && id !in s.jobs && |s.jobs| < cfg.maxParallel
            && id in s.contexts && (s.contexts[id].state == Pending || s.contexts[id].state == Stuck))
      && (RunsAnew(s, Scheduled(cfg, s, id, now), id) ==> StartedAlone(s, Scheduled(cfg, s, id, now), id))
      && (!RunsAnew(s, Scheduled(cfg, s, id, now), id) ==> Scheduled(cfg, s, id, now) == s)
  {
    hide Exec, Inv, Scheduled;
    ReachableInv(cfg, acts);
    var s := Exec(cfg, Init(), acts);
    InvGivesFresh(cfg, s);
    ScheduleTakesRoom(cfg, s, id, now);
    if MayStart(cfg, s, id) {
      PlacedIsAlone(s, Scheduled(cfg, s, id, now), id);
    }
  }

  lemma InvGivesFresh(cfg: Config, s: Sys)
    requires Inv(cfg, s)
    ensures Fresh(s) && forall id :: id in s.jobs && s.jobs[id] in s.live ==> !RunsAnew(s, s, id)
  {
  }

  /** Creates and schedules n jobs, one after the other. */
  function FillRun(n: nat): seq<Action> {
    if n == 0 then [] else FillRun(n - 1) + [CreateJob, ScheduleLocked(n - 1, 0), ScheduleInsert]
  }

  /** n jobs are stored and nothing is under way. */
  ghost predicate Filled(s: Sys, n: nat) {
    s.lock == Free && s.nextJob == n && |s.jobs| == n && |s.live| == n && |Active(s.contexts)| <= n && Fresh(s)
  }

  lemma {:induction false} ExecAppend(cfg: Config, s: Sys, a: seq<Action>, b: seq<Action>)
    ensures Exec(cfg, s, a + b) == Exec(cfg, Exec(cfg, s, a), b)
    decreases a
  {
    hide Step;
    if a == [] {
      assert a + b == b;
    } else {
      ExecAppend(cfg, Step(cfg, s, a[0]), a[1..], b);
      assert (a + b)[1..] == a[1..] + b;
    }
  }

  lemma ExecThree(cfg: Config, s: Sys, a: Action, b: Action, c: Action)
    ensures Exec(cfg, s, [a, b, c]) == Step(cfg, Step(cfg, Step(cfg, s, a), b), c)
  {
    hide Step;
    var s1 := Step(cfg, s, a);
    var s2 := Step(cfg, s1, b);
    assert [a, b, c][1..] == [b, c] && [b, c][1..] == [c] && [c][1..] == [];
    assert Exec(cfg, s2, [c]) == Exec(cfg, Step(cfg, s2, c), []);
    assert Exec(cfg, s1, [b, c]) == Exec(cfg, s2, [c]);
  }

  /** While fewer jobs than allowed are active, a new pending job is created. */
  lemma CreateTakesEffect(cfg: Config, s: Sys)
    requires |Active(s.contexts)| < cfg.maxJobs
    ensures Step(cfg, s, CreateJob) == s.(contexts := s.contexts[s.nextJob := NewJob()], nextJob := s.nextJob + 1)
    ensures NewJob().state == Pending
  {
  }

  lemma FillCreated(cfg: Config, s: Sys, n: nat)
    requires Filled(s, n) && n < cfg.maxParallel && n < cfg.maxJobs
    ensures var created := Step(cfg, s, CreateJob);
      && Fresh(created) && created.lock == Free && MayStart(cfg, created, n)
      && created.jobs == s.jobs && created.live == s.live && created.nextWorker == s.nextWorker
      && created.nextJob == n + 1 && |Active(created.contexts)| <= n + 1
      && n !in s.jobs && s.nextWorker !in s.live
  {
    FreshIsNew(s);
    hide Step, Active, Fresh;
    CreateTakesEffect(cfg, s);
    CreateAddsOne(s.contexts, n);
    CreateIsFresh(s);
  }

  lemma FreshIsNew(s: Sys)
    requires Fresh(s)
    ensures s.nextJob !in s.jobs && s.nextJob !in s.contexts && s.nextWorker !in s.live
  {
  }

  lemma CreateIsFresh(s: Sys)
    requires Fresh(s)
    ensures Fresh(s.(contexts := s.contexts[s.nextJob := NewJob()], nextJob := s.nextJob + 1))
  {
  }

  lemma AddedSize<K, V>(m: map<K, V>, k: K, v: V)
    requires k !in m
    ensures |m[k := v]| == |m| + 1
  {
    assert m[k := v].Keys == m.Keys + {k};
    assert |m[k := v].Keys| == |m[k := v]| && |m.Keys| == |m|;
  }

  lemma FillOneMore(cfg: Config, s: Sys, n: nat)
    requires Filled(s, n) && n < cfg.maxParallel && n < cfg.maxJobs
    ensures Filled(Scheduled(cfg, Step(cfg, s, CreateJob), n, 0), n + 1)
  {
    hide Step, Fresh, Active, Scheduled, MayStart;
    FillCreated(cfg, s, n);
    var created := Step(cfg, s, CreateJob);
    ScheduleTakesRoom(cfg, created, n, 0);
    FillContexts(cfg, created, n);
    FillFresh(cfg, created, n);
    AddedSize(s.jobs, n, created.nextWorker);
    AddedSize(s.live, created.nextWorker, Worker(n, false));
  }

  lemma FillContexts(cfg: Config, s: Sys, id: JobId)
    requires s.lock == Free && MayStart(cfg, s, id)
    ensures var after := Scheduled(cfg, s, id, 0);
      |Active(after.contexts)| <= |Active(s.contexts)|
  {
    UpdateAddsNoActive(s.contexts, id, Request(InProgress, SCHEDULED, 0));
    hide Active, Apply;
  }

  lemma FillFresh(cfg: Config, s: Sys, id: JobId)
    requires Fresh(s) && s.lock == Free && MayStart(cfg, s, id)
    ensures Fresh(Scheduled(cfg, s, id, 0))
  {
    hide Apply;
  }

  /** The capacity can be used up to the last place: for every limit a run fills the map. */
  lemma {:induction false} CapacityCanBeFilled(cfg: Config, n: nat)
    requires n <= cfg.maxParallel && n <= cfg.maxJobs
    ensures Filled(Exec(cfg, Init(), FillRun(n)), n)
  {
    hide Step, Filled;
    if n == 0 {
      NothingFilled(cfg);
    } else {
      CapacityCanBeFilled(cfg, n - 1);
      ExecAppend(cfg, Init(), FillRun(n - 1), [CreateJob, ScheduleLocked(n - 1, 0), ScheduleInsert]);
      var s := Exec(cfg, Init(), FillRun(n - 1));
      hide Exec;
      ExecThree(cfg, s, CreateJob, ScheduleLocked(n - 1, 0), ScheduleInsert);
      FillOneMore(cfg, s, n - 1);
    }
  }

  lemma NothingFilled(cfg: Config)
    ensures Filled(Exec(cfg, Init(), FillRun(0)), 0)
  {
  }

  /** A stop cancels its job unless work on it was over before. */
  lemma StopCancels(cfg: Config, s: Sys, now: int)
    requires s.lock.Stopping? && s.lock.job in s.contexts
    ensures var id := s.lock.job; var after := Step(cfg, Step(cfg, s, StopAbort), StopCancel(now));
      && id in after.contexts
      && after.contexts[id].state == (if Closed(s.contexts[id].state) then s.contexts[id].state else Cancelled)
      && s.lock.worker !in after.live && after.lock == Free
  {
  }

  /** A worker that has not recorded its result can record it while its job is in progress. */
  lemma MarkTakesEffect(cfg: Config, s: Sys, worker: WorkerId, to: State, reason: string, now: int)
    requires worker in s.live && !s.live[worker].done && s.live[worker].job in s.contexts
    requires s.contexts[s.live[worker].job].state == InProgress
    requires to == Completed || to == Failed || to == Stuck
    ensures var id := s.live[worker].job; var after := Step(cfg, s, WorkerMark(worker, to, reason, now));
      && id in after.contexts && after.contexts[id].state == to
      && after.contexts[id].transitions != []
      && after.contexts[id].transitions[|after.contexts[id].transitions| - 1] ==
           StateTransition(InProgress, to, now, Some(reason))
      && worker in after.live && after.live[worker].done
  {
  }

  /** A stuck job that was reported within the limit is taken up by the repair loop. */
  lemma RepairTakesEffect(cfg: Config, s: Sys, id: JobId, now: int)
    requires id in s.contexts && s.contexts[id].state == Stuck && s.contexts[id].repairAttempts < cfg.maxRepair
    ensures var after := Step(cfg, Step(cfg, s, RepairObserve(id)), RepairApply(id, now));
      && id in after.contexts && after.contexts[id].state == InProgress
      && after.contexts[id].repairAttempts == s.contexts[id].repairAttempts + 1
  {
  }
}
