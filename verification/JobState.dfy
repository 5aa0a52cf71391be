/**
 The job state machine and the context kept for one job
 (src/context/state.rs).
 */
module JobState {
  import opened Wrappers

  datatype State =
    | Pending
    | InProgress
    | Completed
    | Submitted
    | Accepted
    | Failed
    | Stuck
    | Cancelled

  predicate CanTransitionTo(from: State, to: State) {
    match from
    case Pending => to == InProgress || to == Cancelled
    case InProgress => to == Completed || to == Failed || to == Stuck || to == Cancelled
    case Completed => to == Submitted || to == Failed
    case Submitted => to == Accepted || to == Failed
    case Stuck => to == InProgress || to == Failed || to == Cancelled
    case _ => false
  }

  predicate IsTerminal(s: State) {
    s == Accepted || s == Failed || s == Cancelled
  }

  predicate IsActive(s: State) {
    !IsTerminal(s)
  }

  /** The states that carry a completion time: work on the job is over. */
  predicate Closed(s: State) {
    s == Completed || s == Submitted || IsTerminal(s)
  }

  /** A sequence of states in which each step is a legal transition. */
  ghost predicate LegalPath(path: seq<State>) {
    forall i :: 0 < i < |path| ==> CanTransitionTo(path[i - 1], path[i])
  }

  ghost predicate CanReach(from: State, to: State) {
    exists path: seq<State> :: |path| > 0 && path[0] == from && path[|path| - 1] == to && LegalPath(path)
  }

  /** Terminal states are exactly those with no way out. */
  lemma TerminalIffAbsorbing(s: State)
    ensures IsTerminal(s) <==> forall to: State :: !CanTransitionTo(s, to)
  {
    if !IsTerminal(s) {
      var to := if s == Pending || s == Stuck then InProgress else if s == InProgress then Completed
                else if s == Completed then Submitted else Accepted;
      assert CanTransitionTo(s, to);
    }
  }

  lemma {:induction false} ClosedStaysClosed(path: seq<State>)
    requires |path| > 0 && LegalPath(path) && Closed(path[0])
    ensures Closed(path[|path| - 1])
  {
    if |path| > 1 {
      ClosedStaysClosed(path[..|path| - 1]);
      assert CanTransitionTo(path[|path| - 2], path[|path| - 1]);
    }
  }

  /** Work can resume on a job if and only if its state is not closed. */
  lemma ClosedIffNoWayBack(s: State)
    ensures Closed(s) <==> !CanReach(s, InProgress)
  {
    if Closed(s) {
      forall path: seq<State> | |path| > 0 && path[0] == s && LegalPath(path)
        ensures path[|path| - 1] != InProgress
      {
        ClosedStaysClosed(path);
      }
    } else {
      var path := if s == InProgress then [s] else [s, InProgress];
      assert path[|path| - 1] == InProgress && LegalPath(path);
    }
  }

  datatype StateTransition = StateTransition(from: State, to: State, timestamp: int, reason: Option<string>)

  datatype TransitionError = IllegalTransition(from: State, to: State) | NotStuck

  const MAX_TRANSITIONS := 200

  /** The value of a job context: the fields that the state machine reads or writes. */
  datatype Job = Job(
    state: State,
    startedAt: Option<int>,
    completedAt: Option<int>,
    repairAttempts: nat,
    transitions: seq<StateTransition>)

  function NewJob(): Job {
    Job(Pending, None, None, 0, [])
  }

  /** The last `n` elements of `s`. */
  function LastN<T>(s: seq<T>, n: nat): (r: seq<T>) {
    if |s| > n then s[|s| - n..] else s
  }

  /** The context after a transition request; an illegal request changes nothing. */
  function Transitioned(j: Job, to: State, reason: Option<string>, now: int): Job {
    if !CanTransitionTo(j.state, to) then j
    else j.(
      state := to,
      transitions := LastN(j.transitions + [StateTransition(j.state, to, now, reason)], MAX_TRANSITIONS),
      startedAt := if to == InProgress && j.startedAt == None then Some(now) else j.startedAt,
      completedAt := if to == Completed || to == Accepted || to == Failed || to == Cancelled
                     then Some(now) else j.completedAt)
  }

  const RECOVERY_REASON := Some("Recovery attempt")

  function Recovered(j: Job, now: int): Job {
    if j.state != Stuck then j
    else Transitioned(j.(repairAttempts := j.repairAttempts + 1), InProgress, RECOVERY_REASON, now)
  }

  /** The mutable context of one job. */
  class JobContext {
    var state: State
    var startedAt: Option<int>
    var completedAt: Option<int>
    var repairAttempts: nat
    var transitions: seq<StateTransition>

    function View(): Job
      reads this
    {
      Job(state, startedAt, completedAt, repairAttempts, transitions)
    }

    constructor ()
      ensures View() == NewJob()
    {
      state, startedAt, completedAt := Pending, None, None;
      repairAttempts, transitions := 0, [];
    }

    method TransitionTo(newState: State, reason: Option<string>, now: int) returns (r: Result<(), TransitionError>)
      modifies this
      ensures View() == Transitioned(old(View()), newState, reason, now)
      ensures r == if CanTransitionTo(old(state), newState) then Ok(())
                   else Err(IllegalTransition(old(state), newState))
    {
      hide CanTransitionTo;
      if !CanTransitionTo(state, newState) {
        return Err(IllegalTransition(state, newState));
      }
      var transition := StateTransition(state, newState, now, reason);
      transitions := transitions + [transition];
      if |transitions| > MAX_TRANSITIONS {
        var drainCount := |transitions| - MAX_TRANSITIONS;
        transitions := transitions[drainCount..];
      }
      state := newState;
      match newState {
        case InProgress =>
          if startedAt == None {
            startedAt := Some(now);
          }
        case Completed => completedAt := Some(now);
        case Accepted => completedAt := Some(now);
        case Failed => completedAt := Some(now);
        case Cancelled => completedAt := Some(now);
        case _ =>
      }
      return Ok(());
    }

    method MarkStuck(reason: string, now: int) returns (r: Result<(), TransitionError>)
      modifies this
      ensures View() == Transitioned(old(View()), Stuck, Some(reason), now)
      ensures r.Ok? <==> old(state) == InProgress
    {
      r := TransitionTo(Stuck, Some(reason), now);
    }

    method AttemptRecovery(now: int) returns (r: Result<(), TransitionError>)
      modifies this
      ensures View() == Recovered(old(View()), now)
      ensures r.Ok? <==> old(state) == Stuck
    {
      if state != Stuck {
        return Err(NotStuck);
      }
      repairAttempts := repairAttempts + 1;
      r := TransitionTo(InProgress, RECOVERY_REASON, now);
    }
  }

  // ---------------------------------------------------------------------
  // Runs of one job
  // ---------------------------------------------------------------------

  datatype JobOp =
    | Request(to: State, reason: Option<string>, now: int)
    | Recover(now: int)

  function Apply(j: Job, op: JobOp): Job {
    match op
    case Request(to, reason, now) => Transitioned(j, to, reason, now)
    case Recover(now) => Recovered(j, now)
  }

  function RunJob(ops: seq<JobOp>): Job {
    if ops == [] then NewJob() else Apply(RunJob(ops[..|ops| - 1]), ops[|ops| - 1])
  }

  /** The transition that `op` makes in state `s`, if it makes one. */
  function Fired(s: State, op: JobOp): seq<StateTransition> {
    match op
    case Request(to, reason, now) =>
      if CanTransitionTo(s, to) then [StateTransition(s, to, now, reason)] else []
    case Recover(now) =>
      if s == Stuck then [StateTransition(Stuck, InProgress, now, RECOVERY_REASON)] else []
  }

  /** Every transition made in the run, with nothing forgotten. */
  function FullLog(ops: seq<JobOp>): seq<StateTransition> {
    if ops == [] then []
    else FullLog(ops[..|ops| - 1]) + Fired(RunJob(ops[..|ops| - 1]).state, ops[|ops| - 1])
  }

  /** A chain of legal transitions that starts at Pending and ends at `end`. */
  ghost predicate Chain(log: seq<StateTransition>, end: State) {
    && (forall i :: 0 <= i < |log| ==> CanTransitionTo(log[i].from, log[i].to))
    && (forall i :: 0 < i < |log| ==> log[i - 1].to == log[i].from)
    && (log == [] ==> end == Pending)
    && (log != [] ==> log[0].from == Pending && log[|log| - 1].to == end)
  }

  /** One operation: at most one transition, legal, from the old state to the new one. */
  lemma OpFires(j: Job, op: JobOp)
    ensures var fired := Fired(j.state, op);
      && |fired| <= 1
      && (fired == [] ==> Apply(j, op) == j)
      && (fired != [] ==>
            && fired[0].from == j.state
            && fired[0].to == Apply(j, op).state
            && CanTransitionTo(j.state, fired[0].to)
            && Apply(j, op).transitions == LastN(j.transitions + fired, MAX_TRANSITIONS))
  {
  }

  lemma {:induction false} FullLogIsChain(ops: seq<JobOp>)
    ensures Chain(FullLog(ops), RunJob(ops).state)
  {
    hide Apply;
    hide Fired;
    if ops != [] {
      var before := ops[..|ops| - 1];
      FullLogIsChain(before);
      OpFires(RunJob(before), ops[|ops| - 1]);
    }
  }

  lemma LastNOfAppend<T>(s: seq<T>, x: T, n: nat)
    requires n > 0
    ensures LastN(LastN(s, n) + [x], n) == LastN(s + [x], n)
  {
  }

  lemma {:induction false} StoredIsTailOfLog(ops: seq<JobOp>)
    ensures RunJob(ops).transitions == LastN(FullLog(ops), MAX_TRANSITIONS)
  {
    hide Apply;
    hide Fired;
    if ops != [] {
      var before := ops[..|ops| - 1];
      StoredIsTailOfLog(before);
      OpFires(RunJob(before), ops[|ops| - 1]);
      var fired := Fired(RunJob(before).state, ops[|ops| - 1]);
      if fired != [] {
        LastNOfAppend(FullLog(before), fired[0], MAX_TRANSITIONS);
      }
    }
  }

  /**
   The history stored in a job is the last min(n, 200) of the n transitions it
   made; neighbours chain, each is legal, and the last leads to the current state.
   */
  lemma StoredHistory(ops: seq<JobOp>)
    ensures var j := RunJob(ops); var log := FullLog(ops);
      && |j.transitions| == (if |log| < MAX_TRANSITIONS then |log| else MAX_TRANSITIONS)
      && j.transitions == log[|log| - |j.transitions|..]
      && (forall i :: 0 <= i < |j.transitions| ==> CanTransitionTo(j.transitions[i].from, j.transitions[i].to))
      && (forall i :: 0 < i < |j.transitions| ==> j.transitions[i - 1].to == j.transitions[i].from)
      && (j.transitions == [] ==> j.state == Pending)
      && (j.transitions != [] ==> j.transitions[|j.transitions| - 1].to == j.state)
  {
    StoredIsTailOfLog(ops);
    FullLogIsChain(ops);
  }

  /** A completion time is set exactly while the job is closed. */
  lemma {:induction false} CompletedAtIffClosed(ops: seq<JobOp>)
    ensures RunJob(ops).completedAt.Some? <==> Closed(RunJob(ops).state)
  {
    if ops != [] {
      CompletedAtIffClosed(ops[..|ops| - 1]);
    }
  }

  /** `t` is when the log first entered InProgress. */
  ghost predicate FirstEntry(log: seq<StateTransition>, t: int) {
    exists i :: 0 <= i < |log| && log[i].to == InProgress && log[i].timestamp == t
             && forall k :: 0 <= k < i ==> log[k].to != InProgress
  }

  ghost predicate NeverEntered(log: seq<StateTransition>) {
    forall i :: 0 <= i < |log| ==> log[i].to != InProgress
  }

  lemma EntrySnoc(log: seq<StateTransition>, x: StateTransition)
    ensures NeverEntered(log) && x.to != InProgress ==> NeverEntered(log + [x])
    ensures NeverEntered(log) && x.to == InProgress ==> FirstEntry(log + [x], x.timestamp)
    ensures forall t :: FirstEntry(log, t) ==> FirstEntry(log + [x], t)
  {
    var both := log + [x];
    if NeverEntered(log) && x.to == InProgress {
      assert both[|log|] == x;
    }
    forall t | FirstEntry(log, t)
      ensures FirstEntry(both, t)
    {
      var i :| 0 <= i < |log| && log[i].to == InProgress && log[i].timestamp == t
            && forall k :: 0 <= k < i ==> log[k].to != InProgress;
      assert both[i] == log[i];
    }
  }

  /** The start time is that of the first transition into InProgress, and absent before there is one. */
  lemma {:induction false} StartedAtIsFirstEntry(ops: seq<JobOp>)
    ensures match RunJob(ops).startedAt
            case None => NeverEntered(FullLog(ops))
            case Some(t) => FirstEntry(FullLog(ops), t)
  {
    if ops != [] {
      var before := ops[..|ops| - 1];
      StartedAtIsFirstEntry(before);
      var fired := Fired(RunJob(before).state, ops[|ops| - 1]);
      if fired != [] {
        EntrySnoc(FullLog(before), fired[0]);
      } else {
        assert FullLog(ops) == FullLog(before);
      }
    }
  }

  // ---------------------------------------------------------------------
  // How long a run can be
  // ---------------------------------------------------------------------

  /** How often the log goes back from Stuck to InProgress. */
  function Reentries(log: seq<StateTransition>): nat {
    if log == [] then 0
    else Reentries(log[..|log| - 1]) +
         if log[|log| - 1].from == Stuck && log[|log| - 1].to == InProgress then 1 else 0
  }

  /** How often a plain request, rather than a recovery, took the job out of Stuck into InProgress. */
  function PlainReentries(ops: seq<JobOp>): nat {
    if ops == [] then 0
    else
      var before, op := ops[..|ops| - 1], ops[|ops| - 1];
      PlainReentries(before) + if RunJob(before).state == Stuck && op.Request? && op.to == InProgress then 1 else 0
  }

  /** The longest way into a state that never leaves Stuck for InProgress. */
  function Depth(s: State): nat {
    match s
    case Pending => 0
    case InProgress => 1
    case Stuck => 2
    case Completed => 2
    case Submitted => 3
    case _ => 4
  }

  lemma ReentriesSnoc(log: seq<StateTransition>, fired: seq<StateTransition>)
    requires |fired| <= 1
    ensures Reentries(log + fired) ==
            Reentries(log) + if fired != [] && fired[0].from == Stuck && fired[0].to == InProgress then 1 else 0
  {
    if fired == [] {
      assert log + fired == log;
    } else {
      assert (log + fired)[..|log|] == log;
    }
  }

  /** A transition goes deeper by at least one, or is a re-entry, which comes back by one level. */
  lemma DepthStep(j: Job, op: JobOp)
    ensures var fired := Fired(j.state, op); var after := Apply(j, op).state;
      && (fired == [] ==> after == j.state)
      && (fired != [] ==> |fired| == 1 && fired[0].from == j.state && fired[0].to == after)
      && (fired != [] ==> Depth(after) + (if j.state == Stuck && after == InProgress then 2 else 0) > Depth(j.state))
  {
  }

  lemma {:induction false} LogWithinDepth(ops: seq<JobOp>)
    ensures |FullLog(ops)| <= Depth(RunJob(ops).state) + 2 * Reentries(FullLog(ops))
  {
    hide Apply;
    hide Fired;
    if ops != [] {
      var before, op := ops[..|ops| - 1], ops[|ops| - 1];
      LogWithinDepth(before);
      DepthStep(RunJob(before), op);
      ReentriesSnoc(FullLog(before), Fired(RunJob(before).state, op));
    }
  }

  lemma ReentryStep(j: Job, op: JobOp)
    ensures var fired := Fired(j.state, op);
      && |fired| <= 1
      && Apply(j, op).repairAttempts + (if j.state == Stuck && op.Request? && op.to == InProgress then 1 else 0)
         == j.repairAttempts + (if fired != [] && fired[0].from == Stuck && fired[0].to == InProgress then 1 else 0)
  {
  }

  /** Every re-entry is either a recorded repair attempt or a plain request made while Stuck. */
  lemma {:induction false} ReentriesSplit(ops: seq<JobOp>)
    ensures Reentries(FullLog(ops)) == RunJob(ops).repairAttempts + PlainReentries(ops)
  {
    hide Apply;
    hide Fired;
    if ops != [] {
      var before, op := ops[..|ops| - 1], ops[|ops| - 1];
      ReentriesSplit(before);
      ReentryStep(RunJob(before), op);
      ReentriesSnoc(FullLog(before), Fired(RunJob(before).state, op));
    }
  }

  /**
   A job makes at most 4 + 2 * repair_attempts transitions when Stuck is left for
   InProgress only through a recovery, and two more for every time it is left otherwise.
   */
  lemma TransitionBound(ops: seq<JobOp>)
    ensures |FullLog(ops)| <= 4 + 2 * RunJob(ops).repairAttempts + 2 * PlainReentries(ops)
  {
    LogWithinDepth(ops);
    ReentriesSplit(ops);
  }

  /** A run with exactly `k` recoveries that goes on to Accepted. */
  function BusyRun(k: nat): seq<JobOp> {
    RepairLoop(k) + [Request(Completed, None, 0), Request(Submitted, None, 0), Request(Accepted, None, 0)]
  }

  function RepairLoop(k: nat): seq<JobOp> {
    if k == 0 then [Request(InProgress, None, 0)]
    else RepairLoop(k - 1) + [Request(Stuck, None, 0), Recover(0)]
  }

  lemma RunJobSnoc(ops: seq<JobOp>, op: JobOp)
    ensures RunJob(ops + [op]) == Apply(RunJob(ops), op)
    ensures FullLog(ops + [op]) == FullLog(ops) + Fired(RunJob(ops).state, op)
    ensures PlainReentries(ops + [op]) ==
            PlainReentries(ops) + if RunJob(ops).state == Stuck && op.Request? && op.to == InProgress then 1 else 0
  {
    assert (ops + [op])[..|ops|] == ops;
  }

  lemma SnocTwice(ops: seq<JobOp>, a: JobOp, b: JobOp)
    ensures RunJob(ops + [a, b]) == Apply(Apply(RunJob(ops), a), b)
    ensures FullLog(ops + [a, b]) ==
            FullLog(ops) + Fired(RunJob(ops).state, a) + Fired(Apply(RunJob(ops), a).state, b)
    ensures !(a.Request? && a.to == InProgress) && b.Recover? ==> PlainReentries(ops + [a, b]) == PlainReentries(ops)
  {
    RunJobSnoc(ops, a);
    RunJobSnoc(ops + [a], b);
    assert ops + [a] + [b] == ops + [a, b];
  }

  /** Getting stuck and being recovered once: two transitions and one attempt. */
  lemma RepairRound(j: Job)
    requires j.state == InProgress
    ensures var stuck := Apply(j, Request(Stuck, None, 0));
      && Apply(stuck, Recover(0)).state == InProgress
      && Apply(stuck, Recover(0)).repairAttempts == j.repairAttempts + 1
      && |Fired(j.state, Request(Stuck, None, 0))| == 1
      && |Fired(stuck.state, Recover(0))| == 1
  {
  }

  lemma {:induction false} RepairLoopLength(k: nat)
    ensures RunJob(RepairLoop(k)).state == InProgress
    ensures RunJob(RepairLoop(k)).repairAttempts == k
    ensures PlainReentries(RepairLoop(k)) == 0
    ensures |FullLog(RepairLoop(k))| == 1 + 2 * k
  {
    if k == 0 {
      RunJobSnoc([], Request(InProgress, None, 0));
      assert [] + [Request(InProgress, None, 0)] == RepairLoop(0);
    } else {
      hide Apply;
      hide Fired;
      RepairLoopLength(k - 1);
      RepairRound(RunJob(RepairLoop(k - 1)));
      SnocTwice(RepairLoop(k - 1), Request(Stuck, None, 0), Recover(0));
    }
  }

  /** The bound is reached for every number of repair attempts. */
  lemma TransitionBoundIsTight(k: nat)
    ensures RunJob(BusyRun(k)).repairAttempts == k
    ensures PlainReentries(BusyRun(k)) == 0
    ensures |FullLog(BusyRun(k))| == 4 + 2 * k
  {
    RepairLoopLength(k);
    var a := RepairLoop(k) + [Request(Completed, None, 0)];
    var b := a + [Request(Submitted, None, 0)];
    RunJobSnoc(RepairLoop(k), Request(Completed, None, 0));
    RunJobSnoc(a, Request(Submitted, None, 0));
    RunJobSnoc(b, Request(Accepted, None, 0));
    assert b + [Request(Accepted, None, 0)] == BusyRun(k);
  }

  // ---------------------------------------------------------------------
  // Times and ends
  // ---------------------------------------------------------------------

  /** The time of the last entry of the log into Completed, Accepted, Failed or Cancelled. */
  function LastClosing(log: seq<StateTransition>): Option<int> {
    if log == [] then None
    else
      var last := log[|log| - 1];
      if last.to == Completed || last.to == Accepted || last.to == Failed || last.to == Cancelled
      then Some(last.timestamp)
      else LastClosing(log[..|log| - 1])
  }

  lemma LastClosingSnoc(log: seq<StateTransition>, x: StateTransition)
    ensures LastClosing(log + [x]) ==
            if x.to == Completed || x.to == Accepted || x.to == Failed || x.to == Cancelled then Some(x.timestamp)
            else LastClosing(log)
  {
    assert (log + [x])[..|log|] == log;
  }

  lemma ClosingTimeStep(j: Job, op: JobOp)
    ensures var fired := Fired(j.state, op);
      && |fired| <= 1
      && Apply(j, op).completedAt ==
         (if fired != [] && LastClosing(fired).Some? then LastClosing(fired) else j.completedAt)
  {
  }

  /** The completion time is that of the last transition that closed the job or accepted its result. */
  lemma {:induction false} CompletedAtIsLastClosing(ops: seq<JobOp>)
    ensures RunJob(ops).completedAt == LastClosing(FullLog(ops))
  {
    hide Apply, Fired;
    if ops != [] {
      var before, op := ops[..|ops| - 1], ops[|ops| - 1];
      CompletedAtIsLastClosing(before);
      ClosingTimeStep(RunJob(before), op);
      var fired := Fired(RunJob(before).state, op);
      if fired == [] {
        assert FullLog(before) + fired == FullLog(before);
      } else {
        assert fired == [fired[0]];
        LastClosingSnoc(FullLog(before), fired[0]);
        LastClosingSnoc([], fired[0]);
        assert [] + [fired[0]] == fired;
      }
    }
  }

  /**
   A job can be cancelled exactly as long as work on it is not over, and fail exactly once work on it has
   begun and until it has an end.
   */
  lemma HowJobsEnd(s: State)
    ensures CanTransitionTo(s, Cancelled) <==> !Closed(s)
    ensures CanTransitionTo(s, Failed) <==> s != Pending && !IsTerminal(s)
    ensures CanTransitionTo(s, InProgress) <==> s == Pending || s == Stuck
    ensures CanTransitionTo(s, Completed) <==> s == InProgress
    ensures !CanTransitionTo(s, Pending)
  {
  }

  /** Every state can be reached by a job. */
  lemma EveryStateIsReached(s: State)
    ensures CanReach(Pending, s)
  {
    var path :=
      match s
      case Pending => [Pending]
      case InProgress => [Pending, InProgress]
      case Completed => [Pending, InProgress, Completed]
      case Submitted => [Pending, InProgress, Completed, Submitted]
      case Accepted => [Pending, InProgress, Completed, Submitted, Accepted]
      case Failed => [Pending, InProgress, Failed]
      case Stuck => [Pending, InProgress, Stuck]
      case Cancelled => [Pending, Cancelled];
    assert path[0] == Pending && path[|path| - 1] == s && LegalPath(path);
  }
}
