/**
 What the agent does with the submissions of a session: turns, approvals, undo
 (src/agent/agent_loop.rs). The model, the tools and the safety layer are oracles: a
 submission carries what they will answer. Submissions are handled one after the other.
 */
module AgentLoop {
  import opened Wrappers
  import opened Chat
  import opened Session
  import opened Undo
  import opened Compaction

  // ---------------------------------------------------------------------
  // The agentic loop
  // ---------------------------------------------------------------------

  /** A tool call; `destructive` says whether it is a command that always needs approval. */
  datatype Call = Call(id: string, name: string, destructive: bool)

  datatype ToolOutcome =
    | Output(text: string)
    | Failure(error: string)
    | AwaitingAuth(extension: string, instructions: string)

  datatype Planned = Planned(call: Call, outcome: ToolOutcome)

  datatype LlmOutput =
    | Refusal(error: string)
    | Text(text: string)
    | ToolCalls(calls: seq<Planned>)

  /** Why a tool was allowed to run. */
  datatype How = Ungated | AutoApproved(destructive: bool) | ApprovedBy(requestId: nat)

  datatype Event =
    | Ran(tool: string, how: How)
    | Granted(requestId: nat, tool: string, always: bool)

  datatype LoopEnd = Responded(text: string) | NeedsApproval(call: Call) | Failed(error: string)

  /** How the loop ended, the tools it ran, and the extension it wants a token for. */
  datatype LoopResult = LoopResult(end: LoopEnd, runs: seq<Event>, auth: Option<string>)

  const SHELL := "shell"
  const MAX_TOOL_ITERATIONS: nat := 10
  const TOO_MANY_ITERATIONS := "Exceeded maximum tool iterations"
  const NO_ANSWER := "No answer"

  predicate MayRun(gated: set<string>, auto: set<string>, call: Call) {
    call.name !in gated || (call.name in auto && !(call.name == SHELL && call.destructive))
  }

  function Permission(gated: set<string>, call: Call): How {
    if call.name in gated then AutoApproved(call.destructive) else Ungated
  }

  datatype BatchEnd = AllRun | Paused(call: Call) | WantsToken(extension: string, instructions: string)

  datatype BatchResult = BatchResult(end: BatchEnd, runs: seq<Event>)

  /** Runs the calls of one answer in order; a pause abandons the calls after it. */
  function RunBatch(gated: set<string>, auto: set<string>, calls: seq<Planned>): BatchResult {
    if calls == [] then BatchResult(AllRun, [])
    else if !MayRun(gated, auto, calls[0].call) then BatchResult(Paused(calls[0].call), [])
    else
      var ran := Ran(calls[0].call.name, Permission(gated, calls[0].call));
      match calls[0].outcome
      case AwaitingAuth(extension, instructions) => BatchResult(WantsToken(extension, instructions), [ran])
      case _ =>
        var rest := RunBatch(gated, auto, calls[1..]);
        rest.(runs := [ran] + rest.runs)
  }

  /** The loop after `iteration` calls of the model; an exhausted oracle is a model that fails. */
  function RunLoop(gated: set<string>, auto: set<string>, outs: seq<LlmOutput>, iteration: nat): LoopResult
    decreases |outs|
  {
    if iteration >= MAX_TOOL_ITERATIONS then LoopResult(Failed(TOO_MANY_ITERATIONS), [], None)
    else if outs == [] then LoopResult(Failed(NO_ANSWER), [], None)
    else
      match outs[0]
      case Refusal(error) => LoopResult(Failed(error), [], None)
      case Text(text) => LoopResult(Responded(text), [], None)
      case ToolCalls(calls) =>
        var batch := RunBatch(gated, auto, calls);
        match batch.end
        case Paused(call) => LoopResult(NeedsApproval(call), batch.runs, None)
        case WantsToken(extension, instructions) =>
          LoopResult(Responded(instructions), batch.runs, Some(extension))
        case AllRun =>
          var rest := RunLoop(gated, auto, outs[1..], iteration + 1);
          rest.(runs := batch.runs + rest.runs)
  }

  lemma {:induction false} BatchSnoc(gated: set<string>, auto: set<string>, calls: seq<Planned>, n: nat)
    requires n < |calls| && RunBatch(gated, auto, calls[..n]).end == AllRun
    ensures var done := RunBatch(gated, auto, calls[..n]).runs; var call := calls[n].call;
      var ran := Ran(call.name, Permission(gated, call));
      && (!MayRun(gated, auto, call) ==> RunBatch(gated, auto, calls) == BatchResult(Paused(call), done))
      && (MayRun(gated, auto, call) && calls[n].outcome.AwaitingAuth? ==>
            RunBatch(gated, auto, calls) ==
            BatchResult(WantsToken(calls[n].outcome.extension, calls[n].outcome.instructions), done + [ran]))
      && (MayRun(gated, auto, call) && !calls[n].outcome.AwaitingAuth? ==>
            RunBatch(gated, auto, calls[..n + 1]) == BatchResult(AllRun, done + [ran]))
  {
    hide MayRun, Permission;
    if n > 0 {
      assert calls[..n][1..] == calls[1..][..n - 1] && calls[..n + 1][1..] == calls[1..][..n];
      BatchSnoc(gated, auto, calls[1..], n - 1);
    } else {
      assert calls[..1][1..] == [];
    }
  }

  method RunAgenticLoop(gated: set<string>, auto: set<string>, outs: seq<LlmOutput>)
    returns (r: LoopResult, llmCalls: nat)
    ensures r == RunLoop(gated, auto, outs, 0)
    ensures llmCalls <= MAX_TOOL_ITERATIONS
  {
    hide MayRun, Permission, Exactly;
    var runs := [];
    llmCalls := 0;
    while true
      invariant llmCalls <= |outs| && llmCalls <= MAX_TOOL_ITERATIONS
      invariant var rest := RunLoop(gated, auto, outs[llmCalls..], llmCalls);
        RunLoop(gated, auto, outs, 0) == rest.(runs := runs + rest.runs)
      decreases |outs| - llmCalls
    {
      if llmCalls == MAX_TOOL_ITERATIONS {
        return LoopResult(Failed(TOO_MANY_ITERATIONS), runs, None), llmCalls;
      }
      if llmCalls == |outs| {
        return LoopResult(Failed(NO_ANSWER), runs, None), llmCalls;
      }
      var output := outs[llmCalls];
      assert outs[llmCalls..][0] == output && outs[llmCalls..][1..] == outs[llmCalls + 1..];
      llmCalls := llmCalls + 1;
      match output {
        case Refusal(error) => return LoopResult(Failed(error), runs, None), llmCalls;
        case Text(text) => return LoopResult(Responded(text), runs, None), llmCalls;
        case ToolCalls(calls) =>
          var batch := RunCalls(gated, auto, calls);
          runs := runs + batch.runs;
          match batch.end {
            case Paused(call) => return LoopResult(NeedsApproval(call), runs, None), llmCalls;
            case WantsToken(extension, instructions) =>
              return LoopResult(Responded(instructions), runs, Some(extension)), llmCalls;
            case AllRun =>
          }
      }
    }
  }

  method RunCalls(gated: set<string>, auto: set<string>, calls: seq<Planned>) returns (r: BatchResult)
    ensures r == RunBatch(gated, auto, calls)
    ensures Exactly(gated, auto, calls, r)
  {
    BatchIsExact(gated, auto, calls);
    var runs := [];
    for i := 0 to |calls|
      invariant RunBatch(gated, auto, calls[..i]) == BatchResult(AllRun, runs)
    {
      var call := calls[i].call;
      BatchSnoc(gated, auto, calls, i);
      if call.name in gated {
        var isAutoApproved := call.name in auto;
        if isAutoApproved && call.name == SHELL && call.destructive {
          isAutoApproved := false;
        }
        if !isAutoApproved {
          return BatchResult(Paused(call), runs);
        }
      }
      runs := runs + [Ran(call.name, Permission(gated, call))];
      if calls[i].outcome.AwaitingAuth? {
        return BatchResult(WantsToken(calls[i].outcome.extension, calls[i].outcome.instructions), runs);
      }
    }
    assert calls[..|calls|] == calls;
    return BatchResult(AllRun, runs);
  }

  /** What the loop itself runs: ungated tools, and gated ones approved for good that are not destructive commands. */
  predicate Allowed(gated: set<string>, auto: set<string>, e: Event) {
    && e.Ran?
    && match e.how
       case Ungated => e.tool !in gated
       case AutoApproved(destructive) => e.tool in gated && e.tool in auto && !(e.tool == SHELL && destructive)
       case ApprovedBy(_) => false
  }

  lemma {:induction false} BatchIsAllowed(gated: set<string>, auto: set<string>, calls: seq<Planned>)
    ensures forall e :: e in RunBatch(gated, auto, calls).runs ==> Allowed(gated, auto, e)
    ensures RunBatch(gated, auto, calls).end.Paused? ==> RunBatch(gated, auto, calls).end.call.name in gated
  {
    if calls != [] {
      BatchIsAllowed(gated, auto, calls[1..]);
    }
  }

  lemma {:induction false} LoopIsAllowed(gated: set<string>, auto: set<string>, outs: seq<LlmOutput>, iteration: nat)
    ensures forall e :: e in RunLoop(gated, auto, outs, iteration).runs ==> Allowed(gated, auto, e)
    ensures RunLoop(gated, auto, outs, iteration).end.NeedsApproval? ==>
              && RunLoop(gated, auto, outs, iteration).end.call.name in gated
              && RunLoop(gated, auto, outs, iteration).auth == None
    decreases |outs|
  {
    hide RunBatch, Allowed;
    if outs != [] {
      LoopIsAllowed(gated, auto, outs[1..], iteration + 1);
      if outs[0].ToolCalls? {
        BatchIsAllowed(gated, auto, outs[0].calls);
      }
    }
  }

  // ---------------------------------------------------------------------
  // What must run
  // ---------------------------------------------------------------------

  /** The user must be asked: the tool needs approval and has none for good, or it is a destructive command. */
  predicate MustAsk(gated: set<string>, auto: set<string>, call: Call) {
    call.name in gated && (call.name !in auto || (call.name == SHELL && call.destructive))
  }

  /** The record of a call that was run by the loop. */
  function RunOf(gated: set<string>, call: Call): Event {
    Ran(call.name, if call.name in gated then AutoApproved(call.destructive) else Ungated)
  }

  /** The call is run and the loop goes on to the next. */
  predicate GoesThrough(gated: set<string>, auto: set<string>, planned: Planned) {
    !MustAsk(gated, auto, planned.call) && !planned.outcome.AwaitingAuth?
  }

  /** The calls run are the first ones, and each may run. */
  ghost predicate RunsFirst(gated: set<string>, auto: set<string>, calls: seq<Planned>, runs: seq<Event>) {
    && |runs| <= |calls|
    && forall i :: 0 <= i < |runs| ==>
         runs[i] == RunOf(gated, calls[i].call) && !MustAsk(gated, auto, calls[i].call)
  }

  ghost predicate ThroughUpTo(gated: set<string>, auto: set<string>, calls: seq<Planned>, n: nat) {
    n <= |calls| && forall i :: 0 <= i < n ==> GoesThrough(gated, auto, calls[i])
  }

  /**
   The result of a batch, call by call: the calls run are the first ones; the batch stops at the first call
   for which the user must be asked, or after the first that wants a token, or else at its end.
   */
  ghost predicate Exactly(gated: set<string>, auto: set<string>, calls: seq<Planned>, r: BatchResult) {
    var n := |r.runs|;
    && RunsFirst(gated, auto, calls, r.runs)
    && match r.end
       case AllRun => n == |calls| && ThroughUpTo(gated, auto, calls, n)
       case Paused(call) =>
         n < |calls| && calls[n].call == call && MustAsk(gated, auto, call) && ThroughUpTo(gated, auto, calls, n)
       case WantsToken(extension, instructions) =>
         && n > 0 && calls[n - 1].outcome == AwaitingAuth(extension, instructions)
         && ThroughUpTo(gated, auto, calls, n - 1)
  }

  lemma RunsFirstCons(gated: set<string>, auto: set<string>, calls: seq<Planned>, runs: seq<Event>)
    requires calls != [] && !MustAsk(gated, auto, calls[0].call) && RunsFirst(gated, auto, calls[1..], runs)
    ensures RunsFirst(gated, auto, calls, [RunOf(gated, calls[0].call)] + runs)
  {
    hide MustAsk, RunOf;
  }

  lemma ThroughCons(gated: set<string>, auto: set<string>, calls: seq<Planned>, n: nat)
    requires calls != [] && GoesThrough(gated, auto, calls[0]) && ThroughUpTo(gated, auto, calls[1..], n)
    ensures ThroughUpTo(gated, auto, calls, n + 1)
  {
    hide GoesThrough;
    forall i | 0 <= i < n + 1 ensures GoesThrough(gated, auto, calls[i]) {
      if i > 0 {
        assert calls[i] == calls[1..][i - 1];
      }
    }
  }

  lemma ExactlyCons(gated: set<string>, auto: set<string>, calls: seq<Planned>, rest: BatchResult)
    requires calls != [] && GoesThrough(gated, auto, calls[0]) && Exactly(gated, auto, calls[1..], rest)
    ensures Exactly(gated, auto, calls, rest.(runs := [RunOf(gated, calls[0].call)] + rest.runs))
  {
    hide GoesThrough, MustAsk, RunOf, ThroughUpTo;
    ThroughIsNoAsk(gated, auto, calls[0]);
    RunsFirstCons(gated, auto, calls, rest.runs);
    if rest.end.WantsToken? {
      ThroughCons(gated, auto, calls, |rest.runs| - 1);
    } else {
      ThroughCons(gated, auto, calls, |rest.runs|);
    }
  }

  lemma ThroughIsNoAsk(gated: set<string>, auto: set<string>, planned: Planned)
    requires GoesThrough(gated, auto, planned)
    ensures !MustAsk(gated, auto, planned.call)
  {
  }

  lemma {:induction false} BatchIsExact(gated: set<string>, auto: set<string>, calls: seq<Planned>)
    ensures Exactly(gated, auto, calls, RunBatch(gated, auto, calls))
  {
    if calls != [] && GoesThrough(gated, auto, calls[0]) {
      BatchIsExact(gated, auto, calls[1..]);
      ExactlyCons(gated, auto, calls, RunBatch(gated, auto, calls[1..]));
      hide Exactly;
    }
  }

  /**
   A call that is reached pauses the batch exactly if the user must be asked for it, and then nothing after
   it runs; otherwise it is run, as approved for good if it is gated.
   */
  lemma ReachedCallIff(gated: set<string>, auto: set<string>, calls: seq<Planned>, i: nat)
    requires i < |calls| && forall j :: 0 <= j < i ==> GoesThrough(gated, auto, calls[j])
    ensures var r := RunBatch(gated, auto, calls);
      && (r.end == Paused(calls[i].call) && |r.runs| == i <==>
            calls[i].call.name in gated
            && (calls[i].call.name !in auto || (calls[i].call.name == SHELL && calls[i].call.destructive)))
      && (i < |r.runs| <==> !MustAsk(gated, auto, calls[i].call))
      && (i < |r.runs| ==> r.runs[i] == RunOf(gated, calls[i].call))
      && (i < |r.runs| && calls[i].outcome.AwaitingAuth? ==>
            r.end == WantsToken(calls[i].outcome.extension, calls[i].outcome.instructions) && |r.runs| == i + 1)
  {
    BatchIsExact(gated, auto, calls);
    var r := RunBatch(gated, auto, calls);
    hide RunBatch, RunOf;
  }

  /** A batch in which no call needs the user or a token runs completely. */
  predicate Smooth(gated: set<string>, auto: set<string>, output: LlmOutput) {
    output.ToolCalls? && forall i :: 0 <= i < |output.calls| ==> GoesThrough(gated, auto, output.calls[i])
  }

  lemma SmoothBatchRuns(gated: set<string>, auto: set<string>, output: LlmOutput)
    requires Smooth(gated, auto, output)
    ensures var r := RunBatch(gated, auto, output.calls);
      && r.end == AllRun && |r.runs| == |output.calls|
      && forall i :: 0 <= i < |r.runs| ==> r.runs[i] == RunOf(gated, output.calls[i].call)
  {
    BatchIsExact(gated, auto, output.calls);
    hide RunBatch, RunOf;
  }

  /** The records of all calls of the answers, in order. */
  function AllRuns(gated: set<string>, outs: seq<LlmOutput>): seq<Event> {
    if outs == [] then []
    else (if outs[0].ToolCalls? then RunsOf(gated, outs[0].calls) else []) + AllRuns(gated, outs[1..])
  }

  function RunsOf(gated: set<string>, calls: seq<Planned>): (runs: seq<Event>)
    ensures |runs| == |calls| && forall i :: 0 <= i < |calls| ==> runs[i] == RunOf(gated, calls[i].call)
  {
    seq(|calls|, i requires 0 <= i < |calls| => RunOf(gated, calls[i].call))
  }

  /** What the loop does with the first answer that is not smooth. */
  function Ending(gated: set<string>, auto: set<string>, output: LlmOutput): LoopResult {
    match output
    case Refusal(error) => LoopResult(Failed(error), [], None)
    case Text(text) => LoopResult(Responded(text), [], None)
    case ToolCalls(calls) =>
      var batch := RunBatch(gated, auto, calls);
      match batch.end
      case Paused(call) => LoopResult(NeedsApproval(call), batch.runs, None)
      case WantsToken(extension, instructions) => LoopResult(Responded(instructions), batch.runs, Some(extension))
      case AllRun => LoopResult(Failed(NO_ANSWER), batch.runs, None)
  }

  /**
   The loop goes on through every smooth answer, running all its calls, up to the first that is not smooth,
   and ends as that one says; ten smooth answers are too many.
   */
  lemma {:induction false} LoopGoesOn(
      gated: set<string>, auto: set<string>, outs: seq<LlmOutput>, iteration: nat, n: nat)
    requires n <= |outs| && iteration + n <= MAX_TOOL_ITERATIONS
    requires forall i :: 0 <= i < n ==> Smooth(gated, auto, outs[i])
    ensures iteration + n < MAX_TOOL_ITERATIONS && n < |outs| && !Smooth(gated, auto, outs[n]) ==>
              RunLoop(gated, auto, outs, iteration) ==
              Ending(gated, auto, outs[n]).(runs := AllRuns(gated, outs[..n]) + Ending(gated, auto, outs[n]).runs)
    ensures iteration + n == MAX_TOOL_ITERATIONS ==>
              RunLoop(gated, auto, outs, iteration) ==
              LoopResult(Failed(TOO_MANY_ITERATIONS), AllRuns(gated, outs[..n]), None)
  {
    hide Smooth, RunBatch, RunLoop, Ending, RunsOf;
    if n == 0 {
      assert outs[..0] == [];
      LoopEnds(gated, auto, outs, iteration);
    } else {
      assert Smooth(gated, auto, outs[0]);
      SmoothIsCalls(gated, auto, outs[0]);
      LoopStep(gated, auto, outs, iteration);
      assert forall i :: 0 <= i < n - 1 ==> outs[1..][i] == outs[i + 1];
      LoopGoesOn(gated, auto, outs[1..], iteration + 1, n - 1);
      assert outs[..n][1..] == outs[1..][..n - 1] && outs[..n][0] == outs[0];
      assert n < |outs| ==> outs[1..][n - 1] == outs[n];
    }
  }

  lemma LoopStep(gated: set<string>, auto: set<string>, outs: seq<LlmOutput>, iteration: nat)
    requires outs != [] && iteration < MAX_TOOL_ITERATIONS && Smooth(gated, auto, outs[0])
    ensures var rest := RunLoop(gated, auto, outs[1..], iteration + 1);
      RunLoop(gated, auto, outs, iteration) == rest.(runs := RunsOf(gated, outs[0].calls) + rest.runs)
  {
    hide RunBatch;
    SmoothBatchRuns(gated, auto, outs[0]);
    assert RunBatch(gated, auto, outs[0].calls).runs == RunsOf(gated, outs[0].calls);
  }

  lemma LoopEnds(gated: set<string>, auto: set<string>, outs: seq<LlmOutput>, iteration: nat)
    ensures iteration < MAX_TOOL_ITERATIONS && outs != [] && !Smooth(gated, auto, outs[0]) ==>
              RunLoop(gated, auto, outs, iteration) ==
              Ending(gated, auto, outs[0]).(runs := [] + Ending(gated, auto, outs[0]).runs)
    ensures iteration == MAX_TOOL_ITERATIONS ==>
              RunLoop(gated, auto, outs, iteration) == LoopResult(Failed(TOO_MANY_ITERATIONS), [], None)
  {
    hide RunBatch, Smooth;
    if iteration < MAX_TOOL_ITERATIONS && outs != [] && !Smooth(gated, auto, outs[0]) {
      UnevenEnds(gated, auto, outs[0]);
      assert [] + Ending(gated, auto, outs[0]).runs == Ending(gated, auto, outs[0]).runs;
    }
  }

  lemma SmoothIsCalls(gated: set<string>, auto: set<string>, output: LlmOutput)
    requires Smooth(gated, auto, output)
    ensures output.ToolCalls?
  {
  }

  lemma UnevenEnds(gated: set<string>, auto: set<string>, output: LlmOutput)
    requires !Smooth(gated, auto, output)
    ensures output.ToolCalls? ==> RunBatch(gated, auto, output.calls).end != AllRun
  {
    if output.ToolCalls? {
      BatchIsExact(gated, auto, output.calls);
      hide RunBatch;
    }
  }
}
