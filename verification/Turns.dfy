/**
 What the submissions of src/agent/agent_loop.rs do for a user: every turn can be undone, and every turn
 that the model answers is answered, fails, or waits for the user.
 */
module Turns {
  import opened Wrappers
  import opened Chat
  import opened Session
  import opened Undo
  import opened Compaction
  import opened AgentLoop
  import opened Submissions
  import opened Approvals

  /** Text that was let through, with what the model will answer. */
  function Input(
      content: string, attachments: seq<Attachment>, plan: Option<CompactionPlan>, outs: seq<LlmOutput>): Submission
  {
    UserInput(Admitted(content), attachments, plan, outs, false)
  }

  /** The thread is idle or interrupted and waits for no token; a thread that is not there yet is idle. */
  predicate TakesInput(h: Host, tid: ThreadId) {
    tid in h.chats ==>
      && (h.chats[tid].thread.state == Idle || h.chats[tid].thread.state == Interrupted)
      && h.chats[tid].thread.auth == None
  }

  function TurnsOf(h: Host, tid: ThreadId): seq<Turn> {
    if tid in h.chats then h.chats[tid].thread.turns else []
  }

  /** The turns that are left when the thread was compacted first, if that was needed. */
  function TurnsKept(turns: seq<Turn>, plan: Option<CompactionPlan>): seq<Turn> {
    match plan
    case None => turns
    case Some(p) => Compacted(turns, p.strategy, p.summary, p.hasWorkspace)
  }

  lemma PushedIsLast(u: UndoData, c: Checkpoint)
    requires u.limit.Some? && u.limit.value > 0
    ensures Pushed(u, c).undo != [] && Last(Pushed(u, c).undo) == Some(c) && Pushed(u, c).redo == []
  {
  }

  lemma RunOfTwo(gated: set<string>, h: Host, a: (ThreadId, Submission), b: (ThreadId, Submission))
    ensures Run(gated, h, [a, b]) == Handle(gated, Handle(gated, h, a.0, a.1), b.0, b.1)
  {
    hide Handle;
    var h1 := Handle(gated, h, a.0, a.1);
    assert [a, b][1..] == [b] && [b][1..] == [];
    assert Run(gated, h1, [b]) == Run(gated, Handle(gated, h1, b.0, b.1), []);
  }

  lemma InputLeavesCheckpoint(gated: set<string>, h: Host, tid: ThreadId, sub: Submission)
    requires sub.UserInput? && sub.admission.Admitted? && TakesInput(h, tid)
    requires ChatOk(At(h, tid), h.nextId)
    ensures var after := Handle(gated, h, tid, sub);
      && tid in after.chats && after.chats[tid].undo.undo != [] && after.chats[tid].undo.redo == []
      && Last(after.chats[tid].undo.undo).value.messages == Messages(TurnsKept(TurnsOf(h, tid), sub.compaction))
  {
    hide RunLoop, Settled, Messages, Pushed, Compacted;
    var c := At(h, tid);
    var kept := TurnsKept(TurnsOf(h, tid), sub.compaction);
    var thread := c.thread.(turns := kept);
    PushedIsLast(c.undo, Snapshot(thread, h.nextId, BEFORE_TURN));
    assert Prepared(c, sub.compaction, h.nextId).undo == Pushed(c.undo, Snapshot(thread, h.nextId, BEFORE_TURN));
  }

  lemma UndoRestoresLast(gated: set<string>, h: Host, tid: ThreadId)
    requires tid in h.chats && h.chats[tid].undo.undo != []
    ensures var after := Handle(gated, h, tid, UndoTurn);
      && tid in after.chats && after.chats[tid].thread.state == Idle
      && after.chats[tid].thread.turns == TurnsFrom(Last(h.chats[tid].undo.undo).value.messages, 0)
      && after.chats[tid].undo.undo == h.chats[tid].undo.undo
      && |after.chats[tid].undo.redo| == |h.chats[tid].undo.redo| + 1
  {
    hide TurnsFrom, Messages;
  }

  /**
   Every turn can be undone. In every run, input that a thread takes, followed by an undo, gives the
   conversation as it was before the input, after compaction if there was one: whatever the model and the
   tools did in between.
   */
  lemma TurnCanBeUndone(
      gated: set<string>, subs: seq<(ThreadId, Submission)>, tid: ThreadId,
      content: string, attachments: seq<Attachment>, plan: Option<CompactionPlan>, outs: seq<LlmOutput>)
    requires TakesInput(Run(gated, NewHost(), subs), tid)
    ensures var h := Run(gated, NewHost(), subs);
      var after := Run(gated, h, [(tid, Input(content, attachments, plan, outs)), (tid, UndoTurn)]);
      && tid in after.chats && after.chats[tid].thread.state == Idle
      && after.chats[tid].thread.turns == TurnsFrom(Messages(TurnsKept(TurnsOf(h, tid), plan)), 0)
      && |after.chats[tid].undo.redo| == 1
  {
    hide Run, Handle, Messages, TurnsFrom, Compacted;
    RunFromStart(gated, subs);
    var h := Run(gated, NewHost(), subs);
    NewChatIsOk(h.nextId);
    assert ChatOk(At(h, tid), h.nextId);
    var input := Input(content, attachments, plan, outs);
    InputLeavesCheckpoint(gated, h, tid, input);
    UndoRestoresLast(gated, Handle(gated, h, tid, input), tid);
    RunOfTwo(gated, h, (tid, input), (tid, UndoTurn));
  }

  /** And without attachments or compaction, it gives the very messages back. */
  lemma UndoneTurnLeavesMessages(
      gated: set<string>, subs: seq<(ThreadId, Submission)>, tid: ThreadId,
      content: string, attachments: seq<Attachment>, outs: seq<LlmOutput>)
    requires TakesInput(Run(gated, NewHost(), subs), tid)
    ensures var h := Run(gated, NewHost(), subs);
      var after := Run(gated, h, [(tid, Input(content, attachments, None, outs)), (tid, UndoTurn)]);
      && tid in after.chats
      && (Messages(after.chats[tid].thread.turns) == Messages(TurnsOf(h, tid)) <==> NoAttachments(TurnsOf(h, tid)))
  {
    hide Run, Handle, Messages, TurnsFrom, NoAttachments;
    TurnCanBeUndone(gated, subs, tid, content, attachments, None, outs);
    SnapshotIsExactIff(TurnsOf(Run(gated, NewHost(), subs), tid));
  }

  // ---------------------------------------------------------------------
  // What the model's first answer leads to
  // ---------------------------------------------------------------------

  /** The last turn has this response and is completed; all else about the turns is as before. */
  predicate LastAnswered(before: seq<Turn>, after: seq<Turn>, text: string) {
    && |after| == |before|
    && (forall i :: 0 <= i < |before| - 1 ==> after[i] == before[i])
    && (before != [] ==>
          after[|after| - 1] == before[|before| - 1].(response := Some(text), state := TurnCompleted))
  }

  predicate LastFailed(before: seq<Turn>, after: seq<Turn>, error: string) {
    && |after| == |before|
    && (forall i :: 0 <= i < |before| - 1 ==> after[i] == before[i])
    && (before != [] ==> after[|after| - 1] == before[|before| - 1].(error := Some(error), state := TurnFailed))
  }

  /**
   How a turn goes on from the turns `before`, after the events `done`, when the model's first answer is
   `first`: a text answers it, a refusal fails it; of tool calls, the first is run unless the user must be
   asked, and then the thread waits for a new request for that call.
   */
  ghost predicate GoesOn(
      gated: set<string>, auto: set<string>, first: LlmOutput, before: seq<Turn>, done: nat,
      thread: ThreadData, events: seq<Event>, newest: nat)
  {
    match first
    case Text(text) => thread.state == Idle && LastAnswered(before, thread.turns, text) && |events| == done
    case Refusal(error) => thread.state == Idle && LastFailed(before, thread.turns, error) && |events| == done
    case ToolCalls(calls) =>
      calls != [] ==>
        var call := calls[0].call;
        if call.name in gated && (call.name !in auto || (call.name == SHELL && call.destructive)) then
          && thread.state == AwaitingApproval && thread.turns == before && |events| == done
          && thread.pending.Some? && thread.pending.value.requestId >= newest
          && thread.pending.value.toolName == call.name && thread.pending.value.toolCallId == call.id
        else
          && done < |events|
          && events[done] == Ran(call.name, if call.name in gated then AutoApproved(call.destructive) else Ungated)
  }

  lemma FirstAnswer(gated: set<string>, auto: set<string>, outs: seq<LlmOutput>)
    requires outs != []
    ensures var r := RunLoop(gated, auto, outs, 0);
      match outs[0]
      case Text(text) => r == LoopResult(Responded(text), [], None)
      case Refusal(error) => r == LoopResult(LoopEnd.Failed(error), [], None)
      case ToolCalls(calls) =>
        calls != [] ==>
          if MustAsk(gated, auto, calls[0].call)
          then r == LoopResult(NeedsApproval(calls[0].call), [], None)
          else r.runs != [] && r.runs[0] == RunOf(gated, calls[0].call)
  {
    hide MustAsk, RunOf, MayRun;
    if outs[0].ToolCalls? && outs[0].calls != [] {
      FirstCallDecides(gated, auto, outs[0].calls);
      hide RunBatch, Exactly;
    }
  }

  lemma FirstCallDecides(gated: set<string>, auto: set<string>, calls: seq<Planned>)
    requires calls != []
    ensures var r := RunBatch(gated, auto, calls);
      if MustAsk(gated, auto, calls[0].call) then r == BatchResult(Paused(calls[0].call), [])
      else r.runs != [] && r.runs[0] == RunOf(gated, calls[0].call)
  {
    ReachedCallIff(gated, auto, calls, 0);
  }

  /** A settled thread, seen from the loop's result. */
  lemma SettledGoesOn(
      gated: set<string>, auto: set<string>, outs: seq<LlmOutput>, thread: ThreadData, events: seq<Event>,
      requestId: nat)
    requires outs != []
    ensures var r := RunLoop(gated, auto, outs, 0);
      GoesOn(gated, auto, outs[0], thread.turns, |events|, Settled(thread, r, requestId), events + r.runs, requestId)
  {
    FirstAnswer(gated, auto, outs);
    hide RunLoop;
  }

  /**
   An approved request whose tool asks for no token lets its turn go on: from the model's first answer, after
   the grant and the run of the tool.
   */
  lemma ApprovedTurnGoesOn(gated: set<string>, h: Host, tid: ThreadId, sub: Submission, r: nat)
    requires tid in h.chats && Asks(h.chats[tid], r) && h.chats[tid].thread.auth == None
    requires sub.Approval? && sub.approved && (sub.requestId == None || sub.requestId == Some(r))
    requires !sub.outcome.AwaitingAuth? && sub.outs != []
    ensures var tool := h.chats[tid].thread.pending.value.toolName; var after := Handle(gated, h, tid, sub);
      && tid in after.chats
      && after.auto == (if sub.always then h.auto + {tool} else h.auto)
      && GoesOn(gated, after.auto, sub.outs[0], h.chats[tid].thread.turns, |h.events| + 2,
                after.chats[tid].thread, after.events, h.nextId)
      && after.events[..|h.events| + 2] == h.events + [Granted(r, tool, sub.always), Ran(tool, ApprovedBy(r))]
      && after.chats[tid].undo == h.chats[tid].undo
  {
    hide RunLoop, Settled, GoesOn;
    var c := h.chats[tid];
    assert c.thread.(auth := None) == c.thread;
    var tool := c.thread.pending.value.toolName;
    var auto := if sub.always then h.auto + {tool} else h.auto;
    var events := h.events + [Granted(r, tool, sub.always), Ran(tool, ApprovedBy(r))];
    SettledGoesOn(gated, auto, sub.outs, c.thread.(pending := None, state := Processing), events, h.nextId);
  }

  /** Input that a thread takes opens a turn, and the model's first answer decides how it goes on. */
  lemma InputGoesOn(gated: set<string>, h: Host, tid: ThreadId, sub: Submission)
    requires sub.UserInput? && sub.admission.Admitted? && TakesInput(h, tid) && sub.outs != []
    ensures var after := Handle(gated, h, tid, sub); var kept := TurnsKept(TurnsOf(h, tid), sub.compaction);
      && tid in after.chats && after.auto == h.auto
      && GoesOn(gated, h.auto, sub.outs[0],
                kept + [Turn(|kept|, sub.admission.content, sub.attachments, None, TurnProcessing, None)],
                |h.events|, after.chats[tid].thread, after.events, h.nextId)
  {
    hide RunLoop, Settled, GoesOn, Messages, Pushed, Compacted;
    var c := At(h, tid);
    var kept := TurnsKept(TurnsOf(h, tid), sub.compaction);
    var prepared := Prepared(c, sub.compaction, h.nextId);
    assert prepared.thread == c.thread.(turns := kept);
    var started := StartTurn(prepared.thread, sub.admission.content, sub.attachments);
    assert started.turns == kept + [Turn(|kept|, sub.admission.content, sub.attachments, None, TurnProcessing, None)];
    SettledGoesOn(gated, h.auto, sub.outs, started, h.events, h.nextId + 1);
    NewestCanBeLower(gated, h.auto, sub.outs[0], started.turns, |h.events|,
                     Settled(started, RunLoop(gated, h.auto, sub.outs, 0), h.nextId + 1),
                     h.events + RunLoop(gated, h.auto, sub.outs, 0).runs, h.nextId + 1, h.nextId);
  }

  lemma NewestCanBeLower(
      gated: set<string>, auto: set<string>, first: LlmOutput, before: seq<Turn>, done: nat,
      thread: ThreadData, events: seq<Event>, newest: nat, lower: nat)
    requires GoesOn(gated, auto, first, before, done, thread, events, newest) && lower <= newest
    ensures GoesOn(gated, auto, first, before, done, thread, events, lower)
  {
  }

  // ---------------------------------------------------------------------
  // The other submissions
  // ---------------------------------------------------------------------

  /** The same chat, not waiting for a token. */
  function Plainly(c: ChatData): ChatData {
    c.(thread := c.thread.(auth := None))
  }

  /** Input is turned down while the thread processes, waits for an answer, or is completed: nothing changes. */
  lemma BusyInputIsRejected(gated: set<string>, h: Host, tid: ThreadId, sub: Submission)
    requires tid in h.chats && sub.UserInput? && h.chats[tid].thread.auth == None
    requires var s := h.chats[tid].thread.state;
      s == Processing || s == AwaitingApproval || s == ThreadState.Completed || !sub.admission.Admitted?
    ensures Handle(gated, h, tid, sub) == h
  {
    assert h.chats[tid := h.chats[tid]] == h.chats;
  }

  /** Input to a thread that waits for a token is the token: taken, the wait is over; refused, it goes on. */
  lemma TokenEndsWait(gated: set<string>, h: Host, tid: ThreadId, sub: Submission)
    requires tid in h.chats && sub.UserInput? && h.chats[tid].thread.auth.Some?
    ensures var after := Handle(gated, h, tid, sub);
      && after == (if sub.tokenRejected then h else h.(chats := h.chats[tid := Plainly(h.chats[tid])]))
  {
    assert h.chats[tid := h.chats[tid]] == h.chats;
  }

  /** A rejected request is gone, nothing runs, and the thread takes input again. */
  lemma RejectionEndsTurn(gated: set<string>, h: Host, tid: ThreadId, sub: Submission, r: nat)
    requires tid in h.chats && Asks(h.chats[tid], r)
    requires sub.Approval? && !sub.approved && (sub.requestId == None || sub.requestId == Some(r))
    ensures var after := Handle(gated, h, tid, sub);
      && tid in after.chats && TakesInput(after, tid) && after.chats[tid].thread.state == Idle
      && after.chats[tid].thread.pending == None && after.chats[tid].thread.turns == h.chats[tid].thread.turns
      && after.events == h.events && after.auto == h.auto
  {
  }

  /** An approved tool that asks for a token runs, and the thread answers with the instructions and waits. */
  lemma ApprovedTokenRequest(gated: set<string>, h: Host, tid: ThreadId, sub: Submission, r: nat)
    requires tid in h.chats && Asks(h.chats[tid], r)
    requires sub.Approval? && sub.approved && (sub.requestId == None || sub.requestId == Some(r))
    requires sub.outcome.AwaitingAuth?
    ensures var after := Handle(gated, h, tid, sub); var tool := h.chats[tid].thread.pending.value.toolName;
      && tid in after.chats && after.chats[tid].thread.state == Idle
      && after.chats[tid].thread.auth == Some(sub.outcome.extension)
      && LastAnswered(h.chats[tid].thread.turns, after.chats[tid].thread.turns, sub.outcome.instructions)
      && after.events == h.events + [Granted(r, tool, sub.always), Ran(tool, ApprovedBy(r))]
  {
  }

  /** An interrupted turn is marked, and the thread takes input again. */
  lemma InterruptMarksTurn(gated: set<string>, h: Host, tid: ThreadId)
    requires tid in h.chats
    ensures var t := h.chats[tid].thread; var after := Handle(gated, h, tid, Interrupt);
      && tid in after.chats
      && (if t.state == Processing || t.state == AwaitingApproval then
            && after.chats[tid].thread.state == Interrupted && TakesInput(after, tid)
            && |after.chats[tid].thread.turns| == |t.turns|
            && (t.turns != [] ==> after.chats[tid].thread.turns[|t.turns| - 1].state == TurnInterrupted)
          else after.chats[tid] == Plainly(h.chats[tid]))
  {
  }

  /** Clearing leaves an idle thread without turns, with nothing to undo and nothing to redo. */
  lemma ClearForgets(gated: set<string>, h: Host, tid: ThreadId)
    requires tid in h.chats
    ensures var after := Handle(gated, h, tid, Clear);
      && tid in after.chats && after.chats[tid].thread.turns == [] && TakesInput(after, tid)
      && after.chats[tid].undo.undo == [] && after.chats[tid].undo.redo == []
  {
  }

  /** Compacting changes the turns alone, to those that the strategy leaves. */
  lemma CompactShortens(gated: set<string>, h: Host, tid: ThreadId, plan: CompactionPlan)
    requires tid in h.chats
    ensures var after := Handle(gated, h, tid, Submission.Compact(plan)); var c := Plainly(h.chats[tid]);
      && tid in after.chats
      && after.chats[tid] == c.(thread := c.thread.(turns := TurnsKept(c.thread.turns, Some(plan))))
  {
  }

  /**
   Resuming a checkpoint restores its messages; the checkpoint is taken off the stack with all later ones,
   and there is nothing to redo.
   */
  lemma ResumeRestores(gated: set<string>, h: Host, tid: ThreadId, p: nat)
    requires tid in h.chats && p < |h.chats[tid].undo.undo|
    requires forall i :: 0 <= i < p ==> h.chats[tid].undo.undo[i].id != h.chats[tid].undo.undo[p].id
    ensures var c := h.chats[tid]; var target := c.undo.undo[p];
      var after := Handle(gated, h, tid, Resume(target.id));
      && tid in after.chats
      && after.chats[tid].thread.turns == TurnsFrom(target.messages, 0) && after.chats[tid].thread.state == Idle
      && after.chats[tid].undo.undo == c.undo.undo[..p] && after.chats[tid].undo.redo == []
      && forall i :: 0 <= i < |after.chats[tid].undo.undo| ==> after.chats[tid].undo.undo[i].id != target.id
  {
    hide TurnsFrom;
    assert Position(h.chats[tid].undo.undo, h.chats[tid].undo.undo[p].id) == p;
  }

  /** Resuming an unknown checkpoint changes nothing, but a wait for a token is over. */
  lemma UnknownResumeKeeps(gated: set<string>, h: Host, tid: ThreadId, id: nat)
    requires tid in h.chats && forall i :: 0 <= i < |h.chats[tid].undo.undo| ==> h.chats[tid].undo.undo[i].id != id
    ensures var after := Handle(gated, h, tid, Resume(id));
      tid in after.chats && after.chats[tid] == Plainly(h.chats[tid])
  {
    hide TurnsFrom;
    assert Position(h.chats[tid].undo.undo, id) == |h.chats[tid].undo.undo|;
  }

  /** Any other submission leaves the thread alone, but a wait for a token is over. */
  lemma OtherKeeps(gated: set<string>, h: Host, tid: ThreadId)
    requires tid in h.chats
    ensures var after := Handle(gated, h, tid, Other);
      tid in after.chats && after.chats[tid] == Plainly(h.chats[tid]) && after.events == h.events
  {
  }
}
