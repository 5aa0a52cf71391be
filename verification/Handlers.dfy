/** The message handlers of src/agent/agent_loop.rs as imperative code over threads and undo managers. */
module Handlers {
  import opened Wrappers
  import opened Chat
  import opened Session
  import opened Undo
  import opened Compaction
  import opened AgentLoop
  import opened Submissions
  import opened Approvals

  datatype Reply =
    | Response(text: string)
    | NeedApproval(requestId: nat, toolName: string)
    | Done
    | Error

  /** A thread and its undo manager. */
  class Conversation {
    const thread: Thread
    const undo: UndoManager

    function View(): ChatData
      reads this, thread, undo
    {
      ChatData(thread.View(), undo.View())
    }

    constructor ()
      ensures View() == NewChat() && fresh(thread) && fresh(undo)
    {
      thread := new Thread();
      undo := new UndoManager(DEFAULT_MAX_CHECKPOINTS);
    }

    method ProcessAuthToken(rejected: bool) returns (r: Reply)
      modifies thread
      ensures View() == if rejected then old(View())
                        else old(View()).(thread := old(thread.View()).(auth := None))
      ensures r == if rejected then Error else Done
    {
      var extension := thread.auth;
      thread.auth := None;
      if rejected {
        thread.auth := extension;
        return Error;
      }
      return Done;
    }

    method ProcessInterrupt() returns (r: Reply)
      modifies thread
      ensures View() == HandleInterrupt(old(View()))
    {
      if thread.state == Processing || thread.state == AwaitingApproval {
        thread.Interrupt();
      }
      return Done;
    }

    /** A failed compaction leaves the thread as it was. */
    method ProcessCompact(plan: CompactionPlan) returns (r: Reply)
      modifies thread
      ensures View() == old(View()).(thread := old(thread.View()).(turns := ApplyPlan(old(thread.turns), plan)))
    {
      hide Compacted, Messages, Tokens;
      var compaction := Compaction.Compact(
        thread, plan.strategy, plan.summary, if plan.hasWorkspace then Some(true) else None);
      r := if compaction.Ok? then Done else Error;
    }

    /** The state of the thread as a checkpoint. */
    method TakeSnapshot(id: nat, description: string) returns (snapshot: Checkpoint)
      ensures snapshot == Snapshot(thread.View(), id, description)
    {
      hide Messages;
      var messages := thread.BuildMessages();
      snapshot := Checkpoint(id, |thread.turns| + 1, messages, description);
    }

    method ProcessUndo(id: nat) returns (r: Reply)
      modifies thread, undo
      ensures View() == HandleUndo(old(View()), id)
    {
      hide Messages, TurnsFrom, Snapshot;
      if |undo.undoStack| == 0 {
        return Done;
      }
      var current := TakeSnapshot(id, TURN);
      var checkpoint := undo.Undo(current);
      thread.RestoreFromMessages(checkpoint.value.messages);
      return Done;
    }

    method ProcessRedo() returns (r: Reply)
      modifies thread, undo
      ensures View() == HandleRedo(old(View()))
    {
      hide Messages, TurnsFrom;
      if |undo.redoStack| == 0 {
        return Done;
      }
      var checkpoint := undo.Redo();
      thread.RestoreFromMessages(checkpoint.value.messages);
      return Done;
    }

    method ProcessResume(checkpointId: nat) returns (r: Reply)
      modifies thread, undo
      ensures View() == HandleResume(old(View()), checkpointId)
      ensures r == Error <==> Found(old(undo.undoStack), checkpointId) == None
    {
      hide Messages, TurnsFrom, Position;
      var checkpoint := undo.Restore(checkpointId);
      if checkpoint == None {
        return Error;
      }
      thread.RestoreFromMessages(checkpoint.value.messages);
      return Done;
    }

    method ProcessClear() returns (r: Reply)
      modifies thread, undo
      ensures View() == HandleClear(old(View()))
    {
      thread.turns := [];
      thread.state := Idle;
      undo.Clear();
      return Done;
    }

    /** Settles a turn after the loop; a request made now gets the id `requestId`. */
    method Finish(result: LoopResult, requestId: nat) returns (r: Reply)
      modifies thread
      ensures View() == old(View()).(thread := Settled(old(thread.View()), result, requestId))
      ensures match result.end
              case Responded(text) => r == Response(text)
              case NeedsApproval(call) => r == NeedApproval(requestId, call.name)
              case Failed(_) => r == Error
      ensures r.NeedApproval? ==> r.requestId == requestId && Asks(View(), requestId)
    {
      if result.auth.Some? {
        thread.EnterAuthMode(result.auth.value);
      }
      match result.end {
        case Responded(text) =>
          thread.Complete(text);
          r := Response(text);
        case NeedsApproval(call) =>
          thread.AwaitApproval(PendingApproval(requestId, call.name, call.id));
          r := NeedApproval(requestId, call.name);
        case Failed(error) =>
          thread.Fail(error);
          r := Error;
      }
    }
  }

  function Views(chats: map<ThreadId, Conversation>): (views: map<ThreadId, ChatData>)
    reads chats.Values, set t | t in chats :: chats[t].thread, set t | t in chats :: chats[t].undo
    ensures views.Keys == chats.Keys
  {
    map t | t in chats :: chats[t].View()
  }

  lemma ViewsOfAdded(chats: map<ThreadId, Conversation>, tid: ThreadId, c: Conversation)
    ensures Views(chats[tid := c]) == Views(chats)[tid := c.View()]
  {
  }

  lemma ViewsOfOne(chats: map<ThreadId, Conversation>, tid: ThreadId)
    requires tid in chats
    ensures Views(chats)[tid] == chats[tid].View()
    ensures Views(chats) == Views(chats - {tid})[tid := chats[tid].View()]
  {
  }

  lemma Overwritten<K, V>(m: map<K, V>, k: K, x: V, y: V)
    ensures m[k := x][k := y] == m[k := y]
  {
  }

  class SessionHost {
    const gated: set<string>
    var chats: map<ThreadId, Conversation>
    var auto: set<string>
    var nextId: nat
    ghost var events: seq<Event>

    ghost function View(): Host
      reads this, chats.Values, set t | t in chats :: chats[t].thread, set t | t in chats :: chats[t].undo
    {
      Host(Views(chats), auto, events, nextId)
    }

    /** The session as one of its conversations sees it. */
    ghost function Local(tid: ThreadId, c: Conversation): Host
      reads this, c, c.thread, c.undo
    {
      Host(map[tid := c.View()], auto, events, nextId)
    }

    /** No two conversations share a thread or an undo manager. */
    ghost predicate Valid()
      reads this, chats.Values
    {
      forall s, t :: s in chats && t in chats && s != t ==>
        chats[s].thread != chats[t].thread && chats[s].undo != chats[t].undo
    }

    constructor (gated: set<string>)
      ensures Valid() && View() == NewHost() && this.gated == gated
    {
      this.gated := gated;
      chats, auto, nextId, events := map[], {}, 0, [];
    }

    /** Takes one submission for thread `tid`. */
    method HandleMessage(tid: ThreadId, sub: Submission) returns (r: Reply)
      requires Valid()
      modifies this, set t | t in chats :: chats[t].thread, set t | t in chats :: chats[t].undo
      ensures Valid() && View() == Handle(gated, old(View()), tid, sub)
    {
      hide Handle, Views;
      ghost var before := View();
      OpenThread(tid);
      HandleFindsChat(gated, before, View(), tid, sub);
      r := HandleOpen(tid, sub);
    }

    method OpenThread(tid: ThreadId)
      requires Valid()
      modifies this`chats
      ensures Valid() && tid in chats
      ensures chats == old(chats) || (fresh(chats[tid].thread) && fresh(chats[tid].undo))
      ensures forall t :: t in old(chats) ==> t in chats && chats[t] == old(chats)[t]
      ensures forall t :: t in chats && t != tid ==> t in old(chats)
      ensures Views(chats) == if tid in old(chats) then old(Views(chats)) else old(Views(chats))[tid := NewChat()]
    {
      hide Views;
      if tid !in chats {
        var c := new Conversation();
        ViewsOfAdded(chats, tid, c);
        chats := chats[tid := c];
      }
    }

    method HandleOpen(tid: ThreadId, sub: Submission) returns (r: Reply)
      requires Valid() && tid in chats
      modifies this`auto, this`nextId, this`events, chats[tid].thread, chats[tid].undo
      ensures View() == Handle(gated, old(View()), tid, sub)
    {
      hide Handle, Views;
      ViewsOfOne(chats, tid);
      HandleIsLocal(gated, View(), Local(tid, chats[tid]), tid, sub);
      r := DispatchAmongOthers(tid, sub);
    }

    /** The other conversations stay as they are. */
    method DispatchAmongOthers(tid: ThreadId, sub: Submission) returns (r: Reply)
      requires Valid() && tid in chats
      modifies this`auto, this`nextId, this`events, chats[tid].thread, chats[tid].undo
      ensures Local(tid, chats[tid]) == Handle(gated, old(Local(tid, chats[tid])), tid, sub)
      ensures Views(chats) == old(Views(chats))[tid := chats[tid].View()]
    {
      hide Handle, Local, Views;
      ghost var others := chats - {tid};
      ViewsOfOne(chats, tid);
      assert forall t :: t in others ==> chats[t].thread != chats[tid].thread && chats[t].undo != chats[tid].undo;
      r := Dispatch(tid, chats[tid], sub);
      assert Views(others) == old(Views(others));
      ViewsOfOne(chats, tid);
      Overwritten(Views(others), tid, old(chats[tid].View()), chats[tid].View());
    }

    method Dispatch(tid: ThreadId, c: Conversation, sub: Submission) returns (r: Reply)
      modifies this`auto, this`nextId, this`events, c.thread, c.undo
      ensures Local(tid, c) == Handle(gated, old(Local(tid, c)), tid, sub)
    {
      hide HandleInput, HandleApproval, HandleInterrupt, HandleUndo, HandleRedo, HandleResume, HandleClear, ApplyPlan;
      if sub.UserInput? {
        r := ProcessUserInput(tid, c, sub);
        return;
      }
      c.thread.auth := None;
      assert Local(tid, c).chats == WithoutAuth(old(Local(tid, c)), tid).chats;
      if sub.Approval? {
        r := ProcessApproval(tid, c, sub);
        return;
      }
      var id := nextId;
      nextId := nextId + 1;
      match sub {
        case Interrupt => r := c.ProcessInterrupt();
        case Compact(plan) => r := c.ProcessCompact(plan);
        case UndoTurn => r := c.ProcessUndo(id);
        case RedoTurn => r := c.ProcessRedo();
        case Resume(checkpointId) => r := c.ProcessResume(checkpointId);
        case Clear => r := c.ProcessClear();
        case _ => r := Done;
      }
    }

    /** User input, or the token that the conversation waits for. */
    method ProcessUserInput(tid: ThreadId, c: Conversation, sub: Submission) returns (r: Reply)
      requires sub.UserInput?
      modifies this`nextId, this`events, c.thread, c.undo
      ensures Local(tid, c) == HandleInput(gated, old(Local(tid, c)), tid, sub)
      ensures r.NeedApproval? ==> Asks(c.View(), r.requestId)
    {
      hide RunLoop, Messages, StartTurn, Settled, Pushed, ApplyPlan, Snapshot, Put;
      ghost var before := c.View();
      PutAlone(Local(tid, c), tid);
      if c.thread.auth.Some? {
        r := c.ProcessAuthToken(sub.tokenRejected);
        return;
      }
      if !Ready(c.thread.state) {
        return Error;
      }
      if !sub.admission.Admitted? {
        return Error;
      }
      if sub.compaction.Some? {
        var compacted := c.ProcessCompact(sub.compaction.value);
      }
      var checkpoint := c.TakeSnapshot(nextId, BEFORE_TURN);
      c.undo.TakeCheckpoint(checkpoint);
      assert c.View() == Prepared(before, sub.compaction, nextId);
      c.thread.Start(sub.admission.content, sub.attachments);
      var result, _ := RunAgenticLoop(gated, auto, sub.outs);
      events := events + result.runs;
      r := c.Finish(result, nextId + 1);
      nextId := nextId + 2;
    }

    method ProcessApproval(tid: ThreadId, c: Conversation, sub: Submission) returns (r: Reply)
      requires sub.Approval?
      modifies this`auto, this`nextId, this`events, c.thread
      ensures Local(tid, c) == HandleApproval(gated, old(Local(tid, c)), tid, sub)
      ensures r.NeedApproval? ==> Asks(c.View(), r.requestId)
    {
      hide RunLoop, CompleteTurn, Settled, Put;
      ghost var before := c.View();
      PutAlone(Local(tid, c), tid);
      var thread := c.thread;
      if thread.state != AwaitingApproval {
        return Error;
      }
      var taken := thread.TakePendingApproval();
      if taken == None {
        return Error;
      }
      var pending := taken.value;
      if sub.requestId.Some? && sub.requestId.value != pending.requestId {
        // The request is put back as it was.
        thread.AwaitApproval(pending);
        assert c.View() == before;
        return Error;
      }
      if !sub.approved {
        thread.state := Idle;
        return Response(pending.toolName);
      }
      if sub.always {
        auto := auto + {pending.toolName};
      }
      thread.state := Processing;
      events := events + [Granted(pending.requestId, pending.toolName, sub.always),
                          Ran(pending.toolName, ApprovedBy(pending.requestId))];
      if sub.outcome.AwaitingAuth? {
        thread.EnterAuthMode(sub.outcome.extension);
        thread.Complete(sub.outcome.instructions);
        return Response(sub.outcome.instructions);
      }
      var result, _ := RunAgenticLoop(gated, auto, sub.outs);
      events := events + result.runs;
      r := c.Finish(result, nextId);
      nextId := nextId + 1;
    }
  }

  /** The only conversation of a session is replaced. */
  lemma PutAlone(h: Host, tid: ThreadId)
    requires h.chats.Keys == {tid}
    ensures forall c :: Put(h, tid, c) == h.(chats := map[tid := c])
  {
    forall c ensures Put(h, tid, c) == h.(chats := map[tid := c]) {
      assert h.chats[tid := c] == map[tid := c];
    }
  }

  /** A first submission opens its thread, so it does not matter whether that was done before. */
  lemma HandleFindsChat(gated: set<string>, h: Host, found: Host, tid: ThreadId, sub: Submission)
    requires found == if tid in h.chats then h else h.(chats := h.chats[tid := NewChat()])
    ensures Handle(gated, found, tid, sub) == Handle(gated, h, tid, sub)
  {
    hide RunLoop, Settled, Prepared, StartTurn, CompleteTurn, HandleControl;
  }

  /** A submission is handled by its own thread: the others could as well not be there. */
  lemma HandleIsLocal(gated: set<string>, h: Host, local: Host, tid: ThreadId, sub: Submission)
    requires tid in h.chats && local == h.(chats := map[tid := h.chats[tid]])
    ensures var alone := Handle(gated, local, tid, sub);
      && alone.chats.Keys == {tid}
      && Handle(gated, h, tid, sub) == alone.(chats := h.chats[tid := alone.chats[tid]])
  {
    hide RunLoop, Settled, Prepared, StartTurn, CompleteTurn, HandleControl;
  }
}
