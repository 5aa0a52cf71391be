/** Undoing and redoing turns through the handlers of the agent. */
module UndoRedo {
  import opened Wrappers
  import opened Chat
  import opened Session
  import opened Undo
  import opened AgentLoop
  import opened Submissions

  /** The chat after `k` undos; the snapshots they save get the ids from `id` on. */
  function Undos(c: ChatData, k: nat, id: nat): ChatData
    decreases k
  {
    if k == 0 then c else Undos(HandleUndo(c, id), k - 1, id + 1)
  }

  function Redos(c: ChatData, k: nat): ChatData {
    if k == 0 then c else HandleRedo(Redos(c, k - 1))
  }

  /** However many undos there are, they all land on the latest checkpoint, and each leaves a snapshot to redo. */
  lemma {:induction false} UndosLandOnLatest(c: ChatData, k: nat, id: nat)
    requires c.undo.undo != [] && k > 0
    ensures var after := Undos(c, k, id);
      && after.thread.turns == TurnsFrom(Last(c.undo.undo).value.messages, 0)
      && after.undo.undo == c.undo.undo
      && |after.undo.redo| == |c.undo.redo| + k
    decreases k
  {
    hide TurnsFrom;
    if k > 1 {
      UndosLandOnLatest(HandleUndo(c, id), k - 1, id + 1);
    }
  }

  /** As many redos as undos bring back the undo manager, and the thread as its own messages restore it. */
  lemma {:induction false} RedosReverseUndos(c: ChatData, k: nat, id: nat)
    requires c.undo.undo != []
    ensures var back := Redos(Undos(c, k, id), k);
      && back.undo == c.undo
      && (k == 0 ==> back == c)
      && (k > 0 ==> back.thread == Restored(c.thread, Messages(c.thread.turns)))
    decreases k
  {
    hide TurnsFrom, Messages;
    if k > 0 {
      var once := HandleUndo(c, id);
      RedosReverseUndos(once, k - 1, id + 1);
      var between := Redos(Undos(once, k - 1, id + 1), k - 1);
      assert between.undo == once.undo;
      assert HandleRedo(between).undo == c.undo;
    }
  }

  // ---------------------------------------------------------------------
  // Through submissions
  // ---------------------------------------------------------------------

  function Repeat(tid: ThreadId, sub: Submission, k: nat): seq<(ThreadId, Submission)> {
    if k == 0 then [] else [(tid, sub)] + Repeat(tid, sub, k - 1)
  }

  lemma {:induction false} RunOfUndos(gated: set<string>, h: Host, tid: ThreadId, k: nat)
    requires tid in h.chats && h.chats[tid].thread.auth == None
    ensures var h' := Run(gated, h, Repeat(tid, UndoTurn, k));
      tid in h'.chats && h'.chats[tid] == Undos(h.chats[tid], k, h.nextId) && h'.chats[tid].thread.auth == None
    decreases k
  {
    if k > 0 {
      var h' := Handle(gated, h, tid, UndoTurn);
      ControlOnly(gated, h, tid, UndoTurn);
      hide Handle, HandleUndo;
      RunOfUndos(gated, h', tid, k - 1);
      assert Repeat(tid, UndoTurn, k)[1..] == Repeat(tid, UndoTurn, k - 1);
    }
  }

  lemma ControlOnly(gated: set<string>, h: Host, tid: ThreadId, sub: Submission)
    requires tid in h.chats && h.chats[tid].thread.auth == None && (sub.UndoTurn? || sub.RedoTurn?)
    ensures var h' := Handle(gated, h, tid, sub);
      && tid in h'.chats
      && h'.nextId == h.nextId + 1
      && h'.chats[tid] == (if sub.UndoTurn? then HandleUndo(h.chats[tid], h.nextId) else HandleRedo(h.chats[tid]))
      && h'.chats[tid].thread.auth == None
  {
    hide TurnsFrom, Messages;
    var c := h.chats[tid];
    assert c.(thread := c.thread.(auth := None)) == c;
  }

  lemma {:induction false} RunAppend(gated: set<string>, h: Host, a: seq<(ThreadId, Submission)>,
                                     b: seq<(ThreadId, Submission)>)
    ensures Run(gated, h, a + b) == Run(gated, Run(gated, h, a), b)
    decreases a
  {
    hide Handle;
    if a == [] {
      assert a + b == b;
    } else {
      RunAppend(gated, Handle(gated, h, a[0].0, a[0].1), a[1..], b);
      assert (a + b)[1..] == a[1..] + b;
    }
  }

  lemma {:induction false} RunOfRedos(gated: set<string>, h: Host, tid: ThreadId, k: nat)
    requires tid in h.chats && h.chats[tid].thread.auth == None
    ensures var h' := Run(gated, h, Repeat(tid, RedoTurn, k));
      tid in h'.chats && h'.chats[tid] == Redos(h.chats[tid], k) && h'.chats[tid].thread.auth == None
  {
    if k > 0 {
      RunOfRedos(gated, h, tid, k - 1);
      var almost := Run(gated, h, Repeat(tid, RedoTurn, k - 1));
      ControlOnly(gated, almost, tid, RedoTurn);
      RepeatSnoc(tid, RedoTurn, k - 1);
      RunAppend(gated, h, Repeat(tid, RedoTurn, k - 1), [(tid, RedoTurn)]);
      RunOfOne(gated, almost, tid, RedoTurn);
      hide Handle, HandleRedo, Run;
    }
  }

  lemma RunOfOne(gated: set<string>, h: Host, tid: ThreadId, sub: Submission)
    ensures Run(gated, h, [(tid, sub)]) == Handle(gated, h, tid, sub)
  {
    hide Handle;
    assert Run(gated, Handle(gated, h, tid, sub), []) == Handle(gated, h, tid, sub);
  }

  lemma {:induction false} RepeatSnoc(tid: ThreadId, sub: Submission, k: nat)
    ensures Repeat(tid, sub, k + 1) == Repeat(tid, sub, k) + [(tid, sub)]
  {
    if k > 0 {
      RepeatSnoc(tid, sub, k - 1);
    }
  }

  /**
   k undos and then k redos, with nothing in between: the undo manager is as before, and so are the thread's
   messages, exactly if k is zero or the thread has no attachments. The thread must have something to undo.
   */
  lemma UndoRedoRoundTrip(gated: set<string>, h: Host, tid: ThreadId, k: nat)
    requires tid in h.chats && h.chats[tid].thread.auth == None && h.chats[tid].undo.undo != []
    ensures var h' := Run(gated, h, Repeat(tid, UndoTurn, k) + Repeat(tid, RedoTurn, k));
      && tid in h'.chats
      && h'.chats[tid].undo == h.chats[tid].undo
      && (Messages(h'.chats[tid].thread.turns) == Messages(h.chats[tid].thread.turns)
          <==> k == 0 || NoAttachments(h.chats[tid].thread.turns))
  {
    hide Handle, Run, TurnsFrom, Messages, NoAttachments;
    var c := h.chats[tid];
    RunOfUndos(gated, h, tid, k);
    var mid := Run(gated, h, Repeat(tid, UndoTurn, k));
    RunOfRedos(gated, mid, tid, k);
    RunAppend(gated, h, Repeat(tid, UndoTurn, k), Repeat(tid, RedoTurn, k));
    RedosReverseUndos(c, k, h.nextId);
    SnapshotIsExactIff(c.thread.turns);
  }
}
