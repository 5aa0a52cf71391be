/**
 The handlers of src/agent/agent_loop.rs as a state machine driven by submissions, and what
 it promises about approvals over whole runs.
 */
module Submissions {
  import opened Wrappers
  import opened Chat
  import opened Session
  import opened Undo
  import opened Compaction
  import opened AgentLoop

  type ThreadId = nat

  /** A thread with its undo manager. */
  datatype ChatData = ChatData(thread: ThreadData, undo: UndoData)

  /** A session: its threads, the tools approved for good, and what was run and granted so far. */
  datatype Host = Host(chats: map<ThreadId, ChatData>, auto: set<string>, events: seq<Event>, nextId: nat)

  function NewHost(): Host {
    Host(map[], {}, [], 0)
  }

  function NewChat(): ChatData {
    ChatData(NewThread(), NewUndo(Some(DEFAULT_MAX_CHECKPOINTS)))
  }

  /** What becomes of user input before a turn starts. */
  datatype Admission = Rejected | Command | Admitted(content: string)

  datatype CompactionPlan = CompactionPlan(strategy: Strategy, summary: Option<string>, hasWorkspace: bool)

  datatype Submission =
    | UserInput(admission: Admission, attachments: seq<Attachment>, compaction: Option<CompactionPlan>,
                outs: seq<LlmOutput>, tokenRejected: bool)
    | Approval(requestId: Option<nat>, approved: bool, always: bool, outcome: ToolOutcome, outs: seq<LlmOutput>)
    | Interrupt
    | Compact(plan: CompactionPlan)
    | UndoTurn
    | RedoTurn
    | Resume(checkpointId: nat)
    | Clear
    | Other

  function ApplyPlan(turns: seq<Turn>, plan: CompactionPlan): seq<Turn> {
    Compacted(turns, plan.strategy, plan.summary, plan.hasWorkspace)
  }

  const BEFORE_TURN := "Before turn"
  const TURN := "Turn"

  function Snapshot(thread: ThreadData, id: nat, description: string): Checkpoint {
    Checkpoint(id, |thread.turns| + 1, Messages(thread.turns), description)
  }

  /** The thread once the loop is over: the turn is completed, failed, or waits for approval. */
  function Settled(thread: ThreadData, r: LoopResult, requestId: nat): ThreadData {
    var t := if r.auth.Some? then thread.(auth := r.auth) else thread;
    match r.end
    case Responded(text) => CompleteTurn(t, text)
    case NeedsApproval(call) => Await(t, PendingApproval(requestId, call.name, call.id))
    case Failed(error) => FailTurn(t, error)
  }

  function Put(h: Host, tid: ThreadId, c: ChatData): Host {
    h.(chats := h.chats[tid := c])
  }

  /** The chat as a submission finds it; a first submission opens the thread. */
  function At(h: Host, tid: ThreadId): ChatData {
    if tid in h.chats then h.chats[tid] else NewChat()
  }

  predicate Ready(s: ThreadState) {
    s == Idle || s == Interrupted
  }

  /** The chat right before its turn starts: compacted if need be, with a checkpoint taken. */
  function Prepared(c: ChatData, compaction: Option<CompactionPlan>, id: nat): ChatData {
    var thread :=
      if compaction.Some? then c.thread.(turns := ApplyPlan(c.thread.turns, compaction.value)) else c.thread;
    ChatData(thread, Pushed(c.undo, Snapshot(thread, id, BEFORE_TURN)))
  }

  function HandleInput(gated: set<string>, h: Host, tid: ThreadId, sub: Submission): Host
    requires sub.UserInput?
  {
    var c := At(h, tid);
    if c.thread.auth.Some? then
      Put(h, tid, if sub.tokenRejected then c else c.(thread := c.thread.(auth := None)))
    else if !Ready(c.thread.state) || !sub.admission.Admitted? then Put(h, tid, c)
    else
      var prepared := Prepared(c, sub.compaction, h.nextId);
      var started := StartTurn(prepared.thread, sub.admission.content, sub.attachments);
      var r := RunLoop(gated, h.auto, sub.outs, 0);
      Put(h, tid, prepared.(thread := Settled(started, r, h.nextId + 1)))
      .(events := h.events + r.runs, nextId := h.nextId + 2)
  }

  /** The request that an approval submission answers, if it answers one. */
  function Answered(thread: ThreadData, requestId: Option<nat>): Option<PendingApproval> {
    if thread.state != AwaitingApproval || thread.pending == None then None
    else if requestId.Some? && requestId.value != thread.pending.value.requestId then None
    else thread.pending
  }

  function HandleApproval(gated: set<string>, h: Host, tid: ThreadId, sub: Submission): Host
    requires sub.Approval?
  {
    var c := At(h, tid);
    var answered := Answered(c.thread, sub.requestId);
    if answered == None then Put(h, tid, c)
    else
      var p := answered.value;
      var taken := c.thread.(pending := None);
      if !sub.approved then Put(h, tid, c.(thread := taken.(state := Idle)))
      else
        var auto := if sub.always then h.auto + {p.toolName} else h.auto;
        var granted := [Granted(p.requestId, p.toolName, sub.always), Ran(p.toolName, ApprovedBy(p.requestId))];
        var resumed := taken.(state := Processing);
        match sub.outcome
        case AwaitingAuth(extension, instructions) =>
          Put(h, tid, c.(thread := CompleteTurn(resumed.(auth := Some(extension)), instructions)))
          .(auto := auto, events := h.events + granted)
        case _ =>
          var r := RunLoop(gated, auto, sub.outs, 0);
          Put(h, tid, c.(thread := Settled(resumed, r, h.nextId)))
          .(auto := auto, events := h.events + granted + r.runs, nextId := h.nextId + 1)
  }

  function HandleInterrupt(c: ChatData): ChatData {
    if c.thread.state == Processing || c.thread.state == AwaitingApproval
    then c.(thread := InterruptTurn(c.thread)) else c
  }

  function HandleUndo(c: ChatData, id: nat): ChatData {
    if c.undo.undo == [] then c
    else ChatData(Restored(c.thread, Last(c.undo.undo).value.messages), Undone(c.undo, Snapshot(c.thread, id, TURN)))
  }

  function HandleRedo(c: ChatData): ChatData {
    if c.undo.redo == [] then c
    else ChatData(Restored(c.thread, Last(c.undo.redo).value.messages), Redone(c.undo))
  }

  function HandleResume(c: ChatData, checkpointId: nat): ChatData {
    match Found(c.undo.undo, checkpointId)
    case None => c
    case Some(checkpoint) => ChatData(Restored(c.thread, checkpoint.messages), RestoredTo(c.undo, checkpointId))
  }

  function HandleClear(c: ChatData): ChatData {
    ChatData(c.thread.(turns := [], state := Idle), Cleared(c.undo))
  }

  /** Any submission but user input ends a wait for an auth token. */
  function WithoutAuth(h: Host, tid: ThreadId): Host {
    var c := At(h, tid);
    Put(h, tid, c.(thread := c.thread.(auth := None)))
  }

  /** The submissions that concern one thread's turns only. */
  function HandleControl(c: ChatData, sub: Submission, id: nat): ChatData {
    match sub
    case Interrupt => HandleInterrupt(c)
    case Compact(plan) => c.(thread := c.thread.(turns := ApplyPlan(c.thread.turns, plan)))
    case UndoTurn => HandleUndo(c, id)
    case RedoTurn => HandleRedo(c)
    case Resume(checkpointId) => HandleResume(c, checkpointId)
    case Clear => HandleClear(c)
    case _ => c
  }

  function Handle(gated: set<string>, h: Host, tid: ThreadId, sub: Submission): Host {
    match sub
    case UserInput(_, _, _, _, _) => HandleInput(gated, h, tid, sub)
    case Approval(_, _, _, _, _) => HandleApproval(gated, WithoutAuth(h, tid), tid, sub)
    case _ =>
      var open := WithoutAuth(h, tid);
      Put(open, tid, HandleControl(open.chats[tid], sub, open.nextId)).(nextId := open.nextId + 1)
  }

  function Run(gated: set<string>, h: Host, subs: seq<(ThreadId, Submission)>): Host
    decreases subs
  {
    if subs == [] then h else Run(gated, Handle(gated, h, subs[0].0, subs[0].1), subs[1..])
  }

  // ---------------------------------------------------------------------
  // Between submissions
  // ---------------------------------------------------------------------

  /** What holds of a thread whenever no submission is being handled. */
  ghost predicate ChatOk(c: ChatData, nextId: nat) {
    && (c.thread.state == Idle || c.thread.state == AwaitingApproval || c.thread.state == Interrupted)
    && (c.thread.state == AwaitingApproval ==> c.thread.pending.Some? && c.thread.auth == None)
    && (c.thread.pending.Some? ==> c.thread.pending.value.requestId < nextId)
    && Numbered(c.thread.turns)
    && c.undo.limit == Some(DEFAULT_MAX_CHECKPOINTS) && |c.undo.undo| <= DEFAULT_MAX_CHECKPOINTS
  }

  ghost predicate HostOk(h: Host) {
    forall tid :: tid in h.chats ==> ChatOk(h.chats[tid], h.nextId)
  }

  lemma ControlKeepsOk(c: ChatData, sub: Submission, id: nat)
    requires ChatOk(c, id) && c.thread.auth == None
    ensures ChatOk(HandleControl(c, sub, id), id + 1)
  {
    forall ms: seq<ChatMessage>
      ensures Numbered(Restored(c.thread, ms).turns)
    {
      RestoredAreNumbered(ms, 0);
    }
  }

  lemma SettledIsOk(thread: ThreadData, undo: UndoData, r: LoopResult, requestId: nat)
    requires Numbered(thread.turns)
    requires undo.limit == Some(DEFAULT_MAX_CHECKPOINTS) && |undo.undo| <= DEFAULT_MAX_CHECKPOINTS
    requires thread.pending.Some? ==> thread.pending.value.requestId < requestId + 1
    requires r.end.NeedsApproval? ==> r.auth == None && thread.auth == None
    ensures ChatOk(ChatData(Settled(thread, r, requestId), undo), requestId + 1)
  {
  }

  lemma InputKeepsOk(gated: set<string>, h: Host, tid: ThreadId, sub: Submission)
    requires sub.UserInput? && ChatOk(At(h, tid), h.nextId)
    ensures ChatOk(HandleInput(gated, h, tid, sub).chats[tid], HandleInput(gated, h, tid, sub).nextId)
  {
    var c := At(h, tid);
    if c.thread.auth == None && Ready(c.thread.state) && sub.admission.Admitted? {
      var prepared := Prepared(c, sub.compaction, h.nextId);
      var started := StartTurn(prepared.thread, sub.admission.content, sub.attachments);
      var r := RunLoop(gated, h.auto, sub.outs, 0);
      LoopIsAllowed(gated, h.auto, sub.outs, 0);
      assert Numbered(prepared.thread.turns);
      hide RunLoop, Messages;
      SettledIsOk(started, prepared.undo, r, h.nextId + 1);
    }
  }

  lemma ApprovalKeepsOk(gated: set<string>, h: Host, tid: ThreadId, sub: Submission)
    requires sub.Approval? && ChatOk(At(h, tid), h.nextId) && At(h, tid).thread.auth == None
    ensures ChatOk(HandleApproval(gated, h, tid, sub).chats[tid], HandleApproval(gated, h, tid, sub).nextId)
  {
    var c := At(h, tid);
    var answered := Answered(c.thread, sub.requestId);
    if answered.Some? && sub.approved {
      var auto := if sub.always then h.auto + {answered.value.toolName} else h.auto;
      var resumed := c.thread.(pending := None, state := Processing);
      LoopIsAllowed(gated, auto, sub.outs, 0);
      hide RunLoop;
      SettledIsOk(resumed, c.undo, RunLoop(gated, auto, sub.outs, 0), h.nextId);
    }
  }

  lemma NewChatIsOk(nextId: nat)
    ensures ChatOk(NewChat(), nextId)
  {
  }

  lemma OkForLater(c: ChatData, nextId: nat, later: nat)
    requires ChatOk(c, nextId) && nextId <= later
    ensures ChatOk(c, later)
  {
  }

  /** A submission changes its own thread only, and uses up identifiers. */
  lemma HandleFrame(gated: set<string>, h: Host, tid: ThreadId, sub: Submission)
    ensures var h' := Handle(gated, h, tid, sub);
      && h'.chats.Keys == h.chats.Keys + {tid}
      && (forall t :: t in h.chats && t != tid ==> h'.chats[t] == h.chats[t])
      && h.nextId <= h'.nextId
  {
    hide HandleControl, RunLoop, Settled, Prepared, StartTurn, CompleteTurn;
  }

  lemma HandledChatIsOk(gated: set<string>, h: Host, tid: ThreadId, sub: Submission)
    requires HostOk(h)
    ensures tid in Handle(gated, h, tid, sub).chats
    ensures ChatOk(Handle(gated, h, tid, sub).chats[tid], Handle(gated, h, tid, sub).nextId)
  {
    NewChatIsOk(h.nextId);
    assert ChatOk(At(h, tid), h.nextId);
    hide HandleInput, HandleApproval, HandleControl;
    match sub
    case UserInput(_, _, _, _, _) => InputKeepsOk(gated, h, tid, sub);
    case Approval(_, _, _, _, _) => ApprovalKeepsOk(gated, WithoutAuth(h, tid), tid, sub);
    case _ => ControlKeepsOk(WithoutAuth(h, tid).chats[tid], sub, h.nextId);
  }

  lemma HandleKeepsOk(gated: set<string>, h: Host, tid: ThreadId, sub: Submission)
    requires HostOk(h)
    ensures HostOk(Handle(gated, h, tid, sub))
  {
    HandleFrame(gated, h, tid, sub);
    HandledChatIsOk(gated, h, tid, sub);
    var h' := Handle(gated, h, tid, sub);
    hide Handle, ChatOk;
    forall t | t in h'.chats
      ensures ChatOk(h'.chats[t], h'.nextId)
    {
      if t != tid {
        OkForLater(h.chats[t], h.nextId, h'.nextId);
      }
    }
  }

  lemma {:induction false} RunKeepsOk(gated: set<string>, h: Host, subs: seq<(ThreadId, Submission)>)
    requires HostOk(h)
    ensures HostOk(Run(gated, h, subs))
    decreases subs
  {
    hide Handle, HostOk;
    if subs != [] {
      HandleKeepsOk(gated, h, subs[0].0, subs[0].1);
      RunKeepsOk(gated, Handle(gated, h, subs[0].0, subs[0].1), subs[1..]);
    }
  }

  /**
   Between submissions no thread is processing, a thread that awaits approval has a stored request and
   is not waiting for a token, turn numbers are indices, and the undo stack is within its limit.
   */
  lemma ThreadsAreSettled(gated: set<string>, subs: seq<(ThreadId, Submission)>, tid: ThreadId)
    requires tid in Run(gated, NewHost(), subs).chats
    ensures var c := Run(gated, NewHost(), subs).chats[tid];
      && c.thread.state != Processing
      && (c.thread.state == AwaitingApproval ==> c.thread.pending.Some? && c.thread.auth == None)
      && Numbered(c.thread.turns)
      && |c.undo.undo| <= DEFAULT_MAX_CHECKPOINTS
  {
    RunKeepsOk(gated, NewHost(), subs);
    assert ChatOk(Run(gated, NewHost(), subs).chats[tid], Run(gated, NewHost(), subs).nextId);
    hide Run;
  }
}
