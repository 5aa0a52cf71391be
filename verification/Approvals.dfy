/** What the approval protocol guarantees in every run of submissions. */
module Approvals {
  import opened Wrappers
  import opened Session
  import opened Undo
  import opened AgentLoop
  import opened Submissions

  /** The chat waits for an answer to request `r`. */
  predicate Asks(c: ChatData, r: nat) {
    c.thread.state == AwaitingApproval && c.thread.pending.Some? && c.thread.pending.value.requestId == r
  }

  /** Request `r` was made, and no thread waits for an answer to it. */
  ghost predicate Dead(h: Host, r: nat) {
    r < h.nextId && forall tid :: tid in h.chats ==> !Asks(h.chats[tid], r)
  }

  ghost predicate UniqueAsks(h: Host) {
    forall s, t, r :: s in h.chats && t in h.chats && Asks(h.chats[s], r) && Asks(h.chats[t], r) ==> s == t
  }

  predicate IsApproved(e: Event, r: nat) {
    e.Ran? && e.how == ApprovedBy(r)
  }

  /** A grant that approves the tool for good. */
  predicate IsStanding(e: Event, tool: string) {
    e.Granted? && e.tool == tool && e.always
  }

  /** The event at `i` has what it takes to be there. */
  ghost predicate Justified(gated: set<string>, events: seq<Event>, i: nat)
    requires i < |events|
  {
    match events[i]
    case Granted(_, _, _) => true
    case Ran(tool, Ungated) => tool !in gated
    case Ran(tool, AutoApproved(destructive)) =>
      && tool in gated && !(tool == SHELL && destructive)
      && exists j :: 0 <= j < i && IsStanding(events[j], tool)
    case Ran(tool, ApprovedBy(r)) =>
      i > 0 && events[i - 1].Granted? && events[i - 1].requestId == r && events[i - 1].tool == tool
  }

  ghost predicate LogOk(gated: set<string>, events: seq<Event>) {
    forall i: nat :: i < |events| ==> Justified(gated, events, i)
  }

  /** Every tool approved for good was granted so at some time. */
  ghost predicate AutoOk(auto: set<string>, events: seq<Event>) {
    forall tool :: tool in auto ==> exists j :: 0 <= j < |events| && IsStanding(events[j], tool)
  }

  ghost predicate OnceOk(h: Host) {
    && (forall i, r :: 0 <= i < |h.events| && IsApproved(h.events[i], r) ==> Dead(h, r))
    && (forall i, j, r :: 0 <= i < j < |h.events| && IsApproved(h.events[i], r) ==> !IsApproved(h.events[j], r))
  }

  ghost predicate ProtocolOk(gated: set<string>, h: Host) {
    HostOk(h) && UniqueAsks(h) && LogOk(gated, h.events) && AutoOk(h.auto, h.events) && OnceOk(h)
  }

  // ---------------------------------------------------------------------
  // One submission: the requests
  // ---------------------------------------------------------------------

  /** A thread waits only for a request it already waited for, which was not answered now, or for a new one. */
  lemma AsksAfter(gated: set<string>, h: Host, tid: ThreadId, sub: Submission, r: nat)
    requires HostOk(h) && tid in Handle(gated, h, tid, sub).chats
    requires Asks(Handle(gated, h, tid, sub).chats[tid], r)
    ensures r < Handle(gated, h, tid, sub).nextId
    ensures r >= h.nextId || (tid in h.chats && Asks(h.chats[tid], r))
    ensures sub.Approval? && Answered(At(h, tid).thread, sub.requestId).Some? ==> r >= h.nextId
  {
    hide RunLoop, Prepared;
    HandledChatIsOk(gated, h, tid, sub);
    if tid in h.chats {
      assert ChatOk(h.chats[tid], h.nextId);
    }
  }

  lemma DeadStays(gated: set<string>, h: Host, tid: ThreadId, sub: Submission, r: nat)
    requires HostOk(h) && Dead(h, r)
    ensures Dead(Handle(gated, h, tid, sub), r)
  {
    HandleFrame(gated, h, tid, sub);
    var h' := Handle(gated, h, tid, sub);
    if Asks(h'.chats[tid], r) {
      AsksAfter(gated, h, tid, sub, r);
    }
    hide Handle, HostOk;
  }

  /** Whatever takes a thread out of the awaiting state, its request can never be answered again. */
  lemma LeavingIsDead(gated: set<string>, h: Host, tid: ThreadId, sub: Submission, r: nat)
    requires HostOk(h) && UniqueAsks(h) && tid in h.chats && Asks(h.chats[tid], r)
    requires tid in Handle(gated, h, tid, sub).chats && !Asks(Handle(gated, h, tid, sub).chats[tid], r)
    ensures Dead(Handle(gated, h, tid, sub), r)
  {
    HandleFrame(gated, h, tid, sub);
    assert ChatOk(h.chats[tid], h.nextId);
    hide Handle, HostOk, Asks;
  }

  lemma HandleKeepsUnique(gated: set<string>, h: Host, tid: ThreadId, sub: Submission)
    requires HostOk(h) && UniqueAsks(h)
    ensures UniqueAsks(Handle(gated, h, tid, sub))
  {
    HandleFrame(gated, h, tid, sub);
    var h' := Handle(gated, h, tid, sub);
    hide Handle;
    forall t, r | t in h'.chats && t != tid && Asks(h'.chats[tid], r)
      ensures !Asks(h'.chats[t], r)
    {
      assert ChatOk(h.chats[t], h.nextId);
      AsksAfter(gated, h, tid, sub, r);
    }
    hide HostOk;
  }

  /** Interrupting, clearing, and undoing with a checkpoint at hand all take a thread out of the awaiting state. */
  lemma ControlsLeave(gated: set<string>, h: Host, tid: ThreadId, sub: Submission)
    requires tid in h.chats
    requires sub.Interrupt? || sub.Clear? || (sub.UndoTurn? && h.chats[tid].undo.undo != [])
    ensures tid in Handle(gated, h, tid, sub).chats
    ensures Handle(gated, h, tid, sub).chats[tid].thread.state != AwaitingApproval
  {
  }

  // ---------------------------------------------------------------------
  // One submission: the events
  // ---------------------------------------------------------------------

  /** The events that a submission adds. */
  function NewEvents(gated: set<string>, h: Host, tid: ThreadId, sub: Submission): seq<Event> {
    var after := Handle(gated, h, tid, sub).events;
    if |after| < |h.events| then [] else after[|h.events|..]
  }

  /** The request whose tool a submission runs. */
  function Approves(h: Host, tid: ThreadId, sub: Submission): Option<PendingApproval> {
    if sub.Approval? && sub.approved then Answered(At(h, tid).thread, sub.requestId) else None
  }

  /** First the grant and the approved tool, if there is one; then what the loop runs. */
  lemma EventsAdded(gated: set<string>, h: Host, tid: ThreadId, sub: Submission)
    returns (runs: seq<Event>)
    ensures var h' := Handle(gated, h, tid, sub); var p := Approves(h, tid, sub);
      && h'.auto == (if p.Some? && sub.always then h.auto + {p.value.toolName} else h.auto)
      && h'.events == h.events +
           (if p.Some? then [Granted(p.value.requestId, p.value.toolName, sub.always),
                             Ran(p.value.toolName, ApprovedBy(p.value.requestId))] else []) + runs
      && forall e :: e in runs ==> Allowed(gated, h'.auto, e)
  {
    hide RunLoop, Settled, Allowed, CompleteTurn, StartTurn, Prepared, HandleControl;
    var h' := Handle(gated, h, tid, sub);
    runs := [];
    if sub.UserInput? {
      LoopIsAllowed(gated, h.auto, sub.outs, 0);
      if h'.events != h.events {
        runs := RunLoop(gated, h.auto, sub.outs, 0).runs;
      }
    } else if sub.Approval? {
      LoopIsAllowed(gated, h'.auto, sub.outs, 0);
      if Approves(h, tid, sub).Some? && !sub.outcome.AwaitingAuth? {
        runs := RunLoop(gated, h'.auto, sub.outs, 0).runs;
      }
    }
  }

  lemma LoopRunsNoRequest(gated: set<string>, auto: set<string>, e: Event, r: nat)
    requires Allowed(gated, auto, e)
    ensures !IsApproved(e, r)
  {
  }

  /**
   The tool of request `r` runs exactly when an approving submission reaches the thread that waits for `r`
   and names no other request; and then it is the tool that was asked for.
   */
  lemma RunsRequestIff(gated: set<string>, h: Host, tid: ThreadId, sub: Submission, r: nat)
    ensures (exists e :: e in NewEvents(gated, h, tid, sub) && IsApproved(e, r)) <==>
            && sub.Approval? && sub.approved
            && tid in h.chats && Asks(h.chats[tid], r)
            && (sub.requestId == None || sub.requestId == Some(r))
    ensures forall e :: e in NewEvents(gated, h, tid, sub) && IsApproved(e, r) ==>
              tid in h.chats && h.chats[tid].thread.pending.Some?
              && e.tool == h.chats[tid].thread.pending.value.toolName
  {
    var runs := EventsAdded(gated, h, tid, sub);
    var h' := Handle(gated, h, tid, sub);
    forall e | e in runs
      ensures !IsApproved(e, r)
    {
      LoopRunsNoRequest(gated, h'.auto, e, r);
    }
    hide Handle, Allowed;
    var p := Approves(h, tid, sub);
    if p.Some? {
      var added := [Granted(p.value.requestId, p.value.toolName, sub.always),
                    Ran(p.value.toolName, ApprovedBy(p.value.requestId))] + runs;
      assert h'.events == h.events + added;
      assert NewEvents(gated, h, tid, sub) == added;
      assert added[1] in added;
    } else {
      assert NewEvents(gated, h, tid, sub) == runs;
    }
  }

  /** An approval or rejection that names another request leaves the whole session as it was. */
  lemma MismatchChangesNothing(gated: set<string>, h: Host, tid: ThreadId, sub: Submission, r: nat)
    requires HostOk(h) && tid in h.chats && Asks(h.chats[tid], r)
    requires sub.Approval? && sub.requestId.Some? && sub.requestId.value != r
    ensures Handle(gated, h, tid, sub) == h
  {
    var c := h.chats[tid];
    assert ChatOk(c, h.nextId);
    assert c.thread.(auth := None) == c.thread;
    assert h.chats[tid := c] == h.chats;
  }

  // ---------------------------------------------------------------------
  // Whole runs
  // ---------------------------------------------------------------------

  lemma LogGrows(gated: set<string>, auto: set<string>, events: seq<Event>, runs: seq<Event>)
    requires LogOk(gated, events) && AutoOk(auto, events)
    requires forall e :: e in runs ==> Allowed(gated, auto, e)
    ensures LogOk(gated, events + runs) && AutoOk(auto, events + runs)
  {
    var all := events + runs;
    forall i: nat | i < |all|
      ensures Justified(gated, all, i)
    {
      if i < |events| {
        assert Justified(gated, events, i) && all[i] == events[i];
        assert forall j :: 0 <= j < i ==> all[j] == events[j];
      } else {
        assert all[i] in runs && Allowed(gated, auto, all[i]);
        if all[i].how.AutoApproved? {
          var j :| 0 <= j < |events| && IsStanding(events[j], all[i].tool);
          assert IsStanding(all[j], all[i].tool);
        }
      }
    }
    StandingStays(auto, events, runs);
  }

  lemma StandingStays(auto: set<string>, events: seq<Event>, more: seq<Event>)
    requires AutoOk(auto, events)
    ensures AutoOk(auto, events + more)
  {
    forall tool | tool in auto
      ensures exists j :: 0 <= j < |events + more| && IsStanding((events + more)[j], tool)
    {
      var j :| 0 <= j < |events| && IsStanding(events[j], tool);
      assert (events + more)[j] == events[j];
    }
  }

  lemma GrantGrows(gated: set<string>, auto: set<string>, events: seq<Event>, r: nat, tool: string, always: bool)
    requires LogOk(gated, events) && AutoOk(auto, events)
    ensures var all := events + [Granted(r, tool, always), Ran(tool, ApprovedBy(r))];
      && LogOk(gated, all)
      && AutoOk(if always then auto + {tool} else auto, all)
  {
    var granted := [Granted(r, tool, always), Ran(tool, ApprovedBy(r))];
    var all := events + granted;
    forall i: nat | i < |all|
      ensures Justified(gated, all, i)
    {
      if i < |events| {
        assert Justified(gated, events, i) && all[i] == events[i];
        assert forall j :: 0 <= j < i ==> all[j] == events[j];
      }
    }
    StandingStays(auto, events, granted);
    if always {
      assert IsStanding(all[|events|], tool);
    }
  }

  lemma HandleKeepsLog(gated: set<string>, h: Host, tid: ThreadId, sub: Submission)
    requires LogOk(gated, h.events) && AutoOk(h.auto, h.events)
    ensures LogOk(gated, Handle(gated, h, tid, sub).events)
    ensures AutoOk(Handle(gated, h, tid, sub).auto, Handle(gated, h, tid, sub).events)
  {
    var runs := EventsAdded(gated, h, tid, sub);
    var p := Approves(h, tid, sub);
    assert p.Some? ==> sub.Approval?;
    hide Handle, LogOk, AutoOk, Allowed, Approves;
    var h' := Handle(gated, h, tid, sub);
    if p.Some? {
      GrantGrows(gated, h.auto, h.events, p.value.requestId, p.value.toolName, sub.always);
      LogGrows(gated, h'.auto, h.events + [Granted(p.value.requestId, p.value.toolName, sub.always),
                                           Ran(p.value.toolName, ApprovedBy(p.value.requestId))], runs);
    } else {
      assert h.events + [] == h.events;
      LogGrows(gated, h'.auto, h.events, runs);
    }
  }

  lemma HandleKeepsOnce(gated: set<string>, h: Host, tid: ThreadId, sub: Submission)
    requires HostOk(h) && UniqueAsks(h) && OnceOk(h)
    ensures OnceOk(Handle(gated, h, tid, sub))
  {
    var runs := EventsAdded(gated, h, tid, sub);
    var h', p := Handle(gated, h, tid, sub), Approves(h, tid, sub);
    forall e, r | e in runs
      ensures !IsApproved(e, r)
    {
      LoopRunsNoRequest(gated, h'.auto, e, r);
    }
    forall r | Dead(h, r)
      ensures Dead(h', r)
    {
      DeadStays(gated, h, tid, sub, r);
    }
    if p.Some? {
      HandleFrame(gated, h, tid, sub);
      assert ChatOk(h.chats[tid], h.nextId);
      if Asks(h'.chats[tid], p.value.requestId) {
        AsksAfter(gated, h, tid, sub, p.value.requestId);
      }
      LeavingIsDead(gated, h, tid, sub, p.value.requestId);
      assert !Dead(h, p.value.requestId);
    }
    hide Handle, HostOk, UniqueAsks, Dead, Approves, Allowed;
    OnceAppends(h, h', p, sub, runs);
  }

  /** The log grows by at most one approved run, and its request was not dead before but is now. */
  lemma OnceAppends(h: Host, h': Host, p: Option<PendingApproval>, sub: Submission, runs: seq<Event>)
    requires OnceOk(h) && (p.Some? ==> sub.Approval?)
    requires h'.events == h.events +
               (if p.Some? then [Granted(p.value.requestId, p.value.toolName, sub.always),
                                 Ran(p.value.toolName, ApprovedBy(p.value.requestId))] else []) + runs
    requires forall e, r :: e in runs ==> !IsApproved(e, r)
    requires forall r :: Dead(h, r) ==> Dead(h', r)
    requires p.Some? ==> !Dead(h, p.value.requestId) && Dead(h', p.value.requestId)
    ensures OnceOk(h')
  {
    hide Dead;
    var n := |h.events|;
    assert forall i :: 0 <= i < n ==> h'.events[i] == h.events[i];
    assert forall i :: (if p.Some? then n + 2 else n) <= i < |h'.events| ==> h'.events[i] in runs;
    assert p.Some? ==> h'.events[n].Granted? && IsApproved(h'.events[n + 1], p.value.requestId);
  }

  lemma HandleKeepsProtocol(gated: set<string>, h: Host, tid: ThreadId, sub: Submission)
    requires ProtocolOk(gated, h)
    ensures ProtocolOk(gated, Handle(gated, h, tid, sub))
  {
    hide HostOk, UniqueAsks, LogOk, AutoOk, OnceOk, Handle;
    HandleKeepsOk(gated, h, tid, sub);
    HandleKeepsUnique(gated, h, tid, sub);
    HandleKeepsLog(gated, h, tid, sub);
    HandleKeepsOnce(gated, h, tid, sub);
  }

  lemma {:induction false} RunKeepsProtocol(gated: set<string>, h: Host, subs: seq<(ThreadId, Submission)>)
    requires ProtocolOk(gated, h)
    ensures ProtocolOk(gated, Run(gated, h, subs))
    decreases subs
  {
    hide Handle, ProtocolOk;
    if subs != [] {
      HandleKeepsProtocol(gated, h, subs[0].0, subs[0].1);
      RunKeepsProtocol(gated, Handle(gated, h, subs[0].0, subs[0].1), subs[1..]);
    }
  }

  lemma RunFromStart(gated: set<string>, subs: seq<(ThreadId, Submission)>)
    ensures ProtocolOk(gated, Run(gated, NewHost(), subs))
  {
    RunKeepsProtocol(gated, NewHost(), subs);
  }

  /** In every run, the tool of a request runs at most once. */
  lemma RequestRunsAtMostOnce(gated: set<string>, subs: seq<(ThreadId, Submission)>, i: nat, j: nat, r: nat)
    requires var events := Run(gated, NewHost(), subs).events;
      i < |events| && j < |events| && IsApproved(events[i], r) && IsApproved(events[j], r)
    ensures i == j
  {
    RunFromStart(gated, subs);
    hide Run, HostOk, UniqueAsks, LogOk, AutoOk, Dead;
  }

  /**
   In every run, a tool that needs approval runs only right after its own request was granted, or because an
   earlier grant approved it for good; a destructive command never runs on a standing approval.
   */
  lemma EveryRunIsJustified(gated: set<string>, subs: seq<(ThreadId, Submission)>, i: nat)
    requires i < |Run(gated, NewHost(), subs).events| && Run(gated, NewHost(), subs).events[i].Ran?
    ensures var events := Run(gated, NewHost(), subs).events; var e := events[i];
      e.tool in gated ==>
        || (e.how.ApprovedBy? && i > 0 && events[i - 1].Granted? && events[i - 1].tool == e.tool
            && events[i - 1].requestId == e.how.requestId)
        || (e.how.AutoApproved? && !(e.tool == SHELL && e.how.destructive)
            && exists j :: 0 <= j < i && IsStanding(events[j], e.tool))
  {
    RunFromStart(gated, subs);
    hide Run, HostOk, UniqueAsks, OnceOk, AutoOk;
    assert Justified(gated, Run(gated, NewHost(), subs).events, i);
  }

  /**
   A request that is no longer waited for, because it was answered, interrupted, cleared or undone away,
   never runs: not in any continuation of the run.
   */
  lemma {:induction false} DeadNeverRuns(gated: set<string>, h: Host, subs: seq<(ThreadId, Submission)>, r: nat)
    requires HostOk(h) && Dead(h, r)
    ensures Dead(Run(gated, h, subs), r)
    ensures |h.events| <= |Run(gated, h, subs).events|
    ensures forall i :: |h.events| <= i < |Run(gated, h, subs).events| ==> !IsApproved(Run(gated, h, subs).events[i], r)
    decreases subs
  {
    if subs != [] {
      var tid, sub := subs[0].0, subs[0].1;
      var h' := Handle(gated, h, tid, sub);
      HandleKeepsOk(gated, h, tid, sub);
      DeadStays(gated, h, tid, sub, r);
      NoEventOfDead(gated, h, tid, sub, r);
      hide Handle, HostOk, Dead;
      RunGrows(gated, h', subs[1..]);
      DeadNeverRuns(gated, h', subs[1..], r);
    }
  }

  lemma NoEventOfDead(gated: set<string>, h: Host, tid: ThreadId, sub: Submission, r: nat)
    requires Dead(h, r)
    ensures var h' := Handle(gated, h, tid, sub);
      && h.events <= h'.events
      && forall i :: |h.events| <= i < |h'.events| ==> !IsApproved(h'.events[i], r)
  {
    var runs := EventsAdded(gated, h, tid, sub);
    RunsRequestIff(gated, h, tid, sub, r);
    hide Handle, Allowed, IsApproved;
    var h' := Handle(gated, h, tid, sub);
    assert forall i :: |h.events| <= i < |h'.events| ==> h'.events[i] in NewEvents(gated, h, tid, sub);
  }

  lemma {:induction false} RunGrows(gated: set<string>, h: Host, subs: seq<(ThreadId, Submission)>)
    ensures h.events <= Run(gated, h, subs).events
    decreases subs
  {
    if subs != [] {
      var runs := EventsAdded(gated, h, subs[0].0, subs[0].1);
      hide Handle, Allowed;
      RunGrows(gated, Handle(gated, h, subs[0].0, subs[0].1), subs[1..]);
    }
  }

  // ---------------------------------------------------------------------
  // Standing approvals stand
  // ---------------------------------------------------------------------

  /** Every tool that was ever granted for good is approved for good now. */
  ghost predicate GrantsStand(h: Host) {
    forall j, tool :: 0 <= j < |h.events| && IsStanding(h.events[j], tool) ==> tool in h.auto
  }

  lemma HandleKeepsGrants(gated: set<string>, h: Host, tid: ThreadId, sub: Submission)
    requires GrantsStand(h)
    ensures GrantsStand(Handle(gated, h, tid, sub))
    ensures h.auto <= Handle(gated, h, tid, sub).auto
  {
    var runs := EventsAdded(gated, h, tid, sub);
    hide Handle, Approves;
    var h', n := Handle(gated, h, tid, sub), |h.events|;
    assert forall j :: |h'.events| - |runs| <= j < |h'.events| ==> h'.events[j] in runs;
    forall j, tool | 0 <= j < |h'.events| && IsStanding(h'.events[j], tool)
      ensures tool in h'.auto
    {
      if j < n {
        assert h'.events[j] == h.events[j];
      }
    }
  }

  lemma {:induction false} RunKeepsGrants(gated: set<string>, h: Host, subs: seq<(ThreadId, Submission)>)
    requires GrantsStand(h)
    ensures GrantsStand(Run(gated, h, subs)) && h.auto <= Run(gated, h, subs).auto
    decreases subs
  {
    if subs != [] {
      HandleKeepsGrants(gated, h, subs[0].0, subs[0].1);
      hide Handle, GrantsStand;
      RunKeepsGrants(gated, Handle(gated, h, subs[0].0, subs[0].1), subs[1..]);
    }
  }

  /** Requests from `from` on are for no tool of `auto` but the shell. */
  ghost predicate AsksElsewhere(h: Host, from: nat, auto: set<string>) {
    forall tid :: tid in h.chats ==> NoSuchRequest(h.chats[tid], from, auto)
  }

  predicate NoSuchRequest(c: ChatData, from: nat, auto: set<string>) {
    c.thread.pending.Some? && c.thread.pending.value.requestId >= from ==>
      c.thread.pending.value.toolName !in auto || c.thread.pending.value.toolName == SHELL
  }

  /** The loop stops for no tool approved for good, unless for a destructive command. */
  lemma {:induction false} LoopAsksElsewhere(
      gated: set<string>, auto: set<string>, outs: seq<LlmOutput>, iteration: nat)
    ensures var end := RunLoop(gated, auto, outs, iteration).end;
      end.NeedsApproval? ==>
        && end.call.name in gated
        && (end.call.name !in auto || (end.call.name == SHELL && end.call.destructive))
    decreases |outs|
  {
    hide RunBatch;
    if outs != [] {
      LoopAsksElsewhere(gated, auto, outs[1..], iteration + 1);
      if outs[0].ToolCalls? {
        BatchIsExact(gated, auto, outs[0].calls);
      }
    }
  }

  lemma SettledAsksElsewhere(thread: ThreadData, undo: UndoData, r: LoopResult, id: nat, from: nat, auto: set<string>)
    requires NoSuchRequest(ChatData(thread, undo), from, auto)
    requires r.end.NeedsApproval? ==> r.end.call.name !in auto || r.end.call.name == SHELL
    ensures NoSuchRequest(ChatData(Settled(thread, r, id), undo), from, auto)
  {
  }

  lemma HandleAsksElsewhere(
      gated: set<string>, h: Host, tid: ThreadId, sub: Submission, from: nat, auto: set<string>)
    requires auto <= h.auto && NoSuchRequest(At(h, tid), from, auto)
    ensures tid in Handle(gated, h, tid, sub).chats
    ensures NoSuchRequest(Handle(gated, h, tid, sub).chats[tid], from, auto)
  {
    var c := At(h, tid);
    if sub.UserInput? {
      InputAsksElsewhere(gated, h, tid, sub, from, auto);
    } else if sub.Approval? {
      ApprovalAsksElsewhere(gated, WithoutAuth(h, tid), tid, sub, from, auto);
    } else {
      ControlAsksElsewhere(WithoutAuth(h, tid).chats[tid], sub, h.nextId, from, auto);
      hide HandleControl;
    }
  }

  lemma ControlAsksElsewhere(c: ChatData, sub: Submission, id: nat, from: nat, auto: set<string>)
    requires NoSuchRequest(c, from, auto)
    ensures NoSuchRequest(HandleControl(c, sub, id), from, auto)
  {
    hide TurnsFrom, Messages, ApplyPlan;
  }

  lemma InputAsksElsewhere(
      gated: set<string>, h: Host, tid: ThreadId, sub: Submission, from: nat, auto: set<string>)
    requires sub.UserInput? && auto <= h.auto && NoSuchRequest(At(h, tid), from, auto)
    ensures NoSuchRequest(HandleInput(gated, h, tid, sub).chats[tid], from, auto)
  {
    hide RunLoop, Settled, ApplyPlan, Snapshot, Pushed;
    var c := At(h, tid);
    if c.thread.auth == None && Ready(c.thread.state) && sub.admission.Admitted? {
      var prepared := Prepared(c, sub.compaction, h.nextId);
      var started := StartTurn(prepared.thread, sub.admission.content, sub.attachments);
      LoopAsksElsewhere(gated, h.auto, sub.outs, 0);
      SettledAsksElsewhere(started, prepared.undo, RunLoop(gated, h.auto, sub.outs, 0), h.nextId + 1, from, auto);
    }
  }

  lemma ApprovalAsksElsewhere(
      gated: set<string>, h: Host, tid: ThreadId, sub: Submission, from: nat, auto: set<string>)
    requires sub.Approval? && auto <= h.auto && NoSuchRequest(At(h, tid), from, auto)
    ensures NoSuchRequest(HandleApproval(gated, h, tid, sub).chats[tid], from, auto)
  {
    hide RunLoop, Settled;
    var c := At(h, tid);
    var answered := Answered(c.thread, sub.requestId);
    if answered.Some? && sub.approved {
      var now := if sub.always then h.auto + {answered.value.toolName} else h.auto;
      var resumed := c.thread.(pending := None, state := Processing);
      LoopAsksElsewhere(gated, now, sub.outs, 0);
      SettledAsksElsewhere(resumed, c.undo, RunLoop(gated, now, sub.outs, 0), h.nextId, from, auto);
    }
  }

  lemma {:induction false} RunAsksElsewhere(
      gated: set<string>, h: Host, subs: seq<(ThreadId, Submission)>, from: nat, auto: set<string>)
    requires auto <= h.auto && GrantsStand(h) && AsksElsewhere(h, from, auto)
    ensures AsksElsewhere(Run(gated, h, subs), from, auto)
    decreases subs
  {
    if subs != [] {
      var tid, sub := subs[0].0, subs[0].1;
      HandleKeepsGrants(gated, h, tid, sub);
      HandleFrame(gated, h, tid, sub);
      HandleAsksElsewhere(gated, h, tid, sub, from, auto);
      hide Handle, GrantsStand, NoSuchRequest;
      RunAsksElsewhere(gated, Handle(gated, h, tid, sub), subs[1..], from, auto);
    }
  }

  lemma OldRequestsAreElsewhere(h: Host, auto: set<string>)
    requires HostOk(h)
    ensures AsksElsewhere(h, h.nextId, auto)
  {
    forall tid | tid in h.chats ensures NoSuchRequest(h.chats[tid], h.nextId, auto) {
      assert ChatOk(h.chats[tid], h.nextId);
    }
  }

  /**
   Once a tool was granted for good, it is approved for good in every continuation, and no thread is ever
   asked about it again, unless it is the shell: the loop stops for it at destructive commands alone.
   */
  lemma GrantedForGood(
      gated: set<string>, before: seq<(ThreadId, Submission)>, j: nat, tool: string,
      after: seq<(ThreadId, Submission)>, tid: ThreadId)
    requires j < |Run(gated, NewHost(), before).events| && IsStanding(Run(gated, NewHost(), before).events[j], tool)
    requires tid in Run(gated, Run(gated, NewHost(), before), after).chats
    ensures var h := Run(gated, NewHost(), before); var h' := Run(gated, h, after);
      && tool in h'.auto
      && (forall outs :: var end := RunLoop(gated, h'.auto, outs, 0).end;
            end.NeedsApproval? && end.call.name == tool ==> tool == SHELL && end.call.destructive)
      && (tool != SHELL ==>
            var pending := h'.chats[tid].thread.pending;
            pending.Some? && pending.value.requestId >= h.nextId ==> pending.value.toolName != tool)
  {
    RunFromStart(gated, before);
    RunKeepsGrants(gated, NewHost(), before);
    hide Run, UniqueAsks, LogOk, AutoOk, OnceOk, HostOk;
    var h := Run(gated, NewHost(), before);
    RunKeepsGrants(gated, h, after);
    OldRequestsAreElsewhere(h, h.auto);
    RunAsksElsewhere(gated, h, after, h.nextId, h.auto);
    assert NoSuchRequest(Run(gated, h, after).chats[tid], h.nextId, h.auto);
    forall outs
      ensures var end := RunLoop(gated, Run(gated, h, after).auto, outs, 0).end;
        end.NeedsApproval? && end.call.name == tool ==> tool == SHELL && end.call.destructive
    {
      LoopAsksElsewhere(gated, Run(gated, h, after).auto, outs, 0);
    }
  }
}
