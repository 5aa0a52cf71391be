/** Checkpoints for undo and redo (src/agent/undo.rs). */
module Undo {
  import opened Wrappers
  import opened Chat

  datatype Checkpoint = Checkpoint(id: nat, turnNumber: nat, messages: seq<ChatMessage>, description: string)

  const DEFAULT_MAX_CHECKPOINTS := 20

  /**
   The value of an undo manager. `limit` is None for an ideal manager that never forgets a checkpoint;
   the program's own managers have a limit.
   */
  datatype UndoData = UndoData(undo: seq<Checkpoint>, redo: seq<Checkpoint>, limit: Option<nat>)

  function NewUndo(limit: Option<nat>): UndoData {
    UndoData([], [], limit)
  }

  function Suffix<T>(s: seq<T>, n: nat): seq<T> {
    if |s| > n then s[|s| - n..] else s
  }

  /** The index of the first checkpoint with this id, or the length of the stack. */
  function Position(stack: seq<Checkpoint>, id: nat): (pos: nat)
    ensures pos <= |stack|
    ensures pos < |stack| ==> stack[pos].id == id
    ensures forall i :: 0 <= i < pos ==> stack[i].id != id
  {
    if stack == [] || stack[0].id == id then 0 else 1 + Position(stack[1..], id)
  }

  function Pushed(u: UndoData, c: Checkpoint): UndoData {
    var all := u.undo + [c];
    u.(redo := [], undo := match u.limit case Some(max) => Suffix(all, max) case None => all)
  }

  function Undone(u: UndoData, current: Checkpoint): UndoData {
    if u.undo == [] then u else u.(redo := u.redo + [current])
  }

  function Popped(u: UndoData): UndoData {
    if u.undo == [] then u else u.(undo := u.undo[..|u.undo| - 1])
  }

  function Redone(u: UndoData): UndoData {
    if u.redo == [] then u else u.(redo := u.redo[..|u.redo| - 1])
  }

  function Cleared(u: UndoData): UndoData {
    u.(undo := [], redo := [])
  }

  /** Restoring drops the target and everything after it; an unknown id changes nothing. */
  function RestoredTo(u: UndoData, id: nat): UndoData {
    var pos := Position(u.undo, id);
    if pos == |u.undo| then u else u.(redo := [], undo := u.undo[..pos])
  }

  function Last(stack: seq<Checkpoint>): Option<Checkpoint> {
    if stack == [] then None else Some(stack[|stack| - 1])
  }

  function Found(stack: seq<Checkpoint>, id: nat): Option<Checkpoint> {
    var pos := Position(stack, id);
    if pos == |stack| then None else Some(stack[pos])
  }

  class UndoManager {
    var undoStack: seq<Checkpoint>
    var redoStack: seq<Checkpoint>
    const maxCheckpoints: nat

    function View(): UndoData
      reads this
    {
      UndoData(undoStack, redoStack, Some(maxCheckpoints))
    }

    constructor (maxCheckpoints: nat)
      ensures View() == NewUndo(Some(maxCheckpoints))
    {
      undoStack, redoStack, this.maxCheckpoints := [], [], maxCheckpoints;
    }

    method TakeCheckpoint(c: Checkpoint)
      modifies this
      ensures View() == Pushed(old(View()), c)
      ensures |undoStack| <= maxCheckpoints
    {
      redoStack := [];
      undoStack := undoStack + [c];
      ghost var all := undoStack;
      while |undoStack| > maxCheckpoints
        invariant |undoStack| <= |all| && undoStack == all[|all| - |undoStack|..]
        invariant |undoStack| >= maxCheckpoints || undoStack == all
        invariant redoStack == []
      {
        undoStack := undoStack[1..];
      }
    }

    /** Saves `current` for redo and returns the latest checkpoint, which stays on the stack. */
    method Undo(current: Checkpoint) returns (r: Option<Checkpoint>)
      modifies this
      ensures View() == Undone(old(View()), current)
      ensures r == Last(old(undoStack))
    {
      if |undoStack| == 0 {
        return None;
      }
      redoStack := redoStack + [current];
      return Some(undoStack[|undoStack| - 1]);
    }

    method PopUndo() returns (r: Option<Checkpoint>)
      modifies this
      ensures View() == Popped(old(View()))
      ensures r == Last(old(undoStack))
    {
      r := Last(undoStack);
      if |undoStack| > 0 {
        undoStack := undoStack[..|undoStack| - 1];
      }
    }

    method Redo() returns (r: Option<Checkpoint>)
      modifies this
      ensures View() == Redone(old(View()))
      ensures r == Last(old(redoStack))
    {
      r := Last(redoStack);
      if |redoStack| > 0 {
        redoStack := redoStack[..|redoStack| - 1];
      }
    }

    method Clear()
      modifies this
      ensures View() == Cleared(old(View()))
    {
      undoStack, redoStack := [], [];
    }

    method Restore(id: nat) returns (r: Option<Checkpoint>)
      modifies this
      ensures View() == RestoredTo(old(View()), id)
      ensures r == Found(old(undoStack), id)
    {
      var pos := 0;
      while pos < |undoStack| && undoStack[pos].id != id
        invariant 0 <= pos <= |undoStack|
        invariant forall i :: 0 <= i < pos ==> undoStack[i].id != id
      {
        pos := pos + 1;
      }
      if pos == |undoStack| {
        return None;
      }
      redoStack := [];
      ghost var all := undoStack;
      while |undoStack| > pos + 1
        invariant pos < |undoStack| <= |all| && undoStack == all[..|undoStack|]
        invariant redoStack == []
      {
        undoStack := undoStack[..|undoStack| - 1];
      }
      r := Some(undoStack[|undoStack| - 1]);
      undoStack := undoStack[..|undoStack| - 1];
    }
  }

  // ---------------------------------------------------------------------
  // The bounded manager against the ideal one
  // ---------------------------------------------------------------------

  datatype UndoOp =
    | Take(turnNumber: nat, messages: seq<ChatMessage>, description: string)
    | Back(turnNumber: nat, messages: seq<ChatMessage>, description: string)
    | Pop
    | Forward
    | Wipe
    | RestoreTo(id: nat)

  /** One call; a checkpoint that it creates gets the id `newId`. */
  function StepUndo(u: UndoData, op: UndoOp, newId: nat): UndoData {
    match op
    case Take(n, ms, d) => Pushed(u, Checkpoint(newId, n, ms, d))
    case Back(n, ms, d) => Undone(u, Checkpoint(newId, n, ms, d))
    case Pop => Popped(u)
    case Forward => Redone(u)
    case Wipe => Cleared(u)
    case RestoreTo(id) => RestoredTo(u, id)
  }

  /** The checkpoint that the call hands back. */
  function Answer(u: UndoData, op: UndoOp): Option<Checkpoint> {
    match op
    case Back(_, _, _) => Last(u.undo)
    case Pop => Last(u.undo)
    case Forward => Last(u.redo)
    case RestoreTo(id) => Found(u.undo, id)
    case _ => None
  }

  /** The state after the calls `ops`; the k-th call may create a checkpoint with id k. */
  function RunUndo(limit: Option<nat>, ops: seq<UndoOp>): UndoData {
    if ops == [] then NewUndo(limit)
    else StepUndo(RunUndo(limit, ops[..|ops| - 1]), ops[|ops| - 1], |ops| - 1)
  }

  ghost predicate IsSuffix<T>(a: seq<T>, b: seq<T>) {
    |a| <= |b| && a == b[|b| - |a|..]
  }

  ghost predicate UniqueIds(stack: seq<Checkpoint>) {
    forall i, j :: 0 <= i < j < |stack| ==> stack[i].id != stack[j].id
  }

  ghost predicate Below(stack: seq<Checkpoint>, n: nat) {
    forall i :: 0 <= i < |stack| ==> stack[i].id < n
  }

  predicate Holds(stack: seq<Checkpoint>, id: nat) {
    Position(stack, id) < |stack|
  }

  /** A restore of a checkpoint that the limit has pushed out. */
  predicate Evicted(bounded: UndoData, ideal: UndoData, op: UndoOp) {
    op.RestoreTo? && Holds(ideal.undo, op.id) && !Holds(bounded.undo, op.id)
  }

  lemma PositionInSuffix(a: seq<Checkpoint>, b: seq<Checkpoint>, id: nat)
    requires IsSuffix(a, b) && UniqueIds(b) && Holds(a, id)
    ensures Position(b, id) == |b| - |a| + Position(a, id)
  {
    var k := |b| - |a| + Position(a, id);
    assert b[k] == a[Position(a, id)];
  }

  lemma SuffixOfSuffix(a: seq<Checkpoint>, b: seq<Checkpoint>, c: Checkpoint, max: nat)
    requires IsSuffix(a, b)
    ensures IsSuffix(Suffix(a + [c], max), b + [c])
  {
    assert (b + [c])[|b| - |a|..] == a + [c];
  }

  /** Cutting the ideal stack inside the part that the bounded one has forgotten. */
  lemma EvictedCutBreaks(b: seq<Checkpoint>, u: seq<Checkpoint>, pos: nat)
    requires IsSuffix(b, u) && UniqueIds(u) && b != [] && pos <= |u| - |b|
    ensures !IsSuffix(b, u[..pos])
  {
    if |b| <= pos {
      assert u[|u| - |b|].id != u[pos - |b|].id;
      assert b[0] != u[..pos][pos - |b|..][0];
    }
  }

  lemma HeldCutKeeps(b: seq<Checkpoint>, u: seq<Checkpoint>, pos: nat)
    requires IsSuffix(b, u) && pos < |b|
    ensures IsSuffix(b[..pos], u[..|u| - |b| + pos])
  {
  }

  lemma RestoreOfHeld(bounded: UndoData, ideal: UndoData, id: nat)
    requires IsSuffix(bounded.undo, ideal.undo) && UniqueIds(ideal.undo) && Holds(bounded.undo, id)
    ensures Holds(ideal.undo, id)
    ensures IsSuffix(RestoredTo(bounded, id).undo, RestoredTo(ideal, id).undo)
    ensures Found(bounded.undo, id) == Found(ideal.undo, id)
  {
    hide UniqueIds;
    PositionInSuffix(bounded.undo, ideal.undo, id);
    HeldCutKeeps(bounded.undo, ideal.undo, Position(bounded.undo, id));
  }

  lemma RestoreOfEvicted(bounded: UndoData, ideal: UndoData, id: nat)
    requires IsSuffix(bounded.undo, ideal.undo) && UniqueIds(ideal.undo)
    requires Holds(ideal.undo, id) && !Holds(bounded.undo, id)
    ensures IsSuffix(RestoredTo(bounded, id).undo, RestoredTo(ideal, id).undo) <==> bounded.undo == []
    ensures Found(bounded.undo, id) == None
  {
    hide UniqueIds;
    assert Position(ideal.undo, id) < |ideal.undo| - |bounded.undo|;
    if bounded.undo != [] {
      EvictedCutBreaks(bounded.undo, ideal.undo, Position(ideal.undo, id));
    }
  }

  lemma RestoreKeepsSuffixIff(bounded: UndoData, ideal: UndoData, id: nat)
    requires IsSuffix(bounded.undo, ideal.undo) && UniqueIds(ideal.undo)
    ensures IsSuffix(RestoredTo(bounded, id).undo, RestoredTo(ideal, id).undo)
            <==> (Holds(ideal.undo, id) ==> Holds(bounded.undo, id)) || bounded.undo == []
    ensures Found(bounded.undo, id).Some? ==> Found(bounded.undo, id) == Found(ideal.undo, id)
  {
    hide UniqueIds, IsSuffix;
    if Holds(bounded.undo, id) {
      RestoreOfHeld(bounded, ideal, id);
    } else if Holds(ideal.undo, id) {
      RestoreOfEvicted(bounded, ideal, id);
    }
  }

  /**
   One call on both managers: the bounded stack stays a suffix of the ideal one unless the call restores
   an evicted checkpoint, and then only an empty bounded stack stays one; every checkpoint handed back is
   the one the ideal manager hands back.
   */
  lemma StepKeepsSuffixIff(bounded: UndoData, ideal: UndoData, op: UndoOp, newId: nat)
    requires ideal.limit == None && bounded.limit.Some?
    requires IsSuffix(bounded.undo, ideal.undo) && UniqueIds(ideal.undo)
    ensures IsSuffix(StepUndo(bounded, op, newId).undo, StepUndo(ideal, op, newId).undo)
            <==> !Evicted(bounded, ideal, op) || bounded.undo == []
    ensures !op.Forward? && Answer(bounded, op).Some? ==> Answer(bounded, op) == Answer(ideal, op)
  {
    hide UniqueIds;
    match op
    case Take(n, ms, d) => SuffixOfSuffix(bounded.undo, ideal.undo, Checkpoint(newId, n, ms, d), bounded.limit.value);
    case RestoreTo(id) => RestoreKeepsSuffixIff(bounded, ideal, id);
    case _ =>
  }

  lemma StepKeepsUnique(u: UndoData, op: UndoOp, newId: nat)
    requires UniqueIds(u.undo) && Below(u.undo, newId)
    ensures UniqueIds(StepUndo(u, op, newId).undo) && Below(StepUndo(u, op, newId).undo, newId + 1)
  {
  }

  lemma {:induction false} IdsInRun(limit: Option<nat>, ops: seq<UndoOp>)
    ensures UniqueIds(RunUndo(limit, ops).undo) && Below(RunUndo(limit, ops).undo, |ops|)
  {
    if ops != [] {
      IdsInRun(limit, ops[..|ops| - 1]);
      StepKeepsUnique(RunUndo(limit, ops[..|ops| - 1]), ops[|ops| - 1], |ops| - 1);
    }
  }

  /** No call of the run restores a checkpoint that the limit has pushed out. */
  ghost predicate NeverEvicted(max: nat, ops: seq<UndoOp>) {
    forall k :: 0 <= k < |ops| ==> !Evicted(RunUndo(Some(max), ops[..k]), RunUndo(None, ops[..k]), ops[k])
  }

  lemma {:induction false} LimitsInRun(limit: Option<nat>, ops: seq<UndoOp>)
    ensures RunUndo(limit, ops).limit == limit
  {
    if ops != [] {
      LimitsInRun(limit, ops[..|ops| - 1]);
    }
  }

  lemma {:induction false} BoundedIsSuffix(max: nat, ops: seq<UndoOp>)
    requires NeverEvicted(max, ops)
    ensures IsSuffix(RunUndo(Some(max), ops).undo, RunUndo(None, ops).undo)
  {
    if ops != [] {
      var before, op := ops[..|ops| - 1], ops[|ops| - 1];
      assert forall k :: 0 <= k < |before| ==> before[..k] == ops[..k] && before[k] == ops[k];
      BoundedIsSuffix(max, before);
      IdsInRun(None, before);
      LimitsInRun(None, before);
      LimitsInRun(Some(max), before);
      assert !Evicted(RunUndo(Some(max), before), RunUndo(None, before), op);
      StepKeepsSuffixIff(RunUndo(Some(max), before), RunUndo(None, before), op, |before|);
    }
  }

  /** The stack never holds more than the limit. */
  lemma {:induction false} NeverOverLimit(max: nat, ops: seq<UndoOp>)
    ensures |RunUndo(Some(max), ops).undo| <= max
  {
    if ops != [] {
      NeverOverLimit(max, ops[..|ops| - 1]);
      LimitsInRun(Some(max), ops[..|ops| - 1]);
    }
  }

  /**
   The redo stacks are the same, and can only grow together; or the bounded manager has nothing to undo and
   nothing to redo.
   */
  predicate RedoAgrees(bounded: UndoData, ideal: UndoData) {
    || (bounded.redo == ideal.redo && (bounded.undo == [] ==> ideal.undo == []))
    || (bounded.redo == [] && bounded.undo == [])
  }

  /** A pop that empties the bounded stack alone, while there is something to redo. */
  predicate PopsTooFar(bounded: UndoData, ideal: UndoData, op: UndoOp) {
    op.Pop? && |bounded.undo| == 1 && |ideal.undo| > 1 && bounded.redo != []
  }

  /** One call keeps the redo stacks in agreement exactly when it is no such pop. */
  lemma StepKeepsRedoIff(bounded: UndoData, ideal: UndoData, op: UndoOp, newId: nat)
    requires ideal.limit == None && bounded.limit.Some?
    requires IsSuffix(bounded.undo, ideal.undo) && RedoAgrees(bounded, ideal) && !Evicted(bounded, ideal, op)
    ensures RedoAgrees(StepUndo(bounded, op, newId), StepUndo(ideal, op, newId)) <==>
            !PopsTooFar(bounded, ideal, op)
  {
    assert |bounded.undo| <= |ideal.undo|;
    hide IsSuffix;
    if op.RestoreTo? && Holds(bounded.undo, op.id) {
      assert Holds(ideal.undo, op.id) by {
        SuffixHolds(bounded.undo, ideal.undo, op.id);
      }
    }
  }

  lemma SuffixHolds(a: seq<Checkpoint>, b: seq<Checkpoint>, id: nat)
    requires IsSuffix(a, b) && Holds(a, id)
    ensures Holds(b, id)
  {
    assert b[|b| - |a| + Position(a, id)] == a[Position(a, id)];
  }

  ghost predicate NeverPopsTooFar(max: nat, ops: seq<UndoOp>) {
    forall k :: 0 <= k < |ops| ==> !PopsTooFar(RunUndo(Some(max), ops[..k]), RunUndo(None, ops[..k]), ops[k])
  }

  lemma {:induction false} RedoAgreesInRun(max: nat, ops: seq<UndoOp>)
    requires NeverEvicted(max, ops) && NeverPopsTooFar(max, ops)
    ensures RedoAgrees(RunUndo(Some(max), ops), RunUndo(None, ops))
  {
    hide StepUndo, Evicted, PopsTooFar, RedoAgrees;
    if ops == [] {
      FreshAgree(max);
    } else {
      var before, op := ops[..|ops| - 1], ops[|ops| - 1];
      assert forall k :: 0 <= k < |before| ==> before[..k] == ops[..k] && before[k] == ops[k];
      RedoAgreesInRun(max, before);
      BoundedIsSuffix(max, before);
      LimitsInRun(None, before);
      LimitsInRun(Some(max), before);
      StepKeepsRedoIff(RunUndo(Some(max), before), RunUndo(None, before), op, |before|);
    }
  }

  lemma FreshAgree(max: nat)
    ensures RedoAgrees(RunUndo(Some(max), []), RunUndo(None, []))
  {
  }

  /**
   The limit is invisible in every checkpoint that is handed back: by undo, pop and restore in a run without
   evicted restores, and by redo if no call pops too far either. The program itself never pops.
   */
  lemma AnswersAreIdeal(max: nat, ops: seq<UndoOp>, op: UndoOp)
    requires NeverEvicted(max, ops) && (op.Forward? ==> NeverPopsTooFar(max, ops))
    requires Answer(RunUndo(Some(max), ops), op).Some?
    ensures Answer(RunUndo(Some(max), ops), op) == Answer(RunUndo(None, ops), op)
  {
    if op.Forward? {
      RedoAgreesInRun(max, ops);
    } else {
      BoundedIsSuffix(max, ops);
      IdsInRun(None, ops);
      LimitsInRun(None, ops);
      LimitsInRun(Some(max), ops);
      StepKeepsSuffixIff(RunUndo(Some(max), ops), RunUndo(None, ops), op, |ops|);
    }
  }

  function PoppingRun(): seq<UndoOp> {
    [Take(1, [], ""), Take(2, [], ""), Back(3, [], ""), Pop, Back(4, [], "")]
  }

  lemma RunAfter(limit: Option<nat>, ops: seq<UndoOp>, k: nat)
    requires k < |ops|
    ensures RunUndo(limit, ops[..k + 1]) == StepUndo(RunUndo(limit, ops[..k]), ops[k], k)
  {
    assert ops[..k + 1][..k] == ops[..k];
  }

  lemma PoppingSteps(limit: Option<nat>)
    ensures var ops := PoppingRun();
      RunUndo(limit, ops) ==
      StepUndo(StepUndo(StepUndo(StepUndo(StepUndo(NewUndo(limit), ops[0], 0), ops[1], 1), ops[2], 2), ops[3], 3),
               ops[4], 4)
  {
    hide StepUndo;
    var ops := PoppingRun();
    assert ops[..0] == [] && ops[..5] == ops;
    RunAfter(limit, ops, 0);
    RunAfter(limit, ops, 1);
    RunAfter(limit, ops, 2);
    RunAfter(limit, ops, 3);
    RunAfter(limit, ops, 4);
  }

  lemma PoppingBounded()
    ensures Last(RunUndo(Some(1), PoppingRun()).redo) == Some(Checkpoint(2, 3, [], ""))
  {
    hide RunUndo;
    PoppingSteps(Some(1));
    var second := Checkpoint(1, 2, [], "");
    var two := StepUndo(StepUndo(NewUndo(Some(1)), Take(1, [], ""), 0), Take(2, [], ""), 1);
    assert two == UndoData([second], [], Some(1));
    assert StepUndo(StepUndo(two, Back(3, [], ""), 2), Pop, 3).undo == [];
  }

  lemma PoppingIdeal()
    ensures Last(RunUndo(None, PoppingRun()).redo) == Some(Checkpoint(4, 4, [], ""))
  {
    hide RunUndo;
    PoppingSteps(None);
    var first, second := Checkpoint(0, 1, [], ""), Checkpoint(1, 2, [], "");
    var two := StepUndo(StepUndo(NewUndo(None), Take(1, [], ""), 0), Take(2, [], ""), 1);
    assert two == UndoData([first, second], [], None);
    assert StepUndo(StepUndo(two, Back(3, [], ""), 2), Pop, 3).undo == [first];
  }

  /** With a limit of one, a pop between two undos makes redo hand back another checkpoint. */
  lemma PopPartsRedo()
    ensures forall k :: 0 <= k < |PoppingRun()| ==> !PoppingRun()[k].RestoreTo?
    ensures Answer(RunUndo(Some(1), PoppingRun()), Forward).Some?
    ensures Answer(RunUndo(Some(1), PoppingRun()), Forward) != Answer(RunUndo(None, PoppingRun()), Forward)
  {
    PoppingBounded();
    PoppingIdeal();
  }

  /** With a limit of one, two checkpoints and a restore of the first part the two managers. */
  lemma EvictedRestoreParts()
    ensures var ops := [Take(1, [], ""), Take(2, [], ""), RestoreTo(0)];
      !IsSuffix(RunUndo(Some(1), ops).undo, RunUndo(None, ops).undo)
  {
    var one, two := [Take(1, [], "")], [Take(1, [], ""), Take(2, [], "")];
    var ops := two + [RestoreTo(0)];
    assert one[..0] == [] && two[..1] == one && ops[..2] == two;
    var first, second := Checkpoint(0, 1, [], ""), Checkpoint(1, 2, [], "");
    assert RunUndo(Some(1), one).undo == [first] && RunUndo(None, one).undo == [first];
    assert RunUndo(Some(1), two).undo == [second] && RunUndo(None, two).undo == [first, second];
    assert RunUndo(Some(1), ops).undo == [second] && RunUndo(None, ops).undo == [];
  }
}
