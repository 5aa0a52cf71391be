/** A conversation thread and its turns (src/agent/session.rs). */
module Session {
  import opened Wrappers
  import opened Chat

  datatype ThreadState = Idle | Processing | AwaitingApproval | Completed | Interrupted

  datatype TurnState = TurnProcessing | TurnCompleted | TurnFailed | TurnInterrupted

  datatype Turn = Turn(
    number: nat,
    userInput: string,
    attachments: seq<Attachment>,
    response: Option<string>,
    state: TurnState,
    error: Option<string>)

  function NewTurn(number: nat, userInput: string): Turn {
    Turn(number, userInput, [], None, TurnProcessing, None)
  }

  datatype PendingApproval = PendingApproval(requestId: nat, toolName: string, toolCallId: string)

  /** The value of a thread. */
  datatype ThreadData = ThreadData(
    state: ThreadState,
    turns: seq<Turn>,
    pending: Option<PendingApproval>,
    auth: Option<string>)

  function NewThread(): ThreadData {
    ThreadData(Idle, [], None, None)
  }

  /** `turns` with its last element replaced by `f` of it. */
  function OnLast(turns: seq<Turn>, f: Turn -> Turn): seq<Turn> {
    if turns == [] then [] else turns[..|turns| - 1] + [f(turns[|turns| - 1])]
  }

  function StartTurn(t: ThreadData, input: string, attachments: seq<Attachment>): ThreadData {
    t.(turns := t.turns + [NewTurn(|t.turns|, input).(attachments := attachments)], state := Processing)
  }

  function CompleteTurn(t: ThreadData, response: string): ThreadData {
    t.(turns := OnLast(t.turns, (u: Turn) => u.(response := Some(response), state := TurnCompleted)), state := Idle)
  }

  function FailTurn(t: ThreadData, error: string): ThreadData {
    t.(turns := OnLast(t.turns, (u: Turn) => u.(error := Some(error), state := TurnFailed)), state := Idle)
  }

  function InterruptTurn(t: ThreadData): ThreadData {
    t.(turns := OnLast(t.turns, (u: Turn) => u.(state := TurnInterrupted)), state := Interrupted)
  }

  function Await(t: ThreadData, pending: PendingApproval): ThreadData {
    t.(state := AwaitingApproval, pending := Some(pending))
  }

  function TurnMessages(turn: Turn): seq<ChatMessage> {
    [if turn.attachments == [] then UserMessage(turn.userInput)
     else UserWithAttachments(turn.userInput, turn.attachments)] +
    match turn.response
    case Some(response) => [AssistantMessage(response)]
    case None => []
  }

  function Messages(turns: seq<Turn>): seq<ChatMessage> {
    if turns == [] then [] else TurnMessages(turns[0]) + Messages(turns[1..])
  }

  /** The turns rebuilt from a list of messages, numbered from `first`. */
  function TurnsFrom(ms: seq<ChatMessage>, first: nat): seq<Turn> {
    if ms == [] then []
    else if ms[0].role != User then TurnsFrom(ms[1..], first)
    else if |ms| > 1 && ms[1].role == Assistant then
      [NewTurn(first, ms[0].content).(response := Some(ms[1].content), state := TurnCompleted)] +
      TurnsFrom(ms[2..], first + 1)
    else
      [NewTurn(first, ms[0].content)] + TurnsFrom(ms[1..], first + 1)
  }

  function Restored(t: ThreadData, ms: seq<ChatMessage>): ThreadData {
    t.(turns := TurnsFrom(ms, 0), state := Idle)
  }

  function Renumbered(turns: seq<Turn>, first: nat): (r: seq<Turn>)
    ensures |r| == |turns|
    ensures forall i :: 0 <= i < |r| ==> r[i] == turns[i].(number := first + i)
  {
    if turns == [] then [] else [turns[0].(number := first)] + Renumbered(turns[1..], first + 1)
  }

  /** The most recent `keep` turns, numbered from zero again. */
  function Truncated(turns: seq<Turn>, keep: nat): seq<Turn> {
    if |turns| > keep then Renumbered(turns[|turns| - keep..], 0) else turns
  }

  predicate Numbered(turns: seq<Turn>) {
    forall i :: 0 <= i < |turns| ==> turns[i].number == i
  }

  /** The mutable thread. */
  class Thread {
    var state: ThreadState
    var turns: seq<Turn>
    var pending: Option<PendingApproval>
    var auth: Option<string>

    function View(): ThreadData
      reads this
    {
      ThreadData(state, turns, pending, auth)
    }

    constructor ()
      ensures View() == NewThread()
    {
      state, turns, pending, auth := Idle, [], None, None;
    }

    method Start(input: string, attachments: seq<Attachment>)
      modifies this
      ensures View() == StartTurn(old(View()), input, attachments)
    {
      var turnNumber := |turns|;
      turns := turns + [NewTurn(turnNumber, input)];
      state := Processing;
      if attachments != [] {
        var last := turns[|turns| - 1];
        turns := turns[..|turns| - 1] + [last.(attachments := attachments)];
      }
    }

    method Complete(response: string)
      modifies this
      ensures View() == CompleteTurn(old(View()), response)
    {
      if |turns| > 0 {
        var last := turns[|turns| - 1];
        turns := turns[..|turns| - 1] + [last.(response := Some(response), state := TurnCompleted)];
      }
      state := Idle;
    }

    method Fail(error: string)
      modifies this
      ensures View() == FailTurn(old(View()), error)
    {
      if |turns| > 0 {
        var last := turns[|turns| - 1];
        turns := turns[..|turns| - 1] + [last.(error := Some(error), state := TurnFailed)];
      }
      state := Idle;
    }

    method Interrupt()
      modifies this
      ensures View() == InterruptTurn(old(View()))
    {
      if |turns| > 0 {
        var last := turns[|turns| - 1];
        turns := turns[..|turns| - 1] + [last.(state := TurnInterrupted)];
      }
      state := Interrupted;
    }

    method AwaitApproval(p: PendingApproval)
      modifies this
      ensures View() == Await(old(View()), p)
    {
      state := AwaitingApproval;
      pending := Some(p);
    }

    method TakePendingApproval() returns (p: Option<PendingApproval>)
      modifies this
      ensures View() == old(View()).(pending := None) && p == old(pending)
    {
      p := pending;
      pending := None;
    }

    method EnterAuthMode(extension: string)
      modifies this
      ensures View() == old(View()).(auth := Some(extension))
    {
      auth := Some(extension);
    }

    /** The messages for the model: one per user input, one per response. */
    method BuildMessages() returns (messages: seq<ChatMessage>)
      ensures messages == Messages(turns)
    {
      hide Messages;
      messages := [];
      MessagesOfNone();
      for i := 0 to |turns|
        invariant messages == Messages(turns[..i])
      {
        var turn := turns[i];
        ghost var before := messages;
        if turn.attachments == [] {
          messages := messages + [UserMessage(turn.userInput)];
        } else {
          messages := messages + [UserWithAttachments(turn.userInput, turn.attachments)];
        }
        if turn.response.Some? {
          messages := messages + [AssistantMessage(turn.response.value)];
        }
        assert messages == before + TurnMessages(turn);
        MessagesSnoc(turns[..i], turn);
        assert turns[..i] + [turn] == turns[..i + 1];
      }
      assert turns[..|turns|] == turns;
    }

    method TruncateTurns(keep: nat)
      modifies this
      ensures View() == old(View()).(turns := Truncated(old(turns), keep))
    {
      hide Renumbered;
      if |turns| > keep {
        var drainCount := |turns| - keep;
        turns := turns[drainCount..];
        ghost var kept := turns;
        for i := 0 to |turns|
          invariant |turns| == |kept|
          invariant forall k :: 0 <= k < i ==> turns[k] == kept[k].(number := k)
          invariant forall k :: i <= k < |turns| ==> turns[k] == kept[k]
          invariant state == old(state) && pending == old(pending) && auth == old(auth)
        {
          turns := turns[i := turns[i].(number := i)];
        }
        RenumberedPointwise(kept, turns);
      }
    }

    method RestoreFromMessages(messages: seq<ChatMessage>)
      modifies this
      ensures View() == Restored(old(View()), messages)
    {
      turns := [];
      state := Idle;
      var i, turnNumber := 0, 0;
      while i < |messages|
        invariant 0 <= i <= |messages| && turnNumber == |turns|
        invariant turns + TurnsFrom(messages[i..], turnNumber) == TurnsFrom(messages, 0)
        invariant state == Idle && pending == old(pending) && auth == old(auth)
      {
        ghost var rest := messages[i..];
        var msg := messages[i];
        assert rest[0] == msg && rest[1..] == messages[i + 1..];
        i := i + 1;
        if msg.role == User {
          var turn := NewTurn(turnNumber, msg.content);
          if i < |messages| && messages[i].role == Assistant {
            assert rest[1] == messages[i] && rest[2..] == messages[i + 1..];
            turn := turn.(response := Some(messages[i].content), state := TurnCompleted);
            i := i + 1;
          }
          turns := turns + [turn];
          turnNumber := turnNumber + 1;
        }
      }
    }
  }

  lemma RenumberedPointwise(turns: seq<Turn>, renumbered: seq<Turn>)
    requires |renumbered| == |turns|
    requires forall k :: 0 <= k < |turns| ==> renumbered[k] == turns[k].(number := k)
    ensures renumbered == Renumbered(turns, 0)
  {
  }

  lemma MessagesOfNone()
    ensures Messages([]) == []
  {
  }

  lemma {:induction false} MessagesAppend(a: seq<Turn>, b: seq<Turn>)
    ensures Messages(a + b) == Messages(a) + Messages(b)
  {
    hide TurnMessages, Messages;
    if a == [] {
      MessagesOfNone();
      assert a + b == b;
    } else {
      MessagesAppend(a[1..], b);
      MessagesOfCons(a[0], a[1..]);
      MessagesOfCons(a[0], a[1..] + b);
      assert [a[0]] + a[1..] == a && [a[0]] + (a[1..] + b) == a + b;
    }
  }

  lemma MessagesSnoc(turns: seq<Turn>, turn: Turn)
    ensures Messages(turns + [turn]) == Messages(turns) + TurnMessages(turn)
  {
    MessagesAppend(turns, [turn]);
    assert Messages([turn]) == TurnMessages(turn) + Messages([]);
  }

  // ---------------------------------------------------------------------
  // Restoring
  // ---------------------------------------------------------------------

  lemma {:induction false} RestoredAreNumbered(ms: seq<ChatMessage>, first: nat)
    ensures forall i :: 0 <= i < |TurnsFrom(ms, first)| ==> TurnsFrom(ms, first)[i].number == first + i
  {
    if ms == [] {
    } else if ms[0].role != User {
      RestoredAreNumbered(ms[1..], first);
    } else if |ms| > 1 && ms[1].role == Assistant {
      RestoredAreNumbered(ms[2..], first + 1);
    } else {
      RestoredAreNumbered(ms[1..], first + 1);
    }
  }

  /** The first message of a restored conversation, and the rest. */
  lemma MessagesOfCons(turn: Turn, turns: seq<Turn>)
    ensures Messages([turn] + turns) == TurnMessages(turn) + Messages(turns)
  {
    assert ([turn] + turns)[1..] == turns;
  }

  /** Restoring keeps user messages and the answers right after them, without attachments, in their order. */
  lemma {:induction false} RestoreKeepsASubsequence(ms: seq<ChatMessage>, first: nat)
    ensures IsSubsequence(Messages(TurnsFrom(ms, first)), PlainAll(ms))
  {
    if ms == [] {
    } else if ms[0].role != User {
      RestoreKeepsASubsequence(ms[1..], first);
    } else if |ms| > 1 && ms[1].role == Assistant {
      RestoreKeepsASubsequence(ms[2..], first + 1);
      var turn := TurnsFrom(ms, first)[0];
      MessagesOfCons(turn, TurnsFrom(ms[2..], first + 1));
      assert PlainAll(ms) == [Plain(ms[0]), Plain(ms[1])] + PlainAll(ms[2..]);
      SubsequenceCons(Plain(ms[1]), Messages(TurnsFrom(ms[2..], first + 1)), PlainAll(ms[2..]));
      SubsequenceCons(Plain(ms[0]), [Plain(ms[1])] + Messages(TurnsFrom(ms[2..], first + 1)),
                      [Plain(ms[1])] + PlainAll(ms[2..]));
      assert Messages(TurnsFrom(ms, first)) ==
             [Plain(ms[0])] + ([Plain(ms[1])] + Messages(TurnsFrom(ms[2..], first + 1)));
      assert PlainAll(ms) == [Plain(ms[0])] + ([Plain(ms[1])] + PlainAll(ms[2..]));
    } else {
      RestoreKeepsASubsequence(ms[1..], first + 1);
      MessagesOfCons(TurnsFrom(ms, first)[0], TurnsFrom(ms[1..], first + 1));
      SubsequenceCons(Plain(ms[0]), Messages(TurnsFrom(ms[1..], first + 1)), PlainAll(ms[1..]));
    }
  }

  lemma SubsequenceCons<T>(x: T, a: seq<T>, b: seq<T>)
    requires IsSubsequence(a, b)
    ensures IsSubsequence([x] + a, [x] + b)
  {
    assert ([x] + a)[1..] == a && ([x] + b)[1..] == b;
  }

  predicate IsPlain(m: ChatMessage) {
    m == Plain(m)
  }

  predicate AlternatesAt(ms: seq<ChatMessage>, i: nat)
    requires i < |ms|
  {
    IsPlain(ms[i]) && (ms[i].role == User || (ms[i].role == Assistant && i > 0 && ms[i - 1].role == User))
  }

  /** Plain user messages, and plain assistant messages each directly after a user message. */
  predicate Alternating(ms: seq<ChatMessage>) {
    forall i: nat :: i < |ms| ==> AlternatesAt(ms, i)
  }

  /** Taking a turn, `k` messages long, off the front. */
  lemma AlternatingStep(ms: seq<ChatMessage>, k: nat)
    requires 0 < k <= |ms| && k <= 2 && ms[0].role == User
    requires k == 1 ==> |ms| == 1 || ms[1].role != Assistant
    requires k == 2 ==> ms[1].role == Assistant
    ensures Alternating(ms) <==> Alternating(ms[k..]) && forall i :: 0 <= i < k ==> IsPlain(ms[i])
  {
    var rest := ms[k..];
    assert forall i: nat :: i < |rest| ==> rest[i] == ms[k + i];
    forall i: nat | i < |rest|
      ensures AlternatesAt(rest, i) <==> AlternatesAt(ms, k + i)
    {
      assert i > 0 ==> rest[i - 1] == ms[k + i - 1];
    }
    forall i: nat | i < k
      ensures AlternatesAt(ms, i) <==> IsPlain(ms[i])
    {
    }
    if Alternating(rest) && forall i :: 0 <= i < k ==> IsPlain(ms[i]) {
      forall i: nat | i < |ms|
        ensures AlternatesAt(ms, i)
      {
        if i >= k {
          assert AlternatesAt(rest, i - k);
        }
      }
    }
  }

  /** The messages of a turn taken off the front of `ms`, which is `k` messages long there. */
  lemma FrontIsExactIff(ms: seq<ChatMessage>, turn: Turn, turns: seq<Turn>, k: nat)
    requires k <= |ms| && TurnMessages(turn) == PlainAll(ms[..k])
    ensures Messages([turn] + turns) == ms <==>
            (Messages(turns) == ms[k..] && forall i :: 0 <= i < k ==> IsPlain(ms[i]))
  {
    MessagesOfCons(turn, turns);
    hide Messages, TurnMessages;
    var back := PlainAll(ms[..k]) + Messages(turns);
    assert Messages([turn] + turns) == back;
    assert ms == ms[..k] + ms[k..];
    if back == ms {
      assert back[k..] == Messages(turns);
      assert forall i :: 0 <= i < k ==> back[i] == Plain(ms[i]);
    } else if forall i :: 0 <= i < k ==> IsPlain(ms[i]) {
      assert PlainAll(ms[..k]) == ms[..k];
    }
  }

  /** A conversation comes back from `restore` unchanged exactly when it is alternating and plain. */
  lemma {:induction false} RestoreIsExactIff(ms: seq<ChatMessage>, first: nat)
    ensures Messages(TurnsFrom(ms, first)) == ms <==> Alternating(ms)
  {
    hide Messages, Alternating;
    if ms == [] {
      EmptyIsExact();
    } else if ms[0].role != User {
      RestoreKeepsASubsequence(ms[1..], first);
      SubsequenceLength(Messages(TurnsFrom(ms[1..], first)), PlainAll(ms[1..]));
      MustStartWithUser(ms);
    } else if |ms| > 1 && ms[1].role == Assistant {
      RestoreIsExactIff(ms[2..], first + 1);
      AlternatingStep(ms, 2);
      assert ms[..2] == [ms[0], ms[1]];
      FrontIsExactIff(ms, TurnsFrom(ms, first)[0], TurnsFrom(ms[2..], first + 1), 2);
    } else {
      RestoreIsExactIff(ms[1..], first + 1);
      AlternatingStep(ms, 1);
      assert ms[..1] == [ms[0]];
      FrontIsExactIff(ms, TurnsFrom(ms, first)[0], TurnsFrom(ms[1..], first + 1), 1);
    }
  }

  lemma EmptyIsExact()
    ensures Messages([]) == [] && Alternating([])
  {
  }

  lemma MustStartWithUser(ms: seq<ChatMessage>)
    requires ms != [] && ms[0].role != User
    ensures !Alternating(ms)
  {
    assert !AlternatesAt(ms, 0);
  }

  lemma {:induction false} RestoreIsAlternating(ms: seq<ChatMessage>, first: nat)
    ensures Alternating(Messages(TurnsFrom(ms, first)))
    ensures Messages(TurnsFrom(ms, first)) != [] ==> Messages(TurnsFrom(ms, first))[0].role == User
  {
    hide Messages, Alternating;
    TurnsAlternate(TurnsFrom(ms, first));
    RestoredHaveNoAttachments(ms, first);
    EmptyIsExact();
  }

  predicate NoAttachments(turns: seq<Turn>) {
    forall i :: 0 <= i < |turns| ==> turns[i].attachments == []
  }

  lemma {:induction false} RestoredHaveNoAttachments(ms: seq<ChatMessage>, first: nat)
    ensures NoAttachments(TurnsFrom(ms, first))
  {
    if ms == [] {
    } else if ms[0].role != User {
      RestoredHaveNoAttachments(ms[1..], first);
    } else if |ms| > 1 && ms[1].role == Assistant {
      RestoredHaveNoAttachments(ms[2..], first + 1);
    } else {
      RestoredHaveNoAttachments(ms[1..], first + 1);
    }
  }

  /** The messages of any thread alternate, and are plain exactly when no turn has attachments. */
  lemma {:induction false} TurnsAlternate(turns: seq<Turn>)
    ensures Alternating(Messages(turns)) <==> NoAttachments(turns)
    ensures turns != [] ==> Messages(turns) != [] && Messages(turns)[0].role == User
  {
    if turns != [] {
      var ms, rest := Messages(turns), turns[1..];
      TurnsAlternate(rest);
      assert NoAttachments(turns) <==> turns[0].attachments == [] && NoAttachments(rest);
      assert IsPlain(ms[0]) <==> turns[0].attachments == [];
      var k := |TurnMessages(turns[0])|;
      assert ms[k..] == Messages(rest);
      AlternatingStep(ms, k);
    }
  }

  /** Restoring twice is the same as restoring once. */
  lemma RestoreIsIdempotent(ms: seq<ChatMessage>, first: nat)
    ensures Messages(TurnsFrom(Messages(TurnsFrom(ms, first)), first)) == Messages(TurnsFrom(ms, first))
  {
    RestoreIsAlternating(ms, first);
    RestoreIsExactIff(Messages(TurnsFrom(ms, first)), first);
  }

  /** A thread's own messages restore to themselves exactly when none of its turns has attachments. */
  lemma SnapshotIsExactIff(turns: seq<Turn>)
    ensures Messages(TurnsFrom(Messages(turns), 0)) == Messages(turns) <==> NoAttachments(turns)
  {
    TurnsAlternate(turns);
    RestoreIsExactIff(Messages(turns), 0);
  }

  // ---------------------------------------------------------------------
  // Turn numbers
  // ---------------------------------------------------------------------

  /** Every thread operation keeps each turn's number equal to its index. */
  lemma NumbersStay(t: ThreadData, input: string, attachments: seq<Attachment>, text: string, keep: nat,
                    ms: seq<ChatMessage>)
    requires Numbered(t.turns)
    ensures Numbered(StartTurn(t, input, attachments).turns)
    ensures Numbered(CompleteTurn(t, text).turns)
    ensures Numbered(FailTurn(t, text).turns)
    ensures Numbered(InterruptTurn(t).turns)
    ensures Numbered(Truncated(t.turns, keep))
    ensures Numbered(Restored(t, ms).turns)
  {
    RestoredAreNumbered(ms, 0);
  }
}
