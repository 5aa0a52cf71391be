/**
 Keeping the context of a thread within bounds
 (src/agent/context_monitor.rs and src/agent/compaction.rs).
 */
module Compaction {
  import opened Wrappers
  import opened Chat
  import opened Session

  // ---------------------------------------------------------------------
  // Token estimates
  // ---------------------------------------------------------------------

  predicate IsWhitespace(c: char) {
    var n := c as int;
    || 9 <= n <= 13 || n == 0x20 || n == 0x85 || n == 0xA0 || n == 0x1680
    || 0x2000 <= n <= 0x200A || n == 0x2028 || n == 0x2029 || n == 0x202F || n == 0x205F || n == 0x3000
  }

  /** The number of whitespace-separated words of `s`; `inWord` says whether one is under way. */
  function WordsFrom(s: string, inWord: bool): nat {
    if s == "" then (if inWord then 1 else 0)
    else if IsWhitespace(s[0]) then (if inWord then 1 else 0) + WordsFrom(s[1..], false)
    else WordsFrom(s[1..], true)
  }

  const OVERHEAD: nat := 4

  /** 1.3 tokens a word, rounded down, and a fixed overhead. */
  function MessageTokens(m: ChatMessage): nat {
    WordsFrom(m.content, false) * 13 / 10 + OVERHEAD
  }

  function Tokens(ms: seq<ChatMessage>): nat {
    if ms == [] then 0 else MessageTokens(ms[0]) + Tokens(ms[1..])
  }

  function TokensOf(ms: seq<ChatMessage>, role: Role): nat {
    if ms == [] then 0 else (if ms[0].role == role then MessageTokens(ms[0]) else 0) + TokensOf(ms[1..], role)
  }

  datatype Breakdown = Breakdown(total: nat, system: nat, user: nat, assistant: nat, tool: nat, count: nat)

  lemma {:induction false} TokensSnoc(ms: seq<ChatMessage>, m: ChatMessage, role: Role)
    ensures Tokens(ms + [m]) == Tokens(ms) + MessageTokens(m)
    ensures TokensOf(ms + [m], role) == TokensOf(ms, role) + if m.role == role then MessageTokens(m) else 0
  {
    hide MessageTokens;
    if ms == [] {
      assert (ms + [m])[1..] == [];
    } else {
      TokensSnoc(ms[1..], m, role);
      assert (ms + [m])[1..] == ms[1..] + [m];
    }
  }

  lemma {:induction false} TokensAppend(a: seq<ChatMessage>, b: seq<ChatMessage>)
    ensures Tokens(a + b) == Tokens(a) + Tokens(b)
  {
    hide MessageTokens;
    if a == [] {
      assert a + b == b;
    } else {
      TokensAppend(a[1..], b);
      assert (a + b)[1..] == a[1..] + b;
    }
  }

  /** The breakdown of a list of messages; the four roles add up to the total. */
  method Analyze(ms: seq<ChatMessage>) returns (b: Breakdown)
    ensures b.total == Tokens(ms) && b.count == |ms|
    ensures b.system == TokensOf(ms, System) && b.user == TokensOf(ms, User)
    ensures b.assistant == TokensOf(ms, Assistant) && b.tool == TokensOf(ms, Tool)
    ensures b.system + b.user + b.assistant + b.tool == b.total
  {
    hide MessageTokens;
    b := Breakdown(0, 0, 0, 0, 0, |ms|);
    for i := 0 to |ms|
      invariant b.count == |ms| && b.total == Tokens(ms[..i])
      invariant b.system == TokensOf(ms[..i], System) && b.user == TokensOf(ms[..i], User)
      invariant b.assistant == TokensOf(ms[..i], Assistant) && b.tool == TokensOf(ms[..i], Tool)
      invariant b.system + b.user + b.assistant + b.tool == b.total
    {
      var tokens := MessageTokens(ms[i]);
      forall role: Role
        ensures Tokens(ms[..i + 1]) == Tokens(ms[..i]) + tokens
        ensures TokensOf(ms[..i + 1], role) == TokensOf(ms[..i], role) + if ms[i].role == role then tokens else 0
      {
        TokensSnoc(ms[..i], ms[i], role);
        assert ms[..i] + [ms[i]] == ms[..i + 1];
      }
      hide Tokens, TokensOf;
      b := b.(total := b.total + tokens);
      match ms[i].role {
        case System => b := b.(system := b.system + tokens);
        case User => b := b.(user := b.user + tokens);
        case Assistant => b := b.(assistant := b.assistant + tokens);
        case Tool => b := b.(tool := b.tool + tokens);
      }
    }
    assert ms[..|ms|] == ms;
  }

  // ---------------------------------------------------------------------
  // When to compact
  // ---------------------------------------------------------------------

  datatype Strategy = Summarize(keep: nat) | Truncate(keep: nat) | MoveToWorkspace

  /** A monitor's limit in tokens, and the part of it at which compaction starts. */
  datatype Monitor = Monitor(limit: nat, ratio: real)

  predicate NeedsCompaction(m: Monitor, tokens: nat) {
    tokens >= (m.limit as real * m.ratio).Floor
  }

  function Suggest(m: Monitor, tokens: nat): Option<Strategy> {
    if !NeedsCompaction(m, tokens) then None
    else if 100 * tokens > 95 * m.limit then Some(Truncate(3))
    else if 100 * tokens > 85 * m.limit then Some(Summarize(5))
    else Some(MoveToWorkspace)
  }

  /** How many turns are kept at most; without a workspace, moving there means truncating to five. */
  function Kept(strategy: Strategy, hasWorkspace: bool): nat {
    match strategy
    case Summarize(keep) => keep
    case Truncate(keep) => keep
    case MoveToWorkspace => if hasWorkspace then 10 else 5
  }

  /** A fuller context never leads to a milder suggestion: once one is made it stays, and keeps no more turns. */
  lemma SuggestionsAreMonotone(m: Monitor, fewer: nat, more: nat, hasWorkspace: bool)
    requires fewer <= more && Suggest(m, fewer).Some?
    ensures Suggest(m, more).Some?
    ensures Kept(Suggest(m, more).value, hasWorkspace) <= Kept(Suggest(m, fewer).value, hasWorkspace)
  {
  }

  // ---------------------------------------------------------------------
  // Compaction
  // ---------------------------------------------------------------------

  datatype CompactionResult = CompactionResult(
    turnsRemoved: nat,
    tokensBefore: nat,
    tokensAfter: nat,
    summaryWritten: bool,
    summary: Option<string>)

  datatype SummaryFailed = SummaryFailed

  /** Summarizing is the one strategy that can fail, and only when there is something to summarize. */
  predicate Fails(turns: seq<Turn>, strategy: Strategy, summary: Option<string>) {
    strategy.Summarize? && |turns| > strategy.keep && summary == None
  }

  function Dropped(turns: seq<Turn>, keep: nat): seq<Turn> {
    if |turns| > keep then turns[..|turns| - keep] else []
  }

  /** The turns after a compaction, whether it succeeds or fails. */
  function Compacted(turns: seq<Turn>, strategy: Strategy, summary: Option<string>, hasWorkspace: bool): seq<Turn> {
    if Fails(turns, strategy, summary) then turns else Truncated(turns, Kept(strategy, hasWorkspace))
  }

  lemma {:induction false} RenumberingKeepsMessages(turns: seq<Turn>, first: nat)
    ensures Messages(Renumbered(turns, first)) == Messages(turns)
  {
    if turns != [] {
      RenumberingKeepsMessages(turns[1..], first + 1);
      MessagesOfCons(turns[0].(number := first), Renumbered(turns[1..], first + 1));
    }
  }

  /** Truncation takes the oldest messages off the front and leaves a suffix. */
  lemma TruncatedIsSuffix(turns: seq<Turn>, keep: nat)
    ensures Messages(turns) == Messages(Dropped(turns, keep)) + Messages(Truncated(turns, keep))
  {
    hide Messages;
    if |turns| > keep {
      var dropped, recent := Dropped(turns, keep), turns[|turns| - keep..];
      assert turns == dropped + recent;
      MessagesAppend(dropped, recent);
      RenumberingKeepsMessages(recent, 0);
    } else {
      MessagesOfNone();
    }
  }

  lemma TurnCosts(turn: Turn)
    ensures Tokens(TurnMessages(turn)) >= OVERHEAD
  {
    var ms := TurnMessages(turn);
    assert MessageTokens(ms[0]) >= OVERHEAD;
  }

  lemma {:induction false} TurnsCost(turns: seq<Turn>)
    ensures Tokens(Messages(turns)) >= OVERHEAD * |turns|
  {
    if turns != [] {
      TurnsCost(turns[1..]);
      TurnCosts(turns[0]);
      TokensAppend(TurnMessages(turns[0]), Messages(turns[1..]));
      hide Tokens, TurnMessages;
    }
  }

  /** What a compaction saves is what the dropped turns cost, at least four tokens for each. */
  lemma SavingIsExact(turns: seq<Turn>, keep: nat)
    ensures Tokens(Messages(turns)) ==
            Tokens(Messages(Dropped(turns, keep))) + Tokens(Messages(Truncated(turns, keep)))
    ensures Tokens(Messages(turns)) - Tokens(Messages(Truncated(turns, keep))) >=
            OVERHEAD * (|turns| - |Truncated(turns, keep)|)
  {
    hide Messages, Tokens;
    TruncatedIsSuffix(turns, keep);
    TokensAppend(Messages(Dropped(turns, keep)), Messages(Truncated(turns, keep)));
    TurnsCost(Dropped(turns, keep));
  }

  /**
   Compacts a thread. `summary` is what the model answers when asked for a summary, `workspace` whether there
   is a workspace and whether writing to it succeeds.
   */
  method Compact(thread: Thread, strategy: Strategy, summary: Option<string>, workspace: Option<bool>)
    returns (r: Result<CompactionResult, SummaryFailed>)
    modifies thread
    ensures thread.View() ==
            old(thread.View()).(turns := Compacted(old(thread.turns), strategy, summary, workspace.Some?))
    ensures r.Err? <==> Fails(old(thread.turns), strategy, summary)
    ensures r.Err? ==> thread.View() == old(thread.View())
    ensures r.Ok? ==>
      && r.value.turnsRemoved == |old(thread.turns)| - |thread.turns|
      && r.value.tokensBefore == Tokens(Messages(old(thread.turns)))
      && r.value.tokensAfter == Tokens(Messages(thread.turns))
      && r.value.tokensBefore - r.value.tokensAfter ==
         Tokens(Messages(Dropped(old(thread.turns), Kept(strategy, workspace.Some?))))
      && r.value.tokensBefore - r.value.tokensAfter >= OVERHEAD * r.value.turnsRemoved
      && (r.value.summaryWritten ==> workspace == Some(true) && r.value.turnsRemoved > 0)
      && (r.value.summary.Some? <==> strategy.Summarize? && r.value.turnsRemoved > 0)
  {
    hide Messages, Tokens;
    ghost var start := thread.turns;
    var messages := thread.BuildMessages();
    var before := Analyze(messages);
    var removed, written, text := 0, false, None;
    SavingIsExact(start, Kept(strategy, workspace.Some?));
    match strategy {
      case Summarize(keep) =>
        if |thread.turns| > keep {
          removed := |thread.turns| - keep;
          if summary == None {
            return Err(SummaryFailed);
          }
          text := summary;
          written := workspace == Some(true);
          thread.TruncateTurns(keep);
        }
      case Truncate(keep) =>
        var turnsBefore := |thread.turns|;
        thread.TruncateTurns(keep);
        removed := turnsBefore - |thread.turns|;
      case MoveToWorkspace =>
        if workspace == None {
          var turnsBefore := |thread.turns|;
          thread.TruncateTurns(5);
          removed := turnsBefore - |thread.turns|;
        } else if |thread.turns| > 10 {
          removed := |thread.turns| - 10;
          written := workspace == Some(true);
          thread.TruncateTurns(10);
        }
    }
    var messagesAfter := thread.BuildMessages();
    var after := Analyze(messagesAfter);
    return Ok(CompactionResult(removed, before.total, after.total, written, text));
  }

  // ---------------------------------------------------------------------
  // The program's own thresholds
  // ---------------------------------------------------------------------

  /** A monitor with the default limit and threshold. */
  const DEFAULT_MONITOR := Monitor(100_000, 0.8)

  /**
   With the defaults: below 80000 tokens nothing is suggested, from there on moving to the workspace, above
   85000 a summary that keeps five turns, and above 95000 the last three turns alone.
   */
  lemma DefaultSuggestions(tokens: nat)
    ensures Suggest(DEFAULT_MONITOR, tokens) == None <==> tokens < 80_000
    ensures Suggest(DEFAULT_MONITOR, tokens) == Some(MoveToWorkspace) <==> 80_000 <= tokens <= 85_000
    ensures Suggest(DEFAULT_MONITOR, tokens) == Some(Summarize(5)) <==> 85_000 < tokens <= 95_000
    ensures Suggest(DEFAULT_MONITOR, tokens) == Some(Truncate(3)) <==> tokens > 95_000
  {
    assert (100_000 as real * 0.8).Floor == 80_000;
  }

  /** How many turns each strategy leaves, where it does not fail. */
  lemma TurnsLeft(turns: seq<Turn>, keep: nat, summary: Option<string>, hasWorkspace: bool)
    ensures |Compacted(turns, Truncate(keep), summary, hasWorkspace)| == if |turns| > keep then keep else |turns|
    ensures |Compacted(turns, MoveToWorkspace, summary, true)| == if |turns| > 10 then 10 else |turns|
    ensures |Compacted(turns, MoveToWorkspace, summary, false)| == if |turns| > 5 then 5 else |turns|
    ensures |Compacted(turns, Summarize(keep), summary, hasWorkspace)| ==
            if |turns| > keep && summary.Some? then keep else |turns|
  {
  }

  /** Whitespace before a word does not count; a word and the whitespace after it count one. */
  lemma {:induction false} WordsAreCounted(word: string, gap: char, rest: string)
    requires IsWhitespace(gap) && forall i :: 0 <= i < |word| ==> !IsWhitespace(word[i])
    ensures WordsFrom([gap] + rest, false) == WordsFrom(rest, false)
    ensures word != "" ==> WordsFrom(word + [gap] + rest, false) == 1 + WordsFrom(rest, false)
    ensures word != "" ==> WordsFrom(word, false) == 1
  {
    hide IsWhitespace;
    assert ([gap] + rest)[1..] == rest;
    if word != "" {
      WordUnderWay(word[1..], gap, rest);
      assert (word + [gap] + rest)[1..] == word[1..] + [gap] + rest;
    }
  }

  lemma {:induction false} WordUnderWay(word: string, gap: char, rest: string)
    requires IsWhitespace(gap) && forall i :: 0 <= i < |word| ==> !IsWhitespace(word[i])
    ensures WordsFrom(word + [gap] + rest, true) == 1 + WordsFrom(rest, false)
    ensures WordsFrom(word, true) == 1
  {
    hide IsWhitespace;
    var all := word + [gap] + rest;
    if word == "" {
      assert all[1..] == rest;
    } else {
      WordUnderWay(word[1..], gap, rest);
      assert all[1..] == word[1..] + [gap] + rest;
    }
  }

  /** Ten words cost thirteen tokens, and every message four more. */
  lemma TokensPerTenWords(m: ChatMessage, tens: nat)
    requires WordsFrom(m.content, false) == 10 * tens
    ensures MessageTokens(m) == 13 * tens + 4
  {
  }
}
