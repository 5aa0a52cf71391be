/** The bounded tool-calling run of a routine (src/agent/routine_engine.rs). */
module Routine {
  import opened Wrappers
  import Settings
  import Compaction

  datatype ToolCall = ToolCall(id: string, name: string, arguments: string)

  datatype Message =
    | User(content: string)
    | Assistant(text: Option<string>, calls: seq<ToolCall>)
    | ToolResult(callId: string, name: string, content: string)

  datatype LlmOutput =
    | Failure(error: string)
    | Reply(text: string, tokens: nat)
    | Calls(calls: seq<ToolCall>, content: Option<string>, tokens: nat)

  datatype RunStatus = RunOk | Attention | Failed

  datatype Report = Report(status: RunStatus, summary: Option<string>, tokens: int)

  /**
   What the model and the tools answer: the model in each iteration, counted from 1, and the tools for each
   call of an iteration.
   */
  datatype Oracle = Oracle(llm: nat -> LlmOutput, tool: (nat, nat) -> Result<string, string>)

  /** The low 32 bits of n, read as a signed number. */
  function AsI32(n: int): int {
    (n + 0x8000_0000) % 0x1_0000_0000 - 0x8000_0000
  }

  function TrimStart(s: string): string {
    if s != "" && Compaction.IsWhitespace(s[0]) then TrimStart(s[1..]) else s
  }

  function TrimEnd(s: string): string {
    if s != "" && Compaction.IsWhitespace(s[|s| - 1]) then TrimEnd(s[..|s| - 1]) else s
  }

  function Trim(s: string): string {
    TrimEnd(TrimStart(s))
  }

  predicate Contains(s: string, part: string) {
    exists i :: 0 <= i <= |s| && part <= s[i..]
  }

  const SENTINEL := "ROUTINE_OK"

  function ToolMessage(call: ToolCall, r: Result<string, string>): Message {
    ToolResult(call.id, call.name, match r case Ok(text) => text case Err(e) => "Error: " + e)
  }

  function Results(o: Oracle, iteration: nat, calls: seq<ToolCall>): (results: seq<Message>)
    ensures |results| == |calls|
  {
    if calls == [] then []
    else
      var last := |calls| - 1;
      Results(o, iteration, calls[..last]) + [ToolMessage(calls[last], o.tool(iteration, last))]
  }

  /** What the n-th answer adds to the conversation. */
  function Round(o: Oracle, n: nat): seq<Message> {
    match o.llm(n)
    case Calls(calls, content, _) => [Assistant(content, calls)] + Results(o, n, calls)
    case _ => []
  }

  /** The messages after the model's first n answers, all of them tool calls. */
  function Conversation(prompt: string, o: Oracle, n: nat): seq<Message> {
    if n == 0 then [User(prompt)] else Conversation(prompt, o, n - 1) + Round(o, n)
  }

  function TokensOfOutput(output: LlmOutput): nat {
    if output.Failure? then 0 else output.tokens
  }

  function TotalTokens(o: Oracle, n: nat): nat {
    if n == 0 then 0 else TotalTokens(o, n - 1) + TokensOfOutput(o.llm(n))
  }

  /** The report on a final text. */
  function Concluded(text: string, tokens: int): Result<Report, string> {
    var content := Trim(text);
    if content == "" then Err("LLM returned empty content.")
    else if Contains(content, SENTINEL) then Ok(Report(RunOk, None, AsI32(tokens)))
    else Ok(Report(Attention, Some(content), AsI32(tokens)))
  }

  /** `results` answers `calls` one for one, in order. */
  ghost predicate Answers(calls: seq<ToolCall>, results: seq<Message>) {
    && |results| == |calls|
    && forall i :: 0 <= i < |calls| ==>
         results[i].ToolResult? && results[i].callId == calls[i].id && results[i].name == calls[i].name
  }

  /** Every assistant message is followed by the results of its calls, and there is no other result. */
  ghost predicate Complete(ms: seq<Message>) {
    ms == [] ||
    match ms[0]
    case User(_) => Complete(ms[1..])
    case Assistant(_, calls) =>
      |calls| < |ms| && Answers(calls, ms[1..1 + |calls|]) && Complete(ms[1 + |calls|..])
    case ToolResult(_, _, _) => false
  }

  lemma {:induction false} ResultsAnswer(o: Oracle, iteration: nat, calls: seq<ToolCall>)
    ensures Answers(calls, Results(o, iteration, calls))
  {
    if calls != [] {
      ResultsAnswer(o, iteration, calls[..|calls| - 1]);
    }
  }

  /** The first message with the results that belong to it. */
  function Group(ms: seq<Message>): nat
    requires ms != []
  {
    if ms[0].Assistant? then 1 + |ms[0].calls| else 1
  }

  lemma CompleteByGroup(ms: seq<Message>, n: nat)
    requires ms != [] && n == Group(ms) <= |ms|
    ensures Complete(ms) <==> !ms[0].ToolResult? && Complete(ms[n..])
                              && (ms[0].Assistant? ==> Answers(ms[0].calls, ms[1..n]))
  {
    hide Answers;
  }

  lemma GroupFits(a: seq<Message>, b: seq<Message>)
    requires a != [] && Complete(a)
    ensures 1 <= Group(a) <= |a| && Group(a + b) == Group(a)
  {
    hide Answers;
  }

  lemma {:induction false} CompleteAppend(a: seq<Message>, b: seq<Message>)
    requires Complete(a) && Complete(b)
    ensures Complete(a + b)
  {
    hide Complete, Answers, Group;
    if a == [] {
      assert a + b == b;
    } else {
      var n := Group(a);
      GroupFits(a, b);
      CompleteByGroup(a, n);
      CompleteAppend(a[n..], b);
      assert (a + b)[1..n] == a[1..n] && (a + b)[n..] == a[n..] + b;
      CompleteByGroup(a + b, n);
    }
  }

  lemma RoundIsComplete(o: Oracle, n: nat)
    ensures Complete(Round(o, n))
  {
    hide Answers;
    if o.llm(n).Calls? {
      var calls, round := o.llm(n).calls, Round(o, n);
      ResultsAnswer(o, n, calls);
      assert round[1..1 + |calls|] == Results(o, n, calls) && round[1 + |calls|..] == [];
    }
  }

  lemma PromptIsComplete(prompt: string)
    ensures Complete([User(prompt)])
  {
    assert [User(prompt)][1..] == [];
  }

  /** What the model is shown in any iteration is complete. */
  lemma {:induction false} ConversationIsComplete(prompt: string, o: Oracle, n: nat)
    ensures Complete(Conversation(prompt, o, n))
  {
    hide Complete, Round;
    if n == 0 {
      PromptIsComplete(prompt);
    } else {
      ConversationIsComplete(prompt, o, n - 1);
      RoundIsComplete(o, n);
      CompleteAppend(Conversation(prompt, o, n - 1), Round(o, n));
    }
  }

  /** What the model was shown before each of its first n answers. */
  function Requests(prompt: string, o: Oracle, n: nat): seq<seq<Message>> {
    if n == 0 then [] else Requests(prompt, o, n - 1) + [Conversation(prompt, o, n - 1)]
  }

  lemma {:induction false} RequestsAreComplete(prompt: string, o: Oracle, n: nat)
    ensures |Requests(prompt, o, n)| == n
    ensures forall i :: 0 <= i < n ==> Complete(Requests(prompt, o, n)[i])
  {
    hide Complete, Conversation;
    if n > 0 {
      RequestsAreComplete(prompt, o, n - 1);
      ConversationIsComplete(prompt, o, n - 1);
    }
  }

  function Answered(output: LlmOutput, tokens: int): Result<Report, string>
    requires !output.Calls?
  {
    match output
    case Failure(e) => Err("LLM call failed: " + e)
    case Reply(text, _) => Concluded(text, tokens)
  }

  function Exceeded(max: nat, tokens: int): Report {
    Report(Failed, Some("Exceeded max_iterations (" + Settings.Decimal(max) + ") without finishing"), AsI32(tokens))
  }

  /** A run of n requests: it ends with the first answer that is not a list of calls, or at the limit. */
  ghost predicate Ended(o: Oracle, max: nat, n: nat, r: Result<Report, string>) {
    && n <= max
    && (forall i :: 1 <= i < n ==> o.llm(i).Calls?)
    && if n > 0 && !o.llm(n).Calls?
       then r == Answered(o.llm(n), TotalTokens(o, n))
       else n == max && r == Ok(Exceeded(max, TotalTokens(o, max)))
  }

  /** The run is decided by the oracle alone: two runs that end have the same length and outcome. */
  lemma RunIsDetermined(o: Oracle, max: nat, n: nat, m: nat, r: Result<Report, string>, q: Result<Report, string>)
    requires Ended(o, max, n, r) && Ended(o, max, m, q)
    ensures n == m && r == q
  {
    hide Answered, Exceeded;
    assert n < m ==> o.llm(n).Calls? || n == 0;
    assert m < n ==> o.llm(m).Calls? || m == 0;
  }

  /** Runs the job and records what the model was shown. */
  method ExecuteFullJob(prompt: string, maxIterations: nat, o: Oracle)
    returns (r: Result<Report, string>, requests: seq<seq<Message>>)
    ensures requests == Requests(prompt, o, |requests|)
    ensures Ended(o, maxIterations, |requests|, r)
  {
    hide Results, Concluded, Exceeded;
    var messages := [User(prompt)];
    var totalTokens := 0;
    var iteration := 0;
    requests := [];
    while true
      invariant iteration == |requests| <= maxIterations
      invariant messages == Conversation(prompt, o, iteration)
      invariant totalTokens == TotalTokens(o, iteration)
      invariant forall i :: 1 <= i <= iteration ==> o.llm(i).Calls?
      invariant requests == Requests(prompt, o, iteration)
      decreases maxIterations - iteration
    {
      iteration := iteration + 1;
      if iteration > maxIterations {
        r := Ok(Exceeded(maxIterations, totalTokens));
        return;
      }
      requests := requests + [messages];
      var output := o.llm(iteration);
      totalTokens := totalTokens + TokensOfOutput(output);
      if !output.Calls? {
        r := Answered(output, totalTokens);
        return;
      }
      messages := messages + [Assistant(output.content, output.calls)];
      var results := RunCalls(o, iteration, output.calls);
      messages := messages + results;
    }
  }

  method RunCalls(o: Oracle, iteration: nat, calls: seq<ToolCall>) returns (results: seq<Message>)
    ensures results == Results(o, iteration, calls)
  {
    results := [];
    for i := 0 to |calls|
      invariant results == Results(o, iteration, calls[..i])
    {
      assert calls[..i + 1][..i] == calls[..i];
      results := results + [ToolMessage(calls[i], o.tool(iteration, i))];
    }
    assert calls[..|calls|] == calls;
  }

  // ---------------------------------------------------------------------
  // What a run reports and shows
  // ---------------------------------------------------------------------

  predicate Blank(s: string) {
    forall i :: 0 <= i < |s| ==> Compaction.IsWhitespace(s[i])
  }

  lemma {:induction false} TrimStartCuts(s: string) returns (pre: string)
    ensures s == pre + TrimStart(s) && Blank(pre)
    ensures TrimStart(s) != "" ==> !Compaction.IsWhitespace(TrimStart(s)[0])
  {
    if s != "" && Compaction.IsWhitespace(s[0]) {
      pre := TrimStartCuts(s[1..]);
      pre := [s[0]] + pre;
    } else {
      pre := "";
    }
  }

  lemma {:induction false} TrimEndCuts(s: string) returns (post: string)
    ensures s == TrimEnd(s) + post && Blank(post)
    ensures TrimEnd(s) != "" ==> !Compaction.IsWhitespace(TrimEnd(s)[|TrimEnd(s)| - 1])
    ensures s != "" && !Compaction.IsWhitespace(s[0]) ==> TrimEnd(s) != ""
  {
    if s != "" && Compaction.IsWhitespace(s[|s| - 1]) {
      post := TrimEndCuts(s[..|s| - 1]);
      post := post + [s[|s| - 1]];
    } else {
      post := "";
    }
  }

  /** Trimming takes off whitespace at both ends and nothing else. */
  lemma TrimCuts(s: string) returns (pre: string, post: string)
    ensures s == pre + Trim(s) + post && Blank(pre) && Blank(post)
    ensures Trim(s) != "" ==> !Compaction.IsWhitespace(Trim(s)[0])
    ensures Trim(s) != "" ==> !Compaction.IsWhitespace(Trim(s)[|Trim(s)| - 1])
  {
    pre := TrimStartCuts(s);
    post := TrimEndCuts(TrimStart(s));
    if Trim(s) != "" {
      assert TrimStart(s)[0] == Trim(s)[0];
    }
  }

  lemma BlankIffTrimmedAway(s: string)
    ensures Trim(s) == "" <==> Blank(s)
  {
    var pre, post := TrimCuts(s);
    if Trim(s) != "" {
      assert s[|pre|] == Trim(s)[0];
    }
  }

  predicate SentinelAt(s: string, i: nat) {
    i + |SENTINEL| <= |s| && s[i..i + |SENTINEL|] == SENTINEL
  }

  /** The sentinel stands somewhere in the text. */
  ghost predicate HasSentinel(s: string) {
    exists i: nat :: SentinelAt(s, i)
  }

  lemma SentinelIsSolid(s: string, i: nat)
    requires SentinelAt(s, i)
    ensures forall k :: i <= k < i + |SENTINEL| ==> !Compaction.IsWhitespace(s[k])
  {
    forall k | i <= k < i + |SENTINEL| ensures !Compaction.IsWhitespace(s[k]) {
      assert s[k] == s[i..i + |SENTINEL|][k - i] == SENTINEL[k - i];
    }
  }

  lemma ContainsIffHas(s: string)
    ensures Contains(s, SENTINEL) <==> HasSentinel(s)
  {
    if Contains(s, SENTINEL) {
      var i: nat :| i <= |s| && SENTINEL <= s[i..];
      assert s[i..i + |SENTINEL|] == s[i..][..|SENTINEL|] == SENTINEL;
      assert SentinelAt(s, i);
    }
    if HasSentinel(s) {
      var i: nat :| SentinelAt(s, i);
      assert s[i..][..|SENTINEL|] == s[i..i + |SENTINEL|];
      assert SENTINEL <= s[i..];
    }
  }

  lemma SentinelInside(pre: string, content: string, post: string, i: nat)
    ensures SentinelAt(content, i) ==> SentinelAt(pre + content + post, |pre| + i)
    ensures SentinelAt(pre + content + post, i) && Blank(pre) && Blank(post) ==>
              i >= |pre| && SentinelAt(content, i - |pre|)
  {
    var s, n := pre + content + post, |SENTINEL|;
    if SentinelAt(content, i) {
      assert s[|pre| + i..|pre| + i + n] == content[i..i + n];
    }
    if SentinelAt(s, i) && Blank(pre) && Blank(post) {
      SentinelIsSolid(s, i);
      assert forall k :: 0 <= k < |pre| ==> s[k] == pre[k] && Compaction.IsWhitespace(s[k]);
      assert forall k :: 0 <= k < |post| ==> s[|pre| + |content| + k] == post[k];
      forall k | |pre| + |content| <= k < |s| ensures Compaction.IsWhitespace(s[k]) {
        assert s[k] == post[k - |pre| - |content|];
      }
      assert !Compaction.IsWhitespace(s[i]) && !Compaction.IsWhitespace(s[i + n - 1]);
      assert s[i..i + n] == content[i - |pre|..i - |pre| + n];
    }
  }

  lemma TrimKeepsSentinel(s: string)
    ensures HasSentinel(Trim(s)) <==> HasSentinel(s)
  {
    hide Trim;
    var pre, post := TrimCuts(s);
    if i: nat :| SentinelAt(Trim(s), i) {
      SentinelInside(pre, Trim(s), post, i);
    }
    if i: nat :| SentinelAt(s, i) {
      SentinelInside(pre, Trim(s), post, i);
    }
  }

  /** The low 32 bits, as a signed number. */
  lemma AsI32IsLowBits(n: int)
    ensures -0x8000_0000 <= AsI32(n) < 0x8000_0000 && (n - AsI32(n)) % 0x1_0000_0000 == 0
  {
  }

  /**
   A run that ends with a text: a blank one is an error; one with the sentinel anywhere is silent; any other
   needs attention and is handed on without the whitespace around it.
   */
  lemma ReplyDecidesReport(o: Oracle, max: nat, n: nat, r: Result<Report, string>)
    requires Ended(o, max, n, r) && n > 0 && o.llm(n).Reply?
    ensures var text := o.llm(n).text; var tokens := AsI32(TotalTokens(o, n));
      && (Blank(text) ==> r.Err?)
      && (HasSentinel(text) ==> r == Ok(Report(RunOk, None, tokens)))
      && (!Blank(text) && !HasSentinel(text) ==>
            && r.Ok? && r.value.status == Attention && r.value.tokens == tokens && r.value.summary.Some?
            && exists pre, post :: Blank(pre) && Blank(post) && text == pre + r.value.summary.value + post)
  {
    hide AsI32, Trim, HasSentinel, Contains;
    var text := o.llm(n).text;
    BlankIffTrimmedAway(text);
    TrimKeepsSentinel(text);
    ContainsIffHas(Trim(text));
    var pre, post := TrimCuts(text);
    if HasSentinel(text) {
      SentinelIsNotBlank(text);
    }
  }

  lemma SentinelIsNotBlank(s: string)
    requires HasSentinel(s)
    ensures !Blank(s)
  {
    var i: nat :| SentinelAt(s, i);
    SentinelIsSolid(s, i);
    assert !Compaction.IsWhitespace(s[i]);
  }

  /** Each result carries what its tool answered, an error with a mark. */
  lemma {:induction false} ResultCarriesAnswer(o: Oracle, iteration: nat, calls: seq<ToolCall>, i: nat)
    requires i < |calls|
    ensures Results(o, iteration, calls)[i].ToolResult?
    ensures Results(o, iteration, calls)[i].content ==
            match o.tool(iteration, i) case Ok(text) => text case Err(e) => "Error: " + e
  {
    if i < |calls| - 1 {
      ResultCarriesAnswer(o, iteration, calls[..|calls| - 1], i);
    }
  }

  /** A conversation only grows. */
  lemma {:induction false} ConversationGrows(prompt: string, o: Oracle, k: nat, n: nat)
    requires k <= n
    ensures Conversation(prompt, o, k) <= Conversation(prompt, o, n)
  {
    hide Round;
    if k < n {
      ConversationGrows(prompt, o, k, n - 1);
    }
  }

  /** Every request begins with the prompt. */
  lemma PromptIsShown(prompt: string, o: Oracle, n: nat)
    ensures Conversation(prompt, o, n) != [] && Conversation(prompt, o, n)[0] == User(prompt)
  {
    ConversationGrows(prompt, o, 0, n);
    assert Conversation(prompt, o, 0) == [User(prompt)];
  }

  /** Where the k-th answer stands in the conversation. */
  function Place(prompt: string, o: Oracle, k: nat): nat
    requires k > 0
  {
    |Conversation(prompt, o, k - 1)|
  }

  lemma RoundShows(o: Oracle, k: nat, i: nat)
    requires o.llm(k).Calls? && i < |o.llm(k).calls|
    ensures |Round(o, k)| == 1 + |o.llm(k).calls|
    ensures Round(o, k)[0] == Assistant(o.llm(k).content, o.llm(k).calls)
    ensures Round(o, k)[1 + i] == ToolResult(
              o.llm(k).calls[i].id, o.llm(k).calls[i].name,
              match o.tool(k, i) case Ok(text) => text case Err(e) => "Error: " + e)
  {
    ResultsAnswer(o, k, o.llm(k).calls);
    ResultCarriesAnswer(o, k, o.llm(k).calls, i);
    hide Results;
  }

  /** From the k-th answer on, every request shows that answer, followed by what its tools gave. */
  lemma AnswersAreShown(prompt: string, o: Oracle, k: nat, n: nat, i: nat)
    requires 0 < k <= n && o.llm(k).Calls? && i < |o.llm(k).calls|
    ensures var ms := Conversation(prompt, o, n); var p := Place(prompt, o, k);
      && p + 1 + i < |ms|
      && ms[p] == Assistant(o.llm(k).content, o.llm(k).calls)
      && ms[p + 1 + i] == ToolResult(
           o.llm(k).calls[i].id, o.llm(k).calls[i].name,
           match o.tool(k, i) case Ok(text) => text case Err(e) => "Error: " + e)
  {
    ConversationGrows(prompt, o, k, n);
    RoundShows(o, k, i);
    RoundIsPlaced(prompt, o, k);
    hide Conversation, Round;
    var ms, p, round := Conversation(prompt, o, n), Place(prompt, o, k), Round(o, k);
    var until := Conversation(prompt, o, k);
    assert ms[p] == until[p] == round[0];
    assert ms[p + 1 + i] == until[p + 1 + i] == round[1 + i];
  }

  lemma RoundIsPlaced(prompt: string, o: Oracle, k: nat)
    requires k > 0
    ensures var until := Conversation(prompt, o, k); var p := Place(prompt, o, k);
      |until| == p + |Round(o, k)| && forall j :: 0 <= j < |Round(o, k)| ==> until[p + j] == Round(o, k)[j]
  {
    hide Round;
  }

  /** The tokens of the answers add up. */
  lemma {:induction false} TokensAddUp(o: Oracle, n: nat, each: nat)
    requires forall k :: 1 <= k <= n ==> !o.llm(k).Failure? && o.llm(k).tokens == each
    ensures TotalTokens(o, n) == n * each
  {
    if n > 0 {
      TokensAddUp(o, n - 1, each);
    }
  }
}
