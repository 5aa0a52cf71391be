/** The bounded conversation history of a job (src/context/memory.rs). */
module ConversationMemory {
  import opened Chat
  import opened Undo

  function TrimmedTo(ms: seq<ChatMessage>, max: nat): seq<ChatMessage>
    decreases |ms|
  {
    if |ms| <= max then ms
    else if ms[0].role == System then (if |ms| > 1 then TrimmedTo([ms[0]] + ms[2..], max) else ms)
    else TrimmedTo(ms[1..], max)
  }

  class Memory {
    var messages: seq<ChatMessage>
    const maxMessages: nat

    constructor (maxMessages: nat)
      ensures messages == [] && this.maxMessages == maxMessages
    {
      messages, this.maxMessages := [], maxMessages;
    }

    method Add(message: ChatMessage)
      modifies this
      ensures messages == TrimmedTo(old(messages) + [message], maxMessages)
    {
      messages := messages + [message];
      while |messages| > maxMessages
        invariant TrimmedTo(messages, maxMessages) == TrimmedTo(old(messages) + [message], maxMessages)
        decreases |messages|
      {
        if messages[0].role == System {
          if |messages| > 1 {
            assert messages[..1] == [messages[0]];
            messages := messages[..1] + messages[2..];
          } else {
            break;
          }
        } else {
          messages := messages[1..];
        }
      }
    }
  }

  /** The messages kept after `history` was added one by one. */
  function Kept(history: seq<ChatMessage>, max: nat): seq<ChatMessage> {
    if history == [] then []
    else TrimmedTo(Kept(history[..|history| - 1], max) + [history[|history| - 1]], max)
  }

  /** The first system message among the first n of the history, or n. */
  function FirstSystem(history: seq<ChatMessage>, n: nat): (p: nat)
    requires n <= |history|
    ensures p <= n
  {
    if n == 0 then 0
    else
      var p := FirstSystem(history, n - 1);
      if p < n - 1 || history[p].role == System then p else n
  }

  lemma {:induction false} FirstSystemIsFirst(history: seq<ChatMessage>, n: nat)
    requires n <= |history|
    ensures var p := FirstSystem(history, n);
      (p < n ==> history[p].role == System) && forall i :: 0 <= i < p ==> history[i].role != System
  {
    if n > 0 {
      FirstSystemIsFirst(history, n - 1);
    }
  }

  /** How many messages have been at the front, the first one included. */
  function Fronts(n: nat, max: nat): (fronts: nat)
    ensures fronts <= n
  {
    if n == 0 then 0 else if n <= max then 1 else if max == 0 then n else n - max + 1
  }

  function Less(n: nat): nat {
    if n == 0 then 0 else n - 1
  }

  /**
   What is kept, read off the history: the latest messages, unless a system message came to the front; the
   first that did stays there, followed by the latest of what came after it.
   */
  function KeptDirectly(history: seq<ChatMessage>, max: nat): seq<ChatMessage> {
    var fronts := Fronts(|history|, max);
    var p := FirstSystem(history, fronts);
    if p < fronts then [history[p]] + Suffix(history[p + 1..], Less(max)) else Suffix(history, max)
  }

  lemma {:induction false} FirstSystemSnoc(history: seq<ChatMessage>, m: ChatMessage, n: nat)
    requires n <= |history|
    ensures FirstSystem(history + [m], n) == FirstSystem(history, n)
  {
    if n > 0 {
      FirstSystemSnoc(history, m, n - 1);
    }
  }

  lemma {:induction false} FirstSystemGrows(history: seq<ChatMessage>, n: nat, k: nat)
    requires n <= k <= |history| && FirstSystem(history, n) < n
    ensures FirstSystem(history, k) == FirstSystem(history, n)
  {
    if n < k {
      FirstSystemGrows(history, n, k - 1);
    }
  }

  lemma KeptSnoc(history: seq<ChatMessage>, m: ChatMessage, max: nat)
    ensures TrimmedTo(KeptDirectly(history, max) + [m], max) == KeptDirectly(history + [m], max)
  {
    hide TrimmedTo, FirstSystem, Fronts, Suffix;
    var fronts := Fronts(|history|, max);
    if FirstSystem(history, fronts) < fronts {
      StillPinned(history, m, max);
      var p := FirstSystem(history, fronts);
      FirstSystemIsFirst(history, fronts);
      TailSnoc(history, m, p);
      PinnedSnoc(history[p], history[p + 1..], m, max);
    } else {
      LooseSnoc(history, m, max);
    }
  }

  lemma FrontsGrow(n: nat, max: nat)
    ensures Fronts(n, max) <= Fronts(n + 1, max)
  {
  }

  lemma TailSnoc(history: seq<ChatMessage>, m: ChatMessage, p: nat)
    requires p < |history|
    ensures (history + [m])[p] == history[p] && (history + [m])[p + 1..] == history[p + 1..] + [m]
  {
  }

  lemma StillPinned(history: seq<ChatMessage>, m: ChatMessage, max: nat)
    requires FirstSystem(history, Fronts(|history|, max)) < Fronts(|history|, max)
    ensures var p := FirstSystem(history, Fronts(|history|, max));
      FirstSystem(history + [m], Fronts(|history| + 1, max)) == p < Fronts(|history| + 1, max)
  {
    hide FirstSystem, Fronts;
    var fronts, after := Fronts(|history|, max), Fronts(|history| + 1, max);
    FrontsGrow(|history|, max);
    FirstSystemSnoc(history, m, fronts);
    FirstSystemGrows(history + [m], fronts, after);
  }

  lemma PinnedSnoc(first: ChatMessage, rest: seq<ChatMessage>, m: ChatMessage, max: nat)
    requires first.role == System
    ensures TrimmedTo([first] + Suffix(rest, Less(max)) + [m], max) == [first] + Suffix(rest + [m], Less(max))
  {
    var ms := [first] + Suffix(rest, Less(max)) + [m];
    if |ms| > max {
      assert [ms[0]] + ms[2..] == [first] + (Suffix(rest, Less(max)) + [m])[1..];
      assert TrimmedTo(ms, max) == [ms[0]] + ms[2..];
    }
  }

  lemma LooseSnoc(history: seq<ChatMessage>, m: ChatMessage, max: nat)
    requires FirstSystem(history, Fronts(|history|, max)) == Fronts(|history|, max)
    ensures TrimmedTo(Suffix(history, max) + [m], max) == KeptDirectly(history + [m], max)
  {
    var all, fronts := history + [m], Fronts(|history|, max);
    FirstSystemSnoc(history, m, fronts);
    if history == [] {
      FirstOnly(m, max);
    } else if |history| < max {
      assert Suffix(history, max) == history && Suffix(all, max) == all;
    } else if max == 0 {
      assert Suffix(history, max) == [];
      assert TrimmedTo([m], 0) == if m.role == System then [m] else TrimmedTo([], 0);
      assert all[|history| + 1..] == [];
    } else {
      FullSnoc(history, m, max);
    }
  }

  lemma FirstOnly(m: ChatMessage, max: nat)
    ensures TrimmedTo([] + [m], max) == KeptDirectly([] + [m], max)
  {
    assert [] + [m] == [m];
    assert FirstSystem([m], 1) == if m.role == System then 0 else 1;
  }

  lemma FullSnoc(history: seq<ChatMessage>, m: ChatMessage, max: nat)
    requires 0 < max <= |history|
    requires FirstSystem(history, |history| - max + 1) == |history| - max + 1
    ensures TrimmedTo(Suffix(history, max) + [m], max) == KeptDirectly(history + [m], max)
  {
    hide TrimmedTo, KeptDirectly, FirstSystem;
    FirstSystemSnoc(history, m, |history| - max + 1);
    FirstSystemIsFirst(history, |history| - max + 1);
    FullTrim(history, m, max);
    FullDirect(history + [m], max);
  }

  lemma FullTrim(history: seq<ChatMessage>, m: ChatMessage, max: nat)
    requires 0 < max <= |history| && history[|history| - max].role != System
    ensures TrimmedTo(Suffix(history, max) + [m], max) == (history + [m])[|history| - max + 1..]
  {
    var ms := Suffix(history, max) + [m];
    assert ms[0] == history[|history| - max];
    assert ms[1..] == (history + [m])[|history| - max + 1..];
    assert TrimmedTo(ms, max) == TrimmedTo(ms[1..], max) == ms[1..];
  }

  lemma FirstSystemStep(all: seq<ChatMessage>, p: nat)
    requires p < |all| && FirstSystem(all, p) == p
    ensures FirstSystem(all, p + 1) == if all[p].role == System then p else p + 1
  {
  }

  lemma SuffixOfExact(s: seq<ChatMessage>, n: nat)
    requires n <= |s|
    ensures Suffix(s, n) == s[|s| - n..]
  {
  }

  lemma FullDirect(all: seq<ChatMessage>, max: nat)
    requires 0 < max < |all| && FirstSystem(all, |all| - max) == |all| - max
    ensures KeptDirectly(all, max) == all[|all| - max..]
  {
    hide FirstSystem, Suffix;
    var p := |all| - max;
    var rest := all[p + 1..];
    FirstSystemStep(all, p);
    SuffixOfExact(all, max);
    SuffixOfExact(rest, max - 1);
    assert rest[0..] == rest;
    assert all[p..] == [all[p]] + rest;
  }

  /** The trimming loop keeps exactly what the direct reading of the history says. */
  lemma {:induction false} KeptIsDirect(history: seq<ChatMessage>, max: nat)
    ensures Kept(history, max) == KeptDirectly(history, max)
  {
    hide TrimmedTo;
    if history != [] {
      var before := history[..|history| - 1];
      KeptIsDirect(before, max);
      KeptSnoc(before, history[|history| - 1], max);
      assert before + [history[|history| - 1]] == history;
    }
  }

  /** With room for one message or more, exactly as many are kept as were added or as fit. */
  lemma KeptLength(history: seq<ChatMessage>, max: nat)
    requires max > 0
    ensures |Kept(history, max)| == if |history| <= max then |history| else max
  {
    KeptIsDirect(history, max);
  }

  /** A system message that has come to the front stays there. */
  lemma {:induction false} SystemStaysInFront(history: seq<ChatMessage>, later: seq<ChatMessage>, max: nat)
    requires Kept(history, max) != [] && Kept(history, max)[0].role == System
    ensures Kept(history + later, max) != [] && Kept(history + later, max)[0] == Kept(history, max)[0]
  {
    if later == [] {
      assert history + later == history;
    } else {
      var before := later[..|later| - 1];
      SystemStaysInFront(history, before, max);
      assert (history + later)[..|history + later| - 1] == history + before;
      TrimKeepsSystem(Kept(history + before, max) + [later[|later| - 1]], max);
    }
  }

  lemma {:induction false} TrimKeepsSystem(ms: seq<ChatMessage>, max: nat)
    requires ms != [] && ms[0].role == System
    ensures TrimmedTo(ms, max) != [] && TrimmedTo(ms, max)[0] == ms[0]
    decreases |ms|
  {
    if |ms| > max && |ms| > 1 {
      TrimKeepsSystem([ms[0]] + ms[2..], max);
    }
  }
}
