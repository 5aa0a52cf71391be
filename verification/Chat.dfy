/** Chat messages, as exchanged with a model (src/llm/provider.rs). */
module Chat {
  import opened Wrappers

  datatype Role = System | User | Assistant | Tool

  datatype Attachment = Attachment(mediaType: string, data: string)

  datatype ToolCall = ToolCall(id: string, name: string, arguments: string)

  datatype ChatMessage = ChatMessage(
    role: Role,
    content: string,
    attachments: seq<Attachment>,
    toolCallId: Option<string>,
    name: Option<string>,
    toolCalls: Option<seq<ToolCall>>)

  function UserMessage(content: string): ChatMessage {
    ChatMessage(User, content, [], None, None, None)
  }

  function UserWithAttachments(content: string, attachments: seq<Attachment>): ChatMessage {
    ChatMessage(User, content, attachments, None, None, None)
  }

  function AssistantMessage(content: string): ChatMessage {
    ChatMessage(Assistant, content, [], None, None, None)
  }

  /** The message with nothing but its role and text. */
  function Plain(m: ChatMessage): ChatMessage {
    ChatMessage(m.role, m.content, [], None, None, None)
  }

  function PlainAll(ms: seq<ChatMessage>): (r: seq<ChatMessage>)
    ensures |r| == |ms| && forall i :: 0 <= i < |ms| ==> r[i] == Plain(ms[i])
  {
    if ms == [] then [] else [Plain(ms[0])] + PlainAll(ms[1..])
  }

  /** `a` can be had from `b` by leaving elements out. */
  ghost predicate IsSubsequence<T>(a: seq<T>, b: seq<T>) {
    if a == [] then true
    else if b == [] then false
    else (a[0] == b[0] && IsSubsequence(a[1..], b[1..])) || IsSubsequence(a, b[1..])
  }

  lemma {:induction false} SubsequenceLength<T>(a: seq<T>, b: seq<T>)
    requires IsSubsequence(a, b)
    ensures |a| <= |b|
  {
    if a != [] {
      if a[0] == b[0] && IsSubsequence(a[1..], b[1..]) {
        SubsequenceLength(a[1..], b[1..]);
      } else {
        SubsequenceLength(a, b[1..]);
      }
    }
  }
}
