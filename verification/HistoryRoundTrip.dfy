/**
 What converting a history to chat form and back keeps (agent/internal/agent/anthropic.go:27-120,
 167-257).
 */
module HistoryRoundTrip {
  import opened Text
  import opened AnthropicHistory

  /** The history that comes back. */
  function RoundTrip(valid: Validity, history: seq<AnthropicMessage>): seq<AnthropicMessage> {
    ToAnthropic(valid, ToChat(valid, history))
  }

  ghost predicate Conversation(history: seq<AnthropicMessage>) {
    forall m :: m in history ==> m.role in {USER, ASSISTANT}
  }

  // ---- Normal forms ----

  ghost predicate NoneOfKind(bs: seq<Block>, kind: string) {
    forall i | 0 <= i < |bs| :: bs[i].kind != kind
  }

  predicate IsResult(b: Block) {
    b.content.Str? && b == Block(TOOL_RESULT, "", "", "", "", "", b.toolUseId, b.content)
  }

  predicate IsUse(valid: Validity, b: Block) {
    valid(b.input) && b == Block(TOOL_USE, "", "", b.id, b.name, b.input, "", Nil)
  }

  /** A user message that carries tool results and nothing else. */
  ghost predicate ResultsMessage(m: AnthropicMessage) {
    m.role == USER && m.content.Blocks? && m.content.bs != [] && forall i | 0 <= i < |m.content.bs| :: IsResult(m.content.bs[i])
  }

  ghost predicate PlainUserMessage(m: AnthropicMessage) {
    && m.role == USER
    && (m.content.Str? || (m.content.Blocks? && m.content.bs != [] && NoneOfKind(m.content.bs, TOOL_RESULT)))
  }

  /** The first `n` blocks are no tool uses, the others are. */
  ghost predicate UsesLast(valid: Validity, bs: seq<Block>, n: nat) {
    && n <= |bs|
    && (forall i | 0 <= i < n :: bs[i].kind != TOOL_USE)
    && (forall i | n <= i < |bs| :: IsUse(valid, bs[i]))
  }

  ghost predicate AssistantMessage(valid: Validity, m: AnthropicMessage) {
    m.role == ASSISTANT && m.content.Blocks? && exists n :: UsesLast(valid, m.content.bs, n)
  }

  /** The histories that conversion leaves alone. */
  ghost predicate Normal(valid: Validity, history: seq<AnthropicMessage>) {
    history != [] ==>
      && (ResultsMessage(history[0]) || PlainUserMessage(history[0]) || AssistantMessage(valid, history[0]))
      && (ResultsMessage(history[0]) && |history| > 1 ==> !ResultsMessage(history[1]))
      && Normal(valid, history[1..])
  }

  /** The chat messages that come out of a conversation. */
  ghost predicate ChatOk(valid: Validity, m: ChatMessage) {
    if m.role == TOOL then m.content.Str?
    else if m.role == USER then
      m.content.Str? || (m.content.Blocks? && m.content.bs != [] && NoneOfKind(m.content.bs, TOOL_RESULT))
    else
      && m.role == ASSISTANT
      && (m.content.Nil? || m.content.Str? || (m.content.Blocks? && NoneOfKind(m.content.bs, TOOL_USE)))
      && forall i | 0 <= i < |m.toolCalls| :: valid(m.toolCalls[i].arguments) && m.toolCalls[i].kind == "function"
  }

  ghost predicate AllChatOk(valid: Validity, msgs: seq<ChatMessage>) {
    forall i | 0 <= i < |msgs| :: ChatOk(valid, msgs[i])
  }

  // ---- Anthropic to chat gives well-formed chat messages ----

  lemma {:induction false} OtherKinds(bs: seq<Block>, kind: string)
    ensures NoneOfKind(NotOfKind(bs, kind), kind)
  {
    if bs != [] {
      OtherKinds(bs[1..], kind);
    }
  }

  lemma {:induction false} ToolMessagesOk(valid: Validity, results: seq<Block>)
    ensures AllChatOk(valid, ToolMessages(results))
    ensures |ToolMessages(results)| == |results|
    ensures forall i | 0 <= i < |results| :: ToolMessages(results)[i] == ToolMessage(results[i])
  {
    if results != [] {
      ToolMessagesOk(valid, results[1..]);
    }
  }

  lemma {:induction false} CallsOk(valid: Validity, uses: seq<Block>)
    ensures |CallsOf(valid, uses)| == |uses|
    ensures forall i | 0 <= i < |uses| :: CallsOf(valid, uses)[i] == CallOf(valid, uses[i])
  {
    if uses != [] {
      CallsOk(valid, uses[1..]);
    }
  }

  lemma {:induction false} MessageOk(valid: Validity, m: AnthropicMessage)
    requires m.role in {USER, ASSISTANT}
    ensures AllChatOk(valid, MessageToChat(valid, m))
  {
    var decoded := DecodeBlocks(m.content);
    if decoded.Some? {
      if m.role == USER {
        OtherKinds(decoded.value, TOOL_RESULT);
        ToolMessagesOk(valid, OfKind(decoded.value, TOOL_RESULT));
      } else {
        OtherKinds(decoded.value, TOOL_USE);
        CallsOk(valid, OfKind(decoded.value, TOOL_USE));
      }
    }
  }

  lemma {:induction false} ChatIsOk(valid: Validity, history: seq<AnthropicMessage>)
    requires Conversation(history)
    ensures AllChatOk(valid, ToChat(valid, history))
  {
    if history != [] {
      assert history[0] in history;
      MessageOk(valid, history[0]);
      ChatIsOk(valid, history[1..]);
    }
  }

  // ---- Chat to Anthropic gives normal histories ----

  lemma {:induction false} ResultBlocksOk(msgs: seq<ChatMessage>)
    ensures |ResultBlocks(msgs)| == |msgs|
    ensures forall i | 0 <= i < |msgs| :: ResultBlocks(msgs)[i] == ResultBlock(msgs[i])
  {
    if msgs != [] {
      ResultBlocksOk(msgs[1..]);
    }
  }

  lemma {:induction false} UseBlocksOk(valid: Validity, calls: seq<ToolCall>)
    ensures |UseBlocks(valid, calls)| == |calls|
    ensures forall i | 0 <= i < |calls| :: UseBlocks(valid, calls)[i] == UseBlock(valid, calls[i])
  {
    if calls != [] {
      UseBlocksOk(valid, calls[1..]);
    }
  }

  lemma {:induction false} HeadIsNormal(valid: Validity, msgs: seq<ChatMessage>)
    requires AllChatOk(valid, msgs) && msgs != []
    ensures var head := Head(valid, msgs);
            && |head.0| == 1
            && (if msgs[0].role == TOOL then ResultsMessage(head.0[0])
                else PlainUserMessage(head.0[0]) || AssistantMessage(valid, head.0[0]))
  {
    var m := msgs[0];
    assert ChatOk(valid, m);
    if m.role == TOOL {
      ResultBlocksOk(msgs[..ToolRun(msgs)]);
    } else if m.role == ASSISTANT {
      UseBlocksOk(valid, m.toolCalls);
      assert UsesLast(valid, AssistantToAnthropic(valid, m), |ContentBlocks(m.content)|);
    }
  }

  /** Results are told apart from other messages by their blocks. */
  lemma {:induction false} KindsDiffer(valid: Validity, m: AnthropicMessage)
    requires PlainUserMessage(m) || AssistantMessage(valid, m)
    ensures !ResultsMessage(m)
  {
    if PlainUserMessage(m) && m.content.Blocks? {
      assert !IsResult(m.content.bs[0]);
    }
  }

  lemma {:induction false} BackIsNormal(valid: Validity, msgs: seq<ChatMessage>)
    requires AllChatOk(valid, msgs)
    ensures Normal(valid, ToAnthropic(valid, msgs))
    ensures msgs != [] ==> ToAnthropic(valid, msgs) != []
    ensures msgs != [] && msgs[0].role != TOOL ==> !ResultsMessage(ToAnthropic(valid, msgs)[0])
    decreases |msgs|
  {
    if msgs != [] {
      var head := Head(valid, msgs);
      var rest := msgs[head.1..];
      HeadIsNormal(valid, msgs);
      BackIsNormal(valid, rest);
      var back := ToAnthropic(valid, rest);
      assert (head.0 + back)[0] == head.0[0] && (head.0 + back)[1..] == back;
      if msgs[0].role != TOOL {
        KindsDiffer(valid, head.0[0]);
      }
    }
  }

  // ---- Normal histories come back unchanged ----

  lemma {:induction false} AllOfKind(bs: seq<Block>, kind: string)
    requires forall i | 0 <= i < |bs| :: bs[i].kind == kind
    ensures OfKind(bs, kind) == bs && NotOfKind(bs, kind) == []
  {
    if bs != [] {
      AllOfKind(bs[1..], kind);
    }
  }

  lemma {:induction false} AllOther(bs: seq<Block>, kind: string)
    requires NoneOfKind(bs, kind)
    ensures OfKind(bs, kind) == [] && NotOfKind(bs, kind) == bs
  {
    if bs != [] {
      AllOther(bs[1..], kind);
    }
  }

  lemma {:induction false} OfKindAppend(a: seq<Block>, b: seq<Block>, kind: string)
    ensures OfKind(a + b, kind) == OfKind(a, kind) + OfKind(b, kind)
  {
    if a == [] {
      assert a + b == b;
    } else {
      assert (a + b)[1..] == a[1..] + b;
      OfKindAppend(a[1..], b, kind);
      Assoc(OfKind(a[..1], kind), OfKind(a[1..], kind), OfKind(b, kind));
    }
  }

  lemma {:induction false} NotOfKindAppend(a: seq<Block>, b: seq<Block>, kind: string)
    ensures NotOfKind(a + b, kind) == NotOfKind(a, kind) + NotOfKind(b, kind)
  {
    if a == [] {
      assert a + b == b;
    } else {
      assert (a + b)[1..] == a[1..] + b;
      NotOfKindAppend(a[1..], b, kind);
      Assoc(NotOfKind(a[..1], kind), NotOfKind(a[1..], kind), NotOfKind(b, kind));
    }
  }

  lemma {:induction false} ToolRunOf(tools: seq<ChatMessage>, rest: seq<ChatMessage>)
    requires forall i | 0 <= i < |tools| :: tools[i].role == TOOL
    requires rest != [] ==> rest[0].role != TOOL
    ensures ToolRun(tools + rest) == |tools|
  {
    if tools == [] {
      assert tools + rest == rest;
    } else {
      assert (tools + rest)[1..] == tools[1..] + rest;
      ToolRunOf(tools[1..], rest);
    }
  }

  lemma {:induction false} ResultsComeBack(valid: Validity, m: AnthropicMessage, rest: seq<ChatMessage>)
    requires ResultsMessage(m) && (rest != [] ==> rest[0].role != TOOL)
    ensures ToAnthropic(valid, MessageToChat(valid, m) + rest) == [m] + ToAnthropic(valid, rest)
  {
    var bs := m.content.bs;
    AllOfKind(bs, TOOL_RESULT);
    ToolMessagesOk(valid, bs);
    var tools := ToolMessages(bs);
    assert MessageToChat(valid, m) == tools;
    ToolRunOf(tools, rest);
    assert (tools + rest)[..|tools|] == tools && (tools + rest)[|tools|..] == rest;
    ResultBlocksOk(tools);
    assert ResultBlocks(tools) == bs;
  }

  lemma {:induction false} PlainUserComesBack(valid: Validity, m: AnthropicMessage, rest: seq<ChatMessage>)
    requires PlainUserMessage(m)
    ensures MessageToChat(valid, m) == [ChatMessage(USER, m.content, [], "")]
    ensures ToAnthropic(valid, MessageToChat(valid, m) + rest) == [m] + ToAnthropic(valid, rest)
  {
    if m.content.Blocks? {
      AllOther(m.content.bs, TOOL_RESULT);
    }
    var msg := ChatMessage(USER, m.content, [], "");
    assert ([msg] + rest)[1..] == rest;
  }

  lemma {:induction false} UsesComeBack(valid: Validity, uses: seq<Block>)
    requires forall i | 0 <= i < |uses| :: IsUse(valid, uses[i])
    ensures UseBlocks(valid, CallsOf(valid, uses)) == uses
  {
    CallsOk(valid, uses);
    UseBlocksOk(valid, CallsOf(valid, uses));
  }

  lemma {:induction false} AssistantBlocksComeBack(valid: Validity, content: seq<Block>, uses: seq<Block>)
    requires NoneOfKind(content, TOOL_USE) && forall i | 0 <= i < |uses| :: IsUse(valid, uses[i])
    ensures AssistantToAnthropic(valid, AssistantToChat(valid, Blocks(content + uses))) == content + uses
  {
    OfKindAppend(content, uses, TOOL_USE);
    NotOfKindAppend(content, uses, TOOL_USE);
    AllOther(content, TOOL_USE);
    AllOfKind(uses, TOOL_USE);
    UsesComeBack(valid, uses);
    assert [] + uses == uses && content + [] == content;
  }

  lemma {:induction false} AssistantComesBack(valid: Validity, m: AnthropicMessage, rest: seq<ChatMessage>)
    requires AssistantMessage(valid, m)
    ensures ToAnthropic(valid, MessageToChat(valid, m) + rest) == [m] + ToAnthropic(valid, rest)
  {
    var bs := m.content.bs;
    var n: nat :| UsesLast(valid, bs, n);
    assert bs == bs[..n] + bs[n..];
    AssistantBlocksComeBack(valid, bs[..n], bs[n..]);
    var msg := AssistantToChat(valid, m.content);
    assert ([msg] + rest)[1..] == rest;
  }

  /** The chat form of a normal history starts with a tool message only for tool results. */
  lemma {:induction false} FirstRole(valid: Validity, history: seq<AnthropicMessage>)
    requires Normal(valid, history) && history != [] && !ResultsMessage(history[0])
    ensures ToChat(valid, history) != [] && ToChat(valid, history)[0].role != TOOL
  {
    if PlainUserMessage(history[0]) {
      PlainUserComesBack(valid, history[0], []);
    }
  }

  lemma {:induction false} NormalComesBack(valid: Validity, history: seq<AnthropicMessage>)
    requires Normal(valid, history)
    ensures RoundTrip(valid, history) == history
  {
    if history != [] {
      var m, tail := history[0], history[1..];
      NormalComesBack(valid, tail);
      if tail != [] && !ResultsMessage(tail[0]) {
        FirstRole(valid, tail);
      }
      assert [m] + tail == history;
      if ResultsMessage(m) {
        ResultsComeBack(valid, m, ToChat(valid, tail));
      } else if PlainUserMessage(m) {
        PlainUserComesBack(valid, m, ToChat(valid, tail));
      } else {
        AssistantComesBack(valid, m, ToChat(valid, tail));
      }
    }
  }

  /**
   Converting a conversation to chat form and back is idempotent, and what it leaves alone is exactly
   the normal histories: its own image.
   */
  lemma {:induction false} RoundTripIsIdempotent(valid: Validity, history: seq<AnthropicMessage>)
    requires Conversation(history)
    ensures RoundTrip(valid, RoundTrip(valid, history)) == RoundTrip(valid, history)
    ensures RoundTrip(valid, history) == history <==> Normal(valid, history)
  {
    ChatIsOk(valid, history);
    BackIsNormal(valid, ToChat(valid, history));
    NormalComesBack(valid, RoundTrip(valid, history));
    if Normal(valid, history) {
      NormalComesBack(valid, history);
    }
  }
}
