/**
 Tool calls and their results across the conversions: nothing is reordered, and histories in which
 every call is answered stay so (agent/internal/agent/anthropic.go:53-120, 171-257).
 */
module HistoryPairing {
  import opened Text
  import opened AnthropicHistory
  import opened HistoryRoundTrip

  // ---- Calls and results of a history ----

  function IdsOf(bs: seq<Block>): seq<string> {
    if bs == [] then [] else [bs[0].toolUseId] + IdsOf(bs[1..])
  }

  /** The tool calls an assistant message makes: id, name and valid input of each. */
  function UsesIn(valid: Validity, m: AnthropicMessage): seq<ToolCall> {
    if m.role != ASSISTANT || DecodeBlocks(m.content).None? then []
    else CallsOf(valid, OfKind(DecodeBlocks(m.content).value, TOOL_USE))
  }

  /** The calls that a user message answers. */
  function ResultsIn(m: AnthropicMessage): seq<string> {
    if m.role != USER || DecodeBlocks(m.content).None? then []
    else IdsOf(OfKind(DecodeBlocks(m.content).value, TOOL_RESULT))
  }

  function Uses(valid: Validity, history: seq<AnthropicMessage>): seq<ToolCall> {
    if history == [] then [] else UsesIn(valid, history[0]) + Uses(valid, history[1..])
  }

  function Results(history: seq<AnthropicMessage>): seq<string> {
    if history == [] then [] else ResultsIn(history[0]) + Results(history[1..])
  }

  function Calls(msgs: seq<ChatMessage>): seq<ToolCall> {
    if msgs == [] then []
    else (if msgs[0].role == ASSISTANT then msgs[0].toolCalls else []) + Calls(msgs[1..])
  }

  function Answers(msgs: seq<ChatMessage>): seq<string> {
    if msgs == [] then []
    else (if msgs[0].role == TOOL then [msgs[0].toolCallId] else []) + Answers(msgs[1..])
  }

  lemma {:induction false} ChatAppend(a: seq<ChatMessage>, b: seq<ChatMessage>)
    ensures Calls(a + b) == Calls(a) + Calls(b)
    ensures Answers(a + b) == Answers(a) + Answers(b)
  {
    if a == [] {
      assert a + b == b;
    } else {
      assert (a + b)[1..] == a[1..] + b;
      ChatAppend(a[1..], b);
      Assoc(if a[0].role == ASSISTANT then a[0].toolCalls else [], Calls(a[1..]), Calls(b));
      Assoc(if a[0].role == TOOL then [a[0].toolCallId] else [], Answers(a[1..]), Answers(b));
    }
  }

  lemma {:induction false} ToolMessagesAnswer(results: seq<Block>)
    ensures Calls(ToolMessages(results)) == [] && Answers(ToolMessages(results)) == IdsOf(results)
  {
    if results != [] {
      var rest := ToolMessages(results[1..]);
      ToolMessagesAnswer(results[1..]);
      assert ToolMessages(results)[1..] == rest;
    }
  }

  lemma {:induction false} CallsOfOne(m: ChatMessage)
    ensures Calls([m]) == if m.role == ASSISTANT then m.toolCalls else []
    ensures Answers([m]) == if m.role == TOOL then [m.toolCallId] else []
  {
    assert [m][1..] == [];
  }

  lemma {:induction false} MessageKeepsCalls(valid: Validity, m: AnthropicMessage)
    requires m.role in {USER, ASSISTANT}
    ensures Calls(MessageToChat(valid, m)) == UsesIn(valid, m)
    ensures Answers(MessageToChat(valid, m)) == ResultsIn(m)
  {
    if m.role == ASSISTANT {
      CallsOfOne(AssistantToChat(valid, m.content));
    } else {
      match DecodeBlocks(m.content)
      case None =>
        CallsOfOne(ChatMessage(USER, Str(ExtractAnthropicText(m.content)), [], ""));
      case Some(bs) =>
        var results, others := OfKind(bs, TOOL_RESULT), NotOfKind(bs, TOOL_RESULT);
        var msg := ChatMessage(USER, Blocks(others), [], "");
        ToolMessagesAnswer(results);
        ChatAppend(ToolMessages(results), if others != [] then [msg] else []);
        CallsOfOne(msg);
    }
  }

  lemma {:induction false} ToChatKeepsCalls(valid: Validity, history: seq<AnthropicMessage>)
    requires Conversation(history)
    ensures Calls(ToChat(valid, history)) == Uses(valid, history)
    ensures Answers(ToChat(valid, history)) == Results(history)
  {
    if history != [] {
      assert history[0] in history;
      MessageKeepsCalls(valid, history[0]);
      ToChatKeepsCalls(valid, history[1..]);
      ChatAppend(MessageToChat(valid, history[0]), ToChat(valid, history[1..]));
    }
  }

  lemma {:induction false} ResultIds(msgs: seq<ChatMessage>)
    requires forall i | 0 <= i < |msgs| :: msgs[i].role == TOOL
    ensures IdsOf(ResultBlocks(msgs)) == Answers(msgs) && Calls(msgs) == []
    ensures |Answers(msgs)| == |msgs| && forall i | 0 <= i < |msgs| :: Answers(msgs)[i] == msgs[i].toolCallId
  {
    if msgs != [] {
      ResultIds(msgs[1..]);
      assert ResultBlocks(msgs)[1..] == ResultBlocks(msgs[1..]);
    }
  }

  /** The calls with invalid arguments replaced. */
  function ValidCalls(valid: Validity, calls: seq<ToolCall>): seq<ToolCall> {
    if calls == [] then []
    else
      var tc := calls[0];
      [ToolCall(tc.id, "function", tc.name, ValidInput(valid, tc.arguments))] + ValidCalls(valid, calls[1..])
  }

  lemma {:induction false} ValidCallsAppend(valid: Validity, a: seq<ToolCall>, b: seq<ToolCall>)
    ensures ValidCalls(valid, a + b) == ValidCalls(valid, a) + ValidCalls(valid, b)
  {
    if a == [] {
      assert a + b == b;
    } else {
      assert (a + b)[1..] == a[1..] + b;
      ValidCallsAppend(valid, a[1..], b);
    }
  }

  /** Validating an input twice is validating it once. */
  lemma {:induction false} CallsOfUses(valid: Validity, calls: seq<ToolCall>)
    ensures CallsOf(valid, UseBlocks(valid, calls)) == ValidCalls(valid, calls)
  {
    if calls != [] {
      CallsOfUses(valid, calls[1..]);
      assert UseBlocks(valid, calls)[1..] == UseBlocks(valid, calls[1..]);
    }
  }

  lemma {:induction false} UsesAreValid(valid: Validity, uses: seq<Block>)
    ensures ValidCalls(valid, CallsOf(valid, uses)) == CallsOf(valid, uses)
  {
    if uses != [] {
      UsesAreValid(valid, uses[1..]);
      assert CallsOf(valid, uses)[1..] == CallsOf(valid, uses[1..]);
    }
  }

  lemma {:induction false} AllUsesAreValid(valid: Validity, history: seq<AnthropicMessage>)
    ensures ValidCalls(valid, Uses(valid, history)) == Uses(valid, history)
  {
    if history != [] {
      AllUsesAreValid(valid, history[1..]);
      ValidCallsAppend(valid, UsesIn(valid, history[0]), Uses(valid, history[1..]));
      var decoded := DecodeBlocks(history[0].content);
      if decoded.Some? {
        UsesAreValid(valid, OfKind(decoded.value, TOOL_USE));
      }
    }
  }

  // ---- Chat to Anthropic ----

  /** User content holds no tool result and assistant content no tool use: these have their own fields. */
  ghost predicate Plain(m: ChatMessage) {
    var user := DecodeBlocks(UserContent(m.content));
    && (m.role == USER && user.Some? ==> NoneOfKind(user.value, TOOL_RESULT))
    && (m.role == ASSISTANT ==> NoneOfKind(ContentBlocks(m.content), TOOL_USE))
  }

  ghost predicate AllPlain(msgs: seq<ChatMessage>) {
    forall i | 0 <= i < |msgs| :: Plain(msgs[i])
  }

  /** Messages of other roles, such as the system message, are not converted. */
  predicate IsConverted(m: ChatMessage) {
    m.role == TOOL || m.role == USER || m.role == ASSISTANT
  }

  lemma {:induction false} AssistantUses(valid: Validity, m: ChatMessage)
    requires Plain(m) && m.role == ASSISTANT
    ensures UsesIn(valid, AnthropicMessage(ASSISTANT, Blocks(AssistantToAnthropic(valid, m)))) == ValidCalls(valid, m.toolCalls)
  {
    var content, uses := ContentBlocks(m.content), UseBlocks(valid, m.toolCalls);
    UseBlocksOk(valid, m.toolCalls);
    OfKindAppend(content, uses, TOOL_USE);
    AllOther(content, TOOL_USE);
    AllOfKind(uses, TOOL_USE);
    CallsOfUses(valid, m.toolCalls);
    assert [] + uses == uses;
  }

  lemma {:induction false} ToolsResults(msgs: seq<ChatMessage>)
    requires forall i | 0 <= i < |msgs| :: msgs[i].role == TOOL
    ensures ResultsIn(AnthropicMessage(USER, Blocks(ResultBlocks(msgs)))) == Answers(msgs)
  {
    ResultBlocksOk(msgs);
    AllOfKind(ResultBlocks(msgs), TOOL_RESULT);
    ResultIds(msgs);
  }

  lemma {:induction false} UserResults(m: ChatMessage)
    requires Plain(m) && m.role == USER
    ensures ResultsIn(AnthropicMessage(USER, UserContent(m.content))) == []
  {
    var decoded := DecodeBlocks(UserContent(m.content));
    if decoded.Some? {
      AllOther(decoded.value, TOOL_RESULT);
    }
  }

  /** The way back keeps every call, with a valid input, and every result id, in order. */
  lemma {:induction false} BackKeepsCalls(valid: Validity, msgs: seq<ChatMessage>)
    requires AllPlain(msgs)
    ensures Uses(valid, ToAnthropic(valid, msgs)) == ValidCalls(valid, Calls(msgs))
    ensures Results(ToAnthropic(valid, msgs)) == Answers(msgs)
    decreases |msgs|
  {
    if msgs != [] {
      var head := Head(valid, msgs);
      var rest := msgs[head.1..];
      BackKeepsCalls(valid, rest);
      assert msgs == msgs[..head.1] + rest;
      ChatAppend(msgs[..head.1], rest);
      ValidCallsAppend(valid, Calls(msgs[..head.1]), Calls(rest));
      HeadKeepsCalls(valid, msgs);
      HeadInFront(valid, head.0, ToAnthropic(valid, rest));
    }
  }

  lemma {:induction false} HeadInFront(valid: Validity, head: seq<AnthropicMessage>, rest: seq<AnthropicMessage>)
    requires |head| <= 1
    ensures Uses(valid, head + rest) == (if head == [] then [] else UsesIn(valid, head[0])) + Uses(valid, rest)
    ensures Results(head + rest) == (if head == [] then [] else ResultsIn(head[0])) + Results(rest)
  {
    if head == [] {
      assert head + rest == rest;
    } else {
      assert (head + rest)[1..] == rest;
    }
  }

  /** A converted message keeps its calls and results; others have none. */
  lemma {:induction false} HeadKeepsCalls(valid: Validity, msgs: seq<ChatMessage>)
    requires AllPlain(msgs) && msgs != []
    ensures var head := Head(valid, msgs);
            && |head.0| == (if IsConverted(msgs[0]) then 1 else 0)
            && ValidCalls(valid, Calls(msgs[..head.1])) == (if head.0 == [] then [] else UsesIn(valid, head.0[0]))
            && Answers(msgs[..head.1]) == if head.0 == [] then [] else ResultsIn(head.0[0])
  {
    assert Plain(msgs[0]);
    if msgs[0].role == TOOL {
      var tools := msgs[..ToolRun(msgs)];
      ToolsResults(tools);
      ResultIds(tools);
    } else {
      assert msgs[..1] == [msgs[0]];
      CallsOfOne(msgs[0]);
      if msgs[0].role == USER {
        UserResults(msgs[0]);
      } else if msgs[0].role == ASSISTANT {
        AssistantUses(valid, msgs[0]);
      }
    }
  }

  lemma {:induction false} ChatIsPlain(valid: Validity, history: seq<AnthropicMessage>)
    requires Conversation(history)
    ensures AllPlain(ToChat(valid, history))
  {
    ChatIsOk(valid, history);
    var msgs := ToChat(valid, history);
    forall i | 0 <= i < |msgs| ensures Plain(msgs[i]) {
      assert ChatOk(valid, msgs[i]);
    }
  }

  /** The way to chat form and back keeps every call (id, name, valid input) and every result id, in order. */
  lemma {:induction false} RoundTripKeepsCalls(valid: Validity, history: seq<AnthropicMessage>)
    requires Conversation(history)
    ensures Uses(valid, RoundTrip(valid, history)) == Uses(valid, history)
    ensures Results(RoundTrip(valid, history)) == Results(history)
  {
    ChatIsPlain(valid, history);
    ToChatKeepsCalls(valid, history);
    BackKeepsCalls(valid, ToChat(valid, history));
    AllUsesAreValid(valid, history);
  }

  // ---- Pairing ----

  /** Every assistant message with k calls is followed by exactly its k tool messages, and no other are there. */
  ghost predicate ChatPaired(msgs: seq<ChatMessage>)
    decreases |msgs|
  {
    if msgs == [] then true
    else if msgs[0].role == TOOL then false
    else if msgs[0].role == ASSISTANT then
      var n := ToolRun(msgs[1..]);
      && Answers(msgs[1..][..n]) == CallIds(msgs[0].toolCalls)
      && ChatPaired(msgs[1..][n..])
    else ChatPaired(msgs[1..])
  }

  function CallIds(calls: seq<ToolCall>): seq<string> {
    seq(|calls|, i requires 0 <= i < |calls| => calls[i].id)
  }

  /** Every assistant message with calls is answered, in order, by the next message, and nothing else is answered. */
  ghost predicate AnthropicPaired(valid: Validity, history: seq<AnthropicMessage>)
    decreases |history|
  {
    if history == [] then true
    else if history[0].role == ASSISTANT then
      var ids := CallIds(UsesIn(valid, history[0]));
      if ids == [] then AnthropicPaired(valid, history[1..])
      else
        && |history| > 1
        && history[1].role == USER && ResultsIn(history[1]) == ids
        && AnthropicPaired(valid, history[2..])
    else ResultsIn(history[0]) == [] && AnthropicPaired(valid, history[1..])
  }

  lemma {:induction false} ValidCallIds(valid: Validity, calls: seq<ToolCall>)
    ensures CallIds(ValidCalls(valid, calls)) == CallIds(calls) && |ValidCalls(valid, calls)| == |calls|
  {
    if calls != [] {
      ValidCallIds(valid, calls[1..]);
      assert CallIds(calls) == [calls[0].id] + CallIds(calls[1..]);
      assert ValidCalls(valid, calls)[1..] == ValidCalls(valid, calls[1..]);
      assert CallIds(ValidCalls(valid, calls)) == [calls[0].id] + CallIds(ValidCalls(valid, calls[1..]));
    }
  }

  lemma {:induction false} BackOfHead(valid: Validity, msgs: seq<ChatMessage>)
    requires AllPlain(msgs) && msgs != []
    ensures var head := Head(valid, msgs);
            var back, rest := ToAnthropic(valid, msgs), ToAnthropic(valid, msgs[head.1..]);
            if IsConverted(msgs[0]) then |head.0| == 1 && back == [head.0[0]] + rest && back[1..] == rest else back == rest
  {
    HeadKeepsCalls(valid, msgs);
    var head := Head(valid, msgs);
    var rest := ToAnthropic(valid, msgs[head.1..]);
    if head.0 == [] {
      assert head.0 + rest == rest;
    } else {
      assert head.0 == [head.0[0]];
    }
  }

  /** A run of tool messages, if there is one, answers something. */
  lemma {:induction false} RunAnswers(msgs: seq<ChatMessage>)
    ensures var n := ToolRun(msgs); |Answers(msgs[..n])| == n
  {
    ResultIds(msgs[..ToolRun(msgs)]);
  }

  predicate Calling(m: ChatMessage) {
    m.role == ASSISTANT && m.toolCalls != []
  }

  /** No assistant message with calls is directly followed by a message that is not converted. */
  ghost predicate NoGap(msgs: seq<ChatMessage>) {
    forall i | 0 <= i < |msgs| - 1 :: Calling(msgs[i]) ==> IsConverted(msgs[i + 1])
  }

  /**
   A well-paired chat history, with any roles, tool contents and arguments, becomes a well-paired
   Anthropic history.
   */
  lemma {:induction false} PairingSurvivesBack(valid: Validity, msgs: seq<ChatMessage>)
    requires AllPlain(msgs) && ChatPaired(msgs)
    ensures AnthropicPaired(valid, ToAnthropic(valid, msgs))
    decreases |msgs|
  {
    if msgs != [] {
      assert Plain(msgs[0]);
      BackOfHead(valid, msgs);
      HeadKeepsCalls(valid, msgs);
      if msgs[0].role == ASSISTANT {
        AssistantPaired(valid, msgs);
      } else {
        if msgs[0].role == USER {
          UserResults(msgs[0]);
        }
        PairingSurvivesBack(valid, msgs[1..]);
      }
    }
  }

  /** The assistant message and the run of tool messages that answers it. */
  lemma {:induction false} AssistantPaired(valid: Validity, msgs: seq<ChatMessage>)
    requires AllPlain(msgs) && ChatPaired(msgs) && msgs != [] && msgs[0].role == ASSISTANT
    ensures AnthropicPaired(valid, ToAnthropic(valid, msgs))
    decreases |msgs|, 0
  {
    var rest := msgs[1..];
    var n := ToolRun(rest);
    CallIsConverted(valid, msgs);
    RunAnswers(rest);
    PairingSurvivesBack(valid, rest[n..]);
    if n == 0 {
      assert rest[0..] == rest;
    } else {
      AnswerIsConverted(valid, msgs);
    }
  }

  lemma {:induction false} CallIsConverted(valid: Validity, msgs: seq<ChatMessage>)
    requires AllPlain(msgs) && msgs != [] && msgs[0].role == ASSISTANT
    ensures var back := ToAnthropic(valid, msgs);
            && |back| > 0 && back[0].role == ASSISTANT && back[1..] == ToAnthropic(valid, msgs[1..])
            && CallIds(UsesIn(valid, back[0])) == CallIds(msgs[0].toolCalls)
  {
    BackOfHead(valid, msgs);
    AssistantUses(valid, msgs[0]);
    ValidCallIds(valid, msgs[0].toolCalls);
  }

  /** The tool messages after it become one user message with their results. */
  lemma {:induction false} AnswerIsConverted(valid: Validity, msgs: seq<ChatMessage>)
    requires AllPlain(msgs) && msgs != [] && msgs[0].role == ASSISTANT && ToolRun(msgs[1..]) > 0
    ensures var back, n := ToAnthropic(valid, msgs), ToolRun(msgs[1..]);
            && |back| > 1 && back[1].role == USER && ResultsIn(back[1]) == Answers(msgs[1..][..n])
            && back[2..] == ToAnthropic(valid, msgs[1..][n..])
  {
    var rest := msgs[1..];
    var back, tail := ToAnthropic(valid, msgs), ToAnthropic(valid, rest);
    CallIsConverted(valid, msgs);
    BackOfHead(valid, rest);
    HeadKeepsCalls(valid, rest);
    assert back[1] == tail[0] && back[2..] == tail[1..];
  }

  /** Without gaps the converse holds too. */
  lemma {:induction false} PairingComesFromChat(valid: Validity, msgs: seq<ChatMessage>)
    requires AllPlain(msgs) && NoGap(msgs)
    ensures AnthropicPaired(valid, ToAnthropic(valid, msgs)) <==> ChatPaired(msgs)
    decreases |msgs|
  {
    if msgs != [] {
      assert Plain(msgs[0]);
      assert NoGap(msgs[1..]);
      BackOfHead(valid, msgs);
      HeadKeepsCalls(valid, msgs);
      if msgs[0].role == TOOL {
        RunAnswers(msgs);
      } else if msgs[0].role == ASSISTANT {
        AssistantPairing(valid, msgs);
      } else {
        if msgs[0].role == USER {
          UserResults(msgs[0]);
        }
        PairingComesFromChat(valid, msgs[1..]);
      }
    }
  }

  lemma {:induction false} AssistantPairing(valid: Validity, msgs: seq<ChatMessage>)
    requires AllPlain(msgs) && NoGap(msgs) && msgs != [] && msgs[0].role == ASSISTANT
    ensures AnthropicPaired(valid, ToAnthropic(valid, msgs)) <==> ChatPaired(msgs)
    decreases |msgs|, 0
  {
    var rest := msgs[1..];
    var n := ToolRun(rest);
    CallIsConverted(valid, msgs);
    RunAnswers(rest);
    if msgs[0].toolCalls == [] {
      assert NoGap(rest);
      PairingComesFromChat(valid, rest);
      assert rest[0..] == rest;
    } else if n == 0 {
      NoAnswer(valid, msgs);
    } else {
      AnswerIsConverted(valid, msgs);
      assert NoGap(rest[n..]);
      PairingComesFromChat(valid, rest[n..]);
    }
  }

  /** Calls that no tool message follows are not answered in the Anthropic history either. */
  lemma {:induction false} NoAnswer(valid: Validity, msgs: seq<ChatMessage>)
    requires AllPlain(msgs) && NoGap(msgs) && msgs != [] && msgs[0].role == ASSISTANT && msgs[0].toolCalls != []
    requires ToolRun(msgs[1..]) == 0
    ensures !AnthropicPaired(valid, ToAnthropic(valid, msgs))
  {
    var rest := msgs[1..];
    BackOfHead(valid, msgs);
    AssistantUses(valid, msgs[0]);
    ValidCallIds(valid, msgs[0].toolCalls);
    if rest != [] {
      assert IsConverted(msgs[1]) && Plain(rest[0]);
      BackOfHead(valid, rest);
      if rest[0].role == USER {
        UserResults(rest[0]);
      }
      assert ToAnthropic(valid, msgs)[1] == ToAnthropic(valid, rest)[0];
    }
  }

  // ---- Gaps ----

  function SkipDropped(msgs: seq<ChatMessage>): (r: seq<ChatMessage>)
    ensures |r| <= |msgs| && (r != [] ==> IsConverted(r[0]))
  {
    if msgs != [] && !IsConverted(msgs[0]) then SkipDropped(msgs[1..]) else msgs
  }

  /** The history without the messages that are dropped directly after an assistant message with calls. */
  function Closed(msgs: seq<ChatMessage>): (r: seq<ChatMessage>)
    ensures msgs == [] <==> r == []
    ensures msgs != [] ==> r[0] == msgs[0]
    decreases |msgs|
  {
    if msgs == [] then []
    else [msgs[0]] + Closed(if Calling(msgs[0]) then SkipDropped(msgs[1..]) else msgs[1..])
  }

  lemma {:induction false} SkippingConverts(valid: Validity, msgs: seq<ChatMessage>)
    requires AllPlain(msgs)
    ensures AllPlain(SkipDropped(msgs)) && ToAnthropic(valid, SkipDropped(msgs)) == ToAnthropic(valid, msgs)
  {
    if msgs != [] && !IsConverted(msgs[0]) {
      BackOfHead(valid, msgs);
      SkippingConverts(valid, msgs[1..]);
    }
  }

  /** Runs of tool messages are not changed. */
  lemma {:induction false} ClosedRun(msgs: seq<ChatMessage>)
    ensures var n := ToolRun(msgs); Closed(msgs) == msgs[..n] + Closed(msgs[n..])
  {
    var n := ToolRun(msgs);
    if n == 0 {
      assert msgs[0..] == msgs;
    } else {
      var rest := msgs[1..];
      ClosedRun(rest);
      assert rest[n - 1..] == msgs[n..];
      Assoc([msgs[0]], rest[..n - 1], Closed(msgs[n..]));
      assert [msgs[0]] + rest[..n - 1] == msgs[..n];
    }
  }

  lemma {:induction false} RunInFront(tools: seq<ChatMessage>, rest: seq<ChatMessage>)
    requires (forall i | 0 <= i < |tools| :: tools[i].role == TOOL) && (rest != [] ==> rest[0].role != TOOL)
    ensures ToolRun(tools + rest) == |tools|
  {
    var all := tools + rest;
    assert forall i | 0 <= i < |tools| :: all[i] == tools[i];
    assert rest != [] ==> all[|tools|] == rest[0];
  }

  /** What closing leaves out is dropped by conversion anyway. */
  lemma {:induction false} ClosedConverts(valid: Validity, msgs: seq<ChatMessage>)
    requires AllPlain(msgs)
    ensures AllPlain(Closed(msgs)) && NoGap(Closed(msgs))
    ensures ToAnthropic(valid, Closed(msgs)) == ToAnthropic(valid, msgs)
    decreases |msgs|
  {
    if msgs != [] {
      var rest := if Calling(msgs[0]) then SkipDropped(msgs[1..]) else msgs[1..];
      SkippingConverts(valid, msgs[1..]);
      ClosedConverts(valid, rest);
      ClosedHead(msgs[0], Closed(rest));
      SameHead(valid, msgs, rest);
    }
  }

  lemma {:induction false} ClosedHead(m: ChatMessage, rest: seq<ChatMessage>)
    requires AllPlain(rest) && NoGap(rest) && Plain(m)
    requires Calling(m) && rest != [] ==> IsConverted(rest[0])
    ensures AllPlain([m] + rest) && NoGap([m] + rest)
  {
    var all := [m] + rest;
    forall i | 0 <= i < |all| - 1 && Calling(all[i]) ensures IsConverted(all[i + 1]) {
      if i > 0 {
        assert rest[i - 1] == all[i] && rest[i] == all[i + 1];
      }
    }
  }

  lemma {:induction false} SameHead(valid: Validity, msgs: seq<ChatMessage>, rest: seq<ChatMessage>)
    requires AllPlain(msgs) && msgs != [] && |rest| < |msgs| && AllPlain(Closed(msgs))
    requires Closed(msgs) == [msgs[0]] + Closed(rest) && (msgs[0].role == TOOL ==> rest == msgs[1..])
    requires ToAnthropic(valid, Closed(rest)) == ToAnthropic(valid, rest) == ToAnthropic(valid, msgs[1..])
    ensures ToAnthropic(valid, Closed(msgs)) == ToAnthropic(valid, msgs)
    decreases |msgs|, 0
  {
    assert Closed(msgs)[1..] == Closed(rest);
    if msgs[0].role == TOOL {
      var n := ToolRun(msgs);
      ClosedRun(msgs);
      RunInFront(msgs[..n], Closed(msgs[n..]));
      ClosedConverts(valid, msgs[n..]);
      SameRun(valid, msgs, n, Closed(msgs[n..]));
    }
  }

  lemma {:induction false} SameRun(valid: Validity, msgs: seq<ChatMessage>, n: nat, rest: seq<ChatMessage>)
    requires msgs != [] && msgs[0].role == TOOL && n == ToolRun(msgs) && ToolRun(msgs[..n] + rest) == n
    requires ToAnthropic(valid, rest) == ToAnthropic(valid, msgs[n..])
    ensures ToAnthropic(valid, msgs[..n] + rest) == ToAnthropic(valid, msgs)
  {
    var all := msgs[..n] + rest;
    assert all[..n] == msgs[..n] && all[n..] == rest && all[0] == msgs[0];
    assert Head(valid, all) == Head(valid, msgs);
  }

  /**
   Exactly when conversion gives a well-paired history: when the chat history is well-paired without the
   messages that are dropped directly after calls. So it pairs an ill-paired history if and only if that
   history has such a gap and closing its gaps pairs it.
   */
  lemma {:induction false} PairingIsThatOfClosed(valid: Validity, msgs: seq<ChatMessage>)
    requires AllPlain(msgs)
    ensures AnthropicPaired(valid, ToAnthropic(valid, msgs)) <==> ChatPaired(Closed(msgs))
    ensures ChatPaired(msgs) <==> NoGap(msgs) && ChatPaired(Closed(msgs))
  {
    ClosedConverts(valid, msgs);
    PairingComesFromChat(valid, Closed(msgs));
    if NoGap(msgs) {
      NothingToClose(msgs);
    } else {
      GapIsUnpaired(msgs);
    }
  }

  lemma {:induction false} NothingToClose(msgs: seq<ChatMessage>)
    requires NoGap(msgs)
    ensures Closed(msgs) == msgs
  {
    if msgs != [] {
      assert NoGap(msgs[1..]);
      NothingToClose(msgs[1..]);
    }
  }

  lemma {:induction false} GapIsUnpaired(msgs: seq<ChatMessage>)
    requires !NoGap(msgs)
    ensures !ChatPaired(msgs)
    decreases |msgs|
  {
    var i :| 0 <= i < |msgs| - 1 && Calling(msgs[i]) && !IsConverted(msgs[i + 1]);
    if i == 0 {
      assert |CallIds(msgs[0].toolCalls)| > 0;
      assert msgs[1..][0] == msgs[1];
      assert Answers(msgs[1..][..0]) == [];
    } else {
      var n := if msgs[0].role == ASSISTANT then ToolRun(msgs[1..]) else 0;
      var rest := msgs[1..][n..];
      assert forall j | 0 <= j < |rest| :: rest[j] == msgs[j + 1 + n];
      assert msgs[1..][i - 1].role == ASSISTANT;
      assert n <= i - 1;
      assert rest[i - 1 - n] == msgs[i] && rest[i - n] == msgs[i + 1];
      GapIsUnpaired(rest);
    }
  }

  /** A system message between a call and its result is dropped, which pairs an unpaired history. */
  lemma {:induction false} DroppedMessageClosesGap(valid: Validity, tc: ToolCall, system: Any, result: Any)
    ensures var msgs := [ChatMessage(ASSISTANT, Nil, [tc], ""), ChatMessage(SYSTEM, system, [], ""),
                         ChatMessage(TOOL, result, [], tc.id)];
            AllPlain(msgs) && !ChatPaired(msgs) && AnthropicPaired(valid, ToAnthropic(valid, msgs))
  {
    var call, dropped := ChatMessage(ASSISTANT, Nil, [tc], ""), ChatMessage(SYSTEM, system, [], "");
    var answer := ChatMessage(TOOL, result, [], tc.id);
    var msgs := [call, dropped, answer];
    assert !NoGap(msgs) by { assert !IsConverted(msgs[1]); }
    ClosesGap(call, dropped, answer);
    DirectlyAnswered(call, answer, tc);
    PairingIsThatOfClosed(valid, msgs);
  }

  lemma {:induction false} ClosesGap(call: ChatMessage, dropped: ChatMessage, answer: ChatMessage)
    requires Calling(call) && !IsConverted(dropped) && answer.role == TOOL
    ensures Closed([call, dropped, answer]) == [call, answer]
  {
    assert [call, dropped, answer][1..] == [dropped, answer] && [dropped, answer][1..] == [answer] && [answer][1..] == [];
    assert SkipDropped([dropped, answer]) == SkipDropped([answer]) == [answer];
    assert Closed([answer]) == [answer] + Closed([]);
  }

  lemma {:induction false} DirectlyAnswered(call: ChatMessage, answer: ChatMessage, tc: ToolCall)
    requires call.role == ASSISTANT && call.toolCalls == [tc] && answer.role == TOOL && answer.toolCallId == tc.id
    ensures ChatPaired([call, answer])
  {
    assert [call, answer][1..] == [answer] && [answer][1..] == [] && [answer][..1] == [answer];
    assert ToolRun([answer]) == 1;
    CallsOfOne(answer);
    assert CallIds([tc]) == [tc.id];
  }

  // ---- From Anthropic to chat ----

  lemma {:induction false} PairedHead(msgs: seq<ChatMessage>)
    requires ChatPaired(msgs)
    ensures msgs != [] ==> msgs[0].role != TOOL
  {
  }

  /** A plain message in front changes nothing. */
  lemma {:induction false} PlainInFront(others: seq<ChatMessage>, rest: seq<ChatMessage>)
    requires |others| <= 1 && (others != [] ==> others[0].role == USER)
    ensures ChatPaired(others + rest) <==> ChatPaired(rest)
  {
    if others == [] {
      assert others + rest == rest;
    } else {
      assert (others + rest)[1..] == rest;
    }
  }

  lemma {:induction false} AnsweredCalls(a: ChatMessage, tools: seq<ChatMessage>, rest: seq<ChatMessage>)
    requires a.role == ASSISTANT && Answers(tools) == CallIds(a.toolCalls) && ChatPaired(rest)
    requires forall i | 0 <= i < |tools| :: tools[i].role == TOOL
    ensures ChatPaired([a] + (tools + rest))
  {
    PairedHead(rest);
    ToolRunOf(tools, rest);
    assert ([a] + (tools + rest))[1..] == tools + rest;
    assert (tools + rest)[..|tools|] == tools && (tools + rest)[|tools|..] == rest;
  }

  /** The tool messages a user message gives, and the user message that may follow. */
  lemma {:induction false} UserParts(valid: Validity, m: AnthropicMessage) returns (tools: seq<ChatMessage>, others: seq<ChatMessage>)
    requires m.role == USER
    ensures MessageToChat(valid, m) == tools + others
    ensures forall i | 0 <= i < |tools| :: tools[i].role == TOOL
    ensures Answers(tools) == ResultsIn(m) && |tools| == |ResultsIn(m)|
    ensures |others| <= 1 && (others != [] ==> others[0].role == USER)
  {
    match DecodeBlocks(m.content)
    case None =>
      tools, others := [], MessageToChat(valid, m);
      assert [] + others == others;
    case Some(bs) =>
      tools := ToolMessages(OfKind(bs, TOOL_RESULT));
      others := MessageToChat(valid, m)[|tools|..];
      ToolMessagesOk(valid, OfKind(bs, TOOL_RESULT));
      ToolMessagesAnswer(OfKind(bs, TOOL_RESULT));
      ResultIds(tools);
  }

  /** A well-paired Anthropic conversation becomes a well-paired chat history. */
  lemma {:induction false} PairingSurvivesToChat(valid: Validity, history: seq<AnthropicMessage>)
    requires Conversation(history) && AnthropicPaired(valid, history)
    ensures ChatPaired(ToChat(valid, history))
    decreases |history|
  {
    if history != [] {
      assert history[0] in history;
      if history[0].role == USER {
        PairingSurvivesToChat(valid, history[1..]);
        var tools, others := UserParts(valid, history[0]);
        assert tools + others == others;
        PlainInFront(others, ToChat(valid, history[1..]));
      } else {
        AssistantToChatPaired(valid, history);
      }
    }
  }

  lemma {:induction false} AssistantToChatPaired(valid: Validity, history: seq<AnthropicMessage>)
    requires Conversation(history) && AnthropicPaired(valid, history)
    requires history != [] && history[0].role == ASSISTANT
    ensures ChatPaired(ToChat(valid, history))
    decreases |history|, 0
  {
    var a := AssistantToChat(valid, history[0].content);
    assert a.toolCalls == UsesIn(valid, history[0]);
    if CallIds(a.toolCalls) == [] {
      var rest := ToChat(valid, history[1..]);
      PairingSurvivesToChat(valid, history[1..]);
      AnsweredCalls(a, [], rest);
      assert [] + rest == rest;
    } else {
      var rest := ToChat(valid, history[2..]);
      PairingSurvivesToChat(valid, history[2..]);
      var tools, others := UserParts(valid, history[1]);
      PlainInFront(others, rest);
      AnsweredCalls(a, tools, others + rest);
      assert history[1..][1..] == history[2..];
      Assoc(tools, others, rest);
    }
  }
}
