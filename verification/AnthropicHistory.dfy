/**
 Converting message histories between the Anthropic format and the internal chat format
 (agent/internal/agent/anthropic.go).
 */
module AnthropicHistory {
  import opened Text

  // ---- Messages ----

  /** The `any` content of a message, as far as the conversions distinguish its dynamic types. */
  datatype Any =
    | Nil
    | Str(s: string)
    | Blocks(bs: seq<Block>)           // []AnthropicContentBlock
    | TextBlocks(cs: seq<TextItem>)    // []ContentBlock
    | Items(items: seq<Item>)          // []any, from decoded JSON

  /** `AnthropicContentBlock`. */
  datatype Block = Block(kind: string, text: string, thinking: string, id: string, name: string,
                         input: string, toolUseId: string, content: Any)

  /** `ContentBlock`. */
  datatype TextItem = TextItem(kind: string, text: string)

  /** A decoded JSON value: its `text` entry if it is an object with one, and the block it re-decodes to. */
  datatype Item = Item(text: Option<string>, block: Option<Block>)

  datatype AnthropicMessage = AnthropicMessage(role: string, content: Any)

  datatype ToolCall = ToolCall(id: string, kind: string, name: string, arguments: string)

  datatype ChatMessage = ChatMessage(role: string, content: Any, toolCalls: seq<ToolCall>, toolCallId: string)

  const USER := "user"
  const ASSISTANT := "assistant"
  const TOOL := "tool"
  const SYSTEM := "system"
  const TOOL_USE := "tool_use"
  const TOOL_RESULT := "tool_result"

  /** `json.Valid`; the empty object is valid JSON. */
  type Validity = v: string -> bool | v("{}") witness _ => true

  function ValidInput(valid: Validity, input: string): string {
    if valid(input) then input else "{}"
  }

  // ---- Texts ----

  function Join(parts: seq<string>, sep: string): string {
    if parts == [] then ""
    else if |parts| == 1 then parts[0]
    else parts[0] + sep + Join(parts[1..], sep)
  }

  function BlockTexts(bs: seq<Block>): seq<string> {
    if bs == [] then []
    else (if bs[0].kind == "text" && bs[0].text != "" then [bs[0].text] else []) + BlockTexts(bs[1..])
  }

  function ItemTexts(items: seq<Item>): seq<string> {
    if items == [] then []
    else (if items[0].text.Some? && items[0].text.value != "" then [items[0].text.value] else []) + ItemTexts(items[1..])
  }

  function ExtractAnthropicText(v: Any): string {
    match v
    case Str(s) => s
    case Blocks(bs) => Join(BlockTexts(bs), " ")
    case Items(items) => Join(ItemTexts(items), " ")
    case _ => ""
  }

  function ExtractTextContent(v: Any): string {
    match v
    case Str(s) => s
    case Items(items) => Join(ItemTexts(items), " ")
    case _ => ""
  }

  function DecodedItems(items: seq<Item>): seq<Block> {
    if items == [] then []
    else (if items[0].block.Some? then [items[0].block.value] else []) + DecodedItems(items[1..])
  }

  /** `decodeAnthropicBlocks`. */
  function DecodeBlocks(content: Any): Option<seq<Block>> {
    match content
    case Blocks(bs) => Some(bs)
    case Items(items) => Some(DecodedItems(items))
    case _ => None
  }

  // ---- Anthropic to chat ----

  /** The blocks of kind `kind`, or all others, in order. */
  function OfKind(bs: seq<Block>, kind: string): seq<Block> {
    if bs == [] then []
    else (if bs[0].kind == kind then [bs[0]] else []) + OfKind(bs[1..], kind)
  }

  function NotOfKind(bs: seq<Block>, kind: string): seq<Block> {
    if bs == [] then []
    else (if bs[0].kind != kind then [bs[0]] else []) + NotOfKind(bs[1..], kind)
  }

  function ToolMessage(b: Block): ChatMessage {
    ChatMessage(TOOL, Str(ExtractAnthropicText(b.content)), [], b.toolUseId)
  }

  function ToolMessages(results: seq<Block>): seq<ChatMessage> {
    if results == [] then [] else [ToolMessage(results[0])] + ToolMessages(results[1..])
  }

  function UserToChat(content: Any): seq<ChatMessage> {
    match DecodeBlocks(content)
    case None => [ChatMessage(USER, Str(ExtractAnthropicText(content)), [], "")]
    case Some(bs) =>
      var others := NotOfKind(bs, TOOL_RESULT);
      ToolMessages(OfKind(bs, TOOL_RESULT))
      + if others != [] then [ChatMessage(USER, Blocks(others), [], "")] else []
  }

  function CallOf(valid: Validity, b: Block): ToolCall {
    ToolCall(b.id, "function", b.name, ValidInput(valid, b.input))
  }

  function CallsOf(valid: Validity, uses: seq<Block>): seq<ToolCall> {
    if uses == [] then [] else [CallOf(valid, uses[0])] + CallsOf(valid, uses[1..])
  }

  function AssistantToChat(valid: Validity, content: Any): ChatMessage {
    match DecodeBlocks(content)
    case None => ChatMessage(ASSISTANT, Str(ExtractAnthropicText(content)), [], "")
    case Some(bs) =>
      var remaining := NotOfKind(bs, TOOL_USE);
      ChatMessage(ASSISTANT, if remaining != [] then Blocks(remaining) else Nil, CallsOf(valid, OfKind(bs, TOOL_USE)), "")
  }

  function MessageToChat(valid: Validity, m: AnthropicMessage): seq<ChatMessage> {
    if m.role == USER then UserToChat(m.content)
    else if m.role == ASSISTANT then [AssistantToChat(valid, m.content)]
    else [ChatMessage(m.role, Str(ExtractAnthropicText(m.content)), [], "")]
  }

  function ToChat(valid: Validity, history: seq<AnthropicMessage>): seq<ChatMessage> {
    if history == [] then []
    else MessageToChat(valid, history[0]) + ToChat(valid, history[1..])
  }

  function SystemToChat(system: Any): seq<ChatMessage> {
    var sys := ExtractAnthropicText(system);
    if sys != "" then [ChatMessage(SYSTEM, Str(sys), [], "")] else []
  }

  // ---- Chat to Anthropic ----

  function ResultBlock(m: ChatMessage): Block {
    Block(TOOL_RESULT, "", "", "", "", "", m.toolCallId, Str(ExtractTextContent(m.content)))
  }

  function ResultBlocks(msgs: seq<ChatMessage>): seq<Block> {
    if msgs == [] then [] else [ResultBlock(msgs[0])] + ResultBlocks(msgs[1..])
  }

  function UseBlock(valid: Validity, tc: ToolCall): Block {
    Block(TOOL_USE, "", "", tc.id, tc.name, ValidInput(valid, tc.arguments), "", Nil)
  }

  function UseBlocks(valid: Validity, calls: seq<ToolCall>): seq<Block> {
    if calls == [] then [] else [UseBlock(valid, calls[0])] + UseBlocks(valid, calls[1..])
  }

  function TextOnly(kind: string, text: string): Block {
    Block(kind, text, "", "", "", "", "", Nil)
  }

  function TextOnlyBlocks(cs: seq<TextItem>): seq<Block> {
    if cs == [] then [] else [TextOnly(cs[0].kind, cs[0].text)] + TextOnlyBlocks(cs[1..])
  }

  function ContentBlocks(content: Any): seq<Block> {
    match content
    case Nil => []
    case Str(s) => if s != "" then [TextOnly("text", s)] else []
    case Blocks(bs) => bs
    case TextBlocks(cs) => TextOnlyBlocks(cs)
    case Items(items) => DecodedItems(items)
  }

  function AssistantToAnthropic(valid: Validity, m: ChatMessage): seq<Block> {
    ContentBlocks(m.content) + UseBlocks(valid, m.toolCalls)
  }

  /** `internalContentToAnthropic`. */
  function UserContent(content: Any): Any {
    match content
    case TextBlocks(cs) => Blocks(TextOnlyBlocks(cs))
    case Nil => Str("")
    case _ => content
  }

  /** How many tool messages `msgs` starts with. */
  function ToolRun(msgs: seq<ChatMessage>): (n: nat)
    ensures n <= |msgs|
    ensures forall i | 0 <= i < n :: msgs[i].role == TOOL
    ensures n < |msgs| ==> msgs[n].role != TOOL
  {
    if msgs != [] && msgs[0].role == TOOL then 1 + ToolRun(msgs[1..]) else 0
  }

  /** What the first chat messages become, and how many they are: a maximal run of tool messages is one. */
  function Head(valid: Validity, msgs: seq<ChatMessage>): (r: (seq<AnthropicMessage>, nat))
    requires msgs != []
    ensures 1 <= r.1 <= |msgs|
  {
    var m := msgs[0];
    if m.role == TOOL then
      var n := ToolRun(msgs);
      ([AnthropicMessage(USER, Blocks(ResultBlocks(msgs[..n])))], n)
    else if m.role == USER then ([AnthropicMessage(USER, UserContent(m.content))], 1)
    else if m.role == ASSISTANT then ([AnthropicMessage(ASSISTANT, Blocks(AssistantToAnthropic(valid, m)))], 1)
    else ([], 1)
  }

  function ToAnthropic(valid: Validity, msgs: seq<ChatMessage>): seq<AnthropicMessage> {
    if msgs == [] then []
    else
      var head := Head(valid, msgs);
      head.0 + ToAnthropic(valid, msgs[head.1..])
  }

  function SystemPart(m: ChatMessage): seq<string> {
    if m.role == SYSTEM then [ExtractTextContent(m.content)] else []
  }

  function SystemParts(msgs: seq<ChatMessage>): seq<string> {
    if msgs == [] then [] else SystemPart(msgs[0]) + SystemParts(msgs[1..])
  }

  // ---- The conversions as the code performs them ----

  method AnthropicToChatMessages(valid: Validity, system: Any, messages: seq<AnthropicMessage>)
    returns (result: seq<ChatMessage>)
    ensures result == SystemToChat(system) + ToChat(valid, messages)
  {
    result := [];
    var sys := ExtractAnthropicText(system);
    if sys != "" {
      result := result + [ChatMessage(SYSTEM, Str(sys), [], "")];
    }
    ghost var start := result;
    assert messages[0..] == messages;
    for i := 0 to |messages|
      invariant start + ToChat(valid, messages) == result + ToChat(valid, messages[i..])
    {
      var msgs := ConvertMessage(valid, messages[i]);
      ConvertsOn(valid, messages, i, result);
      result := result + msgs;
    }
    assert messages[|messages|..] == [] && result + [] == result;
  }

  lemma {:induction false} ConvertsOn(valid: Validity, messages: seq<AnthropicMessage>, i: nat, done: seq<ChatMessage>)
    requires i < |messages|
    ensures done + ToChat(valid, messages[i..])
            == done + MessageToChat(valid, messages[i]) + ToChat(valid, messages[i + 1..])
  {
    assert messages[i..] == [messages[i]] + messages[i + 1..];
    Assoc(done, MessageToChat(valid, messages[i]), ToChat(valid, messages[i + 1..]));
  }

  /** One round of that loop. */
  method ConvertMessage(valid: Validity, m: AnthropicMessage) returns (msgs: seq<ChatMessage>)
    ensures msgs == MessageToChat(valid, m)
  {
    if m.role == USER {
      msgs := ConvertAnthropicUserMsg(m.content);
    } else if m.role == ASSISTANT {
      var msg := ConvertAnthropicAssistantMsg(valid, m.content);
      msgs := [msg];
    } else {
      msgs := [ChatMessage(m.role, Str(ExtractAnthropicText(m.content)), [], "")];
    }
  }

  method ConvertAnthropicUserMsg(content: Any) returns (msgs: seq<ChatMessage>)
    ensures msgs == UserToChat(content)
  {
    var decoded := DecodeBlocks(content);
    if decoded.None? {
      return [ChatMessage(USER, Str(ExtractAnthropicText(content)), [], "")];
    }
    var toolResults, otherBlocks := Partition(decoded.value, TOOL_RESULT);
    msgs := [];
    assert toolResults[0..] == toolResults;
    for i := 0 to |toolResults|
      invariant ToolMessages(toolResults) == msgs + ToolMessages(toolResults[i..])
    {
      var tr := toolResults[i];
      assert toolResults[i..] == [tr] + toolResults[i + 1..];
      Assoc(msgs, [ToolMessage(tr)], ToolMessages(toolResults[i + 1..]));
      msgs := msgs + [ChatMessage(TOOL, Str(ExtractAnthropicText(tr.content)), [], tr.toolUseId)];
    }
    assert toolResults[|toolResults|..] == [];
    if |otherBlocks| > 0 {
      msgs := msgs + [ChatMessage(USER, Blocks(otherBlocks), [], "")];
    }
  }

  /** The loop that sorts blocks into those of one kind and the others. */
  method Partition(blocks: seq<Block>, kind: string) returns (these: seq<Block>, others: seq<Block>)
    ensures these == OfKind(blocks, kind) && others == NotOfKind(blocks, kind)
  {
    these, others := [], [];
    assert blocks[0..] == blocks;
    for i := 0 to |blocks|
      invariant OfKind(blocks, kind) == these + OfKind(blocks[i..], kind)
      invariant NotOfKind(blocks, kind) == others + NotOfKind(blocks[i..], kind)
    {
      var b := blocks[i];
      assert blocks[i..] == [b] + blocks[i + 1..];
      if b.kind == kind {
        Assoc(these, [b], OfKind(blocks[i + 1..], kind));
        these := these + [b];
      } else {
        Assoc(others, [b], NotOfKind(blocks[i + 1..], kind));
        others := others + [b];
      }
    }
    assert blocks[|blocks|..] == [];
  }

  method ConvertAnthropicAssistantMsg(valid: Validity, content: Any) returns (msg: ChatMessage)
    ensures msg == AssistantToChat(valid, content)
  {
    var decoded := DecodeBlocks(content);
    if decoded.None? {
      return ChatMessage(ASSISTANT, Str(ExtractAnthropicText(content)), [], "");
    }
    var uses, remaining := Partition(decoded.value, TOOL_USE);
    var toolCalls := CollectToolCalls(valid, uses);
    msg := ChatMessage(ASSISTANT, Nil, toolCalls, "");
    if |remaining| > 0 {
      msg := msg.(content := Blocks(remaining));
    }
  }

  method CollectToolCalls(valid: Validity, uses: seq<Block>) returns (toolCalls: seq<ToolCall>)
    ensures toolCalls == CallsOf(valid, uses)
  {
    toolCalls := [];
    assert uses[0..] == uses;
    for i := 0 to |uses|
      invariant CallsOf(valid, uses) == toolCalls + CallsOf(valid, uses[i..])
    {
      var b := uses[i];
      assert uses[i..] == [b] + uses[i + 1..];
      Assoc(toolCalls, [CallOf(valid, b)], CallsOf(valid, uses[i + 1..]));
      var input := b.input;
      if !valid(input) {
        input := "{}";
      }
      toolCalls := toolCalls + [ToolCall(b.id, "function", b.name, input)];
    }
    assert uses[|uses|..] == [];
  }

  method ChatMessagesToAnthropic(valid: Validity, msgs: seq<ChatMessage>)
    returns (system: string, out: seq<AnthropicMessage>)
    ensures system == Join(SystemParts(msgs), "\n")
    ensures out == ToAnthropic(valid, msgs)
  {
    var systemParts: seq<string> := [];
    out := [];
    var i := 0;
    assert msgs[0..] == msgs;
    while i < |msgs|
      invariant 0 <= i <= |msgs|
      invariant SystemParts(msgs) == systemParts + SystemParts(msgs[i..])
      invariant ToAnthropic(valid, msgs) == out + ToAnthropic(valid, msgs[i..])
    {
      var part, converted, next := ConvertAt(valid, msgs, i);
      ConvertedAt(valid, msgs, i, next, systemParts, out);
      systemParts := systemParts + part;
      out := out + converted;
      i := next;
    }
    assert msgs[|msgs|..] == [] && systemParts + [] == systemParts && out + [] == out;
    system := Join(systemParts, "\n");
  }

  lemma {:induction false} ConvertedAt(valid: Validity, msgs: seq<ChatMessage>, i: nat, next: int,
                                       systemParts: seq<string>, out: seq<AnthropicMessage>)
    requires i < |msgs| && next == i + Head(valid, msgs[i..]).1
    ensures systemParts + SystemParts(msgs[i..]) == systemParts + SystemPart(msgs[i]) + SystemParts(msgs[next..])
    ensures out + ToAnthropic(valid, msgs[i..]) == out + Head(valid, msgs[i..]).0 + ToAnthropic(valid, msgs[next..])
  {
    var head := Head(valid, msgs[i..]);
    assert msgs[i..][head.1..] == msgs[next..];
    SystemOfHead(valid, msgs[i..]);
    Assoc(out, head.0, ToAnthropic(valid, msgs[next..]));
    Assoc(systemParts, SystemPart(msgs[i]), SystemParts(msgs[next..]));
  }

  /** One round of the loop, from message `i` on. */
  method ConvertAt(valid: Validity, msgs: seq<ChatMessage>, i: nat)
    returns (part: seq<string>, converted: seq<AnthropicMessage>, next: nat)
    requires i < |msgs|
    ensures part == SystemPart(msgs[i])
    ensures (converted, next - i) == Head(valid, msgs[i..])
  {
    var m := msgs[i];
    part, converted, next := [], [], i + 1;
    match m.role {
      case "system" =>
        part := [ExtractTextContent(m.content)];
      case "user" =>
        converted := [AnthropicMessage(USER, UserContent(m.content))];
      case "tool" =>
        var blocks;
        blocks, next := GroupTools(msgs, i);
        converted := [AnthropicMessage(USER, Blocks(blocks))];
        assert msgs[i..][..next - i] == msgs[i..next];
      case "assistant" =>
        converted := [AnthropicMessage(ASSISTANT, Blocks(AssistantToAnthropic(valid, m)))];
      case _ =>
    }
  }

  /** System texts come from system messages only. */
  lemma {:induction false} SystemOfHead(valid: Validity, msgs: seq<ChatMessage>)
    requires msgs != []
    ensures SystemParts(msgs) == SystemPart(msgs[0]) + SystemParts(msgs[Head(valid, msgs).1..])
  {
    if msgs[0].role == TOOL {
      NoSystemInTools(msgs, ToolRun(msgs));
    }
  }

  lemma {:induction false} NoSystemInTools(msgs: seq<ChatMessage>, n: nat)
    requires n <= |msgs| && forall i | 0 <= i < n :: msgs[i].role == TOOL
    ensures SystemParts(msgs) == SystemParts(msgs[n..])
  {
    if n > 0 {
      NoSystemInTools(msgs[1..], n - 1);
      assert msgs[1..][n - 1..] == msgs[n..];
    }
  }

  lemma {:induction false} ResultBlocksSnoc(msgs: seq<ChatMessage>, m: ChatMessage)
    ensures ResultBlocks(msgs + [m]) == ResultBlocks(msgs) + [ResultBlock(m)]
  {
    if msgs != [] {
      assert (msgs + [m])[1..] == msgs[1..] + [m];
      ResultBlocksSnoc(msgs[1..], m);
    }
  }

  /** The inner loop: the result blocks of the tool messages from `i` on, and where they end. */
  method GroupTools(msgs: seq<ChatMessage>, i: nat) returns (blocks: seq<Block>, next: nat)
    requires i < |msgs| && msgs[i].role == TOOL
    ensures next == i + ToolRun(msgs[i..])
    ensures blocks == ResultBlocks(msgs[i..next])
  {
    blocks := [ResultBlock(msgs[i])];
    next := i + 1;
    assert msgs[i..next] == [msgs[i]] && msgs[i..][1..] == msgs[next..];
    while next < |msgs| && msgs[next].role == TOOL
      invariant i < next <= |msgs|
      invariant blocks == ResultBlocks(msgs[i..next])
      invariant ToolRun(msgs[i..]) == next - i + ToolRun(msgs[next..])
    {
      ResultBlocksSnoc(msgs[i..next], msgs[next]);
      assert msgs[i..next] + [msgs[next]] == msgs[i..next + 1];
      assert msgs[next..][1..] == msgs[next + 1..];
      blocks := blocks + [ResultBlock(msgs[next])];
      next := next + 1;
    }
  }
}
