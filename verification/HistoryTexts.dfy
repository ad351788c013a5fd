/**
 What the blocks and texts of a message become when it is converted, block by block
 (agent/internal/agent/anthropic.go:30-120, 171-325).
 */
module HistoryTexts {
  import opened Text
  import opened AnthropicHistory
  import opened HistoryRoundTrip

  // ---- Content decoded from JSON ----

  ghost predicate DecodesTo(items: seq<Item>, bs: seq<Block>) {
    |items| == |bs| && forall i | 0 <= i < |bs| :: items[i].block == Some(bs[i])
  }

  lemma {:induction false} AllDecode(items: seq<Item>, bs: seq<Block>)
    requires DecodesTo(items, bs)
    ensures DecodedItems(items) == bs
  {
    if bs != [] {
      AllDecode(items[1..], bs[1..]);
    }
  }

  lemma {:induction false} DecodedAppend(a: seq<Item>, b: seq<Item>)
    ensures DecodedItems(a + b) == DecodedItems(a) + DecodedItems(b)
  {
    if a == [] {
      assert a + b == b;
    } else {
      assert (a + b)[1..] == a[1..] + b;
      DecodedAppend(a[1..], b);
      Assoc(DecodedItems(a[..1]), DecodedItems(a[1..]), DecodedItems(b));
    }
  }

  /** The conversions of a message with this content, to chat form and back. */
  function Conversions(valid: Validity, content: Any, calls: seq<ToolCall>): (seq<ChatMessage>, ChatMessage, seq<Block>) {
    (MessageToChat(valid, AnthropicMessage(USER, content)), AssistantToChat(valid, content),
     AssistantToAnthropic(valid, ChatMessage(ASSISTANT, content, calls, "")))
  }

  /** A list decoded from JSON is converted like the list of the blocks that it decodes to. */
  lemma {:induction false} ItemsConvertAsBlocks(valid: Validity, items: seq<Item>, bs: seq<Block>, calls: seq<ToolCall>)
    requires DecodesTo(items, bs)
    ensures Conversions(valid, Items(items), calls) == Conversions(valid, Blocks(bs), calls)
  {
    AllDecode(items, bs);
  }

  /** An element that does not decode can be left out. */
  lemma {:induction false} UndecodedIsSkipped(valid: Validity, a: seq<Item>, x: Item, b: seq<Item>, calls: seq<ToolCall>)
    requires x.block.None?
    ensures Conversions(valid, Items(a + [x] + b), calls) == Conversions(valid, Items(a + b), calls)
  {
    DecodedAppend(a + [x], b);
    DecodedAppend(a, [x]);
    DecodedAppend(a, b);
    assert DecodedItems([x]) == [] + DecodedItems([]) && DecodedItems(a) + [] == DecodedItems(a);
  }

  // ---- Blocks of a message ----

  /** `bs` has the blocks of `these`, all of kind `kind`, and of `others`, of other kinds, in these orders. */
  ghost predicate Merges(bs: seq<Block>, these: seq<Block>, others: seq<Block>, kind: string) {
    if bs == [] then these == [] && others == []
    else if bs[0].kind == kind then these != [] && these[0] == bs[0] && Merges(bs[1..], these[1..], others, kind)
    else others != [] && others[0] == bs[0] && Merges(bs[1..], these, others[1..], kind)
  }

  lemma {:induction false} KindsMerge(bs: seq<Block>, kind: string)
    ensures Merges(bs, OfKind(bs, kind), NotOfKind(bs, kind), kind)
  {
    if bs != [] {
      KindsMerge(bs[1..], kind);
      var these, others := OfKind(bs[1..], kind), NotOfKind(bs[1..], kind);
      assert [] + these == these && [] + others == others;
      assert ([bs[0]] + these)[1..] == these && ([bs[0]] + others)[1..] == others;
    }
  }

  ghost predicate IsToolMessage(m: ChatMessage, result: Block) {
    && m.role == "tool" && m.toolCallId == result.toolUseId && m.toolCalls == []
    && m.content == Str(ExtractAnthropicText(result.content))
  }

  /** A user message becomes one tool message per result and then one user message with all other blocks, if any. */
  lemma {:induction false} UserBlocks(valid: Validity, bs: seq<Block>) returns (results: seq<Block>, others: seq<Block>)
    ensures Merges(bs, results, others, "tool_result")
    ensures var r := MessageToChat(valid, AnthropicMessage("user", Blocks(bs)));
            && |r| == |results| + (if others == [] then 0 else 1)
            && (forall i | 0 <= i < |results| :: IsToolMessage(r[i], results[i]))
            && (others != [] ==> r[|results|] == ChatMessage("user", Blocks(others), [], ""))
  {
    results, others := OfKind(bs, TOOL_RESULT), NotOfKind(bs, TOOL_RESULT);
    KindsMerge(bs, TOOL_RESULT);
    ToolMessagesOk(valid, results);
  }

  ghost predicate IsCallOf(valid: Validity, call: ToolCall, use: Block) {
    && call.id == use.id && call.kind == "function" && call.name == use.name
    && call.arguments == if valid(use.input) then use.input else "{}"
  }

  /** An assistant message keeps all blocks but the tool uses, which become calls. */
  lemma {:induction false} AssistantBlocks(valid: Validity, bs: seq<Block>) returns (uses: seq<Block>, others: seq<Block>)
    ensures Merges(bs, uses, others, "tool_use")
    ensures var r := MessageToChat(valid, AnthropicMessage("assistant", Blocks(bs)));
            && |r| == 1 && r[0].role == "assistant" && r[0].toolCallId == ""
            && r[0].content == (if others == [] then Nil else Blocks(others))
            && |r[0].toolCalls| == |uses| && forall i | 0 <= i < |uses| :: IsCallOf(valid, r[0].toolCalls[i], uses[i])
  {
    uses, others := OfKind(bs, TOOL_USE), NotOfKind(bs, TOOL_USE);
    KindsMerge(bs, TOOL_USE);
    CallsOk(valid, uses);
  }

  /** Content that is no list becomes its text, and so does the content of messages of other roles. */
  lemma {:induction false} TextMessages(valid: Validity, m: AnthropicMessage)
    requires (m.role == "user" || m.role == "assistant") ==> !m.content.Blocks? && !m.content.Items?
    ensures MessageToChat(valid, m) == [ChatMessage(m.role, Str(ExtractAnthropicText(m.content)), [], "")]
  {
  }

  // ---- Texts ----

  lemma {:induction false} JoinSnoc(parts: seq<string>, x: string, sep: string)
    ensures Join(parts + [x], sep) == if parts == [] then x else Join(parts, sep) + sep + x
  {
    if parts == [] {
      assert [] + [x] == [x];
    } else {
      assert (parts + [x])[1..] == parts[1..] + [x];
      JoinSnoc(parts[1..], x, sep);
      if |parts| == 1 {
        assert parts[1..] == [];
      } else {
        Assoc(parts[0] + sep, Join(parts[1..], sep) + sep, x);
        Assoc(parts[0] + sep, Join(parts[1..], sep), sep);
      }
    }
  }

  lemma {:induction false} JoinIsEmpty(parts: seq<string>, sep: string)
    requires "" !in parts
    ensures Join(parts, sep) == "" <==> parts == []
  {
    if |parts| == 1 {
      assert parts[0] in parts;
    } else if parts != [] {
      assert parts[0] in parts;
    }
  }

  /** One text more: texts are separated by single spaces, and empty ones skipped. */
  function WithText(before: string, text: string): string {
    if text == "" then before else if before == "" then text else before + " " + text
  }

  lemma {:induction false} BlockTextsSnoc(bs: seq<Block>, b: Block)
    ensures BlockTexts(bs + [b]) == BlockTexts(bs) + (if b.kind == "text" && b.text != "" then [b.text] else [])
    ensures "" !in BlockTexts(bs)
  {
    if bs == [] {
      assert [] + [b] == [b] && [b][1..] == [];
    } else {
      assert (bs + [b])[1..] == bs[1..] + [b];
      BlockTextsSnoc(bs[1..], b);
    }
  }

  lemma {:induction false} ItemTextsSnoc(items: seq<Item>, x: Item)
    ensures ItemTexts(items + [x]) == ItemTexts(items) + (if x.text.Some? && x.text.value != "" then [x.text.value] else [])
    ensures "" !in ItemTexts(items)
  {
    if items == [] {
      assert [] + [x] == [x] && [x][1..] == [];
    } else {
      assert (items + [x])[1..] == items[1..] + [x];
      ItemTextsSnoc(items[1..], x);
    }
  }

  lemma {:induction false} JoinText(parts: seq<string>, text: string)
    requires "" !in parts
    ensures Join(parts + (if text == "" then [] else [text]), " ") == WithText(Join(parts, " "), text)
  {
    JoinSnoc(parts, text, " ");
    JoinIsEmpty(parts, " ");
    assert parts + [] == parts;
  }

  /** The text of a list of blocks is that of its text blocks. */
  lemma {:induction false} TextOfBlocks(bs: seq<Block>, b: Block)
    ensures ExtractAnthropicText(Blocks([])) == ""
    ensures ExtractAnthropicText(Blocks(bs + [b]))
            == WithText(ExtractAnthropicText(Blocks(bs)), if b.kind == "text" then b.text else "")
  {
    BlockTextsSnoc(bs, b);
    JoinText(BlockTexts(bs), if b.kind == "text" then b.text else "");
  }

  /** The text of a list decoded from JSON is that of the elements that have one. */
  lemma {:induction false} TextOfItems(items: seq<Item>, x: Item)
    ensures ExtractAnthropicText(Items([])) == ""
    ensures ExtractAnthropicText(Items(items + [x]))
            == WithText(ExtractAnthropicText(Items(items)), if x.text.Some? then x.text.value else "")
    ensures ExtractTextContent(Items(items)) == ExtractAnthropicText(Items(items))
  {
    ItemTextsSnoc(items, x);
    JoinText(ItemTexts(items), if x.text.Some? then x.text.value else "");
  }

  lemma {:induction false} TextOfText(s: string)
    ensures ExtractAnthropicText(Str(s)) == s && ExtractTextContent(Str(s)) == s
    ensures ExtractAnthropicText(Nil) == "" && ExtractTextContent(Nil) == ""
  {
  }

  // ---- The system text ----

  /** The system text of a chat history: the texts of its system messages, one per line. */
  function SystemOf(msgs: seq<ChatMessage>): string {
    Join(SystemParts(msgs), "\n")
  }

  ghost predicate HasSystem(msgs: seq<ChatMessage>) {
    exists i :: 0 <= i < |msgs| && msgs[i].role == "system"
  }

  lemma {:induction false} SystemPartsSnoc(msgs: seq<ChatMessage>, m: ChatMessage)
    ensures SystemParts(msgs + [m]) == SystemParts(msgs) + SystemPart(m)
    ensures SystemParts(msgs) != [] <==> HasSystem(msgs)
  {
    if msgs == [] {
      assert [] + [m] == [m] && [m][1..] == [];
      assert SystemPart(m) + [] == SystemPart(m);
    } else {
      assert (msgs + [m])[1..] == msgs[1..] + [m];
      SystemPartsSnoc(msgs[1..], m);
      Assoc(SystemPart(msgs[0]), SystemParts(msgs[1..]), SystemPart(m));
      if HasSystem(msgs) && msgs[0].role != "system" {
        var i :| 0 <= i < |msgs| && msgs[i].role == "system";
        assert msgs[1..][i - 1].role == "system";
      }
      if HasSystem(msgs[1..]) {
        var i :| 0 <= i < |msgs[1..]| && msgs[1..][i].role == "system";
        assert msgs[i + 1].role == "system";
      }
    }
  }

  lemma {:induction false} SystemOfMore(msgs: seq<ChatMessage>, m: ChatMessage)
    ensures SystemOf(msgs + [m]) ==
              if m.role != "system" then SystemOf(msgs)
              else if HasSystem(msgs) then SystemOf(msgs) + "\n" + ExtractTextContent(m.content)
              else ExtractTextContent(m.content)
  {
    SystemPartsSnoc(msgs, m);
    assert SystemParts(msgs) + [] == SystemParts(msgs);
    JoinSnoc(SystemParts(msgs), ExtractTextContent(m.content), "\n");
  }

  lemma {:induction false} NoSystem(msgs: seq<ChatMessage>)
    requires !HasSystem(msgs)
    ensures SystemParts(msgs) == []
  {
    SystemPartsSnoc(msgs, ChatMessage("", Nil, [], ""));
  }

  /** The system text of a request comes back unchanged. */
  lemma {:induction false} SystemComesBack(valid: Validity, system: Any, history: seq<AnthropicMessage>)
    requires Conversation(history)
    ensures SystemOf(SystemToChat(system) + ToChat(valid, history)) == ExtractAnthropicText(system)
  {
    var text, chat := ExtractAnthropicText(system), ToChat(valid, history);
    ChatIsOk(valid, history);
    forall i | 0 <= i < |chat| ensures chat[i].role != "system" {
      assert ChatOk(valid, chat[i]);
    }
    NoSystem(chat);
    if text == "" {
      assert [] + chat == chat;
    } else {
      var m := ChatMessage(SYSTEM, Str(text), [], "");
      assert ([m] + chat)[1..] == chat && [text] + [] == [text];
    }
  }

  // ---- The way back ----

  ghost predicate IsText(b: Block, kind: string, text: string) {
    b == Block(kind, text, "", "", "", "", "", Nil)
  }

  ghost predicate AreTexts(bs: seq<Block>, cs: seq<TextItem>) {
    |bs| == |cs| && forall i | 0 <= i < |cs| :: IsText(bs[i], cs[i].kind, cs[i].text)
  }

  lemma {:induction false} TextOnlyAreTexts(cs: seq<TextItem>)
    ensures AreTexts(TextOnlyBlocks(cs), cs)
  {
    if cs != [] {
      TextOnlyAreTexts(cs[1..]);
    }
  }

  ghost predicate IsUseOf(valid: Validity, b: Block, call: ToolCall) {
    b == Block("tool_use", "", "", call.id, call.name, if valid(call.arguments) then call.arguments else "{}", "", Nil)
  }

  /** What the content of an assistant message becomes. */
  ghost predicate ContentBack(content: Any, bs: seq<Block>) {
    match content
    case Nil => bs == []
    case Str(s) => if s == "" then bs == [] else |bs| == 1 && IsText(bs[0], "text", s)
    case Blocks(blocks) => bs == blocks
    case TextBlocks(cs) => AreTexts(bs, cs)
    case Items(items) => DecodesTo(items, bs) || (exists i :: 0 <= i < |items| && items[i].block.None?)
  }

  /** An assistant message becomes its content and then one tool use per call. */
  lemma {:induction false} AssistantBack(valid: Validity, m: ChatMessage) returns (content: seq<Block>, uses: seq<Block>)
    requires m.role == "assistant"
    ensures ToAnthropic(valid, [m]) == [AnthropicMessage("assistant", Blocks(content + uses))]
    ensures ContentBack(m.content, content)
    ensures |uses| == |m.toolCalls| && forall i | 0 <= i < |uses| :: IsUseOf(valid, uses[i], m.toolCalls[i])
  {
    content, uses := ContentBlocks(m.content), UseBlocks(valid, m.toolCalls);
    UseBlocksOk(valid, m.toolCalls);
    assert [m][1..] == [];
    if m.content.TextBlocks? {
      TextOnlyAreTexts(m.content.cs);
    } else if m.content.Items? {
      var items := m.content.items;
      if forall i | 0 <= i < |items| :: items[i].block.Some? {
        AllDecode(items, seq(|items|, i requires 0 <= i < |items| => items[i].block.value));
      }
    }
  }

  /** A user message keeps its content; typed text blocks become blocks. */
  lemma {:induction false} UserBack(valid: Validity, m: ChatMessage)
    requires m.role == "user"
    ensures var back := ToAnthropic(valid, [m]);
            && |back| == 1 && back[0].role == "user"
            && match m.content
               case Nil => back[0].content == Str("")
               case TextBlocks(cs) => back[0].content.Blocks? && AreTexts(back[0].content.bs, cs)
               case _ => back[0].content == m.content
  {
    assert [m][1..] == [];
    if m.content.TextBlocks? {
      TextOnlyAreTexts(m.content.cs);
    }
  }

  ghost predicate IsResultOf(b: Block, m: ChatMessage) {
    b == Block("tool_result", "", "", "", "", "", m.toolCallId, Str(ExtractTextContent(m.content)))
  }

  /** A run of tool messages becomes one user message with one result per message, with its text. */
  lemma {:induction false} ToolsBack(valid: Validity, tools: seq<ChatMessage>)
    requires tools != [] && forall i | 0 <= i < |tools| :: tools[i].role == "tool"
    ensures var back := ToAnthropic(valid, tools);
            && |back| == 1 && back[0].role == "user" && back[0].content.Blocks? && |back[0].content.bs| == |tools|
            && forall i | 0 <= i < |tools| :: IsResultOf(back[0].content.bs[i], tools[i])
  {
    ToolRunOf(tools, []);
    assert tools + [] == tools && tools[..|tools|] == tools && tools[|tools|..] == [];
    ResultBlocksOk(tools);
  }
}
