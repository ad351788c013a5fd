/**
 Rebuilding an Anthropic response from its events (proxy/internal/logger/parse.go:344-444,
 agent/internal/agent/executor.go:395-438): the accumulator indexed by number against a plain list,
 and the streamed response against the unstreamed one.
 */
module AnthropicReassembly {
  import opened Text
  import opened SseLog
  import opened SseReassembly

  // ---- The accumulator is a list ----

  function AddToCall(call: ToolCall, json: string): ToolCall {
    call.(arguments := call.arguments + json)
  }

  /** What an event means for the log: a new call is appended, input belongs to the last call. */
  function AddToLog(log: OutputLog, e: AnthropicEvent): OutputLog {
    var n := |log.toolCalls|;
    match e.kind
    case "content_block_start" =>
      if e.blockType == "tool_use"
      then log.(toolCalls := log.toolCalls + [ToolCall(e.blockId, "function", e.blockName, "")])
      else log
    case "content_block_delta" =>
      (match e.deltaType
       case "text_delta" => log.(content := log.content + e.text)
       case "thinking_delta" => log.(reasoning := log.reasoning + e.thinking)
       case "input_json_delta" =>
         if n == 0 then log
         else log.(toolCalls := log.toolCalls[..n - 1] + [AddToCall(log.toolCalls[n - 1], e.partialJson)])
       case _ => log)
    case _ => log
  }

  function AddAllToLog(log: OutputLog, es: seq<AnthropicEvent>): OutputLog {
    if es == [] then log
    else AddToLog(AddAllToLog(log, es[..|es| - 1]), es[|es| - 1])
  }

  const NO_LOG := OutputLog("", "", [])

  /** The keys are 0..n-1 in the order in which the calls started. */
  ghost predicate Represents(a: Accum, log: OutputLog) {
    && a.content == log.content && a.reasoning == log.reasoning
    && |a.tools| == |log.toolCalls|
    && (forall k: int :: k in a.tools <==> 0 <= k < |log.toolCalls|)
    && (forall k | 0 <= k < |log.toolCalls| :: a.tools[k] == log.toolCalls[k])
  }

  lemma {:induction false} RepresentsNext(a: Accum, log: OutputLog, e: AnthropicEvent)
    requires Represents(a, log)
    ensures Represents(AddEvent(a, e), AddToLog(log, e))
  {
  }

  lemma {:induction false} EventsRepresent(es: seq<AnthropicEvent>)
    ensures Represents(FoldEvents(EMPTY, es), AddAllToLog(NO_LOG, es))
  {
    if es != [] {
      var front := es[..|es| - 1];
      EventsRepresent(front);
      RepresentsNext(FoldEvents(EMPTY, front), AddAllToLog(NO_LOG, front), es[|es| - 1]);
    }
  }

  /** For every event sequence, the calls are numbered 0..n-1 in start order and logged in that order. */
  lemma {:induction false} CallsAreInStartOrder(es: seq<AnthropicEvent>)
    ensures Log(FoldEvents(EMPTY, es)) == AddAllToLog(NO_LOG, es)
    ensures forall k: int :: k in FoldEvents(EMPTY, es).tools <==> 0 <= k < |AddAllToLog(NO_LOG, es).toolCalls|
  {
    EventsRepresent(es);
    RepresentsLog(FoldEvents(EMPTY, es), AddAllToLog(NO_LOG, es));
  }

  lemma {:induction false} RepresentsLog(a: Accum, log: OutputLog)
    requires Represents(a, log)
    ensures Log(a) == log
  {
    CallsOfRange(a.tools, |log.toolCalls|);
    SameCalls(SortedCalls(a.tools), log.toolCalls);
  }

  // ---- Streamed and unstreamed blocks ----

  /** A content block and the fragments it is streamed in. */
  datatype Block =
    | TextBlock(parts: seq<string>)
    | ThinkingBlock(parts: seq<string>)
    | ToolUseBlock(id: string, name: string, parts: seq<string>)

  function BlockKind(b: Block): string {
    match b case TextBlock(_) => "text" case ThinkingBlock(_) => "thinking" case ToolUseBlock(_, _, _) => "tool_use"
  }

  function StartEvent(b: Block): AnthropicEvent {
    var id, name := if b.ToolUseBlock? then b.id else "", if b.ToolUseBlock? then b.name else "";
    AnthropicEvent("content_block_start", BlockKind(b), id, name, "", "", "", "")
  }

  function DeltaEvent(b: Block, part: string): AnthropicEvent {
    match b
    case TextBlock(_) => AnthropicEvent("content_block_delta", "", "", "", "text_delta", part, "", "")
    case ThinkingBlock(_) => AnthropicEvent("content_block_delta", "", "", "", "thinking_delta", "", part, "")
    case ToolUseBlock(_, _, _) => AnthropicEvent("content_block_delta", "", "", "", "input_json_delta", "", "", part)
  }

  const STOP_EVENT := AnthropicEvent("content_block_stop", "", "", "", "", "", "", "")

  function DeltaEvents(b: Block, parts: seq<string>): seq<AnthropicEvent> {
    if parts == [] then []
    else DeltaEvents(b, parts[..|parts| - 1]) + [DeltaEvent(b, parts[|parts| - 1])]
  }

  function BlockEvents(b: Block): seq<AnthropicEvent> {
    [StartEvent(b)] + DeltaEvents(b, b.parts) + [STOP_EVENT]
  }

  /** The events of blocks streamed one after another. */
  function StreamEvents(blocks: seq<Block>): seq<AnthropicEvent> {
    if blocks == [] then []
    else StreamEvents(blocks[..|blocks| - 1]) + BlockEvents(blocks[|blocks| - 1])
  }

  /** A content block of an unstreamed body. */
  datatype JsonBlock = JsonBlock(kind: string, text: string, thinking: string, id: string, name: string, input: string)

  /** The same block, unstreamed. */
  function Whole(b: Block): JsonBlock {
    var all := Concat(b.parts);
    match b
    case TextBlock(_) => JsonBlock("text", all, "", "", "", "")
    case ThinkingBlock(_) => JsonBlock("thinking", "", all, "", "", "")
    case ToolUseBlock(id, name, _) => JsonBlock("tool_use", "", "", id, name, all)
  }

  function AddJsonBlock(log: OutputLog, b: JsonBlock): OutputLog {
    match b.kind
    case "text" => log.(content := log.content + b.text)
    case "thinking" => log.(reasoning := log.reasoning + b.thinking)
    case "tool_use" =>
      var args := if b.input != "" then b.input else "{}";
      log.(toolCalls := log.toolCalls + [ToolCall(b.id, "function", b.name, args)])
    case _ => log
  }

  function JsonLog(blocks: seq<JsonBlock>): OutputLog {
    if blocks == [] then NO_LOG
    else AddJsonBlock(JsonLog(blocks[..|blocks| - 1]), blocks[|blocks| - 1])
  }

  /** `parseAnthropicJSON`; `content` is the decoded body. */
  method ParseAnthropicJSON(content: Option<seq<JsonBlock>>) returns (log: OutputLog)
    ensures log == if content.None? then NO_LOG else JsonLog(content.value)
  {
    if content.None? {
      return NO_LOG;
    }
    var blocks := content.value;
    log := NO_LOG;
    for k := 0 to |blocks|
      invariant log == JsonLog(blocks[..k])
    {
      var block := blocks[k];
      assert blocks[..k + 1][..k] == blocks[..k];
      match block.kind {
        case "text" => log := log.(content := log.content + block.text);
        case "thinking" => log := log.(reasoning := log.reasoning + block.thinking);
        case "tool_use" =>
          var args := "{}";
          if |block.input| > 0 {
            args := block.input;
          }
          log := log.(toolCalls := log.toolCalls + [ToolCall(block.id, "function", block.name, args)]);
        case _ =>
      }
    }
    assert blocks[..|blocks|] == blocks;
  }

  function WholeBlocks(blocks: seq<Block>): seq<JsonBlock> {
    seq(|blocks|, k requires 0 <= k < |blocks| => Whole(blocks[k]))
  }

  /** What a streamed block adds to the log: an empty input stays empty. */
  function AddBlock(log: OutputLog, b: Block): OutputLog {
    match b
    case TextBlock(parts) => log.(content := log.content + Concat(parts))
    case ThinkingBlock(parts) => log.(reasoning := log.reasoning + Concat(parts))
    case ToolUseBlock(id, name, parts) =>
      log.(toolCalls := log.toolCalls + [ToolCall(id, "function", name, Concat(parts))])
  }

  function StreamLog(blocks: seq<Block>): OutputLog {
    if blocks == [] then NO_LOG
    else AddBlock(StreamLog(blocks[..|blocks| - 1]), blocks[|blocks| - 1])
  }

  lemma {:induction false} AddAllAppend(log: OutputLog, x: seq<AnthropicEvent>, y: seq<AnthropicEvent>)
    ensures AddAllToLog(log, x + y) == AddAllToLog(AddAllToLog(log, x), y)
    decreases |y|
  {
    if y == [] {
      assert x + y == x;
    } else {
      AddAllAppend(log, x, y[..|y| - 1]);
      assert (x + y)[..|x + y| - 1] == x + y[..|y| - 1];
    }
  }

  lemma {:induction false} AddOne(log: OutputLog, e: AnthropicEvent)
    ensures AddAllToLog(log, [e]) == AddToLog(log, e)
  {
    assert [e][..0] == [];
  }

  /** The fragments of a block add up to the block. */
  lemma {:induction false} DeltasAddUp(log: OutputLog, b: Block, parts: seq<string>)
    ensures AddAllToLog(AddToLog(log, StartEvent(b)), DeltaEvents(b, parts)) == AddBlock(log, b.(parts := parts))
  {
    if parts == [] {
      assert log.content + "" == log.content && log.reasoning + "" == log.reasoning;
    } else {
      var front, last := parts[..|parts| - 1], parts[|parts| - 1];
      DeltasAddUp(log, b, front);
      ConcatSnoc(front, last);
      assert front + [last] == parts;
      var started := AddToLog(log, StartEvent(b));
      AddAllAppend(started, DeltaEvents(b, front), [DeltaEvent(b, last)]);
      AddOne(AddAllToLog(started, DeltaEvents(b, front)), DeltaEvent(b, last));
      DeltaContinues(log, b, front, last);
    }
  }

  lemma {:induction false} DeltaContinues(log: OutputLog, b: Block, front: seq<string>, last: string)
    ensures AddToLog(AddBlock(log, b.(parts := front)), DeltaEvent(b, last))
            == (ConcatSnoc(front, last); AddBlock(log, b.(parts := front + [last])))
  {
    ConcatSnoc(front, last);
    Assoc(log.content, Concat(front), last);
    Assoc(log.reasoning, Concat(front), last);
    if b.ToolUseBlock? {
      var call := ToolCall(b.id, "function", b.name, Concat(front));
      assert (log.toolCalls + [call])[..|log.toolCalls|] == log.toolCalls;
    }
  }

  lemma {:induction false} BlockAddsUp(log: OutputLog, b: Block)
    ensures AddAllToLog(log, BlockEvents(b)) == AddBlock(log, b)
  {
    AddAllAppend(log, [StartEvent(b)] + DeltaEvents(b, b.parts), [STOP_EVENT]);
    AddAllAppend(log, [StartEvent(b)], DeltaEvents(b, b.parts));
    AddOne(log, StartEvent(b));
    DeltasAddUp(log, b, b.parts);
    AddOne(AddBlock(log, b), STOP_EVENT);
  }

  lemma {:induction false} StreamAddsUp(blocks: seq<Block>)
    ensures AddAllToLog(NO_LOG, StreamEvents(blocks)) == StreamLog(blocks)
  {
    if blocks != [] {
      var front, last := blocks[..|blocks| - 1], blocks[|blocks| - 1];
      StreamAddsUp(front);
      AddAllAppend(NO_LOG, StreamEvents(front), BlockEvents(last));
      BlockAddsUp(StreamLog(front), last);
    }
  }

  /** Every tool call has some input. */
  ghost predicate InputsNonEmpty(blocks: seq<Block>) {
    forall b :: b in blocks && b.ToolUseBlock? ==> Concat(b.parts) != ""
  }

  lemma {:induction false} StreamedAndWhole(blocks: seq<Block>)
    ensures var s, w := StreamLog(blocks), JsonLog(WholeBlocks(blocks));
            && s.content == w.content && s.reasoning == w.reasoning && |s.toolCalls| == |w.toolCalls|
            && (s.toolCalls == w.toolCalls <==> InputsNonEmpty(blocks))
  {
    if blocks != [] {
      var front, last := blocks[..|blocks| - 1], blocks[|blocks| - 1];
      StreamedAndWhole(front);
      assert WholeBlocks(blocks)[..|blocks| - 1] == WholeBlocks(front);
      assert blocks == front + [last];
      var s, w := StreamLog(front), JsonLog(WholeBlocks(front));
      if last.ToolUseBlock? {
        var x := ToolCall(last.id, "function", last.name, Concat(last.parts));
        SameSnoc(s.toolCalls, w.toolCalls, x, JsonLog(WholeBlocks(blocks)).toolCalls[|w.toolCalls|]);
      }
    }
  }

  lemma {:induction false} SameSnoc(a: seq<ToolCall>, b: seq<ToolCall>, x: ToolCall, y: ToolCall)
    requires |a| == |b|
    ensures a + [x] == b + [y] <==> a == b && x == y
  {
    if a + [x] == b + [y] {
      assert a == (a + [x])[..|a|] && b == (b + [y])[..|b|];
      assert x == (a + [x])[|a|] && y == (b + [y])[|b|];
    }
  }

  /**
   Streaming the blocks of a response one after another, in any fragments, is logged like the
   unstreamed response if and only if every tool call's input is non-empty: without any fragment
   the stream leaves the arguments empty where the unstreamed parser writes `{}`.
   */
  lemma {:induction false} AnthropicStreamMatchesBody(blocks: seq<Block>)
    ensures Log(FoldEvents(EMPTY, StreamEvents(blocks))) == JsonLog(WholeBlocks(blocks)) <==> InputsNonEmpty(blocks)
  {
    CallsAreInStartOrder(StreamEvents(blocks));
    StreamAddsUp(blocks);
    StreamedAndWhole(blocks);
  }

  /** For example, a call that is streamed without fragments is logged without the `{}` of the whole response. */
  lemma {:induction false} CallWithoutFragments(id: string, name: string)
    ensures var blocks := [ToolUseBlock(id, name, [])];
            && Log(FoldEvents(EMPTY, StreamEvents(blocks))).toolCalls == [ToolCall(id, "function", name, "")]
            && JsonLog(WholeBlocks(blocks)).toolCalls == [ToolCall(id, "function", name, "{}")]
  {
    var b := ToolUseBlock(id, name, []);
    CallsAreInStartOrder(StreamEvents([b]));
    StreamAddsUp([b]);
    OneBlock(b);
  }

  lemma {:induction false} OneBlock(b: Block)
    ensures StreamLog([b]) == AddBlock(NO_LOG, b) && JsonLog(WholeBlocks([b])) == AddJsonBlock(NO_LOG, Whole(b))
  {
    assert [b][..0] == [] && WholeBlocks([b]) == [Whole(b)] && [Whole(b)][..0] == [];
  }
}
