/**
 The two loggers that rebuild a model response from a stream of SSE lines: the incremental one of
 the agent (`streamLogger`, agent/internal/agent/executor.go:299-459) and the batch one of the proxy
 (proxy/internal/logger/parse.go:287-462), with the parsers of unstreamed responses.
 */
module SseLog {
  import opened Text
  import opened Sorting

  datatype ToolCall = ToolCall(id: string, kind: string, name: string, arguments: string)

  datatype OutputLog = OutputLog(content: string, reasoning: string, toolCalls: seq<ToolCall>)

  // ---- Decoded payloads ----

  /** A piece of the tool call with index `index`. */
  datatype Fragment = Fragment(index: int, id: string, kind: string, name: string, arguments: string)

  datatype OpenAIDelta = OpenAIDelta(content: string, reasoning: string, tools: seq<Fragment>)

  datatype AnthropicEvent = AnthropicEvent(
    kind: string, blockType: string, blockId: string, blockName: string,
    deltaType: string, text: string, thinking: string, partialJson: string)

  const DONE := "[DONE]"

  /** The library calls both loggers make. `None` is a decoding error. */
  datatype Codec = Codec(
    trim: Bytes -> Bytes,                              // bytes.TrimSpace
    openAIChunk: Bytes -> Option<seq<OpenAIDelta>>,    // delta of each choice
    anthropicEvent: Bytes -> Option<AnthropicEvent>)
  {
    /** Neither nothing nor `[DONE]` is JSON, and trimming nothing leaves nothing. */
    predicate Valid() {
      && trim("") == ""
      && openAIChunk("").None?
      && anthropicEvent("").None?
      && anthropicEvent(DONE).None?
    }
  }

  // ---- Lines ----

  /** `bytes.Split(data, "\n")`: the last line is what follows the last newline. */
  function Lines(data: Bytes): (lines: seq<Bytes>)
    ensures lines != []
  {
    if data == "" then [""]
    else
      var before, c := Lines(data[..|data| - 1]), data[|data| - 1];
      var n := |before| - 1;
      if c == '\n' then before + [""] else before[..n] + [before[n] + [c]]
  }

  /** The payload of a `data: ` line. */
  function Payload(codec: Codec, line: Bytes): Option<Bytes> {
    var trimmed := codec.trim(line);
    if DATA_PREFIX <= trimmed then Some(trimmed[|DATA_PREFIX|..]) else None
  }

  /** The delta a payload contributes: none, or one. */
  function OpenAIPayload(codec: Codec, payload: Bytes): seq<OpenAIDelta> {
    var choices := codec.openAIChunk(payload);
    if choices.None? || choices.value == [] then [] else [choices.value[0]]
  }

  function AnthropicPayload(codec: Codec, payload: Bytes): seq<AnthropicEvent> {
    var event := codec.anthropicEvent(payload);
    if event.None? then [] else [event.value]
  }

  function OpenAILine(codec: Codec, line: Bytes): seq<OpenAIDelta> {
    var payload := Payload(codec, line);
    if payload.None? || payload.value == "" || payload.value == DONE then []
    else OpenAIPayload(codec, payload.value)
  }

  function AnthropicLine(codec: Codec, line: Bytes): seq<AnthropicEvent> {
    var payload := Payload(codec, line);
    if payload.None? || payload.value == "" || payload.value == DONE then []
    else AnthropicPayload(codec, payload.value)
  }

  function OpenAIDeltas(codec: Codec, lines: seq<Bytes>): seq<OpenAIDelta> {
    if lines == [] then []
    else OpenAIDeltas(codec, lines[..|lines| - 1]) + OpenAILine(codec, lines[|lines| - 1])
  }

  function AnthropicEvents(codec: Codec, lines: seq<Bytes>): seq<AnthropicEvent> {
    if lines == [] then []
    else AnthropicEvents(codec, lines[..|lines| - 1]) + AnthropicLine(codec, lines[|lines| - 1])
  }

  /** Line `n` is the first with the payload `[DONE]`, or there is none and `n` is the number of lines. */
  ghost predicate FirstDone(codec: Codec, lines: seq<Bytes>, n: nat) {
    && n <= |lines|
    && (n < |lines| ==> Payload(codec, lines[n]) == Some(DONE))
    && forall k | 0 <= k < n :: Payload(codec, lines[k]) != Some(DONE)
  }

  function DoneIndex(codec: Codec, lines: seq<Bytes>): (n: nat)
    ensures FirstDone(codec, lines, n)
  {
    if lines == [] || Payload(codec, lines[0]) == Some(DONE) then 0 else 1 + DoneIndex(codec, lines[1..])
  }

  /** Only the payload behind `data: ` counts, unless it is empty or `[DONE]`, and of a chunk only its first choice. */
  lemma {:induction false} LineOfData(codec: Codec, line: Bytes, payload: Bytes)
    requires codec.trim(line) == DATA_PREFIX + payload
    ensures Payload(codec, line) == Some(payload)
    ensures OpenAILine(codec, line) ==
              match codec.openAIChunk(payload)
              case None => []
              case Some(choices) => if payload in {"", DONE} || choices == [] then [] else [choices[0]]
    ensures AnthropicLine(codec, line) ==
              match codec.anthropicEvent(payload)
              case None => []
              case Some(event) => if payload in {"", DONE} then [] else [event]
  {
    assert codec.trim(line)[|DATA_PREFIX|..] == payload;
  }

  /** All other lines, such as blank ones and event names, are skipped. */
  lemma {:induction false} OtherLine(codec: Codec, line: Bytes)
    requires !(DATA_PREFIX <= codec.trim(line))
    ensures Payload(codec, line).None? && OpenAILine(codec, line) == [] && AnthropicLine(codec, line) == []
  {
  }

  // ---- Accumulation ----

  datatype Accum = Accum(content: string, reasoning: string, tools: map<int, ToolCall>)

  const EMPTY := Accum("", "", map[])

  function AddFragment(tools: map<int, ToolCall>, f: Fragment): map<int, ToolCall> {
    var call := if f.index in tools then tools[f.index] else ToolCall(f.id, f.kind, f.name, "");
    tools[f.index := call.(arguments := call.arguments + f.arguments)]
  }

  function AddFragments(tools: map<int, ToolCall>, fs: seq<Fragment>): map<int, ToolCall> {
    if fs == [] then tools
    else AddFragment(AddFragments(tools, fs[..|fs| - 1]), fs[|fs| - 1])
  }

  function AddDelta(a: Accum, d: OpenAIDelta): Accum {
    Accum(a.content + d.content, a.reasoning + d.reasoning, AddFragments(a.tools, d.tools))
  }

  function FoldDeltas(a: Accum, ds: seq<OpenAIDelta>): Accum {
    if ds == [] then a
    else AddDelta(FoldDeltas(a, ds[..|ds| - 1]), ds[|ds| - 1])
  }

  function AddEvent(a: Accum, e: AnthropicEvent): Accum {
    if e.kind == "content_block_start" then
      if e.blockType == "tool_use" then
        a.(tools := a.tools[|a.tools| := ToolCall(e.blockId, "function", e.blockName, "")])
      else a
    else if e.kind == "content_block_delta" then
      if e.deltaType == "text_delta" then a.(content := a.content + e.text)
      else if e.deltaType == "thinking_delta" then a.(reasoning := a.reasoning + e.thinking)
      else if e.deltaType == "input_json_delta" && |a.tools| - 1 in a.tools then
        var call := a.tools[|a.tools| - 1];
        a.(tools := a.tools[|a.tools| - 1 := call.(arguments := call.arguments + e.partialJson)])
      else a
    else a
  }

  function FoldEvents(a: Accum, es: seq<AnthropicEvent>): Accum {
    if es == [] then a
    else AddEvent(FoldEvents(a, es[..|es| - 1]), es[|es| - 1])
  }

  /** The tool calls in the order of their indices. */
  ghost function SortedCalls(tools: map<int, ToolCall>): seq<ToolCall> {
    CallsAt(tools, Ascending(tools.Keys))
  }

  function CallsAt(tools: map<int, ToolCall>, indexes: seq<int>): (calls: seq<ToolCall>)
    requires forall k | 0 <= k < |indexes| :: indexes[k] in tools
    ensures |calls| == |indexes|
    ensures forall k | 0 <= k < |indexes| :: calls[k] == tools[indexes[k]]
  {
    seq(|indexes|, k requires 0 <= k < |indexes| => tools[indexes[k]])
  }

  ghost function Log(a: Accum): OutputLog {
    OutputLog(a.content, a.reasoning, SortedCalls(a.tools))
  }

  /** The keys of the accumulator, collected in the order the map yields them and then sorted. */
  method SortedIndexes(tools: map<int, ToolCall>) returns (indexes: seq<int>)
    ensures indexes == Ascending(tools.Keys)
  {
    indexes := [];
    var left := tools.Keys;
    while left != {}
      invariant left <= tools.Keys
      invariant forall i :: i in indexes <==> i in tools.Keys && i !in left
      invariant |indexes| + |left| == |tools.Keys|
      decreases left
    {
      var idx := AnyOf(left);
      indexes := indexes + [idx];
      left := left - {idx};
    }
    SortedEnumeration(indexes, tools.Keys);
    indexes := SortInts(indexes);
  }

  /** `sortedToolCalls`, and the same steps in `flushToLog`. */
  method SortedToolCalls(tools: map<int, ToolCall>) returns (out: seq<ToolCall>)
    ensures out == SortedCalls(tools)
  {
    var indexes := SortedIndexes(tools);
    out := CollectCalls(tools, indexes);
  }

  method CollectCalls(tools: map<int, ToolCall>, indexes: seq<int>) returns (out: seq<ToolCall>)
    requires forall k | 0 <= k < |indexes| :: indexes[k] in tools
    ensures out == CallsAt(tools, indexes)
  {
    out := [];
    for k := 0 to |indexes|
      invariant |out| == k && forall i | 0 <= i < k :: out[i] == tools[indexes[i]]
    {
      out := out + [tools[indexes[k]]];
    }
  }

  // ---- Batch parsers ----

  method ParseOpenAISSE(codec: Codec, data: Bytes) returns (log: OutputLog)
    requires codec.Valid()
    ensures var lines := Lines(data);
            log == Log(FoldDeltas(EMPTY, OpenAIDeltas(codec, lines[..DoneIndex(codec, lines)])))
  {
    var lines := Lines(data);
    var a := ReadOpenAILines(codec, lines);
    var calls := SortedToolCalls(a.tools);
    return OutputLog(a.content, a.reasoning, calls);
  }

  /** The loop over the lines, which stops at the first `[DONE]` and nowhere else. */
  method ReadOpenAILines(codec: Codec, lines: seq<Bytes>) returns (a: Accum)
    requires codec.Valid()
    ensures a == FoldDeltas(EMPTY, OpenAIDeltas(codec, lines[..DoneIndex(codec, lines)]))
  {
    a := EMPTY;
    for k := 0 to |lines|
      invariant ReadUpTo(codec, lines, k, a)
    {
      if Payload(codec, lines[k]) == Some(DONE) {
        StopsAt(codec, lines, k);
        return;
      }
      ReadsOn(codec, lines, k, a);
      a := AccumOpenAILine(codec, lines[k], a);
    }
    StopsAt(codec, lines, |lines|);
  }

  /** No `[DONE]` among the first `k` lines, and `a` is what they add up to. */
  ghost predicate ReadUpTo(codec: Codec, lines: seq<Bytes>, k: nat, a: Accum) {
    && k <= |lines| && (forall i | 0 <= i < k :: Payload(codec, lines[i]) != Some(DONE))
    && a == FoldDeltas(EMPTY, OpenAIDeltas(codec, lines[..k]))
  }

  lemma {:induction false} ReadsOn(codec: Codec, lines: seq<Bytes>, k: nat, a: Accum)
    requires ReadUpTo(codec, lines, k, a) && k < |lines| && Payload(codec, lines[k]) != Some(DONE)
    ensures ReadUpTo(codec, lines, k + 1, FoldDeltas(a, OpenAILine(codec, lines[k])))
  {
    DeltasReadOn(codec, lines, k, a);
  }

  lemma {:induction false} StopsAt(codec: Codec, lines: seq<Bytes>, n: nat)
    requires FirstDone(codec, lines, n)
    ensures DoneIndex(codec, lines) == n
  {
  }

  method AccumOpenAILine(codec: Codec, line: Bytes, a: Accum) returns (out: Accum)
    requires codec.Valid() && Payload(codec, line) != Some(DONE)
    ensures out == FoldDeltas(a, OpenAILine(codec, line))
  {
    LineOfPayload(codec, line);
    var payload := Payload(codec, line);
    if payload.Some? {
      out := AccumOpenAIChunk(codec, payload.value, a);
    } else {
      out := a;
    }
  }

  /** Skipping empty payloads and `[DONE]` makes no difference to what is decoded. */
  lemma {:induction false} LineOfPayload(codec: Codec, line: Bytes)
    requires codec.Valid()
    ensures var payload := Payload(codec, line);
            && (payload.None? ==> OpenAILine(codec, line) == [] && AnthropicLine(codec, line) == [])
            && (payload.Some? ==> AnthropicLine(codec, line) == AnthropicPayload(codec, payload.value))
            && (payload.Some? && payload.value != DONE ==> OpenAILine(codec, line) == OpenAIPayload(codec, payload.value))
  {
  }

  lemma {:induction false} DeltasReadOn(codec: Codec, lines: seq<Bytes>, k: nat, a: Accum)
    requires k < |lines| && a == FoldDeltas(EMPTY, OpenAIDeltas(codec, lines[..k]))
    ensures FoldDeltas(a, OpenAILine(codec, lines[k])) == FoldDeltas(EMPTY, OpenAIDeltas(codec, lines[..k + 1]))
  {
    FoldLine(codec, lines[..k], lines[k]);
    assert lines[..k] + [lines[k]] == lines[..k + 1];
  }

  method ParseAnthropicSSE(codec: Codec, data: Bytes) returns (log: OutputLog)
    requires codec.Valid()
    ensures log == Log(FoldEvents(EMPTY, AnthropicEvents(codec, Lines(data))))
  {
    var lines := Lines(data);
    var a := ReadAnthropicLines(codec, lines);
    var calls := SortedToolCalls(a.tools);
    return OutputLog(a.content, a.reasoning, calls);
  }

  lemma {:induction false} EventsReadOn(codec: Codec, lines: seq<Bytes>, k: nat, a: Accum)
    requires k < |lines| && a == FoldEvents(EMPTY, AnthropicEvents(codec, lines[..k]))
    ensures FoldEvents(a, AnthropicLine(codec, lines[k])) == FoldEvents(EMPTY, AnthropicEvents(codec, lines[..k + 1]))
  {
    FoldLine(codec, lines[..k], lines[k]);
    assert lines[..k] + [lines[k]] == lines[..k + 1];
  }

  method ReadAnthropicLines(codec: Codec, lines: seq<Bytes>) returns (a: Accum)
    requires codec.Valid()
    ensures a == FoldEvents(EMPTY, AnthropicEvents(codec, lines))
  {
    a := EMPTY;
    for k := 0 to |lines|
      invariant a == FoldEvents(EMPTY, AnthropicEvents(codec, lines[..k]))
    {
      EventsReadOn(codec, lines, k, a);
      a := AccumAnthropicLine(codec, lines[k], a);
    }
    assert lines[..|lines|] == lines;
  }

  method AccumAnthropicLine(codec: Codec, line: Bytes, a: Accum) returns (out: Accum)
    requires codec.Valid()
    ensures out == FoldEvents(a, AnthropicLine(codec, line))
  {
    LineOfPayload(codec, line);
    var payload := Payload(codec, line);
    if payload.Some? {
      out := AccumAnthropicChunk(codec, payload.value, a);
    } else {
      out := a;
    }
  }

  /** Decoding one payload and adding it up; the same in both loggers. */
  method AccumOpenAIChunk(codec: Codec, payload: Bytes, a: Accum) returns (out: Accum)
    ensures out == FoldDeltas(a, OpenAIPayload(codec, payload))
  {
    var chunk := codec.openAIChunk(payload);
    if chunk.None? || |chunk.value| == 0 {
      return a;
    }
    var d := chunk.value[0];
    FoldSnoc(a, [], d);
    assert [] + [d] == [d];
    var tools := AccumulateFragments(a.tools, d.tools);
    return Accum(a.content + d.content, a.reasoning + d.reasoning, tools);
  }

  method AccumAnthropicChunk(codec: Codec, payload: Bytes, a: Accum) returns (out: Accum)
    ensures out == FoldEvents(a, AnthropicPayload(codec, payload))
  {
    var event := codec.anthropicEvent(payload);
    if event.None? {
      return a;
    }
    var e := event.value;
    FoldEventSnoc(a, [], e);
    assert [] + [e] == [e];
    out := a;
    match e.kind {
      case "content_block_start" =>
        if e.blockType == "tool_use" {
          var idx := |out.tools|;
          out := out.(tools := out.tools[idx := ToolCall(e.blockId, "function", e.blockName, "")]);
        }
      case "content_block_delta" =>
        match e.deltaType {
          case "text_delta" => out := out.(content := out.content + e.text);
          case "thinking_delta" => out := out.(reasoning := out.reasoning + e.thinking);
          case "input_json_delta" =>
            var idx := |out.tools| - 1;
            if idx >= 0 && idx in out.tools {
              var tc := out.tools[idx];
              out := out.(tools := out.tools[idx := tc.(arguments := tc.arguments + e.partialJson)]);
            }
          case _ =>
        }
      case _ =>
    }
  }

  /** One more line continues both folds with what the line contributes. */
  lemma {:induction false} FoldLine(codec: Codec, lines: seq<Bytes>, line: Bytes)
    ensures FoldDeltas(EMPTY, OpenAIDeltas(codec, lines + [line]))
            == FoldDeltas(FoldDeltas(EMPTY, OpenAIDeltas(codec, lines)), OpenAILine(codec, line))
    ensures FoldEvents(EMPTY, AnthropicEvents(codec, lines + [line]))
            == FoldEvents(FoldEvents(EMPTY, AnthropicEvents(codec, lines)), AnthropicLine(codec, line))
  {
    DeltasSnoc(codec, lines, line);
    FoldAppend(EMPTY, OpenAIDeltas(codec, lines), OpenAILine(codec, line));
    FoldEventsAppend(EMPTY, AnthropicEvents(codec, lines), AnthropicLine(codec, line));
  }

  lemma {:induction false} FoldAppend(a: Accum, x: seq<OpenAIDelta>, y: seq<OpenAIDelta>)
    ensures FoldDeltas(a, x + y) == FoldDeltas(FoldDeltas(a, x), y)
    decreases |y|
  {
    if y == [] {
      assert x + y == x;
    } else {
      FoldAppend(a, x, y[..|y| - 1]);
      assert (x + y)[..|x + y| - 1] == x + y[..|y| - 1];
    }
  }

  lemma {:induction false} FoldEventsAppend(a: Accum, x: seq<AnthropicEvent>, y: seq<AnthropicEvent>)
    ensures FoldEvents(a, x + y) == FoldEvents(FoldEvents(a, x), y)
    decreases |y|
  {
    if y == [] {
      assert x + y == x;
    } else {
      FoldEventsAppend(a, x, y[..|y| - 1]);
      assert (x + y)[..|x + y| - 1] == x + y[..|y| - 1];
    }
  }

  method AccumulateFragments(tools: map<int, ToolCall>, fs: seq<Fragment>) returns (out: map<int, ToolCall>)
    ensures out == AddFragments(tools, fs)
  {
    out := tools;
    for k := 0 to |fs|
      invariant out == AddFragments(tools, fs[..k])
    {
      var tc := fs[k];
      assert fs[..k + 1][..k] == fs[..k];
      if tc.index !in out {
        out := out[tc.index := ToolCall(tc.id, tc.kind, tc.name, "")];
      }
      out := out[tc.index := out[tc.index].(arguments := out[tc.index].arguments + tc.arguments)];
    }
    assert fs[..|fs|] == fs;
  }

  lemma {:induction false} DeltasSnoc(codec: Codec, lines: seq<Bytes>, line: Bytes)
    ensures OpenAIDeltas(codec, lines + [line]) == OpenAIDeltas(codec, lines) + OpenAILine(codec, line)
    ensures AnthropicEvents(codec, lines + [line]) == AnthropicEvents(codec, lines) + AnthropicLine(codec, line)
  {
    assert (lines + [line])[..|lines|] == lines;
  }

  lemma {:induction false} FoldSnoc(a: Accum, ds: seq<OpenAIDelta>, d: OpenAIDelta)
    ensures FoldDeltas(a, ds + [d]) == AddDelta(FoldDeltas(a, ds), d)
  {
    assert (ds + [d])[..|ds|] == ds;
  }

  lemma {:induction false} FoldEventSnoc(a: Accum, es: seq<AnthropicEvent>, e: AnthropicEvent)
    ensures FoldEvents(a, es + [e]) == AddEvent(FoldEvents(a, es), e)
  {
    assert (es + [e])[..|es|] == es;
  }
}
