/**
 Which text of a response is scanned, in terms of the decoded events alone, and what a streamed response is
 that has the content blocks of an unstreamed one (proxy/internal/proxy/obs.go:113-189).
 */
module ObsBlocks {
  import opened Text
  import opened SseFraming
  import opened ObsStrip
  import opened ObsStreaming
  import opened ObsEvents
  import opened ObsWhole
  import opened ObsWire
  import opened ObsCapture
  import opened ObsReading

  /** The texts that are scanned in a sequence of events. */
  function Scanned(format: Format, json: Json, events: seq<Bytes>): seq<string> {
    Texts(Items(format, json, false, events).0)
  }

  // ---- Anthropic: one event more ----

  predicate StartsBlock(json: Json, event: Bytes) {
    Decoded(json, event).Some? && Decoded(json, event).value.kind == "content_block_start"
  }

  /** The last event that starts or stops a content block starts a thinking one. */
  ghost predicate InThinking(json: Json, events: seq<Bytes>) {
    exists i :: 0 <= i < |events| && OpensThinking(json, events[i]) && forall j | i < j < |events| :: InsideBlock(json, events[j])
  }

  lemma {:induction false} InThinkingSnoc(json: Json, events: seq<Bytes>, event: Bytes)
    ensures InThinking(json, events + [event])
            <==> OpensThinking(json, event) || (InThinking(json, events) && InsideBlock(json, event))
  {
    var all := events + [event];
    if OpensThinking(json, event) {
      assert OpensThinking(json, all[|events|]);
    } else if InThinking(json, events) && InsideBlock(json, event) {
      var i :| 0 <= i < |events| && OpensThinking(json, events[i]) && forall j | i < j < |events| :: InsideBlock(json, events[j]);
      assert OpensThinking(json, all[i]);
    }
    if InThinking(json, all) && !OpensThinking(json, event) {
      var i :| 0 <= i < |all| && OpensThinking(json, all[i]) && forall j | i < j < |all| :: InsideBlock(json, all[j]);
      assert i < |events| && OpensThinking(json, events[i]) && InsideBlock(json, all[|events|]);
      assert forall j | i < j < |events| :: InsideBlock(json, events[j]) by {
        assert forall j | i < j < |events| :: all[j] == events[j];
      }
    }
  }

  /** The text of a `text_delta`, as a list of one; other events have none. */
  function TextDelta(json: Json, event: Bytes): seq<string> {
    match Decoded(json, event)
    case None => []
    case Some(e) => if e.kind == "content_block_delta" && e.deltaType == "text_delta" then [e.text] else []
  }

  lemma {:induction false} OneEventScanned(json: Json, inThink: bool, event: Bytes)
    ensures var next := Classify(Anthropic, json, DataPayload(event), inThink, event);
            && next.1 == (OpensThinking(json, event) || (inThink && InsideBlock(json, event)))
            && (if next.0.Delta? then [next.0.text] else []) == if inThink then [] else TextDelta(json, event)
  {
  }

  lemma {:induction false} ScannedSnoc(format: Format, json: Json, events: seq<Bytes>, event: Bytes)
    ensures var before := Items(format, json, false, events);
            var next := Classify(format, json, DataPayload(event), before.1, event);
            && Items(format, json, false, events + [event]).1 == next.1
            && Scanned(format, json, events + [event])
               == Scanned(format, json, events) + if next.0.Delta? then [next.0.text] else []
  {
    assert (events + [event])[..|events|] == events;
    var before := Items(format, json, false, events);
    TextsSnoc(before.0, Classify(format, json, DataPayload(event), before.1, event).0);
  }

  lemma {:induction false} ThinkingIsTracked(json: Json, events: seq<Bytes>)
    ensures Items(Anthropic, json, false, events).1 == InThinking(json, events)
  {
    if events != [] {
      var front, last := events[..|events| - 1], events[|events| - 1];
      ThinkingIsTracked(json, front);
      ScannedSnoc(Anthropic, json, front, last);
      OneEventScanned(json, InThinking(json, front), last);
      InThinkingSnoc(json, front, last);
      assert front + [last] == events;
    }
  }

  /** Exactly the `text_delta` events outside thinking blocks are scanned, each with its text. */
  lemma {:induction false} TextDeltasAreScanned(json: Json, events: seq<Bytes>, event: Bytes)
    ensures Scanned(Anthropic, json, events + [event])
            == Scanned(Anthropic, json, events) + if InThinking(json, events) then [] else TextDelta(json, event)
  {
    ThinkingIsTracked(json, events);
    ScannedSnoc(Anthropic, json, events, event);
    OneEventScanned(json, InThinking(json, events), event);
  }

  // ---- OpenAI: one event more ----

  /** The text of the first choice, as a list of one. */
  function FirstChoice(json: Json, event: Bytes): seq<string> {
    match DataPayload(event)
    case None => []
    case Some(payload) =>
      match json.openAIChunk(payload)
      case None => []
      case Some(choices) => if choices == [] then [] else [choices[0]]
  }

  function FirstChoices(json: Json, events: seq<Bytes>): seq<string> {
    if events == [] then [] else FirstChoices(json, events[..|events| - 1]) + FirstChoice(json, events[|events| - 1])
  }

  /** Exactly the non-empty texts of first choices are scanned. */
  lemma {:induction false} FirstChoicesAreScanned(json: Json, events: seq<Bytes>, event: Bytes)
    ensures Scanned(OpenAI, json, events + [event])
            == Scanned(OpenAI, json, events) + if FirstChoice(json, event) == [""] then [] else FirstChoice(json, event)
  {
    ScannedSnoc(OpenAI, json, events, event);
  }

  /** So the text that is read is that of all first choices. */
  lemma {:induction false} ReadsFirstChoices(json: Json, events: seq<Bytes>)
    ensures Concat(Scanned(OpenAI, json, events)) == Concat(FirstChoices(json, events))
  {
    if events != [] {
      var front, last := events[..|events| - 1], events[|events| - 1];
      ReadsFirstChoices(json, front);
      FirstChoicesAreScanned(json, front, last);
      assert front + [last] == events;
      var adds := FirstChoice(json, last);
      ConcatAppend(Scanned(OpenAI, json, front), if adds == [""] then [] else adds);
      ConcatAppend(FirstChoices(json, front), adds);
      assert Concat([""]) == "" + Concat([]);
    }
  }

  // ---- Streamed content blocks ----

  /** A content block as it is streamed, with the events before it that belong to no block. */
  datatype StreamedBlock = StreamedBlock(kind: string, before: seq<Bytes>, open: Bytes, inside: seq<Bytes>, close: Bytes)

  function EventsOf(b: StreamedBlock): seq<Bytes> {
    b.before + ([b.open] + b.inside + [b.close])
  }

  function AllEvents(bs: seq<StreamedBlock>): seq<Bytes> {
    if bs == [] then [] else AllEvents(bs[..|bs| - 1]) + EventsOf(bs[|bs| - 1])
  }

  /** The fragments of text among some events. */
  function Fragments(json: Json, events: seq<Bytes>): seq<string> {
    if events == [] then [] else Fragments(json, events[..|events| - 1]) + TextDelta(json, events[|events| - 1])
  }

  ghost predicate AllInside(json: Json, events: seq<Bytes>) {
    forall i | 0 <= i < |events| :: InsideBlock(json, events[i])
  }

  /** Events between blocks have no text, and a block is opened with its kind and closed. */
  ghost predicate WellStreamed(json: Json, b: StreamedBlock) {
    && AllInside(json, b.before) && Fragments(json, b.before) == []
    && StartsBlock(json, b.open) && Decoded(json, b.open).value.blockType == b.kind
    && AllInside(json, b.inside) && ClosesBlock(json, b.close)
  }

  ghost predicate AllWellStreamed(json: Json, bs: seq<StreamedBlock>) {
    forall i | 0 <= i < |bs| :: WellStreamed(json, bs[i])
  }

  /** What has been scanned in the events, and whether a thinking block is open after them. */
  ghost predicate Read(json: Json, events: seq<Bytes>, texts: seq<string>, thinking: bool) {
    Scanned(Anthropic, json, events) == texts && InThinking(json, events) == thinking
  }

  lemma {:induction false} ReadOne(json: Json, events: seq<Bytes>, texts: seq<string>, thinking: bool, event: Bytes)
    requires Read(json, events, texts, thinking)
    ensures Read(json, events + [event], texts + (if thinking then [] else TextDelta(json, event)),
                 OpensThinking(json, event) || (thinking && InsideBlock(json, event)))
  {
    TextDeltasAreScanned(json, events, event);
    InThinkingSnoc(json, events, event);
  }

  /** Events inside a block add their fragments, unless the block is thinking. */
  lemma {:induction false} ReadInside(json: Json, events: seq<Bytes>, texts: seq<string>, thinking: bool, inside: seq<Bytes>)
    requires Read(json, events, texts, thinking) && AllInside(json, inside)
    ensures Read(json, events + inside, texts + (if thinking then [] else Fragments(json, inside)), thinking)
    decreases |inside|
  {
    if inside == [] {
      assert events + inside == events && texts + [] == texts;
    } else {
      var front, last := inside[..|inside| - 1], inside[|inside| - 1];
      var more := if thinking then [] else Fragments(json, front);
      ReadInside(json, events, texts, thinking, front);
      assert InsideBlock(json, last);
      ReadOne(json, events + front, texts + more, thinking, last);
      InsideIsNoStart(json, last);
      LastOf(events, inside);
      Assoc(texts, more, if thinking then [] else TextDelta(json, last));
    }
  }

  lemma {:induction false} LastOf(events: seq<Bytes>, more: seq<Bytes>)
    requires more != []
    ensures events + more[..|more| - 1] + [more[|more| - 1]] == events + more
  {
  }

  lemma {:induction false} InsideIsNoStart(json: Json, event: Bytes)
    requires InsideBlock(json, event)
    ensures !OpensThinking(json, event)
  {
  }

  lemma {:induction false} StartsAndStopsHaveNoText(json: Json, open: Bytes, kind: string, close: Bytes)
    requires StartsBlock(json, open) && Decoded(json, open).value.blockType == kind && ClosesBlock(json, close)
    ensures TextDelta(json, open) == [] && (OpensThinking(json, open) <==> kind == "thinking")
    ensures !OpensThinking(json, close) && !InsideBlock(json, close) && TextDelta(json, close) == []
  {
  }

  /** Outside thinking, a whole block adds its fragments, unless it is a thinking block. */
  lemma {:induction false} ReadBlock(json: Json, events: seq<Bytes>, texts: seq<string>, b: StreamedBlock)
    requires WellStreamed(json, b) && Read(json, events, texts, false)
    ensures Read(json, events + EventsOf(b), texts + (if b.kind == "thinking" then [] else Fragments(json, b.inside)), false)
  {
    var start, thinking := events + b.before, b.kind == "thinking";
    var more := texts + if thinking then [] else Fragments(json, b.inside);
    StartsAndStopsHaveNoText(json, b.open, b.kind, b.close);
    ReadInside(json, events, texts, false, b.before);
    assert texts + [] == texts && more + [] == more;
    ReadOne(json, start, texts, false, b.open);
    ReadInside(json, start + [b.open], texts, thinking, b.inside);
    ReadOne(json, start + [b.open] + b.inside, more, thinking, b.close);
    Regroup(events, b.before, [b.open], b.inside, [b.close]);
  }

  lemma {:induction false} Regroup(a: seq<Bytes>, b: seq<Bytes>, c: seq<Bytes>, d: seq<Bytes>, e: seq<Bytes>)
    ensures a + b + c + d + e == a + (b + (c + d + e))
  {
  }

  /** The body has the blocks that were streamed: text blocks with all their fragments, other blocks without text. */
  ghost predicate SameBlocks(json: Json, bs: seq<StreamedBlock>, body: seq<Option<AnthropicBlock>>) {
    |body| == |bs| && forall i | 0 <= i < |bs| :: SameBlock(json, bs[i], body[i])
  }

  ghost predicate SameBlock(json: Json, b: StreamedBlock, block: Option<AnthropicBlock>) {
    if b.kind == "text" then block == Some(AnthropicBlock("text", Concat(Fragments(json, b.inside))))
    else
      && (block.Some? ==> block.value.kind == b.kind)
      && (b.kind != "thinking" ==> Fragments(json, b.inside) == [])
  }

  lemma {:induction false} BlockTextsSnoc(blocks: seq<Option<AnthropicBlock>>, block: Option<AnthropicBlock>)
    ensures BlockTexts(blocks + [block]) == BlockTexts(blocks) + BlockText(block)
  {
    if blocks == [] {
      assert [block][1..] == [] && BlockText(block) + [] == BlockText(block);
      assert [] + [block] == [block];
    } else {
      assert (blocks + [block])[1..] == blocks[1..] + [block];
      BlockTextsSnoc(blocks[1..], block);
      Assoc(BlockText(blocks[0]), BlockTexts(blocks[1..]), BlockText(block));
    }
  }

  /** The scanned text of streamed blocks is that of the text blocks of the body, in order. */
  lemma {:induction false} StreamedBlocksAreScanned(json: Json, bs: seq<StreamedBlock>, body: seq<Option<AnthropicBlock>>)
    returns (texts: seq<string>)
    requires AllWellStreamed(json, bs) && SameBlocks(json, bs, body)
    ensures Read(json, AllEvents(bs), texts, false) && Concat(texts) == Concat(BlockTexts(body))
  {
    texts := [];
    if bs != [] {
      var n := |bs| - 1;
      assert AllWellStreamed(json, bs[..n]) && SameBlocks(json, bs[..n], body[..n]);
      var front := StreamedBlocksAreScanned(json, bs[..n], body[..n]);
      assert WellStreamed(json, bs[n]) && SameBlock(json, bs[n], body[n]);
      texts := BlockIsRead(json, AllEvents(bs[..n]), front, bs[n], body[n]);
      TextsUpTo(body, n);
    }
  }

  lemma {:induction false} BlockIsRead(json: Json, events: seq<Bytes>, front: seq<string>, b: StreamedBlock,
                                       block: Option<AnthropicBlock>) returns (texts: seq<string>)
    requires Read(json, events, front, false) && WellStreamed(json, b) && SameBlock(json, b, block)
    ensures Read(json, events + EventsOf(b), texts, false) && Concat(texts) == Concat(front) + Concat(BlockText(block))
  {
    var adds := if b.kind == "thinking" then [] else Fragments(json, b.inside);
    ReadBlock(json, events, front, b);
    SameText(json, b, block);
    ConcatAppend(front, adds);
    texts := front + adds;
  }

  lemma {:induction false} TextsUpTo(body: seq<Option<AnthropicBlock>>, n: nat)
    requires |body| == n + 1
    ensures Concat(BlockTexts(body)) == Concat(BlockTexts(body[..n])) + Concat(BlockText(body[n]))
  {
    BlockTextsSnoc(body[..n], body[n]);
    assert body == body[..n] + [body[n]];
    ConcatAppend(BlockTexts(body[..n]), BlockText(body[n]));
  }

  lemma {:induction false} SameText(json: Json, b: StreamedBlock, block: Option<AnthropicBlock>)
    requires SameBlock(json, b, block)
    ensures Concat(if b.kind == "thinking" then [] else Fragments(json, b.inside)) == Concat(BlockText(block))
  {
    if b.kind == "text" {
      var all := Concat(Fragments(json, b.inside));
      assert Concat([all]) == all + "";
    }
  }

  /** So a client that reads the stream reads the text of the body, whatever the fragments are. */
  lemma {:induction false} StreamReadsAsBody(json: Json, bs: seq<StreamedBlock>, after: seq<Bytes>,
                                             body: seq<Option<AnthropicBlock>>, bytes: Bytes)
    requires AllWellStreamed(json, bs) && SameBlocks(json, bs, body)
    requires AllInside(json, after) && Fragments(json, after) == []
    requires Frame(bytes).events == AllEvents(bs) + after
    ensures ReadText(Anthropic, json, bytes) == Concat(BlockTexts(body))
  {
    var texts := StreamedBlocksAreScanned(json, bs, body);
    ReadInside(json, AllEvents(bs), texts, false, after);
    assert texts + [] == texts;
  }

  /**
   For an Anthropic response that is streamed in these blocks: where the stream shows the tag and its end
   is intact, the client reads what it reads from the body, up to blanks at its end, if and only if there is
   no tag, or the first one lies in one text block and only blanks follow that block.
   */
  lemma {:induction false} StreamAndBodyAgree(json: Json, bs: seq<StreamedBlock>, after: seq<Bytes>,
                                              body: seq<Option<AnthropicBlock>>, bytes: Bytes)
    requires Rewrites(Anthropic, json) && AllWellStreamed(json, bs) && SameBlocks(json, bs, body)
    requires AllInside(json, after) && Fragments(json, after) == [] && Frame(bytes).events == AllEvents(bs) + after
    requires Shown(Scanned(Anthropic, json, Frame(bytes).events)) && LastIsIntact(Anthropic, json, bytes)
    ensures var reply := StripAnthropic(Some(body));
            var agree := !Contains(Concat(BlockTexts(body)), OPEN_TAG) || exists j :: CutInText(BlockTexts(body), j);
            var whole := TrimRight(Concat(BlockTexts(Replace(body, reply.cut))), NewlineOrSpace);
            var streamed := TrimRight(ReadText(Anthropic, json, ClientBytes(Anthropic, json, bytes)), NewlineOrSpace);
            && (whole == streamed <==> agree)
            && (agree ==> TrimSpace(reply.obs) == Finalized(true, Anthropic, json, bytes).0)
  {
    StreamReadsAsBody(json, bs, after, body, bytes);
    AnthropicResponsesAgree(json, body, bytes);
  }

  // ---- Unstreamed bodies ----

  /** The result and the write for a body whose text `block` is `text`. */
  ghost predicate CutAtTag(r: (string, seq<Sent>), body: Bytes, text: string, block: nat) {
    && r.0 == ObservationAfter(text, Index(text, OPEN_TAG))
    && r.1 == [Body(body, Some(Cut(block, TrimRight(Before(text, OPEN_TAG), NewlineOrSpace))))]
  }

  predicate HasTag(block: Option<AnthropicBlock>) {
    block.Some? && block.value.kind == "text" && Contains(block.value.text, OPEN_TAG)
  }

  /** An OpenAI body is cut at the first tag in the text of its first choice, and no other. */
  lemma {:induction false} OpenAIBodyIsCut(json: Json, body: Bytes)
    requires body != ""
    ensures var r := Finalized(false, OpenAI, json, body);
            match json.openAIBody(body)
            case None => r == ("", [Body(body, None)])
            case Some(choices) =>
              if choices != [] && Contains(choices[0], OPEN_TAG) then CutAtTag(r, body, choices[0], 0)
              else r == ("", [Body(body, None)])
  {
    TrimEmpty();
  }

  /** An Anthropic body is cut at the first tag of the first text block with one, and in no other block. */
  lemma {:induction false} AnthropicBodyIsCut(json: Json, body: Bytes, blocks: seq<Option<AnthropicBlock>>, i: nat)
    requires body != "" && json.anthropicBody(body) == Some(blocks)
    requires i <= |blocks| && (forall k | 0 <= k < i :: !HasTag(blocks[k])) && (i < |blocks| ==> HasTag(blocks[i]))
    ensures var r := Finalized(false, Anthropic, json, body);
            if i < |blocks| then CutAtTag(r, body, blocks[i].value.text, i) else r == ("", [Body(body, None)])
  {
    TrimEmpty();
    FirstTaggedIs(blocks, 0, i);
  }

  lemma {:induction false} FirstTaggedIs(blocks: seq<Option<AnthropicBlock>>, from: nat, i: nat)
    requires from <= i <= |blocks| && (forall k | from <= k < i :: !HasTag(blocks[k])) && (i < |blocks| ==> HasTag(blocks[i]))
    ensures FirstTagged(blocks, from) == if i < |blocks| then Some(i) else None
    decreases i - from
  {
    if from < i {
      FirstTaggedIs(blocks, from + 1, i);
    }
  }

  /** Other bodies are sent as they are, and an empty one not at all. */
  lemma {:induction false} OtherBodiesStay(format: Format, json: Json, body: Bytes)
    ensures Finalized(false, format, json, "") == ("", [])
    ensures body != "" && (format.OtherFormat? || (format.Anthropic? && json.anthropicBody(body).None?)) ==>
              Finalized(false, format, json, body) == ("", [Body(body, None)])
  {
    TrimEmpty();
  }
}
