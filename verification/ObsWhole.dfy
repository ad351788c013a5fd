/**
 The non-streaming path of the `<obs>` stripper (proxy/internal/proxy/obs.go:337-440) and when it
 agrees with the streaming path.
 */
module ObsWhole {
  import opened Text
  import opened ObsStrip
  import opened ObsScan
  import opened ObsStreaming

  /** The extracted observation and the text to replace; nothing is replaced when no tag is found. */
  datatype Reply = Reply(obs: string, cut: Option<Cut>)

  const UNCHANGED := Reply("", None)

  predicate NewlineOrSpace(c: char) {
    c == '\n' || c == ' '
  }

  /** The reply for a tag at `i` in the text of block `block`. */
  function CutAt(text: string, i: nat, block: nat): Reply
    requires OccursAt(text, OPEN_TAG, i)
  {
    Reply(Before(text[i + |OPEN_TAG|..], CLOSE_TAG), Some(Cut(block, TrimRight(text[..i], NewlineOrSpace))))
  }

  function StripOpenAI(choices: Option<seq<string>>): Reply {
    if choices.None? || choices.value == [] then UNCHANGED
    else match Index(choices.value[0], OPEN_TAG)
      case None => UNCHANGED
      case Some(i) => CutAt(choices.value[0], i, 0)
  }

  predicate Tagged(block: Option<AnthropicBlock>) {
    block.Some? && block.value.kind == "text" && Contains(block.value.text, OPEN_TAG)
  }

  /** The first text block with a tag, from block `from` on. */
  function FirstTagged(blocks: seq<Option<AnthropicBlock>>, from: nat): (r: Option<nat>)
    requires from <= |blocks|
    ensures r.Some? ==> from <= r.value < |blocks| && Tagged(blocks[r.value])
    decreases |blocks| - from
  {
    if from == |blocks| then None
    else if Tagged(blocks[from]) then Some(from)
    else FirstTagged(blocks, from + 1)
  }

  function StripAnthropic(body: Option<seq<Option<AnthropicBlock>>>): Reply {
    if body.None? then UNCHANGED
    else match FirstTagged(body.value, 0)
      case None => UNCHANGED
      case Some(i) =>
        var text := body.value[i].value.text;
        CutAt(text, Index(text, OPEN_TAG).value, i)
  }

  /** What `Finalize` returns and sends for a whole body. */
  function FinishBody(format: Format, json: Json, body: Bytes): (string, seq<Sent>) {
    if body == "" then ("", [])
    else
      var reply := match format
        case Anthropic => StripAnthropic(json.anthropicBody(body))
        case OpenAI => StripOpenAI(json.openAIBody(body))
        case OtherFormat => UNCHANGED;
      (TrimSpace(reply.obs), [Body(body, reply.cut)])
  }

  // ---- OpenAI: one message text ----

  /** The content the client finds in the first choice. */
  function OpenAIText(content: string, reply: Reply): string {
    if reply.cut.Some? then reply.cut.value.text else content
  }

  /** The streamed text, without the blanks before a removed observation. */
  function StreamedText(items: seq<Item>, rest: Bytes): string {
    var text := WrittenText(Finish(Run(items), rest).sent);
    if Contains(FullText(items), OPEN_TAG) then TrimRight(text, NewlineOrSpace) else text
  }

  lemma {:induction false} TrimmedTextsDiffer(text: string, p: nat, longer: string)
    requires OccursAt(text, OPEN_TAG, p) && longer <= text && p < |longer|
    ensures TrimRight(longer, NewlineOrSpace) != TrimRight(text[..p], NewlineOrSpace)
  {
    OccurrenceAt(text, OPEN_TAG, p, p);
    TrimRightKeeps(longer, NewlineOrSpace, p);
  }

  /**
   For an OpenAI response both paths give the client the same content, up to blanks before the
   observation, if and only if the streaming path sees the first tag; then they also extract the
   same observation.
   */
  lemma {:induction false} OpenAIPathsAgree(choices: seq<string>, items: seq<Item>, rest: Bytes)
    requires choices != [] && choices[0] == FullText(items)
    ensures var first := Index(choices[0], OPEN_TAG);
            var seen := first.None? || InTwoDeltas(Texts(items), first.value);
            var reply := StripOpenAI(Some(choices));
            && (OpenAIText(choices[0], reply) == StreamedText(items, rest) <==> seen)
            && (seen ==> TrimSpace(reply.obs) == Observation(Finish(Run(items), rest)))
  {
    var text, first := choices[0], Index(choices[0], OPEN_TAG);
    StripsFirstObservation(items, rest);
    TrimEmpty();
    if first.Some? && !InTwoDeltas(Texts(items), first.value) {
      WritesUpToHit(items, rest);
      HitIsFirstTag(Texts(items));
      var sent := WrittenText(Finish(Run(items), rest).sent);
      var hit := Hit(Texts(items));
      if hit.Some? {
        IndexIsFirst(text, OPEN_TAG, hit.value);
      }
      TrimmedTextsDiffer(text, first.value, sent);
    }
  }

  // ---- Anthropic: several text blocks ----

  /** The texts of the text blocks. */
  function BlockTexts(blocks: seq<Option<AnthropicBlock>>): seq<string> {
    if blocks == [] then []
    else (if blocks[0].Some? && blocks[0].value.kind == "text" then [blocks[0].value.text] else [])
         + BlockTexts(blocks[1..])
  }

  function Replace(blocks: seq<Option<AnthropicBlock>>, cut: Option<Cut>): seq<Option<AnthropicBlock>> {
    if cut.Some? && cut.value.block < |blocks| && blocks[cut.value.block].Some?
    then blocks[cut.value.block := Some(blocks[cut.value.block].value.(text := cut.value.text))]
    else blocks
  }

  /** The first text with a tag is cut there; all others stay. */
  function CutTexts(texts: seq<string>): seq<string> {
    if texts == [] then []
    else match Index(texts[0], OPEN_TAG)
      case Some(i) => [TrimRight(texts[0][..i], NewlineOrSpace)] + texts[1..]
      case None => [texts[0]] + CutTexts(texts[1..])
  }

  /** The observation in the first text with a tag. */
  function FirstObservation(texts: seq<string>): string {
    if texts == [] then ""
    else match Index(texts[0], OPEN_TAG)
      case Some(i) => Before(texts[0][i + |OPEN_TAG|..], CLOSE_TAG)
      case None => FirstObservation(texts[1..])
  }

  /** The text of one block, if it is a text block. */
  function BlockText(block: Option<AnthropicBlock>): seq<string> {
    if block.Some? && block.value.kind == "text" then [block.value.text] else []
  }

  function StripFrom(blocks: seq<Option<AnthropicBlock>>, from: nat): Reply
    requires from <= |blocks|
  {
    match FirstTagged(blocks, from)
    case None => UNCHANGED
    case Some(i) => CutAt(blocks[i].value.text, Index(blocks[i].value.text, OPEN_TAG).value, i)
  }

  /** Only the first tagged text block changes in the body, and the observation is taken from it. */
  lemma {:induction false} BodyTexts(blocks: seq<Option<AnthropicBlock>>, from: nat)
    requires from <= |blocks|
    ensures BlockTexts(Replace(blocks, StripFrom(blocks, from).cut)[from..]) == CutTexts(BlockTexts(blocks[from..]))
    ensures StripFrom(blocks, from).obs == FirstObservation(BlockTexts(blocks[from..]))
    decreases |blocks| - from
  {
    if from < |blocks| {
      var block, after := blocks[from], blocks[from + 1..];
      var changed := Replace(blocks, StripFrom(blocks, from).cut);
      assert blocks[from..] == [block] + after;
      assert changed[from..] == [changed[from]] + changed[from + 1..];
      if Tagged(block) {
        assert changed[from + 1..] == after;
        assert ([block.value.text] + BlockTexts(after))[1..] == BlockTexts(after);
      } else {
        BodyTexts(blocks, from + 1);
        CutTextsSkips(BlockText(block), BlockTexts(after));
      }
    }
  }

  lemma {:induction false} CutTextsSkips(head: seq<string>, rest: seq<string>)
    requires head == [] || (|head| == 1 && !Contains(head[0], OPEN_TAG))
    ensures CutTexts(head + rest) == head + CutTexts(rest)
    ensures FirstObservation(head + rest) == FirstObservation(rest)
  {
    if head == [] {
      assert head + rest == rest && head + CutTexts(rest) == CutTexts(rest);
    } else {
      assert (head + rest)[1..] == rest;
    }
  }

  /** The first tag of the whole text lies in text `j`, and only blanks follow that text. */
  ghost predicate CutInText(texts: seq<string>, j: nat) {
    && j < |texts|
    && Contains(texts[j], OPEN_TAG)
    && Index(Concat(texts), OPEN_TAG) == Some(|Concat(texts[..j])| + Index(texts[j], OPEN_TAG).value)
    && AllCut(Concat(texts[j + 1..]), NewlineOrSpace)
  }

  /** The first text with a tag. */
  ghost predicate FirstTaggedText(texts: seq<string>, j: nat) {
    j < |texts| && Contains(texts[j], OPEN_TAG) && forall i: nat | i < j :: !Contains(texts[i], OPEN_TAG)
  }

  lemma {:induction false} CutTextsWithoutTag(texts: seq<string>)
    requires forall i: nat | i < |texts| :: !Contains(texts[i], OPEN_TAG)
    ensures CutTexts(texts) == texts
  {
    if texts != [] {
      CutTextsWithoutTag(texts[1..]);
    }
  }

  /** The text before block `j`, the kept part of block `j` and the text after it. */
  lemma {:induction false} CutTextsWithTag(texts: seq<string>, j: nat)
    requires FirstTaggedText(texts, j)
    ensures var x := texts[j][..Index(texts[j], OPEN_TAG).value];
            Concat(CutTexts(texts)) == Concat(texts[..j]) + TrimRight(x, NewlineOrSpace) + Concat(texts[j + 1..])
  {
    var r := TrimRight(texts[j][..Index(texts[j], OPEN_TAG).value], NewlineOrSpace);
    if j == 0 {
      assert Concat(CutTexts(texts)) == r + Concat(texts[1..]);
    } else {
      var a, c := Concat(texts[1..][..j - 1]), Concat(texts[j + 1..]);
      CutTextsWithTag(texts[1..], j - 1);
      assert texts[..j][1..] == texts[1..][..j - 1] && texts[1..][j..] == texts[j + 1..];
      assert Concat(CutTexts(texts)) == texts[0] + (a + r + c);
      Assoc(texts[0], a + r, c);
      Assoc(texts[0], a, r);
    }
  }

  lemma {:induction false} TextAtTag(texts: seq<string>, j: nat)
    requires j < |texts| && Contains(texts[j], OPEN_TAG)
    ensures var i := Index(texts[j], OPEN_TAG).value;
            var whole, at := Concat(texts), |Concat(texts[..j])| + i;
            && OccursAt(whole, OPEN_TAG, at)
            && whole[..at] == Concat(texts[..j]) + texts[j][..i]
            && whole[at + |OPEN_TAG|..] == texts[j][i + |OPEN_TAG|..] + Concat(texts[j + 1..])
  {
    var i := Index(texts[j], OPEN_TAG).value;
    var a, b := Concat(texts[..j]), Concat(texts[j + 1..]);
    ConcatAppend(texts[..j], texts[j..]);
    assert texts == texts[..j] + texts[j..] && texts[j..][1..] == texts[j + 1..];
    assert Concat(texts) == a + (texts[j] + b);
    OccursInPrefix(texts[j], b, OPEN_TAG, i);
    OccursInSuffix(a, texts[j] + b, OPEN_TAG, i);
  }

  lemma {:induction false} TaggedTextExists(texts: seq<string>) returns (j: Option<nat>)
    ensures j.Some? ==> FirstTaggedText(texts, j.value)
    ensures j.None? ==> forall i: nat | i < |texts| :: !Contains(texts[i], OPEN_TAG)
  {
    j := None;
    for i := 0 to |texts|
      invariant j.None?
      invariant forall k: nat | k < i :: !Contains(texts[k], OPEN_TAG)
    {
      if Contains(texts[i], OPEN_TAG) {
        return Some(i);
      }
    }
  }

  /** A text that still has the first tag's first character differs from the text before the tag. */
  lemma {:induction false} KeptTagDiffers(whole: string, p: nat, kept: string)
    requires OccursAt(whole, OPEN_TAG, p) && p < |kept| && kept[p] == whole[p]
    ensures TrimRight(kept, NewlineOrSpace) != TrimRight(whole[..p], NewlineOrSpace)
  {
    OccurrenceAt(whole, OPEN_TAG, p, p);
    TrimRightKeeps(kept, NewlineOrSpace, p);
  }

  lemma {:induction false} CutKeepsTag(whole: string, p: nat, a: string, x: string, l: string)
    requires OccursAt(whole, OPEN_TAG, p) && a + x <= whole && p < |a| + |x|
    ensures TrimRight(a + TrimRight(x, NewlineOrSpace) + l, NewlineOrSpace) != TrimRight(whole[..p], NewlineOrSpace)
  {
    OccurrenceAt(whole, OPEN_TAG, p, p);
    var r := TrimRight(x, NewlineOrSpace);
    assert whole[p] == (a + x)[p];
    if p >= |a| {
      TrimRightKeeps(x, NewlineOrSpace, p - |a|);
    }
    KeptTagDiffers(whole, p, a + r + l);
  }

  lemma {:induction false} BlanksAfterCut(a: string, x: string, l: string)
    ensures TrimRight(a + TrimRight(x, NewlineOrSpace) + l, NewlineOrSpace) == TrimRight(a + x, NewlineOrSpace)
            <==> AllCut(l, NewlineOrSpace)
  {
    var kept := a + TrimRight(x, NewlineOrSpace);
    TrimRightTwice(a, x, NewlineOrSpace);
    if AllCut(l, NewlineOrSpace) {
      TrimRightDrops(kept, l, NewlineOrSpace);
    } else {
      var k :| 0 <= k < |l| && !NewlineOrSpace(l[k]);
      TrimRightKeeps(kept + l, NewlineOrSpace, |kept| + k);
    }
  }

  /** Cutting in one text agrees with cutting the whole text. */
  lemma {:induction false} CutTextsAgree(texts: seq<string>)
    ensures TrimRight(Concat(CutTexts(texts)), NewlineOrSpace) == TrimRight(Before(Concat(texts), OPEN_TAG), NewlineOrSpace)
            <==> !Contains(Concat(texts), OPEN_TAG) || exists j :: CutInText(texts, j)
  {
    var whole := Concat(texts);
    var tagged := TaggedTextExists(texts);
    match tagged
    case None =>
      CutTextsWithoutTag(texts);
      if Contains(whole, OPEN_TAG) {
        KeptTagDiffers(whole, Index(whole, OPEN_TAG).value, whole);
      }
    case Some(j) =>
      AgreeAtBlock(texts, j);
  }

  lemma {:induction false} AgreeAtBlock(texts: seq<string>, j: nat)
    requires FirstTaggedText(texts, j)
    ensures Contains(Concat(texts), OPEN_TAG)
    ensures TrimRight(Concat(CutTexts(texts)), NewlineOrSpace) == TrimRight(Before(Concat(texts), OPEN_TAG), NewlineOrSpace)
            <==> exists k :: CutInText(texts, k)
  {
    AgreeInText(texts, j);
    forall k ensures CutInText(texts, k) ==> k == j {
      NotCutElsewhere(texts, j, k);
    }
    OnlyBlockMatters(texts, j);
  }

  lemma {:induction false} AgreeInText(texts: seq<string>, j: nat)
    requires FirstTaggedText(texts, j)
    ensures Contains(Concat(texts), OPEN_TAG)
    ensures TrimRight(Concat(CutTexts(texts)), NewlineOrSpace) == TrimRight(Before(Concat(texts), OPEN_TAG), NewlineOrSpace)
            <==> CutInText(texts, j)
  {
    TextAtTag(texts, j);
    CutTextsWithTag(texts, j);
    AgreeAtCut(Concat(texts), Concat(texts[..j]), texts[j][..Index(texts[j], OPEN_TAG).value], Concat(texts[j + 1..]));
  }

  lemma {:induction false} OnlyBlockMatters(texts: seq<string>, j: nat)
    requires FirstTaggedText(texts, j) && forall k :: CutInText(texts, k) ==> k == j
    ensures (exists k :: CutInText(texts, k)) <==> CutInText(texts, j)
  {
  }

  /** `whole` has the tag after `a + x`; `l` is the text of the blocks after the one with the tag. */
  lemma {:induction false} AgreeAtCut(whole: string, a: string, x: string, l: string)
    requires OccursAt(whole, OPEN_TAG, |a| + |x|) && whole[..|a| + |x|] == a + x
    ensures Contains(whole, OPEN_TAG)
    ensures TrimRight(a + TrimRight(x, NewlineOrSpace) + l, NewlineOrSpace) == TrimRight(Before(whole, OPEN_TAG), NewlineOrSpace)
            <==> Index(whole, OPEN_TAG) == Some(|a| + |x|) && AllCut(l, NewlineOrSpace)
  {
    IndexIsFirst(whole, OPEN_TAG, |a| + |x|);
    var p := Index(whole, OPEN_TAG).value;
    if p < |a| + |x| {
      CutKeepsTag(whole, p, a, x, l);
    } else {
      BlanksAfterCut(a, x, l);
    }
  }

  /** No other text than the first tagged one can hold the first tag of the whole. */
  lemma {:induction false} NotCutElsewhere(texts: seq<string>, j: nat, k: nat)
    requires FirstTaggedText(texts, j)
    ensures CutInText(texts, k) ==> k == j
  {
    TextAtTag(texts, j);
    IndexIsFirst(Concat(texts), OPEN_TAG, |Concat(texts[..j])| + Index(texts[j], OPEN_TAG).value);
    ConcatSnoc(texts[..j], texts[j]);
    assert texts[..j + 1] == texts[..j] + [texts[j]];
    if CutInText(texts, k) && j < k {
      OffsetMonotone(texts, j + 1, k);
    }
  }

  lemma {:induction false} FirstObservationAt(texts: seq<string>, j: nat)
    requires FirstTaggedText(texts, j)
    ensures FirstObservation(texts) == Before(texts[j][Index(texts[j], OPEN_TAG).value + |OPEN_TAG|..], CLOSE_TAG)
  {
    if j > 0 {
      FirstObservationAt(texts[1..], j - 1);
    }
  }

  lemma {:induction false} NoObservation(texts: seq<string>)
    requires forall i: nat | i < |texts| :: !Contains(texts[i], OPEN_TAG)
    ensures FirstObservation(texts) == ""
  {
    if texts != [] {
      NoObservation(texts[1..]);
    }
  }

  lemma {:induction false} ObservationsAgree(texts: seq<string>)
    requires !Contains(Concat(texts), OPEN_TAG) || exists j :: CutInText(texts, j)
    ensures TrimSpace(FirstObservation(texts)) == ObservationAfter(Concat(texts), Index(Concat(texts), OPEN_TAG))
  {
    var tagged := TaggedTextExists(texts);
    match tagged
    case None =>
      NoObservation(texts);
      TrimEmpty();
      forall j ensures !CutInText(texts, j) {
      }
    case Some(j) =>
      AgreeAtBlock(texts, j);
      var k :| CutInText(texts, k);
      NotCutElsewhere(texts, j, k);
      ObservationInText(texts, j);
  }

  lemma {:induction false} ObservationInText(texts: seq<string>, j: nat)
    requires FirstTaggedText(texts, j) && CutInText(texts, j)
    ensures TrimSpace(FirstObservation(texts)) == ObservationAfter(Concat(texts), Index(Concat(texts), OPEN_TAG))
  {
    FirstObservationAt(texts, j);
    TextAtTag(texts, j);
    BlanksAfterObservation(texts[j][Index(texts[j], OPEN_TAG).value + |OPEN_TAG|..], Concat(texts[j + 1..]));
  }

  /**
   For an Anthropic response whose first tag the stream sees, the two paths give the client the
   same text, up to blanks at its end, if and only if there is no tag, or the first tag lies in one
   text block and only blanks follow that block; then they extract the same observation. Elsewhere
   they differ: the stream drops everything after the tag, the whole body keeps the later blocks.
   */
  lemma {:induction false} AnthropicPathsAgree(blocks: seq<Option<AnthropicBlock>>, items: seq<Item>, rest: Bytes)
    requires FullText(items) == Concat(BlockTexts(blocks))
    requires var first := Index(FullText(items), OPEN_TAG); first.None? || InTwoDeltas(Texts(items), first.value)
    ensures var reply, f := StripAnthropic(Some(blocks)), Finish(Run(items), rest);
            var agree := !Contains(FullText(items), OPEN_TAG) || exists j :: CutInText(BlockTexts(blocks), j);
            var whole := TrimRight(Concat(BlockTexts(Replace(blocks, reply.cut))), NewlineOrSpace);
            var streamed := TrimRight(WrittenText(f.sent), NewlineOrSpace);
            && (whole == streamed <==> agree)
            && (agree ==> TrimSpace(reply.obs) == Observation(f))
  {
    var texts := BlockTexts(blocks);
    StripsFirstObservation(items, rest);
    BodyTexts(blocks, 0);
    assert blocks[0..] == blocks;
    var changed := Replace(blocks, StripFrom(blocks, 0).cut);
    assert changed[0..] == changed;
    CutTextsAgree(texts);
    if !Contains(Concat(texts), OPEN_TAG) || exists j :: CutInText(texts, j) {
      ObservationsAgree(texts);
    }
  }

  /**
   For example, a first block that opens with the observation and a second one with text: the whole body
   still shows the second block, and the events written for one delta per block show nothing.
   */
  lemma {:induction false} LaterBlocksAreKept(items: seq<Item>, rest: Bytes, note: string, later: string)
    requires Texts(items) == [OPEN_TAG + note, later]
    ensures var blocks := [Some(AnthropicBlock("text", OPEN_TAG + note)), Some(AnthropicBlock("text", later))];
            && BlockTexts(blocks) == Texts(items)
            && BlockTexts(Replace(blocks, StripAnthropic(Some(blocks)).cut)) == ["", later]
            && WrittenText(Finish(Run(items), rest).sent) == ""
  {
    var first := OPEN_TAG + note;
    var blocks := [Some(AnthropicBlock("text", first)), Some(AnthropicBlock("text", later))];
    TextsOfTwo(first, later);
    OpensWithTag(first, later);
    TagInFirstDelta(first, later);
    BodyTexts(blocks, 0);
    assert blocks[0..] == blocks;
    var changed := Replace(blocks, StripFrom(blocks, 0).cut);
    assert changed[0..] == changed;
    StripsFirstObservation(items, rest);
  }

  lemma {:induction false} TextsOfTwo(a: string, b: string)
    ensures BlockTexts([Some(AnthropicBlock("text", a)), Some(AnthropicBlock("text", b))]) == [a, b]
  {
    var x, y := Some(AnthropicBlock("text", a)), Some(AnthropicBlock("text", b));
    assert [x, y][1..] == [y] && [y][1..] == [];
    assert BlockTexts([y]) == [b] + BlockTexts([]);
    assert BlockTexts([x, y]) == [a] + BlockTexts([y]);
  }

  lemma {:induction false} OpensWithTag(first: string, later: string)
    requires OPEN_TAG <= first
    ensures Index(first, OPEN_TAG) == Some(0) && CutTexts([first, later]) == ["", later]
    ensures Index(Concat([first, later]), OPEN_TAG) == Some(0)
  {
    IndexIsFirst(first, OPEN_TAG, 0);
    IndexIsFirst(Concat([first, later]), OPEN_TAG, 0);
    assert Index(first, OPEN_TAG) == Some(0);
    assert TrimRight(first[..0], NewlineOrSpace) == "";
    assert CutTexts([first, later]) == [""] + [first, later][1..];
  }

  lemma {:induction false} TagInFirstDelta(first: string, later: string)
    requires OPEN_TAG <= first
    ensures InTwoDeltas([first, later], 0)
  {
    var ds := [first, later];
    assert ds[..0] == [] && ds[..1] == [first];
    assert Concat([first]) == first + Concat([]);
    assert WindowStart(ds, 0) == 0 && Offset(ds, 1) == |first|;
  }

  lemma {:induction false} BlanksAfterObservation(after: string, blanks: string)
    requires AllCut(blanks, NewlineOrSpace)
    ensures TrimSpace(Before(after + blanks, CLOSE_TAG)) == TrimSpace(Before(after, CLOSE_TAG))
  {
    if Contains(after, CLOSE_TAG) {
      BeforeExtends(after, blanks);
    } else {
      if Contains(after + blanks, CLOSE_TAG) {
        var i := Index(after + blanks, CLOSE_TAG).value;
        OccursInPrefix(after, blanks, CLOSE_TAG, i);
        EndOfTag(after, blanks, i);
      }
      TrimSpaceDrops(after, blanks);
    }
  }

  /** The tag's last character is no blank, so the tag ends before the blanks. */
  lemma {:induction false} EndOfTag(after: string, blanks: string, i: nat)
    requires AllCut(blanks, NewlineOrSpace) && OccursAt(after + blanks, CLOSE_TAG, i)
    ensures Contains(after, CLOSE_TAG)
  {
    OccurrenceAt(after + blanks, CLOSE_TAG, i, i + |CLOSE_TAG| - 1);
    OccursInPrefix(after, blanks, CLOSE_TAG, i);
    IndexIsFirst(after, CLOSE_TAG, i);
  }
}
