/**
 The streaming Gemma4 parser against the non-streaming one, for every chunking of a response
 that opens with the thinking channel (patches/gemma4_reasoning_parser.py:103-230).
 */
module GemmaAgreement {
  import opened Text
  import opened GemmaParser

  /** What the parser has emitted: its state and the text of all messages so far. */
  datatype Output = Output(prefix: Prefix, reasoning: string, content: string)

  const NOTHING := Output(Prefix("", false), "", "")

  function OrEmpty(s: Option<string>): string {
    if s.Some? then s.value else ""
  }

  function Emit(o: Output, message: Option<DeltaMessage>): Output {
    var (prefix, result) := Strip(o.prefix, message);
    match result
    case None => o.(prefix := prefix)
    case Some(m) => Output(prefix, o.reasoning + OrEmpty(m.reasoning), o.content + OrEmpty(m.content))
  }

  function Ids(ds: seq<Delta>): seq<int> {
    if ds == [] then [] else Ids(ds[..|ds| - 1]) + ds[|ds| - 1].ids
  }

  function TextOf(ds: seq<Delta>): string {
    if ds == [] then "" else TextOf(ds[..|ds| - 1]) + ds[|ds| - 1].text
  }

  /** Feeding deltas to the parser one by one. */
  ghost function Feed(v: Vocab, ds: seq<Delta>): Output {
    if ds == [] then NOTHING
    else
      var front, last := ds[..|ds| - 1], ds[|ds| - 1];
      Emit(Feed(v, front), BaseStreaming(v, Ids(front), last))
  }

  lemma {:induction false} FeedSnoc(v: Vocab, ds: seq<Delta>, d: Delta)
    ensures Feed(v, ds + [d]) == Emit(Feed(v, ds), BaseStreaming(v, Ids(ds), d))
    ensures Ids(ds + [d]) == Ids(ds) + d.ids
    ensures TextOf(ds + [d]) == TextOf(ds) + d.text
  {
    assert (ds + [d])[..|ds|] == ds;
  }

  lemma {:induction false} AppendLast(a: seq<Delta>, b: seq<Delta>)
    requires b != []
    ensures a + b == a + b[..|b| - 1] + [b[|b| - 1]]
  {
  }

  // ---- Streams ----

  /** How the end token arrives: alone, or in a delta with text on either side of it. */
  datatype End = Alone | Mixed(before: string, after: string, ids: seq<int>)

  /** Start token, reasoning deltas, end token, content deltas. */
  datatype Stream = Stream(reasoning: seq<Delta>, end: End, content: seq<Delta>)

  ghost predicate Ordinary(v: Vocab, ds: seq<Delta>) {
    forall k | 0 <= k < |ds| :: v.start !in ds[k].ids && v.end !in ds[k].ids
  }

  ghost predicate WellFormed(v: Vocab, s: Stream) {
    && v.Distinct()
    && Ordinary(v, s.reasoning) && Ordinary(v, s.content)
    && (s.end.Mixed? ==> v.end in s.end.ids && |s.end.ids| != 1)
    && !Contains(Reasoning(s), END_TOKEN)
  }

  function EndDelta(v: Vocab, end: End): Delta {
    match end
    case Alone => Delta(END_TOKEN, [v.end])
    case Mixed(before, after, ids) => Delta(before + END_TOKEN + after, ids)
  }

  function StartDelta(v: Vocab): Delta {
    Delta(START_TOKEN, [v.start])
  }

  function Deltas(v: Vocab, s: Stream): seq<Delta> {
    [StartDelta(v)] + s.reasoning + [EndDelta(v, s.end)] + s.content
  }

  /** The text between the start and the end token. */
  function Reasoning(s: Stream): string {
    TextOf(s.reasoning) + if s.end.Mixed? then s.end.before else ""
  }

  /** The text after the end token. */
  function Content(s: Stream): string {
    (if s.end.Mixed? then s.end.after else "") + TextOf(s.content)
  }

  // ---- The reasoning phase ----

  /** All that was seen may still turn out to be the role label. */
  predicate Undecided(text: string) {
    text < THOUGHT_PREFIX
  }

  /** What has been emitted after reasoning text `text`. */
  function AfterReasoning(text: string): Output {
    Output(Prefix(text, !Undecided(text)), if Undecided(text) then "" else StripThoughtLabel(text), "")
  }

  lemma {:induction false} ReasoningStep(text: string, more: string, content: Option<string>)
    ensures var r := Emit(AfterReasoning(text), Some(DeltaMessage(Some(more), content)));
            r == AfterReasoning(text + more).(content := if Undecided(text + more) then "" else OrEmpty(content))
  {
    var all := text + more;
    if Undecided(text) {
      if THOUGHT_PREFIX <= all {
        assert "" + all[|THOUGHT_PREFIX|..] == all[|THOUGHT_PREFIX|..];
      } else if all <= THOUGHT_PREFIX {
        assert all < THOUGHT_PREFIX;
      }
    } else {
      LabelDecided(text, more);
    }
  }

  /** Once decided, later text is reasoning as it is. */
  lemma {:induction false} LabelDecided(text: string, more: string)
    requires !Undecided(text)
    ensures !Undecided(text + more) && StripThoughtLabel(text + more) == StripThoughtLabel(text) + more
  {
    var all := text + more;
    if THOUGHT_PREFIX <= text {
      assert all[|THOUGHT_PREFIX|..] == text[|THOUGHT_PREFIX|..] + more;
    } else {
      var k := FirstDifference(text, THOUGHT_PREFIX);
      assert all[k] == text[k];
    }
  }

  lemma {:induction false} FirstDifference(a: string, b: string) returns (k: nat)
    requires !(a <= b) && !(b <= a)
    ensures k < |a| && k < |b| && a[k] != b[k]
  {
    k := 0;
    while k < |a| && k < |b| && a[k] == b[k]
      invariant k <= |a| && k <= |b| && a[..k] == b[..k]
    {
      k := k + 1;
    }
  }

  /** Between the start and the end token, ordinary deltas are reasoning. */
  lemma {:induction false} BaseIsReasoning(v: Vocab, previous: seq<int>, d: Delta)
    requires v.start in previous && v.end !in previous
    requires v.start !in d.ids && v.end !in d.ids
    ensures BaseStreaming(v, previous, d) == Some(DeltaMessage(Some(d.text), None))
  {
  }

  lemma {:induction false} ReasoningNext(v: Vocab, ds: seq<Delta>, d: Delta, text: string)
    requires v.start in Ids(ds) && v.end !in Ids(ds) && v.start !in d.ids && v.end !in d.ids
    requires Feed(v, ds) == AfterReasoning(text)
    ensures Feed(v, ds + [d]) == AfterReasoning(text + d.text)
    ensures v.start in Ids(ds + [d]) && v.end !in Ids(ds + [d])
  {
    FeedSnoc(v, ds, d);
    BaseIsReasoning(v, Ids(ds), d);
    ReasoningStep(text, d.text, None);
  }

  lemma {:induction false} ReasoningGoesOn(v: Vocab, start: seq<Delta>, rs: seq<Delta>)
    requires Ordinary(v, rs) && Feed(v, start) == AfterReasoning("")
    requires v.start in Ids(start) && v.end !in Ids(start)
    ensures Feed(v, start + rs) == AfterReasoning(TextOf(rs))
    ensures v.start in Ids(start + rs) && v.end !in Ids(start + rs)
  {
    if rs == [] {
      assert start + rs == start;
    } else {
      var front, last := rs[..|rs| - 1], rs[|rs| - 1];
      ReasoningGoesOn(v, start, front);
      ReasoningNext(v, start + front, last, TextOf(front));
      AppendLast(start, rs);
    }
  }

  lemma {:induction false} ReasoningPhase(v: Vocab, rs: seq<Delta>)
    requires v.Distinct() && Ordinary(v, rs)
    ensures Feed(v, [StartDelta(v)] + rs) == AfterReasoning(TextOf(rs))
    ensures v.start in Ids([StartDelta(v)] + rs) && v.end !in Ids([StartDelta(v)] + rs)
  {
    FeedSnoc(v, [], StartDelta(v));
    assert [] + [StartDelta(v)] == [StartDelta(v)];
    ReasoningGoesOn(v, [StartDelta(v)], rs);
  }

  // ---- The end token ----

  lemma {:induction false} EndTokenIsUnbordered()
    ensures Unbordered(END_TOKEN)
  {
  }

  lemma {:induction false} FindEnd(before: string, after: string)
    requires !Contains(before, END_TOKEN)
    ensures var text := before + END_TOKEN + after;
            && Find(text, END_TOKEN) == |before|
            && Slice(text, 0, |before|) == before
            && Slice(text, |before| + |END_TOKEN|, |text|) == after
  {
    EndTokenIsUnbordered();
    IndexOfInserted(before, END_TOKEN, after);
  }

  /** The output right after the end token has arrived. */
  function AfterEnd(s: Stream): Output {
    AfterReasoning(Reasoning(s)).(content := if s.end.Mixed? && !Undecided(Reasoning(s)) then s.end.after else "")
  }

  lemma {:induction false} NotInPart(a: string, b: string)
    requires !Contains(a + b, END_TOKEN)
    ensures !Contains(b, END_TOKEN)
  {
    if Contains(b, END_TOKEN) {
      OccursInSuffix(a, b, END_TOKEN, Index(b, END_TOKEN).value);
      IndexIsFirst(a + b, END_TOKEN, |a| + Index(b, END_TOKEN).value);
    }
  }

  lemma {:induction false} EndPhase(v: Vocab, s: Stream)
    requires WellFormed(v, s)
    ensures var ds := [StartDelta(v)] + s.reasoning;
            Emit(AfterReasoning(TextOf(s.reasoning)), BaseStreaming(v, Ids(ds), EndDelta(v, s.end))) == AfterEnd(s)
  {
    ReasoningPhase(v, s.reasoning);
    match s.end
    case Alone =>
      assert TextOf(s.reasoning) + "" == TextOf(s.reasoning);
    case Mixed(before, after, ids) =>
      NotInPart(TextOf(s.reasoning), before);
      BaseAtEnd(v, Ids([StartDelta(v)] + s.reasoning), before, after, ids);
      ReasoningStep(TextOf(s.reasoning), before, NonEmpty(after));
  }

  /** A delta with the end token is split there into reasoning and content. */
  lemma {:induction false} BaseAtEnd(v: Vocab, previous: seq<int>, before: string, after: string, ids: seq<int>)
    requires v.start in previous && v.end in ids && |ids| != 1 && !Contains(before, END_TOKEN)
    ensures BaseStreaming(v, previous, Delta(before + END_TOKEN + after, ids))
            == Some(DeltaMessage(Some(before), NonEmpty(after)))
  {
    FindEnd(before, after);
  }

  // ---- Deltas with the start token ----

  lemma {:induction false} StartTokenIsUnbordered()
    ensures Unbordered(START_TOKEN)
  {
  }

  /**
   An end token whose text is not in the delta: the position is then -1, so the last character is cut off the
   reasoning, and the text from its tenth character on is sent again as content.
   */
  lemma {:induction false} EndTokenWithoutText(v: Vocab, previous: seq<int>, text: string, ids: seq<int>)
    requires v.start in previous && v.end in ids && |ids| != 1 && !Contains(text, END_TOKEN)
    ensures BaseStreaming(v, previous, Delta(text, ids))
            == Some(DeltaMessage(Some(if text == "" then "" else text[..|text| - 1]),
                                 if |text| <= 9 then None else Some(text[9..])))
  {
    assert Find(text, END_TOKEN) == -1 && |END_TOKEN| == 10;
    if text != "" {
      assert text[0..|text| - 1] == text[..|text| - 1];
    }
    if |text| > 9 {
      assert text[9..|text|] == text[9..];
    }
  }

  /** Once a channel is open, text is reasoning until an end token has followed the first start token. */
  lemma {:induction false} BaseInChannel(v: Vocab, before: seq<int>, since: seq<int>, d: Delta)
    requires v.start !in before && v.start != v.end
    requires v.end !in d.ids && d.ids != [v.start]
    ensures BaseStreaming(v, before + [v.start] + since, d)
            == Some(if v.end in since then DeltaMessage(None, Some(d.text)) else DeltaMessage(Some(d.text), None))
  {
    var ids, n := before + [v.start] + since, |before|;
    assert ids[n] == v.start;
    if v.end in since {
      var j :| 0 <= j < |since| && since[j] == v.end;
      assert ids[n + 1 + j] == v.end;
    }
  }

  /** A start or end token in a delta of its own is swallowed. */
  lemma {:induction false} BaseSkipsTokens(v: Vocab, previous: seq<int>, text: string)
    ensures BaseStreaming(v, previous, Delta(text, [v.start])) == BaseStreaming(v, previous, Delta(text, [v.end])) == None
  {
  }

  /** A delta with both tokens: reasoning between them, content after them, and text before them is lost. */
  lemma {:induction false} BaseAtSpan(v: Vocab, previous: seq<int>, before: string, r: string, after: string, ids: seq<int>)
    requires v.start != v.end && v.start !in previous && v.start in ids && v.end in ids
    requires !Contains(before, START_TOKEN) && !Contains(before + START_TOKEN + r, END_TOKEN)
    ensures BaseStreaming(v, previous, Delta(before + START_TOKEN + r + END_TOKEN + after, ids))
            == Some(DeltaMessage(Some(r), NonEmpty(after)))
  {
    var open := before + START_TOKEN + r;
    var text := open + END_TOKEN + after;
    var n, k := |before| + |START_TOKEN|, |open|;
    var i, j :| 0 <= i < |ids| && 0 <= j < |ids| && ids[i] == v.start && ids[j] == v.end;
    assert i != j;
    EndTokenIsUnbordered();
    IndexOfInserted(open, END_TOKEN, after);
    StartTokenIsUnbordered();
    Assoc(before + START_TOKEN, r, END_TOKEN + after);
    IndexOfInserted(before, START_TOKEN, r + (END_TOKEN + after));
    SliceOf(before + START_TOKEN, r, END_TOKEN + after);
    SliceOf(open + END_TOKEN, after, "");
    Assoc(open, END_TOKEN, after);
    assert text + "" == text;
  }

  lemma {:induction false} SliceOf(a: string, b: string, c: string)
    ensures Slice(a + b + c, |a|, |a| + |b|) == b
  {
    assert (a + b + c)[|a|..|a| + |b|] == b;
  }

  /** A delta with the start token alone among text: all of it is reasoning, the token's text included. */
  lemma {:induction false} BaseAtStart(v: Vocab, previous: seq<int>, d: Delta)
    requires v.start !in previous && v.start in d.ids && v.end !in d.ids && |d.ids| != 1
    ensures BaseStreaming(v, previous, d) == Some(DeltaMessage(Some(d.text), None))
  {
  }

  // ---- The content phase ----

  /** `next` is the output after content text `c` when `o` was the output after the end token. */
  ghost predicate AfterContent(o: Output, c: string, next: Output) {
    && next.reasoning == o.reasoning
    && if o.prefix.stripped then
         next.prefix.stripped && next.content == o.content + c
       else if o.prefix.seen + c <= THOUGHT_PREFIX then
         next.prefix == Prefix(o.prefix.seen + c, false) && next.content == o.content
       else
         next.prefix.stripped && next.content == o.content + StripThoughtLabel(o.prefix.seen + c)
  }

  lemma {:induction false} ContentStep(o: Output, c: string, next: Output, more: string)
    requires AfterContent(o, c, next)
    ensures AfterContent(o, c + more, Emit(next, Some(DeltaMessage(None, Some(more)))))
  {
    Assoc(o.prefix.seen, c, more);
    if next.prefix.stripped {
      Assoc(o.content, c, more);
      if !o.prefix.stripped {
        LabelDecided(o.prefix.seen + c, more);
        Assoc(o.content, StripThoughtLabel(o.prefix.seen + c), more);
      }
    }
  }

  /** The thinking channel was closed, or not opened at all. */
  ghost predicate InContent(v: Vocab, ids: seq<int>) {
    v.start in ids ==> EndAfterStart(v, ids)
  }

  /** Outside the thinking channel, ordinary deltas are content. */
  lemma {:induction false} BaseIsContent(v: Vocab, previous: seq<int>, d: Delta)
    requires InContent(v, previous)
    requires v.start !in d.ids && v.end !in d.ids
    ensures BaseStreaming(v, previous, d) == Some(DeltaMessage(None, Some(d.text)))
  {
  }

  lemma {:induction false} ContentPhase(v: Vocab, before: seq<Delta>, cs: seq<Delta>)
    requires InContent(v, Ids(before)) && Ordinary(v, cs)
    requires var prefix := Feed(v, before).prefix; !prefix.stripped ==> prefix.seen <= THOUGHT_PREFIX
    ensures AfterContent(Feed(v, before), TextOf(cs), Feed(v, before + cs))
    ensures InContent(v, Ids(before + cs))
  {
    if cs == [] {
      assert before + cs == before;
      var o := Feed(v, before);
      assert o.prefix.seen + "" == o.prefix.seen && o.content + "" == o.content;
    } else {
      var front, last := cs[..|cs| - 1], cs[|cs| - 1];
      ContentPhase(v, before, front);
      ContentNext(v, before + front, last, Feed(v, before), TextOf(front));
      AppendLast(before, cs);
    }
  }

  lemma {:induction false} ContentNext(v: Vocab, ds: seq<Delta>, d: Delta, o: Output, c: string)
    requires InContent(v, Ids(ds)) && v.start !in d.ids && v.end !in d.ids
    requires AfterContent(o, c, Feed(v, ds))
    ensures AfterContent(o, c + d.text, Feed(v, ds + [d]))
    ensures InContent(v, Ids(ds + [d]))
  {
    FeedSnoc(v, ds, d);
    BaseIsContent(v, Ids(ds), d);
    ContentStep(o, c, Feed(v, ds), d.text);
    if v.start in Ids(ds) {
      EndStays(v, Ids(ds), d.ids);
    }
  }

  lemma {:induction false} EndStays(v: Vocab, ids: seq<int>, more: seq<int>)
    requires EndAfterStart(v, ids)
    ensures EndAfterStart(v, ids + more)
  {
    var i, j :| 0 <= i < j < |ids| && ids[i] == v.start && ids[j] == v.end;
    assert (ids + more)[i] == v.start && (ids + more)[j] == v.end;
  }

  // ---- Agreement ----

  /** The output for a whole stream. */
  lemma {:induction false} StreamOutput(v: Vocab, s: Stream)
    requires WellFormed(v, s)
    ensures AfterContent(AfterEnd(s), TextOf(s.content), Feed(v, Deltas(v, s)))
  {
    var ds := [StartDelta(v)] + s.reasoning;
    ReasoningPhase(v, s.reasoning);
    EndPhase(v, s);
    FeedSnoc(v, ds, EndDelta(v, s.end));
    var ids, last := Ids(ds), EndDelta(v, s.end).ids;
    EndCompletes(v, ids, last);
    ContentPhase(v, ds + [EndDelta(v, s.end)], s.content);
  }

  lemma {:induction false} EndCompletes(v: Vocab, ids: seq<int>, last: seq<int>)
    requires v.start in ids && v.end in last
    ensures EndAfterStart(v, ids + last)
  {
    var i, j :| 0 <= i < |ids| && ids[i] == v.start && 0 <= j < |last| && last[j] == v.end;
    assert (ids + last)[i] == v.start && (ids + last)[|ids| + j] == v.end;
  }

  lemma {:induction false} TextOfAppend(a: seq<Delta>, b: seq<Delta>)
    ensures TextOf(a + b) == TextOf(a) + TextOf(b)
    decreases |b|
  {
    if b == [] {
      assert a + b == a;
    } else {
      var front, last := b[..|b| - 1], b[|b| - 1];
      assert (a + b)[..|a + b| - 1] == a + front;
      TextOfAppend(a, front);
      Assoc(TextOf(a), TextOf(front), last.text);
    }
  }

  lemma {:induction false} StreamText(v: Vocab, s: Stream)
    ensures TextOf(Deltas(v, s)) == START_TOKEN + (Reasoning(s) + END_TOKEN + Content(s))
  {
    var start, end := StartDelta(v), EndDelta(v, s.end);
    TextOfAppend([start] + s.reasoning + [end], s.content);
    TextOfAppend([start] + s.reasoning, [end]);
    TextOfAppend([start], s.reasoning);
    TextOfOne(start);
    TextOfOne(end);
    var r, c := TextOf(s.reasoning), TextOf(s.content);
    match s.end
    case Alone =>
      Regroup(START_TOKEN, r, "", END_TOKEN, "", c);
      assert "" + END_TOKEN + "" == END_TOKEN;
    case Mixed(before, after, _) =>
      Regroup(START_TOKEN, r, before, END_TOKEN, after, c);
  }

  lemma {:induction false} Regroup(start: string, r: string, before: string, end: string, after: string, c: string)
    ensures start + r + (before + end + after) + c == start + ((r + before) + end + (after + c))
  {
  }

  lemma {:induction false} TextOfOne(d: Delta)
    ensures TextOf([d]) == d.text
  {
    assert [d][..0] == [];
  }

  /** The non-streaming parser on a response that opens with the thinking channel. */
  lemma {:induction false} ExtractsParts(reasoning: string, content: string)
    requires !Contains(reasoning, END_TOKEN)
    ensures ExtractReasoning(START_TOKEN + (reasoning + END_TOKEN + content))
            == (Some(StripThoughtLabel(reasoning)), NonEmpty(content))
  {
    var rest := reasoning + END_TOKEN + content;
    var output := START_TOKEN + rest;
    IndexIsFirst(output, START_TOKEN, 0);
    EndTokenIsUnbordered();
    IndexOfInserted(reasoning, END_TOKEN, content);
    assert output[|START_TOKEN|..] == rest;
    assert rest[..|reasoning|] == reasoning && rest[|reasoning| + |END_TOKEN|..] == content;
  }

  /**
   When the parsers agree: the reasoning is more than a piece of the role label, or it is empty, all
   content comes after the end token's delta, and the content neither starts with the label nor is a
   non-empty piece of it.
   */
  predicate Decidable(s: Stream) {
    || !Undecided(Reasoning(s))
    || (&& Reasoning(s) == ""
        && Content(s) == TextOf(s.content)
        && (Content(s) == "" || (!(Content(s) <= THOUGHT_PREFIX) && !(THOUGHT_PREFIX <= Content(s)))))
  }

  /**
   Streaming and non-streaming parser give the same reasoning and the same content (reading absent
   as empty), for every chunking of the reasoning, the end token and the content, if and only if
   the stream is `Decidable`.
   */
  lemma {:induction false} ParsersAgree(v: Vocab, s: Stream)
    requires WellFormed(v, s)
    ensures var streamed, whole := Feed(v, Deltas(v, s)), ExtractReasoning(TextOf(Deltas(v, s)));
            (streamed.reasoning == OrEmpty(whole.0) && streamed.content == OrEmpty(whole.1)) <==> Decidable(s)
  {
    StreamOutput(v, s);
    StreamText(v, s);
    ExtractsParts(Reasoning(s), Content(s));
    var streamed := Feed(v, Deltas(v, s));
    if !Undecided(Reasoning(s)) {
      assert s.end.Alone? ==> "" + TextOf(s.content) == Content(s);
    } else if Reasoning(s) == "" {
      assert "" + TextOf(s.content) == TextOf(s.content);
      UndecidedContent(s, streamed);
    }
  }

  /** With empty reasoning, the label is looked for in the content. */
  lemma {:induction false} UndecidedContent(s: Stream, streamed: Output)
    requires Reasoning(s) == "" && AfterContent(AfterEnd(s), TextOf(s.content), streamed)
    ensures streamed.content == Content(s) <==> Decidable(s)
  {
    var c := TextOf(s.content);
    assert "" + c == c;
    assert |Content(s)| >= |c|;
    assert |Content(s)| == |c| ==> Content(s) == c;
  }

  /** For example, reasoning that is only a piece of the role label, `th`, never leaves the streaming parser. */
  lemma {:induction false} PieceOfLabelIsLost(v: Vocab, s: Stream)
    requires WellFormed(v, s) && Reasoning(s) == "th" && Content(s) == ""
    ensures Feed(v, Deltas(v, s)).reasoning == "" && Feed(v, Deltas(v, s)).content == ""
    ensures ExtractReasoning(TextOf(Deltas(v, s))) == (Some("th"), None)
  {
    StreamOutput(v, s);
    StreamText(v, s);
    ExtractsParts("th", "");
    assert Undecided("th");
    assert TextOf(s.content) == "";
  }

  /** The role label is removed by both parsers, in any chunking. */
  lemma {:induction false} LabelIsRemoved(v: Vocab, s: Stream, t: string)
    requires WellFormed(v, s) && Reasoning(s) == "thought\n" + t
    ensures Feed(v, Deltas(v, s)).reasoning == t
    ensures ExtractReasoning(TextOf(Deltas(v, s))).0 == Some(t)
  {
    StreamOutput(v, s);
    StreamText(v, s);
    ExtractsParts(Reasoning(s), Content(s));
    assert Reasoning(s)[|THOUGHT_PREFIX|..] == t;
  }

  // ---- Responses without a whole channel ----

  /** Without a start token, the unstreamed parser takes all before the end token as reasoning. */
  lemma {:induction false} ExtractsWithoutStart(reasoning: string, content: string)
    requires !Contains(reasoning, END_TOKEN) && !Contains(reasoning + END_TOKEN + content, START_TOKEN)
    ensures ExtractReasoning(reasoning + END_TOKEN + content) == (Some(StripThoughtLabel(reasoning)), NonEmpty(content))
  {
    var output := reasoning + END_TOKEN + content;
    EndTokenIsUnbordered();
    IndexOfInserted(reasoning, END_TOKEN, content);
    assert output[..|reasoning|] == reasoning && output[|reasoning| + |END_TOKEN|..] == content;
  }

  /**
   A response that is cut off before the end token: streamed in any deltas, its reasoning is the same as
   unstreamed if and only if it is empty or more than a piece of the role label.
   */
  lemma {:induction false} CutOffParsersAgree(v: Vocab, rs: seq<Delta>)
    requires v.Distinct() && Ordinary(v, rs) && !Contains(TextOf(rs), END_TOKEN)
    ensures var ds := [StartDelta(v)] + rs;
            var streamed, whole := Feed(v, ds), ExtractReasoning(TextOf(ds));
            && streamed.content == OrEmpty(whole.1) == ""
            && (streamed.reasoning == OrEmpty(whole.0) <==> TextOf(rs) == "" || !Undecided(TextOf(rs)))
  {
    ReasoningPhase(v, rs);
    TextOfAppend([StartDelta(v)], rs);
    TextOfOne(StartDelta(v));
    ExtractsCutOff(TextOf(rs));
  }

  lemma {:induction false} ExtractsCutOff(text: string)
    requires !Contains(text, END_TOKEN)
    ensures ExtractReasoning(START_TOKEN + text) == (Some(StripThoughtLabel(text)), None)
  {
    var output := START_TOKEN + text;
    IndexIsFirst(output, START_TOKEN, 0);
    assert output[|START_TOKEN|..] == text;
  }

  /**
   A response without the channel: streamed in any deltas, its content is the same as unstreamed if and
   only if it is empty, or neither starts with the role label nor is a piece of it.
   */
  lemma {:induction false} PlainParsersAgree(v: Vocab, cs: seq<Delta>)
    requires Ordinary(v, cs) && !Contains(TextOf(cs), START_TOKEN) && !Contains(TextOf(cs), END_TOKEN)
    ensures var streamed, whole, text := Feed(v, cs), ExtractReasoning(TextOf(cs)), TextOf(cs);
            && streamed.reasoning == OrEmpty(whole.0) == ""
            && (streamed.content == OrEmpty(whole.1) <==>
                  text == "" || (!(text <= THOUGHT_PREFIX) && !(THOUGHT_PREFIX <= text)))
  {
    ContentPhase(v, [], cs);
    assert [] + cs == cs;
    var text := TextOf(cs);
    assert "" + text == text && "" + StripThoughtLabel(text) == StripThoughtLabel(text);
  }

  // ---- Token scans on streams ----

  /** Before a new turn or a tool call, the scan backwards and the scan forwards agree. */
  lemma {:induction false} ScansAgree(v: Vocab, ids: seq<int>)
    requires v.Distinct() && ids != [] && ids[0] == v.start && v.start !in ids[1..]
    requires forall id :: id in ids ==> id !in {v.newTurn, v.toolCall, v.toolResponse}
    ensures ReasoningEnded(v, ids) <==> EndAfterStart(v, ids)
  {
    if EndAfterStart(v, ids) {
      var i, j :| 0 <= i < j < |ids| && ids[i] == v.start && ids[j] == v.end;
      var k := LastEnd(v, ids, j);
      forall n | k < n < |ids| ensures !Decides(v, ids[n]) {
        assert ids[n] in ids && ids[n] == ids[1..][n - 1];
      }
    }
    if ReasoningEnded(v, ids) {
      var i :| 0 <= i < |ids| && ids[i] in {v.end, v.toolCall} && forall j :: i < j < |ids| ==> !Decides(v, ids[j]);
      assert ids[i] in ids && ids[i] == v.end && ids[0] == v.start;
      assert 0 < i;
    }
  }

  lemma {:induction false} LastEnd(v: Vocab, ids: seq<int>, j: nat) returns (k: nat)
    requires j < |ids| && ids[j] == v.end
    ensures j <= k < |ids| && ids[k] == v.end && forall n :: k < n < |ids| ==> ids[n] != v.end
    decreases |ids| - j
  {
    k := j;
    for n := j + 1 to |ids|
      invariant j <= k < n && ids[k] == v.end
      invariant forall m :: k < m < n ==> ids[m] != v.end
    {
      if ids[n] == v.end {
        k := n;
      }
    }
  }
}
