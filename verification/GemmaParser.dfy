/**
 The Gemma4 reasoning parser (patches/gemma4_reasoning_parser.py) on top of the base thinking
 parser (patches/basic_parsers.py).
 */
module GemmaParser {
  import opened Text

  const START_TOKEN := "<|channel>"
  const END_TOKEN := "<channel|>"
  const THOUGHT_PREFIX := "thought\n"

  /** The token ids the parser knows. Distinct tokens have distinct ids. */
  datatype Vocab = Vocab(start: int, end: int, newTurn: int, toolCall: int, toolResponse: int) {
    predicate Distinct() {
      && start !in {end, newTurn, toolCall, toolResponse}
      && end !in {newTurn, toolCall, toolResponse}
      && newTurn !in {toolCall, toolResponse}
      && toolCall != toolResponse
    }
  }

  /** One step of the engine's output: decoded text and the ids of its tokens. */
  datatype Delta = Delta(text: string, ids: seq<int>)

  datatype DeltaMessage = DeltaMessage(reasoning: Option<string>, content: Option<string>)

  // ---- Python's strings ----

  /** `s.find(sub)`. */
  function Find(s: string, sub: string): int {
    match Index(s, sub) case Some(i) => i case None => -1
  }

  function Bound(n: nat, i: int): nat {
    if i + n < 0 then 0 else if i < 0 then i + n else if i > n then n else i
  }

  /** `s[lo:hi]`, with Python's reading of negative and large bounds. */
  function Slice(s: string, lo: int, hi: int): string {
    var a, b := Bound(|s|, lo), Bound(|s|, hi);
    if a < b then s[a..b] else ""
  }

  function NonEmpty(s: string): Option<string> {
    if s == "" then None else Some(s)
  }

  // ---- The base parser ----

  /** The end token appears after the start token. */
  ghost predicate EndAfterStart(v: Vocab, ids: seq<int>) {
    exists i, j :: 0 <= i < j < |ids| && ids[i] == v.start && ids[j] == v.end
  }

  method EndAfterStartIn(v: Vocab, ids: seq<int>) returns (found: bool)
    requires v.Distinct()
    ensures found <==> EndAfterStart(v, ids)
  {
    var foundStart := false;
    for k := 0 to |ids|
      invariant foundStart <==> v.start in ids[..k]
      invariant !EndAfterStart(v, ids[..k])
    {
      assert ids[..k + 1] == ids[..k] + [ids[k]];
      if ids[k] == v.start {
        foundStart := true;
      } else if ids[k] == v.end && foundStart {
        return true;
      }
    }
    assert ids[..|ids|] == ids;
    return false;
  }

  /** `BaseThinkingReasoningParser.extract_reasoning_streaming`. */
  ghost function BaseStreaming(v: Vocab, previous: seq<int>, d: Delta): Option<DeltaMessage> {
    if |d.ids| == 1 && d.ids[0] in [v.start, v.end] then None
    else if v.start in previous then
      if v.end in d.ids then
        var endIndex := Find(d.text, END_TOKEN);
        Some(DeltaMessage(Some(Slice(d.text, 0, endIndex)),
                          NonEmpty(Slice(d.text, endIndex + |END_TOKEN|, |d.text|))))
      else if EndAfterStart(v, previous) then Some(DeltaMessage(None, Some(d.text)))
      else Some(DeltaMessage(Some(d.text), None))
    else if v.start in d.ids then
      if v.end in d.ids then
        var startIndex, endIndex := Find(d.text, START_TOKEN), Find(d.text, END_TOKEN);
        Some(DeltaMessage(Some(Slice(d.text, startIndex + |START_TOKEN|, endIndex)),
                          NonEmpty(Slice(d.text, endIndex + |END_TOKEN|, |d.text|))))
      else Some(DeltaMessage(Some(d.text), None))
    else Some(DeltaMessage(None, Some(d.text)))
  }

  /** `BaseThinkingReasoningParser.extract_reasoning`. */
  function BaseExtract(output: string): (Option<string>, Option<string>) {
    var rest := match Index(output, START_TOKEN)
      case Some(i) => output[i + |START_TOKEN|..]
      case None => output;
    match Index(rest, END_TOKEN)
    case None => (Some(rest), None)
    case Some(i) => (Some(rest[..i]), NonEmpty(rest[i + |END_TOKEN|..]))
  }

  // ---- The Gemma4 parser ----

  function StripThoughtLabel(text: string): string {
    if THOUGHT_PREFIX <= text then text[|THOUGHT_PREFIX|..] else text
  }

  /** `Gemma4ReasoningParser.extract_reasoning`: reasoning and content. */
  function ExtractReasoning(output: string): (Option<string>, Option<string>) {
    if !Contains(output, START_TOKEN) && !Contains(output, END_TOKEN) then (None, Some(output))
    else
      var (reasoning, content) := BaseExtract(output);
      (if reasoning.Some? then Some(StripThoughtLabel(reasoning.value)) else None, content)
  }

  /** The parser's instance state. */
  datatype Prefix = Prefix(seen: string, stripped: bool)

  /** Lines 180-230: a message with reasoning. */
  function StripReasoning(p: Prefix, text: string, content: Option<string>): (Prefix, Option<DeltaMessage>) {
    var seen := p.seen + text;
    if p.stripped then (Prefix(seen, true), Some(DeltaMessage(Some(text), content)))
    else if THOUGHT_PREFIX <= seen then
      if |p.seen| >= |THOUGHT_PREFIX| then (Prefix(seen, true), Some(DeltaMessage(Some(text), content)))
      else (Prefix(seen, true), Some(DeltaMessage(Some(seen[|THOUGHT_PREFIX|..]), content)))
    else if seen <= THOUGHT_PREFIX then (Prefix(seen, false), None)
    else (Prefix(seen, true), Some(DeltaMessage(Some(seen), content)))
  }

  /** Lines 161-178: a message without reasoning. */
  function StripContent(p: Prefix, content: Option<string>): (Prefix, Option<DeltaMessage>) {
    if content.Some? && !p.stripped then
      var seen := p.seen + content.value;
      if seen <= THOUGHT_PREFIX then (Prefix(seen, false), None)
      else if THOUGHT_PREFIX <= seen then
        (Prefix(seen, true), Some(DeltaMessage(None, NonEmpty(seen[|THOUGHT_PREFIX|..]))))
      else (Prefix(seen, true), Some(DeltaMessage(None, Some(seen))))
    else (p, Some(DeltaMessage(None, content)))
  }

  function Strip(p: Prefix, message: Option<DeltaMessage>): (Prefix, Option<DeltaMessage>) {
    match message
    case None => (p, None)
    case Some(DeltaMessage(None, content)) => StripContent(p, content)
    case Some(DeltaMessage(Some(text), content)) => StripReasoning(p, text, content)
  }

  class Gemma4ReasoningParser {
    const vocab: Vocab
    var reasoningText: string
    var prefixStripped: bool

    constructor (vocab: Vocab)
      ensures this.vocab == vocab && State() == Prefix("", false)
    {
      this.vocab, reasoningText, prefixStripped := vocab, "", false;
    }

    function State(): Prefix
      reads this
    {
      Prefix(reasoningText, prefixStripped)
    }

    method ExtractReasoningStreaming(previous: seq<int>, d: Delta) returns (message: Option<DeltaMessage>)
      requires vocab.Distinct()
      modifies this
      ensures (State(), message) == Strip(old(State()), BaseStreaming(vocab, previous, d))
    {
      var base := BaseExtractStreaming(vocab, previous, d);
      if base.None? {
        return None;
      }
      var result := base.value;
      if result.reasoning.None? {
        if result.content.Some? && !prefixStripped {
          reasoningText := reasoningText + result.content.value;
          if reasoningText <= THOUGHT_PREFIX {
            return None;
          } else if THOUGHT_PREFIX <= reasoningText {
            prefixStripped := true;
            return Some(result.(content := NonEmpty(reasoningText[|THOUGHT_PREFIX|..])));
          } else {
            prefixStripped := true;
            return Some(result.(content := Some(reasoningText)));
          }
        }
        return Some(result);
      }
      var text := result.reasoning.value;
      reasoningText := reasoningText + text;
      if prefixStripped {
        return Some(result);
      }
      if THOUGHT_PREFIX <= reasoningText {
        var previousLength := |reasoningText| - |text|;
        prefixStripped := true;
        if previousLength >= |THOUGHT_PREFIX| {
          return Some(result);
        }
        var stripped := text[|THOUGHT_PREFIX| - previousLength..];
        assert stripped == reasoningText[|THOUGHT_PREFIX|..];
        return Some(result.(reasoning := Some(stripped)));
      }
      if reasoningText <= THOUGHT_PREFIX {
        return None;
      }
      prefixStripped := true;
      return Some(result.(reasoning := Some(reasoningText)));
    }
  }

  method BaseExtractStreaming(v: Vocab, previous: seq<int>, d: Delta) returns (message: Option<DeltaMessage>)
    requires v.Distinct()
    ensures message == BaseStreaming(v, previous, d)
  {
    if |d.ids| == 1 && d.ids[0] in [v.start, v.end] {
      return None;
    }
    if v.start in previous {
      if v.end in d.ids {
        var endIndex := Find(d.text, END_TOKEN);
        return Some(DeltaMessage(Some(Slice(d.text, 0, endIndex)),
                                 NonEmpty(Slice(d.text, endIndex + |END_TOKEN|, |d.text|))));
      }
      var ended := EndAfterStartIn(v, previous);
      return Some(if ended then DeltaMessage(None, Some(d.text)) else DeltaMessage(Some(d.text), None));
    }
    if v.start in d.ids {
      if v.end in d.ids {
        var startIndex, endIndex := Find(d.text, START_TOKEN), Find(d.text, END_TOKEN);
        return Some(DeltaMessage(Some(Slice(d.text, startIndex + |START_TOKEN|, endIndex)),
                                 NonEmpty(Slice(d.text, endIndex + |END_TOKEN|, |d.text|))));
      }
      return Some(DeltaMessage(Some(d.text), None));
    }
    return Some(DeltaMessage(None, Some(d.text)));
  }

  // ---- Token scans ----

  predicate Decides(v: Vocab, id: int) {
    id in {v.start, v.end, v.newTurn, v.toolCall, v.toolResponse}
  }

  /** The last token that decides anything is an end token or starts a tool call. */
  ghost predicate ReasoningEnded(v: Vocab, ids: seq<int>) {
    exists i :: 0 <= i < |ids| && ids[i] in {v.end, v.toolCall} && forall j :: i < j < |ids| ==> !Decides(v, ids[j])
  }

  /** The last token decides, unless it is an ordinary one. */
  lemma {:induction false} LastTokenDecides(v: Vocab, ids: seq<int>, id: int)
    requires v.Distinct()
    ensures ReasoningEnded(v, ids + [id]) <==>
              id == v.end || id == v.toolCall
              || (id !in {v.start, v.newTurn, v.toolResponse} && ReasoningEnded(v, ids))
    ensures !ReasoningEnded(v, [])
  {
    var more, n := ids + [id], |ids|;
    assert more[n] == id;
    if ReasoningEnded(v, ids) {
      var i :| 0 <= i < n && ids[i] in {v.end, v.toolCall} && forall j :: i < j < n ==> !Decides(v, ids[j]);
      assert more[i] == ids[i];
      forall j | i < j < n ensures !Decides(v, more[j]) {
        assert more[j] == ids[j];
      }
    }
    if ReasoningEnded(v, more) {
      var i :| 0 <= i <= n && more[i] in {v.end, v.toolCall} && forall j :: i < j <= n ==> !Decides(v, more[j]);
      if i < n {
        assert more[i] == ids[i];
        forall j | i < j < n ensures !Decides(v, ids[j]) {
          assert more[j] == ids[j];
        }
      }
    }
  }

  method IsReasoningEnd(v: Vocab, ids: seq<int>) returns (ended: bool)
    requires v.Distinct()
    ensures ended <==> ReasoningEnded(v, ids)
  {
    var i := |ids|;
    while i > 0
      invariant 0 <= i <= |ids|
      invariant forall j :: i <= j < |ids| ==> !Decides(v, ids[j])
    {
      i := i - 1;
      if ids[i] == v.start {
        return false;
      }
      if ids[i] == v.toolCall {
        return true;
      }
      if ids[i] in [v.newTurn, v.toolResponse] {
        return false;
      }
      if ids[i] == v.end {
        return true;
      }
    }
    return false;
  }

  /** How deeply the position after `ids` is nested in thinking spans; stray end tokens are ignored. */
  function Depth(v: Vocab, ids: seq<int>): nat {
    if ids == [] then 0
    else
      var before, id := Depth(v, ids[..|ids| - 1]), ids[|ids| - 1];
      if id == v.start then before + 1
      else if id == v.end && before > 0 then before - 1
      else before
  }

  /** The ordinary tokens inside some thinking span. */
  function ReasoningTokens(v: Vocab, ids: seq<int>): seq<int> {
    if ids == [] then []
    else
      var front, id := ids[..|ids| - 1], ids[|ids| - 1];
      ReasoningTokens(v, front) + if id !in {v.start, v.end} && Depth(v, front) > 0 then [id] else []
  }

  /** Start tokens less end tokens. */
  function Balance(v: Vocab, ids: seq<int>): int {
    if ids == [] then 0
    else
      var id := ids[|ids| - 1];
      Balance(v, ids[..|ids| - 1]) + if id == v.start then 1 else if id == v.end then -1 else 0
  }

  /** Token `i` is no marker, and from some position on more spans have started than ended before it. */
  ghost predicate Inside(v: Vocab, ids: seq<int>, i: nat)
    requires i < |ids|
  {
    ids[i] !in {v.start, v.end} && exists j: nat | j <= i :: Balance(v, ids[j..i]) > 0
  }

  ghost function AllInside(v: Vocab, ids: seq<int>): set<nat> {
    set i: nat | i < |ids| && Inside(v, ids, i)
  }

  /** The depth is the largest balance of all ends of the sequence. */
  lemma {:induction false} DepthIsBalance(v: Vocab, ids: seq<int>) returns (best: nat)
    requires v.start != v.end
    ensures best <= |ids| && Balance(v, ids[best..]) == Depth(v, ids)
    ensures forall j: nat | j <= |ids| :: Balance(v, ids[j..]) <= Depth(v, ids)
  {
    best := |ids|;
    assert ids[|ids|..] == [];
    if ids != [] {
      var n := |ids| - 1;
      var last := DepthIsBalance(v, ids[..n]);
      forall j: nat | j <= n ensures ids[j..][..n - j] == ids[..n][j..] && ids[j..][n - j] == ids[n] {
      }
      best := if Depth(v, ids) == 0 then |ids| else last;
    }
  }

  lemma {:induction false} InsideOfPrefix(v: Vocab, ids: seq<int>, n: nat, i: nat)
    requires i < n <= |ids|
    ensures Inside(v, ids[..n], i) <==> Inside(v, ids, i)
  {
    assert forall j: nat | j <= i :: ids[..n][j..i] == ids[j..i];
  }

  lemma {:induction false} LastIsInside(v: Vocab, ids: seq<int>)
    requires v.start != v.end && ids != []
    ensures var n := |ids| - 1; Inside(v, ids, n) <==> ids[n] !in {v.start, v.end} && Depth(v, ids[..n]) > 0
  {
    var n := |ids| - 1;
    var best := DepthIsBalance(v, ids[..n]);
    assert forall j: nat | j <= n :: ids[j..n] == ids[..n][j..];
  }

  /** Exactly the tokens inside some span are counted, however spans are nested, repeated or stray. */
  lemma {:induction false} CountsWhatIsInside(v: Vocab, ids: seq<int>)
    requires v.start != v.end
    ensures |ReasoningTokens(v, ids)| == |AllInside(v, ids)|
  {
    if ids == [] {
      assert AllInside(v, ids) == {};
    } else {
      var n := |ids| - 1;
      CountsWhatIsInside(v, ids[..n]);
      LastIsInside(v, ids);
      var before := AllInside(v, ids[..n]);
      forall i: nat ensures i in AllInside(v, ids) <==> i in before || (i == n && Inside(v, ids, n)) {
        if i < n {
          InsideOfPrefix(v, ids, n, i);
        }
      }
      assert AllInside(v, ids) == if Inside(v, ids, n) then before + {n} else before;
    }
  }

  method CountReasoningTokens(v: Vocab, ids: seq<int>) returns (count: nat)
    ensures count == |ReasoningTokens(v, ids)|
    ensures v.start != v.end ==> count == |AllInside(v, ids)|
  {
    count := 0;
    var depth := 0;
    for k := 0 to |ids|
      invariant depth == Depth(v, ids[..k])
      invariant count == |ReasoningTokens(v, ids[..k])|
    {
      assert ids[..k + 1][..k] == ids[..k];
      if ids[k] == v.start {
        depth := depth + 1;
        continue;
      }
      if ids[k] == v.end {
        if depth > 0 {
          depth := depth - 1;
        }
        continue;
      }
      if depth > 0 {
        count := count + 1;
      }
    }
    assert ids[..|ids|] == ids;
    if v.start != v.end {
      CountsWhatIsInside(v, ids);
    }
  }
}
