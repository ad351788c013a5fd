/**
 What the `<obs>` stripper of proxy/internal/proxy/obs.go does to a response, as functions on
 the whole input, as a list of writes. What the bytes written mean to a client is in `ObsClient`.

 The stripper is two transducers in a row: one turns SSE events into text deltas and events that
 carry no scanned text, the other removes the observation from the sequence of text deltas while
 holding back at most one event.
 */
module ObsStrip {
  import opened Text

  const OPEN_TAG := "<obs>"
  const CLOSE_TAG := "</obs>"

  datatype Format = Anthropic | OpenAI | OtherFormat

  // ---- JSON, as far as the stripper looks at it ----

  datatype AnthropicEvent = AnthropicEvent(kind: string, blockType: string, deltaType: string, text: string)

  datatype AnthropicBlock = AnthropicBlock(kind: string, text: string)

  /** Decoding of JSON payloads, and replacing the text in one. `None` is an error. */
  datatype Json = Json(
    anthropicEvent: Bytes -> Option<AnthropicEvent>,
    openAIChunk: Bytes -> Option<seq<string>>,          // content of each choice's delta
    anthropicBody: Bytes -> Option<seq<Option<AnthropicBlock>>>,
    openAIBody: Bytes -> Option<seq<string>>,           // content of each choice's message
    setText: (Format, Bytes, string) -> Option<Bytes>)  // the payload encoded again with this text

  // ---- From events to items ----

  /** An event with the text the stripper scans in it, or an event it only forwards. */
  datatype Item = Other(event: Bytes) | Delta(event: Bytes, text: string)

  /** The item for an Anthropic event, and whether a thinking block is open after it. */
  function AnthropicItem(e: AnthropicEvent, inThink: bool, event: Bytes): (Item, bool) {
    if e.kind == "content_block_start" then (Other(event), e.blockType == "thinking")
    else if e.kind == "content_block_stop" then (Other(event), false)
    else if e.kind == "content_block_delta" && !inThink && e.deltaType == "text_delta" then
      (Delta(event, e.text), inThink)
    else (Other(event), inThink)
  }

  function OpenAIItem(choices: seq<string>, event: Bytes): Item {
    if |choices| > 0 && choices[0] != "" then Delta(event, choices[0]) else Other(event)
  }

  function Classify(format: Format, json: Json, payload: Option<Bytes>, inThink: bool, event: Bytes): (Item, bool) {
    if payload.None? then (Other(event), inThink)
    else match format
      case Anthropic =>
        (match json.anthropicEvent(payload.value)
         case None => (Other(event), inThink)
         case Some(e) => AnthropicItem(e, inThink, event))
      case OpenAI =>
        (match json.openAIChunk(payload.value)
         case None => (Other(event), inThink)
         case Some(choices) => (OpenAIItem(choices, event), inThink))
      case OtherFormat => (Other(event), inThink)
  }

  // ---- From items to what the client is sent ----

  datatype Phase = Searching | Suppressing | Done

  /** One call of the response writer's `Write`. */
  datatype Sent =
    | Verbatim(item: Item)
    | Rebuilt(event: Bytes, text: string)   // the event with its text replaced
    | Trailing(bytes: Bytes)                // bytes of an unfinished event
    | Body(bytes: Bytes, cut: Option<Cut>)  // a whole body, with one text in it replaced

  /** The text of block (or choice) `block` of a body becomes `text`. */
  datatype Cut = Cut(block: nat, text: string)

  datatype Strip = Strip(phase: Phase, held: Option<Item>, obs: string, sent: seq<Sent>)

  const START := Strip(Searching, None, "", [])

  function HeldText(s: Strip): string {
    if s.held.Some? && s.held.value.Delta? then s.held.value.text else ""
  }

  /** `text` ends with a non-empty prefix of the open tag. */
  predicate SuspiciousTail(text: string) {
    exists n :: 1 <= n <= |OPEN_TAG| && HasSuffix(text, OPEN_TAG[..n])
  }

  /** The observation text gathered so far is `all`; it ends at the close tag. */
  function Absorb(s: Strip, all: string): Strip {
    match Index(all, CLOSE_TAG)
    case Some(i) => s.(phase := Done, obs := all[..i])
    case None => s.(phase := Suppressing, obs := all)
  }

  function Release(s: Strip): seq<Sent> {
    if s.held.Some? then [Verbatim(s.held.value)] else []
  }

  function RebuiltUnlessEmpty(event: Bytes, text: string): seq<Sent> {
    if text != "" then [Rebuilt(event, text)] else []
  }

  /** What is sent when the tag is found at `idx` of the held text followed by the new text. */
  function SentBeforeTag(held: Option<Item>, event: Bytes, combined: string, idx: nat): seq<Sent>
    requires idx <= |combined|
    requires held.Some? ==> held.value.Delta? && held.value.text <= combined
  {
    match held
    case None => RebuiltUnlessEmpty(event, combined[..idx])
    case Some(h) =>
      if idx <= |h.text| then RebuiltUnlessEmpty(h.event, combined[..idx])
      else [Verbatim(h)] + RebuiltUnlessEmpty(event, combined[|h.text|..idx])
  }

  predicate HoldsDelta(s: Strip) {
    s.held.Some? ==> s.held.value.Delta?
  }

  /** One text delta (`handleTextDelta`, lines 204-278). */
  function StepDelta(s: Strip, event: Bytes, text: string): (r: Strip)
    requires HoldsDelta(s)
    ensures HoldsDelta(r)
  {
    match s.phase
    case Done => s
    case Suppressing => Absorb(s, s.obs + text)
    case Searching =>
      var combined := HeldText(s) + text;
      match Index(combined, OPEN_TAG)
      case None =>
        if SuspiciousTail(text) then s.(held := Some(Delta(event, text)), sent := s.sent + Release(s))
        else s.(held := None, sent := s.sent + Release(s) + [Verbatim(Delta(event, text))])
      case Some(idx) =>
        var found := s.(held := None, sent := s.sent + SentBeforeTag(s.held, event, combined, idx));
        Absorb(found, combined[idx + |OPEN_TAG|..])
  }

  function Step(s: Strip, item: Item): (r: Strip)
    requires HoldsDelta(s)
    ensures HoldsDelta(r)
  {
    match item
    case Other(event) => s.(sent := s.sent + [Verbatim(item)])
    case Delta(event, text) => StepDelta(s, event, text)
  }

  /** The stripper after a sequence of items. */
  function Run(items: seq<Item>): (r: Strip)
    ensures HoldsDelta(r)
  {
    if items == [] then START
    else Step(Run(items[..|items| - 1]), items[|items| - 1])
  }

  /** `Finalize`: the bytes of an unfinished event go out first, then the held event. */
  function Finish(s: Strip, rest: Bytes): Strip {
    var trailing := if rest != "" then [Trailing(rest)] else [];
    if s.held.Some? && s.phase.Searching?
    then s.(held := None, sent := s.sent + trailing + Release(s))
    else s.(sent := s.sent + trailing)
  }

  function Observation(s: Strip): string {
    TrimSpace(s.obs)
  }

  // ---- What has been written ----

  function SentText(w: Sent): string {
    match w
    case Verbatim(item) => if item.Delta? then item.text else ""
    case Rebuilt(_, text) => text
    case Trailing(_) => ""
    case Body(_, _) => ""    // not part of a stream
  }

  /** The assistant text in the events written. */
  function WrittenText(sent: seq<Sent>): string {
    if sent == [] then "" else WrittenText(sent[..|sent| - 1]) + SentText(sent[|sent| - 1])
  }

  function Texts(items: seq<Item>): seq<string> {
    if items == [] then []
    else
      var last := items[|items| - 1];
      Texts(items[..|items| - 1]) + if last.Delta? then [last.text] else []
  }

  /** The whole text of the response, as the model wrote it. */
  function FullText(items: seq<Item>): string {
    Concat(Texts(items))
  }
}
