/**
 The `obsCapture` object (proxy/internal/proxy/obs.go:45-461). Its state after any sequence of
 `Write` calls is a function of the bytes it was given, and so are its writes to the client; the
 promises about that function are proved in `ObsStreaming`, `ObsEvents` and `ObsWhole`, and those to the
 client that reads the bytes in `ObsReading`.
 */
module ObsCapture {
  import opened Text
  import opened SseFraming
  import opened ObsStrip
  import opened ObsStreaming
  import opened ObsEvents
  import opened ObsWhole

  /** The stripper after a stream of bytes: the scanner's state and whether a thinking block is open. */
  function Streamed(format: Format, json: Json, bytes: Bytes): (Strip, bool) {
    var items := Items(format, json, false, Frame(bytes).events);
    (Run(items.0), items.1)
  }

  /** What has been sent and what `Finalize` returns at the end of a response. */
  function Finalized(isStreaming: bool, format: Format, json: Json, bytes: Bytes): (string, seq<Sent>) {
    if isStreaming then
      var f := Finish(Streamed(format, json, bytes).0, Frame(bytes).rest);
      (Observation(f), f.sent)
    else FinishBody(format, json, bytes)
  }

  /** One more event extends the run by its item. */
  lemma {:induction false} RunSnoc(format: Format, json: Json, events: seq<Bytes>, event: Bytes)
    ensures var before := Items(format, json, false, events);
            var next := Classify(format, json, DataPayload(event), before.1, event);
            var after := Items(format, json, false, events + [event]);
            Run(after.0) == Step(Run(before.0), next.0) && after.1 == next.1
  {
    var before := Items(format, json, false, events);
    var next := Classify(format, json, DataPayload(event), before.1, event);
    ItemsSnoc(format, json, events, event);
    RunItem(before.0, next.0);
  }

  lemma {:induction false} ItemsSnoc(format: Format, json: Json, events: seq<Bytes>, event: Bytes)
    ensures var before := Items(format, json, false, events);
            var next := Classify(format, json, DataPayload(event), before.1, event);
            Items(format, json, false, events + [event]) == (before.0 + [next.0], next.1)
  {
    assert (events + [event])[..|events|] == events;
  }

  lemma {:induction false} RunItem(items: seq<Item>, item: Item)
    ensures Run(items + [item]) == Step(Run(items), item)
  {
    assert (items + [item])[..|items|] == items;
  }

  /**
   For every byte stream: the events written carry the text of the response up to the first tag, and
   the observation is what follows it, exactly when the stream shows the tag within two deltas.
   */
  lemma {:induction false} StreamedResponse(format: Format, json: Json, bytes: Bytes)
    ensures var items := Items(format, json, false, Frame(bytes).events).0;
            var (obs, sent) := Finalized(true, format, json, bytes);
            var text, first := FullText(items), Index(FullText(items), OPEN_TAG);
            var seen := first.None? || InTwoDeltas(Texts(items), first.value);
            && (WrittenText(sent) == Before(text, OPEN_TAG) <==> seen)
            && (seen ==> obs == ObservationAfter(text, first))
            && Others(SentItems(sent)) == Others(items)
  {
    var items := Items(format, json, false, Frame(bytes).events).0;
    StripsFirstObservation(items, Frame(bytes).rest);
    NothingIsLostWithoutTag(items, Frame(bytes).rest);
  }

  /** Whether `text` ends with a non-empty prefix of the open tag, as the loop finds out. */
  method HasSuspiciousTail(text: string) returns (suspicious: bool)
    ensures suspicious == SuspiciousTail(text)
  {
    var i := 1;
    while i <= |OPEN_TAG| && i <= |text|
      invariant 1 <= i <= |OPEN_TAG| + 1
      invariant forall n | 1 <= n < i :: !HasSuffix(text, OPEN_TAG[..n])
    {
      if HasSuffix(text, OPEN_TAG[..i]) {
        return true;
      }
      i := i + 1;
    }
    return false;
  }

  /** Searching the content blocks for the first text block with a tag. */
  method StripObsAnthropicJSON(blocks: seq<Option<AnthropicBlock>>) returns (reply: Reply)
    ensures reply == StripAnthropic(Some(blocks))
  {
    for i := 0 to |blocks|
      invariant FirstTagged(blocks, 0) == FirstTagged(blocks, i)
    {
      if blocks[i].None? || blocks[i].value.kind != "text" {
        continue;
      }
      var text := blocks[i].value.text;
      var idx := Index(text, OPEN_TAG);
      if idx.None? {
        continue;
      }
      return CutAt(text, idx.value, i);
    }
    return UNCHANGED;
  }

  /** From the buffer `start` on, the events `handled` after `done` have been taken off, and `buf` is left. */
  ghost predicate Draining(start: Bytes, done: seq<Bytes>, buf: Bytes, handled: seq<Bytes>) {
    Frame(buf).rest == Frame(start).rest && handled + Frame(buf).events == done + Frame(start).events
  }

  lemma {:induction false} DrainsOn(start: Bytes, done: seq<Bytes>, buf: Bytes, handled: seq<Bytes>, idx: nat)
    requires Draining(start, done, buf, handled) && Index(buf, EVENT_END) == Some(idx)
    ensures Draining(start, done, buf[idx + 2..], handled + [buf[..idx + 2]])
  {
    var event, tail := buf[..idx + 2], buf[idx + 2..];
    assert Frame(buf).events == [event] + Frame(tail).events;
    Assoc(handled, [event], Frame(tail).events);
  }

  lemma {:induction false} Drained(start: Bytes, done: seq<Bytes>, buf: Bytes, handled: seq<Bytes>)
    requires Draining(start, done, buf, handled) && Index(buf, EVENT_END).None?
    ensures buf == Frame(start).rest && handled == done + Frame(start).events
  {
    assert handled + [] == handled;
  }

  class ObsCapture {
    const isStreaming: bool
    const format: Format
    const json: Json
    var client: seq<Sent>         // what the response writer was given

    var sseBuf: Bytes
    var inThink: bool
    var obsState: Phase
    var heldEvent: Option<Bytes>
    var heldText: string
    var obsBuf: string
    var bodyBuf: Bytes
    var full: Bytes

    constructor (isStreaming: bool, format: Format, json: Json)
      ensures Valid() && full == "" && client == []
      ensures this.isStreaming == isStreaming && this.format == format && this.json == json
    {
      this.isStreaming, this.format, this.json := isStreaming, format, json;
      client, sseBuf, bodyBuf, full := [], "", "", "";
      inThink, obsState, heldEvent, heldText, obsBuf := false, Searching, None, "", "";
    }

    /** The scanner's state, read off the fields. */
    function Scanner(): (s: Strip)
      reads this
      ensures HoldsDelta(s)
    {
      Strip(obsState, if heldEvent.Some? then Some(Delta(heldEvent.value, heldText)) else None, obsBuf, client)
    }

    /** Observation text is gathered only after the tag. */
    predicate NothingGathered()
      reads this
    {
      obsState.Searching? ==> obsBuf == ""
    }

    /** The state is the one the bytes written so far lead to. */
    ghost predicate Valid()
      reads this
    {
      && NothingGathered()
      && if isStreaming then
        && sseBuf == Frame(full).rest
        && (Scanner(), inThink) == Streamed(format, json, full)
      else
        && bodyBuf == full
        && client == []
    }

    method Write(p: Bytes)
      requires Valid()
      modifies this
      ensures Valid() && full == old(full) + p
    {
      full := full + p;
      if isStreaming {
        FrameAppend(old(full), p);
        sseBuf := sseBuf + p;
        DrainSSE(Frame(old(full)).events);
      } else {
        bodyBuf := bodyBuf + p;
      }
    }

    /** The events `done` have been handled, and nothing else. */
    ghost predicate Handled(done: seq<Bytes>)
      reads this
    {
      var items := Items(format, json, false, done);
      (Scanner(), inThink) == (Run(items.0), items.1)
    }

    /** Handles every complete event in the buffer; `done` are the events handled before. */
    method DrainSSE(ghost done: seq<Bytes>)
      requires Handled(done) && NothingGathered()
      modifies this
      ensures full == old(full) && bodyBuf == old(bodyBuf)
      ensures sseBuf == Frame(old(sseBuf)).rest
      ensures Handled(done + Frame(old(sseBuf)).events) && NothingGathered()
    {
      ghost var start, handled := sseBuf, done;
      var more := true;
      while more
        invariant full == old(full) && bodyBuf == old(bodyBuf)
        invariant Draining(start, done, sseBuf, handled)
        invariant Handled(handled) && NothingGathered()
        invariant !more ==> Index(sseBuf, EVENT_END).None?
        decreases more, |sseBuf|
      {
        more, handled := DrainEvent(start, done, handled);
      }
      Drained(start, done, sseBuf, handled);
    }

    /** One round: the first event, if it is complete, leaves the buffer and is handled. */
    method DrainEvent(ghost start: Bytes, ghost done: seq<Bytes>, ghost handled: seq<Bytes>)
      returns (more: bool, ghost next: seq<Bytes>)
      requires Draining(start, done, sseBuf, handled) && Handled(handled) && NothingGathered()
      modifies this
      ensures full == old(full) && bodyBuf == old(bodyBuf)
      ensures Draining(start, done, sseBuf, next) && Handled(next) && NothingGathered()
      ensures if more then |sseBuf| < old(|sseBuf|) else Index(sseBuf, EVENT_END).None?
    {
      var idx := Index(sseBuf, EVENT_END);
      if idx.None? {
        return false, handled;
      }
      DrainsOn(start, done, sseBuf, handled, idx.value);
      next := handled + [sseBuf[..idx.value + 2]];
      HandleFirst(idx.value, handled);
      more := true;
    }

    /** The event that ends at `idx` leaves the buffer and is handled. */
    method HandleFirst(idx: nat, ghost handled: seq<Bytes>)
      requires idx + 2 <= |sseBuf| && Handled(handled) && NothingGathered()
      modifies this
      ensures full == old(full) && bodyBuf == old(bodyBuf) && sseBuf == old(sseBuf)[idx + 2..]
      ensures Handled(handled + [old(sseBuf)[..idx + 2]]) && NothingGathered()
    {
      var event := sseBuf[..idx + 2];
      RunSnoc(format, json, handled, event);
      sseBuf := sseBuf[idx + 2..];
      HandleSSEEvent(event);
    }

    method HandleSSEEvent(event: Bytes)
      requires NothingGathered()
      modifies this
      ensures NothingGathered()
      ensures full == old(full) && bodyBuf == old(bodyBuf) && sseBuf == old(sseBuf)
      ensures var next := Classify(format, json, DataPayload(event), old(inThink), event);
              Scanner() == Step(old(Scanner()), next.0) && inThink == next.1
    {
      var payload := FindDataPayload(event);
      if payload.None? {
        client := client + [Verbatim(Other(event))];
        return;
      }
      match format
      case Anthropic =>
        var decoded := json.anthropicEvent(payload.value);
        if decoded.None? {
          client := client + [Verbatim(Other(event))];
          return;
        }
        HandleAnthropicEvent(decoded.value, event);
      case OpenAI =>
        var decoded := json.openAIChunk(payload.value);
        if decoded.None? || |decoded.value| == 0 {
          client := client + [Verbatim(Other(event))];
          return;
        }
        var text := decoded.value[0];
        if text != "" {
          HandleTextDelta(text, event);
          return;
        }
        client := client + [Verbatim(Other(event))];
      case OtherFormat =>
        client := client + [Verbatim(Other(event))];
    }

    method HandleAnthropicEvent(e: AnthropicEvent, event: Bytes)
      requires NothingGathered()
      modifies this
      ensures NothingGathered()
      ensures full == old(full) && bodyBuf == old(bodyBuf) && sseBuf == old(sseBuf)
      ensures var next := AnthropicItem(e, old(inThink), event);
              Scanner() == Step(old(Scanner()), next.0) && inThink == next.1
    {
      if e.kind == "content_block_start" {
        inThink := e.blockType == "thinking";
        client := client + [Verbatim(Other(event))];
      } else if e.kind == "content_block_stop" {
        inThink := false;
        client := client + [Verbatim(Other(event))];
      } else if e.kind == "content_block_delta" {
        if inThink || e.deltaType != "text_delta" {
          client := client + [Verbatim(Other(event))];
          return;
        }
        HandleTextDelta(e.text, event);
      } else {
        client := client + [Verbatim(Other(event))];
      }
    }

    method HandleTextDelta(text: string, event: Bytes)
      requires NothingGathered()
      modifies this
      ensures NothingGathered()
      ensures full == old(full) && bodyBuf == old(bodyBuf) && sseBuf == old(sseBuf) && inThink == old(inThink)
      ensures Scanner() == StepDelta(old(Scanner()), event, text)
    {
      match obsState
      case Done =>
      case Suppressing =>
        obsBuf := obsBuf + text;
        CutObservation();
      case Searching =>
        var combined := if heldEvent.Some? then heldText + text else text;
        assert combined == HeldText(Scanner()) + text;
        var idx := Index(combined, OPEN_TAG);
        if idx.None? {
          ReleaseAndHold(text, event);
          return;
        }
        SendBeforeTag(combined, idx.value, event);
        StartObservation(combined[idx.value + |OPEN_TAG|..]);
    }

    /** The text after the tag is the start of the observation. */
    method StartObservation(after: string)
      requires obsBuf == ""
      modifies this`obsBuf, this`obsState
      ensures Scanner() == Absorb(old(Scanner()), after) && NothingGathered()
    {
      obsState := Suppressing;
      assert obsBuf + after == after;
      obsBuf := obsBuf + after;
      CutObservation();
    }

    /** Ends the observation at the close tag, if it is there. */
    method CutObservation()
      requires obsState.Suppressing?
      modifies this`obsBuf, this`obsState
      ensures Scanner() == Absorb(old(Scanner()), old(obsBuf))
    {
      var end := Index(obsBuf, CLOSE_TAG);
      if end.Some? {
        obsBuf := obsBuf[..end.value];
        obsState := Done;
      }
    }

    /** No tag: the held event goes out, and the new one is held if a tag may continue from it. */
    method ReleaseAndHold(text: string, event: Bytes)
      modifies this`client, this`heldEvent, this`heldText
      ensures var s := old(Scanner());
              Scanner() ==
              if SuspiciousTail(text) then s.(held := Some(Delta(event, text)), sent := s.sent + Release(s))
              else s.(held := None, sent := s.sent + Release(s) + [Verbatim(Delta(event, text))])
    {
      if heldEvent.Some? {
        client := client + [Verbatim(Delta(heldEvent.value, heldText))];
        heldEvent, heldText := None, "";
      }
      var suspicious := HasSuspiciousTail(text);
      if suspicious {
        heldEvent, heldText := Some(event), text;
      } else {
        client := client + [Verbatim(Delta(event, text))];
      }
    }

    /** The tag was found at `idx`: sends the text before it. */
    method SendBeforeTag(combined: string, idx: nat, event: Bytes)
      requires idx <= |combined| && HeldText(Scanner()) <= combined
      modifies this`client, this`heldEvent, this`heldText
      ensures var s := old(Scanner());
              Scanner() == s.(held := None, sent := s.sent + SentBeforeTag(s.held, event, combined, idx))
    {
      var before := combined[..idx];
      if heldEvent.Some? {
        if idx <= |heldText| {
          if before != "" {
            client := client + [Rebuilt(heldEvent.value, before)];
          }
        } else {
          client := client + [Verbatim(Delta(heldEvent.value, heldText))];
          var currentBefore := before[|heldText|..];
          if currentBefore != "" {
            client := client + [Rebuilt(event, currentBefore)];
          }
        }
        heldEvent, heldText := None, "";
      } else if before != "" {
        client := client + [Rebuilt(event, before)];
      }
    }

    method Finalize() returns (obs: string)
      requires Valid()
      modifies this
      ensures full == old(full)
      ensures (obs, client) == Finalized(isStreaming, format, json, full)
    {
      if !isStreaming {
        obs := FinalizeNonStreaming();
        return;
      }
      ghost var s := Scanner();
      assert s.sent + [] == s.sent;
      if |sseBuf| > 0 {
        client := client + [Trailing(sseBuf)];
      }
      if heldEvent.Some? && obsState.Searching? {
        client := client + [Verbatim(Delta(heldEvent.value, heldText))];
        heldEvent := None;
      }
      return TrimSpace(obsBuf);
    }

    method FinalizeNonStreaming() returns (obs: string)
      modifies this`client
      requires client == []
      ensures (obs, client) == FinishBody(format, json, bodyBuf)
    {
      var body := bodyBuf;
      if |body| == 0 {
        return "";
      }
      var reply := UNCHANGED;
      match format {
        case Anthropic =>
          var blocks := json.anthropicBody(body);
          if blocks.Some? {
            reply := StripObsAnthropicJSON(blocks.value);
          }
        case OpenAI =>
          reply := StripOpenAI(json.openAIBody(body));
        case OtherFormat =>
      }
      client := client + [Body(body, reply.cut)];
      assert client == [Body(body, reply.cut)];
      return TrimSpace(reply.obs);
    }
  }
}
