/**
 What happens to the events themselves: nothing but scanned text is ever lost, and thinking
 blocks do not influence the rest (proxy/internal/proxy/obs.go:113-189, 221-245, 446-461).
 */
module ObsEvents {
  import opened Text
  import opened SseFraming
  import opened ObsStrip
  import opened ObsScan
  import opened ObsStreaming

  // ---- Conservation ----

  /** The items without scanned text. */
  function Others(items: seq<Item>): seq<Item> {
    if items == [] then []
    else
      var last := items[|items| - 1];
      Others(items[..|items| - 1]) + if last.Other? then [last] else []
  }

  function Deltas(items: seq<Item>): seq<Item> {
    if items == [] then []
    else
      var last := items[|items| - 1];
      Deltas(items[..|items| - 1]) + if last.Delta? then [last] else []
  }

  /** The items that were sent as they are. */
  function SentItems(sent: seq<Sent>): seq<Item> {
    if sent == [] then []
    else
      var last := sent[|sent| - 1];
      SentItems(sent[..|sent| - 1]) + if last.Verbatim? then [last.item] else []
  }

  lemma {:induction false} OthersSnoc(items: seq<Item>, item: Item)
    ensures Others(items + [item]) == Others(items) + if item.Other? then [item] else []
    ensures Deltas(items + [item]) == Deltas(items) + if item.Delta? then [item] else []
  {
    assert (items + [item])[..|items|] == items;
  }

  lemma {:induction false} SentSnoc(sent: seq<Sent>, w: Sent)
    ensures SentItems(sent + [w]) == SentItems(sent) + if w.Verbatim? then [w.item] else []
  {
    assert (sent + [w])[..|sent|] == sent;
  }

  lemma {:induction false} SentRebuilt(sent: seq<Sent>, event: Bytes, text: string)
    ensures SentItems(sent + RebuiltUnlessEmpty(event, text)) == SentItems(sent)
  {
    if text == "" {
      assert sent + [] == sent;
    } else {
      SentSnoc(sent, Rebuilt(event, text));
    }
  }

  /** The held item. */
  function HeldItems(s: Strip): seq<Item> {
    if s.held.Some? then [s.held.value] else []
  }

  /** Releasing the held event sends exactly that event. */
  lemma {:induction false} SentReleased(s: Strip)
    requires HoldsDelta(s)
    ensures Others(SentItems(s.sent + Release(s))) == Others(SentItems(s.sent))
    ensures Deltas(SentItems(s.sent + Release(s))) == Deltas(SentItems(s.sent)) + HeldItems(s)
  {
    if s.held.Some? {
      SentSnoc(s.sent, Verbatim(s.held.value));
      OthersSnoc(SentItems(s.sent), s.held.value);
    } else {
      assert s.sent + Release(s) == s.sent;
    }
  }

  /** The items sent so far and the held one account for the received items `items`. */
  ghost predicate Accounts(s: Strip, items: seq<Item>) {
    && HoldsDelta(s)
    && Others(SentItems(s.sent)) == Others(items)
    && (s.phase.Searching? ==> Deltas(SentItems(s.sent)) + HeldItems(s) == Deltas(items))
    && (!s.phase.Searching? ==> s.held.None?)
  }

  lemma {:induction false} AccountsOther(s: Strip, items: seq<Item>, item: Item)
    requires Accounts(s, items) && item.Other?
    ensures Accounts(Step(s, item), items + [item])
  {
    SentSnoc(s.sent, Verbatim(item));
    OthersSnoc(SentItems(s.sent), item);
    OthersSnoc(items, item);
  }

  lemma {:induction false} AccountsNoTag(s: Strip, items: seq<Item>, event: Bytes, text: string)
    requires Accounts(s, items) && s.phase.Searching? && !Contains(HeldText(s) + text, OPEN_TAG)
    ensures Accounts(StepDelta(s, event, text), items + [Delta(event, text)])
  {
    var item := Delta(event, text);
    OthersSnoc(items, item);
    SentReleased(s);
    var released := s.sent + Release(s);
    if !SuspiciousTail(text) {
      SentSnoc(released, Verbatim(item));
      OthersSnoc(SentItems(released), item);
    }
  }

  lemma {:induction false} AccountsTag(s: Strip, items: seq<Item>, event: Bytes, text: string)
    requires Accounts(s, items) && s.phase.Searching? && Contains(HeldText(s) + text, OPEN_TAG)
    ensures Accounts(StepDelta(s, event, text), items + [Delta(event, text)])
  {
    OthersSnoc(items, Delta(event, text));
    var combined := HeldText(s) + text;
    var idx := Index(combined, OPEN_TAG).value;
    OthersBeforeTag(s.sent, s.held, event, combined, idx);
  }

  lemma {:induction false} OthersBeforeTag(sent: seq<Sent>, held: Option<Item>, event: Bytes, combined: string, idx: nat)
    requires idx <= |combined|
    requires held.Some? ==> held.value.Delta? && held.value.text <= combined
    ensures Others(SentItems(sent + SentBeforeTag(held, event, combined, idx))) == Others(SentItems(sent))
  {
    match held
    case None => SentRebuilt(sent, event, combined[..idx]);
    case Some(h) =>
      if idx <= |h.text| {
        SentRebuilt(sent, h.event, combined[..idx]);
      } else {
        SentSnoc(sent, Verbatim(h));
        OthersSnoc(SentItems(sent), h);
        SentRebuilt(sent + [Verbatim(h)], event, combined[|h.text|..idx]);
        Assoc(sent, [Verbatim(h)], RebuiltUnlessEmpty(event, combined[|h.text|..idx]));
      }
  }

  lemma {:induction false} AccountsDelta(s: Strip, items: seq<Item>, event: Bytes, text: string)
    requires Accounts(s, items)
    ensures Accounts(StepDelta(s, event, text), items + [Delta(event, text)])
  {
    if !s.phase.Searching? {
      OthersSnoc(items, Delta(event, text));
    } else if Contains(HeldText(s) + text, OPEN_TAG) {
      AccountsTag(s, items, event, text);
    } else {
      AccountsNoTag(s, items, event, text);
    }
  }

  /**
   Every event without scanned text is written as it is and in order, whatever the
   scanner does; while it searches, so does every text event but the held one.
   */
  lemma {:induction false} EventsAreConserved(items: seq<Item>)
    ensures Accounts(Run(items), items)
  {
    if items != [] {
      var front, last := items[..|items| - 1], items[|items| - 1];
      EventsAreConserved(front);
      assert front + [last] == items;
      match last
      case Other(_) => AccountsOther(Run(front), front, last);
      case Delta(event, text) => AccountsDelta(Run(front), front, event, text);
    }
  }

  /** At the end of a response in which no tag was found, every event has been written. */
  lemma {:induction false} NothingIsLostWithoutTag(items: seq<Item>, rest: Bytes)
    ensures var f := Finish(Run(items), rest);
            && Others(SentItems(f.sent)) == Others(items)
            && (f.phase.Searching? ==> Deltas(SentItems(f.sent)) == Deltas(items))
  {
    EventsAreConserved(items);
    FinishSendsHeld(Run(items), rest);
  }

  lemma {:induction false} FinishSendsHeld(s: Strip, rest: Bytes)
    requires HoldsDelta(s) && (!s.phase.Searching? ==> s.held.None?)
    ensures Others(SentItems(Finish(s, rest).sent)) == Others(SentItems(s.sent))
    ensures Deltas(SentItems(Finish(s, rest).sent)) == Deltas(SentItems(s.sent)) + HeldItems(s)
  {
    var flushed := s.(sent := s.sent + if rest != "" then [Trailing(rest)] else []);
    if rest != "" {
      SentSnoc(s.sent, Trailing(rest));
    } else {
      assert flushed.sent == s.sent;
    }
    assert SentItems(flushed.sent) == SentItems(s.sent);
    if s.held.None? {
      assert flushed.sent + Release(flushed) == flushed.sent;
    }
    SentReleased(flushed);
  }

  // ---- The order of the writes ----

  /** The last text is suspicious, so its event is still pending. */
  predicate TextPending(items: seq<Item>) {
    Deltas(items) != [] && Deltas(items)[|Deltas(items)| - 1].Delta?
    && SuspiciousTail(Deltas(items)[|Deltas(items)| - 1].text)
  }

  lemma {:induction false} PendingSnoc(items: seq<Item>, item: Item)
    ensures TextPending(items + [item]) <==> if item.Delta? then SuspiciousTail(item.text) else TextPending(items)
  {
    OthersSnoc(items, item);
    if item.Other? {
      assert Deltas(items) + [] == Deltas(items);
    }
  }

  /** Where an event is written: one without scanned text overtakes a pending text event. */
  function Placed(order: seq<Item>, pending: bool, item: Item): seq<Item> {
    if item.Other? && pending && order != [] then order[..|order| - 1] + [item] + [order[|order| - 1]]
    else order + [item]
  }

  /** The order of the writes: nothing else changes places. */
  function WriteOrder(items: seq<Item>): seq<Item> {
    if items == [] then []
    else
      var front := items[..|items| - 1];
      Placed(WriteOrder(front), TextPending(front), items[|items| - 1])
  }

  /** While searching, the written events and the held one are in this order. */
  predicate InOrder(s: Strip, order: seq<Item>, pending: bool) {
    s.phase.Searching? ==> SentItems(s.sent) + HeldItems(s) == order && (s.held.Some? <==> pending)
  }

  /** As long as no tag is found, the events are written in exactly this order, the held one last. */
  lemma {:induction false} WritesInOrder(items: seq<Item>)
    ensures InOrder(Run(items), WriteOrder(items), TextPending(items))
  {
    if items != [] {
      var front, last := items[..|items| - 1], items[|items| - 1];
      WritesInOrder(front);
      PendingSnoc(front, last);
      assert front + [last] == items;
      StepInOrder(Run(front), WriteOrder(front), TextPending(front), last);
    }
  }

  lemma {:induction false} StepInOrder(s: Strip, order: seq<Item>, pending: bool, item: Item)
    requires HoldsDelta(s) && InOrder(s, order, pending)
    ensures InOrder(Step(s, item), Placed(order, pending, item), if item.Delta? then SuspiciousTail(item.text) else pending)
  {
    if s.phase.Searching? {
      match item
      case Other(_) => OvertakesHeld(s, order, item);
      case Delta(event, text) =>
        if Index(HeldText(s) + text, OPEN_TAG).None? {
          FollowsHeld(s, event, text);
        }
    }
  }

  lemma {:induction false} OvertakesHeld(s: Strip, order: seq<Item>, item: Item)
    requires item.Other? && HoldsDelta(s) && order == SentItems(s.sent) + HeldItems(s)
    ensures var r := Step(s, item); SentItems(r.sent) + HeldItems(r) == Placed(order, s.held.Some?, item)
  {
    SentSnoc(s.sent, Verbatim(item));
    if s.held.Some? {
      assert order[..|order| - 1] == SentItems(s.sent);
    } else {
      assert order == SentItems(s.sent);
    }
  }

  lemma {:induction false} FollowsHeld(s: Strip, event: Bytes, text: string)
    requires HoldsDelta(s) && s.phase.Searching? && Index(HeldText(s) + text, OPEN_TAG).None?
    ensures var r := StepDelta(s, event, text);
            && SentItems(r.sent) + HeldItems(r) == SentItems(s.sent) + HeldItems(s) + [Delta(event, text)]
            && (r.held.Some? <==> SuspiciousTail(text))
  {
    var released := s.sent + Release(s);
    ReleasedItems(s);
    if !SuspiciousTail(text) {
      SentSnoc(released, Verbatim(Delta(event, text)));
      assert SentItems(released) + [Delta(event, text)] + [] == SentItems(released) + [Delta(event, text)];
    }
  }

  lemma {:induction false} ReleasedItems(s: Strip)
    requires HoldsDelta(s)
    ensures SentItems(s.sent + Release(s)) == SentItems(s.sent) + HeldItems(s)
  {
    if s.held.Some? {
      SentSnoc(s.sent, Verbatim(s.held.value));
    } else {
      assert s.sent + [] == s.sent && SentItems(s.sent) + [] == SentItems(s.sent);
    }
  }

  // ---- Thinking blocks ----

  /** The items of a sequence of events, and whether a thinking block is open after them. */
  function Items(format: Format, json: Json, inThink: bool, events: seq<Bytes>): (seq<Item>, bool) {
    if events == [] then ([], inThink)
    else
      var front, last := Items(format, json, inThink, events[..|events| - 1]), events[|events| - 1];
      var next := Classify(format, json, DataPayload(last), front.1, last);
      (front.0 + [next.0], next.1)
  }

  lemma {:induction false} ItemsAppend(format: Format, json: Json, inThink: bool, a: seq<Bytes>, b: seq<Bytes>)
    ensures var first := Items(format, json, inThink, a);
            var second := Items(format, json, first.1, b);
            Items(format, json, inThink, a + b) == (first.0 + second.0, second.1)
    decreases |b|
  {
    if b == [] {
      var first := Items(format, json, inThink, a);
      assert a + b == a && first.0 + [] == first.0;
    } else {
      var front, last := b[..|b| - 1], b[|b| - 1];
      ItemsAppend(format, json, inThink, a, front);
      assert (a + b)[..|a + b| - 1] == a + front && (a + b)[|a + b| - 1] == last;
      var first := Items(format, json, inThink, a);
      var second := Items(format, json, first.1, front);
      var next := Classify(format, json, DataPayload(last), second.1, last);
      Assoc(first.0, second.0, [next.0]);
    }
  }

  /** The decoded payload of an event, if it has one. */
  function Decoded(json: Json, event: Bytes): Option<AnthropicEvent> {
    match DataPayload(event)
    case None => None
    case Some(payload) => json.anthropicEvent(payload)
  }

  /** An event that neither opens nor closes a content block. */
  predicate InsideBlock(json: Json, event: Bytes) {
    Decoded(json, event).Some? ==>
      var kind := Decoded(json, event).value.kind;
      kind != "content_block_start" && kind != "content_block_stop"
  }

  predicate OpensThinking(json: Json, event: Bytes) {
    match Decoded(json, event)
    case Some(e) => e.kind == "content_block_start" && e.blockType == "thinking"
    case None => false
  }

  predicate ClosesBlock(json: Json, event: Bytes) {
    match Decoded(json, event)
    case Some(e) => e.kind == "content_block_stop"
    case None => false
  }

  lemma {:induction false} NoTextInsideThinking(json: Json, events: seq<Bytes>)
    requires forall e :: e in events ==> InsideBlock(json, e)
    ensures var r := Items(Anthropic, json, true, events);
            r.1 && Texts(r.0) == []
  {
    if events != [] {
      var front, last := events[..|events| - 1], events[|events| - 1];
      NoTextInsideThinking(json, front);
      assert InsideBlock(json, last);
      var first := Items(Anthropic, json, true, front);
      TextsSnoc(first.0, Classify(Anthropic, json, DataPayload(last), true, last).0);
    }
  }

  /** A whole thinking block has no scanned text, whatever is in it. */
  lemma {:induction false} ThinkingBlockHasNoText(json: Json, open: Bytes, inside: seq<Bytes>, close: Bytes)
    requires OpensThinking(json, open) && ClosesBlock(json, close)
    requires forall e :: e in inside ==> InsideBlock(json, e)
    ensures var r := Items(Anthropic, json, false, [open] + inside + [close]);
            !r.1 && Texts(r.0) == []
  {
    ItemsOfOne(json, false, open);
    NoTextInsideThinking(json, inside);
    ItemsAppend(Anthropic, json, false, [open], inside);
    ItemsAppend(Anthropic, json, false, [open] + inside, [close]);
    ItemsOfOne(json, true, close);
    var body := Items(Anthropic, json, true, inside).0;
    TextsAppend([Other(open)], body);
    TextsSnoc([Other(open)] + body, Other(close));
    TextsSnoc([], Other(open));
  }

  lemma {:induction false} ItemsOfOne(json: Json, inThink: bool, event: Bytes)
    ensures var next := Classify(Anthropic, json, DataPayload(event), inThink, event);
            Items(Anthropic, json, inThink, [event]) == ([next.0], next.1)
  {
    var next := Classify(Anthropic, json, DataPayload(event), inThink, event);
    assert [event][..0] == [] && [] + [next.0] == [next.0];
  }

  lemma {:induction false} TextsSnoc(items: seq<Item>, item: Item)
    ensures Texts(items + [item]) == Texts(items) + if item.Delta? then [item.text] else []
  {
    assert (items + [item])[..|items|] == items;
  }

  lemma {:induction false} TextsAppend(a: seq<Item>, b: seq<Item>)
    ensures Texts(a + b) == Texts(a) + Texts(b)
    decreases |b|
  {
    if b == [] {
      assert a + b == a;
    } else {
      var front, last := b[..|b| - 1], b[|b| - 1];
      TextsAppend(a, front);
      TextsSnoc(a + front, last);
      Assoc(a, front, [last]);
      assert front + [last] == b;
    }
  }

  /** Inserting a whole thinking block where none is open changes neither the text nor the observation. */
  lemma {:induction false} ThinkingBlocksAreInvisible(json: Json, before: seq<Bytes>, open: Bytes, inside: seq<Bytes>, close: Bytes,
                                   after: seq<Bytes>, rest: Bytes)
    requires OpensThinking(json, open) && ClosesBlock(json, close)
    requires forall e :: e in inside ==> InsideBlock(json, e)
    requires !Items(Anthropic, json, false, before).1
    ensures var block := [open] + inside + [close];
            var with := Finish(Run(Items(Anthropic, json, false, before + block + after).0), rest);
            var without := Finish(Run(Items(Anthropic, json, false, before + after).0), rest);
            WrittenText(with.sent) == WrittenText(without.sent) && Observation(with) == Observation(without)
  {
    var block := [open] + inside + [close];
    ThinkingBlockHasNoText(json, open, inside, close);
    ItemsAppend(Anthropic, json, false, before, block);
    ItemsAppend(Anthropic, json, false, before + block, after);
    ItemsAppend(Anthropic, json, false, before, after);
    var b := Items(Anthropic, json, false, before).0;
    var t := Items(Anthropic, json, false, block).0;
    var a := Items(Anthropic, json, false, after).0;
    SameTexts(b, t, a);
    WritesUpToHit(b + t + a, rest);
    WritesUpToHit(b + a, rest);
  }

  lemma {:induction false} SameTexts(b: seq<Item>, t: seq<Item>, a: seq<Item>)
    requires Texts(t) == []
    ensures Texts(b + t + a) == Texts(b + a)
  {
    TextsAppend(b + t, a);
    TextsAppend(b, t);
    TextsAppend(b, a);
  }

  // ---- Empty deltas ----

  /** Empty OpenAI deltas never reach the scanner. */
  lemma {:induction false} OpenAIDeltasAreNotEmpty(json: Json, events: seq<Bytes>)
    ensures "" !in Texts(Items(OpenAI, json, false, events).0)
  {
    if events != [] {
      var front, last := events[..|events| - 1], events[|events| - 1];
      OpenAIDeltasAreNotEmpty(json, front);
      var first := Items(OpenAI, json, false, front);
      TextsSnoc(first.0, Classify(OpenAI, json, DataPayload(last), first.1, last).0);
    }
  }
}
