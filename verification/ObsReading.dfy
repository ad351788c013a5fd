/**
 The promises of the `<obs>` stripper to a client that reads the bytes it is sent, and exactly when
 they are kept (proxy/internal/proxy/obs.go:86-461).

 At the end of a stream `Finalize` writes the bytes of an unfinished event and then the held event, so
 the two run together; and until then other events overtake the held one.
 */
module ObsReading {
  import opened Text
  import opened SseFraming
  import opened ObsStrip
  import opened ObsScan
  import opened ObsStreaming
  import opened ObsEvents
  import opened ObsWhole
  import opened ObsWire
  import opened ObsCapture
  import opened ObsClient

  /** The bytes that the client is sent for a stream. */
  function ClientBytes(format: Format, json: Json, bytes: Bytes): Bytes {
    WireAll(format, json, Finalized(true, format, json, bytes).1)
  }

  /** The text a reader finds in a stream. */
  function ReadText(format: Format, json: Json, bytes: Bytes): string {
    FullText(Items(format, json, false, Frame(bytes).events).0)
  }

  /** The stripper before `Finalize`, and whether a thinking block is open. */
  function AtEnd(format: Format, json: Json, bytes: Bytes): (Strip, bool) {
    After(format, json, Frame(bytes).events)
  }

  /** What `Finalize` writes after the complete events: leftover bytes, and the held event run into them. */
  function LastBytes(format: Format, json: Json, bytes: Bytes): Bytes {
    var held := AtEnd(format, json, bytes).0.held;
    Frame(bytes).rest + if held.Some? then held.value.event else ""
  }

  /** The text that is read from these last bytes. */
  function LastText(format: Format, json: Json, bytes: Bytes): string {
    var (s, inThink) := AtEnd(format, json, bytes);
    if s.held.None? then ""
    else FullText(Items(format, json, inThink, Frame(LastBytes(format, json, bytes)).events).0)
  }

  /** The last text event of a response without a tag, if its text could go on to be one. */
  function Pending(items: seq<Item>): (r: Option<Item>)
    ensures r.Some? ==> r.value.Delta?
  {
    if TextPending(items) && !Contains(FullText(items), OPEN_TAG) then Some(Deltas(items)[|Deltas(items)| - 1]) else None
  }

  /** There is no such event, or its text can still be read when it comes straight after the leftover bytes. */
  predicate LastIsIntact(format: Format, json: Json, bytes: Bytes) {
    var (items, inThink) := Items(format, json, false, Frame(bytes).events);
    match Pending(items)
    case None => true
    case Some(last) => FullText(Items(format, json, inThink, Frame(Frame(bytes).rest + last.event).events).0) == last.text
  }

  // ---- The bytes after Finalize ----

  lemma {:induction false} FinishedWire(format: Format, json: Json, s: Strip, rest: Bytes)
    requires s.held.Some? ==> s.phase.Searching?
    ensures WireAll(format, json, Finish(s, rest).sent)
            == WireAll(format, json, s.sent) + (rest + if s.held.Some? then s.held.value.event else "")
  {
    var trailing := if rest != "" then [Trailing(rest)] else [];
    var bytes, held := WireAll(format, json, s.sent), if s.held.Some? then s.held.value.event else "";
    assert WireAll(format, json, s.sent + trailing) == bytes + rest by {
      if rest != "" {
        WireSnoc(format, json, s.sent, Trailing(rest));
      } else {
        assert s.sent + [] == s.sent && bytes + "" == bytes;
      }
    }
    if s.held.Some? {
      WireSnoc(format, json, s.sent + trailing, Verbatim(s.held.value));
    }
    Assoc(bytes, rest, held);
    assert bytes + rest + "" == bytes + rest;
  }

  /** Bytes without an event say nothing, also after an empty line. */
  lemma {:induction false} RestIsSilent(left: Bytes, rest: Bytes)
    requires Clean(left) && !Contains(rest, EVENT_END)
    ensures Payloads(Frame(left + rest).events) == []
  {
    if left == "" {
      assert left + rest == rest;
    } else if rest != "" && rest[0] == '\n' {
      var tail := rest[1..];
      assert left + rest == EVENT_END + tail && rest == LINE_END + tail;
      if Contains(tail, EVENT_END) {
        var k := Index(tail, EVENT_END).value;
        OccursInSuffix(LINE_END, tail, EVENT_END, k);
        IndexIsFirst(rest, EVENT_END, k + 1);
      }
      BlankEvent();
      FrameCons(EVENT_END, tail);
      assert [EVENT_END] + [] == [EVENT_END];
      PayloadsOfOne(EVENT_END);
    } else {
      forall k: nat ensures !PairAt(left + rest, k) {
        if PairAt(left + rest, k) {
          NoPairAfterLine(rest, k);
        }
      }
      NoPairIn(left + rest);
    }
  }

  lemma {:induction false} NoPairAfterLine(rest: Bytes, k: nat)
    requires PairAt(LINE_END + rest, k) && (rest == "" || rest[0] != '\n')
    ensures Contains(rest, EVENT_END)
  {
    EventEndAt(rest, k - 1);
    IndexIsFirst(rest, EVENT_END, k - 1);
  }

  /** The payloads the client finds: those written before `Finalize`, and those in the last bytes. */
  lemma {:induction false} ClientPayloads(format: Format, json: Json, bytes: Bytes)
    requires Rewrites(format, json)
    ensures var (s, inThink) := AtEnd(format, json, bytes);
            && Heard(format, json, s, inThink) && (s.held.Some? ==> s.phase.Searching?)
            && Payloads(Frame(ClientBytes(format, json, bytes)).events)
               == SentPayloads(format, json, s.sent)
                  + if s.held.Some? then Payloads(Frame(LastBytes(format, json, bytes)).events) else []
  {
    var (s, inThink) := AtEnd(format, json, bytes);
    var f := Frame(bytes);
    FrameIsAFraming(bytes);
    EventsAreHeard(format, json, f.events);
    SearchingIsExact(Items(format, json, false, f.events).0);
    FinishedWire(format, json, s, f.rest);
    var before, last := WireAll(format, json, s.sent), LastBytes(format, json, bytes);
    FrameAppend(before, last);
    PayloadsAppend(Frame(before).events, Frame(Frame(before).rest + last).events);
    if s.held.Some? {
      assert Frame(before).rest + last == last;
    } else {
      assert last == f.rest;
      RestIsSilent(Frame(before).rest, f.rest);
    }
  }

  /** The client reads the text written before `Finalize`, and the text in the last bytes. */
  lemma {:induction false} ClientReads(format: Format, json: Json, bytes: Bytes)
    requires Rewrites(format, json)
    ensures var s := AtEnd(format, json, bytes).0;
            ReadText(format, json, ClientBytes(format, json, bytes)) == WrittenText(s.sent) + LastText(format, json, bytes)
  {
    var (s, inThink) := AtEnd(format, json, bytes);
    ClientPayloads(format, json, bytes);
    var client := Frame(ClientBytes(format, json, bytes)).events;
    HearsItems(format, json, false, client);
    var sent := SentPayloads(format, json, s.sent);
    var heard := Hear(format, json, false, sent);
    if s.held.Some? {
      var last := Frame(LastBytes(format, json, bytes)).events;
      HearAppend(format, json, false, sent, Payloads(last));
      HearsItems(format, json, inThink, last);
      ConcatAppend(heard.0, Texts(Items(format, json, inThink, last).0));
    } else {
      assert sent + [] == sent;
      assert WrittenText(s.sent) + "" == WrittenText(s.sent);
    }
  }

  // ---- The text before the tag ----

  /** The first tag of a text cut into these deltas, if it has one, lies within two consecutive deltas. */
  ghost predicate Shown(ds: seq<string>) {
    var first := Index(Concat(ds), OPEN_TAG);
    first.Some? ==> InTwoDeltas(ds, first.value)
  }

  /** A tag that is never shown starts before the last delta. */
  lemma {:induction false} StartsBeforeLast(ds: seq<string>, p: nat)
    requires Index(Concat(ds), OPEN_TAG) == Some(p) && !InTwoDeltas(ds, p)
    ensures p + |Last(ds)| < |Concat(ds)|
  {
    if ds != [] {
      var i := |ds| - 1;
      WindowInText(ds, i);
      assert Offset(ds, i + 1) == |Concat(ds)| by { assert ds[..|ds|] == ds; }
      assert p < WindowStart(ds, i);
    }
  }

  /** What has been written before `Finalize`, and what is held. */
  lemma {:induction false} WrittenAtEnd(items: seq<Item>)
    ensures var s, ds, text := Run(items), Texts(items), FullText(items);
            && WrittenText(s.sent) <= text
            && (Shown(ds) ==> WrittenText(s.sent) + HeldText(s) == Before(text, OPEN_TAG))
            && (Shown(ds) && s.held.Some? ==> !Contains(text, OPEN_TAG))
            && (!Shown(ds) ==> Index(text, OPEN_TAG).value < |WrittenText(s.sent)|)
  {
    RunTracks(items);
    TrackedAtEnd(Run(items), Texts(items), Hit(Texts(items)), FullText(items));
  }

  lemma {:induction false} TrackedAtEnd(s: Strip, ds: seq<string>, hit: Option<nat>, text: string)
    requires HoldsDelta(s) && text == Concat(ds) && hit == Hit(ds) && Tracks(s, hit, text, Last(ds))
    ensures WrittenText(s.sent) <= text
    ensures Shown(ds) ==> WrittenText(s.sent) + HeldText(s) == Before(text, OPEN_TAG)
    ensures Shown(ds) && s.held.Some? ==> !Contains(text, OPEN_TAG)
    ensures !Shown(ds) ==> Index(text, OPEN_TAG).value < |WrittenText(s.sent)|
  {
    HitIsFirstTag(ds);
    if hit.Some? {
      IndexIsFirst(text, OPEN_TAG, hit.value);
      assert WrittenText(s.sent) + "" == WrittenText(s.sent);
    } else if !Shown(ds) {
      StartsBeforeLast(ds, Index(text, OPEN_TAG).value);
    }
  }

  /** In a response that shows its tag, if it has one, the pending event is the one that is held. */
  lemma {:induction false} PendingIsHeld(items: seq<Item>)
    requires Shown(Texts(items))
    ensures Run(items).held == Pending(items)
  {
    EventsAreConserved(items);
    WritesInOrder(items);
    WrittenAtEnd(items);
    RunTracks(items);
    HitIsFirstTag(Texts(items));
    LastIsHeld(Run(items), items);
  }

  lemma {:induction false} LastIsHeld(s: Strip, items: seq<Item>)
    requires Accounts(s, items)
    ensures s.held.Some? ==> Deltas(items) != [] && Deltas(items)[|Deltas(items)| - 1] == s.held.value
  {
  }

  lemma {:induction false} IntactIsRead(format: Format, json: Json, bytes: Bytes)
    requires Shown(Texts(Items(format, json, false, Frame(bytes).events).0))
    ensures LastIsIntact(format, json, bytes)
            <==> LastText(format, json, bytes) == HeldText(AtEnd(format, json, bytes).0)
  {
    PendingIsHeld(Items(format, json, false, Frame(bytes).events).0);
  }

  /**
   The stripper's promise and exactly when it is kept: the client reads the text before the first tag
   if and only if the stream shows that tag, if there is one, within two consecutive deltas and the
   last text, if there is no tag and it ends like the beginning of one, is not garbled by leftover bytes.
   The observation is then what follows the tag, however body and close tag are fragmented.
   */
  lemma {:induction false} ClientReadsTextBeforeTag(format: Format, json: Json, bytes: Bytes)
    requires Rewrites(format, json)
    ensures var items := Items(format, json, false, Frame(bytes).events).0;
            var text, shown := FullText(items), Shown(Texts(items));
            && (ReadText(format, json, ClientBytes(format, json, bytes)) == Before(text, OPEN_TAG)
                <==> shown && LastIsIntact(format, json, bytes))
            && (shown ==> Finalized(true, format, json, bytes).0 == ObservationAfter(text, Index(text, OPEN_TAG)))
  {
    var items := Items(format, json, false, Frame(bytes).events).0;
    var s, written, last := Run(items), WrittenText(Run(items).sent), LastText(format, json, bytes);
    ClientReads(format, json, bytes);
    WrittenAtEnd(items);
    StripsFirstObservation(items, Frame(bytes).rest);
    if Shown(Texts(items)) {
      IntactIsRead(format, json, bytes);
      if written + last == written + HeldText(s) {
        assert (written + last)[|written|..] == last && (written + HeldText(s))[|written|..] == HeldText(s);
      }
    }
  }

  /** A stream that ends with a whole event, and with no thinking block open, is never garbled. */
  lemma {:induction false} WholeStreamIsIntact(format: Format, json: Json, bytes: Bytes)
    requires Rewrites(format, json)
    requires Frame(bytes).rest == "" && !Items(format, json, false, Frame(bytes).events).1
    ensures LastIsIntact(format, json, bytes)
  {
    if Pending(Items(format, json, false, Frame(bytes).events).0).Some? {
      HeldIsRead(format, json, bytes);
      IntactIsRead(format, json, bytes);
    }
  }

  lemma {:induction false} HeldIsRead(format: Format, json: Json, bytes: Bytes)
    requires Rewrites(format, json)
    requires Frame(bytes).rest == "" && !AtEnd(format, json, bytes).1
    ensures LastText(format, json, bytes) == HeldText(AtEnd(format, json, bytes).0)
  {
    var s := AtEnd(format, json, bytes).0;
    ClientPayloads(format, json, bytes);
    if s.held.Some? {
      var e := s.held.value.event;
      assert Frame(bytes).rest + e == e;
      CarriedIsRead(format, json, e, s.held.value.text);
    }
  }

  lemma {:induction false} CarriedIsRead(format: Format, json: Json, e: Bytes, text: string)
    requires Carries(format, json, Verbatim(Delta(e, text)), text)
    ensures FullText(Items(format, json, false, Frame(e).events).0) == text
  {
    OneEvent(e);
    PayloadsOfOne(e);
    HearsItems(format, json, false, [e]);
    var p := DataPayload(e).value;
    HearSnoc(format, json, false, [], p);
    assert [] + [p] == [p] && [] + [text] == [text];
    ConcatSnoc([], text);
  }

  /** What it means for the last text to be intact, by the lines of the leftover bytes. */
  lemma {:induction false} IntactByPayloads(format: Format, json: Json, bytes: Bytes, lines: Bytes, part: Bytes)
    requires Rewrites(format, json) && Frame(bytes).rest == lines + part && EndsLine(lines) && '\n' !in part
    ensures var (items, inThink) := Items(format, json, false, Frame(bytes).events);
            LastIsIntact(format, json, bytes) <==>
              match Pending(items)
              case None => true
              case Some(last) => Concat(Hear(format, json, inThink, TailRead(lines, part, last.event)).0) == last.text
  {
    var (items, inThink) := Items(format, json, false, Frame(bytes).events);
    if Pending(items).Some? {
      var e := Pending(items).value.event;
      PendingIsHeld(items);
      ClientPayloads(format, json, bytes);
      FrameIsAFraming(bytes);
      TailPayloads(lines, part, e);
      HearsItems(format, json, inThink, Frame(lines + part + e).events);
    }
  }

  // ---- A stream cut off inside an event ----

  function DataLine(payload: Bytes): Bytes {
    DATA_PREFIX + payload
  }

  function DataEvent(payload: Bytes): Bytes {
    DataLine(payload) + LINE_END + LINE_END
  }

  lemma {:induction false} DataEventHasPayload(payload: Bytes)
    requires '\n' !in payload
    ensures IsEvent(DataEvent(payload)) && DataPayload(DataEvent(payload)) == Some(payload)
  {
    NoNewline(DataLine(payload));
    OneLine(DataLine(payload));
    IndexOfInserted(DataLine(payload), LINE_END, LINE_END);
    assert DataEvent(payload)[..|DataLine(payload)|] == DataLine(payload);
    assert DataLine(payload)[|DATA_PREFIX|..] == payload;
  }

  lemma {:induction false} OneEventStream(json: Json, p: Bytes, t: string)
    requires '\n' !in p && json.openAIChunk(p) == Some([t]) && t != ""
    ensures var e := DataEvent(p); Items(OpenAI, json, false, [e]) == ([Delta(e, t)], false) && FullText([Delta(e, t)]) == t
  {
    var e := DataEvent(p);
    DataEventHasPayload(p);
    assert [e][..0] == [] && [] + [Delta(e, t)] == [Delta(e, t)];
    TextsSnoc([], Delta(e, t));
    ConcatSnoc([], t);
    assert Texts([]) == [] && [] + [t] == [t] && "" + t == t;
  }

  lemma {:induction false} HoldsFirst(e: Bytes, t: string)
    requires SuspiciousTail(t) && !Contains(t, OPEN_TAG)
    ensures Run([Delta(e, t)]) == Strip(Searching, Some(Delta(e, t)), "", [])
  {
    RunItem([], Delta(e, t));
    assert [] + [Delta(e, t)] == [Delta(e, t)] && "" + t == t;
    assert START.sent + Release(START) == [];
  }

  /** An event of one line before and after a line without a newline. */
  lemma {:induction false} OneLineStreams(line: Bytes, rest: Bytes)
    requires !Contains(line, LINE_END) && !Contains(rest, LINE_END)
    ensures var e := line + LINE_END + LINE_END;
            && Frame(e + rest) == Framed([e], rest)
            && rest + e == (rest + line) + LINE_END + LINE_END && Frame(rest + e) == Framed([rest + e], "")
  {
    var e := line + LINE_END + LINE_END;
    NoNewline(line);
    NoNewline(rest);
    NoNewline(rest + line);
    OneLine(line);
    NoPairIn(rest);
    FrameCons(e, rest);
    assert [e] + [] == [e];
    Assoc(rest, line + LINE_END, LINE_END);
    Assoc(rest, line, LINE_END);
    OneLine(rest + line);
    OneEvent(rest + e);
  }

  lemma {:induction false} CutStream(p: Bytes, r: Bytes)
    requires '\n' !in p && '\n' !in r
    ensures Frame(DataEvent(p) + DataLine(r)) == Framed([DataEvent(p)], DataLine(r))
    ensures Frame(DataLine(r) + DataEvent(p)) == Framed([DataEvent(r + DataLine(p))], "")
  {
    NoNewline(DataLine(p));
    NoNewline(DataLine(r));
    OneLineStreams(DataLine(p), DataLine(r));
    Assoc(DATA_PREFIX, r, DataLine(p));
  }

  /**
   A concrete loss: one event with a suspicious text `t`, and then a data line without its blank line,
   such as `data: [DONE]`. The held event is written right behind that line, and if the two payloads
   together are no chunk the client reads nothing.
   */
  lemma {:induction false} LeftoverGarblesText(json: Json, p: Bytes, t: string, r: Bytes)
    requires Rewrites(OpenAI, json)
    requires '\n' !in p && '\n' !in r && json.openAIChunk(p) == Some([t]) && SuspiciousTail(t) && !Contains(t, OPEN_TAG)
    requires json.openAIChunk(r + DataLine(p)).None?
    ensures var bytes := DataEvent(p) + DataLine(r);
            && ReadText(OpenAI, json, bytes) == t != ""
            && ReadText(OpenAI, json, ClientBytes(OpenAI, json, bytes)) == ""
  {
    var e, rest := DataEvent(p), DataLine(r);
    OneEventStream(json, p, t);
    HoldsFirst(e, t);
    CutStream(p, r);
    NotAChunk(json, r + DataLine(p));
    ReadsLastOnly(json, e + rest, e, t);
  }

  lemma {:induction false} ReadsLastOnly(json: Json, bytes: Bytes, e: Bytes, t: string)
    requires Rewrites(OpenAI, json)
    requires AtEnd(OpenAI, json, bytes) == (Strip(Searching, Some(Delta(e, t)), "", []), false)
    ensures ReadText(OpenAI, json, ClientBytes(OpenAI, json, bytes))
            == FullText(Items(OpenAI, json, false, Frame(Frame(bytes).rest + e).events).0)
  {
    ClientReads(OpenAI, json, bytes);
    assert WrittenText([]) == "";
    assert "" + LastText(OpenAI, json, bytes) == LastText(OpenAI, json, bytes);
  }

  lemma {:induction false} NotAChunk(json: Json, p: Bytes)
    requires '\n' !in p && json.openAIChunk(p).None?
    ensures FullText(Items(OpenAI, json, false, [DataEvent(p)]).0) == ""
  {
    DataEventHasPayload(p);
    HearsItems(OpenAI, json, false, [DataEvent(p)]);
    PayloadsOfOne(DataEvent(p));
    HearSnoc(OpenAI, json, false, [], p);
    assert [] + [p] == [p];
  }

  // ---- The order in which the client reads ----

  function Events(items: seq<Item>): seq<Bytes> {
    seq(|items|, i requires 0 <= i < |items| => items[i].event)
  }

  /** Writes of events as received convey the payloads of these events. */
  lemma {:induction false} VerbatimPayloads(format: Format, json: Json, sent: seq<Sent>)
    requires forall w | w in sent :: w.Verbatim?
    ensures SentPayloads(format, json, sent) == Payloads(Events(SentItems(sent)))
  {
    if sent != [] {
      var front, last := sent[..|sent| - 1], sent[|sent| - 1];
      VerbatimPayloads(format, json, front);
      assert last in sent;
      EventsSnoc(SentItems(front), last.item);
      PayloadsSnoc(Events(SentItems(front)), last.item.event);
    }
  }

  /**
   If no tag is found, the client reads exactly the payloads of the events in `WriteOrder`: an event
   without text overtakes the pending text event, and nothing else changes places. Only the last one,
   if it is held to the end, may be garbled by leftover bytes.
   */
  lemma {:induction false} ClientReadsInOrder(format: Format, json: Json, bytes: Bytes)
    requires Rewrites(format, json) && AtEnd(format, json, bytes).0.phase.Searching?
    ensures var items, s := Items(format, json, false, Frame(bytes).events).0, AtEnd(format, json, bytes).0;
            var order, read := WriteOrder(items), Payloads(Frame(ClientBytes(format, json, bytes)).events);
            && (s.held.Some? <==> TextPending(items))
            && (s.held.None? || Frame(bytes).rest == "" ==> read == Payloads(Events(order)))
            && (s.held.Some? ==>
                  && order != [] && order[|order| - 1] == s.held.value
                  && read == Payloads(Events(order[..|order| - 1])) + Payloads(Frame(LastBytes(format, json, bytes)).events))
  {
    var items, s := Items(format, json, false, Frame(bytes).events).0, AtEnd(format, json, bytes).0;
    ClientPayloads(format, json, bytes);
    WritesInOrder(items);
    FrameIsAFraming(bytes);
    WritesComeFrom(format, json, Frame(bytes).events);
    VerbatimPayloads(format, json, s.sent);
    var order := WriteOrder(items);
    if s.held.Some? {
      assert order[..|order| - 1] == SentItems(s.sent);
      HeldLast(s, order, Frame(bytes).rest);
    } else {
      assert order == SentItems(s.sent);
      assert SentPayloads(format, json, s.sent) + [] == SentPayloads(format, json, s.sent);
    }
  }

  lemma {:induction false} EventsSnoc(items: seq<Item>, item: Item)
    ensures Events(items + [item]) == Events(items) + [item.event]
  {
  }

  lemma {:induction false} HeldLast(s: Strip, order: seq<Item>, rest: Bytes)
    requires s.held.Some? && order == SentItems(s.sent) + [s.held.value] && IsEvent(s.held.value.event)
    ensures rest == "" ==>
              Payloads(Events(order))
              == Payloads(Events(SentItems(s.sent))) + Payloads(Frame(rest + s.held.value.event).events)
  {
    var e, sent := s.held.value.event, SentItems(s.sent);
    EventsSnoc(sent, s.held.value);
    PayloadsSnoc(Events(sent), e);
    OneEvent(e);
    PayloadsOfOne(e);
    assert "" + e == e;
  }

  // ---- Readers that stop at [DONE] ----

  const DONE := "[DONE]"

  function UntilDone(payloads: seq<Bytes>): seq<Bytes> {
    if payloads == [] || payloads[0] == DONE then [] else [payloads[0]] + UntilDone(payloads[1..])
  }

  /** The text of an OpenAI stream for a reader that stops at `[DONE]`, as the batch logger does. */
  function ReadTextUntilDone(json: Json, bytes: Bytes): string {
    Concat(Hear(OpenAI, json, false, UntilDone(Payloads(Frame(bytes).events))).0)
  }

  lemma {:induction false} UntilFirstDone(a: seq<Bytes>, b: seq<Bytes>)
    requires DONE !in a
    ensures UntilDone(a + [DONE] + b) == a
  {
    if a == [] {
      assert (a + [DONE] + b)[0] == DONE;
    } else {
      assert (a + [DONE] + b)[1..] == a[1..] + [DONE] + b;
      UntilFirstDone(a[1..], b);
    }
  }

  lemma {:induction false} PayloadOfMember(events: seq<Bytes>, e: Bytes)
    requires e in events && DataPayload(e).Some?
    ensures DataPayload(e).value in Payloads(events)
  {
    var front, last := events[..|events| - 1], events[|events| - 1];
    assert events == front + [last];
    if e != last {
      assert e in front;
      PayloadOfMember(front, e);
    }
  }

  /** Nothing that is written before `[DONE]` reads as `[DONE]`. */
  lemma {:induction false} NoDoneSent(json: Json, sent: seq<Sent>, events: seq<Bytes>)
    requires Rewrites(OpenAI, json) && json.openAIChunk(DONE).None? && DONE !in Payloads(events)
    requires forall w | w in sent :: WriteFrom(OpenAI, json, w, events)
    ensures DONE !in SentPayloads(OpenAI, json, sent)
  {
    if sent != [] {
      var front, last := sent[..|sent| - 1], sent[|sent| - 1];
      NoDoneSent(json, front, events);
      assert last in sent;
      match last
      case Verbatim(item) =>
        if DataPayload(item.event).Some? {
          PayloadOfMember(events, item.event);
        }
      case Rebuilt(event, text) =>
        var t :| BeginsWith(OpenAI, json, event, t, text, events);
        assert PayloadText(OpenAI, json, DONE).None?;
    }
  }

  /** `[DONE]` is forwarded at once. */
  lemma {:induction false} DoneIsForwarded(json: Json, events: seq<Bytes>, done: Bytes)
    requires json.openAIChunk(DONE).None? && DataPayload(done) == Some(DONE)
    ensures var s := After(OpenAI, json, events).0;
            After(OpenAI, json, events + [done]).0 == s.(sent := s.sent + [Verbatim(Other(done))])
  {
    RunSnoc(OpenAI, json, events, done);
  }

  lemma {:induction false} ReadsWhatWasSent(json: Json, events: seq<Bytes>, done: Bytes, rest: Bytes, bytes: Bytes)
    requires Rewrites(OpenAI, json) && json.openAIChunk(DONE).None?
    requires Frame(bytes) == Framed(events + [done], rest)
    requires DONE !in Payloads(events) && DataPayload(done) == Some(DONE)
    ensures ReadTextUntilDone(json, ClientBytes(OpenAI, json, bytes)) == WrittenText(After(OpenAI, json, events).0.sent)
  {
    FrameIsAFraming(bytes);
    assert forall e :: e in events ==> e in events + [done];
    EventsAreHeard(OpenAI, json, events);
    WritesComeFrom(OpenAI, json, events);
    DoneIsForwarded(json, events, done);
    ClientPayloads(OpenAI, json, bytes);
    var s := After(OpenAI, json, events).0;
    NoDoneSent(json, s.sent, events);
    WireSnoc(OpenAI, json, s.sent, Verbatim(Other(done)));
    var end := AtEnd(OpenAI, json, bytes).0;
    var late := if end.held.Some? then Payloads(Frame(LastBytes(OpenAI, json, bytes)).events) else [];
    UntilFirstDone(SentPayloads(OpenAI, json, s.sent), late);
  }

  /**
   A text event held when `[DONE]` arrives is written behind it. So a reader that stops there has read
   the text before the first tag if and only if the tag is shown and, if there is none, the last text
   has no suspicious tail.
   */
  lemma {:induction false} DoneOvertakesHeldText(json: Json, events: seq<Bytes>, done: Bytes, rest: Bytes, bytes: Bytes)
    requires Rewrites(OpenAI, json) && json.openAIChunk(DONE).None?
    requires Frame(bytes) == Framed(events + [done], rest)
    requires DONE !in Payloads(events) && DataPayload(done) == Some(DONE)
    ensures var items := Items(OpenAI, json, false, events).0;
            var text, ds := FullText(items), Texts(items);
            ReadTextUntilDone(json, ClientBytes(OpenAI, json, bytes)) == Before(text, OPEN_TAG)
            <==> Shown(ds) && (Contains(text, OPEN_TAG) || !SuspiciousTail(Last(ds)))
  {
    var items := Items(OpenAI, json, false, events).0;
    ReadsWhatWasSent(json, events, done, rest, bytes);
    WrittenIsAll(items);
  }

  /** For example, a stream of one chunk with a suspicious text `t` and the usual `[DONE]`. */
  lemma {:induction false} HeldTextIsBehindDone(json: Json, p: Bytes, t: string)
    requires Rewrites(OpenAI, json) && json.openAIChunk(DONE).None?
    requires '\n' !in p && json.openAIChunk(p) == Some([t]) && SuspiciousTail(t) && !Contains(t, OPEN_TAG)
    ensures var bytes := DataEvent(p) + DataEvent(DONE);
            && ReadTextUntilDone(json, bytes) == t != ""
            && ReadTextUntilDone(json, ClientBytes(OpenAI, json, bytes)) == ""
  {
    var e, done := DataEvent(p), DataEvent(DONE);
    DataEventHasPayload(p);
    DataEventHasPayload(DONE);
    TwoEvents(e, done);
    OneEventStream(json, p, t);
    HoldsFirst(e, t);
    ReadsWhatWasSent(json, [e], done, "", e + done);
    TextBeforeDone(json, e, p, t);
  }

  lemma {:induction false} TwoEvents(a: Bytes, b: Bytes)
    requires IsEvent(a) && IsEvent(b)
    ensures Frame(a + b) == Framed([a] + [b], "")
    ensures Payloads([a]) == Optional(DataPayload(a)) && Payloads([a] + [b]) == Payloads([a]) + Optional(DataPayload(b))
  {
    FrameCons(a, b);
    OneEvent(b);
    PayloadsOfOne(a);
    PayloadsSnoc([a], b);
  }

  lemma {:induction false} TextBeforeDone(json: Json, e: Bytes, p: Bytes, t: string)
    requires Payloads([e]) == [p] && p != DONE
    requires Items(OpenAI, json, false, [e]) == ([Delta(e, t)], false) && FullText([Delta(e, t)]) == t
    ensures Concat(Hear(OpenAI, json, false, UntilDone([p] + [DONE])).0) == t
  {
    HearsItems(OpenAI, json, false, [e]);
    UntilFirstDone([p], []);
    assert [p] + [DONE] + [] == [p] + [DONE];
  }

  /** Before `Finalize`, the text before the tag has been written if nothing of it is held. */
  lemma {:induction false} WrittenIsAll(items: seq<Item>)
    ensures var s, ds, text := Run(items), Texts(items), FullText(items);
            WrittenText(s.sent) == Before(text, OPEN_TAG)
            <==> Shown(ds) && (Contains(text, OPEN_TAG) || !SuspiciousTail(Last(ds)))
  {
    var s := Run(items);
    WrittenAtEnd(items);
    RunTracks(items);
    HitIsFirstTag(Texts(items));
    assert |WrittenText(s.sent) + HeldText(s)| == |WrittenText(s.sent)| + |HeldText(s)|;
    assert WrittenText(s.sent) + "" == WrittenText(s.sent);
  }

  // ---- Streamed and whole responses ----

  /** What the client reads from a stream, without the blanks before a removed observation. */
  function StreamedContent(format: Format, json: Json, bytes: Bytes): string {
    var read := ReadText(format, json, ClientBytes(format, json, bytes));
    if Contains(ReadText(format, json, bytes), OPEN_TAG) then TrimRight(read, NewlineOrSpace) else read
  }

  /**
   An OpenAI response, streamed in any deltas and bytes, reads the same as its whole body, up to blanks
   before the observation, if and only if the stream keeps the stripper's promise; and if it shows the
   tag then both give the same observation.
   */
  lemma {:induction false} OpenAIResponsesAgree(json: Json, choices: seq<string>, bytes: Bytes)
    requires Rewrites(OpenAI, json) && choices != [] && choices[0] == ReadText(OpenAI, json, bytes)
    ensures var shown := Shown(Texts(Items(OpenAI, json, false, Frame(bytes).events).0));
            var reply := StripOpenAI(Some(choices));
            && (OpenAIText(choices[0], reply) == StreamedContent(OpenAI, json, bytes)
                <==> shown && LastIsIntact(OpenAI, json, bytes))
            && (shown ==> TrimSpace(reply.obs) == Finalized(true, OpenAI, json, bytes).0)
  {
    var items := Items(OpenAI, json, false, Frame(bytes).events).0;
    var s, read := Run(items), ReadText(OpenAI, json, ClientBytes(OpenAI, json, bytes));
    ClientReadsTextBeforeTag(OpenAI, json, bytes);
    ClientReads(OpenAI, json, bytes);
    WrittenAtEnd(items);
    if Shown(Texts(items)) {
      ShownContent(choices, read);
    } else {
      LeakedContent(choices, WrittenText(s.sent), LastText(OpenAI, json, bytes));
    }
  }

  lemma {:induction false} ShownContent(choices: seq<string>, read: string)
    requires choices != [] && (Contains(choices[0], OPEN_TAG) ==> read == Before(choices[0], OPEN_TAG))
    ensures var text, reply := choices[0], StripOpenAI(Some(choices));
            && (OpenAIText(text, reply) == (if Contains(text, OPEN_TAG) then TrimRight(read, NewlineOrSpace) else read)
                <==> read == Before(text, OPEN_TAG))
            && TrimSpace(reply.obs) == ObservationAfter(text, Index(text, OPEN_TAG))
  {
    TrimEmpty();
  }

  lemma {:induction false} LeakedContent(choices: seq<string>, written: string, last: string)
    requires choices != [] && written <= choices[0] && Contains(choices[0], OPEN_TAG)
    requires Index(choices[0], OPEN_TAG).value < |written|
    ensures OpenAIText(choices[0], StripOpenAI(Some(choices))) != TrimRight(written + last, NewlineOrSpace)
  {
    KeptTagDiffers(choices[0], Index(choices[0], OPEN_TAG).value, written + last);
  }

  /**
   For an Anthropic stream that keeps the promise, the client reads the same text as from the whole
   body, up to blanks at its end, if and only if there is no tag, or the first tag lies in one text
   block and only blanks follow that block; then both give the same observation.
   */
  lemma {:induction false} AnthropicResponsesAgree(json: Json, blocks: seq<Option<AnthropicBlock>>, bytes: Bytes)
    requires Rewrites(Anthropic, json) && ReadText(Anthropic, json, bytes) == Concat(BlockTexts(blocks))
    requires Shown(Texts(Items(Anthropic, json, false, Frame(bytes).events).0)) && LastIsIntact(Anthropic, json, bytes)
    ensures var text, reply := ReadText(Anthropic, json, bytes), StripAnthropic(Some(blocks));
            var agree := !Contains(text, OPEN_TAG) || exists j :: CutInText(BlockTexts(blocks), j);
            var whole := TrimRight(Concat(BlockTexts(Replace(blocks, reply.cut))), NewlineOrSpace);
            var streamed := TrimRight(ReadText(Anthropic, json, ClientBytes(Anthropic, json, bytes)), NewlineOrSpace);
            && (whole == streamed <==> agree)
            && (agree ==> TrimSpace(reply.obs) == Finalized(true, Anthropic, json, bytes).0)
  {
    var items := Items(Anthropic, json, false, Frame(bytes).events).0;
    ClientReadsTextBeforeTag(Anthropic, json, bytes);
    StripsFirstObservation(items, Frame(bytes).rest);
    AnthropicPathsAgree(blocks, items, Frame(bytes).rest);
  }
}
