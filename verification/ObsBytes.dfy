/**
 The very bytes that the `<obs>` stripper writes for a stream (proxy/internal/proxy/obs.go:97-168, 280-333, 446-461).
 */
module ObsBytes {
  import opened Text
  import opened SseFraming
  import opened ObsStrip
  import opened ObsScan
  import opened ObsStreaming
  import opened ObsEvents
  import opened ObsWire
  import opened ObsCapture
  import opened ObsClient
  import opened ObsReading

  // ---- Rebuilt events ----

  /** The line that `line` is replaced with when its event gets a new text. */
  ghost predicate IsNewLine(format: Format, json: Json, line: Bytes, text: string, out: Bytes) {
    if "data: " <= line && json.setText(format, line[6..], text).Some?
    then out == "data: " + json.setText(format, line[6..], text).value
    else out == line
  }

  /** A rebuilt event has the lines of the event, in order; only data lines change, and only in their payload. */
  lemma {:induction false} LinesAreRebuilt(format: Format, json: Json, line: Bytes, rest: Bytes, text: string)
    returns (out: Bytes)
    requires '\n' !in line
    ensures IsNewLine(format, json, line, text, out)
    ensures Wire(format, json, Rebuilt(line, text)) == out + "\n"
    ensures Wire(format, json, Rebuilt(line + "\n" + rest, text)) == out + "\n" + Wire(format, json, Rebuilt(rest, text))
  {
    out := RebuildLine(format, json, line, text);
    NoNewline(line);
    LineByLine(format, json, line, rest, text);
  }

  // ---- Responses in which no tag is found ----

  lemma {:induction false} WireOfVerbatim(format: Format, json: Json, sent: seq<Sent>)
    requires forall w | w in sent :: w.Verbatim?
    ensures WireAll(format, json, sent) == Concat(Events(SentItems(sent)))
  {
    if sent != [] {
      var front, last := sent[..|sent| - 1], sent[|sent| - 1];
      WireOfVerbatim(format, json, front);
      assert last in sent;
      EventsSnoc(SentItems(front), last.item);
      ConcatSnoc(Events(SentItems(front)), last.item.event);
    }
  }

  /**
   If no tag is found, the bytes sent are those of the events in `WriteOrder`, with the bytes of an unfinished
   event before the pending text event, if there is one.
   */
  lemma {:induction false} UntaggedBytes(format: Format, json: Json, bytes: Bytes)
    requires AtEnd(format, json, bytes).0.phase.Searching?
    ensures var (items, rest) := (Items(format, json, false, Frame(bytes).events).0, Frame(bytes).rest);
            var order := Events(WriteOrder(items));
            && (TextPending(items) ==> order != [])
            && var n := if TextPending(items) then |order| - 1 else |order|;
               ClientBytes(format, json, bytes) == Concat(order[..n]) + (rest + Concat(order[n..]))
  {
    var items, s := Items(format, json, false, Frame(bytes).events).0, AtEnd(format, json, bytes).0;
    FrameIsAFraming(bytes);
    WritesInOrder(items);
    WritesComeFrom(format, json, Frame(bytes).events);
    FinishedWire(format, json, s, Frame(bytes).rest);
    WireOfVerbatim(format, json, s.sent);
    HeldComesLast(s, WriteOrder(items), Frame(bytes).rest);
  }

  /** The events sent, the leftover bytes and the held event, which is the last in the order. */
  lemma {:induction false} HeldComesLast(s: Strip, order: seq<Item>, rest: Bytes)
    requires order == SentItems(s.sent) + HeldItems(s)
    ensures s.held.Some? ==> order != []
    ensures var n := if s.held.Some? then |order| - 1 else |order|;
            Concat(Events(SentItems(s.sent))) + (rest + if s.held.Some? then s.held.value.event else "")
            == Concat(Events(order)[..n]) + (rest + Concat(Events(order)[n..]))
  {
    var sent := SentItems(s.sent);
    if s.held.Some? {
      var e := s.held.value.event;
      EventsSnoc(sent, s.held.value);
      assert (Events(sent) + [e])[..|sent|] == Events(sent) && (Events(sent) + [e])[|sent|..] == [] + [e];
      ConcatSnoc([], e);
    } else {
      assert sent + [] == sent;
      assert Events(sent)[..|sent|] == Events(sent) && Events(sent)[|sent|..] == [];
    }
  }

  lemma {:induction false} EventsOfItems(format: Format, json: Json, events: seq<Bytes>)
    ensures Events(Items(format, json, false, events).0) == events
  {
    if events != [] {
      var front, last := events[..|events| - 1], events[|events| - 1];
      EventsOfItems(format, json, front);
      var inThink := Items(format, json, false, front).1;
      EventsSnoc(Items(format, json, false, front).0, Classify(format, json, DataPayload(last), inThink, last).0);
    }
  }

  /** No text delta among the items ends like the beginning of a tag. */
  ghost predicate Unsuspicious(items: seq<Item>) {
    forall i | 0 <= i < |items| :: items[i].Delta? ==> !SuspiciousTail(items[i].text)
  }

  lemma {:induction false} NothingOvertakes(items: seq<Item>)
    requires Unsuspicious(items)
    ensures WriteOrder(items) == items && !TextPending(items)
  {
    if items != [] {
      var front, last := items[..|items| - 1], items[|items| - 1];
      assert front + [last] == items;
      forall i | 0 <= i < |front| ensures front[i].Delta? ==> !SuspiciousTail(front[i].text) {
        assert front[i] == items[i];
      }
      NothingOvertakes(front);
      PendingSnoc(front, last);
    }
  }

  /**
   A response without a tag, in which no delta ends like the beginning of one, is sent exactly as it was
   received, byte by byte, also when it is cut off or in a format that is not scanned.
   */
  lemma {:induction false} OrdinaryStreamsPass(format: Format, json: Json, bytes: Bytes)
    requires Unsuspicious(Items(format, json, false, Frame(bytes).events).0)
    requires !Contains(ReadText(format, json, bytes), OPEN_TAG)
    ensures ClientBytes(format, json, bytes) == bytes
  {
    var items, events := Items(format, json, false, Frame(bytes).events).0, Frame(bytes).events;
    RunTracks(items);
    HitIsFirstTag(Texts(items));
    NothingOvertakes(items);
    EventsOfItems(format, json, events);
    UntaggedBytes(format, json, bytes);
    FrameIsAFraming(bytes);
    assert events[..|events|] == events && events[|events|..] == [];
    assert Frame(bytes).rest + "" == Frame(bytes).rest;
  }
}
