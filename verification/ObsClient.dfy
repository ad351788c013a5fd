/**
 What a client reads from the bytes that the `<obs>` stripper writes to it: the bytes are framed and
 classified again, as the stripper does with the bytes it gets (proxy/internal/proxy/obs.go:86-461).
 */
module ObsClient {
  import opened Text
  import opened SseFraming
  import opened ObsStrip
  import opened ObsScan
  import opened ObsStreaming
  import opened ObsEvents
  import opened ObsWhole
  import opened ObsWire
  import opened ObsCapture

  // ---- What each write conveys ----

  function SentPayload(format: Format, json: Json, w: Sent): Option<Bytes> {
    match w
    case Verbatim(item) => DataPayload(item.event)
    case Rebuilt(event, text) => NewPayload(format, json, DataPayload(event), text)
    case _ => None
  }

  function SentPayloads(format: Format, json: Json, sent: seq<Sent>): seq<Bytes> {
    if sent == [] then []
    else SentPayloads(format, json, sent[..|sent| - 1]) + Optional(SentPayload(format, json, sent[|sent| - 1]))
  }

  ghost predicate IsWhole(w: Sent) {
    match w
    case Verbatim(item) => IsEvent(item.event)
    case Rebuilt(event, _) => IsEvent(event)
    case _ => false
  }

  /** The client finds exactly the payloads of the writes; at most an empty line is left over. */
  ghost predicate Conveys(format: Format, json: Json, sent: seq<Sent>) {
    var f := Frame(WireAll(format, json, sent));
    Payloads(f.events) == SentPayloads(format, json, sent) && Clean(f.rest)
  }

  function LeftOver(format: Format, json: Json, sent: seq<Sent>): Bytes {
    Frame(WireAll(format, json, sent)).rest
  }

  lemma {:induction false} WireSnoc(format: Format, json: Json, sent: seq<Sent>, w: Sent)
    ensures WireAll(format, json, sent + [w]) == WireAll(format, json, sent) + Wire(format, json, w)
    ensures SentPayloads(format, json, sent + [w]) == SentPayloads(format, json, sent) + Optional(SentPayload(format, json, w))
  {
    assert (sent + [w])[..|sent|] == sent;
  }

  /** One more write after what is left over. */
  lemma {:induction false} WriteAfter(format: Format, json: Json, rest: Bytes, w: Sent)
    requires Rewrites(format, json) && IsWhole(w) && Clean(rest)
    ensures var f := Frame(rest + Wire(format, json, w));
            && Payloads(f.events) == Optional(SentPayload(format, json, w)) && Clean(f.rest)
            && (rest == "" && w.Verbatim? ==> f.rest == "")
  {
    match w
    case Verbatim(item) => EventAfter(rest, item.event);
    case Rebuilt(event, text) =>
      var r := RebuiltIsEvent(format, json, event, text);
      EventAfter(rest, r);
      Assoc(rest, r, LINE_END);
      FrameAppend(rest + r, LINE_END);
      var before := Frame(rest + r);
      NewlineAfter(before.rest);
      PayloadsAppend(before.events, Frame(before.rest + LINE_END).events);
  }

  lemma {:induction false} NewlineAfter(rest: Bytes)
    requires Clean(rest)
    ensures var f := Frame(rest + LINE_END); Payloads(f.events) == [] && Clean(f.rest)
  {
    if rest == "" {
      NoPairIn(LINE_END);
      assert rest + LINE_END == LINE_END;
    } else {
      BlankEvent();
      OneEvent(EVENT_END);
      PayloadsOfOne(EVENT_END);
      assert rest + LINE_END == EVENT_END;
    }
  }

  lemma {:induction false} ConveysSnoc(format: Format, json: Json, sent: seq<Sent>, w: Sent)
    requires Rewrites(format, json) && IsWhole(w) && Conveys(format, json, sent)
    ensures Conveys(format, json, sent + [w])
    ensures LeftOver(format, json, sent) == "" && w.Verbatim? ==> LeftOver(format, json, sent + [w]) == ""
  {
    var bytes, more := WireAll(format, json, sent), Wire(format, json, w);
    WireSnoc(format, json, sent, w);
    WriteAfter(format, json, Frame(bytes).rest, w);
    FrameAppend(bytes, more);
    PayloadsAppend(Frame(bytes).events, Frame(Frame(bytes).rest + more).events);
  }

  // ---- The text the client hears ----

  /** From these writes the client hears the text they carry, and knows whether a thinking block is open. */
  ghost predicate Sends(format: Format, json: Json, sent: seq<Sent>, inThink: bool) {
    var heard := Hear(format, json, false, SentPayloads(format, json, sent));
    Conveys(format, json, sent) && Concat(heard.0) == WrittenText(sent) && heard.1 == inThink
  }

  /** A whole event whose text is read as `t` outside thinking blocks. */
  ghost predicate Carries(format: Format, json: Json, w: Sent, t: string) {
    && IsWhole(w) && SentText(w) == t
    && SentPayload(format, json, w).Some? && PayloadText(format, json, SentPayload(format, json, w).value) == Some(t)
  }

  lemma {:induction false} SendsText(format: Format, json: Json, sent: seq<Sent>, w: Sent, t: string)
    requires Rewrites(format, json) && Sends(format, json, sent, false) && Carries(format, json, w, t)
    ensures Sends(format, json, sent + [w], false)
    ensures LeftOver(format, json, sent) == "" && w.Verbatim? ==> LeftOver(format, json, sent + [w]) == ""
  {
    ConveysSnoc(format, json, sent, w);
    WireSnoc(format, json, sent, w);
    var payloads, p := SentPayloads(format, json, sent), SentPayload(format, json, w).value;
    HearSnoc(format, json, false, payloads, p);
    TextKeepsThinking(format, json, p);
    ConcatSnoc(Hear(format, json, false, payloads).0, t);
    WrittenTextSnoc(sent, w);
  }

  lemma {:induction false} TextKeepsThinking(format: Format, json: Json, p: Bytes)
    requires PayloadText(format, json, p).Some?
    ensures var next := Classify(format, json, Some(p), false, "");
            !next.1 && next.0 == Delta("", PayloadText(format, json, p).value)
  {
  }

  lemma {:induction false} SendsOther(format: Format, json: Json, sent: seq<Sent>, inThink: bool, e: Bytes)
    requires Rewrites(format, json) && Sends(format, json, sent, inThink) && IsEvent(e)
    requires Classify(format, json, DataPayload(e), inThink, e).0 == Other(e)
    ensures Sends(format, json, sent + [Verbatim(Other(e))], Classify(format, json, DataPayload(e), inThink, e).1)
    ensures LeftOver(format, json, sent) == "" ==> LeftOver(format, json, sent + [Verbatim(Other(e))]) == ""
  {
    var w := Verbatim(Other(e));
    ConveysSnoc(format, json, sent, w);
    WireSnoc(format, json, sent, w);
    var payloads := SentPayloads(format, json, sent);
    HearEvent(format, json, false, payloads, DataPayload(e), e);
    var texts := Hear(format, json, false, payloads).0;
    assert texts + [] == texts;
    WrittenTextSnoc(sent, w);
  }

  /** The held event is a whole event with the held text, and only events as received were written while searching. */
  ghost predicate HoldsWell(format: Format, json: Json, s: Strip) {
    && (s.held.Some? ==> s.held.value.Delta? && Carries(format, json, Verbatim(s.held.value), s.held.value.text))
    && (s.phase.Searching? ==> LeftOver(format, json, s.sent) == "")
  }

  lemma {:induction false} SendsReleased(format: Format, json: Json, s: Strip)
    requires Rewrites(format, json) && Sends(format, json, s.sent, false) && HoldsWell(format, json, s)
    ensures Sends(format, json, s.sent + Release(s), false)
    ensures s.phase.Searching? ==> LeftOver(format, json, s.sent + Release(s)) == ""
  {
    if s.held.Some? {
      SendsText(format, json, s.sent, Verbatim(s.held.value), s.held.value.text);
    } else {
      assert s.sent + [] == s.sent;
    }
  }

  lemma {:induction false} SendsRebuilt(format: Format, json: Json, sent: seq<Sent>, event: Bytes, was: string, text: string)
    requires Rewrites(format, json) && Sends(format, json, sent, false)
    requires Carries(format, json, Verbatim(Delta(event, was)), was)
    ensures Sends(format, json, sent + RebuiltUnlessEmpty(event, text), false)
  {
    if text != "" {
      SendsText(format, json, sent, Rebuilt(event, text), text);
    } else {
      assert sent + [] == sent;
    }
  }

  lemma {:induction false} SendsBeforeTag(format: Format, json: Json, s: Strip, event: Bytes, text: string, combined: string, idx: nat)
    requires Rewrites(format, json) && Sends(format, json, s.sent, false) && HoldsWell(format, json, s)
    requires Carries(format, json, Verbatim(Delta(event, text)), text)
    requires combined == HeldText(s) + text && idx <= |combined|
    ensures Sends(format, json, s.sent + SentBeforeTag(s.held, event, combined, idx), false)
  {
    match s.held
    case None => SendsRebuilt(format, json, s.sent, event, text, combined[..idx]);
    case Some(h) =>
      if idx <= |h.text| {
        SendsRebuilt(format, json, s.sent, h.event, h.text, combined[..idx]);
      } else {
        SendsText(format, json, s.sent, Verbatim(h), h.text);
        SendsRebuilt(format, json, s.sent + [Verbatim(h)], event, text, combined[|h.text|..idx]);
        Assoc(s.sent, [Verbatim(h)], RebuiltUnlessEmpty(event, combined[|h.text|..idx]));
      }
  }

  lemma {:induction false} DeltaIsHeard(format: Format, json: Json, s: Strip, event: Bytes, text: string)
    requires Rewrites(format, json) && Sends(format, json, s.sent, false) && HoldsWell(format, json, s)
    requires Carries(format, json, Verbatim(Delta(event, text)), text)
    ensures var r := StepDelta(s, event, text); Sends(format, json, r.sent, false) && HoldsWell(format, json, r)
  {
    if s.phase.Searching? {
      var combined := HeldText(s) + text;
      match Index(combined, OPEN_TAG)
      case None =>
        SendsReleased(format, json, s);
        if !SuspiciousTail(text) {
          SendsText(format, json, s.sent + Release(s), Verbatim(Delta(event, text)), text);
        }
      case Some(idx) =>
        SendsBeforeTag(format, json, s, event, text, combined, idx);
    }
  }

  /** The stripper and its client after the events. */
  ghost predicate Heard(format: Format, json: Json, s: Strip, inThink: bool) {
    && Sends(format, json, s.sent, inThink) && HoldsWell(format, json, s)
    && (format.Anthropic? || !inThink)
  }

  lemma {:induction false} EventIsHeard(format: Format, json: Json, s: Strip, inThink: bool, e: Bytes)
    requires Rewrites(format, json) && Heard(format, json, s, inThink) && HoldsDelta(s) && IsEvent(e)
    ensures var next := Classify(format, json, DataPayload(e), inThink, e);
            Heard(format, json, Step(s, next.0), next.1)
  {
    var next := Classify(format, json, DataPayload(e), inThink, e);
    match next.0
    case Other(_) => SendsOther(format, json, s.sent, inThink, e);
    case Delta(_, text) => DeltaIsHeard(format, json, s, e, text);
  }

  lemma {:induction false} StepIsHeard(format: Format, json: Json, s: Strip, inThink: bool, e: Bytes, next: (Strip, bool))
    requires Rewrites(format, json) && Heard(format, json, s, inThink) && HoldsDelta(s) && IsEvent(e)
    requires var c := Classify(format, json, DataPayload(e), inThink, e); next == (Step(s, c.0), c.1)
    ensures Heard(format, json, next.0, next.1)
  {
    EventIsHeard(format, json, s, inThink, e);
  }

  lemma {:induction false} NothingHeard(format: Format, json: Json)
    ensures Heard(format, json, START, false)
  {
    NoPairIn("");
    assert Frame("") == Framed([], "");
  }

  /** The stripper after the events, and whether a thinking block is open. */
  function After(format: Format, json: Json, events: seq<Bytes>): (Strip, bool) {
    var items := Items(format, json, false, events);
    (Run(items.0), items.1)
  }

  lemma {:induction false} AfterLast(format: Format, json: Json, events: seq<Bytes>, front: seq<Bytes>, last: Bytes)
    requires events == front + [last]
    ensures var (s, inThink) := After(format, json, front);
            var c := Classify(format, json, DataPayload(last), inThink, last);
            After(format, json, events) == (Step(s, c.0), c.1)
  {
    RunSnoc(format, json, front, last);
  }

  /** After every sequence of events the client has heard exactly the text written. */
  lemma {:induction false} EventsAreHeard(format: Format, json: Json, events: seq<Bytes>)
    requires Rewrites(format, json) && forall e :: e in events ==> IsEvent(e)
    ensures var (s, inThink) := After(format, json, events); Heard(format, json, s, inThink)
  {
    if events == [] {
      NothingHeard(format, json);
    } else {
      var front, last := events[..|events| - 1], events[|events| - 1];
      EventsAreHeard(format, json, front);
      AfterLast(format, json, events, front, last);
      var (s, inThink) := After(format, json, front);
      StepIsHeard(format, json, s, inThink, last, After(format, json, events));
    }
  }

  // ---- Where the writes come from ----

  /**
   Every write is one of the events, or one of them rebuilt with a beginning of its own text; while searching
   none is rebuilt.
   */
  ghost predicate ComesFrom(format: Format, json: Json, s: Strip, events: seq<Bytes>) {
    && (forall w | w in s.sent :: WriteFrom(format, json, w, events) && (s.phase.Searching? ==> w.Verbatim?))
    && (s.held.Some? ==> HeldFrom(format, json, s.held.value, events))
  }

  ghost predicate HeldFrom(format: Format, json: Json, item: Item, events: seq<Bytes>) {
    item.event in events && Carries(format, json, Verbatim(item), SentText(Verbatim(item)))
  }

  ghost predicate WriteFrom(format: Format, json: Json, w: Sent, events: seq<Bytes>) {
    match w
    case Verbatim(item) => item.event in events
    case Rebuilt(event, text) => text != "" && exists t :: BeginsWith(format, json, event, t, text, events)
    case _ => false
  }

  /** The event has text `t`, which begins with `text`. */
  ghost predicate BeginsWith(format: Format, json: Json, event: Bytes, t: string, text: string, events: seq<Bytes>) {
    text <= t && HeldFrom(format, json, Delta(event, t), events)
  }

  lemma {:induction false} FromMore(format: Format, json: Json, w: Sent, events: seq<Bytes>, e: Bytes)
    requires WriteFrom(format, json, w, events)
    ensures WriteFrom(format, json, w, events + [e])
  {
    if w.Rebuilt? {
      var t :| BeginsWith(format, json, w.event, t, w.text, events);
      assert BeginsWith(format, json, w.event, t, w.text, events + [e]);
    }
  }

  lemma {:induction false} BeforeTagFrom(format: Format, json: Json, s: Strip, event: Bytes, text: string, events: seq<Bytes>, idx: nat)
    requires HoldsDelta(s) && HeldFrom(format, json, Delta(event, text), events) && idx <= |HeldText(s) + text|
    requires s.held.Some? ==> HeldFrom(format, json, s.held.value, events)
    ensures forall w | w in SentBeforeTag(s.held, event, HeldText(s) + text, idx) :: WriteFrom(format, json, w, events)
  {
    var combined := HeldText(s) + text;
    if s.held.Some? && idx <= |HeldText(s)| {
      assert BeginsWith(format, json, s.held.value.event, HeldText(s), combined[..idx], events);
    } else {
      assert combined[|HeldText(s)|..idx] == text[..idx - |HeldText(s)|];
      assert BeginsWith(format, json, event, text, combined[|HeldText(s)|..idx], events);
      assert s.held.None? ==> combined[..idx] == combined[|HeldText(s)|..idx];
    }
  }

  lemma {:induction false} DeltaComesFrom(format: Format, json: Json, s: Strip, event: Bytes, text: string, events: seq<Bytes>)
    requires HoldsDelta(s) && ComesFrom(format, json, s, events) && HeldFrom(format, json, Delta(event, text), events)
    ensures ComesFrom(format, json, StepDelta(s, event, text), events)
  {
    if s.phase.Searching? && Index(HeldText(s) + text, OPEN_TAG).Some? {
      BeforeTagFrom(format, json, s, event, text, events, Index(HeldText(s) + text, OPEN_TAG).value);
    }
  }

  lemma {:induction false} ComesFromMore(format: Format, json: Json, s: Strip, events: seq<Bytes>, e: Bytes)
    requires ComesFrom(format, json, s, events)
    ensures ComesFrom(format, json, s, events + [e])
  {
    forall w | w in s.sent ensures WriteFrom(format, json, w, events + [e]) {
      FromMore(format, json, w, events, e);
    }
  }

  lemma {:induction false} OtherComesFrom(format: Format, json: Json, s: Strip, e: Bytes, events: seq<Bytes>)
    requires HoldsDelta(s) && ComesFrom(format, json, s, events) && e in events
    ensures ComesFrom(format, json, Step(s, Other(e)), events)
  {
  }

  lemma {:induction false} EventComesFrom(format: Format, json: Json, s: Strip, inThink: bool, e: Bytes, events: seq<Bytes>)
    requires HoldsDelta(s) && ComesFrom(format, json, s, events) && IsEvent(e)
    ensures ComesFrom(format, json, Step(s, Classify(format, json, DataPayload(e), inThink, e).0), events + [e])
  {
    ComesFromMore(format, json, s, events, e);
    match Classify(format, json, DataPayload(e), inThink, e).0
    case Other(event) => OtherComesFrom(format, json, s, event, events + [e]);
    case Delta(_, text) => DeltaComesFrom(format, json, s, e, text, events + [e]);
  }

  lemma {:induction false} WritesComeFrom(format: Format, json: Json, events: seq<Bytes>)
    requires forall e :: e in events ==> IsEvent(e)
    ensures ComesFrom(format, json, After(format, json, events).0, events)
  {
    if events != [] {
      var front, last := events[..|events| - 1], events[|events| - 1];
      WritesComeFrom(format, json, front);
      AfterLast(format, json, events, front, last);
      var (s, inThink) := After(format, json, front);
      StepComesFrom(format, json, s, inThink, last, front, After(format, json, events).0, events);
    } else {
      NothingComesFrom(format, json);
    }
  }

  lemma {:induction false} NothingComesFrom(format: Format, json: Json)
    ensures ComesFrom(format, json, START, [])
  {
  }

  lemma {:induction false} StepComesFrom(format: Format, json: Json, s: Strip, inThink: bool, e: Bytes, events: seq<Bytes>,
                                          next: Strip, more: seq<Bytes>)
    requires HoldsDelta(s) && ComesFrom(format, json, s, events) && IsEvent(e) && more == events + [e]
    requires next == Step(s, Classify(format, json, DataPayload(e), inThink, e).0)
    ensures ComesFrom(format, json, next, more)
  {
    EventComesFrom(format, json, s, inThink, e, events);
  }
}
