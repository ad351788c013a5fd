/**
 The bytes behind the writes of the `<obs>` stripper, and the payloads a client finds in them
 (proxy/internal/proxy/obs.go:86-125, 280-333, 446-461).
 */
module ObsWire {
  import opened Text
  import opened SseFraming
  import opened ObsStrip
  import opened ObsScan
  import opened ObsEvents

  const LINE_END := "\n"

  // ---- Rebuilding an event ----

  /** The scanned text of a payload outside thinking blocks, if it has any. */
  function PayloadText(format: Format, json: Json, payload: Bytes): Option<string> {
    var item := Classify(format, json, Some(payload), false, "").0;
    if item.Delta? then Some(item.text) else None
  }

  function RebuildLine(format: Format, json: Json, line: Bytes, text: string): Bytes {
    if DATA_PREFIX <= line then
      match json.setText(format, line[|DATA_PREFIX|..], text)
      case Some(payload) => DATA_PREFIX + payload
      case None => line
    else line
  }

  /** Every data line gets the new text, and every line, also the empty last one, ends with a newline. */
  function Rebuild(format: Format, json: Json, event: Bytes, text: string): Bytes {
    match Index(event, LINE_END)
    case None => RebuildLine(format, json, event, text) + LINE_END
    case Some(i) => RebuildLine(format, json, event[..i], text) + LINE_END + Rebuild(format, json, event[i + 1..], text)
  }

  /** `rebuildSSEDataField`, line by line. */
  method RebuildSSEDataField(format: Format, json: Json, event: Bytes, text: string) returns (result: Bytes)
    ensures result == Rebuild(format, json, event, text)
  {
    var remaining := event;
    result := "";
    while true
      invariant Rebuild(format, json, event, text) == result + Rebuild(format, json, remaining, text)
      decreases |remaining|
    {
      var end := Index(remaining, LINE_END);
      var line := if end.Some? then remaining[..end.value] else remaining;
      var rebuilt := RebuildLine(format, json, line, text);
      if end.None? {
        return result + (rebuilt + LINE_END);
      }
      Assoc(result, rebuilt + LINE_END, Rebuild(format, json, remaining[end.value + 1..], text));
      result := result + (rebuilt + LINE_END);
      remaining := remaining[end.value + 1..];
    }
  }

  /** Replacing the text of a payload gives one line, and that text is read back from it. */
  ghost predicate Rewrites(format: Format, json: Json) {
    && (forall p, t :: json.setText(format, p, t).Some? ==> !Contains(json.setText(format, p, t).value, LINE_END))
    && (forall p, t :: t != "" && PayloadText(format, json, p).Some? ==>
          json.setText(format, p, t).Some? && PayloadText(format, json, json.setText(format, p, t).value) == Some(t))
  }

  lemma {:induction false} RebuiltLine(format: Format, json: Json, line: Bytes, text: string)
    requires Rewrites(format, json) && !Contains(line, LINE_END)
    ensures var r := RebuildLine(format, json, line, text);
            !Contains(r, LINE_END) && (r == "" <==> line == "") && (DATA_PREFIX <= r <==> DATA_PREFIX <= line)
  {
    if DATA_PREFIX <= line {
      var payload := json.setText(format, line[|DATA_PREFIX|..], text);
      if payload.Some? && Contains(DATA_PREFIX + payload.value, LINE_END) {
        var i := Index(DATA_PREFIX + payload.value, LINE_END).value;
        assert (DATA_PREFIX + payload.value)[i..i + 1] == LINE_END;
        assert (DATA_PREFIX + payload.value)[i] == '\n';
        assert i >= |DATA_PREFIX|;
        OccursInSuffix(DATA_PREFIX, payload.value, LINE_END, i - |DATA_PREFIX|);
        IndexIsFirst(payload.value, LINE_END, i - |DATA_PREFIX|);
      }
    }
  }

  // ---- Newlines, character by character ----

  predicate PairAt(s: Bytes, k: nat) {
    k + 1 < |s| && s[k] == '\n' && s[k + 1] == '\n'
  }

  lemma {:induction false} EventEndAt(s: Bytes, k: nat)
    ensures OccursAt(s, EVENT_END, k) <==> PairAt(s, k)
  {
    if k + 2 <= |s| {
      assert s[k..k + 2] == [s[k], s[k + 1]];
    }
  }

  lemma {:induction false} NoNewline(line: Bytes)
    ensures !Contains(line, LINE_END) <==> '\n' !in line
  {
    if Contains(line, LINE_END) {
      var k := Index(line, LINE_END).value;
      assert line[k] == line[k..k + 1][0];
    }
    if '\n' in line {
      var k :| 0 <= k < |line| && line[k] == '\n';
      assert line[k..k + 1] == LINE_END;
      IndexIsFirst(line, LINE_END, k);
    }
  }

  /** An event: its only two newlines in a row are the last two characters. */
  ghost predicate EndsAtPair(e: Bytes) {
    |e| >= 2 && PairAt(e, |e| - 2) && forall k: nat | k < |e| - 2 :: !PairAt(e, k)
  }

  lemma {:induction false} EventEndsAtPair(e: Bytes)
    ensures IsEvent(e) <==> EndsAtPair(e)
  {
    if |e| >= 2 {
      EventEndAt(e, |e| - 2);
      if IsEvent(e) {
        forall k: nat | k < |e| - 2 ensures !PairAt(e, k) {
          EventEndAt(e, k);
          if PairAt(e, k) {
            IndexIsFirst(e, EVENT_END, k);
          }
        }
      } else if EndsAtPair(e) {
        IndexIsFirst(e, EVENT_END, |e| - 2);
        EventEndAt(e, Index(e, EVENT_END).value);
      }
    }
  }

  /** A line in front of an event that does not start with an empty line. */
  lemma {:induction false} LineInFront(line: Bytes, e: Bytes)
    requires !Contains(line, LINE_END) && IsEvent(e) && e[0] != '\n'
    ensures IsEvent(line + LINE_END + e)
  {
    NoNewline(line);
    EventEndsAtPair(e);
    EventEndsAtPair(line + LINE_END + e);
    forall k: nat | k < |line| + |e| - 1 ensures !PairAt(line + LINE_END + e, k) {
      PairInFront(line, e, k);
    }
  }

  lemma {:induction false} PairInFront(line: Bytes, e: Bytes, k: nat)
    requires '\n' !in line && e != "" && e[0] != '\n'
    ensures PairAt(line + LINE_END + e, k) <==> k > |line| && PairAt(e, k - |line| - 1)
  {
    var all := line + LINE_END + e;
    if k < |line| {
      assert all[k] == line[k] && line[k] in line;
    }
  }

  /** The first line of an event; the rest is the closing empty line or an event without a leading one. */
  lemma {:induction false} FirstLine(e: Bytes) returns (line: Bytes, rest: Bytes)
    requires IsEvent(e)
    ensures e == line + LINE_END + rest && !Contains(line, LINE_END)
    ensures rest == LINE_END || (IsEvent(rest) && rest[0] != '\n')
  {
    EventEndsAtPair(e);
    var i := NewlineIn(e, |e| - 2);
    line, rest := e[..i], e[i + 1..];
    NoNewline(line);
    if i < |e| - 2 {
      EventEndsAtPair(rest);
      forall k: nat | k < |rest| - 1 ensures PairAt(rest, k) <==> k == |rest| - 2 {
        PairInRest(e, i + 1, k);
      }
      assert !PairAt(e, i);
    }
  }

  lemma {:induction false} PairInRest(e: Bytes, from: nat, k: nat)
    requires from <= |e|
    ensures PairAt(e[from..], k) <==> PairAt(e, from + k)
  {
  }

  /** The first newline of a text that has one at `n`. */
  lemma {:induction false} NewlineIn(s: Bytes, n: nat) returns (i: nat)
    requires n < |s| && s[n] == '\n'
    ensures i <= n && s[i] == '\n' && '\n' !in s[..i]
    decreases n
  {
    i := n;
    if '\n' in s[..n] {
      var k :| 0 <= k < n && s[k] == '\n';
      i := NewlineIn(s, k);
    }
  }

  /** Both functions look at the first line and go on with the rest. */
  lemma {:induction false} LineByLine(format: Format, json: Json, line: Bytes, rest: Bytes, text: string)
    requires !Contains(line, LINE_END)
    ensures var e := line + LINE_END + rest;
            && Rebuild(format, json, e, text) == RebuildLine(format, json, line, text) + LINE_END + Rebuild(format, json, rest, text)
            && DataPayload(e) == if DATA_PREFIX <= line then Some(line[|DATA_PREFIX|..]) else DataPayload(rest)
  {
    var e := line + LINE_END + rest;
    IndexOfInserted(line, LINE_END, rest);
    assert e[..|line|] == line && e[|line| + 1..] == rest;
  }

  lemma {:induction false} Blanks(format: Format, json: Json, text: string)
    ensures Rebuild(format, json, LINE_END, text) == LINE_END + LINE_END
    ensures DataPayload(LINE_END).None? && DataPayload(EVENT_END).None?
  {
    assert Index("", LINE_END).None?;
    LineByLine(format, json, "", "", text);
    LineByLine(format, json, "", LINE_END, text);
    assert LINE_END == "" + LINE_END + "" && EVENT_END == "" + LINE_END + LINE_END;
    assert Rebuild(format, json, "", text) == "" + LINE_END;
    assert "" + LINE_END + LINE_END == LINE_END + LINE_END && "" + LINE_END == LINE_END;
  }

  /** An event of one line. */
  lemma {:induction false} OneLine(line: Bytes)
    requires !Contains(line, LINE_END)
    ensures IsEvent(line + LINE_END + LINE_END)
  {
    var e := line + LINE_END + LINE_END;
    NoNewline(line);
    EventEndsAtPair(e);
    assert forall k | 0 <= k < |line| :: e[k] == line[k] && line[k] in line;
  }

  /** What rebuilding makes of the payload that is read from an event. */
  function NewPayload(format: Format, json: Json, payload: Option<Bytes>, text: string): Option<Bytes> {
    if payload.Some? && json.setText(format, payload.value, text).Some? then json.setText(format, payload.value, text)
    else payload
  }

  lemma {:induction false} PayloadOfLine(format: Format, json: Json, line: Bytes, text: string)
    requires DATA_PREFIX <= line
    ensures var r := RebuildLine(format, json, line, text);
            DATA_PREFIX <= r && Some(r[|DATA_PREFIX|..]) == NewPayload(format, json, Some(line[|DATA_PREFIX|..]), text)
  {
  }

  /**
   A rebuilt event is an event with the new text in the place of the old, and one more newline: the
   blank line that ends it is followed by an empty line.
   */
  lemma {:induction false} RebuiltIsEvent(format: Format, json: Json, e: Bytes, text: string) returns (r: Bytes)
    requires Rewrites(format, json) && IsEvent(e)
    ensures Rebuild(format, json, e, text) == r + LINE_END && IsEvent(r)
    ensures r[0] == '\n' <==> e[0] == '\n'
    ensures DataPayload(r) == NewPayload(format, json, DataPayload(e), text)
    decreases |e|
  {
    var line, rest := FirstLine(e);
    assert e == line + LINE_END + rest;
    var front := RebuildLine(format, json, line, text);
    RebuiltLine(format, json, line, text);
    var tail := LINE_END;
    Blanks(format, json, text);
    if rest == LINE_END {
      OneLine(front);
    } else {
      tail := RebuiltIsEvent(format, json, rest, text);
      LineInFront(front, tail);
    }
    r := front + LINE_END + tail;
    Assoc(front + LINE_END, tail, LINE_END);
    PutTogether(format, json, line, rest, front, tail, text);
  }

  lemma {:induction false} PutTogether(format: Format, json: Json, line: Bytes, rest: Bytes, front: Bytes, tail: Bytes, text: string)
    requires !Contains(line, LINE_END) && !Contains(front, LINE_END) && front == RebuildLine(format, json, line, text)
    requires DATA_PREFIX <= front <==> DATA_PREFIX <= line
    requires DataPayload(tail) == NewPayload(format, json, DataPayload(rest), text)
    ensures Rebuild(format, json, line + LINE_END + rest, text) == front + LINE_END + Rebuild(format, json, rest, text)
    ensures DataPayload(front + LINE_END + tail) == NewPayload(format, json, DataPayload(line + LINE_END + rest), text)
  {
    LineByLine(format, json, line, rest, text);
    LineByLine(format, json, front, tail, text);
    if DATA_PREFIX <= line {
      PayloadOfLine(format, json, line, text);
    }
  }

  // ---- The bytes written ----

  function Wire(format: Format, json: Json, w: Sent): Bytes {
    match w
    case Verbatim(item) => item.event
    case Rebuilt(event, text) => Rebuild(format, json, event, text)
    case Trailing(bytes) => bytes
    case Body(bytes, _) => bytes    // not part of a stream
  }

  function WireAll(format: Format, json: Json, sent: seq<Sent>): Bytes {
    if sent == [] then ""
    else WireAll(format, json, sent[..|sent| - 1]) + Wire(format, json, sent[|sent| - 1])
  }

  // ---- The payloads in a stream ----

  function Optional(payload: Option<Bytes>): seq<Bytes> {
    if payload.Some? then [payload.value] else []
  }

  /** The payloads of the events that have one. */
  function Payloads(events: seq<Bytes>): seq<Bytes> {
    if events == [] then []
    else Payloads(events[..|events| - 1]) + Optional(DataPayload(events[|events| - 1]))
  }

  lemma {:induction false} PayloadsSnoc(events: seq<Bytes>, e: Bytes)
    ensures Payloads(events + [e]) == Payloads(events) + Optional(DataPayload(e))
  {
    assert (events + [e])[..|events|] == events;
  }

  lemma {:induction false} PayloadsAppend(a: seq<Bytes>, b: seq<Bytes>)
    ensures Payloads(a + b) == Payloads(a) + Payloads(b)
    decreases |b|
  {
    if b == [] {
      assert a + b == a;
    } else {
      var front, last := b[..|b| - 1], b[|b| - 1];
      PayloadsAppend(a, front);
      assert (a + b)[..|a + b| - 1] == a + front;
      Assoc(Payloads(a), Payloads(front), Optional(DataPayload(last)));
    }
  }

  /** The texts in a sequence of payloads, and whether a thinking block is open after them. */
  function Hear(format: Format, json: Json, inThink: bool, payloads: seq<Bytes>): (seq<string>, bool) {
    if payloads == [] then ([], inThink)
    else
      var front, last := Hear(format, json, inThink, payloads[..|payloads| - 1]), payloads[|payloads| - 1];
      var next := Classify(format, json, Some(last), front.1, "");
      (front.0 + (if next.0.Delta? then [next.0.text] else []), next.1)
  }

  lemma {:induction false} HearSnoc(format: Format, json: Json, inThink: bool, payloads: seq<Bytes>, p: Bytes)
    ensures var front := Hear(format, json, inThink, payloads);
            var next := Classify(format, json, Some(p), front.1, "");
            Hear(format, json, inThink, payloads + [p])
            == (front.0 + (if next.0.Delta? then [next.0.text] else []), next.1)
  {
    assert (payloads + [p])[..|payloads|] == payloads;
  }

  lemma {:induction false} HearAppend(format: Format, json: Json, inThink: bool, a: seq<Bytes>, b: seq<Bytes>)
    ensures var first := Hear(format, json, inThink, a);
            var second := Hear(format, json, first.1, b);
            Hear(format, json, inThink, a + b) == (first.0 + second.0, second.1)
    decreases |b|
  {
    var first := Hear(format, json, inThink, a);
    if b == [] {
      assert a + b == a && first.0 + [] == first.0;
    } else {
      var front, last := b[..|b| - 1], b[|b| - 1];
      HearAppend(format, json, inThink, a, front);
      assert a + b == (a + front) + [last] && b == front + [last];
      HearSnoc(format, json, inThink, a + front, last);
      HearSnoc(format, json, first.1, front, last);
      var second := Hear(format, json, first.1, front);
      var next := Classify(format, json, Some(last), second.1, "").0;
      Assoc(first.0, second.0, if next.Delta? then [next.text] else []);
    }
  }

  /** One more event, with or without a payload. */
  lemma {:induction false} HearEvent(format: Format, json: Json, inThink: bool, payloads: seq<Bytes>, payload: Option<Bytes>, event: Bytes)
    ensures var front := Hear(format, json, inThink, payloads);
            var next := Classify(format, json, payload, front.1, event);
            Hear(format, json, inThink, payloads + Optional(payload))
            == (front.0 + (if next.0.Delta? then [next.0.text] else []), next.1)
  {
    if payload.Some? {
      HearSnoc(format, json, inThink, payloads, payload.value);
    } else {
      var texts := Hear(format, json, inThink, payloads).0;
      assert payloads + [] == payloads && texts + [] == texts;
    }
  }

  /** Only the payloads of the events matter for the text. */
  lemma {:induction false} HearsItems(format: Format, json: Json, inThink: bool, events: seq<Bytes>)
    ensures var items := Items(format, json, inThink, events);
            Hear(format, json, inThink, Payloads(events)) == (Texts(items.0), items.1)
  {
    if events != [] {
      var front, last := events[..|events| - 1], events[|events| - 1];
      HearsItems(format, json, inThink, front);
      var items := Items(format, json, inThink, front);
      HearEvent(format, json, inThink, Payloads(front), DataPayload(last), last);
      TextsSnoc(items.0, Classify(format, json, DataPayload(last), items.1, last).0);
    }
  }

  // ---- Framing what is written ----

  /** Nothing is left over after an event, or the empty line after a rebuilt one. */
  predicate Clean(rest: Bytes) {
    rest == "" || rest == LINE_END
  }

  /** An event after what is left over gives its payload, and nothing else. */
  lemma {:induction false} EventAfter(rest: Bytes, e: Bytes)
    requires Clean(rest) && IsEvent(e)
    ensures var f := Frame(rest + e);
            && Payloads(f.events) == Optional(DataPayload(e))
            && (rest == "" ==> f == Framed([e], "")) && Clean(f.rest)
  {
    PayloadsOfOne(e);
    if rest == "" {
      assert rest + e == e;
      OneEvent(e);
    } else if e[0] != '\n' {
      EmptyLineInFront(e);
    } else {
      EmptyEventInFront(e);
    }
  }

  lemma {:induction false} OneEvent(e: Bytes)
    requires IsEvent(e)
    ensures Frame(e) == Framed([e], "")
  {
    FrameCons(e, "");
    assert e + "" == e && [e] + [] == [e];
    assert Index("", EVENT_END).None?;
  }

  lemma {:induction false} EmptyLineInFront(e: Bytes)
    requires IsEvent(e) && e[0] != '\n'
    ensures Frame(LINE_END + e) == Framed([LINE_END + e], "")
    ensures Payloads([LINE_END + e]) == Optional(DataPayload(e))
  {
    NoNewline("");
    LineInFront("", e);
    assert "" + LINE_END + e == LINE_END + e;
    PayloadBehindBlank(e);
    OneEvent(LINE_END + e);
    PayloadsOfOne(LINE_END + e);
  }

  lemma {:induction false} PayloadBehindBlank(e: Bytes)
    ensures DataPayload(LINE_END + e) == DataPayload(e)
  {
    var all := LINE_END + e;
    assert OccursAt(all, LINE_END, 0);
    IndexIsFirst(all, LINE_END, 0);
    assert all[..0] == "" && all[1..] == e;
  }

  lemma {:induction false} PayloadsOfOne(e: Bytes)
    ensures Payloads([e]) == Optional(DataPayload(e))
  {
    PayloadsSnoc([], e);
    assert [] + [e] == [e] && Payloads([]) == [];
  }

  /** The empty line and the first one of the event make an event without a payload. */
  lemma {:induction false} EmptyEventInFront(e: Bytes)
    requires IsEvent(e) && e[0] == '\n'
    ensures var f := Frame(LINE_END + e); Payloads(f.events) == Optional(DataPayload(e)) && Clean(f.rest)
  {
    var tail := e[1..];
    assert LINE_END + e == EVENT_END + tail && e == LINE_END + tail;
    PayloadBehindBlank(tail);
    BlankEvent();
    FrameCons(EVENT_END, tail);
    PayloadsAppend([EVENT_END], Frame(tail).events);
    PayloadsOfOne(EVENT_END);
    if tail == LINE_END {
      NoPairIn(LINE_END);
      PayloadBehindBlank("");
    } else {
      TailIsEvent(e);
      OneEvent(tail);
      PayloadsOfOne(tail);
    }
  }

  lemma {:induction false} TailIsEvent(e: Bytes)
    requires IsEvent(e) && |e| > 2
    ensures IsEvent(e[1..])
  {
    EventEndsAtPair(e);
    EventEndsAtPair(e[1..]);
    forall k: nat | k < |e| - 2 ensures PairAt(e[1..], k) <==> k == |e| - 3 {
      PairInRest(e, 1, k);
    }
  }

  lemma {:induction false} BlankEvent()
    ensures IsEvent(EVENT_END) && DataPayload(EVENT_END).None?
  {
    EventEndsAtPair(EVENT_END);
    PayloadBehindBlank(LINE_END);
    PayloadBehindBlank("");
    assert EVENT_END == LINE_END + LINE_END && LINE_END == LINE_END + "";
    assert Index("", LINE_END).None?;
  }

  lemma {:induction false} NoPairIn(s: Bytes)
    requires forall k: nat :: !PairAt(s, k)
    ensures !Contains(s, EVENT_END)
  {
    if Contains(s, EVENT_END) {
      EventEndAt(s, Index(s, EVENT_END).value);
    }
  }

  // ---- Leftover bytes in front of an event ----

  predicate EndsLine(s: Bytes) {
    s == "" || s[|s| - 1] == '\n'
  }

  lemma {:induction false} PairAcross(a: Bytes, b: Bytes, k: nat)
    ensures PairAt(a + b, k) <==>
              || PairAt(a, k) || (k >= |a| && PairAt(b, k - |a|))
              || (k + 1 == |a| && b != "" && a[k] == '\n' && b[0] == '\n')
  {
  }

  lemma {:induction false} NoPairs(s: Bytes, k: nat)
    requires !Contains(s, EVENT_END)
    ensures !PairAt(s, k)
  {
    EventEndAt(s, k);
    if PairAt(s, k) {
      IndexIsFirst(s, EVENT_END, k);
    }
  }

  /** Whole lines in front: the first data line decides. */
  lemma {:induction false} PayloadOfLines(lines: Bytes, x: Bytes)
    requires EndsLine(lines)
    ensures DataPayload(lines + x) == if DataPayload(lines).Some? then DataPayload(lines) else DataPayload(x)
    decreases |lines|
  {
    if lines == "" {
      assert lines + x == x;
      assert Index("", LINE_END).None?;
    } else {
      var i := NewlineIn(lines, |lines| - 1);
      var line, rest := lines[..i], lines[i + 1..];
      NoNewline(line);
      FirstNewline(line, rest);
      FirstNewline(line, rest + x);
      assert lines == line + LINE_END + rest && lines + x == line + LINE_END + (rest + x);
      PayloadOfLines(rest, x);
    }
  }

  lemma {:induction false} FirstNewline(line: Bytes, rest: Bytes)
    requires !Contains(line, LINE_END)
    ensures var all := line + LINE_END + rest;
            Index(all, LINE_END) == Some(|line|) && all[..|line|] == line && all[|line| + 1..] == rest
  {
    OneLine(line);
    IndexOfInserted(line, LINE_END, rest);
  }

  /** Leftover bytes and the event are one event, unless an empty line comes between them. */
  lemma {:induction false} RunsTogether(rest: Bytes, e: Bytes)
    requires !Contains(rest, EVENT_END) && IsEvent(e)
    requires rest == "" || rest[|rest| - 1] != '\n' || e[0] != '\n'
    ensures Frame(rest + e) == Framed([rest + e], "")
  {
    var all := rest + e;
    EventEndsAtPair(e);
    forall k: nat ensures PairAt(all, k) <==> k == |all| - 2 {
      PairAcross(rest, e, k);
      NoPairs(rest, k);
    }
    EventEndsAtPair(all);
    OneEvent(all);
  }

  lemma {:induction false} FallsApart(rest: Bytes, e: Bytes)
    requires !Contains(rest, EVENT_END) && IsEvent(e) && |e| > 2
    requires rest != "" && rest[|rest| - 1] == '\n' && e[0] == '\n'
    ensures Frame(rest + e) == Framed([rest + LINE_END] + [e[1..]], "")
  {
    var first := rest + LINE_END;
    forall k: nat ensures PairAt(first, k) <==> k == |first| - 2 {
      PairAcross(rest, LINE_END, k);
      NoPairs(rest, k);
    }
    EventEndsAtPair(first);
    TailIsEvent(e);
    assert rest + e == first + e[1..];
    FrameCons(first, e[1..]);
    OneEvent(e[1..]);
  }

  /** The payloads of leftover bytes, whole lines and a part of one, with a text event behind them. */
  function TailRead(lines: Bytes, part: Bytes, e: Bytes): seq<Bytes> {
    if part == "" && lines != "" && e != "" && e[0] == '\n' then Optional(DataPayload(lines)) + Optional(DataPayload(e))
    else Optional(if DataPayload(lines).Some? then DataPayload(lines) else DataPayload(part + e))
  }

  /**
   The first data line of the leftover, if it has one, hides the event, and otherwise the part is fused with
   the event's first line. Only if an empty line comes between them, both payloads are read.
   */
  lemma {:induction false} TailPayloads(lines: Bytes, part: Bytes, e: Bytes)
    requires EndsLine(lines) && '\n' !in part && !Contains(lines + part, EVENT_END)
    requires IsEvent(e) && DataPayload(e).Some?
    ensures Payloads(Frame(lines + part + e).events) == TailRead(lines, part, e)
  {
    var rest := lines + part;
    if part == "" && lines != "" && e[0] == '\n' {
      assert rest == lines;
      PayloadBehindBlank(e[1..]);
      assert LINE_END + e[1..] == e;
      PayloadBehindBlank("");
      assert LINE_END + "" == LINE_END && Index("", LINE_END).None?;
      PayloadOfLines(lines, LINE_END);
      FallsApart(lines, e);
      PayloadsSnoc([lines + LINE_END], e[1..]);
      PayloadsOfOne(lines + LINE_END);
    } else {
      assert part != "" ==> rest[|rest| - 1] == part[|part| - 1];
      assert part == "" ==> rest == lines;
      RunsTogether(rest, e);
      PayloadsOfOne(rest + e);
      Assoc(lines, part, e);
      PayloadOfLines(lines, part + e);
    }
  }
}
