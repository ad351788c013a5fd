/**
 Re-framing of an arbitrarily chunked byte stream into events ended by a blank line
 (`drainSSE`, proxy/internal/proxy/obs.go:99-111).
 */
module SseFraming {
  import opened Text

  const EVENT_END := "\n\n"

  /** The complete events at the front of a byte stream, and the bytes of the unfinished one. */
  datatype Framed = Framed(events: seq<Bytes>, rest: Bytes)

  function Frame(bytes: Bytes): Framed {
    match Index(bytes, EVENT_END)
    case None => Framed([], bytes)
    case Some(i) =>
      var tail := Frame(bytes[i + 2..]);
      Framed([bytes[..i + 2]] + tail.events, tail.rest)
  }

  /** One event: it ends with a blank line and has none before that. */
  ghost predicate IsEvent(e: Bytes) {
    |e| >= 2 && Index(e, EVENT_END) == Some(|e| - 2)
  }

  /** What a framing of `bytes` is, said without an algorithm. */
  ghost predicate IsFraming(bytes: Bytes, f: Framed) {
    && Concat(f.events) + f.rest == bytes
    && (forall e :: e in f.events ==> IsEvent(e))
    && !Contains(f.rest, EVENT_END)
  }

  /** `Frame` computes the one and only framing. */
  lemma {:induction false} FrameIsTheFraming(bytes: Bytes, f: Framed)
    ensures IsFraming(bytes, f) <==> f == Frame(bytes)
  {
    FrameIsAFraming(bytes);
    if IsFraming(bytes, f) {
      FramingIsUnique(bytes, f);
    }
  }

  lemma {:induction false} FramingIsUnique(bytes: Bytes, f: Framed)
    requires IsFraming(bytes, f)
    ensures f == Frame(bytes)
    decreases |f.events|
  {
    if f.events == [] {
      assert bytes == f.rest;
    } else {
      var e, tail := f.events[0], Framed(f.events[1..], f.rest);
      var after := Concat(tail.events) + tail.rest;
      assert e in f.events;
      assert bytes == e + after;
      FramingIsUnique(after, tail);
      FrameCons(e, after);
    }
  }

  lemma {:induction false} FrameIsAFraming(bytes: Bytes)
    ensures IsFraming(bytes, Frame(bytes))
    decreases |bytes|
  {
    if Contains(bytes, EVENT_END) {
      var e, after := FirstEvent(bytes);
      FrameIsAFraming(after);
      Prepend(e, after, Frame(after));
    }
  }

  /** Splits off the first complete event. */
  lemma {:induction false} FirstEvent(bytes: Bytes) returns (e: Bytes, after: Bytes)
    requires Contains(bytes, EVENT_END)
    ensures bytes == e + after && IsEvent(e)
    ensures Frame(bytes) == Framed([e] + Frame(after).events, Frame(after).rest)
  {
    var i := Index(bytes, EVENT_END).value;
    e, after := bytes[..i + 2], bytes[i + 2..];
    IndexInPrefix(bytes, EVENT_END);
  }

  lemma {:induction false} FrameCons(e: Bytes, after: Bytes)
    requires IsEvent(e)
    ensures Frame(e + after) == Framed([e] + Frame(after).events, Frame(after).rest)
  {
    IndexExtends(e, after, EVENT_END);
    assert (e + after)[..|e|] == e && (e + after)[|e|..] == after;
  }

  lemma {:induction false} Prepend(e: Bytes, after: Bytes, f: Framed)
    requires IsEvent(e) && IsFraming(after, f)
    ensures IsFraming(e + after, Framed([e] + f.events, f.rest))
  {
    assert ([e] + f.events)[1..] == f.events;
    assert e + Concat(f.events) + f.rest == e + (Concat(f.events) + f.rest);
  }

  /** The framing after `b` arrives: only the unfinished event is looked at again. */
  function Continue(f: Framed, b: Bytes): Framed {
    var next := Frame(f.rest + b);
    Framed(f.events + next.events, next.rest)
  }

  /** Framing piece by piece gives the framing of the whole stream. */
  lemma {:induction false} FrameAppend(a: Bytes, b: Bytes)
    ensures Frame(a + b) == Continue(Frame(a), b)
  {
    FrameIsAFraming(a);
    FrameIsAFraming(Frame(a).rest + b);
    ContinueIsAFraming(a, Frame(a), b, Frame(Frame(a).rest + b));
    FramingIsUnique(a + b, Continue(Frame(a), b));
  }

  lemma {:induction false} ContinueIsAFraming(a: Bytes, f: Framed, b: Bytes, next: Framed)
    requires IsFraming(a, f) && IsFraming(f.rest + b, next)
    ensures IsFraming(a + b, Framed(f.events + next.events, next.rest))
  {
    ConcatAppend(f.events, next.events);
    var x, y := Concat(f.events), Concat(next.events);
    assert x + y + next.rest == x + (y + next.rest);
    assert x + (f.rest + b) == x + f.rest + b;
  }

  /** The framing after a sequence of writes. */
  function FrameWrites(chunks: seq<Bytes>): Framed {
    if chunks == [] then Framed([], "")
    else Continue(FrameWrites(chunks[..|chunks| - 1]), chunks[|chunks| - 1])
  }

  /** However the bytes are cut into writes, the events and the unfinished rest are the same. */
  lemma {:induction false} FramingIgnoresChunks(chunks: seq<Bytes>)
    ensures FrameWrites(chunks) == Frame(Concat(chunks))
  {
    if chunks != [] {
      var front, last := chunks[..|chunks| - 1], chunks[|chunks| - 1];
      FramingIgnoresChunks(front);
      FrameAppend(Concat(front), last);
      ConcatSnoc(front, last);
      assert front + [last] == chunks;
    }
  }

  /** The payload of the first line that starts with `data: `, if there is one. */
  function DataPayload(event: Bytes): Option<Bytes> {
    var line := match Index(event, "\n") case Some(i) => event[..i] case None => event;
    if DATA_PREFIX <= line then Some(line[|DATA_PREFIX|..])
    else match Index(event, "\n")
         case Some(i) => DataPayload(event[i + 1..])
         case None => None
  }

  /** Searching an event line by line, as the loop over `bytes.SplitSeq` does. */
  method FindDataPayload(event: Bytes) returns (payload: Option<Bytes>)
    ensures payload == DataPayload(event)
  {
    var remaining := event;
    while true
      invariant DataPayload(event) == DataPayload(remaining)
      decreases |remaining|
    {
      var end := Index(remaining, "\n");
      var line := if end.Some? then remaining[..end.value] else remaining;
      if DATA_PREFIX <= line {
        return Some(line[|DATA_PREFIX|..]);
      }
      if end.None? {
        return None;
      }
      remaining := remaining[end.value + 1..];
    }
  }
}
