/**
 Guarantees of the streaming path, for every sequence of events and every fragmentation of the
 text (proxy/internal/proxy/obs.go:113-278 and 446-461).
 */
module ObsStreaming {
  import opened Text
  import opened ObsStrip
  import opened ObsScan

  // ---- Where the scanner finds the tag ----

  /** Window `i` is the first that contains the tag. */
  ghost predicate FirstWindow(ds: seq<string>, i: nat) {
    && i < |ds|
    && Contains(Window(ds, i), OPEN_TAG)
    && forall j: nat | j < i :: !Contains(Window(ds, j), OPEN_TAG)
  }

  lemma {:induction false} WindowOfPrefix(ds: seq<string>, n: nat, i: nat)
    requires i < n <= |ds|
    ensures Window(ds[..n], i) == Window(ds, i) && WindowStart(ds[..n], i) == WindowStart(ds, i)
  {
    assert ds[..n][..i] == ds[..i];
  }

  lemma {:induction false} HitIsInFirstWindow(ds: seq<string>) returns (i: nat)
    requires Hit(ds).Some?
    ensures FirstWindow(ds, i)
    ensures Hit(ds).value == WindowStart(ds, i) + Index(Window(ds, i), OPEN_TAG).value
  {
    var n := |ds| - 1;
    if Hit(ds[..n]).Some? {
      i := HitIsInFirstWindow(ds[..n]);
      forall j: nat | j <= i ensures Window(ds[..n], j) == Window(ds, j) {
        WindowOfPrefix(ds, n, j);
      }
      WindowOfPrefix(ds, n, i);
    } else {
      i := n;
      forall j: nat | j < i ensures !Contains(Window(ds, j), OPEN_TAG) {
        NoHitNoWindow(ds[..n], j);
        WindowOfPrefix(ds, n, j);
      }
    }
  }

  lemma {:induction false} NoHitNoWindow(ds: seq<string>, i: nat)
    requires Hit(ds).None? && i < |ds|
    ensures !Contains(Window(ds, i), OPEN_TAG)
  {
    var n := |ds| - 1;
    if i < n {
      NoHitNoWindow(ds[..n], i);
      WindowOfPrefix(ds, n, i);
    }
  }

  /**
   Holding an event back only on a suspicious tail loses nothing against always looking back one
   delta: searching goes on exactly as long as no two consecutive deltas contain the tag, and a
   held event ends in a piece of the tag without containing it.
   */
  lemma {:induction false} SearchingIsExact(items: seq<Item>)
    ensures var s, ds := Run(items), Texts(items);
            && (s.phase.Searching? <==> forall i: nat | i < |ds| :: !Contains(Window(ds, i), OPEN_TAG))
            && (s.held.Some? <==> s.phase.Searching? && SuspiciousTail(Last(ds)))
            && (s.held.Some? ==> HeldText(s) == Last(ds) && !Contains(HeldText(s), OPEN_TAG))
  {
    RunTracks(items);
    var ds := Texts(items);
    if Hit(ds).Some? {
      var i := HitIsInFirstWindow(ds);
    } else {
      forall i: nat | i < |ds| ensures !Contains(Window(ds, i), OPEN_TAG) {
        NoHitNoWindow(ds, i);
      }
    }
  }

  // ---- When that is the first tag of the whole text ----

  /** The tag at position `p` of the text lies inside two consecutive deltas. */
  ghost predicate InTwoDeltas(ds: seq<string>, p: nat) {
    exists i: nat | i < |ds| :: WindowStart(ds, i) <= p && p + |OPEN_TAG| <= Offset(ds, i + 1)
  }

  lemma {:induction false} WindowInText(ds: seq<string>, i: nat)
    requires i < |ds|
    ensures Offset(ds, i + 1) <= |Concat(ds)|
    ensures WindowStart(ds, i) + |Window(ds, i)| == Offset(ds, i + 1)
    ensures Concat(ds)[WindowStart(ds, i)..Offset(ds, i + 1)] == Window(ds, i)
  {
    var before, after := Concat(ds[..i]), Concat(ds[i + 1..]);
    assert ds == ds[..i + 1] + ds[i + 1..] && ds[..i + 1] == ds[..i] + [ds[i]];
    ConcatAppend(ds[..i + 1], ds[i + 1..]);
    ConcatSnoc(ds[..i], ds[i]);
    LastFits(ds[..i]);
    SliceAcross(before, Last(ds[..i]), ds[i], after);
  }

  lemma {:induction false} SliceAcross(before: string, last: string, next: string, after: string)
    requires HasSuffix(before, last)
    ensures (before + next + after)[|before| - |last|..|before| + |next|] == last + next
  {
    assert before == before[..|before| - |last|] + last;
  }

  lemma {:induction false} OffsetMonotone(ds: seq<string>, i: nat, j: nat)
    requires i <= j <= |ds|
    ensures Offset(ds, i) <= Offset(ds, j)
  {
    ConcatAppend(ds[..i], ds[i..j]);
    assert ds[..j] == ds[..i] + ds[i..j];
  }

  lemma {:induction false} WindowStartIsOffset(ds: seq<string>, i: nat)
    requires i < |ds|
    ensures WindowStart(ds, i) == Offset(ds, if i == 0 then 0 else i - 1)
  {
    if i > 0 {
      ConcatSnoc(ds[..i - 1], ds[i - 1]);
      assert ds[..i] == ds[..i - 1] + [ds[i - 1]];
    }
  }

  lemma {:induction false} WindowStartMonotone(ds: seq<string>, h: nat, i: nat)
    requires h <= i < |ds|
    ensures WindowStart(ds, h) <= WindowStart(ds, i)
  {
    WindowStartIsOffset(ds, h);
    WindowStartIsOffset(ds, i);
    OffsetMonotone(ds, if h == 0 then 0 else h - 1, if i == 0 then 0 else i - 1);
  }

  /** Occurrences in a window are the occurrences in the text that lie inside it. */
  lemma {:induction false} OccursInWindow(ds: seq<string>, i: nat, p: nat)
    requires i < |ds| && WindowStart(ds, i) <= p && p + |OPEN_TAG| <= Offset(ds, i + 1)
    ensures OccursAt(Concat(ds), OPEN_TAG, p) <==> OccursAt(Window(ds, i), OPEN_TAG, p - WindowStart(ds, i))
  {
    WindowInText(ds, i);
    OccursInSlice(Concat(ds), OPEN_TAG, WindowStart(ds, i), Offset(ds, i + 1), p);
  }

  lemma {:induction false} HitIsInText(ds: seq<string>, i: nat)
    requires Hit(ds).Some? && FirstWindow(ds, i)
    requires Hit(ds).value == WindowStart(ds, i) + Index(Window(ds, i), OPEN_TAG).value
    ensures var k := Hit(ds).value;
            && OccursAt(Concat(ds), OPEN_TAG, k)
            && WindowStart(ds, i) <= k && k + |OPEN_TAG| <= Offset(ds, i + 1)
  {
    WindowInText(ds, i);
    OccursInWindow(ds, i, Hit(ds).value);
  }

  /** A slice that starts no later than the first tag of a text finds no other tag first. */
  lemma {:induction false} FirstTagInSlice(text: string, a: nat, b: nat, p: nat)
    requires a <= b <= |text| && Index(text, OPEN_TAG) == Some(p) && a <= p
    requires Contains(text[a..b], OPEN_TAG)
    ensures p == a + Index(text[a..b], OPEN_TAG).value
  {
    var j := Index(text[a..b], OPEN_TAG).value;
    OccursInSlice(text, OPEN_TAG, a, b, a + j);
    IndexIsFirst(text, OPEN_TAG, a + j);
    OccursInSlice(text, OPEN_TAG, a, b, p);
    IndexIsFirst(text[a..b], OPEN_TAG, p - a);
  }

  lemma {:induction false} FirstTagInWindow(ds: seq<string>, i: nat, p: nat)
    requires i < |ds| && Index(Concat(ds), OPEN_TAG) == Some(p) && WindowStart(ds, i) <= p
    requires Contains(Window(ds, i), OPEN_TAG)
    ensures WindowStart(ds, i) + Index(Window(ds, i), OPEN_TAG).value == p
  {
    WindowInText(ds, i);
    FirstTagInSlice(Concat(ds), WindowStart(ds, i), Offset(ds, i + 1), p);
  }

  /** A window that contains the first tag of the text makes the scanner find it. */
  lemma {:induction false} HitNotAfter(ds: seq<string>, i: nat, p: nat)
    requires i < |ds| && Index(Concat(ds), OPEN_TAG) == Some(p)
    requires WindowStart(ds, i) <= p && p + |OPEN_TAG| <= Offset(ds, i + 1)
    ensures Hit(ds) == Some(p)
  {
    WindowHasTag(ds, i, p);
    if Hit(ds).None? {
      NoHitNoWindow(ds, i);
    }
    var h := HitIsInFirstWindow(ds);
    HitReachesBack(ds, h, i, p);
    FirstTagInWindow(ds, h, p);
  }

  lemma {:induction false} WindowHasTag(ds: seq<string>, i: nat, p: nat)
    requires i < |ds| && OccursAt(Concat(ds), OPEN_TAG, p)
    requires WindowStart(ds, i) <= p && p + |OPEN_TAG| <= Offset(ds, i + 1)
    ensures Contains(Window(ds, i), OPEN_TAG)
  {
    OccursInWindow(ds, i, p);
    IndexIsFirst(Window(ds, i), OPEN_TAG, p - WindowStart(ds, i));
  }

  lemma {:induction false} HitReachesBack(ds: seq<string>, h: nat, i: nat, p: nat)
    requires FirstWindow(ds, h) && i < |ds| && Contains(Window(ds, i), OPEN_TAG) && WindowStart(ds, i) <= p
    ensures WindowStart(ds, h) <= p
  {
    WindowStartMonotone(ds, h, i);
  }

  /** The scanner finds the first tag of the text exactly when it lies inside two deltas. */
  lemma {:induction false} HitIsFirstTag(ds: seq<string>)
    ensures var first := Index(Concat(ds), OPEN_TAG);
            Hit(ds) == first <==> first.None? || InTwoDeltas(ds, first.value)
  {
    var text := Concat(ds);
    if Hit(ds).Some? {
      var i := HitIsInFirstWindow(ds);
      HitIsInText(ds, i);
      IndexIsFirst(text, OPEN_TAG, Hit(ds).value);
    }
    if Index(text, OPEN_TAG).Some? && InTwoDeltas(ds, Index(text, OPEN_TAG).value) {
      var p := Index(text, OPEN_TAG).value;
      var i: nat :| i < |ds| && WindowStart(ds, i) <= p && p + |OPEN_TAG| <= Offset(ds, i + 1);
      HitNotAfter(ds, i, p);
    }
  }

  // ---- What is written and what the logger gets ----

  /** The observation after a tag at `at` in `text`. */
  function ObservationAfter(text: string, at: Option<nat>): string
    requires at.Some? ==> at.value + |OPEN_TAG| <= |text|
  {
    match at
    case None => ""
    case Some(k) => TrimSpace(Before(text[k + |OPEN_TAG|..], CLOSE_TAG))
  }

  lemma {:induction false} TrimEmpty()
    ensures TrimSpace("") == ""
  {
  }

  lemma {:induction false} FinishKeepsText(s: Strip, rest: Bytes)
    requires HoldsDelta(s) && (s.held.Some? ==> s.phase.Searching?)
    ensures WrittenText(Finish(s, rest).sent) == WrittenText(s.sent) + HeldText(s)
    ensures Finish(s, rest).obs == s.obs
  {
    var trailing := if rest != "" then [Trailing(rest)] else [];
    if rest != "" {
      WrittenTextSnoc(s.sent, Trailing(rest));
    } else {
      assert s.sent + trailing == s.sent;
    }
    WrittenTextReleased(s.(sent := s.sent + trailing));
  }

  lemma {:induction false} FinishTracked(s: Strip, hit: Option<nat>, whole: string, last: string, rest: Bytes)
    requires HoldsDelta(s) && Tracks(s, hit, whole, last)
    ensures hit.Some? ==> OccursAt(whole, OPEN_TAG, hit.value)
    ensures WrittenText(Finish(s, rest).sent) == match hit case None => whole case Some(k) => whole[..k]
    ensures Observation(Finish(s, rest)) == ObservationAfter(whole, hit)
  {
    FinishKeepsText(s, rest);
    TrimEmpty();
  }

  /** In every run the events written carry the text up to the tag the scanner found, and no more. */
  lemma {:induction false} WritesUpToHit(items: seq<Item>, rest: Bytes)
    ensures var f, text, hit := Finish(Run(items), rest), FullText(items), Hit(Texts(items));
            && (hit.Some? ==> OccursAt(text, OPEN_TAG, hit.value))
            && WrittenText(f.sent) == (match hit case None => text case Some(k) => text[..k])
            && Observation(f) == ObservationAfter(text, hit)
  {
    RunTracks(items);
    FinishTracked(Run(items), Hit(Texts(items)), FullText(items), Last(Texts(items)), rest);
  }

  /**
   The events written carry the text up to the first tag if and only if there is no tag or the first one
   lies inside two consecutive deltas; the observation is then what follows up to the close tag, however
   that part is fragmented.
   */
  lemma {:induction false} StripsFirstObservation(items: seq<Item>, rest: Bytes)
    ensures var f, text := Finish(Run(items), rest), FullText(items);
            var first := Index(text, OPEN_TAG);
            && (WrittenText(f.sent) == Before(text, OPEN_TAG) <==>
                  first.None? || InTwoDeltas(Texts(items), first.value))
            && (first.None? || InTwoDeltas(Texts(items), first.value) ==>
                  Observation(f) == ObservationAfter(text, first))
  {
    WritesUpToHit(items, rest);
    var text, hit := FullText(items), Hit(Texts(items));
    HitIsFirstTag(Texts(items));
    if hit.Some? {
      IndexIsFirst(text, OPEN_TAG, hit.value);
    }
  }

  /**
   A tag cut into three deltas reaches the client. The middle one may be empty: an empty
   Anthropic `text_delta` is enough to hide the tag.
   */
  lemma {:induction false} TagInThreeDeltasLeaks(items: seq<Item>, rest: Bytes, a: string, b: string, c: string)
    requires Texts(items) == [a, b, c]
    requires a + b + c == OPEN_TAG && a != "" && c != ""
    ensures WrittenText(Finish(Run(items), rest).sent) == OPEN_TAG
    ensures Observation(Finish(Run(items), rest)) == ""
  {
    WritesUpToHit(items, rest);
    NoHitInPieces(a, b, c);
    ConcatOfThree(a, b, c);
  }

  lemma {:induction false} ConcatOfThree(a: string, b: string, c: string)
    ensures Concat([a, b, c]) == a + b + c
  {
    ConcatSnoc([a, b], c);
    ConcatSnoc([a], b);
    ConcatSnoc([], a);
    assert [a, b] + [c] == [a, b, c];
  }

  lemma {:induction false} NoHitInPieces(a: string, b: string, c: string)
    requires a + b + c == OPEN_TAG && a != "" && c != ""
    ensures Hit([a, b, c]).None?
  {
    var ds := [a, b, c];
    assert |a| + |b| + |c| == |OPEN_TAG|;
    forall i: nat | i < 3 ensures |Window(ds, i)| < |OPEN_TAG| {
    }
    if Hit(ds).Some? {
      var i := HitIsInFirstWindow(ds);
    }
  }
}
