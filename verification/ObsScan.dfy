/**
 What the scanner of `handleTextDelta` finds (proxy/internal/proxy/obs.go:193-278), for every
 sequence of text deltas.
 */
module ObsScan {
  import opened Text
  import opened ObsStrip

  function Last(ds: seq<string>): string {
    if ds == [] then "" else ds[|ds| - 1]
  }

  /** Delta `i` together with the delta before it. */
  function Window(ds: seq<string>, i: nat): string
    requires i < |ds|
  {
    Last(ds[..i]) + ds[i]
  }

  /** Where the text of delta `i` starts in the whole text. */
  function Offset(ds: seq<string>, i: nat): nat
    requires i <= |ds|
  {
    |Concat(ds[..i])|
  }

  /** Where window `i` starts in the whole text. */
  function WindowStart(ds: seq<string>, i: nat): nat
    requires i < |ds|
  {
    LastFits(ds[..i]);
    Offset(ds, i) - |Last(ds[..i])|
  }

  lemma {:induction false} LastFits(ds: seq<string>)
    ensures |Last(ds)| <= |Concat(ds)|
    ensures Concat(ds)[|Concat(ds)| - |Last(ds)|..] == Last(ds)
  {
    if ds != [] {
      ConcatSnoc(ds[..|ds| - 1], Last(ds));
      assert ds == ds[..|ds| - 1] + [Last(ds)];
    }
  }

  /**
   The position of the tag when each delta is looked at together with the whole delta before it:
   the first tag in the first window that has one.
   */
  function Hit(ds: seq<string>): Option<nat> {
    if ds == [] then None
    else
      var n := |ds| - 1;
      match Hit(ds[..n])
      case Some(k) => Some(k)
      case None =>
        match Index(Window(ds, n), OPEN_TAG)
        case Some(j) => Some(WindowStart(ds, n) + j)
        case None => None
  }

  lemma {:induction false} HitSnoc(ds: seq<string>, t: string)
    ensures Hit(ds).Some? ==> Hit(ds + [t]) == Hit(ds)
    ensures Hit(ds).None? ==>
              Hit(ds + [t]) == match Index(Last(ds) + t, OPEN_TAG)
                               case Some(j) => (LastFits(ds); Some(|Concat(ds)| - |Last(ds)| + j))
                               case None => None
  {
    var all := ds + [t];
    assert all[..|ds|] == ds;
    assert Window(all, |ds|) == Last(ds) + t;
  }

  // ---- Holding back only on a suspicious tail ----

  /** A tag could begin in `text`, at the latest possible place, and go on in the next delta or end with `text`. */
  ghost predicate TagCouldBegin(text: string) {
    exists k, more :: 0 <= k < |text| <= k + |OPEN_TAG| && OccursAt(text + more, OPEN_TAG, k)
  }

  lemma {:induction false} TailBegins(text: string, n: nat)
    requires 1 <= n <= |OPEN_TAG| && HasSuffix(text, OPEN_TAG[..n])
    ensures TagCouldBegin(text)
  {
    var k, more := |text| - n, OPEN_TAG[n..];
    assert (text + more)[k..k + |OPEN_TAG|] == text[k..] + more == OPEN_TAG;
    assert OccursAt(text + more, OPEN_TAG, k);
  }

  lemma {:induction false} BeginningIsTail(text: string, k: nat, more: string)
    requires k < |text| <= k + |OPEN_TAG| && OccursAt(text + more, OPEN_TAG, k)
    ensures SuspiciousTail(text)
  {
    var n := |text| - k;
    assert (text + more)[k..k + |OPEN_TAG|][..n] == text[k..];
    assert HasSuffix(text, OPEN_TAG[..n]);
  }

  /** A text is suspicious exactly if a tag begins in it that some continuation completes, or that ends it. */
  lemma {:induction false} SuspiciousIsBeginning(text: string)
    ensures SuspiciousTail(text) <==> TagCouldBegin(text)
  {
    if SuspiciousTail(text) {
      var n :| 1 <= n <= |OPEN_TAG| && HasSuffix(text, OPEN_TAG[..n]);
      TailBegins(text, n);
    }
    if TagCouldBegin(text) {
      var k, more :| 0 <= k < |text| <= k + |OPEN_TAG| && OccursAt(text + more, OPEN_TAG, k);
      BeginningIsTail(text, k, more);
    }
  }

  /** Without a suspicious tail, looking back at the previous delta finds nothing more. */
  lemma {:induction false} LookingBackIsNeedless(prev: string, t: string)
    requires !SuspiciousTail(prev) && !Contains(prev, OPEN_TAG)
    ensures Contains(prev + t, OPEN_TAG) <==> Contains(t, OPEN_TAG)
    ensures Contains(t, OPEN_TAG) ==> Index(prev + t, OPEN_TAG) == Some(|prev| + Index(t, OPEN_TAG).value)
  {
    if Contains(t, OPEN_TAG) {
      var i := Index(t, OPEN_TAG).value;
      OccursInSuffix(prev, t, OPEN_TAG, i);
      IndexIsFirst(prev + t, OPEN_TAG, |prev| + i);
    }
    if Contains(prev + t, OPEN_TAG) {
      var j := Index(prev + t, OPEN_TAG).value;
      TagIsInSuffix(prev, t, j);
      OccursInSuffix(prev, t, OPEN_TAG, j - |prev|);
      IndexIsFirst(t, OPEN_TAG, j - |prev|);
    }
  }

  lemma {:induction false} TagIsInSuffix(prev: string, t: string, j: nat)
    requires !SuspiciousTail(prev) && !Contains(prev, OPEN_TAG)
    requires OccursAt(prev + t, OPEN_TAG, j)
    ensures |prev| <= j
  {
    if j + |OPEN_TAG| <= |prev| {
      OccursInPrefix(prev, t, OPEN_TAG, j);
      IndexIsFirst(prev, OPEN_TAG, j);
    } else if j < |prev| {
      StraddlingTag(prev, t, j);
    }
  }

  lemma {:induction false} StraddlingTag(prev: string, t: string, j: nat)
    requires OccursAt(prev + t, OPEN_TAG, j) && j < |prev| < j + |OPEN_TAG|
    ensures SuspiciousTail(prev)
  {
    var n := |prev| - j;
    assert prev[j..] == (prev + t)[j..j + |OPEN_TAG|][..n];
    assert HasSuffix(prev, OPEN_TAG[..n]);
  }

  // ---- The scanner's invariant ----

  predicate Absorbed(s: Strip, all: string) {
    && s.obs == Before(all, CLOSE_TAG)
    && s.phase == (if Contains(all, CLOSE_TAG) then Done else Suppressing)
  }

  /** No tag so far in `whole`, whose last delta is `last`. */
  ghost predicate Seeking(s: Strip, whole: string, last: string) {
    && HoldsDelta(s)
    && s.phase.Searching?
    && s.obs == ""
    && WrittenText(s.sent) + HeldText(s) == whole
    && (s.held.Some? <==> SuspiciousTail(last))
    && (s.held.Some? ==> HeldText(s) == last)
    && !Contains(last, OPEN_TAG)
  }

  /** The tag was found at position `k` of `whole`. */
  ghost predicate Found(s: Strip, whole: string, k: nat) {
    && s.held.None?
    && OccursAt(whole, OPEN_TAG, k)
    && WrittenText(s.sent) == whole[..k]
    && Absorbed(s, whole[k + |OPEN_TAG|..])
  }

  /** `s` is what the scanner has done after reading `whole`, with the tag found at `hit`. */
  ghost predicate Tracks(s: Strip, hit: Option<nat>, whole: string, last: string) {
    match hit
    case None => Seeking(s, whole, last)
    case Some(k) => Found(s, whole, k)
  }

  lemma {:induction false} WrittenTextSnoc(sent: seq<Sent>, w: Sent)
    ensures WrittenText(sent + [w]) == WrittenText(sent) + SentText(w)
  {
    assert (sent + [w])[..|sent|] == sent;
  }

  lemma {:induction false} WrittenTextRebuilt(sent: seq<Sent>, event: Bytes, text: string)
    ensures WrittenText(sent + RebuiltUnlessEmpty(event, text)) == WrittenText(sent) + text
  {
    if text != "" {
      WrittenTextSnoc(sent, Rebuilt(event, text));
    } else {
      assert sent + [] == sent;
    }
  }

  lemma {:induction false} WrittenTextReleased(s: Strip)
    requires HoldsDelta(s)
    ensures WrittenText(s.sent + Release(s)) == WrittenText(s.sent) + HeldText(s)
  {
    if s.held.Some? {
      WrittenTextSnoc(s.sent, Verbatim(s.held.value));
    } else {
      assert s.sent + [] == s.sent;
    }
  }

  /** Whatever is held, the text sent before the tag is the text up to it. */
  lemma {:induction false} WrittenTextBeforeTag(s: Strip, event: Bytes, text: string, idx: nat)
    requires HoldsDelta(s) && idx <= |HeldText(s)| + |text|
    ensures var combined := HeldText(s) + text;
            WrittenText(s.sent + SentBeforeTag(s.held, event, combined, idx)) == WrittenText(s.sent) + combined[..idx]
  {
    var combined := HeldText(s) + text;
    match s.held
    case None => WrittenTextRebuilt(s.sent, event, combined[..idx]);
    case Some(h) =>
      if idx <= |h.text| {
        WrittenTextRebuilt(s.sent, h.event, combined[..idx]);
      } else {
        var rest := combined[|h.text|..idx];
        assert combined[..idx] == h.text + rest;
        WrittenTextSnoc(s.sent, Verbatim(h));
        WrittenTextRebuilt(s.sent + [Verbatim(h)], event, rest);
        Assoc(s.sent, [Verbatim(h)], RebuiltUnlessEmpty(event, rest));
        Assoc(WrittenText(s.sent), h.text, rest);
      }
  }

  lemma {:induction false} AbsorbAbsorbs(s: Strip, all: string)
    ensures Absorbed(Absorb(s, all), all)
    ensures Absorb(s, all).held == s.held && Absorb(s, all).sent == s.sent
  {
  }

  /** After the tag, each delta extends the observation until its end is seen. */
  lemma {:induction false} FoundStep(s: Strip, whole: string, k: nat, event: Bytes, text: string)
    requires Found(s, whole, k)
    ensures Found(StepDelta(s, event, text), whole + text, k)
  {
    OccursInPrefix(whole, text, OPEN_TAG, k);
    assert (whole + text)[..k] == whole[..k];
    var all := whole[k + |OPEN_TAG|..];
    assert (whole + text)[k + |OPEN_TAG|..] == all + text;
    if s.phase.Done? {
      BeforeExtends(all, text);
    } else {
      AbsorbAbsorbs(s, all + text);
    }
  }

  lemma {:induction false} BeforeExtends(all: string, text: string)
    requires Contains(all, CLOSE_TAG)
    ensures Before(all + text, CLOSE_TAG) == Before(all, CLOSE_TAG) && Contains(all + text, CLOSE_TAG)
  {
    IndexExtends(all, text, CLOSE_TAG);
    var i := Index(all, CLOSE_TAG).value;
    assert (all + text)[..i] == all[..i];
  }

  /** The text the scanner looks at has its first tag where the window has it. */
  lemma {:induction false} CombinedFindsWindowTag(s: Strip, whole: string, last: string, text: string)
    requires Seeking(s, whole, last)
    ensures Contains(HeldText(s) + text, OPEN_TAG) <==> Contains(last + text, OPEN_TAG)
    ensures Contains(HeldText(s) + text, OPEN_TAG) ==>
              |WrittenText(s.sent)| + Index(HeldText(s) + text, OPEN_TAG).value
              == |whole| - |last| + Index(last + text, OPEN_TAG).value
  {
    assert |WrittenText(s.sent)| + |HeldText(s)| == |whole|;
    if s.held.None? {
      assert HeldText(s) + text == text;
      LookingBackIsNeedless(last, text);
    }
  }

  lemma {:induction false} NoTagInSuffix(a: string, b: string)
    requires !Contains(a + b, OPEN_TAG)
    ensures !Contains(b, OPEN_TAG)
  {
    if Contains(b, OPEN_TAG) {
      OccursInSuffix(a, b, OPEN_TAG, Index(b, OPEN_TAG).value);
      IndexIsFirst(a + b, OPEN_TAG, |a| + Index(b, OPEN_TAG).value);
    }
  }

  /** No tag found: the held event goes out and the new one is sent or held. */
  lemma {:induction false} StepNoTag(s: Strip, event: Bytes, text: string)
    requires HoldsDelta(s) && s.phase.Searching? && !Contains(HeldText(s) + text, OPEN_TAG)
    ensures var r := StepDelta(s, event, text);
            && r.phase.Searching? && r.obs == s.obs
            && (r.held.Some? <==> SuspiciousTail(text))
            && (r.held.Some? ==> HeldText(r) == text)
            && WrittenText(r.sent) + HeldText(r) == WrittenText(s.sent) + HeldText(s) + text
  {
    WrittenTextReleased(s);
    if !SuspiciousTail(text) {
      WrittenTextSnoc(s.sent + Release(s), Verbatim(Delta(event, text)));
    }
  }

  lemma {:induction false} SeekingStep(s: Strip, whole: string, last: string, event: Bytes, text: string)
    requires Seeking(s, whole, last) && !Contains(last + text, OPEN_TAG)
    ensures Seeking(StepDelta(s, event, text), whole + text, text)
  {
    CombinedFindsWindowTag(s, whole, last, text);
    NoTagInSuffix(last, text);
    StepNoTag(s, event, text);
  }

  /** The scanner in the state in which it starts to absorb the observation. */
  function AtTag(s: Strip, event: Bytes, combined: string, idx: nat): Strip
    requires HoldsDelta(s) && HeldText(s) <= combined && idx <= |combined|
  {
    s.(held := None, sent := s.sent + SentBeforeTag(s.held, event, combined, idx))
  }

  lemma {:induction false} StepAbsorbs(s: Strip, event: Bytes, text: string, idx: nat)
    requires HoldsDelta(s) && s.phase.Searching?
    requires Index(HeldText(s) + text, OPEN_TAG) == Some(idx)
    ensures var combined := HeldText(s) + text;
            StepDelta(s, event, text) == Absorb(AtTag(s, event, combined, idx), combined[idx + |OPEN_TAG|..])
  {
  }

  lemma {:induction false} AtTagText(s: Strip, event: Bytes, text: string, idx: nat) returns (found: Strip)
    requires HoldsDelta(s) && s.phase.Searching?
    requires Index(HeldText(s) + text, OPEN_TAG) == Some(idx)
    ensures found.held.None? && WrittenText(found.sent) == WrittenText(s.sent) + (HeldText(s) + text)[..idx]
    ensures StepDelta(s, event, text) == Absorb(found, (HeldText(s) + text)[idx + |OPEN_TAG|..])
  {
    WrittenTextBeforeTag(s, event, text, idx);
    found := AtTag(s, event, HeldText(s) + text, idx);
    StepAbsorbs(s, event, text, idx);
  }

  lemma {:induction false} FoundAtTag(s: Strip, event: Bytes, text: string, before: string, combined: string, idx: nat)
    requires HoldsDelta(s) && s.phase.Searching? && combined == HeldText(s) + text && before == WrittenText(s.sent)
    requires Index(combined, OPEN_TAG) == Some(idx)
    ensures Found(StepDelta(s, event, text), before + combined, |before| + idx)
  {
    var found := AtTagText(s, event, text, idx);
    FoundByAbsorbing(found, before, combined, idx);
  }

  lemma {:induction false} SeekingFinds(s: Strip, whole: string, last: string, event: Bytes, text: string)
    requires Seeking(s, whole, last) && Contains(last + text, OPEN_TAG) && |last| <= |whole|
    ensures Found(StepDelta(s, event, text), whole + text, |whole| - |last| + Index(last + text, OPEN_TAG).value)
  {
    var before, combined := WrittenText(s.sent), HeldText(s) + text;
    CombinedFindsWindowTag(s, whole, last, text);
    var idx := Index(combined, OPEN_TAG).value;
    assert whole + text == before + combined by { Assoc(before, HeldText(s), text); }
    FoundAtTag(s, event, text, before, combined, idx);
  }

  lemma {:induction false} FoundByAbsorbing(found: Strip, sentBefore: string, combined: string, idx: nat)
    requires found.held.None? && OccursAt(combined, OPEN_TAG, idx)
    requires WrittenText(found.sent) == sentBefore + combined[..idx]
    ensures Found(Absorb(found, combined[idx + |OPEN_TAG|..]), sentBefore + combined, |sentBefore| + idx)
  {
    AbsorbAbsorbs(found, combined[idx + |OPEN_TAG|..]);
    OccursInSuffix(sentBefore, combined, OPEN_TAG, idx);
    assert (sentBefore + combined)[..|sentBefore| + idx] == sentBefore + combined[..idx];
    assert (sentBefore + combined)[|sentBefore| + idx + |OPEN_TAG|..] == combined[idx + |OPEN_TAG|..];
  }

  lemma {:induction false} TracksDelta(s: Strip, hit: Option<nat>, whole: string, last: string, event: Bytes, text: string)
    requires HoldsDelta(s) && Tracks(s, hit, whole, last) && |last| <= |whole|
    ensures var next := if hit.Some? then hit
                        else match Index(last + text, OPEN_TAG)
                             case Some(j) => Some(|whole| - |last| + j)
                             case None => None;
            Tracks(StepDelta(s, event, text), next, whole + text, text)
  {
    if hit.Some? {
      FoundStep(s, whole, hit.value, event, text);
    } else if Contains(last + text, OPEN_TAG) {
      SeekingFinds(s, whole, last, event, text);
    } else {
      SeekingStep(s, whole, last, event, text);
    }
  }

  lemma {:induction false} TracksOther(s: Strip, hit: Option<nat>, whole: string, last: string, item: Item)
    requires HoldsDelta(s) && Tracks(s, hit, whole, last) && item.Other?
    ensures Tracks(Step(s, item), hit, whole, last)
  {
    WrittenTextSnoc(s.sent, Verbatim(item));
  }

  /** The scanner always knows exactly what looking back one whole delta would know. */
  lemma {:induction false} RunTracks(items: seq<Item>)
    ensures Tracks(Run(items), Hit(Texts(items)), FullText(items), Last(Texts(items)))
  {
    if items != [] {
      var front, last := items[..|items| - 1], items[|items| - 1];
      RunTracks(front);
      var ds := Texts(front);
      match last
      case Other(_) =>
        TracksOther(Run(front), Hit(ds), Concat(ds), Last(ds), last);
        assert Texts(items) == ds;
      case Delta(event, text) =>
        LastFits(ds);
        HitSnoc(ds, text);
        ConcatSnoc(ds, text);
        TracksDelta(Run(front), Hit(ds), Concat(ds), Last(ds), event, text);
    }
  }
}
