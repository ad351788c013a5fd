/**
 The string operations of Go and Python that the modelled code relies on: searching for a
 separator, cutting at its first occurrence, concatenating fragments and trimming.

 A `Bytes` value holds one `char` per byte; a `string` is decoded text.
 */
module Text {

  datatype Option<+T> = None | Some(value: T)

  type Bytes = seq<char>

  /** What the data line of a server-sent event starts with. */
  const DATA_PREFIX := "data: "

  /** `sep` stands at position `i` of `s`. */
  predicate OccursAt(s: string, sep: string, i: int) {
    0 <= i && i + |sep| <= |s| && s[i..i + |sep|] == sep
  }

  /** The position of the first occurrence of `sep`, as `strings.Index` and `str.find` give it. */
  function Index(s: string, sep: string): (r: Option<nat>)
    ensures r.Some? ==> OccursAt(s, sep, r.value)
  {
    IndexFrom(s, sep, 0)
  }

  function IndexFrom(s: string, sep: string, from: nat): (r: Option<nat>)
    requires from <= |s|
    ensures r.Some? ==> OccursAt(s, sep, r.value)
    decreases |s| - from
  {
    if OccursAt(s, sep, from) then Some(from)
    else if from == |s| then None
    else IndexFrom(s, sep, from + 1)
  }

  /** `Index` misses no occurrence and gives the first. */
  lemma {:induction false} IndexIsFirst(s: string, sep: string, j: nat)
    requires OccursAt(s, sep, j)
    ensures Index(s, sep).Some? && Index(s, sep).value <= j
  {
    IndexFromIsFirst(s, sep, 0, j);
  }

  lemma {:induction false} IndexFromIsFirst(s: string, sep: string, from: nat, j: nat)
    requires OccursAt(s, sep, j) && from <= j
    ensures IndexFrom(s, sep, from).Some? && IndexFrom(s, sep, from).value <= j
    decreases j - from
  {
    if !OccursAt(s, sep, from) {
      IndexFromIsFirst(s, sep, from + 1, j);
    }
  }

  predicate Contains(s: string, sep: string) {
    Index(s, sep).Some?
  }

  /** What precedes the first `sep`; the whole of `s` when there is none. */
  function Before(s: string, sep: string): string {
    match Index(s, sep)
    case Some(i) => s[..i]
    case None => s
  }

  predicate HasSuffix(s: string, t: string) {
    |t| <= |s| && s[|s| - |t|..] == t
  }

  /** Occurrences in `s` are the occurrences in `s + t` that end inside `s`. */
  lemma {:induction false} OccursInPrefix(s: string, t: string, sep: string, i: int)
    ensures OccursAt(s, sep, i) <==> OccursAt(s + t, sep, i) && i + |sep| <= |s|
  {
    if 0 <= i && i + |sep| <= |s| {
      assert (s + t)[i..i + |sep|] == s[i..i + |sep|];
    }
  }

  /** Occurrences in `t` are the occurrences in `s + t` that start inside `t`. */
  lemma {:induction false} OccursInSuffix(s: string, t: string, sep: string, i: nat)
    ensures OccursAt(t, sep, i) <==> OccursAt(s + t, sep, |s| + i)
  {
    if i + |sep| <= |t| {
      assert (s + t)[|s| + i..|s| + i + |sep|] == t[i..i + |sep|];
    }
  }

  /** Text that arrives later does not move the first occurrence. */
  lemma {:induction false} IndexExtends(s: string, t: string, sep: string)
    requires Contains(s, sep)
    ensures Index(s + t, sep) == Index(s, sep)
  {
    var i := Index(s, sep).value;
    OccursInPrefix(s, t, sep, i);
    IndexIsFirst(s + t, sep, i);
    var k := Index(s + t, sep).value;
    OccursInPrefix(s, t, sep, k);
    IndexIsFirst(s, sep, k);
  }

  /** The text up to and including the first separator contains it only there. */
  lemma {:induction false} IndexInPrefix(s: string, sep: string)
    requires Contains(s, sep)
    ensures Index(s[..Index(s, sep).value + |sep|], sep) == Index(s, sep)
  {
    var i := Index(s, sep).value;
    var head, tail := s[..i + |sep|], s[i + |sep|..];
    assert s == head + tail;
    OccursInPrefix(head, tail, sep, i);
    IndexIsFirst(head, sep, i);
    var k := Index(head, sep).value;
    OccursInPrefix(head, tail, sep, k);
    IndexIsFirst(s, sep, k);
  }

  /** The separator's first character occurs nowhere else in it, so it cannot overlap itself. */
  ghost predicate Unbordered(sep: string) {
    |sep| > 0 && forall i :: 0 < i < |sep| ==> sep[i] != sep[0]
  }

  lemma {:induction false} OccurrenceAt(s: string, sep: string, i: nat, k: nat)
    requires OccursAt(s, sep, i) && i <= k < i + |sep|
    ensures s[k] == sep[k - i]
  {
    assert s[i..i + |sep|][k - i] == s[k];
  }

  /** A separator that cannot overlap itself is found where it was put, after text without it. */
  lemma {:induction false} IndexOfInserted(s: string, sep: string, t: string)
    requires Unbordered(sep) && !Contains(s, sep)
    ensures Index(s + sep + t, sep) == Some(|s|)
  {
    var whole := s + sep + t;
    assert OccursAt(whole, sep, |s|);
    assert whole[|s|] == sep[0];
    IndexIsFirst(whole, sep, |s|);
    var j := Index(whole, sep).value;
    if j + |sep| <= |s| {
      assert whole == s + (sep + t);
      OccursInPrefix(s, sep + t, sep, j);
      IndexIsFirst(s, sep, j);
    } else if j < |s| {
      OccurrenceAt(whole, sep, j, |s|);
    }
  }

  /** Occurrences in a slice are the occurrences in the text that lie inside it. */
  lemma {:induction false} OccursInSlice(s: string, sep: string, a: nat, b: nat, p: nat)
    requires a <= p && p + |sep| <= b <= |s|
    ensures OccursAt(s, sep, p) <==> OccursAt(s[a..b], sep, p - a)
  {
    var inner, outer := s[a..b][p - a..p - a + |sep|], s[p..p + |sep|];
    forall k | 0 <= k < |sep| ensures inner[k] == outer[k] {
    }
    assert inner == outer;
  }

  lemma {:induction false} Assoc<T>(a: seq<T>, b: seq<T>, c: seq<T>)
    ensures a + (b + c) == a + b + c
  {
  }

  lemma {:induction false} OneMore<T>(a: seq<T>, b: seq<T>, k: nat)
    requires k < |b|
    ensures a + b[..k + 1] == a + b[..k] + [b[k]]
  {
  }

  /** All fragments in order. */
  function Concat(parts: seq<string>): string {
    if parts == [] then "" else parts[0] + Concat(parts[1..])
  }

  lemma {:induction false} ConcatAppend(a: seq<string>, b: seq<string>)
    ensures Concat(a + b) == Concat(a) + Concat(b)
  {
    if a == [] {
      assert a + b == b;
    } else {
      assert (a + b)[1..] == a[1..] + b;
      ConcatAppend(a[1..], b);
    }
  }

  lemma {:induction false} ConcatSnoc(a: seq<string>, x: string)
    ensures Concat(a + [x]) == Concat(a) + x
  {
    ConcatAppend(a, [x]);
    assert Concat([x]) == x;
  }

  /** `unicode.IsSpace`. */
  predicate IsSpace(c: char) {
    c in "\t\n\r " || c == '\U{0b}' || c == '\U{0c}' || c == '\U{85}' || c == '\U{A0}' ||
    c == '\U{1680}' || '\U{2000}' <= c <= '\U{200A}' || c == '\U{2028}' || c == '\U{2029}' ||
    c == '\U{202F}' || c == '\U{205F}' || c == '\U{3000}'
  }

  function TrimRight(s: string, cut: char -> bool): (r: string)
    ensures r <= s
  {
    if s != "" && cut(s[|s| - 1]) then TrimRight(s[..|s| - 1], cut) else s
  }

  function TrimLeft(s: string, cut: char -> bool): string {
    if s != "" && cut(s[0]) then TrimLeft(s[1..], cut) else s
  }

  /** `strings.TrimSpace`. */
  function TrimSpace(s: string): string {
    TrimRight(TrimLeft(s, IsSpace), IsSpace)
  }

  ghost predicate AllCut(s: string, cut: char -> bool) {
    forall i | 0 <= i < |s| :: cut(s[i])
  }

  /** Trimming stops at a character that is not in the cut set. */
  lemma {:induction false} TrimRightKeeps(s: string, cut: char -> bool, i: nat)
    requires i < |s| && !cut(s[i])
    ensures |TrimRight(s, cut)| > i
  {
    if cut(s[|s| - 1]) {
      TrimRightKeeps(s[..|s| - 1], cut, i);
    }
  }

  lemma {:induction false} TrimRightDrops(s: string, t: string, cut: char -> bool)
    requires AllCut(t, cut)
    ensures TrimRight(s + t, cut) == TrimRight(s, cut)
  {
    if t == "" {
      assert s + t == s;
    } else {
      var front := t[..|t| - 1];
      assert (s + t)[..|s + t| - 1] == s + front;
      TrimRightDrops(s, front, cut);
    }
  }

  lemma {:induction false} TrimRightCuts(s: string, cut: char -> bool)
    ensures AllCut(s[|TrimRight(s, cut)|..], cut)
  {
    if s != "" && cut(s[|s| - 1]) {
      var front := s[..|s| - 1];
      TrimRightCuts(front, cut);
      assert s[|TrimRight(s, cut)|..] == front[|TrimRight(s, cut)|..] + [s[|s| - 1]];
    }
  }

  /** Trimming the end first changes nothing. */
  lemma {:induction false} TrimRightTwice(a: string, x: string, cut: char -> bool)
    ensures TrimRight(a + TrimRight(x, cut), cut) == TrimRight(a + x, cut)
  {
    var r := TrimRight(x, cut);
    TrimRightCuts(x, cut);
    TrimRightDrops(a + r, x[|r|..], cut);
    assert a + r + x[|r|..] == a + x;
  }

  lemma {:induction false} TrimSpaceDrops(s: string, t: string)
    requires AllCut(t, IsSpace)
    ensures TrimSpace(s + t) == TrimSpace(s)
  {
    if s == "" {
      assert s + t == t;
      TrimLeftAll(t);
    } else if IsSpace(s[0]) {
      assert (s + t)[1..] == s[1..] + t;
      TrimSpaceDrops(s[1..], t);
    } else {
      TrimRightDrops(s, t, IsSpace);
    }
  }

  lemma {:induction false} TrimLeftAll(t: string)
    requires AllCut(t, IsSpace)
    ensures TrimLeft(t, IsSpace) == ""
  {
    if t != "" {
      TrimLeftAll(t[1..]);
    }
  }

  lemma {:induction false} TrimLeftIsExact(s: string, cut: char -> bool) returns (a: string)
    ensures s == a + TrimLeft(s, cut) && AllCut(a, cut)
    ensures TrimLeft(s, cut) != "" ==> !cut(TrimLeft(s, cut)[0])
  {
    a := "";
    if s != "" && cut(s[0]) {
      var rest := TrimLeftIsExact(s[1..], cut);
      a := [s[0]] + rest;
    }
  }

  lemma {:induction false} TrimRightStops(s: string, cut: char -> bool)
    ensures TrimRight(s, cut) != "" ==> !cut(TrimRight(s, cut)[|TrimRight(s, cut)| - 1])
  {
    if s != "" && cut(s[|s| - 1]) {
      TrimRightStops(s[..|s| - 1], cut);
    }
  }

  /** `r` is `s` without the white space on both sides. */
  ghost predicate IsTrimmed(r: string, s: string) {
    && (r != "" ==> !IsSpace(r[0]) && !IsSpace(r[|r| - 1]))
    && exists a, b :: InSpace(r, s, a, b)
  }

  ghost predicate InSpace(r: string, s: string, a: string, b: string) {
    s == a + r + b && AllCut(a, IsSpace) && AllCut(b, IsSpace)
  }

  lemma {:induction false} TrimSpaceIsExact(s: string)
    ensures IsTrimmed(TrimSpace(s), s)
  {
    var left, r := TrimLeft(s, IsSpace), TrimSpace(s);
    var a := TrimLeftIsExact(s, IsSpace);
    var b := left[|r|..];
    TrimRightCuts(left, IsSpace);
    TrimRightStops(left, IsSpace);
    assert left == r + b;
    assert InSpace(r, s, a, b);
  }
}
