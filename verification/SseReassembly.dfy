/**
 What the loggers rebuild from a stream: when the incremental and the batch logger agree, and
 that both rebuild what an unstreamed response says (agent/internal/agent/executor.go:338-459,
 proxy/internal/logger/parse.go:252-462).
 */
module SseReassembly {
  import opened Text
  import opened Sorting
  import opened SseLog

  // ---- After [DONE] ----

  /** `b` is `a` with more text and more tool calls. */
  ghost predicate Grows(a: map<int, ToolCall>, b: map<int, ToolCall>) {
    forall k :: k in a ==> k in b && b[k].(arguments := a[k].arguments) == a[k] && a[k].arguments <= b[k].arguments
  }

  lemma {:induction false} GrowsAntisymmetric(a: map<int, ToolCall>, b: map<int, ToolCall>)
    requires Grows(a, b) && Grows(b, a)
    ensures a == b
  {
    forall k ensures k in a <==> k in b {
    }
    forall k | k in a ensures a[k] == b[k] {
      assert a[k].arguments == b[k].arguments;
    }
  }

  lemma {:induction false} FragmentsGrow(a: map<int, ToolCall>, fs: seq<Fragment>)
    ensures Grows(a, AddFragments(a, fs))
  {
    if fs != [] {
      FragmentsGrow(a, fs[..|fs| - 1]);
    }
  }

  /** A fragment that changes nothing: empty, for a tool call that is already there. */
  predicate InertFragment(tools: map<int, ToolCall>, f: Fragment) {
    f.index in tools && f.arguments == ""
  }

  lemma {:induction false} FragmentIsInert(tools: map<int, ToolCall>, f: Fragment)
    ensures AddFragment(tools, f) == tools <==> InertFragment(tools, f)
  {
    if f.index in tools {
      var call := tools[f.index];
      assert AddFragment(tools, f)[f.index].arguments == call.arguments + f.arguments;
      assert f.arguments == "" ==> call.arguments + f.arguments == call.arguments;
    }
  }

  lemma {:induction false} FragmentsAreInert(tools: map<int, ToolCall>, fs: seq<Fragment>)
    ensures AddFragments(tools, fs) == tools <==> forall f :: f in fs ==> InertFragment(tools, f)
  {
    if fs != [] {
      var front, last := fs[..|fs| - 1], fs[|fs| - 1];
      FragmentsAreInert(tools, front);
      FragmentsGrow(tools, front);
      var middle := AddFragments(tools, front);
      OneFragmentGrows(middle, last);
      if AddFragments(tools, fs) == tools {
        GrowsAntisymmetric(tools, middle);
      }
      FragmentIsInert(tools, last);
      assert fs == front + [last];
    }
  }

  lemma {:induction false} OneFragmentGrows(tools: map<int, ToolCall>, f: Fragment)
    ensures Grows(tools, AddFragment(tools, f))
  {
  }

  ghost predicate GrowsAll(a: Accum, b: Accum) {
    a.content <= b.content && a.reasoning <= b.reasoning && Grows(a.tools, b.tools)
  }

  lemma {:induction false} GrowsTransitive(a: Accum, b: Accum, c: Accum)
    requires GrowsAll(a, b) && GrowsAll(b, c)
    ensures GrowsAll(a, c)
  {
  }

  lemma {:induction false} GrowsAllAntisymmetric(a: Accum, b: Accum)
    requires GrowsAll(a, b) && GrowsAll(b, a)
    ensures a == b
  {
    GrowsAntisymmetric(a.tools, b.tools);
  }

  lemma {:induction false} DeltaGrows(a: Accum, d: OpenAIDelta)
    ensures GrowsAll(a, AddDelta(a, d))
  {
    FragmentsGrow(a.tools, d.tools);
  }

  lemma {:induction false} DeltasGrow(a: Accum, ds: seq<OpenAIDelta>)
    ensures GrowsAll(a, FoldDeltas(a, ds))
  {
    if ds != [] {
      DeltasGrow(a, ds[..|ds| - 1]);
      DeltaGrows(FoldDeltas(a, ds[..|ds| - 1]), ds[|ds| - 1]);
      GrowsTransitive(a, FoldDeltas(a, ds[..|ds| - 1]), FoldDeltas(a, ds));
    }
  }

  /** The chunk adds nothing to what has been accumulated. */
  ghost predicate AddsNothing(a: Accum, d: OpenAIDelta) {
    d.content == "" && d.reasoning == "" && forall f :: f in d.tools ==> InertFragment(a.tools, f)
  }

  lemma {:induction false} DeltaIsInert(a: Accum, d: OpenAIDelta)
    ensures AddDelta(a, d) == a <==> AddsNothing(a, d)
  {
    FragmentsAreInert(a.tools, d.tools);
    assert |a.content + d.content| == |a.content| <==> d.content == "";
    assert |a.reasoning + d.reasoning| == |a.reasoning| <==> d.reasoning == "";
    assert a.content + "" == a.content && a.reasoning + "" == a.reasoning;
  }

  lemma {:induction false} DeltasAreInert(a: Accum, ds: seq<OpenAIDelta>)
    ensures FoldDeltas(a, ds) == a <==> forall d :: d in ds ==> AddsNothing(a, d)
  {
    if ds != [] {
      var front, last := ds[..|ds| - 1], ds[|ds| - 1];
      DeltasAreInert(a, front);
      DeltasGrow(a, front);
      var middle := FoldDeltas(a, front);
      DeltaGrows(middle, last);
      if FoldDeltas(a, ds) == a {
        GrowsAllAntisymmetric(a, middle);
      }
      DeltaIsInert(a, last);
      assert ds == front + [last];
    }
  }

  lemma {:induction false} CallsDecide(x: map<int, ToolCall>, y: map<int, ToolCall>)
    requires x.Keys == y.Keys && SortedCalls(x) == SortedCalls(y)
    ensures x == y
  {
    var p := Ascending(x.Keys);
    forall k | k in x ensures x[k] == y[k] {
      assert k in p;
      var i :| 0 <= i < |p| && p[i] == k;
      assert SortedCalls(x)[i] == x[k] && SortedCalls(y)[i] == y[k];
    }
  }

  /** Accumulators that only grew and give the same log are the same. */
  lemma {:induction false} LogDecides(a: Accum, b: Accum)
    requires GrowsAll(a, b) && Log(a) == Log(b)
    ensures a == b
  {
    assert |SortedCalls(a.tools)| == |a.tools.Keys| && |SortedCalls(b.tools)| == |b.tools.Keys|;
    SameSize(a.tools.Keys, b.tools.Keys);
    CallsDecide(a.tools, b.tools);
  }

  lemma {:induction false} SameSize(a: set<int>, b: set<int>)
    requires a <= b && |a| == |b|
    ensures a == b
  {
    assert b == a + (b - a);
    assert |b - a| == 0;
  }

  lemma {:induction false} OpenAIDeltasAppend(codec: Codec, x: seq<Bytes>, y: seq<Bytes>)
    ensures OpenAIDeltas(codec, x + y) == OpenAIDeltas(codec, x) + OpenAIDeltas(codec, y)
    decreases |y|
  {
    if y == [] {
      assert x + y == x;
    } else {
      var front, last := y[..|y| - 1], y[|y| - 1];
      OpenAIDeltasAppend(codec, x, front);
      assert (x + y)[..|x + y| - 1] == x + front;
      Assoc(OpenAIDeltas(codec, x), OpenAIDeltas(codec, front), OpenAILine(codec, last));
    }
  }

  // ---- OpenAI: fragments of tool calls ----

  /** The fragments of tool call `k`, in order of arrival. */
  function Of(fs: seq<Fragment>, k: int): seq<Fragment> {
    if fs == [] then []
    else
      var last := fs[|fs| - 1];
      Of(fs[..|fs| - 1], k) + if last.index == k then [last] else []
  }

  function Arguments(fs: seq<Fragment>): string {
    if fs == [] then "" else Arguments(fs[..|fs| - 1]) + fs[|fs| - 1].arguments
  }

  /** A tool call is named by its first fragment and has the arguments of all. */
  function Assembled(fs: seq<Fragment>): ToolCall
    requires fs != []
  {
    ToolCall(fs[0].id, fs[0].kind, fs[0].name, Arguments(fs))
  }

  lemma {:induction false} ArgumentsSnoc(fs: seq<Fragment>, f: Fragment)
    ensures Arguments(fs + [f]) == Arguments(fs) + f.arguments
  {
    assert (fs + [f])[..|fs|] == fs;
  }

  /** However the indices are interleaved, each tool call is assembled from its own fragments. */
  lemma {:induction false} ToolsAreAssembled(fs: seq<Fragment>, k: int)
    ensures var tools := AddFragments(map[], fs);
            && (k in tools <==> Of(fs, k) != [])
            && (k in tools ==> tools[k] == Assembled(Of(fs, k)))
  {
    if fs != [] {
      var front, last := fs[..|fs| - 1], fs[|fs| - 1];
      ToolsAreAssembled(front, k);
      if last.index == k {
        ArgumentsSnoc(Of(front, k), last);
      } else {
        assert Of(fs, k) == Of(front, k);
      }
    }
  }

  function Fragments(ds: seq<OpenAIDelta>): seq<Fragment> {
    if ds == [] then [] else Fragments(ds[..|ds| - 1]) + ds[|ds| - 1].tools
  }

  function Content(ds: seq<OpenAIDelta>): string {
    if ds == [] then "" else Content(ds[..|ds| - 1]) + ds[|ds| - 1].content
  }

  function Reasoning(ds: seq<OpenAIDelta>): string {
    if ds == [] then "" else Reasoning(ds[..|ds| - 1]) + ds[|ds| - 1].reasoning
  }

  lemma {:induction false} AddFragmentsAppend(tools: map<int, ToolCall>, x: seq<Fragment>, y: seq<Fragment>)
    ensures AddFragments(tools, x + y) == AddFragments(AddFragments(tools, x), y)
    decreases |y|
  {
    if y == [] {
      assert x + y == x;
    } else {
      AddFragmentsAppend(tools, x, y[..|y| - 1]);
      assert (x + y)[..|x + y| - 1] == x + y[..|y| - 1];
    }
  }

  lemma {:induction false} FoldIsFieldwise(ds: seq<OpenAIDelta>)
    ensures FoldDeltas(EMPTY, ds) == Accum(Content(ds), Reasoning(ds), AddFragments(map[], Fragments(ds)))
  {
    if ds != [] {
      FoldIsFieldwise(ds[..|ds| - 1]);
      AddFragmentsAppend(map[], Fragments(ds[..|ds| - 1]), ds[|ds| - 1].tools);
    }
  }

  // ---- When the two loggers agree ----

  /** No text, and only empty fragments of tool calls that have a fragment in `before`. */
  ghost predicate Inert(before: seq<OpenAIDelta>, d: OpenAIDelta) {
    && d.content == "" && d.reasoning == ""
    && forall f :: f in d.tools ==> f.arguments == "" && Of(Fragments(before), f.index) != []
  }

  lemma {:induction false} InertAddsNothing(before: seq<OpenAIDelta>, d: OpenAIDelta)
    ensures Inert(before, d) <==> AddsNothing(FoldDeltas(EMPTY, before), d)
  {
    FoldIsFieldwise(before);
    forall f: Fragment ensures f.index in FoldDeltas(EMPTY, before).tools <==> Of(Fragments(before), f.index) != [] {
      ToolsAreAssembled(Fragments(before), f.index);
    }
  }

  /**
   The incremental logger reads on after `[DONE]`, the batch logger stops. On an OpenAI stream they
   log the same if and only if every chunk after the first `[DONE]` is inert: no text, and only
   empty fragments of tool calls that have a fragment before it.
   */
  lemma {:induction false} OpenAILoggersAgree(codec: Codec, data: Bytes, n: nat)
    requires FirstDone(codec, Lines(data), n)
    ensures var lines := Lines(data);
            var before := OpenAIDeltas(codec, lines[..n]);
            Log(FoldDeltas(EMPTY, OpenAIDeltas(codec, lines))) == Log(FoldDeltas(EMPTY, before)) <==>
              forall d :: d in OpenAIDeltas(codec, lines[n..]) ==> Inert(before, d)
  {
    var lines := Lines(data);
    var before, after := OpenAIDeltas(codec, lines[..n]), OpenAIDeltas(codec, lines[n..]);
    assert lines == lines[..n] + lines[n..];
    OpenAIDeltasAppend(codec, lines[..n], lines[n..]);
    FoldAppend(EMPTY, before, after);
    var batch := FoldDeltas(EMPTY, before);
    DeltasGrow(batch, after);
    DeltasAreInert(batch, after);
    forall d: OpenAIDelta ensures Inert(before, d) <==> AddsNothing(batch, d) {
      InertAddsNothing(before, d);
    }
    if Log(FoldDeltas(batch, after)) == Log(batch) {
      LogDecides(batch, FoldDeltas(batch, after));
    }
  }

  /** A stream without `[DONE]` is logged alike: the batch parser, too, reads it to its end. */
  lemma {:induction false} WithoutDoneLoggersAgree(codec: Codec, data: Bytes)
    requires forall k | 0 <= k < |Lines(data)| :: Payload(codec, Lines(data)[k]) != Some(DONE)
    ensures var lines := Lines(data);
            FirstDone(codec, lines, |lines|) &&
            Log(FoldDeltas(EMPTY, OpenAIDeltas(codec, lines))) ==
              Log(FoldDeltas(EMPTY, OpenAIDeltas(codec, lines[..DoneIndex(codec, lines)])))
  {
    var lines := Lines(data);
    assert DoneIndex(codec, lines) == |lines|;
    assert lines[..|lines|] == lines;
  }

  lemma {:induction false} OneLine(a: Bytes)
    requires '\n' !in a
    ensures Lines(a) == [a]
  {
    if a != "" {
      OneLine(a[..|a| - 1]);
      assert a == a[..|a| - 1] + [a[|a| - 1]];
    }
  }

  lemma {:induction false} LineAfterLine(a: Bytes, b: Bytes)
    requires '\n' !in a && '\n' !in b
    ensures Lines(a + "\n" + b) == [a, b]
  {
    var all := a + "\n" + b;
    if b == "" {
      OneLine(a);
      assert all[..|all| - 1] == a;
    } else {
      var front := b[..|b| - 1];
      LineAfterLine(a, front);
      assert all[..|all| - 1] == a + "\n" + front;
      assert b == front + [b[|b| - 1]];
      assert [a, front][..1] + [b] == [a, b];
    }
  }

  /** For example, the text of a chunk after `[DONE]` is logged by the incremental logger only. */
  lemma {:induction false} TextAfterDone(codec: Codec, done: Bytes, chunk: Bytes, d: OpenAIDelta)
    requires '\n' !in done && '\n' !in chunk
    requires Payload(codec, done) == Some(DONE) && OpenAILine(codec, chunk) == [d] && d.content != ""
    ensures var lines := Lines(done + "\n" + chunk);
            && Log(FoldDeltas(EMPTY, OpenAIDeltas(codec, lines[..DoneIndex(codec, lines)]))).content == ""
            && Log(FoldDeltas(EMPTY, OpenAIDeltas(codec, lines))).content == d.content
  {
    LineAfterLine(done, chunk);
    var lines := [done, chunk];
    assert DoneIndex(codec, lines) == 0;
    assert lines[..1] == [done] && lines[..1][..0] == [];
    assert OpenAIDeltas(codec, [done]) == OpenAIDeltas(codec, []) + OpenAILine(codec, done);
    assert OpenAIDeltas(codec, lines) == [] + [d];
    FoldIsFieldwise([d]);
    assert [d][..0] == [] && Content([d]) == "" + d.content;
  }

  // ---- Streamed and unstreamed messages ----

  /** An unstreamed OpenAI message. */
  datatype OpenAIMessage = OpenAIMessage(content: string, reasoning: string, toolCalls: seq<ToolCall>)

  /** `parseOpenAIJSON`; `choices` is the decoded body. */
  method ParseOpenAIJSON(choices: Option<seq<OpenAIMessage>>) returns (log: OutputLog)
    ensures log == if choices.None? || choices.value == [] then OutputLog("", "", [])
                   else OutputLog(choices.value[0].content, choices.value[0].reasoning, choices.value[0].toolCalls)
  {
    if choices.None? || |choices.value| == 0 {
      return OutputLog("", "", []);
    }
    var msg := choices.value[0];
    var calls: seq<ToolCall> := [];
    for k := 0 to |msg.toolCalls|
      invariant calls == msg.toolCalls[..k]
    {
      var tc := msg.toolCalls[k];
      calls := calls + [ToolCall(tc.id, tc.kind, tc.name, tc.arguments)];
    }
    return OutputLog(msg.content, msg.reasoning, calls);
  }

  /**
   A stream of deltas whose tool calls are numbered 0..n-1 is logged as `log` if and only if its text
   fragments concatenate to the texts of `log`, each call's first fragment names the call and the
   call's fragments concatenate to its arguments, in whatever order the calls are interleaved.
   */
  lemma {:induction false} OpenAIReassembly(ds: seq<OpenAIDelta>, log: OutputLog)
    requires forall k: int :: Of(Fragments(ds), k) != [] <==> 0 <= k < |log.toolCalls|
    ensures Log(FoldDeltas(EMPTY, ds)) == log <==>
            && Content(ds) == log.content
            && Reasoning(ds) == log.reasoning
            && forall k | 0 <= k < |log.toolCalls| :: Assembled(Of(Fragments(ds), k)) == log.toolCalls[k]
  {
    FoldIsFieldwise(ds);
    CallsAreAssembled(Fragments(ds), |log.toolCalls|);
    SameCalls(SortedCalls(AddFragments(map[], Fragments(ds))), log.toolCalls);
  }

  lemma {:induction false} CallsAreAssembled(fs: seq<Fragment>, n: nat)
    requires forall k: int :: Of(fs, k) != [] <==> 0 <= k < n
    ensures var calls := SortedCalls(AddFragments(map[], fs));
            |calls| == n && forall k | 0 <= k < n :: calls[k] == Assembled(Of(fs, k))
  {
    var tools := AddFragments(map[], fs);
    forall k: int ensures k in tools <==> 0 <= k < n {
      ToolsAreAssembled(fs, k);
    }
    CallsOfRange(tools, n);
    forall k | 0 <= k < n ensures tools[k] == Assembled(Of(fs, k)) {
      ToolsAreAssembled(fs, k);
    }
  }

  lemma {:induction false} SameCalls(a: seq<ToolCall>, b: seq<ToolCall>)
    requires |a| == |b|
    ensures a == b <==> forall k | 0 <= k < |b| :: a[k] == b[k]
  {
  }

  /** Tool calls numbered 0..n-1 are logged in that order. */
  lemma {:induction false} CallsOfRange(tools: map<int, ToolCall>, n: nat)
    requires forall k: int :: k in tools <==> 0 <= k < n
    ensures |SortedCalls(tools)| == n
    ensures forall k | 0 <= k < n :: SortedCalls(tools)[k] == tools[k]
  {
    assert tools.Keys == Range(n);
    AscendingRange(n);
  }
}
