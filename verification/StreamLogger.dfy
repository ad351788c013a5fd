/**
 The `streamLogger` object (agent/internal/agent/executor.go:299-459): it sees the response in
 pieces of any size, byte by byte, and must end up with what the whole response contains.
 */
module StreamLogger {
  import opened Text
  import opened SseLog

  datatype Format = Anthropic | OpenAI

  /** What a sequence of lines adds up to; `[DONE]` lines are skipped. */
  function ReadLines(codec: Codec, format: Format, lines: seq<Bytes>): Accum {
    match format
    case Anthropic => FoldEvents(EMPTY, AnthropicEvents(codec, lines))
    case OpenAI => FoldDeltas(EMPTY, OpenAIDeltas(codec, lines))
  }

  function AddLine(codec: Codec, format: Format, a: Accum, line: Bytes): Accum {
    match format
    case Anthropic => FoldEvents(a, AnthropicLine(codec, line))
    case OpenAI => FoldDeltas(a, OpenAILine(codec, line))
  }

  lemma {:induction false} ReadLinesSnoc(codec: Codec, format: Format, lines: seq<Bytes>, line: Bytes)
    ensures ReadLines(codec, format, lines + [line]) == AddLine(codec, format, ReadLines(codec, format, lines), line)
  {
    FoldLine(codec, lines, line);
  }

  /** An empty last line adds nothing. */
  lemma {:induction false} EmptyLine(codec: Codec, format: Format, a: Accum)
    requires codec.Valid()
    ensures AddLine(codec, format, a, "") == a
  {
  }

  lemma {:induction false} LastLine(codec: Codec, format: Format, data: Bytes, a: Accum)
    requires codec.Valid() && a == ReadLines(codec, format, Complete(data))
    ensures ReadLines(codec, format, Lines(data)) == AddLine(codec, format, a, Unfinished(data))
    ensures Unfinished(data) == "" ==> ReadLines(codec, format, Lines(data)) == a
  {
    ReadLinesSnoc(codec, format, Complete(data), Unfinished(data));
    assert Complete(data) + [Unfinished(data)] == Lines(data);
    EmptyLine(codec, format, a);
  }

  /** The complete lines of a stream, and the unfinished last one. */
  function Complete(data: Bytes): seq<Bytes> {
    Lines(data)[..|Lines(data)| - 1]
  }

  function Unfinished(data: Bytes): Bytes {
    Lines(data)[|Lines(data)| - 1]
  }

  /** One more byte ends the unfinished line or extends it. */
  lemma {:induction false} OneByte(data: Bytes, c: char)
    ensures c == '\n' ==> Complete(data + [c]) == Complete(data) + [Unfinished(data)] && Unfinished(data + [c]) == ""
    ensures c != '\n' ==> Complete(data + [c]) == Complete(data) && Unfinished(data + [c]) == Unfinished(data) + [c]
  {
    assert (data + [c])[..|data|] == data;
    var before := Lines(data);
    assert before == before[..|before| - 1] + [before[|before| - 1]];
  }

  class StreamLogger {
    const codec: Codec
    const format: Format
    var lineBuf: Bytes
    var accumContent: string
    var accumReasoning: string
    var accumTools: map<int, ToolCall>
    var logged: seq<OutputLog>     // calls recorded in the request log
    ghost var seen: Bytes          // everything read so far

    constructor (codec: Codec, format: Format)
      requires codec.Valid()
      ensures Valid() && seen == "" && logged == []
      ensures this.codec == codec && this.format == format
    {
      this.codec, this.format := codec, format;
      lineBuf, accumContent, accumReasoning, accumTools, logged, seen := "", "", "", map[], [], "";
      new;
      assert Complete("") == [];
    }

    function Accumulated(): Accum
      reads this
    {
      Accum(accumContent, accumReasoning, accumTools)
    }

    /** Exactly the complete lines have been accumulated; the rest is buffered. */
    ghost predicate Valid()
      reads this
    {
      && codec.Valid()
      && lineBuf == Unfinished(seen)
      && Accumulated() == ReadLines(codec, format, Complete(seen))
    }

    /**
     One `Read` of the wrapped reader gave `p`; `ended` if it also gave an error, as at the end of
     the response. Then the unfinished line is processed and the call is logged.
     */
    method Read(p: Bytes, ended: bool)
      requires Valid()
      modifies this
      ensures seen == old(seen) + p
      ensures !ended ==> Valid() && logged == old(logged)
      ensures ended && format.Anthropic? ==> logged == old(logged) + [Log(FoldEvents(EMPTY, AnthropicEvents(codec, Lines(seen))))]
      ensures ended && format.OpenAI? ==> logged == old(logged) + [Log(FoldDeltas(EMPTY, OpenAIDeltas(codec, Lines(seen))))]
    {
      for k := 0 to |p|
        invariant Valid() && logged == old(logged) && seen == old(seen) + p[..k]
      {
        ReadByte(p[k]);
        OneMore(old(seen), p, k);
      }
      assert old(seen) + p[..|p|] == old(seen) + p;
      if ended {
        ReadEnd();
      }
    }

    method ReadByte(b: char)
      requires Valid()
      modifies this`lineBuf, this`accumContent, this`accumReasoning, this`accumTools, this`seen
      ensures Valid() && seen == old(seen) + [b]
    {
      OneByte(seen, b);
      ReadLinesSnoc(codec, format, Complete(seen), Unfinished(seen));
      if b == '\n' {
        ProcessLine(lineBuf);
        lineBuf := "";
      } else {
        lineBuf := lineBuf + [b];
      }
      seen := seen + [b];
    }

    method ReadEnd()
      requires Valid()
      modifies this
      ensures seen == old(seen)
      ensures logged == old(logged) + [Log(ReadLines(codec, format, Lines(seen)))]
    {
      ReadUnfinished();
      FlushToLog();
    }

    method ReadUnfinished()
      requires Valid()
      modifies this`lineBuf, this`accumContent, this`accumReasoning, this`accumTools
      ensures Accumulated() == ReadLines(codec, format, Lines(seen))
    {
      LastLine(codec, format, seen, Accumulated());
      if |lineBuf| > 0 {
        ProcessLine(lineBuf);
        lineBuf := "";
      }
    }

    method ProcessLine(line: Bytes)
      requires codec.Valid()
      modifies this`accumContent, this`accumReasoning, this`accumTools
      ensures Accumulated() == AddLine(codec, format, old(Accumulated()), line)
    {
      var payload := Payload(codec, line);
      if payload.None? {
        return;
      }
      if payload.value == "" || payload.value == DONE {
        return;
      }
      var a := Accumulated();
      match format {
        case Anthropic => a := AccumAnthropicChunk(codec, payload.value, a);
        case OpenAI => a := AccumOpenAIChunk(codec, payload.value, a);
      }
      accumContent, accumReasoning, accumTools := a.content, a.reasoning, a.tools;
    }

    method FlushToLog()
      modifies this`logged
      ensures logged == old(logged) + [Log(Accumulated())]
    {
      var toolCalls := SortedToolCalls(accumTools);
      logged := logged + [OutputLog(accumContent, accumReasoning, toolCalls)];
    }
  }

  // ---- Lines, without an algorithm ----

  function Join(lines: seq<Bytes>): Bytes
    requires lines != []
  {
    if |lines| == 1 then lines[0]
    else Join(lines[..|lines| - 1]) + "\n" + lines[|lines| - 1]
  }

  lemma {:induction false} LinesSplit(data: Bytes)
    ensures Join(Lines(data)) == data
    ensures forall l :: l in Lines(data) ==> '\n' !in l
  {
    if data != "" {
      var front, c := data[..|data| - 1], data[|data| - 1];
      LinesSplit(front);
      assert data == front + [c];
      var before := Lines(front);
      var n := |before| - 1;
      assert before[n] in before;
      if c == '\n' {
        JoinSnoc(before, "");
      } else {
        JoinExtends(before[..n], before[n], c);
        assert before == before[..n] + [before[n]];
      }
    }
  }

  lemma {:induction false} JoinSnoc(lines: seq<Bytes>, line: Bytes)
    requires lines != []
    ensures Join(lines + [line]) == Join(lines) + "\n" + line
  {
    assert (lines + [line])[..|lines|] == lines;
  }

  lemma {:induction false} JoinExtends(front: seq<Bytes>, last: Bytes, c: char)
    ensures Join(front + [last + [c]]) == Join(front + [last]) + [c]
  {
    if front != [] {
      JoinSnoc(front, last);
      JoinSnoc(front, last + [c]);
      Assoc(Join(front) + "\n", last, [c]);
    }
  }
}
