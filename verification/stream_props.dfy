/** Properties of the streamed decoder `ChatApi.QueryStream`: the budget,
    the exact cut at the budget, early termination, tolerance of noise
    lines, and the three wire formats. */
module StreamProps {
  import opened Text
  import opened Options
  import opened Json
  import opened ChatApi

  lemma TakeAppend(a: string, b: string, n: int)
    requires |a| <= n
    ensures Take(a + b, n) == a + Take(b, n - |a|)
  {
    if n - |a| < |b| {
      assert (a + b)[..n] == a + b[..n - |a|];
    }
  }

  lemma ConcatCons(c: string, rest: seq<string>)
    ensures Concat([c] + rest) == c + Concat(rest)
  {
    assert ([c] + rest)[1..] == rest;
  }

  /** From a running count within the budget, the loop emits exactly the
      offered text cut at the remaining budget. */
  lemma {:induction false} FoldTakes(lines: seq<string>, parse: string -> Option<Json>, maxChars: int, count: int)
    requires 0 <= count <= maxChars
    ensures Concat(Fold(lines, parse, maxChars, count).chunks) == Take(Concat(Offered(lines, parse)), maxChars - count)
    decreases |lines|, 1
  {
    if |lines| > 0 {
      var step := Classify(lines[0], parse);
      if step == Skip {
        FoldTakes(lines[1..], parse, maxChars, count);
      } else if step.Chunk? {
        FoldTakesChunk(lines, parse, maxChars, count, step.text);
      }
    }
  }

  lemma {:induction false} FoldTakesChunk(lines: seq<string>, parse: string -> Option<Json>, maxChars: int, count: int, c: string)
    requires 0 <= count <= maxChars
    requires |lines| > 0 && Classify(lines[0], parse) == Chunk(c)
    ensures Concat(Fold(lines, parse, maxChars, count).chunks) == Take(Concat(Offered(lines, parse)), maxChars - count)
    decreases |lines|, 0
  {
    var rest := Concat(Offered(lines[1..], parse));
    OfferedChunk(lines, parse, c);
    FoldChunk(lines, parse, maxChars, count, c);
    if count + |c| > maxChars {
      var cut := Fold(lines, parse, maxChars, count).chunks;
      CutFits(c, rest, cut, maxChars - count);
    } else {
      var y := Fold(lines[1..], parse, maxChars, count + |c|);
      FoldTakes(lines[1..], parse, maxChars, count + |c|);
      ConcatCons(c, y.chunks);
      TakeAppend(c, rest, maxChars - count);
    }
  }

  /** A chunk line: the fold cuts it to the budget and stops, or takes it
      whole and goes on with the rest. */
  lemma FoldChunk(lines: seq<string>, parse: string -> Option<Json>, maxChars: int, count: int, c: string)
    requires |lines| > 0 && Classify(lines[0], parse) == Chunk(c)
    ensures count + |c| > maxChars ==>
              Fold(lines, parse, maxChars, count) == Yield(if maxChars - count > 0 then [c[..maxChars - count]] else [], Stopped)
    ensures count + |c| <= maxChars ==>
              var y := Fold(lines[1..], parse, maxChars, count + |c|);
              Fold(lines, parse, maxChars, count) == Yield([c] + y.chunks, y.end)
  {
  }

  lemma OfferedChunk(lines: seq<string>, parse: string -> Option<Json>, c: string)
    requires |lines| > 0 && Classify(lines[0], parse) == Chunk(c)
    ensures Concat(Offered(lines, parse)) == c + Concat(Offered(lines[1..], parse))
  {
    assert Offered(lines, parse) == [c] + Offered(lines[1..], parse);
    ConcatCons(c, Offered(lines[1..], parse));
  }

  lemma CutFits(c: string, rest: string, cut: seq<string>, k: int)
    requires 0 <= k < |c|
    requires cut == if k > 0 then [c[..k]] else []
    ensures Concat(cut) == Take(c + rest, k)
  {
    assert (c + rest)[..k] == c[..k];
    if k > 0 {
      ConcatCons(c[..k], []);
    }
  }

  /** With a count already past the budget nothing is emitted. */
  lemma {:induction false} FoldOverBudget(lines: seq<string>, parse: string -> Option<Json>, maxChars: int, count: int)
    requires maxChars < count
    ensures Fold(lines, parse, maxChars, count).chunks == []
    decreases |lines|
  {
    if |lines| > 0 && Classify(lines[0], parse) == Skip {
      FoldOverBudget(lines[1..], parse, maxChars, count);
    }
  }

  /** The budget: everything `query_stream` yields, concatenated, is at most
      `maxChars` long, and for a delivered body it is exactly the offered
      text cut at `maxChars` (so it reaches `maxChars` whenever the body
      offers that much). */
  lemma StreamBudget(t: Transport, parse: string -> Option<Json>, maxChars: int)
    ensures |Concat(QueryStream(t, parse, maxChars).chunks)| <= Budget(maxChars)
    ensures t.Delivered? && 0 <= maxChars ==>
              Concat(QueryStream(t, parse, maxChars).chunks) == Take(Concat(Offered(t.lines, parse)), maxChars)
    ensures t.Delivered? && 0 <= maxChars && |Concat(Offered(t.lines, parse))| >= maxChars ==>
              |Concat(QueryStream(t, parse, maxChars).chunks)| == maxChars
  {
    match t
    case Refused =>
      ConcatCons("", []);
    case Delivered(lines, broken) =>
      var y := Fold(lines, parse, maxChars, 0);
      var tail: seq<string> := if y.end == Exhausted && broken then [""] else [];
      ConcatAppend(y.chunks, tail);
      if tail != [] {
        ConcatCons("", []);
      }
      assert Concat(tail) == "";
      assert y.chunks + tail == QueryStream(t, parse, maxChars).chunks;
      if 0 <= maxChars {
        FoldTakes(lines, parse, maxChars, 0);
      } else {
        FoldOverBudget(lines, parse, maxChars, 0);
      }
  }

  /** Once the loop has broken out or raised, later lines are never read:
      appending lines changes nothing. */
  lemma {:induction false} FoldStops(lines: seq<string>, more: seq<string>, parse: string -> Option<Json>, maxChars: int, count: int)
    requires Fold(lines, parse, maxChars, count).end != Exhausted
    ensures Fold(lines + more, parse, maxChars, count) == Fold(lines, parse, maxChars, count)
    decreases |lines|
  {
    assert |lines| > 0;
    var s := lines + more;
    assert s[0] == lines[0];
    DropAppend(lines, more, 1);
    FoldHead(lines, parse, maxChars, count);
    FoldHead(s, parse, maxChars, count);
    var step := Classify(lines[0], parse);
    if step.Skip? {
      FoldStops(lines[1..], more, parse, maxChars, count);
    } else if step.Chunk? && count + |step.text| <= maxChars {
      FoldStops(lines[1..], more, parse, maxChars, count + |step.text|);
    }
  }

  /** The first line read: the fold goes on with the rest as the line's
      step says, or ends with an outcome that the rest cannot change. */
  lemma FoldHead(lines: seq<string>, parse: string -> Option<Json>, maxChars: int, count: int)
    requires |lines| > 0
    ensures var step := Classify(lines[0], parse);
            Fold(lines, parse, maxChars, count)
              == if step.Skip? then Fold(lines[1..], parse, maxChars, count)
                 else if step.Chunk? && count + |step.text| <= maxChars then
                   var y := Fold(lines[1..], parse, maxChars, count + |step.text|);
                   Yield([step.text] + y.chunks, y.end)
                 else Fold([lines[0]], parse, maxChars, count)
  {
    assert [lines[0]][0] == lines[0] && [lines[0]][1..] == [];
  }

  /** The stream ends at the first chunk that overflows the budget, and
      whatever the connection delivers after it is never read. */
  lemma StreamStopsAtBudget(lines: seq<string>, more: seq<string>, broken: bool, parse: string -> Option<Json>, maxChars: int)
    requires Fold(lines, parse, maxChars, 0).end == Stopped
    ensures QueryStream(Delivered(lines + more, broken), parse, maxChars) == QueryStream(Delivered(lines, false), parse, maxChars)
  {
    FoldStops(lines, more, parse, maxChars, 0);
  }

  /** One line read: the fold continues from the rest as the line's step
      says. */
  lemma FoldCons(x: string, rest: seq<string>, parse: string -> Option<Json>, maxChars: int, count: int)
    ensures var step := Classify(x, parse);
            Fold([x] + rest, parse, maxChars, count)
              == if step.Skip? then Fold(rest, parse, maxChars, count)
                 else if step.Chunk? && count + |step.text| <= maxChars then
                   var y := Fold(rest, parse, maxChars, count + |step.text|);
                   Yield([step.text] + y.chunks, y.end)
                 else Fold([x], parse, maxChars, count)
  {
    assert ([x] + rest)[0] == x && ([x] + rest)[1..] == rest;
    assert [x][1..] == [];
  }

  lemma {:induction false} FoldSkips(pre: seq<string>, line: string, post: seq<string>, parse: string -> Option<Json>, maxChars: int, count: int)
    requires Classify(line, parse) == Skip
    ensures Fold(pre + [line] + post, parse, maxChars, count) == Fold(pre + post, parse, maxChars, count)
    decreases |pre|
  {
    if |pre| == 0 {
      assert pre + [line] + post == [line] + post;
      assert pre + post == post;
      FoldCons(line, post, parse, maxChars, count);
    } else {
      var x := pre[0];
      assert pre + [line] + post == [x] + (pre[1..] + [line] + post);
      assert pre + post == [x] + (pre[1..] + post);
      FoldCons(x, pre[1..] + [line] + post, parse, maxChars, count);
      FoldCons(x, pre[1..] + post, parse, maxChars, count);
      var step := Classify(x, parse);
      if step.Skip? {
        FoldSkips(pre[1..], line, post, parse, maxChars, count);
      } else if step.Chunk? && count + |step.text| <= maxChars {
        FoldSkips(pre[1..], line, post, parse, maxChars, count + |step.text|);
      }
    }
  }

  /** A line that is empty, does not parse, or matches no shape leaves the
      stream exactly as if it were absent: decoding continues after it. */
  lemma SkippedLineIsInvisible(pre: seq<string>, line: string, post: seq<string>, broken: bool,
                               parse: string -> Option<Json>, maxChars: int)
    requires Classify(line, parse) == Skip
    ensures QueryStream(Delivered(pre + [line] + post, broken), parse, maxChars)
         == QueryStream(Delivered(pre + post, broken), parse, maxChars)
  {
    FoldSkips(pre, line, post, parse, maxChars, 0);
  }

  /** Each of the three wire formats yields its text. */
  lemma WireFormats(line: string, parse: string -> Option<Json>, s: string)
    ensures (StartsWith(line, DataPrefix) && Strip(line) != DoneLine && parse(line[6..]).Some?
             && OpenAiShape(parse(line[6..]).value, s)) ==> Classify(line, parse) == Chunk(s)
    ensures (StartsWith(line, DataPrefix) && Strip(line) != DoneLine && parse(line[6..]).Some?
             && AnthropicShape(parse(line[6..]).value, s)) ==> Classify(line, parse) == Chunk(s)
    ensures (|line| > 0 && !StartsWith(line, DataPrefix) && parse(line).Some?
             && OllamaShape(parse(line).value, s)) ==> Classify(line, parse) == Chunk(s)
  {
  }

  /** Conversely, non-empty text comes only from those formats: the OpenAI
      or Anthropic shape after `data: `, the Ollama shape on a bare line. */
  lemma TextOnlyFromWireFormats(line: string, parse: string -> Option<Json>, s: string)
    requires Classify(line, parse) == Chunk(s)
    requires s != ""
    ensures StartsWith(line, DataPrefix) ==>
              parse(line[6..]).Some? && (OpenAiShape(parse(line[6..]).value, s) || AnthropicShape(parse(line[6..]).value, s))
    ensures !StartsWith(line, DataPrefix) ==> parse(line).Some? && OllamaShape(parse(line).value, s)
  {
  }

  // ---------------------------------------------------------------------
  // Worked examples (the parse oracle maps each payload to its JSON value)
  // ---------------------------------------------------------------------

  function OpenAiChunk(s: string): Json {
    JObj(map["choices" := JArr([JObj(map["delta" := JObj(map["content" := JStr(s)])])])])
  }

  function ExampleParse(payload: string): Option<Json> {
    if payload == "{1}" then Some(OpenAiChunk("Hello "))
    else if payload == "{2}" then Some(OpenAiChunk("this is a "))
    else if payload == "{3}" then Some(OpenAiChunk("very long message"))
    else None
  }

  lemma ExampleLine(line: string, payload: string, s: string)
    requires 6 <= |line| < |DoneLine| && line[..6] == DataPrefix && line[6..] == payload
    requires || (payload == "{1}" && s == "Hello ")
             || (payload == "{2}" && s == "this is a ")
             || (payload == "{3}" && s == "very long message")
    ensures Classify(line, ExampleParse) == Chunk(s)
  {
    assert |Strip(line)| <= |line| < |DoneLine|;
    assert ExampleParse(line[6..]) == Some(OpenAiChunk(s));
    assert OpenAiShape(OpenAiChunk(s), s);
    WireFormats(line, ExampleParse, s);
  }

  lemma OfferedCons(lines: seq<string>, parse: string -> Option<Json>, c: string)
    requires |lines| > 0 && Classify(lines[0], parse) == Chunk(c)
    ensures Offered(lines, parse) == [c] + Offered(lines[1..], parse)
  {
  }

  const ExampleLines := ["data: {1}", "data: {2}", "data: {3}", "data: [DONE]"]

  lemma OfferedThree(lines: seq<string>, parse: string -> Option<Json>, a: string, b: string, c: string)
    requires |lines| == 4
    requires Classify(lines[0], parse) == Chunk(a)
    requires Classify(lines[1], parse) == Chunk(b)
    requires Classify(lines[2], parse) == Chunk(c)
    requires Classify(lines[3], parse) == Finish
    ensures Offered(lines, parse) == [a, b, c]
  {
    assert Offered(lines[3..], parse) == [];
    OfferedCons(lines[2..], parse, c);
    assert lines[2..][1..] == lines[3..];
    OfferedCons(lines[1..], parse, b);
    assert lines[1..][1..] == lines[2..];
    OfferedCons(lines, parse, a);
  }

  lemma DoneLineFinishes(parse: string -> Option<Json>)
    ensures Classify(DoneLine, parse) == Finish
  {
    StripTrimmed(DoneLine);
    assert DoneLine[..6] == DataPrefix;
  }

  lemma ExampleOffered()
    ensures Offered(ExampleLines, ExampleParse) == ["Hello ", "this is a ", "very long message"]
  {
    var lines := ExampleLines;
    ExampleLine(lines[0], "{1}", "Hello ");
    ExampleLine(lines[1], "{2}", "this is a ");
    ExampleLine(lines[2], "{3}", "very long message");
    DoneLineFinishes(ExampleParse);
    OfferedThree(lines, ExampleParse, "Hello ", "this is a ", "very long message");
  }

  lemma ExampleCut(o: seq<string>)
    requires o == ["Hello ", "this is a ", "very long message"]
    ensures Take(Concat(o), 15) == "Hello this is a"
  {
    var rest := Concat(o[1..]);
    ConcatCons("Hello ", o[1..]);
    assert o[1..] == ["this is a "] + o[2..];
    ConcatCons("this is a ", o[2..]);
    assert rest == "this is a " + Concat(o[2..]);
    TakeAppend("Hello ", rest, 15);
    assert Take(rest, 9) == "this is a";
  }

  /** Budget 15 over "Hello ", "this is a ", "very long message" yields
      "Hello this is a". */
  lemma BudgetExample()
    ensures Concat(QueryStream(Delivered(ExampleLines, false), ExampleParse, 15).chunks) == "Hello this is a"
  {
    ExampleOffered();
    ExampleCut(Offered(ExampleLines, ExampleParse));
    StreamBudget(Delivered(ExampleLines, false), ExampleParse, 15);
  }
}
