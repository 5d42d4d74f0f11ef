/** The thinking-tag filter on concrete shapes of text: one closed span,
    under either pair of tags, between plain text; an aside between runs of
    spaces or of newlines; and the worked examples of replies with a
    private aside. */
module FilterExamples {
  import opened Options
  import opened Text
  import opened ThinkingFilter

  /** A closing tag at `q` with none in `[from, q)` is the nearest one. */
  lemma NearestClose(s: string, from: nat, q: nat)
    requires from <= q
    requires CloserAt(s, q) > 0
    requires forall p :: from <= p < q ==> CloserAt(s, p) == 0
    ensures NextClose(s, from) == Some(q)
  {
  }

  /** `s` spells out `t` from position `i` on. */
  predicate SpelledAt(s: string, i: nat, t: string) {
    i + |t| <= |s| && forall k :: 0 <= k < |t| ==> s[i + k] == t[k]
  }

  /** A pattern matches where the text spells it out. */
  lemma SpelledMatches(s: string, i: nat, pat: string)
    requires SpelledAt(s, i, pat)
    ensures MatchesAt(s, i, pat)
  {
  }

  /** Where no `<` occurs, no span starts. */
  lemma NoOpenerIn(s: string, lo: nat, hi: nat)
    requires lo <= hi <= |s|
    requires forall p :: lo <= p < hi ==> s[p] != '<'
    ensures forall p :: lo <= p < hi ==> SpanAt(s, p).None?
  {
  }

  /** The two opening tags, as written in the pattern. */
  predicate OpenTag(t: string) {
    t == Think || t == Thinking
  }

  /** The two closing tags, as written in the pattern. */
  predicate CloseTag(t: string) {
    t == CloseThink || t == CloseThinking
  }

  /** An opening tag spelled out at `i` is matched there in full:
      `<thinking>` is not taken for `<think>`. */
  lemma TagOpens(s: string, i: nat, open: string)
    requires OpenTag(open) && SpelledAt(s, i, open)
    ensures OpenerAt(s, i) == |open|
  {
    SpelledMatches(s, i, open);
    if open == Thinking {
      assert s[i + 6] == Thinking[6];
      assert !CharMatch(s[i + 6], Think[6]);
    }
  }

  /** A closing tag spelled out at `q` is matched there in full. */
  lemma TagCloses(s: string, q: nat, close: string)
    requires CloseTag(close) && SpelledAt(s, q, close)
    ensures CloserAt(s, q) == |close|
  {
    SpelledMatches(s, q, close);
    if close == CloseThinking {
      assert s[q + 7] == CloseThinking[7];
      assert !CharMatch(s[q + 7], CloseThink[7]);
    }
  }

  /** A stretch that spells out a text without `<` holds no `<`. */
  lemma SpelledNoOpen(s: string, lo: nat, body: string)
    requires '<' !in body && SpelledAt(s, lo, body)
    ensures forall p :: lo <= p < lo + |body| ==> s[p] != '<'
  {
    forall p | lo <= p < lo + |body|
      ensures s[p] != '<'
    {
      assert s[lo + (p - lo)] == body[p - lo];
    }
  }

  /** An opening tag of length `n` at `i`, a closing tag of length `m` at
      `q` and no `<` in between: the span runs from `i` to the end of the
      closing tag. */
  lemma SpanOfParts(s: string, i: nat, n: nat, q: nat, m: nat)
    requires OpenerAt(s, i) == n > 0 && i + n <= q
    requires CloserAt(s, q) == m > 0
    requires forall p :: i + n <= p < q ==> s[p] != '<'
    ensures SpanAt(s, i) == Some(q + m)
  {
    assert forall p :: i + n <= p < q ==> CloserAt(s, p) == 0;
    NearestClose(s, i + n, q);
  }

  /** The span that an opening tag opens ends with the first closing tag
      after a body without `<`. */
  lemma TagSpan(s: string, i: nat, open: string, body: string, close: string)
    requires OpenTag(open) && CloseTag(close) && '<' !in body
    requires SpelledAt(s, i, open)
    requires SpelledAt(s, i + |open|, body)
    requires SpelledAt(s, i + |open| + |body|, close)
    ensures SpanAt(s, i) == Some(i + |open| + |body| + |close|)
  {
    var n, b, m := |open|, |body|, |close|;
    var q := i + n + b;
    TagOpens(s, i, open);
    TagCloses(s, q, close);
    SpelledNoOpen(s, i + n, body);
    SpanOfParts(s, i, n, q, m);
    assert SpanAt(s, i) == Some(q + m);
  }

  /** A lone span at `i`, ending at `e`, with no `<` before or after it:
      removal keeps exactly what lies outside. */
  lemma LoneSpanRemoved(s: string, i: nat, e: nat)
    requires i < e <= |s|
    requires SpanAt(s, i) == Some(e)
    requires forall p :: 0 <= p < i ==> s[p] != '<'
    requires forall p :: e <= p < |s| ==> s[p] != '<'
    ensures RemoveSpans(s) == s[..i] + s[e..]
  {
    var span := Spans(s);
    NoOpenerIn(s, 0, i);
    LeftmostSpan(s, span, 0, i);
    NoOpenerIn(s, e, |s|);
    NoSpanKept(s, span, e);
  }

  /** Each part of a five-part concatenation is spelled out at the sum
      of the lengths before it. */
  lemma FiveSpelled(a: string, b: string, c: string, d: string, e: string)
    ensures var s := a + b + c + d + e;
            && SpelledAt(s, 0, a)
            && SpelledAt(s, |a|, b)
            && SpelledAt(s, |a| + |b|, c)
            && SpelledAt(s, |a| + |b| + |c|, d)
            && SpelledAt(s, |a| + |b| + |c| + |d|, e)
            && |s| == |a| + |b| + |c| + |d| + |e|
  {
  }

  /** A span that runs from the end of `pre` to the start of `post`, with
      no `<` in either, is the only one: removal keeps `pre` and `post`. */
  lemma SpanCutOut(s: string, pre: string, e: nat, post: string)
    requires '<' !in pre && '<' !in post
    requires |pre| < e && e + |post| == |s|
    requires SpelledAt(s, 0, pre) && SpelledAt(s, e, post)
    requires SpanAt(s, |pre|) == Some(e)
    ensures RemoveSpans(s) == pre + post
  {
    SpelledNoOpen(s, 0, pre);
    SpelledNoOpen(s, e, post);
    LoneSpanRemoved(s, |pre|, e);
    assert s[..|pre|] == pre;
    assert s[e..] == post by {
      forall k | 0 <= k < |post|
        ensures s[e..][k] == post[k]
      {
        assert s[e + k] == post[k];
      }
    }
  }

  /** A text spelled out as `pre`, a span and `post`, with no `<` outside
      the tags, loses exactly the span. */
  lemma SpelledSpanRemoved(s: string, pre: string, open: string, body: string, close: string, post: string)
    requires OpenTag(open) && CloseTag(close)
    requires '<' !in pre && '<' !in body && '<' !in post
    requires |s| == |pre| + |open| + |body| + |close| + |post|
    requires SpelledAt(s, 0, pre)
    requires SpelledAt(s, |pre|, open)
    requires SpelledAt(s, |pre| + |open|, body)
    requires SpelledAt(s, |pre| + |open| + |body|, close)
    requires SpelledAt(s, |pre| + |open| + |body| + |close|, post)
    ensures RemoveSpans(s) == pre + post
  {
    TagSpan(s, |pre|, open, body, close);
    SpanCutOut(s, pre, |pre| + |open| + |body| + |close|, post);
  }

  /** One span, with no `<` anywhere else, is removed and the text on
      both sides is joined as it was. */
  lemma OneSpanRemoved(pre: string, open: string, body: string, close: string, post: string)
    requires OpenTag(open) && CloseTag(close)
    requires '<' !in pre && '<' !in body && '<' !in post
    ensures RemoveSpans(pre + open + body + close + post) == pre + post
  {
    FiveSpelled(pre, open, body, close, post);
    SpelledSpanRemoved(pre + open + body + close + post, pre, open, body, close, post);
  }

  /** Text without a newline is left alone by the blank-line collapse. */
  lemma {:induction false} NoNewlineBounded(s: string, seen: nat)
    requires '\n' !in s
    ensures Bounded(s, seen)
  {
    if |s| > 0 {
      assert s[0] != '\n';
      assert forall k :: 0 <= k < |s[1..]| ==> s[1..][k] == s[k + 1];
      NoNewlineBounded(s[1..], if IsSpace(s[0]) then seen else 0);
    }
  }

  /** A word: non-empty, no whitespace, no `<`. */
  predicate Word(w: string) {
    |w| > 0 && forall k :: 0 <= k < |w| ==> !IsSpace(w[k]) && w[k] != '<'
  }

  /** Text that starts without a space passes its first character through
      the space collapse. */
  lemma {:induction false} NoSpacePrefix(a: string, rest: string)
    requires ' ' !in a
    ensures CollapseSpaces(a + rest) == a + CollapseSpaces(rest)
  {
    if |a| > 0 {
      assert (a + rest)[0] == a[0];
      assert (a + rest)[1..] == a[1..] + rest;
      assert ' ' !in a[1..] by {
        assert forall k :: 0 <= k < |a[1..]| ==> a[1..][k] == a[k + 1];
      }
      NoSpacePrefix(a[1..], rest);
      assert [a[0]] + (a[1..] + CollapseSpaces(rest)) == a + CollapseSpaces(rest);
    } else {
      assert a + rest == rest;
    }
  }

  /** Two spaces before a word collapse to one. */
  lemma DoubleSpaceWord(b: string)
    requires Word(b)
    ensures CollapseSpaces("  " + b) == " " + b
  {
    var s := "  " + b;
    assert s[2..] == b;
    assert SpaceRun(s[2..]) == 0;
    assert SpaceRun(s[1..]) == 1 by {
      assert s[1..][1..] == b;
    }
    assert SpaceRun(s) == 2;
    CollapseSpacesKept(b);
  }

  /** Removing the aside leaves the two words with both spaces. */
  lemma AsideRemoved(a: string, body: string, b: string)
    requires Word(a) && Word(b)
    requires '<' !in body
    ensures RemoveSpans(a + " " + Think + body + CloseThink + " " + b) == a + "  " + b
  {
    assert '<' !in a + " " by {
      assert forall k :: 0 <= k < |a| ==> (a + " ")[k] == a[k];
    }
    assert '<' !in " " + b by {
      assert forall k :: 1 <= k < |b| + 1 ==> (" " + b)[k] == b[k - 1];
    }
    assert a + " " + Think + body + CloseThink + " " + b == (a + " ") + Think + body + CloseThink + (" " + b);
    OneSpanRemoved(a + " ", Think, body, CloseThink, " " + b);
    assert (a + " ") + (" " + b) == a + "  " + b;
  }

  /** Two words with two spaces between them hold no newline. */
  lemma WordsNoNewline(a: string, b: string)
    requires Word(a) && Word(b)
    ensures '\n' !in a + "  " + b
  {
    var s := a + "  " + b;
    forall k | 0 <= k < |s|
      ensures s[k] != '\n'
    {
      if k < |a| {
        assert s[k] == a[k];
      } else if k >= |a| + 2 {
        assert s[k] == b[k - |a| - 2];
      }
    }
  }

  /** Two words one space apart have no whitespace at either end. */
  lemma WordsTrimmed(a: string, b: string)
    requires Word(a) && Word(b)
    ensures Strip(a + " " + b) == a + " " + b
  {
    var joined := a + " " + b;
    assert joined[0] == a[0] && joined[|joined| - 1] == b[|b| - 1];
    StripTrimmed(joined);
  }

  lemma WordsKeepLines(a: string, b: string)
    requires Word(a) && Word(b)
    ensures CollapseBlankLines(a + "  " + b) == a + "  " + b
  {
    WordsNoNewline(a, b);
    NoNewlineBounded(a + "  " + b, 0);
    BoundedCollapseKept(a + "  " + b, 0);
  }

  lemma WordsOneSpace(a: string, b: string)
    requires Word(a) && Word(b)
    ensures CollapseSpaces(a + "  " + b) == a + " " + b
  {
    assert ' ' !in a by {
      assert forall k :: 0 <= k < |a| ==> !IsSpace(a[k]);
    }
    assert a + "  " + b == a + ("  " + b);
    NoSpacePrefix(a, "  " + b);
    DoubleSpaceWord(b);
    assert a + (" " + b) == a + " " + b;
  }

  /** The remaining passes turn the two words with two spaces between
      them into the two words with one. */
  lemma WordsJoined(a: string, b: string)
    requires Word(a) && Word(b)
    ensures Strip(CollapseSpaces(CollapseBlankLines(a + "  " + b))) == a + " " + b
  {
    WordsKeepLines(a, b);
    WordsOneSpace(a, b);
    WordsTrimmed(a, b);
  }

  /** An aside between two words, with one space on each side, reaches
      the other agent as the two words one space apart. */
  lemma AsideBetweenWords(a: string, body: string, b: string)
    requires Word(a) && Word(b)
    requires '<' !in body
    ensures FilterThinkingTags(a + " " + Think + body + CloseThink + " " + b).0 == a + " " + b
  {
    AsideRemoved(a, body, b);
    WordsJoined(a, b);
  }

  /** The worked example: "Before <think>This is private thinking</think>
      After" reaches the other agent as "Before After". */
  lemma PrivateAside()
    ensures FilterThinkingTags("Before" + " " + Think + "This is private thinking" + CloseThink + " " + "After").0
         == "Before" + " " + "After"
  {
    AsideBetweenWords("Before", "This is private thinking", "After");
  }

  /** A word is untouched by both collapses and has no whitespace at
      either end. */
  lemma WordUntouched(w: string)
    requires Word(w)
    ensures EndsSolid(w) && StartsSolid(w)
    ensures CollapseBlankLines(w) == w
    ensures CollapseSpaces(w) == w
  {
    assert '\n' !in w by {
      assert forall k :: 0 <= k < |w| ==> !IsSpace(w[k]);
    }
    NoNewlineBounded(w, 0);
    BoundedCollapseKept(w, 0);
    CollapseSpacesKept(w);
  }

  /** Removing an aside that sits between two runs of the same whitespace
      character joins the two runs. */
  lemma AsideBetweenRuns(a: string, c: char, j: nat, open: string, body: string, close: string, k: nat, b: string)
    requires Word(a) && Word(b) && c != '<'
    requires OpenTag(open) && CloseTag(close) && '<' !in body
    ensures RemoveSpans(a + Repeat(c, j) + open + body + close + Repeat(c, k) + b)
         == a + Repeat(c, j + k) + b
  {
    var pre := a + Repeat(c, j);
    var post := Repeat(c, k) + b;
    assert '<' !in pre by {
      forall p | 0 <= p < |pre|
        ensures pre[p] != '<'
      {
        if p < |a| {
          assert pre[p] == a[p];
        }
      }
    }
    assert '<' !in post by {
      forall p | 0 <= p < |post|
        ensures post[p] != '<'
      {
        if p >= k {
          assert post[p] == b[p - k];
        }
      }
    }
    ConcatAssoc(pre + open + body + close, Repeat(c, k), b);
    OneSpanRemoved(pre, open, body, close, post);
    ConcatAssoc(pre, Repeat(c, k), b);
    ConcatAssoc(a, Repeat(c, j), Repeat(c, k));
    RepeatAdd(c, j, k);
  }

  /** The filter's passes, one result at a time. */
  lemma FilterSteps(s: string, removed: string, blank: string, spaced: string, out: string)
    requires RemoveSpans(s) == removed
    requires CollapseBlankLines(removed) == blank
    requires CollapseSpaces(blank) == spaced
    requires Strip(spaced) == out
    ensures FilterThinkingTags(s).0 == out
  {
  }

  /** Two words with only spaces between them hold no newline and so pass
      the blank-line collapse unchanged. */
  lemma SpacedWordsKeepLines(a: string, n: nat, b: string)
    requires Word(a) && Word(b)
    ensures CollapseBlankLines(a + Repeat(' ', n) + b) == a + Repeat(' ', n) + b
  {
    var joined := a + Repeat(' ', n) + b;
    assert '\n' !in joined by {
      forall p | 0 <= p < |joined|
        ensures joined[p] != '\n'
      {
        if p < |a| {
          assert joined[p] == a[p];
        } else if p >= |a| + n {
          assert joined[p] == b[p - |a| - n];
        }
      }
    }
    NoNewlineBounded(joined, 0);
    BoundedCollapseKept(joined, 0);
  }

  /** Two words one space apart: the space collapse of any run of spaces
      between them. */
  lemma SpacedWordsJoined(a: string, n: nat, b: string)
    requires Word(a) && Word(b) && n >= 1
    ensures CollapseSpaces(a + Repeat(' ', n) + b) == a + " " + b
  {
    WordUntouched(a);
    WordUntouched(b);
    SpacesCollapsed(a, n, b);
  }

  /** An aside between two words, with any spaces on either side and at
      least one in all, reaches the other agent as the two words one
      space apart. */
  lemma AsideAmidSpaces(a: string, j: nat, open: string, body: string, close: string, k: nat, b: string)
    requires Word(a) && Word(b) && j + k >= 1
    requires OpenTag(open) && CloseTag(close) && '<' !in body
    ensures FilterThinkingTags(a + Repeat(' ', j) + open + body + close + Repeat(' ', k) + b).0
         == a + " " + b
  {
    var joined := a + Repeat(' ', j + k) + b;
    AsideBetweenRuns(a, ' ', j, open, body, close, k, b);
    SpacedWordsKeepLines(a, j + k, b);
    SpacedWordsJoined(a, j + k, b);
    WordsTrimmed(a, b);
    FilterSteps(a + Repeat(' ', j) + open + body + close + Repeat(' ', k) + b,
                joined, joined, a + " " + b, a + " " + b);
  }

  /** Two lines one blank line apart hold no space and no whitespace at
      either end, so the last two passes leave them alone. */
  lemma BlankLineKept(a: string, b: string)
    requires Word(a) && Word(b)
    ensures CollapseSpaces(a + "\n\n" + b) == a + "\n\n" + b
    ensures Strip(a + "\n\n" + b) == a + "\n\n" + b
  {
    var joined := a + "\n\n" + b;
    assert ' ' !in joined by {
      forall p | 0 <= p < |joined|
        ensures joined[p] != ' '
      {
        if p < |a| {
          assert joined[p] == a[p];
        } else if p >= |a| + 2 {
          assert joined[p] == b[p - |a| - 2];
        }
      }
    }
    CollapseSpacesKept(joined);
    assert joined[0] == a[0] && joined[|joined| - 1] == b[|b| - 1];
    StripTrimmed(joined);
  }

  /** Two lines with three or more newlines between them end up one
      blank line apart. */
  lemma LinesJoined(a: string, n: nat, b: string)
    requires Word(a) && Word(b) && n >= 3
    ensures CollapseBlankLines(a + Repeat('\n', n) + b) == a + "\n\n" + b
  {
    WordUntouched(a);
    WordUntouched(b);
    NewlineRunCollapsed(a, n, b);
  }

  /** Two lines with three or more newlines between them come out of the
      last three passes one blank line apart. */
  lemma LinesFiltered(a: string, n: nat, b: string)
    requires Word(a) && Word(b) && n >= 3
    ensures Strip(CollapseSpaces(CollapseBlankLines(a + Repeat('\n', n) + b))) == a + "\n\n" + b
  {
    LinesJoined(a, n, b);
    BlankLineKept(a, b);
  }

  /** Text whose removal pass leaves two lines with three or more
      newlines between them filters to the two lines one blank line
      apart. */
  lemma LinesAfterRemoval(s: string, a: string, j: nat, k: nat, b: string)
    requires Word(a) && Word(b) && j + k >= 3
    requires RemoveSpans(s) == a + Repeat('\n', j + k) + b
    ensures FilterThinkingTags(s).0 == a + "\n\n" + b
  {
    LinesFiltered(a, j + k, b);
  }

  /** An aside between two lines, with three or more newlines around it
      in all, reaches the other agent as the two lines one blank line
      apart. */
  lemma AsideAmidBlankLines(a: string, j: nat, open: string, body: string, close: string, k: nat, b: string)
    requires Word(a) && Word(b) && j + k >= 3
    requires OpenTag(open) && CloseTag(close) && '<' !in body
    ensures FilterThinkingTags(a + Repeat('\n', j) + open + body + close + Repeat('\n', k) + b).0
         == a + "\n\n" + b
  {
    AsideBetweenRuns(a, '\n', j, open, body, close, k, b);
    LinesAfterRemoval(a + Repeat('\n', j) + open + body + close + Repeat('\n', k) + b, a, j, k, b);
  }

  /** The reply of the whitespace example, as its parts. */
  lemma SpacedAsideParts()
    ensures "Word1    <think>removed</think>    Word2"
         == "Word1" + Repeat(' ', 4) + Think + "removed" + CloseThink + Repeat(' ', 4) + "Word2"
  {
    assert Repeat(' ', 4) == "    ";
    assert "Word1    " == "Word1" + "    ";
    assert "Word1    <think>" == "Word1    " + Think;
    assert "Word1    <think>removed" == "Word1    <think>" + "removed";
    assert "Word1    <think>removed</think>" == "Word1    <think>removed" + CloseThink;
    assert "Word1    <think>removed</think>    " == "Word1    <think>removed</think>" + "    ";
    assert "Word1    <think>removed</think>    Word2" == "Word1    <think>removed</think>    " + "Word2";
  }

  lemma FirstWords()
    ensures Word("Word1") && Word("Word2")
    ensures "Word1" + " " + "Word2" == "Word1 Word2"
  {
  }

  /** The whitespace example's reply filters to the two words. */
  lemma SpacedAsideFiltered(s: string)
    requires s == "Word1" + Repeat(' ', 4) + Think + "removed" + CloseThink + Repeat(' ', 4) + "Word2"
    ensures FilterThinkingTags(s) == ("Word1 Word2", s)
  {
    FirstWords();
    AsideAmidSpaces("Word1", 4, Think, "removed", CloseThink, 4, "Word2");
  }

  /** Four spaces, an aside, four spaces: the words end up one space
      apart, and the original comes back unchanged. */
  lemma WhitespaceCleanup()
    ensures FilterThinkingTags("Word1    <think>removed</think>    Word2")
         == ("Word1 Word2", "Word1    <think>removed</think>    Word2")
  {
    SpacedAsideParts();
    SpacedAsideFiltered("Word1    <think>removed</think>    Word2");
  }

  /** The reply of the newline example, as its parts. */
  lemma BlankAsideParts()
    ensures "Line1\n\n\n<thinking>removed</thinking>\n\n\n\nLine2"
         == "Line1" + Repeat('\n', 3) + Thinking + "removed" + CloseThinking + Repeat('\n', 4) + "Line2"
  {
    assert Repeat('\n', 3) == "\n\n\n";
    assert Repeat('\n', 4) == "\n\n\n\n";
    assert "Line1\n\n\n" == "Line1" + "\n\n\n";
    assert "Line1\n\n\n<thinking>" == "Line1\n\n\n" + Thinking;
    assert "Line1\n\n\n<thinking>removed" == "Line1\n\n\n<thinking>" + "removed";
    assert "Line1\n\n\n<thinking>removed</thinking>" == "Line1\n\n\n<thinking>removed" + CloseThinking;
    assert "Line1\n\n\n<thinking>removed</thinking>\n\n\n\n" == "Line1\n\n\n<thinking>removed</thinking>" + "\n\n\n\n";
    assert "Line1\n\n\n<thinking>removed</thinking>\n\n\n\nLine2" == "Line1\n\n\n<thinking>removed</thinking>\n\n\n\n" + "Line2";
  }

  lemma FirstLines()
    ensures Word("Line1") && Word("Line2")
    ensures "Line1" + "\n\n" + "Line2" == "Line1\n\nLine2"
  {
  }

  /** The newline example's reply filters to the two lines. */
  lemma BlankAsideFiltered(s: string)
    requires s == "Line1" + Repeat('\n', 3) + Thinking + "removed" + CloseThinking + Repeat('\n', 4) + "Line2"
    ensures FilterThinkingTags(s) == ("Line1\n\nLine2", s)
  {
    FirstLines();
    AsideAmidBlankLines("Line1", 3, Thinking, "removed", CloseThinking, 4, "Line2");
  }

  /** Three newlines, a `<thinking>` aside, four newlines: the lines end
      up one blank line apart, and the original comes back unchanged. */
  lemma NewlineCleanup()
    ensures FilterThinkingTags("Line1\n\n\n<thinking>removed</thinking>\n\n\n\nLine2")
         == ("Line1\n\nLine2", "Line1\n\n\n<thinking>removed</thinking>\n\n\n\nLine2")
  {
    BlankAsideParts();
    BlankAsideFiltered("Line1\n\n\n<thinking>removed</thinking>\n\n\n\nLine2");
  }
}
