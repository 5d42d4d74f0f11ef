/** `filter_thinking_tags`: four passes over a reply before the other agent
    sees it.
      1. remove every `<think>`/`<thinking>` ... `</think>`/`</thinking>`
         span, leftmost first, each ending at the nearest closing tag
         (lazy, case-insensitive, across lines; either closer closes either
         opener);
      2. replace each whitespace stretch that holds three or more newlines,
         from its first newline to its last, by a blank line `"\n\n"`;
      3. replace each run of two or more spaces by one space;
      4. strip.
    The original text is returned alongside the filtered one. */
module ThinkingFilter {
  import opened Options
  import opened Text

  // ---------------------------------------------------------------------
  // Case-insensitive tag matching
  // ---------------------------------------------------------------------

  /** Whether `c` matches the lower-case pattern character `p` under the
      regex engine's case-insensitive Unicode matching: a letter matches
      both its cases, `i` also matches U+0130 and U+0131, and `k` also
      matches the Kelvin sign U+212A. Other pattern characters match only
      themselves. */
  predicate CharMatch(c: char, p: char) {
    if p == 'i' then c == 'i' || c == 'I' || c == '\U{130}' || c == '\U{131}'
    else if p == 'k' then c == 'k' || c == 'K' || c == '\U{212A}'
    else if 'a' <= p <= 'z' then c == p || c as int == p as int - 32
    else c == p
  }

  /** The pattern `pat` matches `s` at position `i`. */
  predicate MatchesAt(s: string, i: nat, pat: string) {
    i + |pat| <= |s| && forall k :: 0 <= k < |pat| ==> CharMatch(s[i + k], pat[k])
  }

  const Think := "<think>"
  const Thinking := "<thinking>"
  const CloseThink := "</think>"
  const CloseThinking := "</thinking>"

  /** Length of the opening tag at `i`, 0 when there is none. The two
      alternatives never both match (`<think` is followed by `>` in one and
      by `i` in the other), so trying them in order is the regex's choice. */
  function OpenerAt(s: string, i: nat): (n: nat)
    ensures n == 0 || n == 7 || n == 10
    ensures n > 0 ==> i + n <= |s| && s[i] == '<'
    ensures n == 7 <==> MatchesAt(s, i, Think)
    ensures n == 10 ==> MatchesAt(s, i, Thinking)
    ensures n == 0 <==> !MatchesAt(s, i, Think) && !MatchesAt(s, i, Thinking)
  {
    if MatchesAt(s, i, Think) then
      assert CharMatch(s[i + 0], Think[0]);
      7
    else if MatchesAt(s, i, Thinking) then
      assert CharMatch(s[i + 0], Thinking[0]);
      10
    else 0
  }

  /** Length of the closing tag at `i`, 0 when there is none. */
  function CloserAt(s: string, i: nat): (n: nat)
    ensures n == 0 || n == 8 || n == 11
    ensures n > 0 ==> i + n <= |s| && s[i] == '<' && s[i + 1] == '/'
    ensures n == 8 <==> MatchesAt(s, i, CloseThink)
    ensures n == 11 ==> MatchesAt(s, i, CloseThinking)
    ensures n == 0 <==> !MatchesAt(s, i, CloseThink) && !MatchesAt(s, i, CloseThinking)
  {
    if MatchesAt(s, i, CloseThink) then
      assert CharMatch(s[i + 0], CloseThink[0]) && CharMatch(s[i + 1], CloseThink[1]);
      8
    else if MatchesAt(s, i, CloseThinking) then
      assert CharMatch(s[i + 0], CloseThinking[0]) && CharMatch(s[i + 1], CloseThinking[1]);
      11
    else 0
  }

  /** The nearest closing tag at or after `from`. */
  function NextClose(s: string, from: nat): (r: Option<nat>)
    decreases |s| - from
    ensures r.Some? ==> from <= r.value < |s| && CloserAt(s, r.value) > 0
    ensures forall q :: from <= q && (r.None? || q < r.value) ==> CloserAt(s, q) == 0
  {
    if from >= |s| then None
    else if CloserAt(s, from) > 0 then Some(from)
    else NextClose(s, from + 1)
  }

  /** The end of the span that starts at `i`, if one does: an opening tag
      at `i`, then everything up to and including the nearest closing tag
      after it. */
  function SpanAt(s: string, i: nat): (r: Option<nat>)
    ensures r.Some? ==> i < r.value <= |s|
  {
    var n := OpenerAt(s, i);
    if n == 0 then None
    else
      match NextClose(s, i + n)
      case None => None
      case Some(q) => Some(q + CloserAt(s, q))
  }

  /** A span starts at `i` exactly when an opening tag is there and some
      closing tag follows it; it ends with the nearest such closing tag. */
  lemma SpanAtMeans(s: string, i: nat)
    ensures SpanAt(s, i).Some? <==> OpenerAt(s, i) > 0 && exists q :: i + OpenerAt(s, i) <= q && CloserAt(s, q) > 0
    ensures SpanAt(s, i).Some? ==>
              exists q :: && i + OpenerAt(s, i) <= q
                          && CloserAt(s, q) > 0
                          && SpanAt(s, i).value == q + CloserAt(s, q)
                          && forall q' :: i + OpenerAt(s, i) <= q' < q ==> CloserAt(s, q') == 0
  {
  }

  /** `span` reports, for each position of `s`, where a span starting
      there ends: always after the position and within `s`. */
  predicate SpanFinder(s: string, span: nat -> Option<nat>) {
    forall p :: 0 <= p < |s| && span(p).Some? ==> p < span(p).value <= |s|
  }

  /** The spans of `s` under the tag pattern. */
  function Spans(s: string): (span: nat -> Option<nat>)
    ensures SpanFinder(s, span)
    ensures forall p :: span(p) == SpanAt(s, p)
  {
    p => SpanAt(s, p)
  }

  /** Some span starts at or after `i`. */
  predicate HasSpanFrom(s: string, span: nat -> Option<nat>, i: nat) {
    exists p :: i <= p < |s| && span(p).Some?
  }

  predicate HasSpan(s: string) {
    exists p :: 0 <= p < |s| && SpanAt(s, p).Some?
  }

  // ---------------------------------------------------------------------
  // Pass 1: span removal
  // ---------------------------------------------------------------------

  /** The substitution scan from position `i`: where a span starts it is
      dropped and the scan resumes after it, otherwise one character is
      kept. */
  function Scan(s: string, span: nat -> Option<nat>, i: nat): (r: string)
    requires i <= |s|
    requires SpanFinder(s, span)
    decreases |s| - i
    ensures |r| <= |s| - i
  {
    if i == |s| then ""
    else
      match span(i)
      case Some(e) => Scan(s, span, e)
      case None => [s[i]] + Scan(s, span, i + 1)
  }

  function RemoveSpans(s: string): (r: string)
    ensures |r| <= |s|
  {
    Scan(s, Spans(s), 0)
  }

  lemma SliceCons(s: string, j: nat, i: nat)
    requires j < i <= |s|
    ensures s[j..i] == [s[j]] + s[j + 1..i]
  {
  }

  /** Text with no span is left alone. */
  lemma {:induction false} NoSpanKept(s: string, span: nat -> Option<nat>, i: nat)
    requires i <= |s|
    requires SpanFinder(s, span)
    requires !HasSpanFrom(s, span, i)
    ensures Scan(s, span, i) == s[i..]
    decreases |s| - i
  {
    if i < |s| {
      assert span(i).None?;
      NoSpanKept(s, span, i + 1);
      SliceCons(s, i, |s|);
    }
  }

  /** Where a span exists, removal strictly shortens the text. */
  lemma {:induction false} SpanShortens(s: string, span: nat -> Option<nat>, i: nat)
    requires i <= |s|
    requires SpanFinder(s, span)
    requires HasSpanFrom(s, span, i)
    ensures |Scan(s, span, i)| < |s| - i
    decreases |s| - i
  {
    if span(i).None? {
      var p :| i <= p < |s| && span(p).Some?;
      assert p != i;
      SpanShortens(s, span, i + 1);
    }
  }

  /** Removal is leftmost-first: the text before the first span is kept
      verbatim, the span is dropped, and the scan resumes at its end. */
  lemma {:induction false} LeftmostSpan(s: string, span: nat -> Option<nat>, j: nat, i: nat)
    requires j <= i < |s|
    requires SpanFinder(s, span)
    requires span(i).Some?
    requires forall p :: j <= p < i ==> span(p).None?
    ensures Scan(s, span, j) == s[j..i] + Scan(s, span, span(i).value)
    decreases i - j
  {
    if j < i {
      LeftmostSpan(s, span, j + 1, i);
      SliceCons(s, j, i);
    } else {
      assert s[j..i] == [];
    }
  }

  /** A closing tag never covers the `<` of a later position. */
  lemma CloserCoversNoOpen(s: string, q: nat, p: nat)
    requires q < p < q + CloserAt(s, q)
    ensures s[p] != '<'
  {
    var k := p - q;
    if CloserAt(s, q) == 8 {
      assert CharMatch(s[q + k], CloseThink[k]);
    } else {
      assert CharMatch(s[q + k], CloseThinking[k]);
    }
  }

  /** Putting a character in front keeps the tail of a text. */
  lemma SuffixCons(c: char, x: string, n: nat)
    requires n <= |x|
    ensures ([c] + x)[|x| + 1 - n..] == x[|x| - n..]
  {
    assert ([c] + x)[1..] == x;
  }

  /** When no span starts at or after `p` and every span starting before
      `p` ends by `p`, the scan keeps `s[p..]` verbatim at its end. */
  lemma {:induction false} ScanKeepsTail(s: string, span: nat -> Option<nat>, i: nat, p: nat)
    requires i <= p <= |s|
    requires SpanFinder(s, span)
    requires !HasSpanFrom(s, span, p)
    requires forall j :: i <= j < p && span(j).Some? ==> span(j).value <= p
    ensures |s| - p <= |Scan(s, span, i)|
    ensures Scan(s, span, i)[|Scan(s, span, i)| - (|s| - p)..] == s[p..]
    decreases p - i
  {
    var r := Scan(s, span, i);
    if i == p {
      NoSpanKept(s, span, p);
      assert r[|r| - (|s| - p)..] == r[0..] == r;
    } else if span(i).None? {
      var rest := Scan(s, span, i + 1);
      assert r == [s[i]] + rest;
      ScanKeepsTail(s, span, i + 1, p);
      SuffixCons(s[i], rest, |s| - p);
    } else {
      var e := span(i).value;
      assert r == Scan(s, span, e);
      ScanKeepsTail(s, span, e, p);
    }
  }

  /** After an opening tag with no closing tag at or after it, no span
      starts. */
  lemma NoSpanAfterUnclosed(s: string, p: nat, p': nat)
    requires p <= p' < |s|
    requires forall q :: p <= q < |s| ==> CloserAt(s, q) == 0
    ensures SpanAt(s, p').None?
  {
    SpanAtMeans(s, p');
  }

  /** A span that starts before such an opening tag ends before it: its
      closing tag lies before the tag and cannot cover its `<`. */
  lemma SpanEndsBeforeUnclosed(s: string, j: nat, p: nat)
    requires j < p < |s|
    requires OpenerAt(s, p) > 0
    requires forall q :: p <= q < |s| ==> CloserAt(s, q) == 0
    requires SpanAt(s, j).Some?
    ensures SpanAt(s, j).value <= p
  {
    SpanAtMeans(s, j);
    var q :| && j + OpenerAt(s, j) <= q
             && CloserAt(s, q) > 0
             && SpanAt(s, j).value == q + CloserAt(s, q)
             && forall q' :: j + OpenerAt(s, j) <= q' < q ==> CloserAt(s, q') == 0;
    if p < q + CloserAt(s, q) {
      CloserCoversNoOpen(s, q, p);
    }
  }

  /** An opening tag with no closing tag anywhere after it is never removed:
      it and everything after it survive verbatim at the end of the
      result. */
  lemma UnclosedKept(s: string, p: nat)
    requires p < |s|
    requires OpenerAt(s, p) > 0
    requires forall q :: p <= q < |s| ==> CloserAt(s, q) == 0
    ensures |s| - p <= |RemoveSpans(s)|
    ensures RemoveSpans(s)[|RemoveSpans(s)| - (|s| - p)..] == s[p..]
  {
    var span := Spans(s);
    forall p' | p <= p' < |s|
      ensures span(p').None?
    {
      NoSpanAfterUnclosed(s, p, p');
    }
    forall j | 0 <= j < p && span(j).Some?
      ensures span(j).value <= p
    {
      SpanEndsBeforeUnclosed(s, j, p);
    }
    ScanKeepsTail(s, span, 0, p);
  }

  // ---------------------------------------------------------------------
  // Pass 2: blank-line collapse
  // ---------------------------------------------------------------------

  function Newlines(s: string): (n: nat)
    ensures n <= |s|
  {
    if |s| == 0 then 0 else (if s[0] == '\n' then 1 else 0) + Newlines(s[1..])
  }

  /** Newlines in the whitespace run that starts `s`. */
  function RunNewlines(s: string): nat {
    if |s| == 0 || !IsSpace(s[0]) then 0
    else (if s[0] == '\n' then 1 else 0) + RunNewlines(s[1..])
  }

  /** The position just past the last newline of the whitespace run that
      starts `s`; 0 when the run has no newline. */
  function RunNewlineEnd(s: string): (e: nat)
    ensures e <= |s|
    ensures RunNewlines(s) > 0 ==> e > 0
  {
    if |s| == 0 || !IsSpace(s[0]) then 0
    else
      var e := RunNewlineEnd(s[1..]);
      if e > 0 then e + 1
      else if s[0] == '\n' then 1
      else 0
  }

  /** The run's stretch up to its last newline is whitespace holding all
      of the run's newlines, and none is left after it. */
  lemma {:induction false} RunNewlineEndMeans(s: string)
    ensures var e := RunNewlineEnd(s);
            && AllSpace(s[..e])
            && Newlines(s[..e]) == RunNewlines(s)
            && RunNewlines(s[e..]) == 0
  {
    if |s| > 0 && IsSpace(s[0]) {
      var e := RunNewlineEnd(s[1..]);
      RunNewlineEndMeans(s[1..]);
      if e > 0 {
        assert s[..e + 1][1..] == s[1..][..e];
        assert s[e + 1..] == s[1..][e..];
      } else if s[0] == '\n' {
        assert s[..1][1..] == [];
        assert s[1..] == s[1..][e..];
      } else {
        assert s[1..] == s[1..][e..];
      }
    }
  }

  /** `re.sub(r"\n\s*\n\s*\n", "\n\n", s)`. At a newline whose
      whitespace run holds two more newlines, the greedy pattern matches up
      to the run's last newline; the match becomes a blank line and the scan
      resumes after it. */
  function CollapseBlankLines(s: string): (r: string)
    ensures |r| <= |s|
  {
    if |s| == 0 then ""
    else if s[0] == '\n' && RunNewlines(s[1..]) >= 2 then
      "\n\n" + CollapseBlankLines(s[1 + RunNewlineEnd(s[1..])..])
    else [s[0]] + CollapseBlankLines(s[1..])
  }

  /** Read left to right with `seen` newlines already in the current
      whitespace run, no whitespace run reaches three newlines. */
  predicate Bounded(s: string, seen: nat) {
    if |s| == 0 then true
    else if s[0] == '\n' then seen < 2 && Bounded(s[1..], seen + 1)
    else if IsSpace(s[0]) then Bounded(s[1..], seen)
    else Bounded(s[1..], 0)
  }

  /** No stretch of whitespace holds three or more newlines. */
  predicate NoTripleNewlines(s: string) {
    forall i, j :: 0 <= i <= j <= |s| && AllSpace(s[i..j]) ==> Newlines(s[i..j]) <= 2
  }

  lemma {:induction false} CollapseBounded(s: string, seen: nat)
    requires seen == 0 || seen + RunNewlines(s) <= 2
    ensures Bounded(CollapseBlankLines(s), seen)
  {
    var r := CollapseBlankLines(s);
    if |s| > 0 {
      if s[0] == '\n' && RunNewlines(s[1..]) >= 2 {
        var t := s[1 + RunNewlineEnd(s[1..])..];
        assert t == s[1..][RunNewlineEnd(s[1..])..];
        RunNewlineEndMeans(s[1..]);
        CollapseBounded(t, 2);
        assert r[1..][1..] == CollapseBlankLines(t);
      } else if s[0] == '\n' {
        CollapseBounded(s[1..], seen + 1);
        assert r[1..] == CollapseBlankLines(s[1..]);
      } else if IsSpace(s[0]) {
        CollapseBounded(s[1..], seen);
        assert r[1..] == CollapseBlankLines(s[1..]);
      } else {
        CollapseBounded(s[1..], 0);
        assert r[1..] == CollapseBlankLines(s[1..]);
      }
    }
  }

  lemma {:induction false} BoundedRun(s: string, seen: nat)
    requires seen <= 2
    requires Bounded(s, seen)
    ensures seen + RunNewlines(s) <= 2
  {
    if |s| > 0 && IsSpace(s[0]) {
      BoundedRun(s[1..], if s[0] == '\n' then seen + 1 else seen);
    }
  }

  /** Text already within the bound is left alone. */
  lemma {:induction false} BoundedCollapseKept(s: string, seen: nat)
    requires seen <= 2
    requires Bounded(s, seen)
    ensures CollapseBlankLines(s) == s
  {
    if |s| > 0 {
      var next := if s[0] == '\n' then seen + 1 else if IsSpace(s[0]) then seen else 0;
      if s[0] == '\n' {
        BoundedRun(s[1..], seen + 1);
      }
      BoundedCollapseKept(s[1..], next);
      assert s == [s[0]] + s[1..];
    }
  }

  lemma {:induction false} BoundedMono(s: string, a: nat, b: nat)
    requires Bounded(s, a)
    requires b <= a
    ensures Bounded(s, b)
  {
    if |s| > 0 {
      if s[0] == '\n' {
        BoundedMono(s[1..], a + 1, b + 1);
      } else if IsSpace(s[0]) {
        BoundedMono(s[1..], a, b);
      }
    }
  }

  lemma {:induction false} BoundedDrop(s: string, n: nat)
    requires n <= |s|
    requires Bounded(s, 0)
    ensures Bounded(s[n..], 0)
  {
    if n > 0 {
      if s[0] == '\n' {
        BoundedMono(s[1..], 1, 0);
      } else if IsSpace(s[0]) {
      }
      BoundedDrop(s[1..], n - 1);
      assert s[1..][n - 1..] == s[n..];
    }
  }

  lemma {:induction false} BoundedTake(s: string, n: nat, seen: nat)
    requires n <= |s|
    requires Bounded(s, seen)
    ensures Bounded(s[..n], seen)
  {
    if n > 0 {
      var next := if s[0] == '\n' then seen + 1 else if IsSpace(s[0]) then seen else 0;
      BoundedTake(s[1..], n - 1, next);
      assert s[..n][1..] == s[1..][..n - 1];
    }
  }

  /** Within the bound, every whitespace prefix adds at most what is left. */
  lemma {:induction false} BoundedPrefix(s: string, seen: nat, m: nat)
    requires seen <= 2
    requires m <= |s|
    requires Bounded(s, seen)
    requires AllSpace(s[..m])
    ensures seen + Newlines(s[..m]) <= 2
  {
    if m > 0 {
      assert IsSpace(s[..m][0]);
      assert s[..m][1..] == s[1..][..m - 1];
      BoundedPrefix(s[1..], if s[0] == '\n' then seen + 1 else seen, m - 1);
    }
  }

  /** The automaton and the declarative bound agree, in both directions. */
  lemma BoundedWindows(s: string)
    requires Bounded(s, 0)
    ensures NoTripleNewlines(s)
  {
    forall i, j | 0 <= i <= j <= |s| && AllSpace(s[i..j])
      ensures Newlines(s[i..j]) <= 2
    {
      BoundedDrop(s, i);
      assert s[i..][..j - i] == s[i..j];
      BoundedPrefix(s[i..], 0, j - i);
    }
  }

  /** Prefix condition at `i`: every whitespace stretch starting at `i`
      fits in what is left of the bound. */
  predicate RunsFit(s: string, i: nat, seen: nat)
    requires i <= |s|
  {
    forall j :: i <= j <= |s| && AllSpace(s[i..j]) ==> seen + Newlines(s[i..j]) <= 2
  }

  lemma RunsFitStep(s: string, i: nat, seen: nat, next: nat)
    requires i < |s|
    requires IsSpace(s[i])
    requires next == if s[i] == '\n' then seen + 1 else seen
    requires RunsFit(s, i, seen)
    ensures RunsFit(s, i + 1, next)
  {
    var k := i + 1;
    forall j | k <= j <= |s| && AllSpace(s[k..j])
      ensures next + Newlines(s[k..j]) <= 2
    {
      assert s[i..j][1..] == s[i + 1..j];
      assert AllSpace(s[i..j]);
    }
  }

  lemma {:induction false} WindowsBoundedFrom(s: string, i: nat, seen: nat)
    requires i <= |s|
    requires NoTripleNewlines(s)
    requires RunsFit(s, i, seen)
    ensures Bounded(s[i..], seen)
    decreases |s| - i
  {
    if i < |s| {
      assert s[i..][1..] == s[i + 1..];
      if IsSpace(s[i]) {
        var next := if s[i] == '\n' then seen + 1 else seen;
        assert s[i..i + 1] == [s[i]];
        assert AllSpace(s[i..i + 1]);
        assert Newlines(s[i..i + 1]) == next - seen;
        RunsFitStep(s, i, seen, next);
        WindowsBoundedFrom(s, i + 1, next);
      } else {
        WindowsBoundedFrom(s, i + 1, 0);
      }
    }
  }

  lemma WindowsBounded(s: string)
    requires NoTripleNewlines(s)
    ensures Bounded(s, 0)
  {
    WindowsBoundedFrom(s, 0, 0);
  }

  /** The collapse leaves no whitespace stretch with three newlines. */
  lemma CollapseBlankLinesBound(s: string)
    ensures NoTripleNewlines(CollapseBlankLines(s))
  {
    CollapseBounded(s, 0);
    BoundedWindows(CollapseBlankLines(s));
  }

  /** ... and does nothing to text that has none. */
  lemma CollapseBlankLinesKept(s: string)
    requires NoTripleNewlines(s)
    ensures CollapseBlankLines(s) == s
  {
    WindowsBounded(s);
    BoundedCollapseKept(s, 0);
  }

  /** The collapse only ever rewrites whitespace. */
  lemma {:induction false} CollapseBlankLinesNonSpace(s: string)
    ensures NonSpace(CollapseBlankLines(s)) == NonSpace(s)
  {
    if |s| > 0 {
      var r := CollapseBlankLines(s);
      if s[0] == '\n' && RunNewlines(s[1..]) >= 2 {
        var e := 1 + RunNewlineEnd(s[1..]);
        RunNewlineEndMeans(s[1..]);
        var t := s[e..];
        assert s == s[..e] + t;
        assert s[..e] == [s[0]] + s[1..][..e - 1];
        assert AllSpace(s[..e]);
        NonSpaceAppend(s[..e], t);
        NonSpaceOfAllSpace(s[..e]);
        NonSpaceAppend("\n\n", CollapseBlankLines(t));
        NonSpaceOfAllSpace("\n\n");
        CollapseBlankLinesNonSpace(t);
      } else {
        CollapseBlankLinesNonSpace(s[1..]);
        assert r[1..] == CollapseBlankLines(s[1..]);
      }
    }
  }

  /** Text that is empty or ends in a character that is not whitespace. */
  predicate EndsSolid(s: string) {
    |s| == 0 || !IsSpace(s[|s| - 1])
  }

  /** Text that is empty or starts with a character that is not whitespace. */
  predicate StartsSolid(s: string) {
    |s| == 0 || !IsSpace(s[0])
  }

  /** Whitespace without a newline. */
  predicate PlainSpace(s: string) {
    AllSpace(s) && '\n' !in s
  }

  /** A run that starts inside `y` and `y` ends outside any run: what
      follows `y` does not reach it. */
  lemma {:induction false} RunStaysIn(y: string, x: string)
    requires |y| > 0 && EndsSolid(y)
    ensures RunNewlines(y + x) == RunNewlines(y)
    ensures RunNewlineEnd(y + x) == RunNewlineEnd(y) < |y|
  {
    assert (y + x)[0] == y[0];
    if IsSpace(y[0]) {
      assert |y| >= 2;
      assert (y + x)[1..] == y[1..] + x;
      assert y[1..][|y| - 2] == y[|y| - 1];
      RunStaysIn(y[1..], x);
    }
  }

  /** One character read: the pass either replaces a newline and the rest
      of its run up to the run's last newline by a blank line, or keeps the
      character. */
  lemma CollapseStep(s: string)
    requires |s| > 0
    ensures CollapseBlankLines(s)
         == if s[0] == '\n' && RunNewlines(s[1..]) >= 2 then "\n\n" + CollapseBlankLines(s[1..][RunNewlineEnd(s[1..])..])
            else [s[0]] + CollapseBlankLines(s[1..])
  {
    assert s[1 + RunNewlineEnd(s[1..])..] == s[1..][RunNewlineEnd(s[1..])..];
  }

  lemma SolidSuffix(a: string, k: nat)
    requires EndsSolid(a) && k < |a|
    ensures EndsSolid(a[k..]) && |a[k..]| > 0
  {
    assert a[k..][|a| - k - 1] == a[|a| - 1];
  }

  lemma SolidTail(a: string)
    requires |a| > 0 && EndsSolid(a)
    ensures EndsSolid(a[1..])
  {
    if |a| > 1 {
      SolidSuffix(a, 1);
    }
  }

  /** A newline that opens a run of two or more newlines stands for
      the whole run. */
  lemma CollapseJump(s: string)
    requires |s| > 0 && s[0] == '\n' && RunNewlines(s[1..]) >= 2
    ensures CollapseBlankLines(s) == "\n\n" + CollapseBlankLines(s[1..][RunNewlineEnd(s[1..])..])
  {
    CollapseStep(s);
  }

  /** A character that does not open a collapsing run is kept. */
  lemma CollapseKeep(s: string)
    requires |s| > 0 && !(s[0] == '\n' && RunNewlines(s[1..]) >= 2)
    ensures CollapseBlankLines(s) == [s[0]] + CollapseBlankLines(s[1..])
  {
  }

  /** When `a` opens with a collapsing run, `a + x` opens with the same
      run, and what follows the run is what follows it in `a`, then `x`. */
  lemma JumpCarries(a: string, x: string)
    requires EndsSolid(a) && |a| > 0
    requires a[0] == '\n' && RunNewlines(a[1..]) >= 2
    ensures var s, e := a + x, RunNewlineEnd(a[1..]);
            && |s| > 0 && s[0] == '\n' && RunNewlines(s[1..]) >= 2
            && e < |a| - 1 && RunNewlineEnd(s[1..]) == e
            && s[1..][e..] == a[1..][e..] + x
  {
    var s := a + x;
    var t := a[1..];
    assert s[0] == a[0];
    assert s[1..] == t + x;
    SolidTail(a);
    RunStaysIn(t, x);
    DropAppend(t, x, RunNewlineEnd(t));
  }

  /** The step of `CollapseAppend` where `a` opens with a collapsing run:
      `s` is `a + x` seen through `JumpCarries`. */
  lemma JumpJoin(s: string, a: string, x: string)
    requires |a| > 0 && a[0] == '\n' && RunNewlines(a[1..]) >= 2
    requires |s| > 0 && s[0] == '\n' && RunNewlines(s[1..]) >= 2
    requires RunNewlineEnd(s[1..]) == RunNewlineEnd(a[1..])
    requires s[1..][RunNewlineEnd(s[1..])..] == a[1..][RunNewlineEnd(a[1..])..] + x
    requires var e := RunNewlineEnd(a[1..]);
             CollapseBlankLines(a[1..][e..] + x) == CollapseBlankLines(a[1..][e..]) + CollapseBlankLines(x)
    ensures CollapseBlankLines(s) == CollapseBlankLines(a) + CollapseBlankLines(x)
  {
    var e := RunNewlineEnd(a[1..]);
    CollapseJump(a);
    CollapseJump(s);
    var p := CollapseBlankLines(a[1..][e..]);
    var q := CollapseBlankLines(x);
    assert CollapseBlankLines(s) == "\n\n" + (p + q);
    assert CollapseBlankLines(a) == "\n\n" + p;
    ConcatAssoc("\n\n", p, q);
  }

  /** When `a`'s first character is kept, so is that of `a + x`. */
  lemma KeepCarries(a: string, x: string)
    requires EndsSolid(a) && |a| > 0
    requires !(a[0] == '\n' && RunNewlines(a[1..]) >= 2)
    ensures var s := a + x;
            && |s| > 0 && s[0] == a[0] && s[1..] == a[1..] + x
            && !(s[0] == '\n' && RunNewlines(s[1..]) >= 2)
  {
    var s := a + x;
    assert s[0] == a[0];
    assert s[1..] == a[1..] + x;
    if a[0] == '\n' {
      assert |a| >= 2;
      SolidTail(a);
      RunStaysIn(a[1..], x);
    }
  }

  /** The step of `CollapseAppend` where `a`'s first character is kept:
      `s` is `a + x` seen through `KeepCarries`. */
  lemma KeepJoin(s: string, a: string, x: string)
    requires |a| > 0 && !(a[0] == '\n' && RunNewlines(a[1..]) >= 2)
    requires |s| > 0 && !(s[0] == '\n' && RunNewlines(s[1..]) >= 2)
    requires s[0] == a[0] && s[1..] == a[1..] + x
    requires CollapseBlankLines(a[1..] + x) == CollapseBlankLines(a[1..]) + CollapseBlankLines(x)
    ensures CollapseBlankLines(s) == CollapseBlankLines(a) + CollapseBlankLines(x)
  {
    CollapseKeep(a);
    CollapseKeep(s);
    var p := CollapseBlankLines(a[1..]);
    var q := CollapseBlankLines(x);
    assert CollapseBlankLines(s) == [a[0]] + (p + q);
    assert CollapseBlankLines(a) == [a[0]] + p;
    ConcatAssoc([a[0]], p, q);
  }

  /** The pass handles text that ends outside any whitespace run on its
      own: whatever follows cannot extend one of its runs. */
  lemma {:induction false} CollapseAppend(a: string, x: string)
    requires EndsSolid(a)
    ensures CollapseBlankLines(a + x) == CollapseBlankLines(a) + CollapseBlankLines(x)
    decreases |a|
  {
    if |a| == 0 {
      assert a + x == x;
    } else if a[0] == '\n' && RunNewlines(a[1..]) >= 2 {
      JumpCarries(a, x);
      var e := RunNewlineEnd(a[1..]);
      SolidTail(a);
      SolidSuffix(a[1..], e);
      CollapseAppend(a[1..][e..], x);
      JumpJoin(a + x, a, x);
    } else {
      KeepCarries(a, x);
      SolidTail(a);
      CollapseAppend(a[1..], x);
      KeepJoin(a + x, a, x);
    }
  }

  lemma PlainSpaceTail(u: string)
    requires |u| > 0 && PlainSpace(u)
    ensures PlainSpace(u[1..]) && u[0] != '\n'
  {
    assert forall k :: 0 <= k < |u[1..]| ==> u[1..][k] == u[k + 1];
  }

  /** Whitespace without a newline passes through the pass unchanged,
      whatever follows it. */
  lemma {:induction false} PlainSpaceKept(u: string, rest: string)
    requires PlainSpace(u)
    ensures CollapseBlankLines(u + rest) == u + CollapseBlankLines(rest)
  {
    if |u| > 0 {
      var s := u + rest;
      PlainSpaceTail(u);
      assert s[0] == u[0];
      assert s[1..] == u[1..] + rest;
      CollapseStep(s);
      PlainSpaceKept(u[1..], rest);
      assert CollapseBlankLines(s) == [u[0]] + CollapseBlankLines(u[1..] + rest);
      var c := CollapseBlankLines(rest);
      assert CollapseBlankLines(s) == [u[0]] + (u[1..] + c);
      ConcatAssoc([u[0]], u[1..], c);
      assert [u[0]] + u[1..] == u;
    } else {
      assert u + rest == rest;
    }
  }

  /** A run that holds no newline, up to text outside any run. */
  lemma {:induction false} PlainRun(v: string, b: string)
    requires PlainSpace(v) && StartsSolid(b)
    ensures RunNewlines(v + b) == 0 && RunNewlineEnd(v + b) == 0
  {
    if |v| > 0 {
      PlainSpaceTail(v);
      assert (v + b)[0] == v[0];
      assert (v + b)[1..] == v[1..] + b;
      PlainRun(v[1..], b);
    } else {
      assert v + b == b;
    }
  }

  /** Whitespace in front of a run that has a newline joins the run: its
      newlines add up, and the run's last newline moves back by its length. */
  lemma {:induction false} SpacePrefixRun(x: string, y: string)
    requires AllSpace(x)
    requires RunNewlineEnd(y) > 0
    ensures RunNewlines(x + y) == Newlines(x) + RunNewlines(y)
    ensures RunNewlineEnd(x + y) == |x| + RunNewlineEnd(y)
  {
    if |x| > 0 {
      assert (x + y)[0] == x[0] && IsSpace(x[0]);
      assert (x + y)[1..] == x[1..] + y;
      assert AllSpace(x[1..]) by {
        assert forall k :: 0 <= k < |x[1..]| ==> x[1..][k] == x[k + 1];
      }
      SpacePrefixRun(x[1..], y);
    } else {
      assert x + y == y;
    }
  }

  lemma {:induction false} NewlineCounted(m: string)
    requires '\n' in m
    ensures Newlines(m) >= 1
  {
    if m[0] != '\n' {
      assert m == [m[0]] + m[1..];
      NewlineCounted(m[1..]);
    }
  }

  /** A newline opening a run that holds no other newline: the run's last
      newline is that one. */
  lemma LoneNewlineRun(v: string, b: string)
    requires PlainSpace(v) && StartsSolid(b)
    ensures RunNewlines(['\n'] + (v + b)) == 1
    ensures RunNewlineEnd(['\n'] + (v + b)) == 1
  {
    var y := ['\n'] + (v + b);
    assert y[0] == '\n' && y[1..] == v + b;
    PlainRun(v, b);
  }

  /** At the first newline of a run with three or more newlines, the
      pass writes a blank line and resumes after the run's last newline. */
  lemma RunCollapsedHere(m: string, v: string, b: string)
    requires StartsSolid(b) && PlainSpace(v)
    requires AllSpace(m) && '\n' in m
    ensures CollapseBlankLines(['\n'] + (m + (['\n'] + (v + b)))) == "\n\n" + v + CollapseBlankLines(b)
  {
    var y := ['\n'] + (v + b);
    LoneNewlineRun(v, b);
    var tail := m + y;
    SpacePrefixRun(m, y);
    NewlineCounted(m);
    var w := ['\n'] + tail;
    assert w[0] == '\n' && w[1..] == tail;
    CollapseStep(w);
    assert tail[RunNewlineEnd(tail)..] == v + b;
    PlainSpaceKept(v, b);
    ConcatAssoc("\n\n", v, CollapseBlankLines(b));
  }

  /** A whitespace run with three or more newlines, between text that is
      not whitespace, becomes `"\n\n"` from its first newline to its
      last. The whitespace before the first newline (`u`) and after the last
      (`v`) is kept, and the text on either side goes through the pass on
      its own. */
  lemma BlankRunCollapsed(a: string, u: string, m: string, v: string, b: string)
    requires EndsSolid(a) && StartsSolid(b)
    requires PlainSpace(u) && PlainSpace(v)
    requires AllSpace(m) && '\n' in m
    ensures CollapseBlankLines(a + u + "\n" + m + "\n" + v + b)
         == CollapseBlankLines(a) + u + "\n\n" + v + CollapseBlankLines(b)
  {
    var nl: string := "\n";
    var w := nl + (m + (nl + (v + b)));
    // the input, regrouped to the right
    var p1 := a + u;
    var p2 := p1 + nl;
    var p3 := p2 + m;
    var p4 := p3 + nl;
    var p5 := p4 + v;
    ConcatAssoc(p4, v, b);
    ConcatAssoc(p3, nl, v + b);
    ConcatAssoc(p2, m, nl + (v + b));
    ConcatAssoc(p1, nl, m + (nl + (v + b)));
    ConcatAssoc(a, u, w);
    assert p5 + b == a + (u + w);
    // the output, regrouped to the left
    RunCollapsedHere(m, v, b);
    PlainSpaceKept(u, w);
    CollapseAppend(a, u + w);
    var A := CollapseBlankLines(a);
    var B := CollapseBlankLines(b);
    var q := "\n\n" + v;
    assert CollapseBlankLines(w) == q + B;
    assert CollapseBlankLines(p5 + b) == A + (u + (q + B));
    ConcatAssoc(u, q, B);
    ConcatAssoc(A, u + q, B);
    ConcatAssoc(A, u, q);
    ConcatAssoc(A + u, "\n\n", v);
  }

  /** Three or more newlines in a row, between text that ends and starts
      outside whitespace, become exactly one blank line. */
  lemma NewlineRunCollapsed(a: string, n: nat, b: string)
    requires EndsSolid(a) && StartsSolid(b) && n >= 3
    ensures CollapseBlankLines(a + Repeat('\n', n) + b) == CollapseBlankLines(a) + "\n\n" + CollapseBlankLines(b)
  {
    var nl: string := "\n";
    var m := Repeat('\n', n - 2);
    assert '\n' in m by {
      assert m[0] == '\n';
    }
    assert AllSpace(m) by {
      forall k | 0 <= k < |m|
        ensures IsSpace(m[k])
      {
        assert m[k] == '\n';
      }
    }
    var r := Repeat('\n', n);
    RepeatAdd('\n', 1, n - 2);
    RepeatAdd('\n', n - 1, 1);
    assert Repeat('\n', 1) == nl;
    assert r == (nl + m) + nl;
    var e: string := "";
    assert PlainSpace(e);
    BlankRunCollapsed(a, e, m, e, b);
    // the input, regrouped
    var p3 := ((a + e) + nl) + m;
    assert a + e == a;
    assert p3 == (a + nl) + m;
    ConcatAssoc(a, nl, m);
    ConcatAssoc(a, nl + m, nl);
    assert p3 + nl == a + r;
    assert (p3 + nl) + e == p3 + nl;
    assert a + e + nl + m + nl + e + b == a + r + b;
    // the output, regrouped
    var A := CollapseBlankLines(a);
    assert A + e == A;
    assert (A + "\n\n") + e == A + "\n\n";
  }

  // ---------------------------------------------------------------------
  // Pass 3: space collapse
  // ---------------------------------------------------------------------

  predicate NoDoubleSpace(s: string) {
    forall i :: 0 <= i < |s| - 1 ==> !(s[i] == ' ' && s[i + 1] == ' ')
  }

  /** Number of leading spaces (U+0020 only). */
  function SpaceRun(s: string): (n: nat)
    ensures n <= |s|
    ensures forall k :: 0 <= k < n ==> s[k] == ' '
    ensures n < |s| ==> s[n] != ' '
  {
    if |s| == 0 || s[0] != ' ' then 0 else 1 + SpaceRun(s[1..])
  }

  /** `re.sub(r"  +", " ", s)`: each run of two or more spaces becomes one
      space. The result starts with the same character as the input and
      never has two spaces in a row. */
  function CollapseSpaces(s: string): (r: string)
    ensures |r| <= |s|
    ensures |s| > 0 ==> |r| > 0 && r[0] == s[0]
    ensures NoDoubleSpace(r)
  {
    if |s| == 0 then ""
    else if |s| >= 2 && s[0] == ' ' && s[1] == ' ' then
      var k := SpaceRun(s);
      var rest := CollapseSpaces(s[k..]);
      assert k == |s| || s[k..][0] != ' ';
      assert forall i :: 1 <= i < |rest| + 1 ==> (" " + rest)[i] == rest[i - 1];
      " " + rest
    else
      var rest := CollapseSpaces(s[1..]);
      assert s[0] == ' ' ==> |s| == 1 || rest[0] != ' ';
      assert forall i :: 1 <= i < |rest| + 1 ==> ([s[0]] + rest)[i] == rest[i - 1];
      [s[0]] + rest
  }

  /** Text without double spaces is left alone. */
  lemma {:induction false} CollapseSpacesKept(s: string)
    requires NoDoubleSpace(s)
    ensures CollapseSpaces(s) == s
  {
    if |s| > 0 {
      assert !(|s| >= 2 && s[0] == ' ' && s[1] == ' ');
      assert NoDoubleSpace(s[1..]) by {
        forall i | 0 <= i < |s[1..]| - 1
          ensures !(s[1..][i] == ' ' && s[1..][i + 1] == ' ')
        {
          assert s[1..][i] == s[i + 1] && s[1..][i + 1] == s[i + 2];
        }
      }
      CollapseSpacesKept(s[1..]);
      assert s == [s[0]] + s[1..];
    }
  }

  lemma AllSpacesBlank(s: string, k: nat)
    requires k <= |s|
    requires forall j :: 0 <= j < k ==> s[j] == ' '
    ensures AllSpace(s[..k])
  {
  }

  /** The collapse only ever rewrites whitespace. */
  lemma {:induction false} CollapseSpacesNonSpace(s: string)
    ensures NonSpace(CollapseSpaces(s)) == NonSpace(s)
  {
    if |s| > 0 {
      var r := CollapseSpaces(s);
      if |s| >= 2 && s[0] == ' ' && s[1] == ' ' {
        var k := SpaceRun(s);
        assert s == s[..k] + s[k..];
        AllSpacesBlank(s, k);
        NonSpaceAppend(s[..k], s[k..]);
        NonSpaceOfAllSpace(s[..k]);
        CollapseSpacesNonSpace(s[k..]);
        assert r[1..] == CollapseSpaces(s[k..]);
      } else {
        CollapseSpacesNonSpace(s[1..]);
        assert r[1..] == CollapseSpaces(s[1..]);
      }
    }
  }

  lemma {:induction false} BoundedSkipSpaces(s: string, k: nat, seen: nat)
    requires k <= |s|
    requires forall j :: 0 <= j < k ==> s[j] == ' '
    requires Bounded(s, seen)
    ensures Bounded(s[k..], seen)
  {
    if k > 0 {
      assert IsSpace(s[0]);
      BoundedSkipSpaces(s[1..], k - 1, seen);
      assert s[1..][k - 1..] == s[k..];
    }
  }

  /** Collapsing spaces never adds a newline to a whitespace stretch. */
  lemma {:induction false} CollapseSpacesBounded(s: string, seen: nat)
    requires Bounded(s, seen)
    ensures Bounded(CollapseSpaces(s), seen)
  {
    if |s| > 0 {
      var r := CollapseSpaces(s);
      if |s| >= 2 && s[0] == ' ' && s[1] == ' ' {
        var k := SpaceRun(s);
        BoundedSkipSpaces(s, k, seen);
        CollapseSpacesBounded(s[k..], seen);
        assert r[1..] == CollapseSpaces(s[k..]);
      } else {
        var next := if s[0] == '\n' then seen + 1 else if IsSpace(s[0]) then seen else 0;
        CollapseSpacesBounded(s[1..], next);
        assert r[1..] == CollapseSpaces(s[1..]);
      }
    }
  }

  lemma CollapseSpacesKeepsBound(s: string)
    requires NoTripleNewlines(s)
    ensures NoTripleNewlines(CollapseSpaces(s))
  {
    WindowsBounded(s);
    CollapseSpacesBounded(s, 0);
    BoundedWindows(CollapseSpaces(s));
  }

  /** A space run that starts inside `a`, where `a` ends outside any
      whitespace, stops inside `a`. */
  lemma {:induction false} SpaceRunStays(a: string, x: string)
    requires |a| > 0 && EndsSolid(a)
    ensures SpaceRun(a) < |a|
    ensures SpaceRun(a + x) == SpaceRun(a)
  {
    var s := a + x;
    assert s[0] == a[0];
    if a[0] == ' ' {
      assert |a| >= 2;
      assert s[1..] == a[1..] + x;
      SolidTail(a);
      SpaceRunStays(a[1..], x);
    }
  }

  /** Two leading spaces collapse with the rest of their run. */
  lemma SpacesJump(s: string)
    requires |s| >= 2 && s[0] == ' ' && s[1] == ' '
    ensures CollapseSpaces(s) == " " + CollapseSpaces(s[SpaceRun(s)..])
  {
  }

  /** A first character that does not start two spaces is kept. */
  lemma SpacesKeep(s: string)
    requires |s| > 0 && !(|s| >= 2 && s[0] == ' ' && s[1] == ' ')
    ensures CollapseSpaces(s) == [s[0]] + CollapseSpaces(s[1..])
  {
  }

  /** When `a` opens with two spaces, `a + x` opens with the same run, and
      what follows the run is what follows it in `a`, then `x`. */
  lemma SpacesJumpCarries(a: string, x: string)
    requires EndsSolid(a) && |a| >= 2 && a[0] == ' ' && a[1] == ' '
    ensures var s, k := a + x, SpaceRun(a);
            && |s| >= 2 && s[0] == ' ' && s[1] == ' '
            && k < |a| && SpaceRun(s) == k && s[k..] == a[k..] + x
  {
    var s := a + x;
    assert s[0] == ' ' && s[1] == ' ';
    SpaceRunStays(a, x);
    DropAppend(a, x, SpaceRun(a));
  }

  /** The step of `SpacesAppend` where `a` opens with two spaces: `s` is
      `a + x` seen through `SpacesJumpCarries`. */
  lemma SpacesJumpJoin(s: string, a: string, x: string)
    requires |a| >= 2 && a[0] == ' ' && a[1] == ' '
    requires |s| >= 2 && s[0] == ' ' && s[1] == ' '
    requires SpaceRun(s) == SpaceRun(a)
    requires s[SpaceRun(s)..] == a[SpaceRun(a)..] + x
    requires CollapseSpaces(a[SpaceRun(a)..] + x) == CollapseSpaces(a[SpaceRun(a)..]) + CollapseSpaces(x)
    ensures CollapseSpaces(s) == CollapseSpaces(a) + CollapseSpaces(x)
  {
    SpacesJump(a);
    SpacesJump(s);
    var p := CollapseSpaces(a[SpaceRun(a)..]);
    var q := CollapseSpaces(x);
    assert CollapseSpaces(s) == " " + (p + q);
    assert CollapseSpaces(a) == " " + p;
    ConcatAssoc(" ", p, q);
  }

  /** When `a`'s first character is kept, so is that of `a + x`. */
  lemma SpacesKeepCarries(a: string, x: string)
    requires EndsSolid(a) && |a| > 0
    requires !(|a| >= 2 && a[0] == ' ' && a[1] == ' ')
    ensures var s := a + x;
            && |s| > 0 && s[0] == a[0] && s[1..] == a[1..] + x
            && !(|s| >= 2 && s[0] == ' ' && s[1] == ' ')
  {
    var s := a + x;
    assert s[0] == a[0];
    assert s[1..] == a[1..] + x;
    if |a| == 1 {
      assert !IsSpace(a[0]);
    } else {
      assert s[1] == a[1];
    }
  }

  /** The step of `SpacesAppend` where `a`'s first character is kept: `s`
      is `a + x` seen through `SpacesKeepCarries`. */
  lemma SpacesKeepJoin(s: string, a: string, x: string)
    requires |a| > 0 && !(|a| >= 2 && a[0] == ' ' && a[1] == ' ')
    requires |s| > 0 && !(|s| >= 2 && s[0] == ' ' && s[1] == ' ')
    requires s[0] == a[0] && s[1..] == a[1..] + x
    requires CollapseSpaces(a[1..] + x) == CollapseSpaces(a[1..]) + CollapseSpaces(x)
    ensures CollapseSpaces(s) == CollapseSpaces(a) + CollapseSpaces(x)
  {
    SpacesKeep(a);
    SpacesKeep(s);
    var p := CollapseSpaces(a[1..]);
    var q := CollapseSpaces(x);
    assert CollapseSpaces(s) == [a[0]] + (p + q);
    assert CollapseSpaces(a) == [a[0]] + p;
    ConcatAssoc([a[0]], p, q);
  }

  /** Text that ends outside any whitespace goes through the space
      collapse on its own: whatever follows cannot extend one of its
      space runs. */
  lemma {:induction false} SpacesAppend(a: string, x: string)
    requires EndsSolid(a)
    ensures CollapseSpaces(a + x) == CollapseSpaces(a) + CollapseSpaces(x)
    decreases |a|
  {
    if |a| == 0 {
      assert a + x == x;
    } else if |a| >= 2 && a[0] == ' ' && a[1] == ' ' {
      SpacesJumpCarries(a, x);
      var k := SpaceRun(a);
      SolidSuffix(a, k);
      SpacesAppend(a[k..], x);
      SpacesJumpJoin(a + x, a, x);
    } else {
      SpacesKeepCarries(a, x);
      SolidTail(a);
      SpacesAppend(a[1..], x);
      SpacesKeepJoin(a + x, a, x);
    }
  }

  /** A run of one or more spaces in front of text that starts outside any
      whitespace becomes exactly one space. */
  lemma RunToOne(k: nat, b: string)
    requires k >= 1 && StartsSolid(b)
    ensures CollapseSpaces(Repeat(' ', k) + b) == " " + CollapseSpaces(b)
  {
    var s := Repeat(' ', k) + b;
    assert s[0] == ' ';
    if k == 1 {
      assert s[1..] == b;
      assert |s| >= 2 ==> s[1] == b[0];
      SpacesKeep(s);
    } else {
      assert s[1] == ' ';
      assert k < |s| ==> s[k] == b[0];
      assert SpaceRun(s) == k;
      assert s[k..] == b;
      SpacesJump(s);
    }
  }

  /** Any run of spaces between two pieces of text that end and start
      outside whitespace collapses to exactly one space, and the pieces
      go through the collapse on their own. */
  lemma SpacesCollapsed(a: string, k: nat, b: string)
    requires EndsSolid(a) && StartsSolid(b) && k >= 1
    ensures CollapseSpaces(a + Repeat(' ', k) + b) == CollapseSpaces(a) + " " + CollapseSpaces(b)
  {
    var r := Repeat(' ', k);
    ConcatAssoc(a, r, b);
    SpacesAppend(a, r + b);
    RunToOne(k, b);
    var A := CollapseSpaces(a);
    var B := CollapseSpaces(b);
    assert CollapseSpaces(a + r + b) == A + (" " + B);
    ConcatAssoc(A, " ", B);
  }

  // ---------------------------------------------------------------------
  // Pass 4 and the whole filter
  // ---------------------------------------------------------------------

  /** Stripping cuts out a piece of the text, so it keeps both bounds. */
  lemma StripKeepsBounds(s: string)
    ensures NoTripleNewlines(s) ==> NoTripleNewlines(Strip(s))
    ensures NoDoubleSpace(s) ==> NoDoubleSpace(Strip(s))
  {
    var r := Strip(s);
    var i := LeadingSpace(s);
    StripPiece(s);
    if NoTripleNewlines(s) {
      WindowsBounded(s);
      BoundedDrop(s, i);
      BoundedTake(s[i..], |r|, 0);
      assert s[i..][..|r|] == r;
      BoundedWindows(r);
    }
    if NoDoubleSpace(s) {
      forall k | 0 <= k < |r| - 1
        ensures !(r[k] == ' ' && r[k + 1] == ' ')
      {
        assert r[k] == s[i + k] && r[k + 1] == s[i + k + 1];
      }
    }
  }

  /** `filter_thinking_tags`: the filtered text and the original. The
      filtered text has no whitespace at either end, no double space, and
      no whitespace stretch with three or more newlines; the original is
      returned untouched. */
  function FilterThinkingTags(content: string): (r: (string, string))
    ensures r.1 == content
    ensures Trimmed(r.0)
    ensures NoDoubleSpace(r.0)
    ensures NoTripleNewlines(r.0)
    ensures |r.0| <= |content|
  {
    var removed := RemoveSpans(content);
    var blank := CollapseBlankLines(removed);
    var spaced := CollapseSpaces(blank);
    CollapseBlankLinesBound(removed);
    CollapseSpacesKeepsBound(blank);
    StripKeepsBounds(spaced);
    (Strip(spaced), content)
  }

  /** The filter changes the visible text only by removing spans. */
  lemma FilterNonSpace(s: string)
    ensures NonSpace(FilterThinkingTags(s).0) == NonSpace(RemoveSpans(s))
  {
    var blank := CollapseBlankLines(RemoveSpans(s));
    CollapseBlankLinesNonSpace(RemoveSpans(s));
    CollapseSpacesNonSpace(blank);
    StripKeepsNonSpace(CollapseSpaces(blank));
  }

  /** Text with no span passes the removal pass unchanged. */
  lemma NoSpanUnchanged(s: string)
    requires !HasSpan(s)
    ensures RemoveSpans(s) == s
  {
    NoSpanKept(s, Spans(s), 0);
  }

  /** Empty or whitespace-only input filters to the empty string. */
  lemma FilterBlank(s: string)
    requires AllSpace(s)
    ensures FilterThinkingTags(s).0 == ""
  {
    forall p | 0 <= p < |s|
      ensures SpanAt(s, p).None?
    {
      assert IsSpace(s[p]);
    }
    NoSpanUnchanged(s);
    FilterNonSpace(s);
    NonSpaceOfAllSpace(s);
    TrimmedBlankIsEmpty(FilterThinkingTags(s).0);
  }

  /** The filter leaves text alone exactly when it holds no span and is
      already normalised: trimmed, no double space, no whitespace stretch
      with three newlines. */
  lemma FilterFixpoint(s: string)
    ensures FilterThinkingTags(s).0 == s <==>
              !HasSpan(s) && Trimmed(s) && NoDoubleSpace(s) && NoTripleNewlines(s)
  {
    if !HasSpan(s) && Trimmed(s) && NoDoubleSpace(s) && NoTripleNewlines(s) {
      NoSpanUnchanged(s);
      CollapseBlankLinesKept(s);
      CollapseSpacesKept(s);
      StripTrimmed(s);
    }
    if FilterThinkingTags(s).0 == s && HasSpan(s) {
      SpanShortens(s, Spans(s), 0);
      assert false;
    }
  }
}
