/** Text utilities shared by the decoders, the thinking-tag filter and the
    orchestrator: Python's notion of whitespace, `str.strip`, slicing and
    string concatenation. Strings are `seq<char>`. */
module Text {

  /** Python's `str.isspace()`, which is also what the regex class `\s`
      matches on `str` patterns: the ASCII controls \t \n \v \f \r, the
      separators \x1c-\x1f, space, NEL, NBSP and the Unicode space separators. */
  predicate IsSpace(c: char) {
    || c == ' '
    || ('\t' <= c <= '\r')
    || ('\U{1C}' <= c <= '\U{1F}')
    || c == '\U{85}'
    || c == '\U{A0}'
    || c == '\U{1680}'
    || ('\U{2000}' <= c <= '\U{200A}')
    || c == '\U{2028}'
    || c == '\U{2029}'
    || c == '\U{202F}'
    || c == '\U{205F}'
    || c == '\U{3000}'
  }

  predicate AllSpace(s: string) {
    forall k :: 0 <= k < |s| ==> IsSpace(s[k])
  }

  /** No whitespace at either end. */
  predicate Trimmed(s: string) {
    |s| > 0 ==> !IsSpace(s[0]) && !IsSpace(s[|s| - 1])
  }

  predicate StartsWith(s: string, prefix: string) {
    |prefix| <= |s| && s[..|prefix|] == prefix
  }

  /** Number of leading whitespace characters. */
  function LeadingSpace(s: string): (n: nat)
    ensures n <= |s|
    ensures AllSpace(s[..n])
    ensures n < |s| ==> !IsSpace(s[n])
  {
    if |s| == 0 || !IsSpace(s[0]) then 0
    else
      var m := LeadingSpace(s[1..]);
      assert s[..m + 1] == [s[0]] + s[1..][..m];
      1 + m
  }

  /** Number of trailing whitespace characters. */
  function TrailingSpace(s: string): (n: nat)
    ensures n <= |s|
    ensures AllSpace(s[|s| - n..])
    ensures n < |s| ==> !IsSpace(s[|s| - n - 1])
  {
    if |s| == 0 || !IsSpace(s[|s| - 1]) then 0
    else
      var p := s[..|s| - 1];
      var m := TrailingSpace(p);
      assert s[|s| - (m + 1)..] == p[|p| - m..] + [s[|s| - 1]];
      assert m < |p| ==> s[|s| - (m + 1) - 1] == p[|p| - m - 1];
      1 + m
  }

  /** Python's `str.strip()` with no argument: no whitespace at either
      end, and never longer than the input. `StripPiece` says which piece
      of the input it is. */
  function Strip(s: string): (r: string)
    ensures Trimmed(r)
    ensures |r| <= |s|
  {
    var t := s[LeadingSpace(s)..];
    t[..|t| - TrailingSpace(t)]
  }

  /** The stripped text is the piece of `s` that starts after its leading
      whitespace; only whitespace lies on either side of it. */
  lemma StripPiece(s: string)
    ensures var i := LeadingSpace(s);
            && i + |Strip(s)| <= |s|
            && s[i..i + |Strip(s)|] == Strip(s)
            && AllSpace(s[..i])
            && AllSpace(s[i + |Strip(s)|..])
  {
    var i := LeadingSpace(s);
    var t := s[i..];
    var n := TrailingSpace(t);
    var r := t[..|t| - n];
    SliceOfSlice(s, i, |t| - n);
    assert r == s[i..i + |r|];
    assert AllSpace(s[i + |r|..]) by {
      assert t[|t| - n..] == s[i + |r|..];
    }
    assert Strip(s) == r;
  }

  /** Concatenation regroups. */
  /** Dropping a prefix of `p` from `p + q` drops it from `p`. */
  lemma DropAppend<T>(p: seq<T>, q: seq<T>, k: nat)
    requires k <= |p|
    ensures (p + q)[k..] == p[k..] + q
  {
  }

  lemma ConcatAssoc<T>(p: seq<T>, q: seq<T>, r: seq<T>)
    ensures p + (q + r) == (p + q) + r
  {
  }

  /** Slicing a suffix again is slicing the whole. */
  lemma SliceOfSlice<T>(s: seq<T>, i: nat, m: nat)
    requires i + m <= |s|
    ensures s[i..][..m] == s[i..i + m]
    ensures s[i..][m..] == s[i + m..]
  {
  }

  /** `n` copies of `c`. */
  function Repeat(c: char, n: nat): (r: string)
    ensures |r| == n
    ensures forall i :: 0 <= i < n ==> r[i] == c
  {
    if n == 0 then "" else [c] + Repeat(c, n - 1)
  }

  lemma RepeatAdd(c: char, j: nat, k: nat)
    ensures Repeat(c, j) + Repeat(c, k) == Repeat(c, j + k)
  {
  }

  /** Concatenation of a sequence of strings (Python's `"".join`). */
  function Concat(parts: seq<string>): string {
    if |parts| == 0 then "" else parts[0] + Concat(parts[1..])
  }

  /** The first `n` characters, or all of them when there are fewer. */
  function Take(s: string, n: int): (r: string)
    ensures |r| == if n < 0 then 0 else if n < |s| then n else |s|
    ensures r <= s
  {
    if n <= 0 then "" else if n < |s| then s[..n] else s
  }

  /** Python's `s[:n]`: a negative `n` counts from the end. */
  function PySlice(s: string, n: int): (r: string)
    ensures r <= s
    ensures 0 <= n ==> r == Take(s, n)
    ensures n < 0 ==> |r| == if |s| + n < 0 then 0 else |s| + n
  {
    if n >= 0 then Take(s, n) else Take(s, |s| + n)
  }

  /** The non-whitespace characters of `s`, in order. */
  function NonSpace(s: string): string {
    if |s| == 0 then ""
    else if IsSpace(s[0]) then NonSpace(s[1..])
    else [s[0]] + NonSpace(s[1..])
  }

  lemma {:induction false} ConcatAppend(a: seq<string>, b: seq<string>)
    ensures Concat(a + b) == Concat(a) + Concat(b)
  {
    if |a| == 0 {
      assert a + b == b;
    } else {
      assert (a + b)[1..] == a[1..] + b;
      ConcatAppend(a[1..], b);
    }
  }

  lemma {:induction false} NonSpaceAppend(a: string, b: string)
    ensures NonSpace(a + b) == NonSpace(a) + NonSpace(b)
  {
    if |a| == 0 {
      assert a + b == b;
    } else {
      assert (a + b)[1..] == a[1..] + b;
      NonSpaceAppend(a[1..], b);
    }
  }

  lemma {:induction false} NonSpaceOfAllSpace(s: string)
    ensures AllSpace(s) <==> NonSpace(s) == ""
  {
    if |s| > 0 {
      NonSpaceOfAllSpace(s[1..]);
      if AllSpace(s) {
        assert AllSpace(s[1..]);
      } else if IsSpace(s[0]) {
        var k :| 0 <= k < |s| && !IsSpace(s[k]);
        assert !IsSpace(s[1..][k - 1]);
      }
    }
  }

  /** Stripping never changes the non-whitespace content. */
  lemma StripKeepsNonSpace(s: string)
    ensures NonSpace(Strip(s)) == NonSpace(s)
  {
    var r := Strip(s);
    var i := LeadingSpace(s);
    StripPiece(s);
    assert s == s[..i] + r + s[i + |r|..];
    NonSpaceAppend(s[..i] + r, s[i + |r|..]);
    NonSpaceAppend(s[..i], r);
    NonSpaceOfAllSpace(s[..i]);
    NonSpaceOfAllSpace(s[i + |r|..]);
  }

  /** A trimmed string with no non-whitespace content is empty. */
  lemma TrimmedBlankIsEmpty(s: string)
    requires Trimmed(s)
    requires NonSpace(s) == ""
    ensures s == ""
  {
    NonSpaceOfAllSpace(s);
  }

  /** A string that is already trimmed is its own strip. */
  lemma {:induction false} StripTrimmed(s: string)
    requires Trimmed(s)
    ensures Strip(s) == s
  {
    assert LeadingSpace(s) == 0;
    assert TrailingSpace(s) == 0;
  }
}
