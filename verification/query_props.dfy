/** Properties of the non-streamed response path (`ChatAPI.query`): the
    order in which the body shapes are tried, the content-block join, and
    truncation. */
module QueryProps {
  import opened Options
  import opened Text
  import opened Json
  import opened ChatApi

  /** `choices[0].message.content` is the string `c`. */
  predicate ChoiceContent(data: Json, c: string) {
    && data.JObj?
    && "choices" in data.fields
    && data.fields["choices"].JArr?
    && |data.fields["choices"].items| > 0
    && data.fields["choices"].items[0].JObj?
    && "message" in data.fields["choices"].items[0].fields
    && data.fields["choices"].items[0].fields["message"].JObj?
    && "content" in data.fields["choices"].items[0].fields["message"].fields
    && data.fields["choices"].items[0].fields["message"].fields["content"] == JStr(c)
  }

  /** `choices` is absent or empty, so the first shape is passed over. */
  predicate NoChoices(fields: map<string, Json>) {
    "choices" !in fields || PyLen(fields["choices"]) == Some(0)
  }

  /** `message.content` is the string `c`. */
  predicate MessageContent(fields: map<string, Json>, c: string) {
    && "message" in fields
    && fields["message"].JObj?
    && "content" in fields["message"].fields
    && fields["message"].fields["content"] == JStr(c)
  }

  /** `message` is absent or has no `content`, so the second shape is
      passed over. */
  predicate NoMessageContent(fields: map<string, Json>) {
    "message" !in fields || PyIn("content", fields["message"]) == Some(false)
  }

  /** First match wins: a non-empty `choices` decides the text, whatever
      else the body holds. */
  lemma ChoicesFirst(data: Json, strOf: Json -> string, c: string)
    requires ChoiceContent(data, c)
    ensures ResolveShape(data, strOf) == Matched(Strip(c))
  {
  }

  /** Without usable `choices`, `message.content` decides, whatever
      `content` holds. */
  lemma MessageSecond(data: Json, strOf: Json -> string, c: string)
    requires data.JObj? && NoChoices(data.fields) && MessageContent(data.fields, c)
    ensures ResolveShape(data, strOf) == Matched(Strip(c))
  {
  }

  /** Without usable `choices` or `message.content`, the `content` field
      decides. */
  lemma ContentDecides(data: Json, strOf: Json -> string)
    requires data.JObj? && NoChoices(data.fields) && NoMessageContent(data.fields)
    ensures ResolveShape(data, strOf) == ContentField(data, strOf)
  {
    assert MessageField(data, strOf) == ContentField(data, strOf);
  }

  /** Only then is `content` used: a list is joined block by block, any
      other value is stringified. */
  lemma ContentThird(data: Json, strOf: Json -> string)
    requires data.JObj? && NoChoices(data.fields) && NoMessageContent(data.fields) && "content" in data.fields
    ensures var c := data.fields["content"];
            && (c.JArr? && TextBlocks(c.items).Some? ==> ResolveShape(data, strOf) == Matched(Strip(TextBlocks(c.items).value)))
            && (c.JArr? && TextBlocks(c.items).None? ==> ResolveShape(data, strOf) == Malformed)
            && (c.JStr? ==> ResolveShape(data, strOf) == Matched(Strip(c.s)))
            && (!c.JArr? ==> ResolveShape(data, strOf) == Matched(Strip(PyStr(c, strOf))))
  {
  }

  /** A dict body is unrecognised exactly when none of the three shapes is
      present. */
  lemma UnrecognizedExactly(data: Json, strOf: Json -> string)
    requires data.JObj?
    ensures ResolveShape(data, strOf) == Unrecognized <==>
              NoChoices(data.fields) && NoMessageContent(data.fields) && "content" !in data.fields
  {
    var f := data.fields;
    if "choices" in f && PyLen(f["choices"]) != Some(0) {
      assert ResolveShape(data, strOf) != Unrecognized;
    } else if "message" in f && PyIn("content", f["message"]) != Some(false) {
      assert MessageField(data, strOf) != Unrecognized;
    }
  }

  /** A content block the join takes, and one it skips. */
  function TextBlock(t: string): Json {
    JObj(map["type" := JStr("text"), "text" := JStr(t)])
  }

  /** The join distributes over consecutive runs of blocks. */
  lemma {:induction false} TextBlocksAppend(a: seq<Json>, b: seq<Json>)
    requires TextBlocks(a).Some? && TextBlocks(b).Some?
    ensures TextBlocks(a + b) == Some(TextBlocks(a).value + TextBlocks(b).value)
  {
    if |a| > 0 {
      assert (a + b)[1..] == a[1..] + b;
      assert (a + b)[0] == a[0];
      var t := BlockText(a[0]).value;
      var u := TextBlocks(a[1..]).value;
      TextBlocksAppend(a[1..], b);
      assert t + (u + TextBlocks(b).value) == (t + u) + TextBlocks(b).value;
    } else {
      assert a + b == b;
      assert "" + TextBlocks(b).value == TextBlocks(b).value;
    }
  }

  /** Blocks that are not text blocks contribute nothing; text blocks
      contribute their text, in order. */
  lemma TwoTextBlocks(a: string, other: Json, b: string)
    requires !other.JObj? || GetOr(other.fields, "type", JNull) != JStr("text")
    ensures TextBlocks([TextBlock(a), other, TextBlock(b)]) == Some(a + b)
  {
    var tb := TextBlock(b);
    assert BlockText(tb) == Some(b) && BlockText(other) == Some("");
    assert [tb][1..] == [];
    assert TextBlocks([tb]) == Some(b + "");
    assert b + "" == b && "" + b == b;
    assert [other, tb][1..] == [tb];
    assert TextBlocks([other, tb]) == Some(b);
    var ta := TextBlock(a);
    assert BlockText(ta) == Some(a);
    assert [ta][1..] == [];
    assert TextBlocks([ta]) == Some(a + "");
    assert a + "" == a;
    TextBlocksAppend([TextBlock(a)], [other, TextBlock(b)]);
    assert [TextBlock(a)] + [other, TextBlock(b)] == [TextBlock(a), other, TextBlock(b)];
  }

  // ---------------------------------------------------------------------
  // Truncation
  // ---------------------------------------------------------------------

  function ChoiceBody(c: string): Json {
    JObj(map["choices" := JArr([JObj(map["message" := JObj(map["content" := JStr(c)])])])])
  }

  /** A long reply is cut to the budget; a short one comes back whole. */
  lemma QueryCut(c: string, strOf: Json -> string, maxChars: int)
    requires 0 <= maxChars
    ensures |Strip(c)| <= maxChars ==> Query(Received(ChoiceBody(c)), maxChars, strOf) == Strip(c)
    ensures maxChars < |Strip(c)| ==> Query(Received(ChoiceBody(c)), maxChars, strOf) == Strip(c)[..maxChars]
  {
    assert ChoiceContent(ChoiceBody(c), c);
    ChoicesFirst(ChoiceBody(c), strOf, c);
  }

  /** `m` copies of a non-space character under a budget `n <= m` give
      exactly `n` copies. */
  lemma RepeatedReply(ch: char, m: nat, n: nat, strOf: Json -> string)
    requires !IsSpace(ch)
    requires n <= m
    ensures Query(Received(ChoiceBody(Repeat(ch, m))), n, strOf) == Repeat(ch, n)
  {
    var s := Repeat(ch, m);
    StripTrimmed(s);
    QueryCut(s, strOf, n);
    if n < m {
      assert s[..n] == Repeat(ch, n);
    } else {
      assert s == Repeat(ch, n);
    }
  }

  /** 1000 `x` under a budget of 100 give 100 `x`. */
  lemma ThousandXs(strOf: Json -> string)
    ensures Query(Received(ChoiceBody(Repeat('x', 1000))), 100, strOf) == Repeat('x', 100)
  {
    RepeatedReply('x', 1000, 100, strOf);
  }
}
