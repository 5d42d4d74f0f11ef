/** The response normaliser of one chat endpoint (`ChatAPI`): the request
    headers and payload it sends, the line-by-line decoding of a streamed
    body under a character budget, and the resolution of a non-streamed
    body. The HTTP exchange itself is an input: a streamed response is the
    sequence of its lines (already decoded as UTF-8) and a flag saying
    whether the connection broke after them; a non-streamed response is a
    parsed body or a failure. JSON parsing is the oracle `parse`. */
module ChatApi {
  import opened Text
  import opened Options
  import opened Json
  import opened Messages

  // ---------------------------------------------------------------------
  // Headers
  // ---------------------------------------------------------------------

  /** The headers every request carries: `Content-Type: application/json`
      merged with the caller's headers, which win on a clash. */
  function MergeHeaders(extra: map<string, string>): (h: map<string, string>)
    ensures h.Keys == extra.Keys + {"Content-Type"}
    ensures forall k :: k in extra ==> h[k] == extra[k]
    ensures "Content-Type" !in extra ==> h["Content-Type"] == "application/json"
  {
    map["Content-Type" := "application/json"] + extra
  }

  // ---------------------------------------------------------------------
  // Request payload
  // ---------------------------------------------------------------------

  /** The message list a payload starts from: `[]`, unless the additions
      replaced it. */
  function PriorMessages(additions: map<string, Json>): seq<Json>
    requires "messages" in additions ==> additions["messages"].JArr?
  {
    if "messages" in additions then additions["messages"].items else []
  }

  /** The system message placed inline, when there is one to place. */
  function InlineSystem(systemPrompt: string, topLevel: bool): seq<Json> {
    if systemPrompt != "" && !topLevel then [MessageJson(Message(System, systemPrompt))] else []
  }

  /** The request body: `model` and the `stream` flag, overlaid by the
      additions, then the system prompt (a top-level `system` field or a
      leading system message), then the conversation in order. An empty
      system prompt is not sent. The source appends to whatever list sits
      under `messages`, so a non-list there is excluded. */
  function BuildPayload(model: string, stream: bool, messages: seq<Message>, systemPrompt: string,
                        additions: map<string, Json>, topLevel: bool): (p: map<string, Json>)
    requires "messages" in additions ==> additions["messages"].JArr?
    ensures p.Keys == {"model", "messages", "stream"} + additions.Keys
                      + (if systemPrompt != "" && topLevel then {"system"} else {})
    ensures "model" in additions ==> p["model"] == additions["model"]
    ensures "model" !in additions ==> p["model"] == JStr(model)
    ensures "stream" in additions ==> p["stream"] == additions["stream"]
    ensures "stream" !in additions ==> p["stream"] == JBool(stream)
    ensures forall k :: k in additions && k != "messages" && (k == "system" ==> systemPrompt == "" || !topLevel)
                        ==> p[k] == additions[k]
    ensures systemPrompt != "" && topLevel ==> p["system"] == JStr(systemPrompt)
    ensures p["messages"] == JArr(PriorMessages(additions) + InlineSystem(systemPrompt, topLevel) + MessagesJson(messages))
  {
    var base := map["model" := JStr(model), "messages" := JArr([]), "stream" := JBool(stream)] + additions;
    assert base["messages"] == JArr(PriorMessages(additions));
    var placed :=
      if systemPrompt == "" then base
      else if topLevel then base["system" := JStr(systemPrompt)]
      else base["messages" := JArr(base["messages"].items + [MessageJson(Message(System, systemPrompt))])];
    assert placed["messages"] == JArr(PriorMessages(additions) + InlineSystem(systemPrompt, topLevel));
    placed["messages" := JArr(placed["messages"].items + MessagesJson(messages))]
  }

  // ---------------------------------------------------------------------
  // Streaming: classification of one line
  // ---------------------------------------------------------------------

  /** What one streamed line contributes: nothing, the end of the stream, a
      text increment, or an exception the decoder does not catch. */
  datatype Step = Skip | Finish | Chunk(text: string) | Fault

  /** A field value used as an increment. A string is the increment. An
      empty list or dict has length 0 and is ignored by every consumer, so it
      behaves as the empty increment. Anything else makes the source raise
      (in `len`, in the slice, or when the consumer appends it). */
  function AsChunk(c: Json): Step {
    match c
    case JStr(s) => Chunk(s)
    case JArr(items) => if |items| == 0 then Chunk("") else Fault
    case JObj(fields) => if |fields| == 0 then Chunk("") else Fault
    case _ => Fault
  }

  /** `choices[0].get("delta", {})` and its `content`, once `choices` is
      known to be non-empty. */
  function OpenAiDelta(choices: Json): Step {
    match First(choices)
    case None => Fault
    case Some(c0) =>
      if !c0.JObj? then Fault
      else
        var delta := GetOr(c0.fields, "delta", JObj(map[]));
        match PyIn("content", delta)
        case None => Fault
        case Some(false) => Skip
        case Some(true) =>
          match Index(delta, "content")
          case None => Fault
          case Some(c) => AsChunk(c)
  }

  /** `delta.text` when `delta.type == "text_delta"`. */
  function AnthropicDelta(data: Json): Step {
    match PyIn("delta", data)
    case None => Fault
    case Some(false) => Skip
    case Some(true) =>
      match Index(data, "delta")
      case None => Fault
      case Some(delta) =>
        if !delta.JObj? then Fault
        else if GetOr(delta.fields, "type", JNull) == JStr("text_delta") && "text" in delta.fields
        then AsChunk(delta.fields["text"])
        else Skip
  }

  /** The payload of a `data: ` line: the OpenAI shape when `choices` is
      present and non-empty, otherwise the Anthropic shape. */
  function DataEvent(data: Json): Step {
    match PyIn("choices", data)
    case None => Fault
    case Some(false) => AnthropicDelta(data)
    case Some(true) =>
      match Index(data, "choices")
      case None => Fault
      case Some(choices) =>
        match PyLen(choices)
        case None => Fault
        case Some(n) => if n > 0 then OpenAiDelta(choices) else AnthropicDelta(data)
  }

  /** A bare JSON line: `message.content` (Ollama). */
  function OllamaMessage(data: Json): Step {
    match PyIn("message", data)
    case None => Fault
    case Some(false) => Skip
    case Some(true) =>
      match Index(data, "message")
      case None => Fault
      case Some(m) =>
        match PyIn("content", m)
        case None => Fault
        case Some(false) => Skip
        case Some(true) =>
          match Index(m, "content")
          case None => Fault
          case Some(c) => AsChunk(c)
  }

  const DataPrefix := "data: "
  const DoneLine := "data: [DONE]"

  /** The three wire formats a text increment arrives in, as well-formed JSON. */
  predicate OpenAiShape(data: Json, s: string) {
    && data.JObj?
    && "choices" in data.fields
    && data.fields["choices"].JArr?
    && |data.fields["choices"].items| > 0
    && data.fields["choices"].items[0].JObj?
    && "delta" in data.fields["choices"].items[0].fields
    && data.fields["choices"].items[0].fields["delta"].JObj?
    && "content" in data.fields["choices"].items[0].fields["delta"].fields
    && data.fields["choices"].items[0].fields["delta"].fields["content"] == JStr(s)
  }

  predicate AnthropicShape(data: Json, s: string) {
    && data.JObj?
    && ("choices" in data.fields ==> PyLen(data.fields["choices"]) == Some(0))
    && "delta" in data.fields
    && data.fields["delta"].JObj?
    && "type" in data.fields["delta"].fields
    && data.fields["delta"].fields["type"] == JStr("text_delta")
    && "text" in data.fields["delta"].fields
    && data.fields["delta"].fields["text"] == JStr(s)
  }

  predicate OllamaShape(data: Json, s: string) {
    && data.JObj?
    && "message" in data.fields
    && data.fields["message"].JObj?
    && "content" in data.fields["message"].fields
    && data.fields["message"].fields["content"] == JStr(s)
  }

  /** How one line of a streamed body is read. Empty lines are skipped; a
      `data: ` line ends the stream when it strips to `data: [DONE]`, and is
      otherwise parsed after the prefix; any other line is parsed whole. A
      line that does not parse is skipped. */
  function Classify(line: string, parse: string -> Option<Json>): (r: Step)
    ensures |line| == 0 ==> r == Skip
    ensures r == Finish <==> StartsWith(line, DataPrefix) && Strip(line) == DoneLine
    ensures StartsWith(line, DataPrefix) && Strip(line) != DoneLine && parse(line[6..]).None? ==> r == Skip
    ensures |line| > 0 && !StartsWith(line, DataPrefix) && parse(line).None? ==> r == Skip
  {
    if |line| == 0 then Skip
    else if StartsWith(line, DataPrefix) then
      if Strip(line) == DoneLine then Finish
      else
        match parse(line[6..])
        case None => Skip
        case Some(data) => DataEvent(data)
    else
      match parse(line)
      case None => Skip
      case Some(data) => OllamaMessage(data)
  }

  // ---------------------------------------------------------------------
  // Streaming: the budgeted generator
  // ---------------------------------------------------------------------

  /** How the decoding loop ended: it ran out of lines, it broke out (end
      sentinel or budget), or a line raised. */
  datatype End = Exhausted | Stopped | Raised

  datatype Yield = Yield(chunks: seq<string>, end: End)

  /** The loop of `query_stream` from a running count of emitted characters.
      An increment that would take the count past `maxChars` is cut to the
      characters that still fit (nothing if none do) and ends the loop. */
  function Fold(lines: seq<string>, parse: string -> Option<Json>, maxChars: int, count: int): (r: Yield)
    decreases |lines|
    ensures |r.chunks| <= |lines|
  {
    if |lines| == 0 then Yield([], Exhausted)
    else
      match Classify(lines[0], parse)
      case Skip => Fold(lines[1..], parse, maxChars, count)
      case Finish => Yield([], Stopped)
      case Fault => Yield([], Raised)
      case Chunk(c) =>
        if count + |c| > maxChars then
          Yield(if maxChars - count > 0 then [c[..maxChars - count]] else [], Stopped)
        else
          var rest := Fold(lines[1..], parse, maxChars, count + |c|);
          Yield([c] + rest.chunks, rest.end)
  }

  /** The HTTP side of a streamed exchange: the request failed (connection
      error or error status), or the body delivered these lines and then
      either ended or broke. */
  datatype Transport = Refused | Delivered(lines: seq<string>, broken: bool)

  /** Everything the generator yields if pulled to the end, and whether it
      then raises instead of finishing. */
  datatype Decoded = Decoded(chunks: seq<string>, raised: bool)

  /** `ChatAPI.query_stream`. A transport failure is reported as one empty
      increment. */
  function QueryStream(t: Transport, parse: string -> Option<Json>, maxChars: int): (r: Decoded)
    ensures t.Refused? ==> r == Decoded([""], false)
    ensures r.raised ==> t.Delivered?
    ensures t.Delivered? ==> |r.chunks| <= |t.lines| + 1
  {
    match t
    case Refused => Decoded([""], false)
    case Delivered(lines, broken) =>
      var y := Fold(lines, parse, maxChars, 0);
      Decoded(y.chunks + (if y.end == Exhausted && broken then [""] else []), y.end == Raised)
  }

  /** Reference for the streamed text: every increment the lines offer, in
      order, up to the end sentinel or the first line that raises. */
  function Offered(lines: seq<string>, parse: string -> Option<Json>): (r: seq<string>)
    decreases |lines|
    ensures |r| <= |lines|
  {
    if |lines| == 0 then []
    else
      match Classify(lines[0], parse)
      case Skip => Offered(lines[1..], parse)
      case Finish => []
      case Fault => []
      case Chunk(c) => [c] + Offered(lines[1..], parse)
  }

  function Budget(maxChars: int): nat {
    if maxChars < 0 then 0 else maxChars
  }

  // ---------------------------------------------------------------------
  // Non-streaming
  // ---------------------------------------------------------------------

  /** The outcome of shape resolution: the stripped text of the first shape
      that matches, no recognised shape, or a body the source raises on. */
  datatype Shape = Matched(text: string) | Unrecognized | Malformed

  /** A non-streamed exchange: failure (connection error, error status, or a
      body that is not JSON, which `requests` reports the same way), or the
      parsed body. */
  datatype HttpBody = Failed | Received(body: Json)

  /** What one content block adds to the join: the `text` of a dict block
      whose `type` is `"text"`, nothing for any other block, and `None` when
      such a `text` is not a string (the join raises). */
  function BlockText(b: Json): Option<string> {
    if b.JObj? && GetOr(b.fields, "type", JNull) == JStr("text") then
      match GetOr(b.fields, "text", JStr(""))
      case JStr(t) => Some(t)
      case _ => None
    else Some("")
  }

  /** The blocks' texts concatenated in order; `None` when any block's
      `text` is not a string. */
  function TextBlocks(blocks: seq<Json>): Option<string> {
    if |blocks| == 0 then Some("")
    else
      var here := BlockText(blocks[0]);
      var rest := TextBlocks(blocks[1..]);
      if here.Some? && rest.Some? then Some(here.value + rest.value) else None
  }

  /** Python's `str()` of a JSON value. Dicts and lists are rendered by
      `repr`, which is the oracle `strOf`. */
  function PyStr(j: Json, strOf: Json -> string): string {
    match j
    case JStr(s) => s
    case JNum(t) => t
    case JBool(b) => if b then "True" else "False"
    case JNull => "None"
    case _ => strOf(j)
  }

  /** `choices[0]["message"]["content"].strip()`. */
  function ChoiceMessage(choices: Json): Shape {
    match First(choices)
    case None => Malformed
    case Some(c0) =>
      match Index(c0, "message")
      case None => Malformed
      case Some(m) =>
        match Index(m, "content")
        case None => Malformed
        case Some(c) => if c.JStr? then Matched(Strip(c.s)) else Malformed
  }

  /** A top-level `content`: a list of blocks, or anything else stringified. */
  function ContentField(data: Json, strOf: Json -> string): Shape {
    match PyIn("content", data)
    case None => Malformed
    case Some(false) => Unrecognized
    case Some(true) =>
      match Index(data, "content")
      case None => Malformed
      case Some(c) =>
        if c.JArr? then
          match TextBlocks(c.items)
          case None => Malformed
          case Some(t) => Matched(Strip(t))
        else Matched(Strip(PyStr(c, strOf)))
  }

  /** `message.content`, else the `content` field. */
  function MessageField(data: Json, strOf: Json -> string): Shape {
    match PyIn("message", data)
    case None => Malformed
    case Some(false) => ContentField(data, strOf)
    case Some(true) =>
      match Index(data, "message")
      case None => Malformed
      case Some(m) =>
        match PyIn("content", m)
        case None => Malformed
        case Some(false) => ContentField(data, strOf)
        case Some(true) =>
          match Index(m, "content")
          case None => Malformed
          case Some(c) => if c.JStr? then Matched(Strip(c.s)) else Malformed
  }

  /** First match wins: `choices[0].message.content`, then
      `message.content`, then `content`. */
  function ResolveShape(data: Json, strOf: Json -> string): (r: Shape)
    ensures r.Matched? ==> Trimmed(r.text)
  {
    match PyIn("choices", data)
    case None => Malformed
    case Some(false) => MessageField(data, strOf)
    case Some(true) =>
      match Index(data, "choices")
      case None => Malformed
      case Some(choices) =>
        match PyLen(choices)
        case None => Malformed
        case Some(n) => if n > 0 then ChoiceMessage(choices) else MessageField(data, strOf)
  }

  /** A body the source can resolve without raising. */
  predicate Resolvable(resp: HttpBody, strOf: Json -> string) {
    resp.Received? ==> ResolveShape(resp.body, strOf) != Malformed
  }

  /** `ChatAPI.query`: the resolved text, cut with Python's `content[:maxChars]`
      when it is longer than `maxChars`; `""` on failure or an unrecognised
      shape. A body the source raises on (which ends the program) is
      excluded. */
  function Query(resp: HttpBody, maxChars: int, strOf: Json -> string): (r: string)
    requires Resolvable(resp, strOf)
    ensures resp.Failed? ==> r == ""
    ensures resp.Received? && ResolveShape(resp.body, strOf) == Unrecognized ==> r == ""
    ensures resp.Received? && ResolveShape(resp.body, strOf).Matched? && 0 <= maxChars ==>
              r == Take(ResolveShape(resp.body, strOf).text, maxChars)
    ensures 0 <= maxChars ==> |r| <= maxChars
  {
    match resp
    case Failed => ""
    case Received(data) =>
      match ResolveShape(data, strOf)
      case Matched(content) => if |content| > maxChars then PySlice(content, maxChars) else content
      case _ => ""
  }
}
