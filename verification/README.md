# resonant-chat: a verified model of the dialogue core

resonant-chat has two language models hold a conversation. Alice speaks to
Bob and Bob to Alice, each through its own chat endpoint. This project
models the three pieces that carry the logic of that program and proves
what they promise.

- **The response normaliser** (`ChatAPI`) sends requests to an endpoint.
  Every request carries `Content-Type: application/json` merged with the
  caller's headers. The payload starts from `model` and the `stream` flag
  and is overlaid by the caller's payload additions. Then comes the system
  prompt, either as a top-level field or as a leading system message, and
  then the conversation.
  - A streamed body is decoded line by line, with a hard character budget
    across all increments. `data: ` lines carry either the OpenAI delta or
    the Anthropic `text_delta`, and `data: [DONE]` ends the stream. Bare
    lines carry an Ollama message.
  - A non-streamed body is resolved by the first shape that matches. The
    shapes are tried in this order: `choices[0].message.content`,
    `message.content`, `content`. The result is then cut to the budget.
- **The thinking-tag filter** (`filter_thinking_tags`) runs four passes.
  1. It removes `<think>`/`<thinking>` … `</think>`/`</thinking>` spans,
     case-insensitively and lazily, even across lines.
  2. It collapses whitespace stretches that hold three or more newlines to
     a blank line.
  3. It collapses runs of spaces to one space.
  4. It strips the text.
  It returns the filtered text together with the original.
- **The orchestrator** (`DualModelSession`) seeds each agent's history with
  its preamble and the opening message, then alternates Bob and Alice.
  - Each reply goes verbatim into the speaker's history, and possibly
    filtered into the listener's history as a user message.
  - Each reply is logged raw.
  - The loop stops at the first empty reply, at an interrupt, or after
    `max_turns - 1` replies.
  - In streaming mode, `stream_message` accumulates the increments until
    the budget is reached.

Modules:

| file | module | what it holds |
|---|---|---|
| `options.dfy` | `Options` | `Option` |
| `text.dfy` | `Text` | Python's whitespace, `str.strip`, slicing and string joining |
| `json.dfy` | `Json` | JSON values and Python's `in`, `len` and subscripts on them |
| `messages.dfy` | `Messages` | roles and chat messages |
| `chat_api.dfy` | `ChatApi` | headers, payload, line classification, the budgeted stream, the non-streamed path |
| `stream_props.dfy` | `StreamProps` | budget, stopping and skipping properties of the stream, and the worked budget example |
| `query_props.dfy` | `QueryProps` | shape order, content-block join and truncation of the non-streamed path |
| `thinking_filter.dfy` | `ThinkingFilter` | the four passes of the filter and their properties |
| `filter_examples.dfy` | `FilterExamples` | the filter on one span between words or whitespace runs, and the worked examples |
| `session.dfy` | `Session` | `swap_roles`, `stream_message`, `get_message`, `run_conversation` and its closed form |

The model treats the outside world as inputs:
- A streamed exchange is either refused, or it delivered these lines (already
  decoded text) and then ended or broke.
- JSON parsing of a line is an oracle `parse: string -> Option<Json>`.
- Python's `str()` of a dict is an oracle `strOf`. Numbers are rendered from their JSON text, booleans as `True`/`False` and `null` as `None`. A list never reaches `str()`, because a list `content` is joined block by block.
- The conversation consumes one `Turn` per loop iteration: a reply text, or
  a keyboard interrupt.

Python exceptions that the source does not catch locally become explicit
values. For example, `Step.Fault` marks a streamed line that raises inside
the generator, and `Shape.Malformed` marks a non-streamed body that the
source raises on.

## Model

| member | source | states |
|---|---|---|
| ChatApi.MergeHeaders | resonant_chat/chat_api.py:9-14 | The headers are exactly the caller's keys plus `Content-Type`. A caller's value always wins. `Content-Type` is `application/json` unless the caller sets it. |
| ChatApi.BuildPayload | resonant_chat/chat_api.py:27-45 | Keys are `model`, `messages`, `stream`, the additions' keys, and `system` only for a non-empty top-level prompt. Additions override `model`, `stream` and any other key, except a `system` that a top-level prompt replaces. The message list holds, in order: the list supplied in the additions, the inline system message (only for a non-empty prompt that is not top-level), then the conversation. |
| Messages.MessageRoundTrip | resonant_chat/chat_api.py:42-45 | A message sent as a `{role, content}` dict reads back as the same role and the same content. |
| Messages.MessagesDecode | resonant_chat/chat_api.py:45 | The message list in the request body, read back entry by entry, is the history itself: same length, same order, same roles and contents. |
| Messages.MessagesJsonAppend | resonant_chat/chat_api.py:42-45 | Encoding two parts of a history and joining the lists is the same as encoding the whole history, so `extend` after the system message keeps both in order. |
| ChatApi.Classify | resonant_chat/chat_api.py:55-63 | An empty line is skipped. A line ends the stream exactly when it starts with `data: ` and strips to `data: [DONE]`. A line that does not parse, prefixed or bare, is skipped. |
| ChatApi.Fold | resonant_chat/chat_api.py:55-115 | The decoding loop of `query_stream`, from a running character count. Each line yields at most one increment. FoldTakes and StreamBudget state what the increments are. |
| ChatApi.Offered | resonant_chat/chat_api.py:55-115 | The reference for the streamed text: the increments the lines offer when no budget applies, up to `[DONE]` or the first line that raises. There is at most one per line. FoldTakes relates it to the budgeted loop. |
| ChatApi.QueryStream | resonant_chat/chat_api.py:47-121 | A refused request yields exactly one empty increment and does not raise. Only a delivered body can raise. A delivered body yields at most one increment per line, plus one empty increment when the connection breaks. |
| StreamProps.WireFormats | resonant_chat/chat_api.py:64-113 | A `data: ` line with an OpenAI delta `content` yields that text, and so does one with an Anthropic `text_delta`. A bare line with `message.content` yields that text. |
| StreamProps.TextOnlyFromWireFormats | resonant_chat/chat_api.py:64-113 | Conversely, non-empty text comes only from those shapes: OpenAI or Anthropic after `data: `, Ollama on a bare line. |
| StreamProps.DoneLineFinishes | resonant_chat/chat_api.py:59-61 | `data: [DONE]` ends the stream whatever the parser would say. |
| StreamProps.FoldTakes | resonant_chat/chat_api.py:64-115 | Starting from a count within the budget, the emitted text is exactly the offered text cut at the remaining budget. |
| StreamProps.FoldOverBudget | resonant_chat/chat_api.py:69-74 | With the count already past the budget, nothing is emitted. |
| StreamProps.StreamBudget | resonant_chat/chat_api.py:64-121 | All increments together are at most `max_chars` long. For a delivered body they are exactly the offered text cut at `max_chars`. So they are exactly `max_chars` long when the body offers that much. |
| StreamProps.FoldStops | resonant_chat/chat_api.py:59-61 | Once the decoding loop has broken out or raised, appending more lines changes nothing. |
| StreamProps.StreamStopsAtBudget | resonant_chat/chat_api.py:69-74 | After an overflowing increment, nothing the connection delivers later is read. A break in the connection after that point does not matter. |
| StreamProps.FoldSkips | resonant_chat/chat_api.py:96-97 | A skipped line can be removed from the input without changing the fold. |
| StreamProps.SkippedLineIsInvisible | resonant_chat/chat_api.py:114-115 | A line that is empty, does not parse, or matches no shape leaves the decoded stream exactly as if it were absent. |
| StreamProps.BudgetExample | tests/test_chat_api.py:43-69 | "Hello ", "this is a ", "very long message" under a budget of 15 give "Hello this is a". |
| QueryProps.ChoicesFirst | resonant_chat/chat_api.py:160-161 | A non-empty `choices` whose first entry has `message.content` decides the reply, whatever else the body holds. |
| QueryProps.MessageSecond | resonant_chat/chat_api.py:162-163 | Without usable `choices`, `message.content` decides the reply. |
| QueryProps.ContentThird | resonant_chat/chat_api.py:164-175 | Otherwise `content` decides. A list is joined from its text blocks, and a non-string block text is a raise. Any other value is stringified. All results are stripped. |
| QueryProps.UnrecognizedExactly | resonant_chat/chat_api.py:159-178 | A dict body is unrecognised exactly when none of the three shapes is present. |
| ChatApi.ResolveShape | resonant_chat/chat_api.py:159-178 | The text of any matched shape is stripped. ChoicesFirst, MessageSecond, ContentThird and UnrecognizedExactly state which shape wins. |
| QueryProps.ContentDecides | resonant_chat/chat_api.py:164-175 | Without `choices` and without a `message` holding `content`, the `content` field alone decides the reply. |
| QueryProps.TextBlocksAppend | resonant_chat/chat_api.py:166-172 | The content-block join distributes over concatenation of block lists. |
| QueryProps.TwoTextBlocks | resonant_chat/chat_api.py:168-172 | Blocks that are not text blocks contribute nothing, and text blocks contribute their text in order. |
| ChatApi.Query | resonant_chat/chat_api.py:153-191 | A failed request and an unrecognised shape give `""`. A matched shape gives its stripped text cut to `max_chars`. The reply is never longer than `max_chars`. |
| QueryProps.QueryCut | resonant_chat/chat_api.py:180-185 | A short reply comes back whole. A longer one is exactly its first `max_chars` characters. |
| QueryProps.RepeatedReply | resonant_chat/chat_api.py:180-185 | `m` copies of a non-space character under a budget `n <= m` give exactly `n` copies. |
| QueryProps.ThousandXs | tests/test_chat_api.py:22-41 | 1000 `x` under a budget of 100 give 100 `x`. |
| Text.Strip | resonant_chat/utils.py:20 | `str.strip()`: the result has no whitespace at either end and is never longer than the input. |
| Text.StripPiece | resonant_chat/utils.py:20 | The stripped text is the piece of the input that begins after its leading whitespace, with only whitespace on either side of it. |
| Text.StripTrimmed | resonant_chat/utils.py:20 | Stripping text with no whitespace at its ends gives the text back. |
| ThinkingFilter.OpenerAt | resonant_chat/utils.py:12 | An opening tag is `<think>` or `<thinking>` matched case-insensitively (including the Unicode case variants of `i` and `k`). At most one of the two matches at a position. |
| ThinkingFilter.CloserAt | resonant_chat/utils.py:12 | The same for `</think>` and `</thinking>`. |
| ThinkingFilter.SpanAt | resonant_chat/utils.py:12 | Where a span starts, it ends after its start and within the text. SpanAtMeans characterises it both ways. |
| ThinkingFilter.NextClose | resonant_chat/utils.py:12 | The lazy `.*?`: the span ends at the nearest closing tag after the opener, and no closing tag lies before it. |
| ThinkingFilter.SpanAtMeans | resonant_chat/utils.py:12-15 | A span starts at a position exactly when an opener is there and some closer follows. It ends with the nearest such closer. Either closer closes either opener. |
| ThinkingFilter.Scan | resonant_chat/utils.py:15 | The substitution scan from a position. Its output is never longer than the text left to scan. LeftmostSpan states how it proceeds. |
| ThinkingFilter.RemoveSpans | resonant_chat/utils.py:15 | The removal pass never lengthens the text. LeftmostSpan, NoSpanUnchanged and SpanShortens state which characters it drops. |
| ThinkingFilter.LeftmostSpan | resonant_chat/utils.py:15 | Removal is leftmost-first: text before the first span is kept verbatim, the span is dropped, and the scan resumes after it. |
| ThinkingFilter.NoSpanKept | resonant_chat/utils.py:15 | Text holding no span is kept verbatim. |
| ThinkingFilter.NoSpanUnchanged | resonant_chat/utils.py:15 | The removal pass returns span-free text unchanged. |
| ThinkingFilter.SpanShortens | resonant_chat/utils.py:15 | Where a span exists, removal strictly shortens the text. |
| ThinkingFilter.UnclosedKept | resonant_chat/utils.py:12-15 | An opener with no closer at or after it survives. So does everything after it, at the end of the result. |
| ThinkingFilter.CollapseBlankLines | resonant_chat/utils.py:18 | The blank-line pass never lengthens the text. The lemmas below state what it turns each whitespace stretch into. |
| ThinkingFilter.CollapseBlankLinesBound | resonant_chat/utils.py:18 | After the blank-line pass, no whitespace stretch holds three or more newlines. |
| ThinkingFilter.CollapseBlankLinesKept | resonant_chat/utils.py:18 | Text already within that bound is left alone. |
| ThinkingFilter.CollapseBlankLinesNonSpace | resonant_chat/utils.py:18 | The blank-line pass changes only whitespace. |
| ThinkingFilter.BoundedWindows | resonant_chat/utils.py:18 | The left-to-right newline automaton implies the declarative bound on whitespace stretches. |
| ThinkingFilter.WindowsBounded | resonant_chat/utils.py:18 | The declarative bound implies the automaton. |
| ThinkingFilter.CollapseAppend | resonant_chat/utils.py:18 | Text that ends outside whitespace is a barrier for the pass: on `a + x` it gives the pass on `a` followed by the pass on `x`. |
| ThinkingFilter.BlankRunCollapsed | resonant_chat/utils.py:18 | A whitespace stretch between two solid texts that holds two newlines with more whitespace and another newline between them becomes `"\n\n"` from its first newline to its last. Spaces before the first and after the last newline are kept, and the text on either side goes through the pass on its own. |
| ThinkingFilter.NewlineRunCollapsed | resonant_chat/utils.py:18 | Any run of three or more newlines between solid text becomes exactly one blank line, `"\n\n"`. |
| ThinkingFilter.CollapseSpaces | resonant_chat/utils.py:19 | After the space pass there are never two spaces in a row. The first character is kept and the text never grows. |
| ThinkingFilter.CollapseSpacesKept | resonant_chat/utils.py:19 | Text without a double space is left alone. |
| ThinkingFilter.CollapseSpacesNonSpace | resonant_chat/utils.py:19 | The space pass changes only whitespace. |
| ThinkingFilter.SpacesAppend | resonant_chat/utils.py:19 | Text that ends outside whitespace is a barrier for the space pass: on `a + x` it gives the pass on `a` followed by the pass on `x`. |
| ThinkingFilter.RunToOne | resonant_chat/utils.py:19 | Any run of one or more spaces at the start, before solid text, becomes exactly one space. |
| ThinkingFilter.SpacesCollapsed | resonant_chat/utils.py:19 | Any run of one or more spaces between solid texts becomes exactly one space, and the texts on either side go through the pass on their own. |
| ThinkingFilter.CollapseSpacesKeepsBound | resonant_chat/utils.py:18-19 | The space pass never creates a whitespace stretch with three newlines. |
| ThinkingFilter.StripKeepsBounds | resonant_chat/utils.py:20 | Stripping keeps both the newline bound and the no-double-space property. |
| ThinkingFilter.FilterThinkingTags | resonant_chat/utils.py:6-22 | The second component is the input verbatim. The filtered text is trimmed, has no double space, has no whitespace stretch with three newlines, and is no longer than the input. |
| ThinkingFilter.FilterNonSpace | resonant_chat/utils.py:15-20 | Apart from whitespace, the filtered text is exactly the text left after span removal. |
| ThinkingFilter.FilterBlank | resonant_chat/utils.py:15-20 | Empty or whitespace-only input filters to `""`. |
| ThinkingFilter.FilterFixpoint | resonant_chat/utils.py:15-20 | The filter returns its input exactly when the input holds no span, is trimmed, has no double space and has no three-newline stretch. |
| FilterExamples.OneSpanRemoved | resonant_chat/utils.py:12-15 | With one span, opened by `<think>` or `<thinking>` and closed by `</think>` or `</thinking>`, and no other `<`, removal joins the text on both sides as it was. |
| FilterExamples.AsideBetweenWords | resonant_chat/utils.py:12-20 | A span between two words, with one space on each side, filters to the two words one space apart. |
| FilterExamples.PrivateAside | tests/test_filter_thinking.py:17-22 | "Before <think>This is private thinking</think> After" filters to "Before After". |
| FilterExamples.AsideAmidSpaces | resonant_chat/utils.py:12-20 | A span between two words, with any number of spaces on either side and at least one in all, filters to the two words exactly one space apart. |
| FilterExamples.AsideAmidBlankLines | resonant_chat/utils.py:12-20 | A span between two lines, with three or more newlines around it in all, filters to the two lines exactly one blank line apart. |
| FilterExamples.WhitespaceCleanup | tests/test_filter_thinking.py:69-74 | "Word1    <think>removed</think>    Word2" filters to "Word1 Word2", and the original comes back unchanged. |
| FilterExamples.NewlineCleanup | tests/test_filter_thinking.py:76-81 | "Line1\n\n\n<thinking>removed</thinking>\n\n\n\nLine2" filters to "Line1\n\nLine2", and the original comes back unchanged. |
| Session.SwapRoles | resonant_chat/dual_model_session.py:134-144 | Same length and same content at every position. `user` and `assistant` are exchanged, and a system message is kept as it is. |
| Session.SwapRolesInvolution | resonant_chat/dual_model_session.py:134-144 | Swapping twice gives the messages back. |
| Session.Accumulate | resonant_chat/dual_model_session.py:175-194 | The text `stream_message` accumulates. The loop runs off the end of the increments exactly when the accumulation is empty or stays below `max_chars`. Otherwise it broke at the increment that reached `max_chars`. |
| Session.AccumulatePrefix | resonant_chat/dual_model_session.py:175-194 | The accumulation is a prefix of everything the generator yielded. |
| Session.ReceivedText | resonant_chat/dual_model_session.py:171-201 | The reply of `stream_message` is trimmed and never longer than all the increments together. |
| Session.StreamMessage | resonant_chat/dual_model_session.py:171-201 | The loop returns the reference reply: the stripped accumulation of the non-empty increments up to the one that reaches `max_chars`. It returns `""` when the generator raises before that point. The reply is trimmed. |
| Session.AccumulateWithin | resonant_chat/dual_model_session.py:176-194 | Within the budget, the loop takes every increment. It runs off the end unless the increments fill the budget exactly. |
| Session.GetMessage | resonant_chat/dual_model_session.py:203-231 | A refused streamed request and a failed whole-body request both give `""`. A streamed reply is trimmed. |
| Session.StreamedReply | resonant_chat/dual_model_session.py:171-201 | End to end, a streamed reply is the stripped budget prefix of the offered text. It is `""` when the request is refused, or when a line raises before the budget is filled. |
| Session.ReplyWithinBudget | resonant_chat/dual_model_session.py:203-231 | In either mode a reply is never longer than `max_chars`. |
| Session.ForListener | resonant_chat/dual_model_session.py:349-361 | With filtering off, the listener hears the raw reply and `was_filtered` is false. With filtering on, the listener hears the filtered text, and `was_filtered` holds exactly when the filter changed the reply. |
| Session.Setup | resonant_chat/dual_model_session.py:279-321 | Alice's history is her preamble plus the opening as her own words. Bob's is his preamble plus the opening as a user message. The log gains one entry per Alice preamble message, numbered from 1. An assistant message is logged as `Alice` with Alice's model, any other as `User (to Alice)` with model `preamble`, each with its content, its length and `was_filtered` false. Then comes the opening as Alice's at turn `len(alice_preamble) + 1`. Bob's preamble is not logged, and earlier log entries stay in front. |
| Session.TakeTurn | resonant_chat/dual_model_session.py:363-441 | One answered iteration appends exactly one message to each history and one entry to the log, and leaves everything already there unchanged. The entry holds the raw reply and its length. |
| Session.Loop | resonant_chat/dual_model_session.py:327-450 | The loop only appends. Both histories and the log grow by the same number of entries, at most the iterations left, and by exactly that many when it stops at the turn limit. |
| Session.RunConversation | resonant_chat/dual_model_session.py:279-450 | After a run, each history begins with its preamble and the opening in its role, and the log begins with what was logged before. The log grows by at most `len(alice_preamble) + 1 + max(max_turns - 1, 0)` entries, that is `len(alice_preamble) + max(max_turns, 1)`. |
| Session.Answered | resonant_chat/dual_model_session.py:327-402 | The stopping iteration lies within `range(max_turns - 1)`. Every iteration before it got a non-empty reply. If the range is not used up, it stopped at an interrupt or an empty reply. |
| Session.LoopClosedForm | resonant_chat/dual_model_session.py:327-450 | The loop appends exactly one set of gains per answered iteration, up to the stopping one, and reports why it stopped (turn limit, empty reply or interrupt). |
| Session.RunClosedForm | resonant_chat/dual_model_session.py:279-450 | A whole run is the setup followed by the gains of the answered iterations. |
| Session.RunGrowth | resonant_chat/dual_model_session.py:287-441 | Each history grows by one message and the log by one entry per answered iteration. The log is at most `len(alice_preamble) + max(max_turns, 1)` entries past what was already there. |
| Session.LoggedRepliesBounded | resonant_chat/dual_model_session.py:327-441 | When every reply text is at most `m` characters long, every entry the loop logs after the setup has `char_count <= m`. With `GetMessage` replies, which `ReplyWithinBudget` keeps within `max_chars`, every logged reply is within the budget. |
| Session.AnsweredTurn | resonant_chat/dual_model_session.py:327-441 | Iteration `k` belongs to Bob when `k` is even and to Alice when it is odd. The speaker gains the raw reply as assistant and the listener gains the filtered reply as user. The log gains the raw reply at turn `len(alice_preamble) + 2 + k`, with its length and whether filtering changed it. |
| Session.MirroredHistories | resonant_chat/dual_model_session.py:363-425 | With filtering off, each agent's history after its preamble is the other's with the roles swapped. |
| Session.TailsMirrored | resonant_chat/dual_model_session.py:363-425 | With filtering off, what the answered iterations add to Alice's history is what they add to Bob's with the roles swapped. |
| Session.ThreeTurnConversation | resonant_chat/dual_model_session.py:327-441 | With `max_turns = 3`, two replies give both histories their three mirrored messages, and the run stops at the turn limit. |
| Session.SilentBob | resonant_chat/dual_model_session.py:344-346 | Whenever the range has at least one iteration, an empty first reply from Bob ends the run as an empty reply. Both histories and the log are exactly as the setup left them, whatever replies would have followed. |

## Left out

- `resonant_chat/html_dump.py`, `resonant_chat/chat.py`, and `parse_headers` and `parse_payload_additions` in `resonant_chat/utils.py` are left out. They are presentation, CLI wiring and thin wrappers over `json.loads`.
- Rendering and file naming are left out: pandoc rendering, the PATH lookup and `generate_html_filename`. They use a subprocess and randomness.
- The network, UTF-8 decoding and `json.loads` are inputs: the transport outcome, the lines as text, and the `parse` oracle. A line that fails UTF-8 decoding raises out of the generator, and the model has no such line.
- Python's `str()` of a dict is the `strOf` oracle. Its formatting is not modelled.
- `print`, `time.sleep` and `save_html_checkpoint` are left out. They are console, timing and file side effects.
- `KeyboardInterrupt` is modelled only as a `Turn.Interrupt` input at the start of an iteration that records nothing. An interrupt after an iteration's updates is not modelled.
- The end-of-run summary (`actual_turns`, total characters) is left out. It is only printed.
- The legacy shared `conversation_history` is left out. Nothing reads it.
- The system-prompt defaults of `DualModelSession.__init__` are left out. The prompt is a parameter of the payload builder.
- In the streamed path, an increment that is a non-empty list or dict is modelled as a raising line. The source yields a list slice, which makes `stream_message` raise and return `""`, or it stops when nothing fits. The text `stream_message` returns is the same in both cases. An empty list or dict counts as an empty increment.
- ChatApi.BuildPayload: requires that a `messages` payload addition be a list. On any other value the source raises while appending.
- ChatApi.BuildPayload: the payload is a map, so the insertion order of the JSON keys in the request body is not modelled. An endpoint does not depend on it.
- ChatApi.BuildPayload: when the payload additions hold a `messages` list, `payload.update` makes the payload share that list, and the source then appends the system message and extends it with the conversation in place. So `payload_additions["messages"]` itself grows with every request that reuses the same additions dict, and a later request carries the earlier ones' messages too. The model builds a fresh list on each request and does not model this accumulation.
- ChatApi.Query: requires a body the source can resolve. A `choices` entry without `message`, or a non-string `content` to strip, raises outside the `RequestException` handler.
- The preamble and opening log entries are not cut to `max_chars`. Only endpoint replies are.
- Messages.Role: a preamble message may carry any role string, since nothing in the source checks roles. The model has only `user`, `assistant` and `system`. Any other role would behave like `system`: `swap_roles` keeps the message as it is (`resonant_chat/dual_model_session.py:142-143`), and the setup logs it as `User (to Alice)` with model `preamble` (`resonant_chat/dual_model_session.py:290-291`).
- `full_conversation_log` is never reset by `run_conversation`. A second run appends after the first, which the `prior` parameter of `Session.Setup` represents.
