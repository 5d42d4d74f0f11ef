/** The orchestrator (`DualModelSession`): two agents, Alice and Bob, each
    with its own history, taking turns. Alice opens; then Bob and Alice
    alternate, each reply going verbatim into the speaker's history and,
    possibly filtered, into the listener's. Every reply is logged raw.
    What the endpoints answer is an input: one `Turn` per loop iteration. */
module Session {
  import opened Options
  import opened Text
  import opened Json
  import opened Messages
  import opened ChatApi
  import opened ThinkingFilter
  import StreamProps

  // ---------------------------------------------------------------------
  // swap_roles
  // ---------------------------------------------------------------------

  function SwapRole(r: Role): Role {
    match r
    case User => Assistant
    case Assistant => User
    case System => System
  }

  /** `swap_roles`: the same messages with `user` and `assistant`
      exchanged; any other role is kept. */
  function SwapRoles(ms: seq<Message>): (r: seq<Message>)
    ensures |r| == |ms|
    ensures forall i :: 0 <= i < |ms| ==> r[i].content == ms[i].content
    ensures forall i :: 0 <= i < |ms| ==>
              && (ms[i].role == User ==> r[i].role == Assistant)
              && (ms[i].role == Assistant ==> r[i].role == User)
              && (ms[i].role == System ==> r[i] == ms[i])
  {
    seq(|ms|, i requires 0 <= i < |ms| => Message(SwapRole(ms[i].role), ms[i].content))
  }

  /** Swapping twice gives the messages back. */
  lemma SwapRolesInvolution(ms: seq<Message>)
    ensures SwapRoles(SwapRoles(ms)) == ms
  {
    var r := SwapRoles(SwapRoles(ms));
    forall i | 0 <= i < |ms|
      ensures r[i] == ms[i]
    {
      match ms[i].role
      case User =>
      case Assistant =>
      case System =>
    }
  }

  lemma SwapRolesAppend(a: seq<Message>, b: seq<Message>)
    ensures SwapRoles(a + b) == SwapRoles(a) + SwapRoles(b)
  {
  }

  // ---------------------------------------------------------------------
  // stream_message
  // ---------------------------------------------------------------------

  /** What `stream_message` accumulates from the increments, starting from
      `count` characters: empty increments are ignored, and the loop breaks
      right after the increment that brings the count to `maxChars`. */
  function Accumulate(chunks: seq<string>, maxChars: int, count: int): (r: string)
    decreases |chunks|
    ensures Exhausts(chunks, maxChars, count) <==> r == "" || count + |r| < maxChars
  {
    if |chunks| == 0 then ""
    else if chunks[0] == "" then Accumulate(chunks[1..], maxChars, count)
    else if count + |chunks[0]| >= maxChars then chunks[0]
    else chunks[0] + Accumulate(chunks[1..], maxChars, count + |chunks[0]|)
  }

  /** Whether that loop runs off the end of the increments (and so pulls
      the generator once more, which is where it raises if it raises). */
  predicate Exhausts(chunks: seq<string>, maxChars: int, count: int)
    decreases |chunks|
  {
    if |chunks| == 0 then true
    else if chunks[0] == "" then Exhausts(chunks[1..], maxChars, count)
    else if count + |chunks[0]| >= maxChars then false
    else Exhausts(chunks[1..], maxChars, count + |chunks[0]|)
  }

  /** The reply `stream_message` returns: the stripped accumulation, or
      `""` when the generator raises before the loop breaks. */
  function ReceivedText(d: Decoded, maxChars: int): (r: string)
    ensures Trimmed(r)
    ensures |r| <= |Concat(d.chunks)|
  {
    AccumulatePrefix(d.chunks, maxChars, 0);
    if d.raised && Exhausts(d.chunks, maxChars, 0) then ""
    else Strip(Accumulate(d.chunks, maxChars, 0))
  }

  /** The accumulation is a prefix of everything the generator yielded. */
  lemma {:induction false} AccumulatePrefix(chunks: seq<string>, maxChars: int, count: int)
    decreases |chunks|
    ensures Accumulate(chunks, maxChars, count) <= Concat(chunks)
  {
    if |chunks| > 0 {
      var c := chunks[0];
      assert Concat(chunks) == c + Concat(chunks[1..]);
      if c == "" {
        AccumulatePrefix(chunks[1..], maxChars, count);
        assert Concat(chunks) == Concat(chunks[1..]);
      } else if count + |c| < maxChars {
        AccumulatePrefix(chunks[1..], maxChars, count + |c|);
      }
    }
  }

  /** One step of the loop below, seen from position `i`. */
  lemma AccumulateStep(chunks: seq<string>, i: nat, maxChars: int, count: int)
    requires i < |chunks|
    ensures var c := chunks[i];
            Accumulate(chunks[i..], maxChars, count)
              == if c == "" then Accumulate(chunks[i + 1..], maxChars, count)
                 else if count + |c| >= maxChars then c
                 else c + Accumulate(chunks[i + 1..], maxChars, count + |c|)
    ensures var c := chunks[i];
            Exhausts(chunks[i..], maxChars, count)
              == if c == "" then Exhausts(chunks[i + 1..], maxChars, count)
                 else if count + |c| >= maxChars then false
                 else Exhausts(chunks[i + 1..], maxChars, count + |c|)
  {
    assert chunks[i..][1..] == chunks[i + 1..];
  }

  /** The loop below keeps its invariant across one increment, or breaks
      with the whole accumulation in hand. */
  lemma LoopStep(chunks: seq<string>, i: nat, maxChars: int, full: string, count: int)
    requires i < |chunks| && count == |full|
    requires Accumulate(chunks, maxChars, 0) == full + Accumulate(chunks[i..], maxChars, count)
    requires Exhausts(chunks, maxChars, 0) == Exhausts(chunks[i..], maxChars, count)
    ensures var c := chunks[i];
            c != "" && count + |c| >= maxChars ==>
              Accumulate(chunks, maxChars, 0) == full + c && !Exhausts(chunks, maxChars, 0)
    ensures var c := chunks[i];
            c == "" ==>
              && Accumulate(chunks, maxChars, 0) == full + Accumulate(chunks[i + 1..], maxChars, count)
              && Exhausts(chunks, maxChars, 0) == Exhausts(chunks[i + 1..], maxChars, count)
    ensures var c := chunks[i];
            c != "" && count + |c| < maxChars ==>
              && Accumulate(chunks, maxChars, 0) == (full + c) + Accumulate(chunks[i + 1..], maxChars, count + |c|)
              && Exhausts(chunks, maxChars, 0) == Exhausts(chunks[i + 1..], maxChars, count + |c|)
  {
    AccumulateStep(chunks, i, maxChars, count);
    var c := chunks[i];
    if c != "" && count + |c| < maxChars {
      ConcatAssoc(full, c, Accumulate(chunks[i + 1..], maxChars, count + |c|));
    }
  }

  /** `stream_message`, as the loop the source runs. */
  method StreamMessage(d: Decoded, maxChars: int) returns (text: string)
    ensures text == ReceivedText(d, maxChars)
    ensures Trimmed(text)
  {
    var full := "";
    var count := 0;
    var i := 0;
    while i < |d.chunks|
      invariant 0 <= i <= |d.chunks|
      invariant count == |full|
      invariant Accumulate(d.chunks, maxChars, 0) == full + Accumulate(d.chunks[i..], maxChars, count)
      invariant Exhausts(d.chunks, maxChars, 0) == Exhausts(d.chunks[i..], maxChars, count)
    {
      var chunk := d.chunks[i];
      LoopStep(d.chunks, i, maxChars, full, count);
      if chunk != "" {
        full := full + chunk;
        count := count + |chunk|;
        if count >= maxChars {
          return Strip(full);
        }
      }
      i := i + 1;
    }
    assert d.chunks[i..] == [];
    assert Accumulate(d.chunks, maxChars, 0) == full;
    if d.raised {
      assert Exhausts(d.chunks, maxChars, 0);
      return "";
    }
    return Strip(full);
  }

  /** Within the budget, the loop takes every increment, and it runs off
      the end unless the increments fill the budget exactly. */
  lemma {:induction false} AccumulateWithin(chunks: seq<string>, maxChars: int, count: int)
    requires count + |Concat(chunks)| <= maxChars
    ensures Accumulate(chunks, maxChars, count) == Concat(chunks)
    ensures Exhausts(chunks, maxChars, count) <==> count + |Concat(chunks)| < maxChars || Concat(chunks) == ""
  {
    if |chunks| > 0 {
      assert Concat(chunks) == chunks[0] + Concat(chunks[1..]);
      if chunks[0] == "" {
        AccumulateWithin(chunks[1..], maxChars, count);
      } else if count + |chunks[0]| >= maxChars {
        assert Concat(chunks[1..]) == "";
      } else {
        AccumulateWithin(chunks[1..], maxChars, count + |chunks[0]|);
      }
    }
  }

  /** End to end, a streamed reply is the stripped budget prefix of the text
      the body offers; it is `""` instead when a line raises before the
      budget is filled. A refused request gives `""`. */
  lemma StreamedReply(t: Transport, parse: string -> Option<Json>, maxChars: int)
    requires 0 <= maxChars
    ensures t.Refused? ==> ReceivedText(QueryStream(t, parse, maxChars), maxChars) == ""
    ensures t.Delivered? ==>
              var cut := Take(Concat(Offered(t.lines, parse)), maxChars);
              ReceivedText(QueryStream(t, parse, maxChars), maxChars)
                == if Fold(t.lines, parse, maxChars, 0).end == Raised && (|cut| < maxChars || cut == "")
                   then "" else Strip(cut)
  {
    var d := QueryStream(t, parse, maxChars);
    StreamProps.StreamBudget(t, parse, maxChars);
    if t.Refused? {
      assert Concat(d.chunks) == "";
      AccumulateWithin(d.chunks, maxChars, 0);
      StripTrimmed("");
    } else {
      AccumulateWithin(d.chunks, maxChars, 0);
    }
  }

  // ---------------------------------------------------------------------
  // get_message
  // ---------------------------------------------------------------------

  /** One exchange with an endpoint, in streaming or whole-body mode. */
  datatype Exchange = Streamed(transport: Transport) | Whole(body: HttpBody)

  /** `get_message`: the reply text of one exchange. */
  function GetMessage(x: Exchange, parse: string -> Option<Json>, strOf: Json -> string, maxChars: int): (r: string)
    requires x.Whole? ==> Resolvable(x.body, strOf)
    ensures x.Streamed? && x.transport.Refused? ==> r == ""
    ensures x.Whole? && x.body.Failed? ==> r == ""
    ensures x.Streamed? ==> Trimmed(r)
  {
    match x
    case Streamed(t) => ReceivedText(QueryStream(t, parse, maxChars), maxChars)
    case Whole(b) => Query(b, maxChars, strOf)
  }

  /** Whatever the mode, a reply never exceeds the character budget. */
  lemma ReplyWithinBudget(x: Exchange, parse: string -> Option<Json>, strOf: Json -> string, maxChars: int)
    requires x.Whole? ==> Resolvable(x.body, strOf)
    requires 0 <= maxChars
    ensures |GetMessage(x, parse, strOf, maxChars)| <= maxChars
  {
    if x.Streamed? {
      StreamedReply(x.transport, parse, maxChars);
    }
  }

  // ---------------------------------------------------------------------
  // run_conversation
  // ---------------------------------------------------------------------

  /** Who a log entry is attributed to. */
  datatype Speaker = Alice | Bob | UserToAlice

  function SpeakerName(s: Speaker): string {
    match s
    case Alice => "Alice"
    case Bob => "Bob"
    case UserToAlice => "User (to Alice)"
  }

  /** One record of the conversation log. */
  datatype LogEntry = LogEntry(turn: int, speaker: Speaker, model: string, content: string,
                               charCount: nat, wasFiltered: bool)

  datatype Config = Config(aliceModel: string, bobModel: string, maxTurns: int, filterThinking: bool,
                           alicePreamble: seq<Message>, bobPreamble: seq<Message>)

  /** Both histories and the log. */
  datatype History = History(alice: seq<Message>, bob: seq<Message>, log: seq<LogEntry>)

  /** What one loop iteration gets from the speaker's endpoint: a reply
      (possibly empty), or a keyboard interrupt. */
  datatype Turn = Interrupt | Reply(text: string)

  /** Why the loop ended. */
  datatype Stop = TurnLimit | EmptyReply | KeyboardStop

  /** The text the listener is given and whether filtering changed it. */
  function ForListener(cfg: Config, raw: string): (r: (string, bool))
    ensures !cfg.filterThinking ==> r == (raw, false)
    ensures cfg.filterThinking ==> r.0 == FilterThinkingTags(raw).0 && (r.1 <==> r.0 != raw)
  {
    if cfg.filterThinking then
      var (filtered, original) := FilterThinkingTags(raw);
      (filtered, filtered != original)
    else (raw, false)
  }

  function PreambleEntry(cfg: Config, k: nat): LogEntry
    requires k < |cfg.alicePreamble|
  {
    var m := cfg.alicePreamble[k];
    LogEntry(k + 1, if m.role == Assistant then Alice else UserToAlice,
             if m.role == Assistant then cfg.aliceModel else "preamble",
             m.content, |m.content|, false)
  }

  /** The state before the first loop iteration: each history is its
      preamble followed by the opening (Alice's own words, a user message
      to Bob); the log gains Alice's preamble, numbered from 1, then the
      opening as Alice's. Bob's preamble is not logged. `prior` is
      whatever the session had logged before. */
  function Setup(cfg: Config, opening: string, prior: seq<LogEntry>): (h: History)
    ensures h.alice == cfg.alicePreamble + [Message(Assistant, opening)]
    ensures h.bob == cfg.bobPreamble + [Message(User, opening)]
    ensures |h.log| == |prior| + |cfg.alicePreamble| + 1
    ensures h.log[..|prior|] == prior
    ensures forall k :: 0 <= k < |cfg.alicePreamble| ==>
              var m := cfg.alicePreamble[k];
              && h.log[|prior| + k].turn == k + 1
              && h.log[|prior| + k].speaker == (if m.role == Assistant then Alice else UserToAlice)
              && h.log[|prior| + k].model == (if m.role == Assistant then cfg.aliceModel else "preamble")
              && h.log[|prior| + k].content == m.content
              && h.log[|prior| + k].charCount == |m.content|
              && !h.log[|prior| + k].wasFiltered
    ensures h.log[|h.log| - 1] == LogEntry(|cfg.alicePreamble| + 1, Alice, cfg.aliceModel, opening, |opening|, false)
  {
    var pre := seq(|cfg.alicePreamble|, k requires 0 <= k < |cfg.alicePreamble| => PreambleEntry(cfg, k));
    History(cfg.alicePreamble + [Message(Assistant, opening)],
            cfg.bobPreamble + [Message(User, opening)],
            prior + pre + [LogEntry(|cfg.alicePreamble| + 1, Alice, cfg.aliceModel, opening, |opening|, false)])
  }

  /** `range(max_turns - 1)`: the number of loop iterations. */
  function TurnCount(cfg: Config): nat {
    if cfg.maxTurns - 1 > 0 then cfg.maxTurns - 1 else 0
  }

  /** The text of turn `k`, `""` for an interrupt (or past the end). */
  function RawAt(turns: seq<Turn>, k: nat): string {
    if k < |turns| && turns[k].Reply? then turns[k].text else ""
  }

  /** What iteration `i` adds to Alice's history, to Bob's, and to the log,
      for a reply `raw`. Even iterations are Bob's, odd ones Alice's. */
  function AliceGains(cfg: Config, i: nat, raw: string): Message {
    if i % 2 == 0 then Message(User, ForListener(cfg, raw).0) else Message(Assistant, raw)
  }

  function BobGains(cfg: Config, i: nat, raw: string): Message {
    if i % 2 == 0 then Message(Assistant, raw) else Message(User, ForListener(cfg, raw).0)
  }

  function LogGains(cfg: Config, i: nat, raw: string): LogEntry {
    LogEntry(|cfg.alicePreamble| + 2 + i,
             if i % 2 == 0 then Bob else Alice,
             if i % 2 == 0 then cfg.bobModel else cfg.aliceModel,
             raw, |raw|, ForListener(cfg, raw).1)
  }

  /** One successful iteration. */
  function TakeTurn(cfg: Config, h: History, i: nat, raw: string): (r: History)
    ensures |r.alice| == |h.alice| + 1 && |r.bob| == |h.bob| + 1 && |r.log| == |h.log| + 1
    ensures h.alice <= r.alice && h.bob <= r.bob && h.log <= r.log
    ensures r.log[|h.log|].content == raw && r.log[|h.log|].charCount == |raw|
  {
    History(h.alice + [AliceGains(cfg, i, raw)], h.bob + [BobGains(cfg, i, raw)], h.log + [LogGains(cfg, i, raw)])
  }

  /** The loop from iteration `i`: an interrupt or an empty reply ends it
      with nothing recorded for that iteration. */
  function Loop(cfg: Config, h: History, turns: seq<Turn>, i: nat): (r: (History, Stop))
    requires i <= TurnCount(cfg) <= |turns|
    decreases TurnCount(cfg) - i
    ensures h.alice <= r.0.alice && h.bob <= r.0.bob && h.log <= r.0.log
    ensures |r.0.alice| - |h.alice| == |r.0.bob| - |h.bob| == |r.0.log| - |h.log| <= TurnCount(cfg) - i
    ensures r.1 == TurnLimit <==> |r.0.log| - |h.log| == TurnCount(cfg) - i
  {
    if i == TurnCount(cfg) then (h, TurnLimit)
    else
      match turns[i]
      case Interrupt => (h, KeyboardStop)
      case Reply(raw) =>
        if raw == "" then (h, EmptyReply)
        else Loop(cfg, TakeTurn(cfg, h, i, raw), turns, i + 1)
  }

  /** `run_conversation`. */
  function RunConversation(cfg: Config, opening: string, prior: seq<LogEntry>, turns: seq<Turn>): (r: (History, Stop))
    requires TurnCount(cfg) <= |turns|
    ensures cfg.alicePreamble + [Message(Assistant, opening)] <= r.0.alice
    ensures cfg.bobPreamble + [Message(User, opening)] <= r.0.bob
    ensures prior <= r.0.log
    ensures |r.0.log| <= |prior| + |cfg.alicePreamble| + 1 + TurnCount(cfg)
  {
    Loop(cfg, Setup(cfg, opening, prior), turns, 0)
  }

  // ---------------------------------------------------------------------
  // The loop in closed form
  // ---------------------------------------------------------------------

  /** The iteration at which the loop stops when started at `i`: the first
      interrupt or empty reply, or the end of the range. */
  function Answered(cfg: Config, turns: seq<Turn>, i: nat): (n: nat)
    requires i <= TurnCount(cfg) <= |turns|
    decreases TurnCount(cfg) - i
    ensures i <= n <= TurnCount(cfg)
    ensures forall k :: i <= k < n ==> turns[k].Reply? && turns[k].text != ""
    ensures n < TurnCount(cfg) ==> turns[n] == Interrupt || turns[n] == Reply("")
  {
    if i == TurnCount(cfg) || turns[i] == Interrupt || turns[i] == Reply("") then i
    else
      assert turns[i].Reply? && turns[i].text != "";
      Answered(cfg, turns, i + 1)
  }

  /** What iterations `lo` to `hi - 1` add to Alice's history, to Bob's,
      and to the log. */
  function AliceTail(cfg: Config, turns: seq<Turn>, lo: nat, hi: nat): (r: seq<Message>)
    decreases hi - lo
    ensures |r| == if lo <= hi then hi - lo else 0
    ensures forall k :: lo <= k < hi ==> r[k - lo] == AliceGains(cfg, k, RawAt(turns, k))
  {
    if lo >= hi then []
    else
      var rest := AliceTail(cfg, turns, lo + 1, hi);
      [AliceGains(cfg, lo, RawAt(turns, lo))] + rest
  }

  function BobTail(cfg: Config, turns: seq<Turn>, lo: nat, hi: nat): (r: seq<Message>)
    decreases hi - lo
    ensures |r| == if lo <= hi then hi - lo else 0
    ensures forall k :: lo <= k < hi ==> r[k - lo] == BobGains(cfg, k, RawAt(turns, k))
  {
    if lo >= hi then []
    else
      var rest := BobTail(cfg, turns, lo + 1, hi);
      [BobGains(cfg, lo, RawAt(turns, lo))] + rest
  }

  function LogTail(cfg: Config, turns: seq<Turn>, lo: nat, hi: nat): (r: seq<LogEntry>)
    decreases hi - lo
    ensures |r| == if lo <= hi then hi - lo else 0
    ensures forall k :: lo <= k < hi ==> r[k - lo] == LogGains(cfg, k, RawAt(turns, k))
  {
    if lo >= hi then []
    else
      var rest := LogTail(cfg, turns, lo + 1, hi);
      [LogGains(cfg, lo, RawAt(turns, lo))] + rest
  }

  /** Appending one set of gains and then the rest is appending them all. */
  lemma GainsAppend<T>(h: seq<T>, g: T, tail: seq<T>)
    ensures (h + [g]) + tail == h + ([g] + tail)
  {
  }

  /** The loop from `i` appends exactly the gains of the iterations up to
      the stopping one, and reports why it stopped. */
  lemma {:induction false} LoopClosedForm(cfg: Config, h: History, turns: seq<Turn>, i: nat)
    requires i <= TurnCount(cfg) <= |turns|
    decreases TurnCount(cfg) - i
    ensures var n := Answered(cfg, turns, i);
            Loop(cfg, h, turns, i).0
              == History(h.alice + AliceTail(cfg, turns, i, n),
                         h.bob + BobTail(cfg, turns, i, n),
                         h.log + LogTail(cfg, turns, i, n))
    ensures var n := Answered(cfg, turns, i);
            Loop(cfg, h, turns, i).1
              == if n == TurnCount(cfg) then TurnLimit
                 else if turns[n] == Interrupt then KeyboardStop
                 else EmptyReply
  {
    var n := Answered(cfg, turns, i);
    if n == i {
      assert AliceTail(cfg, turns, i, n) == [] && h.alice + [] == h.alice;
      assert BobTail(cfg, turns, i, n) == [] && h.bob + [] == h.bob;
      assert LogTail(cfg, turns, i, n) == [] && h.log + [] == h.log;
    } else {
      var raw := turns[i].text;
      assert turns[i] == Reply(raw) && raw != "";
      assert RawAt(turns, i) == raw;
      var h' := TakeTurn(cfg, h, i, raw);
      assert Loop(cfg, h, turns, i) == Loop(cfg, h', turns, i + 1);
      assert Answered(cfg, turns, i + 1) == n;
      LoopClosedForm(cfg, h', turns, i + 1);
      assert AliceTail(cfg, turns, i, n) == [AliceGains(cfg, i, raw)] + AliceTail(cfg, turns, i + 1, n);
      assert BobTail(cfg, turns, i, n) == [BobGains(cfg, i, raw)] + BobTail(cfg, turns, i + 1, n);
      assert LogTail(cfg, turns, i, n) == [LogGains(cfg, i, raw)] + LogTail(cfg, turns, i + 1, n);
      GainsAppend(h.alice, AliceGains(cfg, i, raw), AliceTail(cfg, turns, i + 1, n));
      GainsAppend(h.bob, BobGains(cfg, i, raw), BobTail(cfg, turns, i + 1, n));
      GainsAppend(h.log, LogGains(cfg, i, raw), LogTail(cfg, turns, i + 1, n));
    }
  }

  /** The whole conversation: the setup followed by one set of gains per
      answered iteration. */
  lemma RunClosedForm(cfg: Config, opening: string, prior: seq<LogEntry>, turns: seq<Turn>)
    requires TurnCount(cfg) <= |turns|
    ensures var n := Answered(cfg, turns, 0);
            var s := Setup(cfg, opening, prior);
            RunConversation(cfg, opening, prior, turns).0
              == History(s.alice + AliceTail(cfg, turns, 0, n), s.bob + BobTail(cfg, turns, 0, n),
                         s.log + LogTail(cfg, turns, 0, n))
    ensures var n := Answered(cfg, turns, 0);
            RunConversation(cfg, opening, prior, turns).1
              == if n == TurnCount(cfg) then TurnLimit
                 else if turns[n] == Interrupt then KeyboardStop
                 else EmptyReply
  {
    LoopClosedForm(cfg, Setup(cfg, opening, prior), turns, 0);
  }

  /** Growth: each history gains one message and the log one entry per
      answered iteration, and there are at most `max(max_turns - 1, 0)` of
      those. */
  lemma RunGrowth(cfg: Config, opening: string, prior: seq<LogEntry>, turns: seq<Turn>)
    requires TurnCount(cfg) <= |turns|
    ensures var h := RunConversation(cfg, opening, prior, turns).0;
            var n := Answered(cfg, turns, 0);
            && |h.alice| == |cfg.alicePreamble| + 1 + n
            && |h.bob| == |cfg.bobPreamble| + 1 + n
            && |h.log| == |prior| + |cfg.alicePreamble| + 1 + n
            && |h.log| <= |prior| + |cfg.alicePreamble| + (if cfg.maxTurns > 1 then cfg.maxTurns else 1)
  {
    RunClosedForm(cfg, opening, prior, turns);
  }

  /** Every reply the loop logs is within whatever bound holds for the
      turn texts. Replies come from `GetMessage`, which `ReplyWithinBudget`
      keeps within `max_chars`, so every logged reply is within the budget.
      The preamble and opening entries of the setup are not cut. */
  lemma LoggedRepliesBounded(cfg: Config, opening: string, prior: seq<LogEntry>, turns: seq<Turn>, m: int)
    requires TurnCount(cfg) <= |turns|
    requires forall k :: 0 <= k < |turns| && turns[k].Reply? ==> |turns[k].text| <= m
    ensures var h := RunConversation(cfg, opening, prior, turns).0;
            var s := |Setup(cfg, opening, prior).log|;
            && s <= |h.log|
            && forall i :: s <= i < |h.log| ==> h.log[i].charCount <= m
  {
    RunClosedForm(cfg, opening, prior, turns);
    var h := RunConversation(cfg, opening, prior, turns).0;
    var n := Answered(cfg, turns, 0);
    var s := Setup(cfg, opening, prior);
    var tail := LogTail(cfg, turns, 0, n);
    assert h.log == s.log + tail;
    forall i | |s.log| <= i < |h.log|
      ensures h.log[i].charCount <= m
    {
      var k := i - |s.log|;
      assert h.log[i] == tail[k];
      assert tail[k] == LogGains(cfg, k, RawAt(turns, k));
      assert turns[k].Reply?;
    }
  }

  /** Iteration `k`, when answered: the speaker's history gains the raw
      reply as its own words, the listener's gains the (filtered) reply as
      a user message, and the log gains the raw reply with its length, its
      turn number `len(alice_preamble) + 2 + k` and whether filtering
      changed it. */
  lemma AnsweredTurn(cfg: Config, opening: string, prior: seq<LogEntry>, turns: seq<Turn>, k: nat)
    requires TurnCount(cfg) <= |turns|
    requires k < Answered(cfg, turns, 0)
    ensures var h := RunConversation(cfg, opening, prior, turns).0;
            var raw := turns[k].text;
            var heard := ForListener(cfg, raw).0;
            var speakerSide := Message(Assistant, raw);
            var listenerSide := Message(User, heard);
            var n := Answered(cfg, turns, 0);
            && |h.alice| == |cfg.alicePreamble| + 1 + n
            && |h.bob| == |cfg.bobPreamble| + 1 + n
            && |h.log| == |prior| + |cfg.alicePreamble| + 1 + n
            && raw != ""
            && h.alice[|cfg.alicePreamble| + 1 + k] == (if k % 2 == 0 then listenerSide else speakerSide)
            && h.bob[|cfg.bobPreamble| + 1 + k] == (if k % 2 == 0 then speakerSide else listenerSide)
            && h.log[|prior| + |cfg.alicePreamble| + 1 + k]
                 == LogEntry(|cfg.alicePreamble| + 2 + k, if k % 2 == 0 then Bob else Alice,
                             if k % 2 == 0 then cfg.bobModel else cfg.aliceModel,
                             raw, |raw|, cfg.filterThinking && heard != raw)
  {
    RunClosedForm(cfg, opening, prior, turns);
    var n := Answered(cfg, turns, 0);
    assert RawAt(turns, k) == turns[k].text;
    assert AliceTail(cfg, turns, 0, n)[k] == AliceGains(cfg, k, turns[k].text);
    assert BobTail(cfg, turns, 0, n)[k] == BobGains(cfg, k, turns[k].text);
    assert LogTail(cfg, turns, 0, n)[k] == LogGains(cfg, k, turns[k].text);
  }

  /** With filtering off, each agent's history after its preamble is the
      other's with the roles swapped. */
  lemma MirroredHistories(cfg: Config, opening: string, prior: seq<LogEntry>, turns: seq<Turn>)
    requires TurnCount(cfg) <= |turns|
    requires !cfg.filterThinking
    ensures var h := RunConversation(cfg, opening, prior, turns).0;
            && |cfg.alicePreamble| <= |h.alice|
            && |cfg.bobPreamble| <= |h.bob|
            && SwapRoles(h.alice[|cfg.alicePreamble|..]) == h.bob[|cfg.bobPreamble|..]
  {
    RunClosedForm(cfg, opening, prior, turns);
    var h := RunConversation(cfg, opening, prior, turns).0;
    var n := Answered(cfg, turns, 0);
    var a := AliceTail(cfg, turns, 0, n);
    var b := BobTail(cfg, turns, 0, n);
    assert h.alice == (cfg.alicePreamble + [Message(Assistant, opening)]) + a;
    assert h.bob == (cfg.bobPreamble + [Message(User, opening)]) + b;
    ConcatAssoc(cfg.alicePreamble, [Message(Assistant, opening)], a);
    ConcatAssoc(cfg.bobPreamble, [Message(User, opening)], b);
    DropAppend(cfg.alicePreamble, [Message(Assistant, opening)] + a, |cfg.alicePreamble|);
    DropAppend(cfg.bobPreamble, [Message(User, opening)] + b, |cfg.bobPreamble|);
    SwapRolesAppend([Message(Assistant, opening)], a);
    TailsMirrored(cfg, turns, n);
  }

  /** With filtering off, what an iteration adds to one history is what it
      adds to the other with the roles swapped. */
  lemma TailsMirrored(cfg: Config, turns: seq<Turn>, n: nat)
    requires !cfg.filterThinking
    ensures SwapRoles(AliceTail(cfg, turns, 0, n)) == BobTail(cfg, turns, 0, n)
  {
    var a := AliceTail(cfg, turns, 0, n);
    var b := BobTail(cfg, turns, 0, n);
    forall k | 0 <= k < n
      ensures SwapRoles(a)[k] == b[k]
    {
      assert a[k] == AliceGains(cfg, k, RawAt(turns, k));
      assert b[k] == BobGains(cfg, k, RawAt(turns, k));
    }
  }

  /** Three turns, both replies given: the opening and the two replies
      appear in both histories with mirrored roles, and the loop stops at
      the turn limit. */
  lemma ThreeTurnConversation(cfg: Config, opening: string, a: string, b: string)
    requires !cfg.filterThinking && cfg.maxTurns == 3
    requires a != "" && b != ""
    ensures var (h, stop) := RunConversation(cfg, opening, [], [Reply(a), Reply(b)]);
            && h.alice == cfg.alicePreamble + [Message(Assistant, opening), Message(User, a), Message(Assistant, b)]
            && h.bob == cfg.bobPreamble + [Message(User, opening), Message(Assistant, a), Message(User, b)]
            && |h.log| == |cfg.alicePreamble| + 3
            && stop == TurnLimit
  {
    var turns := [Reply(a), Reply(b)];
    RunClosedForm(cfg, opening, [], turns);
    assert Answered(cfg, turns, 0) == 2;
    assert AliceTail(cfg, turns, 0, 2) == [Message(User, a), Message(Assistant, b)];
    assert BobTail(cfg, turns, 0, 2) == [Message(Assistant, a), Message(User, b)];
  }

  /** Bob's empty reply ends the conversation: nothing of that turn is
      recorded. */
  lemma SilentBob(cfg: Config, opening: string, rest: seq<Turn>)
    requires cfg.maxTurns >= 2
    requires TurnCount(cfg) <= 1 + |rest|
    ensures RunConversation(cfg, opening, [], [Reply("")] + rest) == (Setup(cfg, opening, []), EmptyReply)
  {
  }
}
