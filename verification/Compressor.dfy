/** Context compression: prune long tool results, find the protected head and
    tail, replace everything between by a summary, then repair the pairing. */
module Compressor {
  import opened Wrappers
  import opened Messages
  import opened Blocks
  import opened Sanitizer
  import opened TokenCounter

  const CLEARED_TEXT := "[Previous tool output cleared]"
  const SUMMARY_UNAVAILABLE := "[Context compressed - summary unavailable]"
  const PRUNE_LIMIT := 200
  const MIN_TAIL := 3

  /** The configured fractions of the context size, already turned into token counts. */
  datatype CompressionConfig = CompressionConfig(pressureTokens: nat, tailBudget: nat, protectHeadMessages: nat)

  datatype CompressionResult =
    | NotNeeded
    | Compressed(beforeTokens: nat, afterTokens: nat, messagesRemoved: nat, messagesKept: nat)

  /** The summarising model: previous summary, messages to compress, memory contribution. */
  type Summarizer = (Option<string>, History, Option<string>) -> Result<string, string>

  // ----- Phase 1: prune tool results -----

  predicate TooLong(m: Message) {
    m.role == Tool && |m.content.AsTextLossy()| > PRUNE_LIMIT
  }

  function Pruned(m: Message): Message {
    if TooLong(m) then m.(content := Text(CLEARED_TEXT)) else m
  }

  function PrunedBefore(h: History, b: nat): (p: History)
    requires b <= |h|
    ensures |p| == |h|
    ensures forall i :: 0 <= i < |h| ==> p[i] == if i < b then Pruned(h[i]) else h[i]
  {
    seq(|h|, i requires 0 <= i < |h| => if i < b then Pruned(h[i]) else h[i])
  }

  /** The last position below `n` from which at least `budget` tokens follow. */
  function TokenBoundary(h: History, budget: nat, n: nat): (b: Option<nat>)
    requires n <= |h|
    ensures b.Some? ==> b.value < n
  {
    if n == 0 then None
    else if HistoryTokens(h[n - 1..]) >= budget then Some(n - 1)
    else TokenBoundary(h, budget, n - 1)
  }

  /** Where pruning stops: everything, when the budget is never reached. */
  function PruneBoundary(h: History, budget: nat): (b: nat)
    ensures b <= |h|
  {
    match TokenBoundary(h, budget, |h|)
    case Some(i) => i
    case None => |h|
  }

  lemma SuffixTokens(h: History, i: nat)
    requires i < |h|
    ensures HistoryTokens(h[i..]) == MessageTokens(h[i]) + HistoryTokens(h[i + 1..])
  {
  }

  lemma PruneStep(h: History, j: nat)
    requires j < |h|
    ensures PrunedBefore(h, j + 1) == PrunedBefore(h, j)[j := Pruned(h[j])]
  {
  }

  lemma PruneNothing(h: History)
    ensures PrunedBefore(h, 0) == h
  {
  }

  method PruneToolResults(log: MessageLog, tailBudget: nat)
    modifies log
    ensures log.messages == PrunedBefore(old(log.messages), PruneBoundary(old(log.messages), tailBudget))
  {
    hide MessageTokens, HistoryTokens;
    ghost var h := log.messages;
    var tailTokens := 0;
    var tailBoundary := |log.messages|;
    var i := |log.messages|;
    NoTokensAfterEnd(h);
    while i > 0
      invariant 0 <= i <= |h| && log.messages == h
      invariant tailTokens == HistoryTokens(h[i..])
      invariant tailBoundary == |h|
      invariant TokenBoundary(h, tailBudget, |h|) == TokenBoundary(h, tailBudget, i)
    {
      i := i - 1;
      SuffixTokens(h, i);
      var tokens := CountMessage(log.messages[i]);
      tailTokens := tailTokens + tokens;
      if tailTokens >= tailBudget {
        tailBoundary := i;
        break;
      }
    }
    assert tailBoundary == PruneBoundary(h, tailBudget);
    PruneNothing(h);
    var j := 0;
    while j < tailBoundary
      invariant 0 <= j <= tailBoundary <= |h|
      invariant log.messages == PrunedBefore(h, j)
    {
      PruneStep(h, j);
      if log.messages[j].role == Tool {
        var text := log.messages[j].content.AsTextLossy();
        if |text| > PRUNE_LIMIT {
          log.messages := log.messages[j := log.messages[j].(content := Text(CLEARED_TEXT))];
        }
      }
      j := j + 1;
    }
  }

  lemma NoTokensAfterEnd(h: History)
    ensures HistoryTokens(h[|h|..]) == 0
  {
  }

  // ----- Phase 2: the boundaries -----

  function Min(a: nat, b: nat): nat {
    if a <= b then a else b
  }

  /** Start of the token-protected tail: 0 when the budget is never reached. */
  function RawTailStart(h: History, budget: nat): (t: nat)
    ensures t <= |h|
  {
    match TokenBoundary(h, budget, |h|)
    case Some(i) => i
    case None => 0
  }

  function MaxTailStart(h: History): nat {
    if |h| < MIN_TAIL then 0 else |h| - MIN_TAIL
  }

  /** The nearest message before `n` that issued `id`, or `fallback`. */
  function LastIssuer(h: History, id: string, n: nat, fallback: nat): (j: nat)
    requires n <= |h|
    ensures j < n || j == fallback
  {
    if n == 0 then fallback
    else if Issues(h[n - 1], id) then n - 1
    else LastIssuer(h, id, n - 1, fallback)
  }

  /** Walks a start that lands on a tool result back to the call it answers. */
  function Aligned(h: History, t: nat): (a: nat)
    requires t <= |h|
    ensures a <= t
  {
    if t < |h| && IsResult(h[t]) then LastIssuer(h, h[t].toolCallId.value, t, t) else t
  }

  function TailStart(h: History, budget: nat): (t: nat)
    ensures t <= MaxTailStart(h)
  {
    Aligned(h, Min(RawTailStart(h, budget), MaxTailStart(h)))
  }

  method FindTailStart(h: History, tailBudget: nat) returns (tailStart: nat)
    ensures tailStart == TailStart(h, tailBudget)
  {
    hide MessageTokens, HistoryTokens;
    var accumulated := 0;
    var rawTailStart := |h|;
    var i := |h|;
    NoTokensAfterEnd(h);
    while i > 0
      invariant 0 <= i <= |h|
      invariant rawTailStart == i
      invariant accumulated == HistoryTokens(h[i..])
      invariant TokenBoundary(h, tailBudget, |h|) == TokenBoundary(h, tailBudget, i)
    {
      i := i - 1;
      SuffixTokens(h, i);
      var tokens := CountMessage(h[i]);
      accumulated := accumulated + tokens;
      rawTailStart := i;
      if accumulated >= tailBudget {
        break;
      }
    }
    assert rawTailStart == RawTailStart(h, tailBudget);
    tailStart := Min(rawTailStart, MaxTailStart(h));
    if tailStart < |h| && h[tailStart].role == Tool {
      if h[tailStart].toolCallId.Some? {
        tailStart := FindIssuer(h, h[tailStart].toolCallId.value, tailStart);
      }
    }
  }

  /** The alignment loop at the end of `FindTailStart`. */
  method FindIssuer(h: History, id: string, start: nat) returns (tailStart: nat)
    requires start <= |h|
    ensures tailStart == LastIssuer(h, id, start, start)
  {
    tailStart := start;
    var j := start;
    while j > 0
      invariant 0 <= j <= start == tailStart
      invariant LastIssuer(h, id, start, start) == LastIssuer(h, id, j, start)
    {
      j := j - 1;
      if h[j].role == Assistant && id in CallIds(h[j].toolCalls) {
        tailStart := j;
        break;
      }
    }
  }

  // ----- Phases 3 to 5 -----

  function SummaryText(reply: Result<string, string>): string {
    match reply
    case Ok(text) => text
    case Err(_) => SUMMARY_UNAVAILABLE
  }

  function SummaryMessage(summary: string): Message {
    UserMessage("<context-summary>\n" + summary + "\n</context-summary>")
  }

  /** `h` with the messages in `[from, to)` replaced by a summary. */
  function CutOut(h: History, from: nat, to: nat, summary: string): History
    requires from <= to <= |h|
  {
    h[..from] + ([SummaryMessage(summary)] + h[to..])
  }

  datatype Compression = Compression(history: History, previousSummary: Option<string>, result: CompressionResult)

  /** The whole pipeline as a function of everything it consults. */
  function Compress(cfg: CompressionConfig, previous: Option<string>, summarizer: Summarizer,
                    memory: Option<string>, iterate: set<string> -> seq<string>, h: History): Compression
  {
    var p := PrunedBefore(h, PruneBoundary(h, cfg.tailBudget));
    var headEnd := Min(cfg.protectHeadMessages, |p|);
    var tailStart := TailStart(p, cfg.tailBudget);
    if headEnd >= tailStart then
      Compression(p, previous, NotNeeded)
    else
      var summary := SummaryText(summarizer(previous, p[headEnd..tailStart], memory));
      var cut := CutOut(p, headEnd, tailStart, summary);
      var out := Sanitized(cut, iterate(Missing(cut)));
      Compression(out, Some(summary),
                  Compressed(HistoryTokens(h), HistoryTokens(out), tailStart - headEnd, |out|))
  }

  /** Once due, compression stays due while the history grows, and it becomes due at the
      latest when the history holds a quarter as many messages as the threshold. */
  lemma PressurePersists(cfg: CompressionConfig, system: string, h: History, more: History, toolCount: nat)
    ensures RequestTokens(system, h, toolCount) >= cfg.pressureTokens || 4 * |h + more| >= cfg.pressureTokens
            ==> RequestTokens(system, h + more, toolCount) >= cfg.pressureTokens
  {
    RequestGrows(system, h, more, toolCount);
    MessagesWeigh(h + more);
  }

  class ContextCompressor {
    const config: CompressionConfig
    var previousSummary: Option<string>

    constructor (config: CompressionConfig)
      ensures this.config == config && previousSummary == None
    {
      this.config := config;
      previousSummary := None;
    }

    /** Whether a request would reach the pressure threshold. */
    method ShouldCompress(system: string, messages: History, toolCount: nat) returns (needed: bool)
      ensures needed == (RequestTokens(system, messages, toolCount) >= config.pressureTokens)
    {
      var total := EstimateRequest(system, messages, toolCount);
      needed := total >= config.pressureTokens;
    }

    method Summarize(compressible: History, summarizer: Summarizer, memory: Option<string>) returns (summary: string)
      modifies this
      ensures summary == SummaryText(summarizer(old(previousSummary), compressible, memory))
      ensures previousSummary == Some(summary)
    {
      match summarizer(previousSummary, compressible, memory)
      case Ok(text) =>
        previousSummary := Some(text);
        summary := text;
      case Err(_) =>
        previousSummary := Some(SUMMARY_UNAVAILABLE);
        summary := SUMMARY_UNAVAILABLE;
    }

    method Run(log: MessageLog, summarizer: Summarizer, memory: Option<string>, iterate: set<string> -> seq<string>)
      returns (result: CompressionResult)
      requires forall s :: Enumerates(iterate(s), s)
      modifies this, log
      ensures Compression(log.messages, previousSummary, result)
              == Compress(config, old(previousSummary), summarizer, memory, iterate, old(log.messages))
    {
      hide HistoryTokens, TailStart, PrunedBefore, Sanitized, Missing, InsertAt, CutOut, SummaryText;
      var beforeTokens := HistoryTokens(log.messages);
      PruneToolResults(log, config.tailBudget);
      var headEnd := Min(config.protectHeadMessages, |log.messages|);
      var tailStart := FindTailStart(log.messages, config.tailBudget);
      if headEnd >= tailStart {
        return NotNeeded;
      }
      var messagesRemoved := tailStart - headEnd;
      var summary := Summarize(log.messages[headEnd..tailStart], summarizer, memory);
      DrainThenInsert(log.messages, headEnd, tailStart, summary);
      log.messages := log.messages[..headEnd] + log.messages[tailStart..];
      log.messages := InsertAt(log.messages, headEnd, SummaryMessage(summary));
      SanitizeToolPairs(log, iterate);
      var afterTokens := HistoryTokens(log.messages);
      return Compressed(beforeTokens, afterTokens, messagesRemoved, |log.messages|);
    }
  }

  lemma DrainThenInsert(p: History, from: nat, to: nat, summary: string)
    requires from <= to <= |p|
    ensures InsertAt(p[..from] + p[to..], from, SummaryMessage(summary)) == CutOut(p, from, to, summary)
  {
  }
}
