/** What a compression does to a history, told without the functions that compute it:
    which messages are cleared, where the tail starts, and every message that is put in. */
module CompressionLaws {
  import opened Wrappers
  import opened Messages
  import opened Blocks
  import opened Sanitizer
  import opened BlockRepair
  import opened TokenCounter
  import opened Compressor
  import opened CompressorTheorems
  import opened Sequences

  // ----- Which messages are cleared -----

  /** A tool result of more than 200 bytes is cleared when the messages behind it alone
      reach the budget, or not even the whole history does. */
  predicate IsCleared(h: History, budget: nat, i: nat)
    requires i < |h|
  {
    && h[i].role == Tool && |h[i].content.AsTextLossy()| > 200
    && (HistoryTokens(h) < budget || (i + 1 < |h| && HistoryTokens(h[i + 1..]) >= budget))
  }

  /** `p` is `h` with the text of the cleared results replaced. */
  predicate IsPruned(h: History, budget: nat, p: History) {
    |p| == |h|
    && forall i :: 0 <= i < |h| ==>
         p[i] == if IsCleared(h, budget, i) then
                   Message(Tool, Text("[Previous tool output cleared]"), h[i].toolCalls, h[i].reasoning, h[i].name,
                           h[i].toolCallId)
                 else h[i]
  }

  lemma {:induction false} SuffixLighter(h: History, i: nat, j: nat)
    requires i <= j <= |h|
    ensures HistoryTokens(h[j..]) <= HistoryTokens(h[i..])
  {
    hide HistoryTokens;
    DropPastSplit(h, i, j);
    SplitAt(h[i..], j - i);
    HistoryTokensConcat(h[i..][..j - i], h[i..][j - i..]);
  }

  /** A position lies in front of the token boundary exactly when what follows it reaches
      the budget, or nothing does. */
  lemma InFrontOfBoundary(h: History, budget: nat, i: nat)
    requires i < |h|
    ensures i < PruneBoundary(h, budget)
       <==> HistoryTokens(h) < budget || (i + 1 < |h| && HistoryTokens(h[i + 1..]) >= budget)
  {
    hide HistoryTokens, TokenBoundary;
    BoundaryIsLast(h, budget, |h|);
    assert h[0..] == h;
    match TokenBoundary(h, budget, |h|)
    case Some(b) =>
      SuffixLighter(h, 0, b);
      if i < b {
        SuffixLighter(h, i + 1, b);
      }
    case None =>
  }

  /** Pruning clears exactly those, and leaves every other message, and everything else
      about a cleared one, as it was. */
  lemma PruningClears(h: History, budget: nat, p: History)
    ensures p == PrunedBefore(h, PruneBoundary(h, budget)) <==> IsPruned(h, budget, p)
  {
    hide HistoryTokens, PruneBoundary;
    var b := PruneBoundary(h, budget);
    var q := PrunedBefore(h, b);
    forall i | 0 <= i < |h|
      ensures q[i] == if IsCleared(h, budget, i) then
                        Message(Tool, Text("[Previous tool output cleared]"), h[i].toolCalls, h[i].reasoning,
                                h[i].name, h[i].toolCallId)
                      else h[i]
    {
      InFrontOfBoundary(h, budget, i);
    }
  }

  // ----- Where the tail starts -----

  /** The tail is the shortest one that begins with no tool result, holds three messages
      and reaches the budget; without any, it is the whole history. */
  predicate IsTail(h: History, budget: nat, t: nat) {
    && (t > 0 ==> t + 3 <= |h| && h[t].role != Tool && HistoryTokens(h[t..]) >= budget)
    && forall k :: t < k && k + 3 <= |h| && HistoryTokens(h[k..]) >= budget ==> h[k].role == Tool
  }

  /** Between the aligned start and the place it was aligned from, there are results only. */
  lemma {:induction false} AlignedSkipsResults(h: History, u: nat, k: nat)
    requires BlocksOk(h) && u < |h| && Aligned(h, u) < k <= u
    ensures h[k].role == Tool
  {
    if h[u].role == Tool {
      var c := LastBoundary(h, u);
      ToolIsInsideBlock(h, u);
      InsideIsResult(h, c, u, u);
      forall j | c < j < u ensures !Issues(h[j], h[u].toolCallId.value) {
        InsideIsResult(h, c, u, j);
      }
      LastIssuerIs(h, h[u].toolCallId.value, c, u, u);
      InsideIsResult(h, c, u, k);
    }
  }

  lemma TailIffStart(h: History, budget: nat, t: nat)
    requires BlocksOk(h)
    ensures t == TailStart(h, budget) <==> IsTail(h, budget, t)
  {
    TailIsThere(h, budget);
    hide TailStart, HistoryTokens;
  }

  lemma TailIsThere(h: History, budget: nat)
    requires BlocksOk(h)
    ensures IsTail(h, budget, TailStart(h, budget))
  {
    hide HistoryTokens, TokenBoundary, BlocksOk, LastIssuer;
    BoundaryIsLast(h, budget, |h|);
    var u := Min(RawTailStart(h, budget), MaxTailStart(h));
    var t := TailStart(h, budget);
    TailStartsBetweenBlocks(h, budget);
    if t > 0 {
      SuffixLighter(h, t, RawTailStart(h, budget));
    }
    forall k | t < k && k + 3 <= |h| && HistoryTokens(h[k..]) >= budget ensures h[k].role == Tool {
      AlignedSkipsResults(h, u, k);
    }
  }

  /** On any history the realignment goes back to the nearest message that made the call. */
  lemma {:induction false} NearestIssuer(h: History, id: string, n: nat, fallback: nat)
    requires n <= |h|
    ensures var j := LastIssuer(h, id, n, fallback);
            if exists i :: 0 <= i < n && Issues(h[i], id) then
              j < n && Issues(h[j], id) && forall i :: j < i < n ==> !Issues(h[i], id)
            else j == fallback
  {
    if n > 0 && !Issues(h[n - 1], id) {
      NearestIssuer(h, id, n - 1, fallback);
    }
  }

  // ----- Every message that is put in -----

  predicate IsStub(m: Message, id: string) {
    m == Message(Tool, Text("[Tool result removed during compression]"), [], None, None, Some(id))
  }

  /** `out` is `head` with stubs behind the message in front of `b`: each answers one of
      that message's calls whose result did not stay. */
  ghost predicate OnlyStubsAdded(head: History, out: History, b: nat, stubs: History) {
    && b <= |head| && out == head[..b] + (stubs + head[b..])
    && (stubs != [] ==> b > 0 && head[b - 1].role == Assistant && forall m :: m in head[b..] ==> m.role == Tool)
    && forall m :: m in stubs ==>
         exists id :: IsStub(m, id) && id in CallIds(head[b - 1].toolCalls) && id !in AnsweredIds(head[b..])
  }

  lemma {:induction false} StubsAre(ids: seq<string>)
    ensures forall m :: m in StubsBackwards(ids) ==>
              exists id :: id in ids && IsStub(m, id)
  {
    if ids != [] {
      StubsAre(ids[1..]);
      HeadAndTail(ids);
      assert StubsBackwards(ids) == StubsBackwards(ids[1..]) + [Stub(ids[0])];
      assert ids[0] in ids;
    }
  }

  lemma StubsInPlace(front: History, pb: History, ids: seq<string>)
    requires pb != [] && pb[0].role == Assistant && (forall m :: m in pb[1..] ==> m.role == Tool)
    requires forall id :: id in ids ==> id in CallIds(pb[0].toolCalls) && id !in AnsweredIds(pb[1..])
    ensures OnlyStubsAdded(front + pb, front + Completed(pb, ids), |front| + 1, StubsBackwards(ids))
  {
    hide CallIds, AnsweredIds;
    var stubs, head, b := StubsBackwards(ids), front + pb, |front| + 1;
    StubsAre(ids);
    assert head[..b] == front + [pb[0]] && head[b..] == pb[1..] && head[b - 1] == pb[0];
    Associative(front, [pb[0]], stubs + pb[1..]);
  }

  lemma CompletedAddsStubs(h: History, k: nat, t: nat, summary: string, ids: seq<string>)
    requires WellFormed(h) && k <= t <= |h| && BlocksOk(h[t..])
    requires Enumerates(ids, Missing(CutOut(h, k, t, summary)))
    ensures exists b, stubs :: OnlyStubsAdded(h[..k], CompletedHead(h, k, ids), b, stubs)
  {
    hide BlocksOk, NoDuplicates, CutOut, Missing, LastBoundary, OnlyStubsAdded, Completed, PartialBlock, CompletedHead;
    LostCalls(h, k, t, summary);
    HeadIsBlocksThenPartial(h, k);
    HeadCompleted(h, k, ids);
  }

  lemma HeadCompleted(h: History, k: nat, ids: seq<string>)
    requires k <= |h| && PartialBlock(h[LastBoundary(h, k)..k])
    requires var c := LastBoundary(h, k); h[..k] == h[..c] + h[c..k]
    requires var pb := h[LastBoundary(h, k)..k];
             forall id :: id in ids ==> id in IssuedIds(pb) && id !in AnsweredIds(pb)
    ensures exists b, stubs :: OnlyStubsAdded(h[..k], CompletedHead(h, k, ids), b, stubs)
  {
    hide LastBoundary, OnlyStubsAdded, Completed, NoDuplicates;
    var c := LastBoundary(h, k);
    var pb := h[c..k];
    PartialBlockIds(pb);
    if pb == [] {
      NothingCompleted(h[..c], ids);
      EmptyConcat(h[..c]);
      assert h[..k] == h[..c] && CompletedHead(h, k, ids) == h[..c] + Completed([], ids);
    } else {
      StubsInPlace(h[..c], pb, ids);
      assert CompletedHead(h, k, ids) == h[..c] + Completed(pb, ids) && h[..k] == h[..c] + pb;
    }
  }

  lemma NothingCompleted(front: History, ids: seq<string>)
    ensures OnlyStubsAdded(front, front + Completed([], ids), |front|, [])
  {
  }

  /** The summarising model's text, or a notice that there is none. */
  predicate IsSummary(reply: Result<string, string>, text: string) {
    match reply
    case Ok(summary) => text == summary
    case Err(_) => text == "[Context compressed - summary unavailable]"
  }

  /** `out` is `head` with stubs, the summary in its wrapping, and `tail`. */
  ghost predicate IsJoined(out: History, head: History, text: string, tail: History) {
    exists stubbed, b, stubs ::
      && OnlyStubsAdded(head, stubbed, b, stubs)
      && out == stubbed + ([Message(User, Text("<context-summary>\n" + text + "\n</context-summary>"), [], None, None,
                                    None)] + tail)
  }

  /** What a compression of `h` may come to, given which messages it cleared and where the
      tail it kept starts. */
  ghost predicate IsCompressed(cfg: CompressionConfig, previous: Option<string>, summarizer: Summarizer,
                               memory: Option<string>, h: History, p: History, t: nat, c: Compression)
    requires t <= |p|
  {
    var k := if cfg.protectHeadMessages <= |h| then cfg.protectHeadMessages else |h|;
    if k >= t then c == Compression(p, previous, NotNeeded)
    else
      && c.previousSummary.Some?
      && IsSummary(summarizer(previous, p[k..t], memory), c.previousSummary.value)
      && IsJoined(c.history, p[..k], c.previousSummary.value, p[t..])
      && c.result == Compressed(HistoryTokens(h), HistoryTokens(c.history), t - k, |c.history|)
  }

  /** Main result: compressing complete blocks clears exactly the results in front of the
      token boundary, keeps exactly the head and tail asked for, puts one summary between
      them, and adds stubs for the calls whose results went, and nothing else. */
  lemma CompressionMeans(cfg: CompressionConfig, previous: Option<string>, summarizer: Summarizer,
                         memory: Option<string>, iterate: set<string> -> seq<string>, h: History)
    requires WellFormed(h) && forall s :: Enumerates(iterate(s), s)
    ensures exists p, t: nat ::
              && IsPruned(h, cfg.tailBudget, p) && IsTail(p, cfg.tailBudget, t) && t <= |p|
              && IsCompressed(cfg, previous, summarizer, memory, h, p, t,
                              Compress(cfg, previous, summarizer, memory, iterate, h))
    ensures WellFormed(Compress(cfg, previous, summarizer, memory, iterate, h).history)
  {
    hide WellFormed, Compress, TailStart, Enumerates, PrunedBefore, PruneBoundary, HistoryTokens, IsPruned, IsTail,
         IsCompressed;
    var p := PrunedBefore(h, PruneBoundary(h, cfg.tailBudget));
    CompressionKeepsBlocks(cfg, previous, summarizer, memory, iterate, h);
    PruningKeepsBlocks(h, PruneBoundary(h, cfg.tailBudget));
    PruningClears(h, cfg.tailBudget, p);
    PrunedIsWellFormed(p);
    TailIffStart(p, cfg.tailBudget, TailStart(p, cfg.tailBudget));
    CutIsCompressed(cfg, previous, summarizer, memory, iterate, h);
  }

  /** The shape of a compression that replaces something, as far as it matters here. */
  lemma CutShape(cfg: CompressionConfig, previous: Option<string>, summarizer: Summarizer, memory: Option<string>,
                 iterate: set<string> -> seq<string>, h: History, p: History, k: nat, t: nat)
    requires WellFormed(h) && forall s :: Enumerates(iterate(s), s)
    requires p == PrunedBefore(h, PruneBoundary(h, cfg.tailBudget)) && t == TailStart(p, cfg.tailBudget)
    requires k == Min(cfg.protectHeadMessages, |p|)
    ensures t <= |p|
    ensures var c := Compress(cfg, previous, summarizer, memory, iterate, h);
            if k >= t then c == Compression(p, previous, NotNeeded)
            else
              var text := SummaryText(summarizer(previous, p[k..t], memory));
              var ids := iterate(Missing(CutOut(p, k, t, text)));
              && c.previousSummary == Some(text)
              && c.history == CompletedHead(p, k, ids) + ([SummaryMessage(text)] + p[t..])
              && c.result == Compressed(HistoryTokens(h), HistoryTokens(c.history), t - k, |c.history|)
  {
    hide WellFormed, Compress, TailStart, PruneBoundary, PrunedBefore, HistoryTokens, CompletedHead, CutOut, Missing,
         MessageTokens, SummaryMessage, SummaryText, Enumerates;
    CompressionShape(cfg, previous, summarizer, memory, iterate, h);
  }

  lemma CutIsCompressed(cfg: CompressionConfig, previous: Option<string>, summarizer: Summarizer,
                        memory: Option<string>, iterate: set<string> -> seq<string>, h: History)
    requires WellFormed(h) && forall s :: Enumerates(iterate(s), s)
    ensures var p := PrunedBefore(h, PruneBoundary(h, cfg.tailBudget));
            IsCompressed(cfg, previous, summarizer, memory, h, p, TailStart(p, cfg.tailBudget),
                         Compress(cfg, previous, summarizer, memory, iterate, h))
  {
    hide WellFormed, Compress, TailStart, PruneBoundary, PrunedBefore, HistoryTokens, CompletedHead, CutOut, Missing,
         SummaryMessage, Enumerates, IsJoined;
    var p := PrunedBefore(h, PruneBoundary(h, cfg.tailBudget));
    var k, t := Min(cfg.protectHeadMessages, |p|), TailStart(p, cfg.tailBudget);
    CutShape(cfg, previous, summarizer, memory, iterate, h, p, k, t);
    if k < t {
      PruningKeepsBlocks(h, PruneBoundary(h, cfg.tailBudget));
      var text := SummaryText(summarizer(previous, p[k..t], memory));
      CutIsJoined(p, k, t, cfg.tailBudget, text, iterate(Missing(CutOut(p, k, t, text))));
    }
  }

  lemma CutIsJoined(p: History, k: nat, t: nat, budget: nat, text: string, ids: seq<string>)
    requires WellFormed(p) && k <= t == TailStart(p, budget) && t <= |p|
    requires Enumerates(ids, Missing(CutOut(p, k, t, text)))
    ensures IsJoined(CompletedHead(p, k, ids) + ([SummaryMessage(text)] + p[t..]), p[..k], text, p[t..])
  {
    hide NoDuplicates, TailStart, CompletedHead, CutOut, Missing, OnlyStubsAdded, BlocksOk, SummaryMessage;
    TailStartsBetweenBlocks(p, budget);
    CompletedAddsStubs(p, k, t, text, ids);
    var b, stubs :| OnlyStubsAdded(p[..k], CompletedHead(p, k, ids), b, stubs);
    SummaryWrapped(text, CompletedHead(p, k, ids), p[t..]);
  }

  lemma SummaryWrapped(text: string, head: History, tail: History)
    ensures head + ([SummaryMessage(text)] + tail)
         == head + ([Message(User, Text("<context-summary>\n" + text + "\n</context-summary>"), [], None, None, None)]
                    + tail)
  {
  }

  lemma PrunedIsWellFormed(p: History)
    requires WellFormed(p)
    ensures BlocksOk(p)
  {
  }
}
