/** What compression promises about the history it leaves behind. */
module CompressorTheorems {
  import opened Wrappers
  import opened Messages
  import opened Blocks
  import opened Sanitizer
  import opened SanitizerTheorems
  import opened BlockRepair
  import opened TokenCounter
  import opened Compressor
  import opened Sequences

  // ----- The token boundary -----

  /** The scan finds the last position with enough tokens behind it, if there is one. */
  lemma {:induction false} BoundaryIsLast(h: History, budget: nat, n: nat)
    requires n <= |h|
    ensures var b := TokenBoundary(h, budget, n);
            && (b.Some? ==> b.value < n && HistoryTokens(h[b.value..]) >= budget)
            && (forall k :: (if b.Some? then b.value < k else 0 <= k) && k < n ==> HistoryTokens(h[k..]) < budget)
  {
    hide HistoryTokens;
    if n != 0 && HistoryTokens(h[n - 1..]) < budget {
      BoundaryIsLast(h, budget, n - 1);
    }
  }

  lemma BoundaryIsUnique(h: History, budget: nat, b: nat)
    requires b < |h| && HistoryTokens(h[b..]) >= budget
    requires forall k :: b < k < |h| ==> HistoryTokens(h[k..]) < budget
    ensures TokenBoundary(h, budget, |h|) == Some(b)
  {
    BoundaryIsLast(h, budget, |h|);
  }

  // ----- Pruning -----

  lemma PrunedTokens(m: Message)
    ensures MessageTokens(Pruned(m)) <= MessageTokens(m)
    ensures MessageTokens(Pruned(m)) == MessageTokens(m) <==> !TooLong(m)
  {
    assert |CLEARED_TEXT| == 30;
  }

  lemma PrunedBeforeSuffix(h: History, b: nat, k: nat)
    requires b <= |h| && k <= |h|
    ensures PrunedBefore(h, b)[k..] == PrunedBefore(h[k..], if b < k then 0 else b - k)
  {
  }

  /** Pruning never raises the token count, and lowers it whenever it changes anything. */
  lemma {:induction false} PruningSaves(h: History, b: nat)
    requires b <= |h|
    ensures HistoryTokens(PrunedBefore(h, b)) <= HistoryTokens(h)
    ensures HistoryTokens(PrunedBefore(h, b)) == HistoryTokens(h) <==> PrunedBefore(h, b) == h
  {
    hide MessageTokens;
    if h != [] && b != 0 {
      var p := PrunedBefore(h, b);
      PrunedBeforeSuffix(h, b, 1);
      PruningSaves(h[1..], b - 1);
      PrunedTokens(h[0]);
      HeadAndTail(h);
      HeadAndTail(p);
    } else {
      PruneNothing(h);
    }
  }

  lemma PrunedSuffixSaves(h: History, b: nat, k: nat)
    requires b <= |h| && k <= |h|
    ensures HistoryTokens(PrunedBefore(h, b)[k..]) <= HistoryTokens(h[k..])
    ensures b <= k ==> PrunedBefore(h, b)[k..] == h[k..]
  {
    hide HistoryTokens;
    PrunedBeforeSuffix(h, b, k);
    PruningSaves(h[k..], if b < k then 0 else b - k);
    PruneNothing(h[k..]);
  }

  /** The second scan, over the pruned messages, stops where the first one did. */
  lemma ScansAgree(h: History, budget: nat)
    ensures var p := PrunedBefore(h, PruneBoundary(h, budget));
            TokenBoundary(p, budget, |p|) == TokenBoundary(h, budget, |h|)
  {
    hide HistoryTokens, TokenBoundary, PrunedBefore;
    var b := PruneBoundary(h, budget);
    var p := PrunedBefore(h, b);
    BoundaryIsLast(h, budget, |h|);
    forall k | 0 <= k <= |h|
      ensures HistoryTokens(p[k..]) <= HistoryTokens(h[k..]) && (b <= k ==> p[k..] == h[k..])
    {
      PrunedSuffixSaves(h, b, k);
    }
    match TokenBoundary(h, budget, |h|)
    case Some(i) =>
      BoundaryIsUnique(p, budget, i);
    case None =>
      BoundaryIsLast(p, budget, |p|);
  }

  // ----- Pruning keeps the block structure -----

  predicate SameShape(a: History, b: History) {
    |a| == |b| && forall i :: 0 <= i < |a| ==>
      a[i].role == b[i].role && a[i].toolCalls == b[i].toolCalls && a[i].toolCallId == b[i].toolCallId
  }

  lemma {:induction false} SameShapeIds(a: History, b: History)
    requires SameShape(a, b)
    ensures IssuedIds(a) == IssuedIds(b) && AnsweredIds(a) == AnsweredIds(b)
  {
    if a != [] {
      SameShapeIds(a[1..], b[1..]);
    }
  }

  lemma SameShapeUnit(a: History, b: History)
    requires SameShape(a, b) && Unit(a)
    ensures Unit(b)
  {
    SameShapeIds(a[1..], b[1..]);
    forall m | m in b[1..] && IsCaller(a[0]) ensures IsResult(m) {
      var i :| 0 <= i < |b| - 1 && b[1..][i] == m;
      assert a[1..][i] in a[1..];
    }
  }

  lemma {:induction false} SameShapeBlocks(a: History, b: History)
    requires SameShape(a, b) && BlocksOk(a)
    ensures BlocksOk(b)
    decreases |a|
  {
    hide Unit;
    if a != [] {
      var n := UnitLength(a);
      SameShapeUnit(a[..n], b[..n]);
      SameShapeBlocks(a[n..], b[n..]);
    }
  }

  /** Pruning keeps length, roles, calls and ids, hence well-formedness. */
  lemma PruningKeepsBlocks(h: History, b: nat)
    requires b <= |h| && WellFormed(h)
    ensures SameShape(h, PrunedBefore(h, b)) && WellFormed(PrunedBefore(h, b))
  {
    SameShapeBlocks(h, PrunedBefore(h, b));
    SameShapeIds(h, PrunedBefore(h, b));
  }

  // ----- The tail starts between blocks -----

  lemma {:induction false} LastIssuerIs(h: History, id: string, c: nat, n: nat, fallback: nat)
    requires c < n <= |h| && Issues(h[c], id)
    requires forall j :: c < j < n ==> !Issues(h[j], id)
    ensures LastIssuer(h, id, n, fallback) == c
  {
    if n - 1 != c {
      LastIssuerIs(h, id, c, n - 1, fallback);
    }
  }

  lemma {:induction false} ToolIsInsideBlock(h: History, u: nat)
    requires BlocksOk(h) && u < |h| && h[u].role == Tool
    ensures LastBoundary(h, u) < u && InsideBlock(h, LastBoundary(h, u), u)
  {
    if LastBoundary(h, u) == u {
      BlocksBeforeBoundary(h, u);
      BlocksOkConcat(h[..u], h[u..]);
      SplitAt(h, u);
    }
    CutInsideBlock(h, u);
  }

  lemma InsideIsResult(h: History, c: nat, k: nat, u: nat)
    requires InsideBlock(h, c, k) && c < u <= c + |h[c].toolCalls|
    ensures IsResult(h[u]) && h[u].toolCallId.value in CallIds(h[c].toolCalls)
  {
    var rs := h[c + 1..c + 1 + |h[c].toolCalls|];
    assert rs[u - c - 1] == h[u];
    ResultsOnly(rs);
    assert h[u].toolCallId.value in multiset(AnsweredIds(rs));
  }

  /** However the boundary falls, alignment moves it in front of a whole block. */
  lemma AlignedBetweenBlocks(h: History, u: nat)
    requires BlocksOk(h) && u < |h|
    ensures h[Aligned(h, u)].role != Tool
  {
    if h[u].role == Tool {
      var c := LastBoundary(h, u);
      ToolIsInsideBlock(h, u);
      InsideIsResult(h, c, u, u);
      forall j | c < j < u ensures !Issues(h[j], h[u].toolCallId.value) {
        InsideIsResult(h, c, u, j);
      }
      LastIssuerIs(h, h[u].toolCallId.value, c, u, u);
    }
  }

  lemma TailStartsBetweenBlocks(h: History, budget: nat)
    requires BlocksOk(h)
    ensures var t := TailStart(h, budget);
            && (t < |h| ==> h[t].role != Tool)
            && BlocksOk(h[..t]) && BlocksOk(h[t..])
  {
    var u := Min(RawTailStart(h, budget), MaxTailStart(h));
    if u < |h| {
      AlignedBetweenBlocks(h, u);
    }
    CutBetweenBlocks(h, TailStart(h, budget));
  }

  // ----- What is left of the head -----

  lemma {:induction false} AnsweredPrefix(rs: History, n: nat)
    requires n <= |rs|
    ensures AnsweredIds(rs[..n]) <= AnsweredIds(rs)
  {
    SplitAt(rs, n);
    AnsweredIdsConcat(rs[..n], rs[n..]);
  }

  /** A block cut short is a partial block. */
  lemma CutBlockIsPartial(h: History, c: nat, k: nat)
    requires InsideBlock(h, c, k) && NoDuplicates(CallIds(h[c].toolCalls))
    ensures PartialBlock(h[c..k])
  {
    var calls := h[c].toolCalls;
    var rs := h[c + 1..c + 1 + |calls|];
    var part := h[c..k][1..];
    assert part == rs[..k - c - 1];
    SameCountsNoDuplicates(AnsweredIds(rs), CallIds(calls));
    AnsweredPrefix(rs, k - c - 1);
    forall id | id in AnsweredIds(part) ensures id in CallIds(calls) {
      assert id in AnsweredIds(rs);
    }
  }

  lemma SameCountsNoDuplicates(a: seq<string>, b: seq<string>)
    requires multiset(a) == multiset(b) && NoDuplicates(b)
    ensures NoDuplicates(a) && forall id :: id in a <==> id in b
  {
    SameTimesNoDuplicates(a, b);
  }

  lemma NoDuplicatesWithin(x: seq<string>, y: seq<string>, z: seq<string>)
    requires NoDuplicates(x + (y + z))
    ensures NoDuplicates(y) && NoDuplicates(x + z)
  {
    NoDuplicatesParts(x, y + z);
    NoDuplicatesParts(y, z);
    var all := x + (y + z);
    forall i, j | 0 <= i < j < |x + z| ensures (x + z)[i] != (x + z)[j] {
      var i' := if i < |x| then i else i + |y|;
      var j' := if j < |x| then j else j + |y|;
      assert all[i'] != all[j'];
    }
  }

  lemma IssuedAt(h: History, c: nat)
    requires c < |h| && h[c].role == Assistant && NoDuplicates(IssuedIds(h))
    ensures NoDuplicates(CallIds(h[c].toolCalls))
  {
    SplitAt(h, c);
    HeadAndTail(h[c..]);
    SingletonIds(h[c]);
    IssuedIdsConcat(h[..c], h[c..]);
    IssuedIdsConcat([h[c]], h[c..][1..]);
    NoDuplicatesWithin(IssuedIds(h[..c]), CallIds(h[c].toolCalls), IssuedIds(h[c..][1..]));
  }

  /** The head cut at `k`: complete blocks, then at most one partial block. */
  lemma HeadIsBlocksThenPartial(h: History, k: nat)
    requires WellFormed(h) && k <= |h|
    ensures var c := LastBoundary(h, k);
            BlocksOk(h[..c]) && PartialBlock(h[c..k]) && h[..k] == h[..c] + h[c..k]
  {
    hide BlocksOk, PartialBlock, NoDuplicates, Answers, LastBoundary;
    var c := LastBoundary(h, k);
    BlocksBeforeBoundary(h, k);
    if c < k {
      CutInsideBlock(h, k);
      IssuedAt(h, c);
      CutBlockIsPartial(h, c, k);
    } else {
      NothingIsPartial(h, k);
    }
    TakePastSplit(h, c, k);
    assert h[c..k] == h[c..][..k - c];
  }

  lemma NothingIsPartial(h: History, k: nat)
    requires k <= |h|
    ensures PartialBlock(h[k..k])
  {
  }

  /** The head as compression leaves it: stubs complete the block it was cut in. */
  function CompletedHead(h: History, k: nat, ids: seq<string>): History
    requires k <= |h|
  {
    h[..LastBoundary(h, k)] + Completed(h[LastBoundary(h, k)..k], ids)
  }

  lemma SummaryIsUnit(summary: string, rest: History)
    ensures BlocksOk([SummaryMessage(summary)] + rest) <==> BlocksOk(rest)
    ensures IssuedIds([SummaryMessage(summary)] + rest) == IssuedIds(rest)
  {
    UnitThen([SummaryMessage(summary)], rest);
    SingletonIds(SummaryMessage(summary));
    IssuedIdsConcat([SummaryMessage(summary)], rest);
    assert CallIds([]) == [];
    EmptyConcat(IssuedIds(rest));
  }

  lemma CutOutIds(h: History, k: nat, t: nat, summary: string)
    requires k <= t <= |h| && NoDuplicates(IssuedIds(h))
    ensures NoDuplicates(IssuedIds(CutOut(h, k, t, summary)))
  {
    SplitAt(h, k);
    SplitAt(h[k..], t - k);
    DropPastSplit(h, k, t);
    IssuedIdsConcat(h[..k], h[k..]);
    IssuedIdsConcat(h[k..][..t - k], h[t..]);
    NoDuplicatesWithin(IssuedIds(h[..k]), IssuedIds(h[k..][..t - k]), IssuedIds(h[t..]));
    SummaryIsUnit(summary, h[t..]);
    IssuedIdsConcat(h[..k], [SummaryMessage(summary)] + h[t..]);
  }

  /** Cutting `[k, t)` out of a well-formed history and repairing it: the head with
      its last block completed, the summary, the untouched tail. */
  lemma RepairAfterCut(h: History, k: nat, t: nat, summary: string, ids: seq<string>)
    requires WellFormed(h) && k <= t <= |h| && BlocksOk(h[t..])
    requires Enumerates(ids, Missing(CutOut(h, k, t, summary)))
    ensures var out := Sanitized(CutOut(h, k, t, summary), ids);
            && out == CompletedHead(h, k, ids) + ([SummaryMessage(summary)] + h[t..])
            && WellFormed(out)
            && |ids| + |AnsweredIds(h[LastBoundary(h, k)..k])| == |IssuedIds(h[LastBoundary(h, k)..k])|
  {
    hide BlocksOk, Sanitized, NoDuplicates, SummaryMessage, Completed, PartialBlock, Missing;
    var c := LastBoundary(h, k);
    var a, pb, b := h[..c], h[c..k], [SummaryMessage(summary)] + h[t..];
    HeadIsBlocksThenPartial(h, k);
    SummaryIsUnit(summary, h[t..]);
    Associative(a, pb, b);
    CutOutIds(h, k, t, summary);
    RepairPartialBlock(a, pb, b, ids);
    SanitizedIds(CutOut(h, k, t, summary), ids);
    BlocksOkConcat(Completed(pb, ids), b);
    BlocksOkConcat(a, Completed(pb, ids) + b);
    Associative(a, Completed(pb, ids), b);
  }

  // ----- Main results -----

  /** Compression preserves tool blocks: for every head size, tail budget, summary,
      memory text and hash order. */
  lemma CompressionKeepsBlocks(cfg: CompressionConfig, previous: Option<string>, summarizer: Summarizer,
                               memory: Option<string>, iterate: set<string> -> seq<string>, h: History)
    requires WellFormed(h) && forall s :: Enumerates(iterate(s), s)
    ensures WellFormed(Compress(cfg, previous, summarizer, memory, iterate, h).history)
  {
    hide BlocksOk, Sanitized, NoDuplicates, TailStart, PrunedBefore, CutOut, Missing;
    var p := PrunedBefore(h, PruneBoundary(h, cfg.tailBudget));
    PruningKeepsBlocks(h, PruneBoundary(h, cfg.tailBudget));
    var k, t := Min(cfg.protectHeadMessages, |p|), TailStart(p, cfg.tailBudget);
    TailStartsBetweenBlocks(p, cfg.tailBudget);
    if k < t {
      var summary := SummaryText(summarizer(previous, p[k..t], memory));
      RepairAfterCut(p, k, t, summary, iterate(Missing(CutOut(p, k, t, summary))));
    }
  }

  // ----- Exactly what is kept, removed and added -----

  const STUB_TOKENS := 14

  lemma {:induction false} StubsBackwardsTokens(ids: seq<string>)
    ensures HistoryTokens(StubsBackwards(ids)) == |ids| * STUB_TOKENS
  {
    hide MessageTokens;
    if ids != [] {
      StubsBackwardsTokens(ids[1..]);
      HistoryTokensConcat(StubsBackwards(ids[1..]), [Stub(ids[0])]);
      StubTokens(ids[0]);
    }
  }

  lemma StubTokens(id: string)
    ensures MessageTokens(Stub(id)) == STUB_TOKENS && HistoryTokens([Stub(id)]) == STUB_TOKENS
  {
    assert |STUB_TEXT| == 40;
  }

  lemma CompletedSize(pb: History, ids: seq<string>)
    requires pb == [] ==> ids == []
    ensures |Completed(pb, ids)| == |pb| + |ids|
    ensures HistoryTokens(Completed(pb, ids)) == HistoryTokens(pb) + |ids| * STUB_TOKENS
  {
    hide MessageTokens;
    if pb != [] {
      var stubs := StubsBackwards(ids);
      StubsBackwardsIds(ids);
      StubsBackwardsTokens(ids);
      HistoryTokensConcat([pb[0]], stubs + pb[1..]);
      HistoryTokensConcat(stubs, pb[1..]);
      HistoryTokensConcat([pb[0]], pb[1..]);
      HeadAndTail(pb);
    }
  }

  lemma CompletedHeadSize(h: History, k: nat, ids: seq<string>)
    requires k <= |h| && (LastBoundary(h, k) == k ==> ids == [])
    ensures |CompletedHead(h, k, ids)| == k + |ids|
    ensures HistoryTokens(CompletedHead(h, k, ids)) == HistoryTokens(h[..k]) + |ids| * STUB_TOKENS
  {
    hide HistoryTokens, Completed;
    var c := LastBoundary(h, k);
    CompletedSize(h[c..k], ids);
    HistoryTokensConcat(h[..c], Completed(h[c..k], ids));
    HistoryTokensConcat(h[..c], h[c..k]);
    assert h[..k] == h[..c] + h[c..k];
  }

  lemma CompletedWithout(pb: History, ids: seq<string>, gone: set<string>)
    requires forall id :: id in ids ==> id in gone
    requires forall id :: id in AnsweredIds(pb) ==> id !in gone
    ensures WithoutAnswers(Completed(pb, ids), gone) == pb
  {
    if pb != [] {
      var stubs := StubsBackwards(ids);
      StubsHaveIds(ids);
      HeadAndTail(pb);
      AnsweredIdsConcat([pb[0]], pb[1..]);
      assert forall id :: id in AnsweredIds([pb[0]]) ==> id in AnsweredIds(pb);
      assert forall id :: id in AnsweredIds(pb[1..]) ==> id in AnsweredIds(pb);
      WithoutAnswersAll(stubs, gone);
      WithoutAnswersNone([pb[0]], gone);
      WithoutAnswersNone(pb[1..], gone);
      WithoutAnswersConcat([pb[0]], stubs + pb[1..], gone);
      WithoutAnswersConcat(stubs, pb[1..], gone);
      EmptyConcat(pb[1..]);
    }
  }

  lemma {:induction false} StubsHaveIds(ids: seq<string>)
    ensures forall m :: m in StubsBackwards(ids) ==> IsResult(m) && m.toolCallId.value in ids
  {
    if ids != [] {
      StubsHaveIds(ids[1..]);
      HeadAndTail(ids);
    }
  }

  /** The calls that lose their result are those of the block the head cut fell in. */
  lemma LostCalls(h: History, k: nat, t: nat, summary: string)
    requires WellFormed(h) && k <= t <= |h| && BlocksOk(h[t..])
    ensures var pb := h[LastBoundary(h, k)..k];
            forall id :: id in Missing(CutOut(h, k, t, summary)) <==> id in IssuedIds(pb) && id !in AnsweredIds(pb)
    ensures forall id :: id in AnsweredIds(h[..k]) ==> id !in Missing(CutOut(h, k, t, summary))
  {
    hide BlocksOk, NoDuplicates, SummaryMessage, PartialBlock, Missing;
    var c := LastBoundary(h, k);
    var a, pb, b := h[..c], h[c..k], [SummaryMessage(summary)] + h[t..];
    HeadIsBlocksThenPartial(h, k);
    SummaryIsUnit(summary, h[t..]);
    Associative(a, pb, b);
    CutOutIds(h, k, t, summary);
    MissingFromPartialBlock(a, pb, b);
    ThreePartIds(a, pb, b);
    AnsweredIdsConcat(a, pb);
    forall id | id in AnsweredIds(h[..k]) ensures id !in Missing(CutOut(h, k, t, summary)) {
      BlocksAnswerIssued(a, id);
    }
  }

  /** The head keeps all its messages, in order; only stubs come in between. */
  lemma HeadKeepsMessages(h: History, k: nat, t: nat, summary: string, ids: seq<string>)
    requires WellFormed(h) && k <= t <= |h| && BlocksOk(h[t..])
    requires Enumerates(ids, Missing(CutOut(h, k, t, summary)))
    ensures WithoutAnswers(CompletedHead(h, k, ids), Missing(CutOut(h, k, t, summary))) == h[..k]
  {
    hide BlocksOk, NoDuplicates, Completed, WithoutAnswers, CutOut, Missing;
    var c := LastBoundary(h, k);
    var gone := Missing(CutOut(h, k, t, summary));
    assert h[..k] == h[..c] + h[c..k];
    AnsweredIdsConcat(h[..c], h[c..k]);
    LostCalls(h, k, t, summary);
    forall id
      ensures id in AnsweredIds(h[..c]) ==> id !in gone
      ensures id in AnsweredIds(h[c..k]) ==> id !in gone
    {
      assert id in AnsweredIds(h[..c]) || id in AnsweredIds(h[c..k]) ==> id in AnsweredIds(h[..k]);
    }
    WithoutAnswersNone(h[..c], gone);
    CompletedWithout(h[c..k], ids, gone);
    WithoutAnswersConcat(h[..c], Completed(h[c..k], ids), gone);
  }

  /** A block that the head cut splits ends before the tail starts, so there are
      never more stubs than removed messages. */
  lemma StubsWithinRemoved(h: History, k: nat, t: nat, ids: seq<string>)
    requires WellFormed(h) && k <= t <= |h| && (t < |h| ==> h[t].role != Tool)
    requires var pb := h[LastBoundary(h, k)..k]; |ids| + |AnsweredIds(pb)| == |IssuedIds(pb)|
    ensures |ids| <= t - k
    ensures LastBoundary(h, k) == k ==> ids == []
  {
    var c := LastBoundary(h, k);
    HeadIsBlocksThenPartial(h, k);
    PartialBlockIds(h[c..k]);
    if c < k {
      CutInsideBlock(h, k);
      ResultsOnly(h[c..k][1..]);
      if t <= c + |h[c].toolCalls| && c < t {
        InsideIsResult(h, c, k, t);
      }
    }
  }

  /** Shape and accounting of a compression that takes place: pruned head plus
      stubs, one summary, pruned tail; tokens and lengths add up. */
  lemma CompressionShape(cfg: CompressionConfig, previous: Option<string>, summarizer: Summarizer,
                         memory: Option<string>, iterate: set<string> -> seq<string>, h: History)
    requires WellFormed(h) && forall s :: Enumerates(iterate(s), s)
    ensures var p := PrunedBefore(h, PruneBoundary(h, cfg.tailBudget));
            var k, t := Min(cfg.protectHeadMessages, |p|), TailStart(p, cfg.tailBudget);
            var c := Compress(cfg, previous, summarizer, memory, iterate, h);
            if k >= t then c.history == p && c.previousSummary == previous && c.result == NotNeeded
            else
              var summary := SummaryText(summarizer(previous, p[k..t], memory));
              var lost := Missing(CutOut(p, k, t, summary));
              var ids := iterate(lost);
              var head := CompletedHead(p, k, ids);
              && c.history == head + ([SummaryMessage(summary)] + p[t..])
              && WithoutAnswers(head, lost) == p[..k]
              && |head| == k + |ids|
              && |ids| <= t - k
              && c.previousSummary == Some(summary)
              && c.result == Compressed(HistoryTokens(h), HistoryTokens(c.history), t - k, |h| - (t - k) + 1 + |ids|)
              && |c.history| == |h| - (t - k) + 1 + |ids|
              && HistoryTokens(c.history) + HistoryTokens(p[k..t])
                 == HistoryTokens(p) + MessageTokens(SummaryMessage(summary)) + |ids| * STUB_TOKENS
  {
    hide BlocksOk, Sanitized, NoDuplicates, TailStart, PrunedBefore, CutOut, Missing, HistoryTokens, MessageTokens,
         CompletedHead, WithoutAnswers, SummaryMessage, LastBoundary;
    var p := PrunedBefore(h, PruneBoundary(h, cfg.tailBudget));
    PruningKeepsBlocks(h, PruneBoundary(h, cfg.tailBudget));
    var k, t := Min(cfg.protectHeadMessages, |p|), TailStart(p, cfg.tailBudget);
    TailStartsBetweenBlocks(p, cfg.tailBudget);
    if k < t {
      var summary := SummaryText(summarizer(previous, p[k..t], memory));
      var ids := iterate(Missing(CutOut(p, k, t, summary)));
      RepairAfterCut(p, k, t, summary, ids);
      StubsWithinRemoved(p, k, t, ids);
      HeadKeepsMessages(p, k, t, summary, ids);
      CompletedHeadSize(p, k, ids);
      CutTokens(p, k, t, CompletedHead(p, k, ids), SummaryMessage(summary));
    }
  }

  lemma CutTokens(p: History, k: nat, t: nat, head: History, s: Message)
    requires k <= t <= |p|
    ensures HistoryTokens(head + ([s] + p[t..])) == HistoryTokens(head) + MessageTokens(s) + HistoryTokens(p[t..])
    ensures HistoryTokens(p) == HistoryTokens(p[..k]) + HistoryTokens(p[k..t]) + HistoryTokens(p[t..])
  {
    hide MessageTokens;
    HistoryTokensConcat(head, [s] + p[t..]);
    PartsOfConcat([s], p[t..]);
    HistoryTokensConcat(p[..k], p[k..]);
    SplitAt(p, k);
    HistoryTokensConcat(p[k..t], p[t..]);
    assert p[k..] == p[k..t] + p[t..];
  }

  /** Whatever happens to the front, the pruned messages from `TailStart` on stay last. */
  lemma CompressionKeepsTail(cfg: CompressionConfig, previous: Option<string>, summarizer: Summarizer,
                             memory: Option<string>, iterate: set<string> -> seq<string>, h: History, n: nat)
    requires WellFormed(h) && forall s :: Enumerates(iterate(s), s)
    requires TailStart(PrunedBefore(h, PruneBoundary(h, cfg.tailBudget)), cfg.tailBudget) <= n <= |h|
    ensures var out := Compress(cfg, previous, summarizer, memory, iterate, h).history;
            |h| - n <= |out| && out[|out| - (|h| - n)..] == PrunedBefore(h, PruneBoundary(h, cfg.tailBudget))[n..]
  {
    hide BlocksOk, Sanitized, NoDuplicates, CutOut, Missing, Compress, HistoryTokens, MessageTokens,
         CompletedHead, WithoutAnswers, SummaryMessage, LastBoundary, TokenBoundary, TailStart;
    var p := PrunedBefore(h, PruneBoundary(h, cfg.tailBudget));
    var k, t := Min(cfg.protectHeadMessages, |p|), TailStart(p, cfg.tailBudget);
    CompressionShape(cfg, previous, summarizer, memory, iterate, h);
    if k < t {
      var summary := SummaryText(summarizer(previous, p[k..t], memory));
      var head := CompletedHead(p, k, iterate(Missing(CutOut(p, k, t, summary))));
      Associative(head, [SummaryMessage(summary)], p[t..]);
      SuffixOfConcat(head + [SummaryMessage(summary)], p, t, n);
    }
  }

  lemma TailStartsEarly(h: History, budget: nat)
    ensures var p := PrunedBefore(h, PruneBoundary(h, budget));
            && TailStart(p, budget) <= |h| - Min(MIN_TAIL, |h|)
            && (match TokenBoundary(h, budget, |h|)
                case Some(b) => TailStart(p, budget) <= b
                case None => TailStart(p, budget) == 0)
  {
    hide TokenBoundary, LastIssuer;
    ScansAgree(h, budget);
  }

  /** The newest messages survive: at least the last three, and verbatim everything
      from the token boundary on.  Without a boundary nothing is cut. */
  lemma CompressionKeepsNewest(cfg: CompressionConfig, previous: Option<string>, summarizer: Summarizer,
                               memory: Option<string>, iterate: set<string> -> seq<string>, h: History)
    requires WellFormed(h) && forall s :: Enumerates(iterate(s), s)
    ensures var p := PrunedBefore(h, PruneBoundary(h, cfg.tailBudget));
            var out := Compress(cfg, previous, summarizer, memory, iterate, h).history;
            var newest := Min(MIN_TAIL, |h|);
            newest <= |out| && out[|out| - newest..] == p[|h| - newest..]
    ensures var out := Compress(cfg, previous, summarizer, memory, iterate, h).history;
            match TokenBoundary(h, cfg.tailBudget, |h|)
            case Some(b) => |h| - b <= |out| && out[|out| - (|h| - b)..] == h[b..]
            case None => out == PrunedBefore(h, |h|)
  {
    hide WellFormed, Compress, TailStart, TokenBoundary, Enumerates, PrunedBefore;
    TailStartsEarly(h, cfg.tailBudget);
    CompressionKeepsTail(cfg, previous, summarizer, memory, iterate, h, |h| - Min(MIN_TAIL, |h|));
    match TokenBoundary(h, cfg.tailBudget, |h|)
    case Some(b) =>
      CompressionKeepsTail(cfg, previous, summarizer, memory, iterate, h, b);
      PrunedSuffixSaves(h, b, b);
    case None =>
      NothingIsCut(cfg, previous, summarizer, memory, iterate, h);
  }

  /** A budget that the history does not reach leaves every message, pruned. */
  lemma NothingIsCut(cfg: CompressionConfig, previous: Option<string>, summarizer: Summarizer,
                     memory: Option<string>, iterate: set<string> -> seq<string>, h: History)
    requires TokenBoundary(h, cfg.tailBudget, |h|) == None
    ensures Compress(cfg, previous, summarizer, memory, iterate, h).history == PrunedBefore(h, |h|)
  {
    hide TokenBoundary, TailStart, PrunedBefore;
    TailStartsEarly(h, cfg.tailBudget);
  }

  lemma SuffixOfConcat(front: History, p: History, t: nat, k: nat)
    requires t <= k <= |p|
    ensures var out := front + p[t..];
            |p| - k <= |out| && out[|out| - (|p| - k)..] == p[k..]
  {
  }
}
