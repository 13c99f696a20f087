/** A crash anywhere in a turn, followed by a resumption from the last checkpoint: when
    it ends as the uninterrupted turn would have, with the same requests, tool runs,
    checkpoints, history, files and answer, and nothing recorded before done again. */
module CrashResume {
  import opened Wrappers
  import opened Messages
  import opened Blocks
  import opened Sanitizer
  import opened TokenCounter
  import opened Compressor
  import opened CompressorTheorems
  import opened Parallel
  import opened PathConflicts
  import opened IndexSort
  import opened ParallelTheorems
  import opened ParallelLimits
  import opened AgentLoop
  import opened AgentSafety
  import opened Sequences

  // ----- What the outside must keep to -----

  /** Provider, tools, memory text and tool list depend on what they are given, not
      on when they are asked. */
  ghost predicate Deterministic(env: Env) {
    && (forall t, system, h :: env.provider(t, system, h) == env.provider(0, system, h))
    && (forall t, c, f :: env.tool(t, c, f) == env.tool(0, c, f))
    && (forall t, f :: env.memoryBlock(t, f) == env.memoryBlock(0, f))
    && (forall t :: env.toolCount(t) == env.toolCount(0))
  }

  /** Only successful memory writes change what the memory block says. */
  ghost predicate MemoryByWrites(env: Env) {
    forall c, f :: env.memoryBlock(0, env.tool(0, c, f).1) != env.memoryBlock(0, f) ==>
      c.name == MEMORY_WRITE && !env.tool(0, c, f).0.isError
  }

  ghost predicate Reproducible(env: Env) {
    Deterministic(env) && MemoryByWrites(env)
  }

  /** What compression consults does not depend on when it is asked either. */
  ghost predicate SteadyCompression(env: Env) {
    && (forall t, p, h, m :: env.summarizer(t, p, h, m) == env.summarizer(0, p, h, m))
    && (forall t, h :: env.contribution(t, h) == env.contribution(0, h))
    && (forall t, ids :: env.iterate(t, ids) == env.iterate(0, ids))
  }

  /** The summariser makes nothing of the summary before. */
  ghost predicate IgnoresPrevious(env: Env) {
    forall t, p, q, h, m :: env.summarizer(t, p, h, m) == env.summarizer(t, q, h, m)
  }

  /** Every compression found nothing to replace. */
  predicate NothingMade(events: seq<Event>) {
    forall e :: e in events && e.CompressionRan? ==> e.made == None
  }

  /** Holding `q` instead of `p` makes no difference to what `events` are: no summary is
      made, or each is given the same summary before or does not look at it. */
  ghost predicate SummaryCarriesOver(env: Env, p: Option<string>, q: Option<string>, events: seq<Event>) {
    NothingMade(events) || (SteadyCompression(env) && (p == q || IgnoresPrevious(env)))
  }

  /** Run together, these calls do the same at any time: they are not admitted to run at
      the same time, or the order in which they complete does not show. */
  ghost predicate SteadyBatch(env: Env, cfg: AgentConfig, calls: seq<ToolCall>) {
    forall t, f :: ToolRun(env, cfg.registry, t, f, calls) == ToolRun(env, cfg.registry, 0, f, calls)
  }

  ghost predicate SteadyBatches(env: Env, cfg: AgentConfig, events: seq<Event>) {
    forall e :: e in events && e.ToolsRan? ==> SteadyBatch(env, cfg, e.calls)
  }

  /** What `events` ran and compressed comes out the same at another time, by an agent
      that holds the summary `q` instead of `p`. */
  ghost predicate CarriesOver(env: Env, cfg: AgentConfig, p: Option<string>, q: Option<string>, events: seq<Event>) {
    SteadyBatches(env, cfg, events) && SummaryCarriesOver(env, p, q, events)
  }

  // ----- What a run leaves -----

  /** The summary held after `events`, having begun with `initial`. */
  function Held(initial: Option<string>, events: seq<Event>): Option<string> {
    if events == [] then initial
    else
      var last := events[|events| - 1];
      if last.CompressionRan? && last.made.Some? then last.made else Held(initial, events[..|events| - 1])
  }

  /** The files after `events`. */
  function FilesAt(initial: Files, events: seq<Event>): Files {
    if events == [] then initial
    else
      var last := events[|events| - 1];
      if last.ToolsRan? then last.files else FilesAt(initial, events[..|events| - 1])
  }

  /** What of a run can be seen: everything but compressions that made no summary. */
  function Seen(events: seq<Event>): seq<Event> {
    if events == [] then []
    else (if events[0] == CompressionRan(None) then [] else [events[0]]) + Seen(events[1..])
  }

  /** The system prompt that is up to date with the files. */
  function SteadySystem(env: Env, cfg: AgentConfig, files: Files): string {
    BuildSystem(cfg.systemPrompt, env.memoryBlock(0, files))
  }

  ghost predicate Current(env: Env, cfg: AgentConfig, s: LoopState) {
    s.snapshot == env.memoryBlock(0, s.files) && s.system == SteadySystem(env, cfg, s.files)
  }

  /** A history that is compressed as soon as it is saved: it ends in a tool result, and
      is too heavy or too long. */
  predicate CompressesNext(env: Env, cfg: AgentConfig, files: Files, c: History) {
    c != [] && c[|c| - 1].role == Tool
    && (RequestTokens(SteadySystem(env, cfg, files), c, env.toolCount(0)) >= cfg.compression.pressureTokens
        || |c| > MAX_HISTORY_MESSAGES)
  }

  /** Compressing `c` clears nothing and cuts nothing. */
  predicate IsInert(cc: CompressionConfig, c: History) {
    PrunedBefore(c, PruneBoundary(c, cc.tailBudget)) == c
    && Min(cc.protectHeadMessages, |c|) >= TailStart(c, cc.tailBudget)
  }

  /** A saved history whose compression is lost by a crash. */
  predicate LostOnResume(env: Env, cfg: AgentConfig, files: Files, c: History) {
    CompressesNext(env, cfg, files, c) && !IsInert(cfg.compression, c)
  }

  predicate CompressionFollows(events: seq<Event>, i: nat) {
    i + 1 < |events| && events[i + 1].CompressionRan?
  }

  /** The loop will go straight to the provider from here. */
  predicate Quiet(h: History) {
    PendingToolCalls(h) == [] && !TurnIsComplete(h)
  }

  predicate SameEnd(t: TurnEnd, u: TurnEnd) {
    t.outcome == u.outcome && t.events == u.events && t.state.history == u.state.history
    && t.state.files == u.state.files
  }

  /** `r` does what `t` did after its event `i`, as far as can be seen, and ends the same. */
  predicate Recovers(r: TurnEnd, t: TurnEnd, i: nat)
    requires i < |t.events|
  {
    r.outcome == t.outcome && Seen(r.events) == Seen(t.events[i + 1..]) && r.state.history == t.state.history
    && r.state.files == t.state.files
  }

  // ----- Quiet histories -----

  lemma LastCallerFollowedByTools(h: History)
    requires PendingToolCalls(h) != []
    ensures LastCaller(h).Some?
    ensures var c := LastCaller(h).value;
            && (forall j :: c < j < |h| ==> h[j].role == Tool)
            && PendingToolCalls(h) == Unanswered(h[c].toolCalls, AnsweredIds(h[c + 1..]))
  {
    hide Unanswered, AnsweredIds, LastCaller;
    var c := LastCaller(h).value;
    AllTools(h, c);
  }

  lemma AllTools(h: History, c: nat)
    requires c < |h| && !exists m :: m in h[c + 1..] && m.role != Tool
    ensures forall j :: c < j < |h| ==> h[j].role == Tool
  {
    forall j | c < j < |h| ensures h[j].role == Tool {
      assert h[j] == h[c + 1..][j - c - 1];
    }
  }

  lemma PendingCoverTheRest(calls: seq<ToolCall>, done: seq<string>)
    ensures forall id :: id in CallIds(calls) ==> id in done + CallIds(Unanswered(calls, done))
  {
    var pending := Unanswered(calls, done);
    UnansweredExact(calls, done);
    forall k | 0 <= k < |calls| ensures calls[k].id in done + CallIds(pending) {
      if calls[k].id !in done {
        assert calls[k] in pending;
        var m :| 0 <= m < |pending| && pending[m] == calls[k];
        assert CallIds(pending)[m] == calls[k].id;
      }
    }
  }

  /** Once the pending calls have results, nothing is pending and the turn is not over. */
  lemma QuietAfterPending(h: History, rs: seq<ToolCallResult>)
    requires PendingToolCalls(h) != [] && ResultsFor(rs, PendingToolCalls(h))
    ensures Quiet(h + ResultMessages(rs))
  {
    hide Unanswered, AnsweredIds, PendingToolCalls, TurnIsComplete;
    LastCallerFollowedByTools(h);
    var c := LastCaller(h).value;
    var h2 := h + ResultMessages(rs);
    EndsInTool(h, rs);
    PendingAtEnd(h2, c);
    assert h2[c + 1..] == h[c + 1..] + ResultMessages(rs);
    AnsweredIdsConcat(h[c + 1..], ResultMessages(rs));
    ResultsAnswer(rs, PendingToolCalls(h));
    PendingCoverTheRest(h[c].toolCalls, AnsweredIds(h[c + 1..]));
    AllAnsweredNothingPending(h[c].toolCalls, AnsweredIds(h2[c + 1..]));
  }

  lemma EndsInTool(h: History, rs: seq<ToolCallResult>)
    requires rs != []
    ensures var h2 := h + ResultMessages(rs);
            h2[|h2| - 1].role == Tool && !TurnIsComplete(h2)
  {
    var h2 := h + ResultMessages(rs);
    assert h2[|h2| - 1] == ResultMessages(rs)[|rs| - 1];
    hide PendingToolCalls;
  }

  lemma PendingIsNotComplete(h: History)
    requires PendingToolCalls(h) != []
    ensures !TurnIsComplete(h)
  {
  }

  lemma QuietByLastRole(h: History)
    requires WellFormed(h) && h != [] && h[|h| - 1].role != Assistant
    ensures Quiet(h)
  {
    WellFormedHasNothingPending(h);
  }

  lemma CompactionKeepsLast(env: Env, cfg: AgentConfig, s: LoopState)
    requires Honest(env) && WellFormed(s.history) && s.history != []
    ensures var h := Compacted(env, cfg, s).history;
            h != [] && h[|h| - 1].role == s.history[|s.history| - 1].role
  {
    hide WellFormed, Compress, PruneBoundary, CompressionAt;
    forall ids ensures Enumerates(IterateAt(env.iterate, s.clock)(ids), ids) {
      assert Enumerates(env.iterate(s.clock, ids), ids);
    }
    assert Compacted(env, cfg, s).history == CompressionAt(env, cfg, s).history;
    LastOfCompression(env, cfg, s);
  }

  lemma LastOfCompression(env: Env, cfg: AgentConfig, s: LoopState)
    requires WellFormed(s.history) && s.history != []
    requires forall ids :: Enumerates(IterateAt(env.iterate, s.clock)(ids), ids)
    ensures var out := CompressionAt(env, cfg, s).history;
            out != [] && out[|out| - 1].role == s.history[|s.history| - 1].role
  {
    hide WellFormed, Compress, Enumerates;
    LastOfCompress(cfg.compression, s.previousSummary, SummarizerAt(env.summarizer, s.clock),
                   env.contribution(s.clock, s.history), IterateAt(env.iterate, s.clock), s.history);
  }

  lemma LastOfCompress(cc: CompressionConfig, previous: Option<string>, summarizer: Summarizer, memory: Option<string>,
                       iterate: set<string> -> seq<string>, h: History)
    requires WellFormed(h) && h != [] && forall ids :: Enumerates(iterate(ids), ids)
    ensures var out := Compress(cc, previous, summarizer, memory, iterate, h).history;
            out != [] && out[|out| - 1].role == h[|h| - 1].role
  {
    hide WellFormed, Compress, PruneBoundary, TokenBoundary, Enumerates, PrunedBefore;
    CompressionKeepsNewest(cc, previous, summarizer, memory, iterate, h);
    var p := PrunedBefore(h, PruneBoundary(h, cc.tailBudget));
    LastOfSuffix(Compress(cc, previous, summarizer, memory, iterate, h).history, p, Min(MIN_TAIL, |h|));
    LastPruned(h, PruneBoundary(h, cc.tailBudget));
  }

  lemma LastOfSuffix(out: History, p: History, n: nat)
    requires 0 < n <= |out| && n <= |p| && out[|out| - n..] == p[|p| - n..]
    ensures out[|out| - 1] == p[|p| - 1]
  {
    assert out[|out| - n..][n - 1] == p[|p| - n..][n - 1];
  }

  lemma LastPruned(h: History, b: nat)
    requires h != [] && b <= |h|
    ensures PrunedBefore(h, b)[|h| - 1].role == h[|h| - 1].role
  {
  }

  lemma ToolPhaseEndsInTool(env: Env, cfg: AgentConfig, s: LoopState, toolCount: nat)
    requires Honest(env) && Resumable(s.history) && PendingToolCalls(s.history) != []
    ensures var h := ToolPhase(env, cfg, s, PendingToolCalls(s.history), toolCount).0.history;
            WellFormed(h) && Quiet(h)
  {
    hide WellFormed, Resumable, Compacted, Made, UnderPressure, BuildSystem, Quiet, PendingToolCalls, Enumerates,
         Honest, ToolResults, FilesAfter;
    var calls := PendingToolCalls(s.history);
    var rs := ToolResults(env, cfg.registry, s.clock, s.files, calls);
    var s1 := Executed(env, cfg, s, calls);
    PendingCallsComplete(s.history, rs);
    var s2 := if MemoryWritten(rs) then Remembered(cfg, s1) else s1;
    CompactionKeepsLast(env, cfg, s2);
    CompactionKeepsBlocks(env, cfg, s2);
    CompactionKeepsLast(env, cfg, Compacted(env, cfg, s2));
    ToolPhaseIsSafe(env, cfg, s, toolCount);
    QuietByLastRole(ToolPhase(env, cfg, s, calls, toolCount).0.history);
  }

  // ----- The prompt stays up to date -----

  lemma {:induction false} MemoryKept(env: Env, clock: nat, calls: seq<ToolCall>, order: seq<nat>, files: Files)
    requires Reproducible(env) && InRange(order, |calls|)
    ensures var (done, after) := RunOrder(calls, ToolAt(env.tool, clock), order, files);
            (forall k :: 0 <= k < |done| ==> !(done[k].1.toolName == MEMORY_WRITE && !done[k].1.result.isError))
            ==> env.memoryBlock(0, after) == env.memoryBlock(0, files)
  {
    if order != [] {
      var n := |order| - 1;
      MemoryKept(env, clock, calls, order[..n], files);
      var (done, before) := RunOrder(calls, ToolAt(env.tool, clock), order[..n], files);
      var all := RunOrder(calls, ToolAt(env.tool, clock), order, files).0;
      assert env.tool(clock, calls[order[n]], before) == env.tool(0, calls[order[n]], before);
      assert all[n].1 == ResultOf(calls[order[n]], env.tool(0, calls[order[n]], before).0);
      assert forall k :: 0 <= k < n ==> all[k] == done[k];
    }
  }

  lemma {:induction false} SameRun(calls: seq<ToolCall>, a: Action, b: Action, order: seq<nat>, files: Files)
    requires InRange(order, |calls|) && forall c, f :: a(c, f) == b(c, f)
    ensures RunOrder(calls, a, order, files) == RunOrder(calls, b, order, files)
  {
    if order != [] {
      SameRun(calls, a, b, order[..|order| - 1], files);
    }
  }

  /** Each tool does the same at any time. */
  lemma SameTool(env: Env, clock: nat, calls: seq<ToolCall>, order: seq<nat>, files: Files)
    requires Deterministic(env) && InRange(order, |calls|)
    ensures RunOrder(calls, ToolAt(env.tool, clock), order, files) == RunOrder(calls, ToolAt(env.tool, 0), order, files)
  {
    forall c, f ensures ToolAt(env.tool, clock)(c, f) == ToolAt(env.tool, 0)(c, f) {
      assert env.tool(clock, c, f) == env.tool(0, c, f);
    }
    SameRun(calls, ToolAt(env.tool, clock), ToolAt(env.tool, 0), order, files);
  }

  /** Calls that run one after the other are steady. */
  lemma SequentialIsSteady(env: Env, cfg: AgentConfig, calls: seq<ToolCall>)
    requires Deterministic(env) && !MayParallelize(calls, cfg.registry)
    ensures SteadyBatch(env, cfg, calls)
  {
    hide RunOrder, Deterministic;
    forall t, f ensures ToolRun(env, cfg.registry, t, f, calls) == ToolRun(env, cfg.registry, 0, f, calls) {
      SameTool(env, t, calls, Ascending(|calls|), f);
    }
  }

  /** So is everything when the order of completion does not depend on the time either. */
  lemma TimelessIsSteady(env: Env, cfg: AgentConfig, calls: seq<ToolCall>)
    requires Deterministic(env) && forall t, f :: env.order(t, calls, f) == env.order(0, calls, f)
    ensures SteadyBatch(env, cfg, calls)
  {
    hide RunOrder, Deterministic, MayParallelize;
    forall t, f ensures ToolRun(env, cfg.registry, t, f, calls) == ToolRun(env, cfg.registry, 0, f, calls) {
      assert env.order(t, calls, f) == env.order(0, calls, f);
      SameTool(env, t, calls, Ascending(|calls|), f);
      if CompletionOrder(env.order(0, calls, f), |calls|) {
        SameTool(env, t, calls, env.order(0, calls, f), f);
      }
    }
  }

  /** So are admitted calls that keep to the paths they name, whatever the order of
      completion; and they do what they do one after the other. */
  lemma ConfinedIsSteady(env: Env, cfg: AgentConfig, calls: seq<ToolCall>)
    requires Deterministic(env) && MayParallelize(calls, cfg.registry)
    requires KeepsToPaths(ToolAt(env.tool, 0), calls, cfg.registry)
    ensures SteadyBatch(env, cfg, calls)
    ensures forall t, f :: ToolRun(env, cfg.registry, t, f, calls) == RunInSequence(calls, ToolAt(env.tool, 0), f)
  {
    hide RunOrder, Deterministic, KeepsToPaths, SortByIndex;
    forall t, f ensures ToolRun(env, cfg.registry, t, f, calls) == RunInSequence(calls, ToolAt(env.tool, 0), f) {
      var order := env.order(t, calls, f);
      SameTool(env, t, calls, Ascending(|calls|), f);
      if CompletionOrder(order, |calls|) {
        SameTool(env, t, calls, order, f);
        ParallelRefinesSequential(calls, cfg.registry, ToolAt(env.tool, 0), order, f);
      }
    }
  }

  lemma SameTools(env: Env, cfg: AgentConfig, clock: nat, files: Files, calls: seq<ToolCall>)
    requires SteadyBatch(env, cfg, calls)
    ensures ToolRun(env, cfg.registry, clock, files, calls) == ToolRun(env, cfg.registry, 0, files, calls)
    ensures ToolResults(env, cfg.registry, clock, files, calls) == ToolResults(env, cfg.registry, 0, files, calls)
    ensures FilesAfter(env, cfg.registry, clock, files, calls) == FilesAfter(env, cfg.registry, 0, files, calls)
  {
  }

  lemma UnwrittenMemoryKept(env: Env, cfg: AgentConfig, clock: nat, files: Files, calls: seq<ToolCall>)
    requires Reproducible(env) && !MemoryWritten(ToolResults(env, cfg.registry, clock, files, calls))
    ensures env.memoryBlock(0, FilesAfter(env, cfg.registry, clock, files, calls)) == env.memoryBlock(0, files)
  {
    hide RunOrder, Reproducible, SortByIndex, MayParallelize;
    var act, order := ToolAt(env.tool, clock), env.order(clock, calls, files);
    var rs := ToolResults(env, cfg.registry, clock, files, calls);
    if MayParallelize(calls, cfg.registry) && CompletionOrder(order, |calls|) {
      var done := RunOrder(calls, act, order, files).0;
      assert DistinctIndices(done);
      forall k | 0 <= k < |done| ensures !(done[k].1.toolName == MEMORY_WRITE && !done[k].1.result.isError) {
        SortedResult(done, k);
        assert done[k].1 in rs;
      }
      MemoryKept(env, clock, calls, order, files);
    } else {
      var done := RunOrder(calls, act, Ascending(|calls|), files).0;
      forall k | 0 <= k < |done| ensures !(done[k].1.toolName == MEMORY_WRITE && !done[k].1.result.isError) {
        assert rs[k] == done[k].1 && rs[k] in rs;
      }
      MemoryKept(env, clock, calls, Ascending(|calls|), files);
    }
  }

  lemma SortedResult(done: seq<Indexed>, k: nat)
    requires k < |done| && DistinctIndices(done)
    ensures done[k].1 in Results(SortByIndex(done))
  {
    SortByIndexSorts(done);
    var sorted := SortByIndex(done);
    assert done[k] in multiset(sorted);
    var m :| 0 <= m < |sorted| && sorted[m] == done[k];
    assert Results(sorted)[m] == done[k].1;
  }

  lemma CompactionStaysCurrent(env: Env, cfg: AgentConfig, s: LoopState)
    requires Deterministic(env) && Current(env, cfg, s)
    ensures Current(env, cfg, Compacted(env, cfg, s)) && Compacted(env, cfg, s).files == s.files
  {
    hide CompressionAt, BuildSystem;
    assert env.memoryBlock(s.clock, s.files) == env.memoryBlock(0, s.files);
  }

  /** Behind executed calls, and the rebuilding of the prompt after a memory write, the
      prompt is up to date; and it depends on the files alone. */
  lemma ExecutedIsCurrent(env: Env, cfg: AgentConfig, s: LoopState, calls: seq<ToolCall>)
    requires Reproducible(env) && Current(env, cfg, s)
    ensures var s1 := Executed(env, cfg, s, calls);
            var written := MemoryWritten(ToolResults(env, cfg.registry, s.clock, s.files, calls));
            Current(env, cfg, if written then Remembered(cfg, s1) else s1)
  {
    hide ToolResults, FilesAfter, MemoryWritten, BuildSystem, ResultMessages;
    var rs := ToolResults(env, cfg.registry, s.clock, s.files, calls);
    var files := FilesAfter(env, cfg.registry, s.clock, s.files, calls);
    assert env.memoryBlock(s.clock, files) == env.memoryBlock(0, files);
    if !MemoryWritten(rs) {
      UnwrittenMemoryKept(env, cfg, s.clock, s.files, calls);
    }
  }

  lemma MaintenanceStaysCurrent(env: Env, cfg: AgentConfig, s: LoopState, toolCount: nat, written: bool)
    requires Deterministic(env) && Current(env, cfg, if written then Remembered(cfg, s) else s)
    ensures var s1 := Maintained(env, cfg, s, toolCount, written).0;
            Current(env, cfg, s1) && s1.files == s.files
  {
    hide Compacted, Made, UnderPressure, Current, Deterministic, BuildSystem;
    var s1 := if written then Remembered(cfg, s) else s;
    CompactionStaysCurrent(env, cfg, s1);
    CompactionStaysCurrent(env, cfg, Compacted(env, cfg, s1));
  }

  lemma ToolPhaseStaysCurrent(env: Env, cfg: AgentConfig, s: LoopState, calls: seq<ToolCall>, toolCount: nat)
    requires Reproducible(env) && Current(env, cfg, s)
    ensures Current(env, cfg, ToolPhase(env, cfg, s, calls, toolCount).0)
  {
    hide Maintained, Executed, Current, Deterministic, MemoryByWrites, ToolResults, MemoryWritten;
    ExecutedIsCurrent(env, cfg, s, calls);
    MaintenanceStaysCurrent(env, cfg, Executed(env, cfg, s, calls), toolCount,
                            MemoryWritten(ToolResults(env, cfg.registry, s.clock, s.files, calls)));
  }

  // ----- The same history and files lead to the same continuation -----

  predicate Alike(s: LoopState, u: LoopState) {
    s.history == u.history && s.files == u.files && s.system == u.system && s.snapshot == u.snapshot
  }

  /** ... and their summaries, if the summariser looks at them, are the same. */
  ghost predicate Twin(env: Env, s: LoopState, u: LoopState) {
    Alike(s, u) && (s.previousSummary == u.previousSummary || IgnoresPrevious(env))
  }

  lemma SameCompress(cfg: CompressionConfig, p: Option<string>, f: Summarizer, q: Option<string>, g: Summarizer,
                     memory: Option<string>, it: set<string> -> seq<string>, jt: set<string> -> seq<string>, h: History)
    requires forall x, m :: f(p, x, m) == g(q, x, m)
    requires forall ids :: it(ids) == jt(ids)
    ensures var a, b := Compress(cfg, p, f, memory, it, h), Compress(cfg, q, g, memory, jt, h);
            && a.history == b.history && a.result == b.result
            && (a.result.Compressed? ==> a.previousSummary == b.previousSummary)
            && (!a.result.Compressed? ==> a.previousSummary == p && b.previousSummary == q)
  {
    hide PrunedBefore, PruneBoundary, TailStart, Sanitized, Missing, CutOut, HistoryTokens;
  }

  /** Whether there is anything to cut depends on the history alone. */
  lemma UncutHistory(env: Env, cfg: AgentConfig, s: LoopState)
    ensures var p := PrunedBefore(s.history, PruneBoundary(s.history, cfg.compression.tailBudget));
            && (Made(env, cfg, s) == None
                <==> Min(cfg.compression.protectHeadMessages, |p|) >= TailStart(p, cfg.compression.tailBudget))
            && (Made(env, cfg, s) == None ==>
                  Compacted(env, cfg, s) == s.(history := p, clock := s.clock + 1))
  {
    hide PrunedBefore, PruneBoundary, TailStart, Sanitized, Missing, CutOut, HistoryTokens, BuildSystem;
  }

  lemma SameIteration(env: Env, t: nat, v: nat)
    requires SteadyCompression(env)
    ensures forall ids :: IterateAt(env.iterate, t)(ids) == IterateAt(env.iterate, v)(ids)
  {
    forall ids ensures IterateAt(env.iterate, t)(ids) == IterateAt(env.iterate, v)(ids) {
      assert env.iterate(t, ids) == env.iterate(0, ids);
    }
  }

  lemma TwinsCompact(env: Env, cfg: AgentConfig, s: LoopState, u: LoopState)
    requires Deterministic(env) && SteadyCompression(env) && Twin(env, s, u)
    ensures Twin(env, Compacted(env, cfg, s), Compacted(env, cfg, u))
    ensures Made(env, cfg, s) == Made(env, cfg, u)
  {
    hide Compress, BuildSystem;
    var f, g := SummarizerAt(env.summarizer, s.clock), SummarizerAt(env.summarizer, u.clock);
    forall x, m ensures f(s.previousSummary, x, m) == g(u.previousSummary, x, m) {
      assert f(s.previousSummary, x, m) == env.summarizer(0, s.previousSummary, x, m);
      assert g(u.previousSummary, x, m) == env.summarizer(0, u.previousSummary, x, m);
    }
    assert env.contribution(s.clock, s.history) == env.contribution(0, s.history);
    assert env.contribution(u.clock, s.history) == env.contribution(0, s.history);
    assert env.memoryBlock(s.clock, s.files) == env.memoryBlock(u.clock, s.files) by {
      assert env.memoryBlock(u.clock, s.files) == env.memoryBlock(0, s.files);
    }
    SameIteration(env, s.clock, u.clock);
    SameCompress(cfg.compression, s.previousSummary, f, u.previousSummary, g, env.contribution(0, s.history),
                 IterateAt(env.iterate, s.clock), IterateAt(env.iterate, u.clock), s.history);
  }

  lemma AlikesCompact(env: Env, cfg: AgentConfig, s: LoopState, u: LoopState)
    requires Alike(s, u) && Made(env, cfg, s) == None
    ensures Alike(Compacted(env, cfg, s), Compacted(env, cfg, u)) && Made(env, cfg, u) == None
  {
    hide Compacted, Made, PrunedBefore, PruneBoundary, TailStart;
    UncutHistory(env, cfg, s);
    UncutHistory(env, cfg, u);
  }

  lemma TwinsMaintain(env: Env, cfg: AgentConfig, s: LoopState, u: LoopState, toolCount: nat, written: bool)
    requires Deterministic(env) && SteadyCompression(env)
    requires Twin(env, if written then Remembered(cfg, s) else s, if written then Remembered(cfg, u) else u)
    ensures var (s1, events) := Maintained(env, cfg, s, toolCount, written);
            var (u1, others) := Maintained(env, cfg, u, toolCount, written);
            Twin(env, s1, u1) && events == others
  {
    hide Compacted, Made, RequestTokens, IgnoresPrevious, BuildSystem;
    var s1 := if written then Remembered(cfg, s) else s;
    var u1 := if written then Remembered(cfg, u) else u;
    TwinsCompact(env, cfg, s1, u1);
    TwinsCompact(env, cfg, Compacted(env, cfg, s1), Compacted(env, cfg, u1));
  }

  lemma MadeIn(e: Event, events: seq<Event>)
    requires NothingMade([e] + events) && e.CompressionRan?
    ensures e.made == None && NothingMade(events)
  {
    assert e in [e] + events;
    assert forall f :: f in events ==> f in [e] + events;
  }

  lemma CappedAlike(env: Env, cfg: AgentConfig, s: LoopState, u: LoopState)
    requires Alike(s, u) && NothingMade(Capped(env, cfg, s).1)
    ensures Alike(Capped(env, cfg, s).0, Capped(env, cfg, u).0) && Capped(env, cfg, s).1 == Capped(env, cfg, u).1
  {
    hide Compacted, Made;
    if |s.history| > MAX_HISTORY_MESSAGES {
      assert CompressionRan(Made(env, cfg, s)) in Capped(env, cfg, s).1;
      AlikesCompact(env, cfg, s, u);
    }
  }

  lemma AlikesMaintain(env: Env, cfg: AgentConfig, s: LoopState, u: LoopState, toolCount: nat, written: bool)
    requires Alike(if written then Remembered(cfg, s) else s, if written then Remembered(cfg, u) else u)
    requires NothingMade(Maintained(env, cfg, s, toolCount, written).1)
    ensures var (s1, events) := Maintained(env, cfg, s, toolCount, written);
            var (u1, others) := Maintained(env, cfg, u, toolCount, written);
            Alike(s1, u1) && events == others
  {
    hide Compacted, Made, RequestTokens, Capped, NothingMade, BuildSystem;
    var s1 := if written then Remembered(cfg, s) else s;
    var u1 := if written then Remembered(cfg, u) else u;
    if UnderPressure(cfg, s1, toolCount) {
      MadeIn(CompressionRan(Made(env, cfg, s1)), Capped(env, cfg, Compacted(env, cfg, s1)).1);
      AlikesCompact(env, cfg, s1, u1);
      CappedAlike(env, cfg, Compacted(env, cfg, s1), Compacted(env, cfg, u1));
    } else {
      CappedAlike(env, cfg, s1, u1);
    }
  }

  lemma SameMaintenance(env: Env, cfg: AgentConfig, s: LoopState, u: LoopState, toolCount: nat, written: bool)
    requires Deterministic(env)
    requires Alike(if written then Remembered(cfg, s) else s, if written then Remembered(cfg, u) else u)
    requires SummaryCarriesOver(env, s.previousSummary, u.previousSummary,
                                Maintained(env, cfg, s, toolCount, written).1)
    ensures var (s1, events) := Maintained(env, cfg, s, toolCount, written);
            var (u1, others) := Maintained(env, cfg, u, toolCount, written);
            && events == others && Alike(s1, u1)
            && (SteadyCompression(env) && (s.previousSummary == u.previousSummary || IgnoresPrevious(env))
                ==> Twin(env, s1, u1))
  {
    hide Maintained, IgnoresPrevious, NothingMade, SteadyCompression, BuildSystem;
    if NothingMade(Maintained(env, cfg, s, toolCount, written).1) {
      AlikesMaintain(env, cfg, s, u, toolCount, written);
    }
    if SteadyCompression(env) && (s.previousSummary == u.previousSummary || IgnoresPrevious(env)) {
      TwinsMaintain(env, cfg, s, u, toolCount, written);
    }
  }

  /** The calls do the same in both states. */
  predicate SameCalls(env: Env, cfg: AgentConfig, s: LoopState, u: LoopState, calls: seq<ToolCall>) {
    CallsAgree(env, cfg, calls, s.files, u.files)
  }

  /** The calls come to the same on both file maps. */
  predicate CallsAgree(env: Env, cfg: AgentConfig, calls: seq<ToolCall>, f: Files, g: Files) {
    ToolRun(env, cfg.registry, 0, f, calls) == ToolRun(env, cfg.registry, 0, g, calls)
  }

  /** Behind calls that do the same, up-to-date states with one history are alike. */
  lemma SameExecution(env: Env, cfg: AgentConfig, s: LoopState, u: LoopState, calls: seq<ToolCall>)
    requires Reproducible(env) && Current(env, cfg, s) && Current(env, cfg, u)
    requires s.history == u.history && SameCalls(env, cfg, s, u, calls) && SteadyBatch(env, cfg, calls)
    ensures var s1, u1 := Executed(env, cfg, s, calls), Executed(env, cfg, u, calls);
            var rs := ToolResults(env, cfg.registry, s.clock, s.files, calls);
            && rs == ToolResults(env, cfg.registry, u.clock, u.files, calls)
            && s1.files == u1.files && s1.history == u1.history
            && Alike(if MemoryWritten(rs) then Remembered(cfg, s1) else s1,
                     if MemoryWritten(rs) then Remembered(cfg, u1) else u1)
  {
    hide ToolRun, MemoryWritten, BuildSystem, ResultMessages, MemoryByWrites, Deterministic;
    SameTools(env, cfg, s.clock, s.files, calls);
    SameTools(env, cfg, u.clock, u.files, calls);
    ExecutedIsCurrent(env, cfg, s, calls);
    ExecutedIsCurrent(env, cfg, u, calls);
  }

  /** Running calls is decided by the history and the files, as far as the summaries
      carry over. */
  lemma SameToolPhase(env: Env, cfg: AgentConfig, s: LoopState, u: LoopState, calls: seq<ToolCall>, toolCount: nat)
    requires Reproducible(env) && Current(env, cfg, s) && Current(env, cfg, u)
    requires s.history == u.history && SameCalls(env, cfg, s, u, calls) && SteadyBatch(env, cfg, calls)
    requires SummaryCarriesOver(env, s.previousSummary, u.previousSummary,
                                ToolPhase(env, cfg, s, calls, toolCount).1[2..])
    ensures var (s1, events) := ToolPhase(env, cfg, s, calls, toolCount);
            var (u1, others) := ToolPhase(env, cfg, u, calls, toolCount);
            && events == others && Alike(s1, u1)
            && (SteadyCompression(env) && (s.previousSummary == u.previousSummary || IgnoresPrevious(env))
                ==> Twin(env, s1, u1))
  {
    hide Maintained, ToolResults, MemoryWritten, IgnoresPrevious, SteadyCompression, SameCalls, Current, MemoryByWrites,
         Deterministic, NothingMade, BuildSystem, ResultMessages, FilesAfter;
    SameExecution(env, cfg, s, u, calls);
    var s1, u1 := Executed(env, cfg, s, calls), Executed(env, cfg, u, calls);
    var rs := ToolResults(env, cfg.registry, s.clock, s.files, calls);
    var more := Maintained(env, cfg, s1, toolCount, MemoryWritten(rs)).1;
    PartsOfConcat([ToolsRan(calls, rs, s1.files), Checkpointed(s1.history)], more);
    SameMaintenance(env, cfg, s1, u1, toolCount, MemoryWritten(rs));
  }

  lemma NothingMadeParts(a: seq<Event>, b: seq<Event>)
    requires NothingMade(a + b)
    ensures NothingMade(a) && NothingMade(b)
  {
    assert forall e :: e in a ==> e in a + b;
    assert forall e :: e in b ==> e in a + b;
  }

  lemma SteadyBatchesParts(env: Env, cfg: AgentConfig, a: seq<Event>, b: seq<Event>)
    requires SteadyBatches(env, cfg, a + b)
    ensures SteadyBatches(env, cfg, a) && SteadyBatches(env, cfg, b)
  {
    hide SteadyBatch;
    assert forall e :: e in a ==> e in a + b;
    assert forall e :: e in b ==> e in a + b;
  }

  lemma CarriesOverParts(env: Env, cfg: AgentConfig, p: Option<string>, q: Option<string>, a: seq<Event>, b: seq<Event>)
    requires CarriesOver(env, cfg, p, q, a + b)
    ensures CarriesOver(env, cfg, p, q, a) && CarriesOver(env, cfg, p, q, b)
  {
    hide NothingMade, SteadyCompression, IgnoresPrevious, SteadyBatches;
    SteadyBatchesParts(env, cfg, a, b);
    if NothingMade(a + b) {
      NothingMadeParts(a, b);
    }
  }

  lemma ToolPhaseEvents(env: Env, cfg: AgentConfig, s: LoopState, calls: seq<ToolCall>, toolCount: nat)
    ensures var events := ToolPhase(env, cfg, s, calls, toolCount).1;
            var s1 := Executed(env, cfg, s, calls);
            && |events| >= 2
            && events[0] == ToolsRan(calls, ToolResults(env, cfg.registry, s.clock, s.files, calls), s1.files)
            && events[1] == Checkpointed(s1.history)
            && forall k :: 2 <= k < |events| ==> events[k].CompressionRan?
  {
    hide Compacted, Made, UnderPressure, Executed, ToolResults, MemoryWritten, BuildSystem;
  }

  /** Over a tool phase, states stay comparable for whatever comes after. */
  lemma ToolPhaseCarriesOver(env: Env, cfg: AgentConfig, s: LoopState, u: LoopState, calls: seq<ToolCall>,
                             toolCount: nat, rest: seq<Event>)
    requires Reproducible(env) && Current(env, cfg, s) && Current(env, cfg, u)
    requires s.history == u.history && SameCalls(env, cfg, s, u, calls)
    requires CarriesOver(env, cfg, s.previousSummary, u.previousSummary,
                         ToolPhase(env, cfg, s, calls, toolCount).1 + rest)
    ensures var (s1, events) := ToolPhase(env, cfg, s, calls, toolCount);
            var (u1, others) := ToolPhase(env, cfg, u, calls, toolCount);
            && events == others && s1.history == u1.history && s1.files == u1.files
            && Current(env, cfg, s1) && Current(env, cfg, u1)
            && CarriesOver(env, cfg, s1.previousSummary, u1.previousSummary, rest)
  {
    hide ToolPhase, NothingMade, SteadyCompression, IgnoresPrevious, MemoryByWrites, Deterministic, SameCalls, Current,
         SteadyBatch;
    var p, q, events := s.previousSummary, u.previousSummary, ToolPhase(env, cfg, s, calls, toolCount).1;
    CarriesOverParts(env, cfg, p, q, events, rest);
    ToolPhaseEvents(env, cfg, s, calls, toolCount);
    assert events[0] in events;
    SplitAt(events, 2);
    CarriesOverParts(env, cfg, p, q, events[..2], events[2..]);
    SameToolPhase(env, cfg, s, u, calls, toolCount);
    ToolPhaseStaysCurrent(env, cfg, s, calls, toolCount);
    ToolPhaseStaysCurrent(env, cfg, u, calls, toolCount);
  }

  lemma QuietLoop(env: Env, cfg: AgentConfig, resuming: bool, s: LoopState, budget: nat)
    requires Deterministic(env) && Quiet(s.history) && budget > 0
    ensures RunLoop(env, cfg, resuming, s, budget) == ProviderPhase(env, cfg, resuming, s, env.toolCount(0), budget)
  {
    hide RunLoop, ProviderPhase, PendingToolCalls, TurnIsComplete;
    LoopUnfolds(env, cfg, resuming, s, budget);
    PendingUnfolds(env, cfg, s, env.toolCount(s.clock));
    EmptyConcat(ProviderPhase(env, cfg, resuming, s, env.toolCount(0), budget).events);
  }

  /** Where nothing is pending, history and files decide the rest of the run: not the
      clock, not whether it is a resumption, not a larger budget. */
  lemma {:induction false} SameLoop(env: Env, cfg: AgentConfig, m: bool, s: LoopState, b: nat, n: bool, u: LoopState,
                                    d: nat)
    requires Reproducible(env) && Honest(env) && WellFormed(s.history) && Quiet(s.history)
    requires s.history == u.history && s.files == u.files && Current(env, cfg, s) && Current(env, cfg, u) && b <= d
    requires CarriesOver(env, cfg, s.previousSummary, u.previousSummary, RunLoop(env, cfg, m, s, b).events)
    requires RunLoop(env, cfg, m, s, b).outcome != Exhausted
    ensures SameEnd(RunLoop(env, cfg, m, s, b), RunLoop(env, cfg, n, u, d))
    decreases b, 1
  {
    hide RunLoop, ProviderPhase, Current, Quiet, CarriesOver, Deterministic, MemoryByWrites, Honest, WellFormed;
    if b == 0 {
      LoopUnfolds(env, cfg, m, s, b);
    } else {
      QuietLoop(env, cfg, m, s, b);
      QuietLoop(env, cfg, n, u, d);
      SameProviderPhase(env, cfg, m, s, b, n, u, d);
    }
  }

  lemma ProviderIsSame(env: Env, cfg: AgentConfig, s: LoopState, u: LoopState)
    requires Deterministic(env) && s.history == u.history && s.files == u.files
    requires Current(env, cfg, s) && Current(env, cfg, u)
    ensures s.system == u.system
    ensures env.provider(s.clock, s.system, s.history) == env.provider(u.clock, u.system, u.history)
  {
    assert env.provider(s.clock, s.system, s.history) == env.provider(0, s.system, s.history);
  }

  lemma AnsweredStaysCurrent(env: Env, cfg: AgentConfig, s: LoopState, r: ChatResponse)
    requires Current(env, cfg, s)
    ensures Current(env, cfg, Answered(s, r))
  {
  }

  lemma {:induction false} SameProviderPhase(env: Env, cfg: AgentConfig, m: bool, s: LoopState, b: nat, n: bool,
                                             u: LoopState, d: nat)
    requires Reproducible(env) && Honest(env) && WellFormed(s.history)
    requires s.history == u.history && s.files == u.files && Current(env, cfg, s) && Current(env, cfg, u)
    requires 0 < b <= d
    requires CarriesOver(env, cfg, s.previousSummary, u.previousSummary,
                         ProviderPhase(env, cfg, m, s, env.toolCount(0), b).events)
    requires ProviderPhase(env, cfg, m, s, env.toolCount(0), b).outcome != Exhausted
    ensures SameEnd(ProviderPhase(env, cfg, m, s, env.toolCount(0), b),
                    ProviderPhase(env, cfg, n, u, env.toolCount(0), d))
    decreases b, 0
  {
    hide RunLoop, ProviderPhase, ToolPhase, CarriesOver, Deterministic, MemoryByWrites, Current, Quiet, WellFormed,
         Resumable, PendingToolCalls, ToolRun;
    var toolCount := env.toolCount(0);
    ProviderUnfolds(env, cfg, m, s, toolCount, b);
    ProviderUnfolds(env, cfg, n, u, toolCount, d);
    ProviderIsSame(env, cfg, s, u);
    assert FreshReply(env.provider(s.clock, s.system, s.history), s.history);
    hide Honest, FreshReply;
    match env.provider(s.clock, s.system, s.history)
    case Err(_) =>
    case Ok(r) =>
      if r.toolCalls != [] {
        var s1, u1 := Answered(s, r), Answered(u, r);
        var (s2, more) := ToolPhase(env, cfg, s1, r.toolCalls, toolCount);
        var u2 := ToolPhase(env, cfg, u1, r.toolCalls, toolCount).0;
        var first := [ProviderCalled(s.system, s.history), Checkpointed(s1.history)];
        var rest := RunLoop(env, cfg, m, s2, b - 1);
        AnsweredStaysCurrent(env, cfg, s, r);
        AnsweredStaysCurrent(env, cfg, u, r);
        Associative(first, more, rest.events);
        CarriesOverParts(env, cfg, s.previousSummary, u.previousSummary, first, more + rest.events);
        ToolPhaseCarriesOver(env, cfg, s1, u1, r.toolCalls, toolCount, rest.events);
        ReplyIsResumable(s.history, r);
        ToolPhaseEndsInTool(env, cfg, s1, toolCount);
        SameLoop(env, cfg, m, s2, b - 1, n, u2, d - 1);
      }
  }

  // ----- Summary, files and events along a run -----

  lemma {:induction false} HeldConcat(initial: Option<string>, a: seq<Event>, b: seq<Event>)
    ensures Held(initial, a + b) == Held(Held(initial, a), b)
  {
    if b == [] {
      EmptyConcat(a);
    } else {
      var n := |b| - 1;
      assert (a + b)[..|a + b| - 1] == a + b[..n];
      HeldConcat(initial, a, b[..n]);
    }
  }

  lemma {:induction false} FilesConcat(initial: Files, a: seq<Event>, b: seq<Event>)
    ensures FilesAt(initial, a + b) == FilesAt(FilesAt(initial, a), b)
  {
    if b == [] {
      EmptyConcat(a);
    } else {
      var n := |b| - 1;
      assert (a + b)[..|a + b| - 1] == a + b[..n];
      FilesConcat(initial, a, b[..n]);
    }
  }

  lemma OneEvent(initial: Option<string>, files: Files, e: Event)
    ensures Held(initial, [e]) == if e.CompressionRan? && e.made.Some? then e.made else initial
    ensures FilesAt(files, [e]) == if e.ToolsRan? then e.files else files
  {
    assert [e][..0] == [];
  }

  lemma TwoSteps(initial: Option<string>, files: Files, d: Event, e: Event)
    requires !d.CompressionRan? && !e.CompressionRan? && !e.ToolsRan?
    ensures Held(initial, [d, e]) == initial
    ensures FilesAt(files, [d, e]) == if d.ToolsRan? then d.files else files
  {
    OneEvent(initial, files, d);
    assert [d, e][..1] == [d];
  }

  lemma {:induction false} SeenConcat(a: seq<Event>, b: seq<Event>)
    ensures Seen(a + b) == Seen(a) + Seen(b)
  {
    if a == [] {
      EmptyConcat(b);
    } else {
      TailOfConcat(a, b);
      SeenConcat(a[1..], b);
      Associative(if a[0] == CompressionRan(None) then [] else [a[0]], Seen(a[1..]), Seen(b));
    }
  }

  lemma SeenFirst(events: seq<Event>)
    requires events != [] && events[0] != CompressionRan(None)
    ensures Seen(events) != [] && Seen(events)[0] == events[0]
  {
  }

  /** Compressions are seen exactly if one of them made a summary. */
  lemma {:induction false} SeenCompressions(events: seq<Event>)
    requires forall k :: 0 <= k < |events| ==> events[k].CompressionRan?
    ensures NothingMade(events) <==> Seen(events) == []
    ensures Seen(events) != [] ==> Seen(events)[0].CompressionRan?
  {
    if events != [] {
      HeadAndTail(events);
      SeenCompressions(events[1..]);
      assert events[0] in events;
      assert forall e :: e in events[1..] ==> e in events;
      if NothingMade(events[1..]) && events[0].made == None {
        forall e | e in events ensures e.made == None {
          assert e in [events[0]] + events[1..];
        }
      }
    }
  }

  lemma {:induction false} NothingHeld(initial: Option<string>, events: seq<Event>)
    requires NothingMade(events)
    ensures Held(initial, events) == initial
  {
    if events != [] {
      var n := |events| - 1;
      assert events[n] in events;
      assert forall e :: e in events[..n] ==> e in events;
      NothingHeld(initial, events[..n]);
    }
  }

  lemma CompactedHolds(env: Env, cfg: AgentConfig, s: LoopState)
    ensures Compacted(env, cfg, s).previousSummary
         == Held(s.previousSummary, [CompressionRan(Made(env, cfg, s))])
  {
    OneEvent(s.previousSummary, map[], CompressionRan(Made(env, cfg, s)));
    hide PrunedBefore, PruneBoundary, TailStart, Sanitized, Missing, CutOut, HistoryTokens, BuildSystem;
  }

  lemma CappedHolds(env: Env, cfg: AgentConfig, s: LoopState)
    ensures var (s1, events) := Capped(env, cfg, s);
            s1.previousSummary == Held(s.previousSummary, events)
  {
    hide Compacted, Made;
    CompactedHolds(env, cfg, s);
  }

  lemma MaintainedHolds(env: Env, cfg: AgentConfig, s: LoopState, toolCount: nat, written: bool)
    ensures var (s1, events) := Maintained(env, cfg, s, toolCount, written);
            s1.previousSummary == Held(s.previousSummary, events)
  {
    hide Compacted, Made, UnderPressure, Capped, Held, BuildSystem;
    var s1 := if written then Remembered(cfg, s) else s;
    var s2 := Compacted(env, cfg, s1);
    CappedHolds(env, cfg, s1);
    CappedHolds(env, cfg, s2);
    CompactedHolds(env, cfg, s1);
    HeldConcat(s.previousSummary, [CompressionRan(Made(env, cfg, s1))], Capped(env, cfg, s2).1);
  }

  lemma {:induction false} CompressionsKeepFiles(files: Files, events: seq<Event>)
    requires forall k :: 0 <= k < |events| ==> events[k].CompressionRan?
    ensures FilesAt(files, events) == files
  {
    if events != [] {
      CompressionsKeepFiles(files, events[..|events| - 1]);
    }
  }

  /** After tools ran, summary and files are those the events tell. */
  lemma ToolPhaseHolds(env: Env, cfg: AgentConfig, s: LoopState, calls: seq<ToolCall>, toolCount: nat)
    requires Reproducible(env) && Current(env, cfg, s)
    ensures var (s1, events) := ToolPhase(env, cfg, s, calls, toolCount);
            s1.previousSummary == Held(s.previousSummary, events) && s1.files == FilesAt(s.files, events)
  {
    hide Maintained, Held, FilesAt, Current, Deterministic, MemoryByWrites, ToolResults, FilesAfter, MemoryWritten,
         BuildSystem, ResultMessages;
    var s1 := Executed(env, cfg, s, calls);
    var rs := ToolResults(env, cfg.registry, s.clock, s.files, calls);
    var first := [ToolsRan(calls, rs, s1.files), Checkpointed(s1.history)];
    var more := Maintained(env, cfg, s1, toolCount, MemoryWritten(rs)).1;
    MaintainedHolds(env, cfg, s1, toolCount, MemoryWritten(rs));
    ExecutedIsCurrent(env, cfg, s, calls);
    MaintenanceStaysCurrent(env, cfg, s1, toolCount, MemoryWritten(rs));
    TwoSteps(s.previousSummary, s.files, first[0], first[1]);
    HeldConcat(s.previousSummary, first, more);
    FilesConcat(s.files, first, more);
    ToolPhaseEvents(env, cfg, s, calls, toolCount);
    assert forall k :: 0 <= k < |more| ==> more[k] == ToolPhase(env, cfg, s, calls, toolCount).1[k + 2];
    CompressionsKeepFiles(s1.files, more);
  }

  // ----- When a compression behind a checkpoint matters -----

  /** A compression leaves no trace exactly when it clears nothing and cuts nothing. */
  lemma CompactedKeeps(env: Env, cfg: AgentConfig, s: LoopState)
    ensures Made(env, cfg, s) == None && Compacted(env, cfg, s).history == s.history
       <==> IsInert(cfg.compression, s.history)
    ensures Made(env, cfg, s) == None ==>
              && HistoryTokens(Compacted(env, cfg, s).history) <= HistoryTokens(s.history)
              && (Compacted(env, cfg, s).history != s.history ==>
                    HistoryTokens(Compacted(env, cfg, s).history) < HistoryTokens(s.history))
  {
    hide Compacted, Made, PrunedBefore, PruneBoundary, TailStart, HistoryTokens;
    UncutHistory(env, cfg, s);
    PruningSaves(s.history, PruneBoundary(s.history, cfg.compression.tailBudget));
  }

  /** With the newest three messages and the protected head, short histories are never
      cut; only a long tool result in front of the token boundary could still be cleared. */
  lemma ShortHistoryIsInert(cc: CompressionConfig, c: History)
    requires |c| <= cc.protectHeadMessages + MIN_TAIL
    requires PrunedBefore(c, PruneBoundary(c, cc.tailBudget)) == c
    ensures IsInert(cc, c)
  {
    TailStartsEarly(c, cc.tailBudget);
    hide TailStart, PrunedBefore, PruneBoundary, TokenBoundary;
  }

  lemma CappedKeeps(env: Env, cfg: AgentConfig, s: LoopState)
    ensures var (s1, events) := Capped(env, cfg, s);
            && (NothingMade(events) && s1.history == s.history <==> events == [] || IsInert(cfg.compression, s.history))
            && (NothingMade(events) ==> HistoryTokens(s1.history) <= HistoryTokens(s.history))
            && (events == [] <==> |s.history| <= MAX_HISTORY_MESSAGES)
  {
    hide Compacted, Made, IsInert, HistoryTokens;
    CompactedKeeps(env, cfg, s);
    assert CompressionRan(Made(env, cfg, s)) in [CompressionRan(Made(env, cfg, s))];
  }

  lemma NothingMadeBehind(e: Event, events: seq<Event>)
    requires e.CompressionRan?
    ensures NothingMade([e] + events) <==> e.made == None && NothingMade(events)
  {
    if NothingMade([e] + events) {
      MadeIn(e, events);
    }
  }

  lemma MaintenanceKeeps(env: Env, cfg: AgentConfig, s: LoopState, toolCount: nat, written: bool)
    ensures var (s1, events) := Maintained(env, cfg, s, toolCount, written);
            NothingMade(events) && s1.history == s.history <==> events == [] || IsInert(cfg.compression, s.history)
  {
    hide Compacted, Made, UnderPressure, Capped, IsInert, HistoryTokens, NothingMade, BuildSystem;
    var s1 := if written then Remembered(cfg, s) else s;
    var s2 := Compacted(env, cfg, s1);
    CompactedKeeps(env, cfg, s1);
    CappedKeeps(env, cfg, s1);
    CappedKeeps(env, cfg, s2);
    NothingMadeBehind(CompressionRan(Made(env, cfg, s1)), Capped(env, cfg, s2).1);
  }

  lemma MaintenanceCompressesWhen(env: Env, cfg: AgentConfig, s: LoopState, toolCount: nat, written: bool)
    requires Current(env, cfg, if written then Remembered(cfg, s) else s)
    ensures Maintained(env, cfg, s, toolCount, written).1 != []
       <==> RequestTokens(SteadySystem(env, cfg, s.files), s.history, toolCount) >= cfg.compression.pressureTokens
            || |s.history| > MAX_HISTORY_MESSAGES
  {
    hide Compacted, Made, RequestTokens, BuildSystem;
  }

  /** Saved results are compressed at once exactly when they are too heavy or too long;
      and what follows finds them as they were saved, no summary being made, exactly when
      that is not so or the compression is inert. */
  lemma ResultsCompressWhen(env: Env, cfg: AgentConfig, s: LoopState, calls: seq<ToolCall>)
    requires Reproducible(env) && Current(env, cfg, s) && calls != []
    ensures var (s1, events) := ToolPhase(env, cfg, s, calls, env.toolCount(0));
            var c := Executed(env, cfg, s, calls);
            && |events| >= 2
            && (|events| > 2 <==> CompressesNext(env, cfg, c.files, c.history))
            && (NothingMade(events[2..]) && s1.history == c.history
                <==> !LostOnResume(env, cfg, c.files, c.history))
  {
    hide Maintained, Executed, MemoryWritten, RequestTokens, SteadySystem, Deterministic, MemoryByWrites, Current,
         IsInert, NothingMade, ToolResults, TurnIsComplete;
    var toolCount := env.toolCount(0);
    var s1 := Executed(env, cfg, s, calls);
    var rs := ToolResults(env, cfg.registry, s.clock, s.files, calls);
    ExecutedIsCurrent(env, cfg, s, calls);
    MaintenanceCompressesWhen(env, cfg, s1, toolCount, MemoryWritten(rs));
    MaintenanceKeeps(env, cfg, s1, toolCount, MemoryWritten(rs));
    var more := Maintained(env, cfg, s1, toolCount, MemoryWritten(rs)).1;
    PartsOfConcat([ToolsRan(calls, rs, s1.files), Checkpointed(s1.history)], more);
    ExecutedEndsInTool(env, cfg, s, calls);
  }

  lemma ExecutedEndsInTool(env: Env, cfg: AgentConfig, s: LoopState, calls: seq<ToolCall>)
    requires calls != []
    ensures var h := Executed(env, cfg, s, calls).history;
            h != [] && h[|h| - 1].role == Tool
  {
    EndsInTool(s.history, ToolResults(env, cfg.registry, s.clock, s.files, calls));
  }

  /** A run from a quiet history begins with a provider call on that history. */
  lemma FirstRequest(env: Env, cfg: AgentConfig, m: bool, s: LoopState, b: nat)
    requires Deterministic(env) && Quiet(s.history)
    ensures var events := RunLoop(env, cfg, m, s, b).events;
            if b == 0 then events == [] else events != [] && events[0] == ProviderCalled(s.system, s.history)
  {
    hide RunLoop, ProviderPhase, Quiet, ToolPhase;
    LoopUnfolds(env, cfg, m, s, 0);
    if b > 0 {
      QuietLoop(env, cfg, m, s, b);
      ProviderUnfolds(env, cfg, m, s, env.toolCount(0), b);
    }
  }

  // ----- Crashing and resuming -----

  /** An agent process started on `files` that resumes from the saved history `c`; it
      is given the summary `given`, which a fresh agent does not have. */
  function Resumed(env: Env, cfg: AgentConfig, c: History, files: Files, given: Option<string>, clock: nat, d: nat)
    : TurnEnd
  {
    Turn(env, cfg, None, Fresh(env, c, files, given, clock), d)
  }

  lemma FreshIsCurrent(env: Env, cfg: AgentConfig, c: History, files: Files, given: Option<string>, clock: nat)
    requires Deterministic(env)
    ensures Current(env, cfg, StartState(cfg, Fresh(env, c, files, given, clock)))
  {
    assert env.memoryBlock(clock, files) == env.memoryBlock(0, files);
  }

  lemma SameToolCount(env: Env, clock: nat)
    requires Deterministic(env)
    ensures env.toolCount(clock) == env.toolCount(0)
  {
  }

  /** Resuming a final answer returns it without doing anything. */
  lemma ResumeFinalAnswer(env: Env, cfg: AgentConfig, h: History, r: ChatResponse, files: Files, given: Option<string>,
                          clock: nat, d: nat)
    requires r.toolCalls == [] && d > 0
    ensures var c := h + [AssistantMessage(r)];
            var t := Resumed(env, cfg, c, files, given, clock, d);
            t.outcome == Answer(r.content) && t.events == [] && t.state.history == c && t.state.files == files
  {
    hide RunLoop, BuildSystem;
    var c := h + [AssistantMessage(r)];
    PendingAfterReply(h, r);
    LoopUnfolds(env, cfg, true, StartState(cfg, Fresh(env, c, files, given, clock)), d);
  }

  /** Resuming where calls are pending: they run, and then the provider is called. */
  lemma ResumePending(env: Env, cfg: AgentConfig, c: History, files: Files, given: Option<string>, clock: nat, d: nat)
    requires Deterministic(env) && PendingToolCalls(c) != [] && d > 0
    ensures var u := StartState(cfg, Fresh(env, c, files, given, clock));
            var (u2, more) := ToolPhase(env, cfg, u, PendingToolCalls(c), env.toolCount(0));
            Resumed(env, cfg, c, files, given, clock, d)
            == After(more, ProviderPhase(env, cfg, true, u2, env.toolCount(0), d))
  {
    hide RunLoop, ProviderPhase, ToolPhase, PendingToolCalls, TurnIsComplete, BuildSystem, Deterministic;
    var u := StartState(cfg, Fresh(env, c, files, given, clock));
    LoopUnfolds(env, cfg, true, u, d);
    PendingIsNotComplete(c);
    SameToolCount(env, u.clock);
    PendingUnfolds(env, cfg, u, env.toolCount(0));
  }

  /** Crash right after a reply with calls was saved, perhaps while they ran: on resume
      they run on the files `g` that the crash left.  If that comes to the same, so does
      the rest. */
  lemma CrashBeforeTools(env: Env, cfg: AgentConfig, m: bool, s: LoopState, b: nat, g: Files, given: Option<string>,
                         clock: nat, d: nat)
    requires Reproducible(env) && Honest(env) && Resumable(s.history) && PendingToolCalls(s.history) != []
    requires Current(env, cfg, s) && b <= d && SameCalls(env, cfg, s, s.(files := g), PendingToolCalls(s.history))
    requires var (s2, more) := ToolPhase(env, cfg, s, PendingToolCalls(s.history), env.toolCount(0));
             var rest := RunLoop(env, cfg, m, s2, b);
             CarriesOver(env, cfg, s.previousSummary, given, more + rest.events) && rest.outcome != Exhausted
    ensures var (s2, more) := ToolPhase(env, cfg, s, PendingToolCalls(s.history), env.toolCount(0));
            SameEnd(After(more, RunLoop(env, cfg, m, s2, b)), Resumed(env, cfg, s.history, g, given, clock, d))
  {
    hide RunLoop, ProviderPhase, ToolPhase, CarriesOver, Deterministic, MemoryByWrites, Honest, Resumable, WellFormed,
         PendingToolCalls, TurnIsComplete, Quiet, Current, ToolRun, Resumed, BuildSystem;
    var toolCount := env.toolCount(0);
    var calls := PendingToolCalls(s.history);
    var u := StartState(cfg, Fresh(env, s.history, g, given, clock));
    FreshIsCurrent(env, cfg, s.history, g, given, clock);
    var (s2, more) := ToolPhase(env, cfg, s, calls, toolCount);
    var (u2, others) := ToolPhase(env, cfg, u, calls, toolCount);
    ToolPhaseCarriesOver(env, cfg, s, u, calls, toolCount, RunLoop(env, cfg, m, s2, b).events);
    ToolPhaseEndsInTool(env, cfg, s, toolCount);
    LoopUnfolds(env, cfg, m, s2, 0);
    QuietLoop(env, cfg, m, s2, b);
    SameProviderPhase(env, cfg, m, s2, b, true, u2, d);
    ResumePending(env, cfg, s.history, g, given, clock, d);
  }

  /** If running the calls on what the crash left comes to something else, that is seen. */
  lemma RerunShows(env: Env, cfg: AgentConfig, s: LoopState, g: Files, given: Option<string>, clock: nat, d: nat)
    requires Deterministic(env) && PendingToolCalls(s.history) != [] && d > 0
    requires SteadyBatch(env, cfg, PendingToolCalls(s.history))
    requires !SameCalls(env, cfg, s, s.(files := g), PendingToolCalls(s.history))
    ensures var calls := PendingToolCalls(s.history);
            var r := Resumed(env, cfg, s.history, g, given, clock, d);
            && Seen(r.events) != []
            && Seen(r.events)[0]
               != ToolsRan(calls, ToolResults(env, cfg.registry, s.clock, s.files, calls),
                           Executed(env, cfg, s, calls).files)
  {
    hide ProviderPhase, ToolPhase, PendingToolCalls, ToolRun, Resumed, BuildSystem, Deterministic, MemoryWritten,
         ResultMessages;
    var calls := PendingToolCalls(s.history);
    var u := StartState(cfg, Fresh(env, s.history, g, given, clock));
    ResumePending(env, cfg, s.history, g, given, clock, d);
    ToolPhaseEvents(env, cfg, u, calls, env.toolCount(0));
    SameTools(env, cfg, s.clock, s.files, calls);
    SameTools(env, cfg, u.clock, g, calls);
    SeenFirst(Resumed(env, cfg, s.history, g, given, clock, d).events);
  }

  /** Crash where nothing is pending: the provider is called on resume. */
  lemma CrashAfterTools(env: Env, cfg: AgentConfig, m: bool, s: LoopState, b: nat, given: Option<string>, clock: nat,
                        d: nat)
    requires Reproducible(env) && Honest(env) && WellFormed(s.history) && Quiet(s.history)
    requires Current(env, cfg, s) && b <= d
    requires var rest := RunLoop(env, cfg, m, s, b);
             CarriesOver(env, cfg, s.previousSummary, given, rest.events) && rest.outcome != Exhausted
    ensures SameEnd(RunLoop(env, cfg, m, s, b), Resumed(env, cfg, s.history, s.files, given, clock, d))
  {
    hide RunLoop, CarriesOver, Deterministic, MemoryByWrites, Honest, WellFormed, Quiet, Current, BuildSystem;
    FreshIsCurrent(env, cfg, s.history, s.files, given, clock);
    SameLoop(env, cfg, m, s, b, true, StartState(cfg, Fresh(env, s.history, s.files, given, clock)), d);
  }

  // ----- Every checkpoint of a run -----

  predicate ToolsFollow(events: seq<Event>, i: nat) {
    i + 1 < |events| && events[i + 1].ToolsRan?
  }

  /** What a crash after event `i` of `t`, a checkpoint of `c`, comes to when `t` began
      with `files0` and the summary `initial`, and the resumption is given `given`.  If
      calls were about to run, the crash may leave any files `g`. */
  ghost predicate Replays(env: Env, cfg: AgentConfig, t: TurnEnd, i: nat, c: History, files0: Files,
                          initial: Option<string>, g: Files, given: Option<string>, clock: nat, d: nat)
    requires i < |t.events|
  {
    var files := FilesAt(files0, t.events[..i]);
    var r := Resumed(env, cfg, c, files, given, clock, d);
    var carries := CarriesOver(env, cfg, Held(initial, t.events[..i]), given, t.events[i + 1..]);
    && (CompressionFollows(t.events, i) <==> CompressesNext(env, cfg, files, c))
    && (t.outcome != Exhausted && LostOnResume(env, cfg, files, c) ==> !Recovers(r, t, i))
    && (t.outcome != Exhausted && !LostOnResume(env, cfg, files, c) && carries ==> Recovers(r, t, i))
    && (t.outcome != Exhausted && ToolsFollow(t.events, i) ==>
          var again := Resumed(env, cfg, c, g, given, clock, d);
          carries ==> (Recovers(again, t, i) <==> CallsAgree(env, cfg, t.events[i + 1].calls, files, g)))
  }

  lemma ReplaysAfter(env: Env, cfg: AgentConfig, front: seq<Event>, t: TurnEnd, i: nat, c: History, files0: Files,
                     initial: Option<string>, g: Files, given: Option<string>, clock: nat, d: nat)
    requires i < |t.events|
    requires Replays(env, cfg, t, i, c, FilesAt(files0, front), Held(initial, front), g, given, clock, d)
    ensures Replays(env, cfg, After(front, t), |front| + i, c, files0, initial, g, given, clock, d)
  {
    hide CarriesOver, Resumed, CompressesNext, LostOnResume, Held, FilesAt, CallsAgree, Recovers;
    var files := FilesAt(FilesAt(files0, front), t.events[..i]);
    EventsAfter(front, t, i);
    HeldConcat(initial, front, t.events[..i]);
    FilesConcat(files0, front, t.events[..i]);
    RecoversAfter(front, t, i, Resumed(env, cfg, c, files, given, clock, d));
    RecoversAfter(front, t, i, Resumed(env, cfg, c, g, given, clock, d));
  }

  lemma EventsAfter(front: seq<Event>, t: TurnEnd, i: nat)
    requires i < |t.events|
    ensures var n, events := |front| + i, After(front, t).events;
            && n < |events| && events[n + 1..] == t.events[i + 1..] && events[..n] == front + t.events[..i]
            && (CompressionFollows(events, n) <==> CompressionFollows(t.events, i))
            && (ToolsFollow(events, n) <==> ToolsFollow(t.events, i))
            && (ToolsFollow(events, n) ==> events[n + 1] == t.events[i + 1])
  {
  }

  lemma RecoversAfter(front: seq<Event>, t: TurnEnd, i: nat, r: TurnEnd)
    requires i < |t.events|
    ensures Recovers(r, After(front, t), |front| + i) <==> Recovers(r, t, i)
  {
    hide Seen;
    EventsAfter(front, t, i);
  }

  lemma SameEndRecovers(r: TurnEnd, t: TurnEnd, rest: TurnEnd, i: nat)
    requires i < |t.events| && SameEnd(rest, r)
    requires t.outcome == rest.outcome && t.state == rest.state && Seen(t.events[i + 1..]) == Seen(rest.events)
    ensures Recovers(r, t, i)
  {
  }

  /** The events `more` of a tool phase that saved the results `c` and ended in `s2`. */
  ghost predicate IsToolPhase(env: Env, cfg: AgentConfig, initial: Option<string>, more: seq<Event>, c: History,
                              s2: LoopState)
  {
    && |more| >= 2 && more[0].ToolsRan? && more[0].files == s2.files && more[1] == Checkpointed(c)
    && (forall k :: 2 <= k < |more| ==> more[k].CompressionRan?)
    && WellFormed(s2.history) && Quiet(s2.history) && Quiet(c) && Current(env, cfg, s2)
    && s2.previousSummary == Held(initial, more)
    && (|more| > 2 <==> CompressesNext(env, cfg, s2.files, c))
    && (NothingMade(more[2..]) && s2.history == c <==> !LostOnResume(env, cfg, s2.files, c))
  }

  lemma ToolPhaseIs(env: Env, cfg: AgentConfig, s: LoopState)
    requires Reproducible(env) && Honest(env) && Resumable(s.history) && PendingToolCalls(s.history) != []
    requires Current(env, cfg, s)
    ensures var calls := PendingToolCalls(s.history);
            var (s2, more) := ToolPhase(env, cfg, s, calls, env.toolCount(0));
            IsToolPhase(env, cfg, s.previousSummary, more, Executed(env, cfg, s, calls).history, s2)
  {
    hide ToolPhase, Reproducible, PendingToolCalls, Quiet, Resumable, WellFormed, Honest, CompressesNext, LostOnResume,
         Held, FilesAt, Executed, Current, NothingMade, ToolResults;
    var calls := PendingToolCalls(s.history);
    var (s2, more) := ToolPhase(env, cfg, s, calls, env.toolCount(0));
    ToolPhaseEvents(env, cfg, s, calls, env.toolCount(0));
    ToolPhaseEndsInTool(env, cfg, s, env.toolCount(0));
    ToolPhaseStaysCurrent(env, cfg, s, calls, env.toolCount(0));
    ToolPhaseHolds(env, cfg, s, calls, env.toolCount(0));
    ResultsCompressWhen(env, cfg, s, calls);
    FilesAtResults(s, more, s2);
    QuietResults(env, cfg, s);
  }

  /** Crash at the results of a tool phase. */
  lemma CrashAtResults(env: Env, cfg: AgentConfig, m: bool, more: seq<Event>, c: History, s2: LoopState, b: nat,
                       files0: Files, initial: Option<string>, g: Files, given: Option<string>, clock: nat, d: nat)
    requires Reproducible(env) && Honest(env) && b <= d && IsToolPhase(env, cfg, initial, more, c, s2)
    ensures Replays(env, cfg, After(more, RunLoop(env, cfg, m, s2, b)), 1, c, files0, initial, g, given, clock, d)
  {
    hide RunLoop, CarriesOver, Deterministic, MemoryByWrites, Quiet, WellFormed, Honest, Resumed, CompressesNext,
         LostOnResume, Held, FilesAt, Current, Seen, NothingMade, Recovers;
    var rest := RunLoop(env, cfg, m, s2, b);
    var t := After(more, rest);
    var comps := more[2..];
    EventsBehindResults(more, rest);
    FirstRequest(env, cfg, m, s2, b);
    LoopUnfolds(env, cfg, m, s2, 0);
    if t.outcome != Exhausted && LostOnResume(env, cfg, s2.files, c) {
      LostShows(env, cfg, t, c, s2.files, comps, m, s2, b, given, clock, d);
    }
    if t.outcome != Exhausted && !LostOnResume(env, cfg, s2.files, c)
       && CarriesOver(env, cfg, initial, given, comps + rest.events)
    {
      KeptSummary(initial, more);
      KeptResultsRecover(env, cfg, t, comps, m, s2, b, given, clock, d);
    }
    ResultsReplay(env, cfg, t, c, s2.files, files0, initial, g, given, clock, d);
  }

  lemma EventsBehindResults(more: seq<Event>, rest: TurnEnd)
    requires |more| >= 2
    ensures var t := After(more, rest);
            && |t.events| >= 2 && t.events[0] == more[0] && t.events[2..] == more[2..] + rest.events
            && (if |more| > 2 then |t.events| > 2 && t.events[2] == more[2]
                else |t.events| > 2 ==> t.events[2] == rest.events[0])
  {
  }

  /** Results that the compressions leave as they were saved are resumed from. */
  lemma KeptResultsRecover(env: Env, cfg: AgentConfig, t: TurnEnd, comps: seq<Event>, m: bool, s: LoopState, b: nat,
                           given: Option<string>, clock: nat, d: nat)
    requires Reproducible(env) && Honest(env) && WellFormed(s.history) && Quiet(s.history)
    requires Current(env, cfg, s) && b <= d
    requires var rest := RunLoop(env, cfg, m, s, b);
             && |t.events| >= 2 && t.events[2..] == comps + rest.events && t.outcome == rest.outcome != Exhausted
             && t.state == rest.state && CarriesOver(env, cfg, s.previousSummary, given, comps + rest.events)
    requires NothingMade(comps) && forall k :: 0 <= k < |comps| ==> comps[k].CompressionRan?
    ensures Recovers(Resumed(env, cfg, s.history, s.files, given, clock, d), t, 1)
  {
    hide RunLoop, CarriesOver, Deterministic, MemoryByWrites, Quiet, WellFormed, Honest, Resumed, Current, Seen,
         NothingMade, Recovers;
    var rest := RunLoop(env, cfg, m, s, b);
    CarriesOverParts(env, cfg, s.previousSummary, given, comps, rest.events);
    CrashAfterTools(env, cfg, m, s, b, given, clock, d);
    SeenConcat(comps, rest.events);
    SeenCompressions(comps);
    EmptyConcat(Seen(rest.events));
    SameEndRecovers(Resumed(env, cfg, s.history, s.files, given, clock, d), t, rest, 1);
  }

  lemma ResultsReplay(env: Env, cfg: AgentConfig, t: TurnEnd, c: History, files: Files, files0: Files,
                      initial: Option<string>, g: Files, given: Option<string>, clock: nat, d: nat)
    requires |t.events| >= 2 && t.events[0].ToolsRan? && t.events[0].files == files && !ToolsFollow(t.events, 1)
    requires CompressionFollows(t.events, 1) <==> CompressesNext(env, cfg, files, c)
    requires t.outcome != Exhausted ==>
               var r := Resumed(env, cfg, c, files, given, clock, d);
               && (LostOnResume(env, cfg, files, c) ==> !Recovers(r, t, 1))
               && (!LostOnResume(env, cfg, files, c) && CarriesOver(env, cfg, initial, given, t.events[2..])
                   ==> Recovers(r, t, 1))
    ensures Replays(env, cfg, t, 1, c, files0, initial, g, given, clock, d)
  {
    hide CarriesOver, Resumed, CompressesNext, LostOnResume, Held, FilesAt, Recovers, CallsAgree;
    assert t.events[..1] == [t.events[0]];
    OneEvent(initial, files0, t.events[0]);
  }

  lemma QuietResults(env: Env, cfg: AgentConfig, s: LoopState)
    requires PendingToolCalls(s.history) != []
    ensures Quiet(Executed(env, cfg, s, PendingToolCalls(s.history)).history)
  {
    hide PendingToolCalls, Quiet, MemoryWritten, FilesAfter, ResultMessages, ToolResults;
    QuietAfterPending(s.history, ToolResults(env, cfg.registry, s.clock, s.files, PendingToolCalls(s.history)));
  }

  lemma FilesAtResults(s: LoopState, more: seq<Event>, s2: LoopState)
    requires |more| >= 2 && more[0].ToolsRan? && more[1].Checkpointed?
    requires forall k :: 2 <= k < |more| ==> more[k].CompressionRan?
    requires s2.files == FilesAt(s.files, more) && s2.previousSummary == Held(s.previousSummary, more)
    ensures s2.files == more[0].files
  {
    TwoSteps(s.previousSummary, s.files, more[0], more[1]);
    assert more == [more[0], more[1]] + more[2..];
    FilesConcat(s.files, [more[0], more[1]], more[2..]);
    CompressionsKeepFiles(more[0].files, more[2..]);
  }

  lemma KeptSummary(initial: Option<string>, more: seq<Event>)
    requires |more| >= 2 && more[0].ToolsRan? && more[1].Checkpointed? && NothingMade(more[2..])
    ensures Held(initial, more) == initial
  {
    TwoSteps(initial, map[], more[0], more[1]);
    assert more == [more[0], more[1]] + more[2..];
    HeldConcat(initial, [more[0], more[1]], more[2..]);
    NothingHeld(initial, more[2..]);
  }

  /** A compression that made a summary or changed the history shows: in itself, or in
      the next request. */
  lemma LostShows(env: Env, cfg: AgentConfig, t: TurnEnd, c: History, files: Files, comps: seq<Event>, m: bool,
                  s2: LoopState, b: nat, given: Option<string>, clock: nat, d: nat)
    requires Deterministic(env) && Quiet(c) && Quiet(s2.history) && 0 < b <= d
    requires |t.events| >= 2 && t.events[2..] == comps + RunLoop(env, cfg, m, s2, b).events
    requires forall k :: 0 <= k < |comps| ==> comps[k].CompressionRan?
    requires !(NothingMade(comps) && s2.history == c)
    ensures !Recovers(Resumed(env, cfg, c, files, given, clock, d), t, 1)
  {
    hide RunLoop, Quiet, Deterministic, NothingMade, Seen, BuildSystem;
    var u := StartState(cfg, Fresh(env, c, files, given, clock));
    var rest := RunLoop(env, cfg, m, s2, b).events;
    FirstRequest(env, cfg, m, s2, b);
    FirstRequest(env, cfg, true, u, d);
    SeenFirst(RunLoop(env, cfg, true, u, d).events);
    SeenFirst(rest);
    SeenConcat(comps, rest);
    SeenCompressions(comps);
    EmptyConcat(Seen(rest));
    if Seen(comps) != [] {
      TailOfConcat(Seen(comps), Seen(rest));
    }
  }

  /** A crash in a stretch that runs pending calls and then goes on. */
  lemma {:induction false} CrashInToolTurn(env: Env, cfg: AgentConfig, m: bool, s: LoopState, b: nat, i: nat,
                                           c: History, g: Files, given: Option<string>, clock: nat, d: nat)
    requires Reproducible(env) && Honest(env) && Resumable(s.history) && PendingToolCalls(s.history) != []
    requires Current(env, cfg, s) && b <= d
    requires var (s2, more) := ToolPhase(env, cfg, s, PendingToolCalls(s.history), env.toolCount(0));
             var t := After(more, RunLoop(env, cfg, m, s2, b));
             i < |t.events| && t.events[i] == Checkpointed(c)
    ensures var (s2, more) := ToolPhase(env, cfg, s, PendingToolCalls(s.history), env.toolCount(0));
            var t := After(more, RunLoop(env, cfg, m, s2, b));
            Replays(env, cfg, t, i, c, s.files, s.previousSummary, g, given, clock, d)
    decreases b, 2
  {
    hide RunLoop, ToolPhase, CarriesOver, Deterministic, MemoryByWrites, PendingToolCalls, Quiet, Resumable, WellFormed,
         Honest, Resumed, CompressesNext, Replays, Current, Executed, FilesAt, Held;
    var toolCount := env.toolCount(0);
    var calls := PendingToolCalls(s.history);
    var (s2, more) := ToolPhase(env, cfg, s, calls, toolCount);
    var rest := RunLoop(env, cfg, m, s2, b);
    ToolPhaseEvents(env, cfg, s, calls, toolCount);
    ToolPhaseEndsInTool(env, cfg, s, toolCount);
    ToolPhaseStaysCurrent(env, cfg, s, calls, toolCount);
    ToolPhaseHolds(env, cfg, s, calls, toolCount);
    if i < |more| {
      assert After(more, rest).events[i] == more[i];
      assert i == 1;
      ToolPhaseIs(env, cfg, s);
      CrashAtResults(env, cfg, m, more, c, s2, b, s.files, s.previousSummary, g, given, clock, d);
    } else {
      assert After(more, rest).events[i] == rest.events[i - |more|];
      CrashInLoop(env, cfg, m, s2, b, i - |more|, c, g, given, clock, d);
      ReplaysAfter(env, cfg, more, rest, i - |more|, c, s.files, s.previousSummary, g, given, clock, d);
    }
  }

  lemma {:induction false} CrashInLoop(env: Env, cfg: AgentConfig, m: bool, s: LoopState, b: nat, i: nat, c: History,
                                       g: Files, given: Option<string>, clock: nat, d: nat)
    requires Reproducible(env) && Honest(env) && WellFormed(s.history) && Quiet(s.history)
    requires Current(env, cfg, s) && b <= d
    requires var t := RunLoop(env, cfg, m, s, b);
             i < |t.events| && t.events[i] == Checkpointed(c)
    ensures Replays(env, cfg, RunLoop(env, cfg, m, s, b), i, c, s.files, s.previousSummary, g, given, clock, d)
    decreases b, 1
  {
    hide RunLoop, ProviderPhase, Deterministic, MemoryByWrites, Honest, WellFormed, Quiet, Replays, Current;
    LoopUnfolds(env, cfg, m, s, 0);
    QuietLoop(env, cfg, m, s, b);
    CrashInProviderPhase(env, cfg, m, s, b, i, c, g, given, clock, d);
  }

  /** A crash from a provider call on. */
  lemma {:induction false} CrashInProviderPhase(env: Env, cfg: AgentConfig, m: bool, s: LoopState, b: nat, i: nat,
                                                c: History, g: Files, given: Option<string>, clock: nat, d: nat)
    requires Reproducible(env) && Honest(env) && WellFormed(s.history)
    requires Current(env, cfg, s) && 0 < b <= d
    requires var t := ProviderPhase(env, cfg, m, s, env.toolCount(0), b);
             i < |t.events| && t.events[i] == Checkpointed(c)
    ensures Replays(env, cfg, ProviderPhase(env, cfg, m, s, env.toolCount(0), b), i, c, s.files, s.previousSummary, g,
                    given, clock, d)
    decreases b, 0
  {
    hide RunLoop, ProviderPhase, ToolPhase, CarriesOver, Deterministic, MemoryByWrites, PendingToolCalls, Quiet,
         Resumable, WellFormed, Resumed, Replays, Current, FilesAt, Held;
    var toolCount := env.toolCount(0);
    ProviderUnfolds(env, cfg, m, s, toolCount, b);
    assert FreshReply(env.provider(s.clock, s.system, s.history), s.history);
    hide Honest, FreshReply;
    match env.provider(s.clock, s.system, s.history)
    case Err(_) =>
    case Ok(r) =>
      var s1 := Answered(s, r);
      var first := [ProviderCalled(s.system, s.history), Checkpointed(s1.history)];
      ReplyIsResumable(s.history, r);
      AnsweredStaysCurrent(env, cfg, s, r);
      if i == 1 {
        CrashAtReply(env, cfg, m, s, r, b, g, given, clock, d);
      } else {
        var (s2, more) := ToolPhase(env, cfg, s1, r.toolCalls, toolCount);
        var whole := After(more, RunLoop(env, cfg, m, s2, b - 1));
        AfterAfter(first, more, RunLoop(env, cfg, m, s2, b - 1));
        CrashInToolTurn(env, cfg, m, s1, b - 1, i - 2, c, g, given, clock, d);
        TwoSteps(s.previousSummary, s.files, first[0], first[1]);
        ReplaysAfter(env, cfg, first, whole, i - 2, c, s.files, s.previousSummary, g, given, clock, d);
      }
  }

  /** Crash at a reply, perhaps while its calls run. */
  lemma CrashAtReply(env: Env, cfg: AgentConfig, m: bool, s: LoopState, r: ChatResponse, b: nat, g: Files,
                     given: Option<string>, clock: nat, d: nat)
    requires Reproducible(env) && Honest(env) && Current(env, cfg, s) && 0 < b <= d
    requires env.provider(s.clock, s.system, s.history) == Ok(r)
    requires Resumable(Answered(s, r).history) && PendingToolCalls(Answered(s, r).history) == r.toolCalls
    requires |ProviderPhase(env, cfg, m, s, env.toolCount(0), b).events| > 1
    ensures Replays(env, cfg, ProviderPhase(env, cfg, m, s, env.toolCount(0), b), 1, Answered(s, r).history,
                    s.files, s.previousSummary, g, given, clock, d)
  {
    hide RunLoop, ProviderPhase, ToolPhase, CarriesOver, Deterministic, MemoryByWrites, PendingToolCalls, Resumable,
         Resumed, Honest, Current, CallsAgree, Recovers, Executed, Seen, Replays;
    var s1 := Answered(s, r);
    var t := ProviderPhase(env, cfg, m, s, env.toolCount(0), b);
    ProviderUnfolds(env, cfg, m, s, env.toolCount(0), b);
    AnsweredStaysCurrent(env, cfg, s, r);
    if r.toolCalls == [] {
      ResumeFinalAnswer(env, cfg, s.history, r, s.files, given, clock, d);
      NothingLeft(Resumed(env, cfg, s1.history, s.files, given, clock, d), t);
    } else {
      var (s2, more) := ToolPhase(env, cfg, s1, r.toolCalls, env.toolCount(0));
      var rest := RunLoop(env, cfg, m, s2, b - 1);
      ToolPhaseEvents(env, cfg, s1, r.toolCalls, env.toolCount(0));
      EventsBehindReply(ProviderCalled(s.system, s.history), Checkpointed(s1.history), more, rest.events);
      if t.outcome != Exhausted {
        CrashOnFiles(env, cfg, m, s1, b - 1, t, s.files, given, clock, d);
        CrashOnFiles(env, cfg, m, s1, b - 1, t, g, given, clock, d);
        AgreesWithItself(env, cfg, r.toolCalls, s.files);
      }
    }
    ReplyReplays(env, cfg, t, s1.history, s.files, s.previousSummary, g, given, clock, d);
  }

  lemma EventsBehindReply(a: Event, b: Event, more: seq<Event>, rest: seq<Event>)
    requires more != []
    ensures var events := [a, b] + more + rest;
            |events| > 2 && events[2] == more[0] && events[2..] == more + rest
  {
  }

  lemma ReplyReplays(env: Env, cfg: AgentConfig, t: TurnEnd, c: History, files: Files, initial: Option<string>,
                     g: Files, given: Option<string>, clock: nat, d: nat)
    requires |t.events| >= 2 && t.events[0].ProviderCalled? && !CompressionFollows(t.events, 1)
    requires c != [] && c[|c| - 1].role != Tool
    requires t.outcome != Exhausted && CarriesOver(env, cfg, initial, given, t.events[2..]) ==>
               && Recovers(Resumed(env, cfg, c, files, given, clock, d), t, 1)
               && (ToolsFollow(t.events, 1) ==>
                     (Recovers(Resumed(env, cfg, c, g, given, clock, d), t, 1)
                      <==> CallsAgree(env, cfg, t.events[2].calls, files, g)))
    ensures Replays(env, cfg, t, 1, c, files, initial, g, given, clock, d)
  {
    hide CarriesOver, Resumed, Held, FilesAt, Recovers, CallsAgree, SteadySystem, RequestTokens, IsInert;
    assert t.events[..1] == [t.events[0]];
    OneEvent(initial, files, t.events[0]);
  }

  lemma AgreesWithItself(env: Env, cfg: AgentConfig, calls: seq<ToolCall>, files: Files)
    ensures CallsAgree(env, cfg, calls, files, files)
  {
  }

  lemma NothingLeft(r: TurnEnd, t: TurnEnd)
    requires |t.events| == 2 && r.events == [] && r.outcome == t.outcome && r.state.history == t.state.history
    requires r.state.files == t.state.files
    ensures Recovers(r, t, 1)
  {
    assert t.events[2..] == [];
  }

  lemma BatchOf(env: Env, cfg: AgentConfig, p: Option<string>, q: Option<string>, events: seq<Event>, e: Event)
    requires CarriesOver(env, cfg, p, q, events) && e in events && e.ToolsRan?
    ensures SteadyBatch(env, cfg, e.calls)
  {
  }

  /** Resuming a reply with calls on the files `g`. */
  lemma CrashOnFiles(env: Env, cfg: AgentConfig, m: bool, s: LoopState, b: nat, t: TurnEnd, g: Files,
                     given: Option<string>, clock: nat, d: nat)
    requires Reproducible(env) && Honest(env) && Resumable(s.history) && PendingToolCalls(s.history) != []
    requires Current(env, cfg, s) && b < d && t.outcome != Exhausted && |t.events| >= 2
    requires var (s2, more) := ToolPhase(env, cfg, s, PendingToolCalls(s.history), env.toolCount(0));
             var rest := RunLoop(env, cfg, m, s2, b);
             t.outcome == rest.outcome && t.state == rest.state && t.events[2..] == more + rest.events
    ensures var r := Resumed(env, cfg, s.history, g, given, clock, d);
            CarriesOver(env, cfg, s.previousSummary, given, t.events[2..]) ==>
              (Recovers(r, t, 1) <==> CallsAgree(env, cfg, PendingToolCalls(s.history), s.files, g))
  {
    hide RunLoop, ToolPhase, CarriesOver, Deterministic, MemoryByWrites, PendingToolCalls, Resumable, Resumed, Honest,
         Current, Executed, ToolRun, Seen, SummaryCarriesOver;
    var calls := PendingToolCalls(s.history);
    var (s2, more) := ToolPhase(env, cfg, s, calls, env.toolCount(0));
    var rest := RunLoop(env, cfg, m, s2, b);
    var r := Resumed(env, cfg, s.history, g, given, clock, d);
    if CarriesOver(env, cfg, s.previousSummary, given, t.events[2..]) {
      if CallsAgree(env, cfg, calls, s.files, g) {
        CrashBeforeTools(env, cfg, m, s, b, g, given, clock, d);
        SameEndRecovers(r, t, After(more, rest), 1);
      } else {
        ToolPhaseEvents(env, cfg, s, calls, env.toolCount(0));
        assert t.events[2..][0] == more[0] && more[0] in t.events[2..];
        BatchOf(env, cfg, s.previousSummary, given, t.events[2..], more[0]);
        RerunShows(env, cfg, s, g, given, clock, d);
        SeenFirst(t.events[2..]);
      }
    }
  }

  lemma CrashAtStart(env: Env, cfg: AgentConfig, s: LoopState, b: nat, g: Files, given: Option<string>, clock: nat,
                     d: nat)
    requires Reproducible(env) && Honest(env) && b <= d && WellFormed(s.history) && Quiet(s.history)
    requires Current(env, cfg, s)
    requires s.history != [] && s.history[|s.history| - 1].role == User
    ensures Replays(env, cfg, After([Checkpointed(s.history)], RunLoop(env, cfg, false, s, b)), 0, s.history,
                    s.files, s.previousSummary, g, given, clock, d)
  {
    hide RunLoop, SteadySystem, Deterministic, MemoryByWrites, Quiet, WellFormed, Honest, CarriesOver, Resumed, Current,
         CallsAgree, Seen;
    var rest := RunLoop(env, cfg, false, s, b);
    var t := After([Checkpointed(s.history)], rest);
    assert t.events[1..] == rest.events && t.events[..0] == [];
    FirstRequest(env, cfg, false, s, b);
    if rest.outcome != Exhausted && CarriesOver(env, cfg, s.previousSummary, given, rest.events) {
      CrashAfterTools(env, cfg, false, s, b, given, clock, d);
    }
  }

  /** A state in which a turn can begin: its snapshot of the memory is up to date. */
  ghost predicate UpToDate(env: Env, s: LoopState) {
    s.snapshot == env.memoryBlock(0, s.files)
  }

  lemma StartIsCurrent(env: Env, cfg: AgentConfig, s: LoopState)
    requires UpToDate(env, s)
    ensures Current(env, cfg, StartState(cfg, s))
  {
  }

  lemma CrashInUserTurn(env: Env, cfg: AgentConfig, text: string, s: LoopState, b: nat, i: nat, c: History, g: Files,
                        given: Option<string>, clock: nat, d: nat)
    requires Reproducible(env) && Honest(env) && b <= d && WellFormed(s.history) && UpToDate(env, s)
    requires var t := Turn(env, cfg, Some(text), s, b);
             i < |t.events| && t.events[i] == Checkpointed(c)
    ensures Replays(env, cfg, Turn(env, cfg, Some(text), s, b), i, c, s.files, s.previousSummary, g, given, clock, d)
  {
    hide RunLoop, Deterministic, MemoryByWrites, Quiet, WellFormed, Honest, CarriesOver, Replays, Current, BuildSystem,
         FilesAt, Held;
    var asked := s.(history := s.history + [UserMessage(text)]);
    var u := StartState(cfg, asked);
    UserMessageIsPlain(s.history, text);
    QuietByLastRole(asked.history);
    StartIsCurrent(env, cfg, asked);
    if i == 0 {
      CrashAtStart(env, cfg, u, b, g, given, clock, d);
    } else {
      var rest := RunLoop(env, cfg, false, u, b);
      var first := Checkpointed(asked.history);
      assert After([first], rest).events[i] == rest.events[i - 1];
      CrashInLoop(env, cfg, false, u, b, i - 1, c, g, given, clock, d);
      OneEvent(s.previousSummary, s.files, first);
      ReplaysAfter(env, cfg, [first], rest, i - 1, c, s.files, s.previousSummary, g, given, clock, d);
    }
  }

  lemma CrashInResumedTurn(env: Env, cfg: AgentConfig, s: LoopState, b: nat, i: nat, c: History, g: Files,
                           given: Option<string>, clock: nat, d: nat)
    requires Reproducible(env) && Honest(env) && b <= d && Resumable(s.history) && UpToDate(env, s)
    requires var t := Turn(env, cfg, None, s, b);
             i < |t.events| && t.events[i] == Checkpointed(c)
    ensures Replays(env, cfg, Turn(env, cfg, None, s, b), i, c, s.files, s.previousSummary, g, given, clock, d)
  {
    hide RunLoop, ProviderPhase, Deterministic, MemoryByWrites, Quiet, Resumable, WellFormed, Honest, PendingToolCalls,
         TurnIsComplete, ToolPhase, CarriesOver, Replays, Current, BuildSystem;
    var u := StartState(cfg, s);
    StartIsCurrent(env, cfg, s);
    LoopUnfolds(env, cfg, true, u, b);
    SameToolCount(env, u.clock);
    PendingUnfolds(env, cfg, u, env.toolCount(0));
    if PendingToolCalls(s.history) != [] {
      var u2 := ToolPhase(env, cfg, u, PendingToolCalls(s.history), env.toolCount(0)).0;
      ToolPhaseEndsInTool(env, cfg, u, env.toolCount(0));
      QuietLoop(env, cfg, true, u2, b);
      CrashInToolTurn(env, cfg, true, u, b, i, c, g, given, clock, d);
    } else {
      PendingPhaseIsSafe(env, cfg, u, env.toolCount(0));
      EmptyConcat(ProviderPhase(env, cfg, true, u, env.toolCount(0), b).events);
      CrashInProviderPhase(env, cfg, true, u, b, i, c, g, given, clock, d);
    }
  }

  /** A turn that can be begun or resumed, and its event `i`, a checkpoint of `c`. */
  ghost predicate IsCheckpoint(env: Env, cfg: AgentConfig, user: Option<string>, s: LoopState, b: nat, i: nat,
                               c: History)
  {
    && Reproducible(env) && Honest(env) && UpToDate(env, s)
    && (if user.Some? then WellFormed(s.history) else Resumable(s.history))
    && var t := Turn(env, cfg, user, s, b);
       i < |t.events| && t.events[i] == Checkpointed(c)
  }

  lemma CrashInTurn(env: Env, cfg: AgentConfig, user: Option<string>, s: LoopState, b: nat, i: nat, c: History,
                    g: Files, given: Option<string>, clock: nat, d: nat)
    requires IsCheckpoint(env, cfg, user, s, b, i, c) && b <= d
    ensures Replays(env, cfg, Turn(env, cfg, user, s, b), i, c, s.files, s.previousSummary, g, given, clock, d)
  {
    hide Turn, Replays, Deterministic, MemoryByWrites, Honest, WellFormed, Resumable, UpToDate;
    match user
    case None => CrashInResumedTurn(env, cfg, s, b, i, c, g, given, clock, d);
    case Some(text) => CrashInUserTurn(env, cfg, text, s, b, i, c, g, given, clock, d);
  }

  /** What is compressed next can be told from the saved history and the files. */
  lemma CompressionFollowsWhen(env: Env, cfg: AgentConfig, user: Option<string>, s: LoopState, b: nat, i: nat,
                               c: History)
    requires IsCheckpoint(env, cfg, user, s, b, i, c)
    ensures var events := Turn(env, cfg, user, s, b).events;
            CompressionFollows(events, i) <==> CompressesNext(env, cfg, FilesAt(s.files, events[..i]), c)
  {
    hide Turn, IsCheckpoint, CompressesNext, CarriesOver, Resumed, Recovers, LostOnResume, Held, FilesAt, CallsAgree;
    CrashInTurn(env, cfg, user, s, b, i, c, map[], None, 0, b);
  }

  /** Main result.  Take any turn that finishes, started by a user message or itself a
      resumption, and stop it anywhere.  A resumption from the last checkpoint `c`
      (event `i`) on the files of that moment, with at least the same budget, makes
      exactly the requests, tool runs, checkpoints and summaries that were still to come
      and ends with the same answer, history and files, if and only if `c` is not
      compressed as soon as it is saved, or that compression is inert.  Later
      compressions do no harm, provided the summary held at the checkpoint carries over. */
  lemma CrashAnywhere(env: Env, cfg: AgentConfig, user: Option<string>, s: LoopState, b: nat, i: nat, c: History,
                      given: Option<string>, clock: nat, d: nat)
    requires IsCheckpoint(env, cfg, user, s, b, i, c) && b <= d
    requires var t := Turn(env, cfg, user, s, b);
             && t.outcome != Exhausted
             && CarriesOver(env, cfg, Held(s.previousSummary, t.events[..i]), given, t.events[i + 1..])
    ensures var t := Turn(env, cfg, user, s, b);
            var files := FilesAt(s.files, t.events[..i]);
            Recovers(Resumed(env, cfg, c, files, given, clock, d), t, i) <==> !LostOnResume(env, cfg, files, c)
  {
    hide Turn, Resumed, IsCheckpoint, CarriesOver, Recovers, Held, FilesAt, LostOnResume, CompressesNext, CallsAgree;
    CrashInTurn(env, cfg, user, s, b, i, c, map[], given, clock, d);
  }

  /** A lost compression shows whatever summary the resumption is given. */
  lemma LostNeverRecovers(env: Env, cfg: AgentConfig, user: Option<string>, s: LoopState, b: nat, i: nat, c: History,
                          given: Option<string>, clock: nat, d: nat)
    requires IsCheckpoint(env, cfg, user, s, b, i, c) && b <= d && Turn(env, cfg, user, s, b).outcome != Exhausted
    requires LostOnResume(env, cfg, FilesAt(s.files, Turn(env, cfg, user, s, b).events[..i]), c)
    ensures var t := Turn(env, cfg, user, s, b);
            !Recovers(Resumed(env, cfg, c, FilesAt(s.files, t.events[..i]), given, clock, d), t, i)
  {
    hide Turn, Resumed, IsCheckpoint, CarriesOver, Recovers, Held, FilesAt, LostOnResume, CompressesNext, CallsAgree;
    CrashInTurn(env, cfg, user, s, b, i, c, map[], given, clock, d);
  }

  /** Given the summary the run held, however much is compressed later. */
  lemma CrashWithSummary(env: Env, cfg: AgentConfig, user: Option<string>, s: LoopState, b: nat, i: nat, c: History,
                         clock: nat, d: nat)
    requires IsCheckpoint(env, cfg, user, s, b, i, c) && SteadyCompression(env) && b <= d
    requires SteadyBatches(env, cfg, Turn(env, cfg, user, s, b).events[i + 1..])
    requires Turn(env, cfg, user, s, b).outcome != Exhausted
    ensures var t := Turn(env, cfg, user, s, b);
            var files := FilesAt(s.files, t.events[..i]);
            Recovers(Resumed(env, cfg, c, files, Held(s.previousSummary, t.events[..i]), clock, d), t, i)
            <==> !LostOnResume(env, cfg, files, c)
  {
    var held := Held(s.previousSummary, Turn(env, cfg, user, s, b).events[..i]);
    hide Turn, Resumed, IsCheckpoint, SteadyCompression, SteadyBatches, Recovers, Held, FilesAt, LostOnResume;
    CrashAnywhere(env, cfg, user, s, b, i, c, held, clock, d);
  }

  /** A fresh agent has no summary, which is what the run held if none was made yet. */
  lemma CrashOfFreshAgent(env: Env, cfg: AgentConfig, user: Option<string>, s: LoopState, b: nat, i: nat, c: History,
                          clock: nat, d: nat)
    requires IsCheckpoint(env, cfg, user, s, b, i, c) && SteadyCompression(env) && b <= d
    requires SteadyBatches(env, cfg, Turn(env, cfg, user, s, b).events[i + 1..])
    requires Turn(env, cfg, user, s, b).outcome != Exhausted
    requires Held(s.previousSummary, Turn(env, cfg, user, s, b).events[..i]) == None
    ensures var t := Turn(env, cfg, user, s, b);
            var files := FilesAt(s.files, t.events[..i]);
            Recovers(Resumed(env, cfg, c, files, None, clock, d), t, i) <==> !LostOnResume(env, cfg, files, c)
  {
    hide Turn, Resumed, IsCheckpoint, SteadyCompression, SteadyBatches, Recovers, Held, FilesAt, LostOnResume;
    CrashAnywhere(env, cfg, user, s, b, i, c, None, clock, d);
  }

  // ----- A crash while tools run -----

  /** The crash came while calls ran and left the files `g`.  All their results are lost,
      and the resumption runs them again, on `g`.  It recovers if and only if they come
      to the same there. */
  lemma CrashWhileToolsRun(env: Env, cfg: AgentConfig, user: Option<string>, s: LoopState, b: nat, i: nat, c: History,
                           g: Files, given: Option<string>, clock: nat, d: nat)
    requires IsCheckpoint(env, cfg, user, s, b, i, c) && b <= d
    requires var t := Turn(env, cfg, user, s, b);
             && t.outcome != Exhausted && ToolsFollow(t.events, i)
             && CarriesOver(env, cfg, Held(s.previousSummary, t.events[..i]), given, t.events[i + 1..])
    ensures var t := Turn(env, cfg, user, s, b);
            Recovers(Resumed(env, cfg, c, g, given, clock, d), t, i)
            <==> CallsAgree(env, cfg, t.events[i + 1].calls, FilesAt(s.files, t.events[..i]), g)
  {
    hide Turn, Resumed, IsCheckpoint, CarriesOver, Recovers, Held, FilesAt, LostOnResume, CompressesNext, CallsAgree;
    CrashInTurn(env, cfg, user, s, b, i, c, g, given, clock, d);
  }

  lemma ConfinedInSequence(env: Env, cfg: AgentConfig, calls: seq<ToolCall>, files: Files)
    requires KeepsToPaths(ToolAt(env.tool, 0), calls, cfg.registry) && !Conflicting(WritePaths(calls, cfg.registry))
    ensures ToolRun(env, cfg.registry, 0, files, calls) == RunInSequence(calls, ToolAt(env.tool, 0), files)
  {
    hide RunOrder, KeepsToPaths, Conflicting, SortByIndex;
    var order := env.order(0, calls, files);
    if CompletionOrder(order, |calls|) {
      ParallelRefinesSequential(calls, cfg.registry, ToolAt(env.tool, 0), order, files);
    }
  }

  /** For calls that keep to their paths, of which `ran` had taken effect: it recovers if
      and only if every writer among those repeats itself. */
  lemma CrashAmidBatch(env: Env, cfg: AgentConfig, user: Option<string>, s: LoopState, b: nat, i: nat, c: History,
                       ran: seq<nat>, given: Option<string>, clock: nat, d: nat)
    requires IsCheckpoint(env, cfg, user, s, b, i, c) && b <= d
    requires var t := Turn(env, cfg, user, s, b);
             && t.outcome != Exhausted && ToolsFollow(t.events, i)
             && CarriesOver(env, cfg, Held(s.previousSummary, t.events[..i]), given, t.events[i + 1..])
             && var calls := t.events[i + 1].calls;
                && KeepsToPaths(ToolAt(env.tool, 0), calls, cfg.registry)
                && !Conflicting(WritePaths(calls, cfg.registry))
                && InRange(ran, |calls|) && Distinct(ran)
    ensures var t := Turn(env, cfg, user, s, b);
            var calls, files := t.events[i + 1].calls, FilesAt(s.files, t.events[..i]);
            var left := RunOrder(calls, ToolAt(env.tool, 0), ran, files).1;
            Recovers(Resumed(env, cfg, c, left, given, clock, d), t, i)
            <==> forall k: nat :: k in ran && WritesAt(calls, cfg.registry, k) ==>
                   RepeatsItself(ToolAt(env.tool, 0), calls[k], files, calls[k].arguments.path.value)
  {
    hide Turn, Resumed, IsCheckpoint, CarriesOver, Recovers, Held, FilesAt, RunOrder, KeepsToPaths, Conflicting,
         RepeatsItself, SortByIndex;
    var t := Turn(env, cfg, user, s, b);
    var calls, files := t.events[i + 1].calls, FilesAt(s.files, t.events[..i]);
    var left := RunOrder(calls, ToolAt(env.tool, 0), ran, files).1;
    CrashWhileToolsRun(env, cfg, user, s, b, i, c, left, given, clock, d);
    ConfinedInSequence(env, cfg, calls, files);
    ConfinedInSequence(env, cfg, calls, left);
    var inOrder := Ascending(|calls|);
    ParallelRefinesSequential(calls, cfg.registry, ToolAt(env.tool, 0), inOrder, files);
    ParallelRefinesSequential(calls, cfg.registry, ToolAt(env.tool, 0), inOrder, left);
    RerunAfterCrash(calls, cfg.registry, ToolAt(env.tool, 0), ran, inOrder, files);
  }

  /** A turn begun with an outdated snapshot is not repeated by a fresh process, which
      reads the memory anew: its first request shows the difference. */
  lemma StaleSnapshotShows(env: Env, cfg: AgentConfig, text: string, s: LoopState, b: nat, given: Option<string>,
                           clock: nat, d: nat)
    requires Deterministic(env) && WellFormed(s.history) && 0 < b <= d && !UpToDate(env, s)
    ensures var t := Turn(env, cfg, Some(text), s, b);
            var c := s.history + [UserMessage(text)];
            && t.events != [] && t.events[0] == Checkpointed(c)
            && !Recovers(Resumed(env, cfg, c, s.files, given, clock, d), t, 0)
  {
    hide RunLoop, Quiet, WellFormed, Seen, BuildSystem, Deterministic;
    var asked := s.(history := s.history + [UserMessage(text)]);
    var u, v := StartState(cfg, asked), StartState(cfg, Fresh(env, asked.history, s.files, given, clock));
    UserMessageIsPlain(s.history, text);
    QuietByLastRole(asked.history);
    FirstRequest(env, cfg, false, u, b);
    FirstRequest(env, cfg, true, v, d);
    SeenFirst(RunLoop(env, cfg, false, u, b).events);
    SeenFirst(RunLoop(env, cfg, true, v, d).events);
    PromptsDiffer(cfg.systemPrompt, s.snapshot, env.memoryBlock(clock, s.files));
    SameBlock(env, clock, s.files);
    var t := Turn(env, cfg, Some(text), s, b);
    assert t.events[1..] == RunLoop(env, cfg, false, u, b).events;
  }

  lemma SameBlock(env: Env, clock: nat, files: Files)
    requires Deterministic(env)
    ensures env.memoryBlock(clock, files) == env.memoryBlock(0, files)
  {
  }

  lemma PromptsDiffer(prompt: string, a: string, b: string)
    ensures BuildSystem(prompt, a) == BuildSystem(prompt, b) <==> a == b
  {
    assert (prompt + "\n\n" + a)[|prompt| + 2..] == a;
    assert (prompt + "\n\n" + b)[|prompt| + 2..] == b;
  }

  // ----- Any number of crashes -----

  /** Resumes from `c` with a fresh agent; at each listed event, if it is a checkpoint,
      crashes and resumes again, on the files of that moment. */
  function Survivor(env: Env, cfg: AgentConfig, c: History, files: Files, d: nat, crashes: seq<nat>): TurnEnd
    decreases |crashes|
  {
    var r := Resumed(env, cfg, c, files, None, 0, d);
    if crashes == [] || crashes[0] >= |Seen(r.events)| || !Seen(r.events)[crashes[0]].Checkpointed? then r
    else
      var seen := Seen(r.events);
      Survivor(env, cfg, seen[crashes[0]].history, FilesAt(files, seen[..crashes[0]]), d, crashes[1..])
  }

  /** The position of the `n`-th event that can be seen. */
  function SeenAt(events: seq<Event>, n: nat): (k: nat)
    requires n < |Seen(events)|
    ensures k < |events|
  {
    if events[0] == CompressionRan(None) then
      EmptyConcat(Seen(events[1..]));
      1 + SeenAt(events[1..], n)
    else if n == 0 then 0
    else 1 + SeenAt(events[1..], n - 1)
  }

  /** `Seen` splits at that position. */
  predicate SeenSplits(events: seq<Event>, k: nat, n: nat) {
    k < |events| && n < |Seen(events)| && events[k] == Seen(events)[n]
    && Seen(events[..k]) == Seen(events)[..n] && Seen(events[k + 1..]) == Seen(events)[n + 1..]
  }

  lemma {:induction false} SeenAtSplits(events: seq<Event>, n: nat)
    requires n < |Seen(events)|
    ensures SeenSplits(events, SeenAt(events, n), n)
  {
    hide SeenSplits;
    var rest := events[1..];
    if events[0] == CompressionRan(None) {
      EmptyConcat(Seen(rest));
      SeenAtSplits(rest, n);
      HiddenInFront(events, SeenAt(rest, n), n);
    } else if n == 0 {
      ShownFirst(events);
    } else {
      SeenAtSplits(rest, n - 1);
      ShownInFront(events, SeenAt(rest, n - 1), n - 1);
    }
  }

  lemma ShownFirst(events: seq<Event>)
    requires events != [] && events[0] != CompressionRan(None)
    ensures SeenSplits(events, 0, 0)
  {
    assert events[..0] == [];
    PartsOfConcat([events[0]], Seen(events[1..]));
  }

  lemma HiddenInFront(events: seq<Event>, k: nat, n: nat)
    requires events != [] && events[0] == CompressionRan(None) && SeenSplits(events[1..], k, n)
    ensures SeenSplits(events, k + 1, n)
  {
    var rest := events[1..];
    assert events[..k + 1][1..] == rest[..k] && events[k + 2..] == rest[k + 1..];
    EmptyConcat(Seen(rest));
    EmptyConcat(Seen(rest[..k]));
  }

  lemma ShownInFront(events: seq<Event>, k: nat, n: nat)
    requires events != [] && events[0] != CompressionRan(None) && SeenSplits(events[1..], k, n)
    ensures SeenSplits(events, k + 1, n + 1)
  {
    var rest := events[1..];
    assert events[..k + 1][1..] == rest[..k] && events[k + 2..] == rest[k + 1..];
    BehindOne(events[0], Seen(rest), n);
  }

  lemma BehindOne<T>(x: T, s: seq<T>, n: nat)
    requires n < |s|
    ensures ([x] + s)[n + 1] == s[n] && ([x] + s)[..n + 1] == [x] + s[..n] && ([x] + s)[n + 2..] == s[n + 1..]
  {
  }

  lemma {:induction false} FilesOfSeen(files: Files, events: seq<Event>)
    ensures FilesAt(files, Seen(events)) == FilesAt(files, events)
    decreases |events|
  {
    if events != [] {
      var e, rest := events[0], events[1..];
      HeadAndTail(events);
      FilesConcat(files, [e], rest);
      OneEvent(None, files, e);
      if e == CompressionRan(None) {
        EmptyConcat(Seen(rest));
        FilesOfSeen(files, rest);
      } else {
        FilesConcat(files, [e], Seen(rest));
        FilesOfSeen(FilesAt(files, [e]), rest);
      }
    }
  }

  /** The event of the run at which the next listed crash comes, counted in what is seen
      behind event `i`, if that is a checkpoint. */
  function NextCrash(events: seq<Event>, i: nat, crashes: seq<nat>): (next: Option<nat>)
    requires i < |events|
    ensures next.Some? ==> crashes != [] && i < next.value < |events| && events[next.value].Checkpointed?
  {
    var rest := events[i + 1..];
    if crashes != [] && crashes[0] < |Seen(rest)| && rest[SeenAt(rest, crashes[0])].Checkpointed? then
      Some(i + 1 + SeenAt(rest, crashes[0]))
    else None
  }

  /** At no crash point a compression is lost. */
  ghost predicate NoneLost(env: Env, cfg: AgentConfig, files0: Files, events: seq<Event>, i: nat, crashes: seq<nat>)
    requires i < |events| && events[i].Checkpointed?
    decreases |crashes|
  {
    && !LostOnResume(env, cfg, FilesAt(files0, events[..i]), events[i].history)
    && var next := NextCrash(events, i, crashes);
       (next.Some? ==> NoneLost(env, cfg, files0, events, next.value, crashes[1..]))
  }

  /** At every crash point the rest comes out the same for a fresh agent. */
  ghost predicate EachCarriesOver(env: Env, cfg: AgentConfig, initial: Option<string>, events: seq<Event>, i: nat,
                                  crashes: seq<nat>)
    requires i < |events| && events[i].Checkpointed?
    decreases |crashes|
  {
    && CarriesOver(env, cfg, Held(initial, events[..i]), None, events[i + 1..])
    && var next := NextCrash(events, i, crashes);
       (next.Some? ==> EachCarriesOver(env, cfg, initial, events, next.value, crashes[1..]))
  }

  /** A fresh agent recovers from every crash point. */
  ghost predicate EachRecovers(env: Env, cfg: AgentConfig, t: TurnEnd, files0: Files, i: nat, d: nat, crashes: seq<nat>)
    requires i < |t.events| && t.events[i].Checkpointed?
    decreases |crashes|
  {
    && Recovers(Resumed(env, cfg, t.events[i].history, FilesAt(files0, t.events[..i]), None, 0, d), t, i)
    && var next := NextCrash(t.events, i, crashes);
       (next.Some? ==> EachRecovers(env, cfg, t, files0, next.value, d, crashes[1..]))
  }

  /** A turn that crashes again and again recovers every time if and only if none of the
      crashes loses a compression. */
  lemma {:induction false} EachRecoversIff(env: Env, cfg: AgentConfig, user: Option<string>, s: LoopState, b: nat,
                                           i: nat, d: nat, crashes: seq<nat>)
    requires var t := Turn(env, cfg, user, s, b);
             && t.outcome != Exhausted && i < |t.events| && t.events[i].Checkpointed?
             && IsCheckpoint(env, cfg, user, s, b, i, t.events[i].history)
             && EachCarriesOver(env, cfg, s.previousSummary, t.events, i, crashes)
    requires b <= d
    ensures var t := Turn(env, cfg, user, s, b);
            EachRecovers(env, cfg, t, s.files, i, d, crashes) <==> NoneLost(env, cfg, s.files, t.events, i, crashes)
    decreases |crashes|
  {
    hide Turn, Resumed, Reproducible, Honest, Resumable, WellFormed, LostOnResume, CarriesOver, Held, FilesAt, Recovers,
         UpToDate, NextCrash;
    var t := Turn(env, cfg, user, s, b);
    CrashAnywhere(env, cfg, user, s, b, i, t.events[i].history, None, 0, d);
    var next := NextCrash(t.events, i, crashes);
    if next.Some? {
      EachRecoversIff(env, cfg, user, s, b, next.value, d, crashes[1..]);
    }
  }

  /** Then it ends as if it had never crashed. */
  lemma {:induction false} ManyCrashes(env: Env, cfg: AgentConfig, t: TurnEnd, files0: Files, i: nat, d: nat,
                                       crashes: seq<nat>)
    requires i < |t.events| && t.events[i].Checkpointed? && EachRecovers(env, cfg, t, files0, i, d, crashes)
    ensures var r := Survivor(env, cfg, t.events[i].history, FilesAt(files0, t.events[..i]), d, crashes);
            r.outcome == t.outcome && r.state.history == t.state.history && r.state.files == t.state.files
    decreases |crashes|
  {
    hide Resumed, FilesAt, Seen;
    var c, files := t.events[i].history, FilesAt(files0, t.events[..i]);
    var rest := t.events[i + 1..];
    var seen := Seen(Resumed(env, cfg, c, files, None, 0, d).events);
    assert seen == Seen(rest);
    if crashes != [] && crashes[0] < |seen| {
      var k := SeenAt(rest, crashes[0]);
      SeenAtSplits(rest, crashes[0]);
      if seen[crashes[0]].Checkpointed? {
        assert NextCrash(t.events, i, crashes) == Some(i + 1 + k);
        assert t.events[i + 1..i + 1 + k] == rest[..k];
        FilesAtNext(files0, t.events, i, i + 1 + k, seen[..crashes[0]]);
        ManyCrashes(env, cfg, t, files0, i + 1 + k, d, crashes[1..]);
      }
    }
  }

  lemma FilesAtNext(files: Files, events: seq<Event>, i: nat, next: nat, seen: seq<Event>)
    requires i < next < |events| && !events[i].ToolsRan? && Seen(events[i + 1..next]) == seen
    ensures FilesAt(FilesAt(files, events[..i]), seen) == FilesAt(files, events[..next])
  {
    var front := events[..i];
    assert events[..next] == front + ([events[i]] + events[i + 1..next]);
    FilesConcat(files, front, [events[i]] + events[i + 1..next]);
    FilesConcat(FilesAt(files, front), [events[i]], events[i + 1..next]);
    OneEvent(None, FilesAt(files, front), events[i]);
    FilesOfSeen(FilesAt(files, front), events[i + 1..next]);
  }

  /** Resuming a partly answered block runs exactly the calls without a result, in
      call order, before anything else; answered calls are not run again. */
  lemma ResumeRunsOnlyUnanswered(env: Env, cfg: AgentConfig, h: History, files: Files, given: Option<string>,
                                 clock: nat, d: nat)
    requires PendingToolCalls(h) != [] && d > 0
    ensures var t := Resumed(env, cfg, h, files, given, clock, d);
            var c := LastCaller(h);
            && c.Some?
            && t.events != [] && t.events[0].ToolsRan?
            && t.events[0].calls == Unanswered(h[c.value].toolCalls, AnsweredIds(h[c.value + 1..]))
            && forall x ::
                 x in t.events[0].calls <==> x in h[c.value].toolCalls && x.id !in AnsweredIds(h[c.value + 1..])
  {
    hide RunLoop, ProviderPhase, ToolPhase, PendingToolCalls, TurnIsComplete, BuildSystem, ToolRun, MemoryWritten,
         ToolResults;
    var s := StartState(cfg, Fresh(env, h, files, given, clock));
    LastCallerFollowedByTools(h);
    var c := LastCaller(h).value;
    UnansweredExact(h[c].toolCalls, AnsweredIds(h[c + 1..]));
    PendingIsNotComplete(h);
    LoopUnfolds(env, cfg, true, s, d);
    PendingUnfolds(env, cfg, s, env.toolCount(s.clock));
    ToolPhaseEvents(env, cfg, s, PendingToolCalls(h), env.toolCount(s.clock));
  }
}
