/** Where crash recovery ends.  Tool results are saved before they are compressed, so
    a crash in between loses the compressed history; and a fresh agent does not have
    the summary that the crashed one held, so its next compression may differ. */
module ResumeLimits {
  import opened Wrappers
  import opened Messages
  import opened Blocks
  import opened Sanitizer
  import opened TokenCounter
  import opened Compressor
  import opened CompressorTheorems
  import opened Parallel
  import opened AgentLoop
  import opened AgentSafety
  import opened CrashResume
  import opened Sequences

  const CALL := ToolCall("c1", "read_file", Arguments("{}", None))

  /** Asks for one call, then answers with the first message it sees. */
  function DemoReply(h: History): ChatResponse {
    if IssuedIds(h) == [] then ChatResponse("", [CALL], None)
    else ChatResponse(if h == [] then "" else h[0].content.AsTextLossy(), [], None)
  }

  function DemoSummary(previous: Option<string>): string {
    if previous.Some? then "continued" else "begun"
  }

  /** The first message of a compressed history. */
  function SummarySeen(previous: Option<string>): string {
    SummaryMessage(DemoSummary(previous)).content.AsTextLossy()
  }

  ghost function DemoEnv(iterate: set<string> -> seq<string>): Env {
    Env((t, system, h) => Ok(DemoReply(h)),
        (t, c, f) => (ToolResult("ok", false), f),
        (t, calls, f) => Ascending(|calls|),
        (t, previous, h, memory) => Ok(DemoSummary(previous)),
        (t, h) => None,
        (t, f) => "",
        (t, s) => iterate(s),
        t => 0)
  }

  /** Always under pressure, nothing but the minimal tail protected. */
  const DEMO_CONFIG := AgentConfig("", map[], CompressionConfig(0, 0, 0))

  const START: History := [UserMessage("a"), UserMessage("b"), UserMessage("c")]
  const ASKED: History := START + [UserMessage("go")]
  const CALLED: History := ASKED + [AssistantMessage(ChatResponse("", [CALL], None))]
  const SAVED: History := CALLED + [ResultMessage(ResultOf(CALL, ToolResult("ok", false)))]

  lemma PlainUser(h: History, text: string)
    ensures BlocksOk(h) ==> BlocksOk(h + [UserMessage(text)])
    ensures IssuedIds(h + [UserMessage(text)]) == IssuedIds(h)
  {
    UserMessageIsPlain(h, text);
    IssuedIdsConcat(h, [UserMessage(text)]);
    assert IssuedIds([UserMessage(text)]) == [] by { assert [UserMessage(text)][1..] == []; }
    EmptyConcat(IssuedIds(h));
    if BlocksOk(h) {
      UnitThen([UserMessage(text)], []);
      EmptyConcat([UserMessage(text)]);
      BlocksOkConcat(h, [UserMessage(text)]);
    }
  }

  lemma AskedIsWellFormed()
    ensures WellFormed(START) && WellFormed(ASKED) && IssuedIds(ASKED) == [] && |ASKED| == 4
  {
    var one := [UserMessage("a")];
    PlainUser([], "a");
    EmptyConcat(one);
    PlainUser(one, "b");
    assert one + [UserMessage("b")] == [UserMessage("a"), UserMessage("b")];
    PlainUser([UserMessage("a"), UserMessage("b")], "c");
    assert [UserMessage("a"), UserMessage("b")] + [UserMessage("c")] == START;
    PlainUser(START, "go");
  }

  const RESULT := ResultOf(CALL, ToolResult("ok", false))

  /** The call leaves the files alone. */
  lemma CallRuns(iterate: set<string> -> seq<string>, clock: nat, files: Files)
    ensures ToolResults(DemoEnv(iterate), DEMO_CONFIG.registry, clock, files, [CALL]) == [RESULT]
    ensures FilesAfter(DemoEnv(iterate), DEMO_CONFIG.registry, clock, files, [CALL]) == files
  {
    var act := ToolAt(DemoEnv(iterate).tool, clock);
    NothingRan([CALL], act, files);
    CompletionStep([CALL], act, [], 0, files);
    EmptyConcat([(0, RESULT)]);
    assert [] + [0] == Ascending(1);
    hide RunOrder;
  }

  lemma SavedIs()
    ensures CALLED + ResultMessages([RESULT]) == SAVED
    ensures |SAVED| == 6 && PendingToolCalls(CALLED) == [CALL]
  {
    PendingAfterReply(ASKED, ChatResponse("", [CALL], None));
  }

  lemma ReplyIds()
    ensures IssuedIds([AssistantMessage(ChatResponse("", [CALL], None))]) == ["c1"]
    ensures IssuedIds([ResultMessage(ResultOf(CALL, ToolResult("ok", false)))]) == []
  {
    var a := AssistantMessage(ChatResponse("", [CALL], None));
    var t := ResultMessage(ResultOf(CALL, ToolResult("ok", false)));
    assert [a][1..] == [] && [t][1..] == [];
    assert CallIds([CALL]) == ["c1"];
  }

  lemma SavedIds()
    ensures IssuedIds(SAVED) == ["c1"] && IssuedIds(SAVED[3..]) == ["c1"]
  {
    hide BlocksOk, NoDuplicates;
    var a := AssistantMessage(ChatResponse("", [CALL], None));
    var t := ResultMessage(ResultOf(CALL, ToolResult("ok", false)));
    AskedIsWellFormed();
    ReplyIds();
    IssuedIdsConcat(ASKED, [a]);
    IssuedIdsConcat(CALLED, [t]);
    PlainUser([], "go");
    EmptyConcat([UserMessage("go")]);
    IssuedIdsConcat([UserMessage("go")], [a]);
    IssuedIdsConcat([UserMessage("go")] + [a], [t]);
    assert SAVED[3..] == [UserMessage("go")] + [a] + [t];
  }

  lemma SavedIsWellFormed()
    ensures WellFormed(SAVED)
  {
    hide WellFormed, Resumable;
    ReplyIsPending();
    SavedIs();
    PendingCallsComplete(CALLED, [RESULT]);
  }

  /** Zero budgets: the tail is the last three messages, and everything before goes. */
  lemma ZeroBudgetTail(p: History)
    requires |p| == 6 && p[3].role == User
    ensures TailStart(p, 0) == 3
  {
    assert TokenBoundary(p, 0, 6) == Some(5);
  }

  lemma CompressedSaved(summarizer: Summarizer, memory: Option<string>, previous: Option<string>,
                        iterate: set<string> -> seq<string>)
    requires forall s :: Enumerates(iterate(s), s)
    requires forall h :: summarizer(previous, h, memory) == Ok(DemoSummary(previous))
    ensures var h := Compress(CompressionConfig(0, 0, 0), previous, summarizer, memory, iterate, SAVED).history;
            |h| == 4 && IssuedIds(h) == ["c1"] && h[0] == SummaryMessage(DemoSummary(previous))
  {
    hide WellFormed, TailStart, CutOut, Missing, HistoryTokens, MessageTokens, Compress, SummaryMessage, PrunedBefore,
         PruneBoundary, CompletedHead, SAVED, Enumerates, DemoSummary;
    var cfg := CompressionConfig(0, 0, 0);
    SavedIsWellFormed();
    CompressionShape(cfg, previous, summarizer, memory, iterate, SAVED);
    var p := PrunedBefore(SAVED, PruneBoundary(SAVED, 0));
    SavedPruned(p, PruneBoundary(SAVED, 0));
    ZeroBudgetTail(p);
    var summary := SummaryText(summarizer(previous, p[0..3], memory));
    var ids := iterate(Missing(CutOut(p, 0, 3, summary)));
    NothingBeforeCut(p, ids);
    SummaryIsUnit(summary, p[3..]);
    EmptyConcat([SummaryMessage(summary)] + p[3..]);
  }

  lemma SavedPruned(p: History, b: nat)
    requires b <= |SAVED| && p == PrunedBefore(SAVED, b)
    ensures |p| == 6 && p[3].role == User && IssuedIds(p[3..]) == ["c1"]
  {
    hide BlocksOk, NoDuplicates;
    SavedIds();
    assert SAVED[3] == UserMessage("go");
    SameShapeIds(SAVED[3..], p[3..]);
  }

  lemma NothingBeforeCut(p: History, ids: seq<string>)
    ensures CompletedHead(p, 0, ids) == []
  {
  }

  lemma DemoIsHonest(iterate: set<string> -> seq<string>)
    requires forall s :: Enumerates(iterate(s), s)
    ensures var env := DemoEnv(iterate);
            Honest(env) && Reproducible(env) && SteadyCompression(env)
  {
    var env := DemoEnv(iterate);
    forall t, system, h ensures FreshReply(env.provider(t, system, h), h) {
      assert CallIds([CALL]) == ["c1"];
    }
  }

  lemma DemoIsSteady(iterate: set<string> -> seq<string>, events: seq<Event>)
    ensures SteadyBatches(DemoEnv(iterate), DEMO_CONFIG, events)
  {
    hide SteadyBatch;
    forall e | e in events && e.ToolsRan? ensures SteadyBatch(DemoEnv(iterate), DEMO_CONFIG, e.calls) {
      TimelessIsSteady(DemoEnv(iterate), DEMO_CONFIG, e.calls);
    }
  }

  lemma NoMemoryWritten()
    ensures !MemoryWritten([RESULT])
  {
    assert CALL.name != MEMORY_WRITE by { assert "read_file"[0] != "memory_write"[0]; }
  }

  /** The pressure test is always met, so the saved results are compressed at once. */
  lemma DemoToolPhase(iterate: set<string> -> seq<string>, s: LoopState)
    requires forall u :: Enumerates(iterate(u), u)
    requires s.history == CALLED
    ensures var (s1, events) := ToolPhase(DemoEnv(iterate), DEMO_CONFIG, s, [CALL], 0);
            && |s1.history| == 4 && IssuedIds(s1.history) == ["c1"]
            && s1.history[0] == SummaryMessage(DemoSummary(s.previousSummary))
            && |events| == 3 && events[0].ToolsRan? && events[0].files == s.files
            && events[1] == Checkpointed(SAVED) && events[2].CompressionRan?
  {
    hide Compress, RequestTokens, SAVED, CALLED, BuildSystem, ResultMessages, ToolResults, FilesAfter, DemoSummary,
         SummaryMessage, MemoryWritten;
    var env := DemoEnv(iterate);
    SavedIs();
    CallRuns(iterate, s.clock, s.files);
    NoMemoryWritten();
    var s1 := Executed(env, DEMO_CONFIG, s, [CALL]);
    forall u ensures Enumerates(IterateAt(env.iterate, s1.clock)(u), u) {
      assert IterateAt(env.iterate, s1.clock)(u) == iterate(u);
    }
    CompressedSaved(SummarizerAt(env.summarizer, s1.clock), env.contribution(s1.clock, SAVED), s1.previousSummary,
                    IterateAt(env.iterate, s1.clock));
    assert UnderPressure(DEMO_CONFIG, s1, 0);
    assert Capped(env, DEMO_CONFIG, Compacted(env, DEMO_CONFIG, s1)) == (Compacted(env, DEMO_CONFIG, s1), []);
  }

  lemma FinalReply(env: Env, m: bool, s: LoopState, budget: nat)
    requires budget > 0 && s.history != [] && Quiet(s.history) && IssuedIds(s.history) != []
    requires Deterministic(env) && forall t, system, g :: env.provider(t, system, g) == Ok(DemoReply(g))
    ensures RunLoop(env, DEMO_CONFIG, m, s, budget).outcome == Answer(s.history[0].content.AsTextLossy())
  {
    hide RunLoop, ProviderPhase, Quiet;
    QuietLoop(env, DEMO_CONFIG, m, s, budget);
    ProviderUnfolds(env, DEMO_CONFIG, m, s, env.toolCount(0), budget);
  }

  /** An agent process just started, which holds the summary `previous`. */
  function Begun(env: Env, h: History, previous: Option<string>): LoopState {
    Fresh(env, h, map[], previous, 0)
  }

  /** From the user message on, the demonstration runs one call, compresses its saved
      result, and answers with the summary it then sees. */
  lemma DemoRun(iterate: set<string> -> seq<string>, m: bool, previous: Option<string>)
    requires forall s :: Enumerates(iterate(s), s)
    ensures var env := DemoEnv(iterate);
            var t := RunLoop(env, DEMO_CONFIG, m, StartState(DEMO_CONFIG, Begun(env, ASKED, previous)), 2);
            && |t.events| > 4 && (forall k :: 0 <= k < 3 ==> t.events[k].ToolsRan? ==> t.events[k].files == map[])
            && t.events[3] == Checkpointed(SAVED) && t.events[4].CompressionRan?
            && t.outcome == Answer(SummarySeen(previous))
  {
    hide RunLoop, ProviderPhase, PendingPhase, ToolPhase, Honest, Deterministic, WellFormed, PendingToolCalls, Quiet,
         Resumable, SAVED, CALLED, ASKED, START, DEMO_CONFIG, SummaryMessage, DemoSummary, BuildSystem, MemoryByWrites;
    var env := DemoEnv(iterate);
    DemoIsHonest(iterate);
    AskedIsWellFormed();
    DemoHistories();
    var s := StartState(DEMO_CONFIG, Begun(env, ASKED, previous));
    QuietUser();
    QuietLoop(env, DEMO_CONFIG, m, s, 2);
    ProviderUnfolds(env, DEMO_CONFIG, m, s, 0, 2);
    var s1 := Answered(s, ChatResponse("", [CALL], None));
    DemoToolPhase(iterate, s1);
    SavedIs();
    ReplyIsPending();
    ToolPhaseEndsInTool(env, DEMO_CONFIG, s1, 0);
    FinalReply(env, m, ToolPhase(env, DEMO_CONFIG, s1, [CALL], 0).0, 1);
  }

  /** A turn whose results were saved and then compressed, crashed in between: resuming
      from the saved results gives another answer than the uninterrupted turn. */
  lemma CompressionAfterCheckpointDiverges(iterate: set<string> -> seq<string>)
    requires forall s :: Enumerates(iterate(s), s)
    ensures var env := DemoEnv(iterate);
            var t := Turn(env, DEMO_CONFIG, Some("go"), Begun(env, START, None), 2);
            && Reproducible(env) && SteadyCompression(env) && Honest(env) && WellFormed(START)
            && |t.events| > 5 && t.events[4] == Checkpointed(SAVED) && CompressionFollows(t.events, 4)
            && t.outcome == Answer(SummarySeen(None))
            && Resumed(env, DEMO_CONFIG, SAVED, map[], None, 0, 2).outcome == Answer("a")
            && SummarySeen(None) != "a"
  {
    hide RunLoop, Honest, Deterministic, WellFormed, SAVED, CALLED, ASKED, START, DEMO_CONFIG, SteadyCompression,
         BuildSystem, MemoryByWrites;
    DemoIsHonest(iterate);
    AskedIsWellFormed();
    DemoHistories();
    DemoRun(iterate, false, None);
    SavedResumes(iterate);
    SummariesDiffer();
    hide SummarySeen, DemoEnv, Resumed;
  }

  lemma SavedResumes(iterate: set<string> -> seq<string>)
    requires forall s :: Enumerates(iterate(s), s)
    ensures Resumed(DemoEnv(iterate), DEMO_CONFIG, SAVED, map[], None, 0, 2).outcome == Answer("a")
  {
    hide RunLoop, Honest, Deterministic, WellFormed, PendingToolCalls, Quiet, Resumable, SAVED, CALLED, DEMO_CONFIG,
         ResultMessages, BuildSystem, MemoryByWrites;
    var env := DemoEnv(iterate);
    DemoIsHonest(iterate);
    DemoHistories();
    SavedIs();
    ReplyIsPending();
    QuietAfterPending(CALLED, [RESULT]);
    SavedIds();
    FinalReply(env, true, StartState(DEMO_CONFIG, Begun(env, SAVED, None)), 2);
  }

  lemma SummariesDiffer()
    ensures SummarySeen(None) != "a"
    ensures forall held: string :: SummarySeen(None) != SummarySeen(Some(held))
  {
    assert |SummarySeen(None)| > 1;
    forall held: string ensures SummarySeen(None) != SummarySeen(Some(held)) {
      assert |SummarySeen(None)| < |SummarySeen(Some(held))|;
    }
  }

  /** What a fresh agent's missing summary costs: the turn was started by an agent that
      held one, and crashes at its user message, where nothing is compressed next.
      Resuming without the summary gives another answer. */
  lemma MissingSummaryDiverges(iterate: set<string> -> seq<string>, held: string)
    requires forall s :: Enumerates(iterate(s), s)
    ensures var env := DemoEnv(iterate);
            var s := Begun(env, START, Some(held));
            var t := Turn(env, DEMO_CONFIG, Some("go"), s, 2);
            && IsCheckpoint(env, DEMO_CONFIG, Some("go"), s, 2, 0, ASKED) && SteadyCompression(env)
            && SteadyBatches(env, DEMO_CONFIG, t.events[1..])
            && t.outcome.Answer? && !LostOnResume(env, DEMO_CONFIG, map[], ASKED)
            && Resumed(env, DEMO_CONFIG, ASKED, map[], Some(held), 0, 2).outcome == t.outcome
            && Resumed(env, DEMO_CONFIG, ASKED, map[], None, 0, 2).outcome != t.outcome
  {
    hide RunLoop, Honest, Deterministic, WellFormed, SAVED, DEMO_CONFIG, SteadyCompression, BuildSystem, MemoryByWrites,
         RequestTokens, IsInert;
    DemoIsHonest(iterate);
    AskedIsWellFormed();
    DemoHistories();
    DemoRun(iterate, false, Some(held));
    DemoRun(iterate, true, Some(held));
    DemoRun(iterate, true, None);
    SummariesDiffer();
    DemoIsSteady(iterate, Turn(DemoEnv(iterate), DEMO_CONFIG, Some("go"), Begun(DemoEnv(iterate), START, Some(held)),
                               2).events[1..]);
    hide SummarySeen, SteadyBatches;
  }

  // ----- When a fresh agent is enough -----

  /** Whatever the turn, a fresh agent can replace one that held `p` at the checkpoint. */
  ghost predicate FreshAgentSuffices(p: Option<string>) {
    forall env, cfg, user, s, b: nat, i: nat, c, clock: nat, d: nat ::
      HoldsAt(env, cfg, user, s, b, i, c, p) && b <= d ==>
        var t := Turn(env, cfg, user, s, b);
        Recovers(Resumed(env, cfg, c, FilesAt(s.files, t.events[..i]), None, clock, d), t, i)
  }

  /** A checkpoint whose compression is not lost, at which the summary `p` is held. */
  ghost predicate HoldsAt(env: Env, cfg: AgentConfig, user: Option<string>, s: LoopState, b: nat, i: nat, c: History,
                          p: Option<string>)
  {
    IsCheckpoint(env, cfg, user, s, b, i, c) && SteadyCompression(env) &&
    var t := Turn(env, cfg, user, s, b);
    && t.outcome != Exhausted && Held(s.previousSummary, t.events[..i]) == p
    && SteadyBatches(env, cfg, t.events[i + 1..])
    && !LostOnResume(env, cfg, FilesAt(s.files, t.events[..i]), c)
  }

  ghost function ListOf(s: set<string>): seq<string> {
    if s == {} then []
    else
      var x :| x in s;
      [x] + ListOf(s - {x})
  }

  lemma {:induction false} ListEnumerates(s: set<string>)
    ensures Enumerates(ListOf(s), s)
  {
    if s != {} {
      var x :| x in s && ListOf(s) == [x] + ListOf(s - {x});
      ListEnumerates(s - {x});
      var rest := ListOf(s - {x});
      assert forall id :: id in [x] + rest <==> id == x || id in rest;
    }
  }

  ghost function Listing(): set<string> -> seq<string> {
    s => ListOf(s)
  }

  /** That is so if and only if no summary was held. */
  lemma FreshAgentSufficesIff(p: Option<string>)
    ensures FreshAgentSuffices(p) <==> p == None
  {
    if p == None {
      forall env, cfg, user, s, b: nat, i: nat, c, clock: nat, d: nat |
        HoldsAt(env, cfg, user, s, b, i, c, p) && b <= d
        ensures var t := Turn(env, cfg, user, s, b);
                Recovers(Resumed(env, cfg, c, FilesAt(s.files, t.events[..i]), None, clock, d), t, i)
      {
        CrashOfFreshAgent(env, cfg, user, s, b, i, c, clock, d);
      }
    } else {
      HeldIsNeeded(p.value);
    }
    hide HoldsAt, Recovers, Resumed, Turn, FilesAt;
  }

  lemma HeldIsNeeded(held: string)
    ensures !FreshAgentSuffices(Some(held))
  {
    forall s ensures Enumerates(Listing()(s), s) {
      ListEnumerates(s);
    }
    MissingSummaryDiverges(Listing(), held);
    HeldAtStart(DemoEnv(Listing()), held);
    hide HoldsAt, Resumed, Turn, DemoEnv, Seen, FilesAt;
    var env := DemoEnv(Listing());
    var s := Begun(env, START, Some(held));
    var t := Turn(env, DEMO_CONFIG, Some("go"), s, 2);
    assert !Recovers(Resumed(env, DEMO_CONFIG, ASKED, FilesAt(s.files, t.events[..0]), None, 0, 2), t, 0);
  }

  lemma HeldAtStart(env: Env, held: string)
    requires var s := Begun(env, START, Some(held));
             && IsCheckpoint(env, DEMO_CONFIG, Some("go"), s, 2, 0, ASKED) && SteadyCompression(env)
             && Turn(env, DEMO_CONFIG, Some("go"), s, 2).outcome != Exhausted
             && SteadyBatches(env, DEMO_CONFIG, Turn(env, DEMO_CONFIG, Some("go"), s, 2).events[1..])
             && !LostOnResume(env, DEMO_CONFIG, map[], ASKED)
    ensures var s := Begun(env, START, Some(held));
            var t := Turn(env, DEMO_CONFIG, Some("go"), s, 2);
            && HoldsAt(env, DEMO_CONFIG, Some("go"), s, 2, 0, ASKED, Some(held))
            && |t.events| > 0 && FilesAt(s.files, t.events[..0]) == map[]
  {
    hide Turn, SteadyCompression, SteadyBatches, LostOnResume, Reproducible, Honest, UpToDate;
    assert Turn(env, DEMO_CONFIG, Some("go"), Begun(env, START, Some(held)), 2).events[..0] == [];
  }

  lemma DemoHistories()
    ensures START + [UserMessage("go")] == ASKED
    ensures ASKED + [AssistantMessage(ChatResponse("", [CALL], None))] == CALLED
    ensures |SAVED| == 6 && SAVED[0].content.AsTextLossy() == "a"
  {
  }

  lemma QuietUser()
    ensures Quiet(ASKED)
  {
    UserMessageIsPlain(START, "go");
  }

  lemma ReplyIsPending()
    ensures Resumable(CALLED) && PendingToolCalls(CALLED) == [CALL]
  {
    AskedIsWellFormed();
    ReplyIsResumable(ASKED, ChatResponse("", [CALL], None));
  }
}
