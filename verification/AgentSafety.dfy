/** Over any whole turn, every provider call sees complete tool blocks, every
    checkpoint can be resumed, and the budget bounds the provider calls. */
module AgentSafety {
  import opened Wrappers
  import opened Messages
  import opened Blocks
  import opened BlockRepair
  import opened Sanitizer
  import opened SanitizerTheorems
  import opened Compressor
  import opened CompressorTheorems
  import opened Parallel
  import opened AgentLoop
  import opened Sequences

  /** Providers give every new call an id of its own, unused in the history they saw. */
  ghost predicate FreshReply(r: Result<ChatResponse, string>, h: History) {
    r.Ok? ==>
      && NoDuplicates(CallIds(r.value.toolCalls))
      && forall id :: id in CallIds(r.value.toolCalls) ==> id !in IssuedIds(h)
  }

  ghost predicate Honest(env: Env) {
    && (forall t, system, h :: FreshReply(env.provider(t, system, h), h))
    && (forall t, s :: Enumerates(env.iterate(t, s), s))
  }

  // ----- Pending calls -----

  lemma {:induction false} LastCallerIs(h: History, c: nat)
    requires c < |h| && IsCaller(h[c]) && forall j :: c < j < |h| ==> !IsCaller(h[j])
    ensures LastCaller(h) == Some(c)
  {
    if c < |h| - 1 {
      LastCallerIs(h[..|h| - 1], c);
    }
  }

  lemma {:induction false} LastCallerIsLast(h: History)
    ensures match LastCaller(h)
            case None => forall j :: 0 <= j < |h| ==> !IsCaller(h[j])
            case Some(c) => forall j :: c < j < |h| ==> !IsCaller(h[j])
  {
    if h != [] && !IsCaller(h[|h| - 1]) {
      LastCallerIsLast(h[..|h| - 1]);
    }
  }

  lemma {:induction false} UnansweredIds(calls: seq<ToolCall>, done: seq<string>)
    requires NoDuplicates(CallIds(calls))
    ensures NoDuplicates(CallIds(Unanswered(calls, done)))
    ensures forall id :: id in CallIds(Unanswered(calls, done)) <==> id in CallIds(calls) && id !in done
  {
    if calls != [] {
      var ids := CallIds(calls);
      assert ids == [calls[0].id] + CallIds(calls[1..]);
      NoDuplicatesParts([calls[0].id], CallIds(calls[1..]));
      UnansweredIds(calls[1..], done);
      var rest := Unanswered(calls[1..], done);
      if calls[0].id in done {
        EmptyConcat(rest);
      } else {
        assert CallIds([calls[0]] + rest) == [calls[0].id] + CallIds(rest);
      }
    }
  }

  /** Calls with a result are not pending; the others are, in their order. */
  lemma {:induction false} UnansweredExact(calls: seq<ToolCall>, done: seq<string>)
    ensures forall c :: c in Unanswered(calls, done) <==> c in calls && c.id !in done
    ensures (forall c :: c in calls ==> c.id in done) <==> Unanswered(calls, done) == []
    ensures (forall c :: c in calls ==> c.id !in done) <==> Unanswered(calls, done) == calls
    ensures |Unanswered(calls, done)| <= |calls|
  {
    if calls != [] {
      UnansweredExact(calls[1..], done);
      HeadAndTail(calls);
      if calls[0].id !in done {
        PartsOfConcat([calls[0]], Unanswered(calls[1..], done));
      }
    }
  }

  /** Whether a call is pending does not depend on its neighbours, and order is kept:
      of two stretches of calls, the pending ones come one stretch after the other. */
  lemma {:induction false} UnansweredInOrder(a: seq<ToolCall>, b: seq<ToolCall>, done: seq<string>)
    ensures Unanswered(a + b, done) == Unanswered(a, done) + Unanswered(b, done)
  {
    if a == [] {
      EmptyConcat(b);
    } else {
      TailOfConcat(a, b);
      UnansweredInOrder(a[1..], b, done);
      if a[0].id !in done {
        Associative([a[0]], Unanswered(a[1..], done), Unanswered(b, done));
      }
    }
  }

  lemma AllAnsweredNothingPending(calls: seq<ToolCall>, done: seq<string>)
    requires forall id :: id in CallIds(calls) ==> id in done
    ensures Unanswered(calls, done) == []
  {
    forall c | c in calls ensures c.id in done {
      var k :| 0 <= k < |calls| && calls[k] == c;
      assert CallIds(calls)[k] == c.id;
    }
    UnansweredExact(calls, done);
  }

  /** A trailing caller followed only by tool messages decides what is pending. */
  lemma PendingAtEnd(h: History, c: nat)
    requires c < |h| && IsCaller(h[c]) && forall j :: c < j < |h| ==> h[j].role == Tool
    ensures PendingToolCalls(h) == Unanswered(h[c].toolCalls, AnsweredIds(h[c + 1..]))
  {
    LastCallerIs(h, c);
    forall m | m in h[c + 1..] ensures m.role == Tool {
      var k :| 0 <= k < |h| - c - 1 && h[c + 1..][k] == m;
      assert h[c + 1 + k].role == Tool;
    }
  }

  lemma NothingPendingAfter(h: History, j: nat)
    requires j < |h| && h[j].role != Tool && forall k :: j <= k < |h| ==> !IsCaller(h[k])
    ensures PendingToolCalls(h) == []
  {
    LastCallerIsLast(h);
    if LastCaller(h).Some? {
      var c := LastCaller(h).value;
      assert h[c + 1..][j - c - 1] in h[c + 1..];
    }
  }

  lemma BlocksStartWithoutResult(h: History)
    requires BlocksOk(h) && h != []
    ensures h[0].role != Tool
  {
    assert h[..UnitLength(h)][0] == h[0];
  }

  /** Complete blocks leave nothing pending. */
  lemma WellFormedHasNothingPending(h: History)
    requires BlocksOk(h)
    ensures PendingToolCalls(h) == []
  {
    LastCallerIsLast(h);
    if LastCaller(h).Some? {
      var c := LastCaller(h).value;
      if forall j :: c < j < |h| ==> h[j].role == Tool {
        CutBetweenBlocks(h, c);
        LastBlockIsWhole(h[c..]);
        PendingAtEnd(h, c);
        assert h[c..][1..] == h[c + 1..];
        AllAnsweredNothingPending(h[c].toolCalls, AnsweredIds(h[c + 1..]));
      } else {
        var j :| c < j < |h| && h[j].role != Tool;
        NothingPendingAfter(h, j);
      }
    }
  }

  lemma {:induction false} LastBlockIsWhole(b: History)
    requires BlocksOk(b) && b != [] && IsCaller(b[0]) && forall j :: 0 < j < |b| ==> b[j].role == Tool
    ensures forall id :: id in CallIds(b[0].toolCalls) ==> id in AnsweredIds(b[1..])
  {
    var n := UnitLength(b);
    if n < |b| {
      BlocksStartWithoutResult(b[n..]);
    }
    assert b[..n] == b;
    forall id | id in CallIds(b[0].toolCalls) ensures id in AnsweredIds(b[1..]) {
      assert id in multiset(CallIds(b[0].toolCalls));
      assert id in multiset(AnsweredIds(b[1..]));
    }
  }

  // ----- Running calls completes their block -----

  lemma {:induction false} ResultMessagesAnswer(rs: seq<ToolCallResult>)
    ensures forall m :: m in ResultMessages(rs) ==> IsResult(m)
    ensures |AnsweredIds(ResultMessages(rs))| == |rs| && IssuedIds(ResultMessages(rs)) == []
    ensures forall k :: 0 <= k < |rs| ==> AnsweredIds(ResultMessages(rs))[k] == rs[k].callId
  {
    ResultsOnly(ResultMessages(rs));
  }

  /** One result for each call, in call order. */
  predicate ResultsFor(rs: seq<ToolCallResult>, calls: seq<ToolCall>) {
    |rs| == |calls| && forall k :: 0 <= k < |rs| ==> rs[k].callId == calls[k].id
  }

  lemma ResultsAnswer(rs: seq<ToolCallResult>, calls: seq<ToolCall>)
    requires ResultsFor(rs, calls)
    ensures AnsweredIds(ResultMessages(rs)) == CallIds(calls)
  {
    ResultMessagesAnswer(rs);
  }

  lemma PartialBlockPending(h: History, c: nat)
    requires c < |h| && PartialBlock(h[c..])
    ensures PendingToolCalls(h) == Unanswered(h[c].toolCalls, AnsweredIds(h[c + 1..]))
  {
    forall j | c < j < |h| ensures h[j].role == Tool {
      assert h[c..][1..][j - c - 1] in h[c..][1..];
    }
    PendingAtEnd(h, c);
  }

  lemma CompletedByResults(b: History, rs: seq<ToolCallResult>)
    requires PartialBlock(b) && b != [] && NoDuplicates(CallIds(b[0].toolCalls))
    requires ResultsFor(rs, Unanswered(b[0].toolCalls, AnsweredIds(b[1..])))
    ensures BlocksOk(b + ResultMessages(rs))
  {
    var pending := Unanswered(b[0].toolCalls, AnsweredIds(b[1..]));
    var messages := ResultMessages(rs);
    UnansweredIds(b[0].toolCalls, AnsweredIds(b[1..]));
    ResultsAnswer(rs, pending);
    ResultMessagesAnswer(rs);
    CallerWithTwoGroups(b[0], b[1..], messages);
    HeadAndTail(b);
    Associative([b[0]], b[1..], messages);
    UnitIsBlocks(b + messages);
  }

  /** Results for what is pending turn a resumable history into a well-formed one. */
  lemma PendingCallsComplete(h: History, rs: seq<ToolCallResult>)
    requires Resumable(h) && ResultsFor(rs, PendingToolCalls(h))
    ensures WellFormed(h + ResultMessages(rs))
  {
    hide BlocksOk, NoDuplicates, PartialBlock;
    var c :| 0 <= c <= |h| && BlocksOk(h[..c]) && PartialBlock(h[c..]);
    var messages := ResultMessages(rs);
    SplitAt(h, c);
    Associative(h[..c], h[c..], messages);
    ResultMessagesAnswer(rs);
    IssuedIdsConcat(h, messages);
    EmptyConcat(IssuedIds(h));
    if c == |h| {
      EmptyConcat(h[..c]);
      WellFormedHasNothingPending(h);
      EmptyConcat(h);
    } else {
      PartialBlockPending(h, c);
      PartialHasCaller(h[c..]);
      IssuedAt(h, c);
      assert h[c..][1..] == h[c + 1..];
      CompletedByResults(h[c..], rs);
      BlocksOkConcat(h[..c], h[c..] + messages);
    }
  }

  lemma PartialHasCaller(b: History)
    requires PartialBlock(b) && b != []
    ensures IsCaller(b[0])
  {
  }

  /** A well-formed history is resumable. */
  lemma WellFormedIsResumable(h: History)
    requires WellFormed(h)
    ensures Resumable(h)
  {
    EmptyConcat(h);
    assert h[..|h|] == h && h[|h|..] == [];
  }

  // ----- One step at a time -----

  lemma AssistantIds(h: History, a: Message)
    requires a.role == Assistant && NoDuplicates(IssuedIds(h)) && NoDuplicates(CallIds(a.toolCalls))
    requires forall id :: id in CallIds(a.toolCalls) ==> id !in IssuedIds(h)
    ensures NoDuplicates(IssuedIds(h + [a]))
  {
    IssuedIdsConcat(h, [a]);
    SingletonIds(a);
    NoDuplicatesJoin(IssuedIds(h), CallIds(a.toolCalls));
  }

  lemma NoDuplicatesJoin(a: seq<string>, b: seq<string>)
    requires NoDuplicates(a) && NoDuplicates(b) && forall id :: id in b ==> id !in a
    ensures NoDuplicates(a + b)
  {
    var s := a + b;
    forall i, j | 0 <= i < j < |s| ensures s[i] != s[j] {
      if j >= |a| {
        assert s[j] == b[j - |a|];
        assert s[j] in b;
      }
    }
  }

  /** Pushing the reply leaves a resumable history, and its calls are what is pending. */
  lemma ReplyIsResumable(h: History, r: ChatResponse)
    requires WellFormed(h) && FreshReply(Ok(r), h)
    ensures Resumable(h + [AssistantMessage(r)])
    ensures r.toolCalls == [] ==> WellFormed(h + [AssistantMessage(r)])
    ensures PendingToolCalls(h + [AssistantMessage(r)]) == r.toolCalls
  {
    hide NoDuplicates;
    var a := AssistantMessage(r);
    var h1 := h + [a];
    AssistantIds(h, a);
    PartsOfConcat(h, [a]);
    PendingAfterReply(h, r);
    if r.toolCalls == [] {
      UnitIsBlocks([a]);
      BlocksOkConcat(h, [a]);
      WellFormedIsResumable(h1);
    } else {
      FreshCallerIsPartial(a);
      assert BlocksOk(h1[..|h|]) && PartialBlock(h1[|h|..]);
    }
  }

  lemma FreshCallerIsPartial(a: Message)
    requires IsCaller(a)
    ensures PartialBlock([a])
  {
    assert [a][1..] == [];
  }

  lemma PendingAfterReply(h: History, r: ChatResponse)
    ensures PendingToolCalls(h + [AssistantMessage(r)]) == r.toolCalls
  {
    var h1 := h + [AssistantMessage(r)];
    if r.toolCalls == [] {
      NothingPendingAfter(h1, |h|);
    } else {
      PendingAtEnd(h1, |h|);
      assert h1[|h| + 1..] == [];
      UnansweredExact(r.toolCalls, []);
    }
  }

  lemma CompactionKeepsBlocks(env: Env, cfg: AgentConfig, s: LoopState)
    requires Honest(env) && WellFormed(s.history)
    ensures WellFormed(Compacted(env, cfg, s).history)
  {
    hide WellFormed, Compress;
    forall ids ensures Enumerates(IterateAt(env.iterate, s.clock)(ids), ids) {
      assert Enumerates(env.iterate(s.clock, ids), ids);
    }
    CompressionKeepsBlocks(cfg.compression, s.previousSummary, SummarizerAt(env.summarizer, s.clock),
                           env.contribution(s.clock, s.history), IterateAt(env.iterate, s.clock), s.history);
  }

  /** Everything an observer may record on a safe run. */
  ghost predicate EventOk(e: Event) {
    match e
    case ProviderCalled(_, request) => WellFormed(request)
    case Checkpointed(h) => Resumable(h)
    case ToolsRan(_, _, _) => true
    case CompressionRan(_) => true
  }

  ghost predicate EventsOk(events: seq<Event>) {
    forall e :: e in events ==> EventOk(e)
  }

  lemma MaintenanceKeepsBlocks(env: Env, cfg: AgentConfig, s: LoopState, toolCount: nat, memoryWritten: bool)
    requires Honest(env) && WellFormed(s.history)
    ensures WellFormed(Maintained(env, cfg, s, toolCount, memoryWritten).0.history)
    ensures forall e :: e in Maintained(env, cfg, s, toolCount, memoryWritten).1 ==> e.CompressionRan?
  {
    hide WellFormed, Compacted, UnderPressure, BuildSystem;
    var s1 := if memoryWritten then Remembered(cfg, s) else s;
    CompactionKeepsBlocks(env, cfg, s1);
    CompactionKeepsBlocks(env, cfg, Compacted(env, cfg, s1));
  }

  /** Running pending calls leads to a well-formed history and safe checkpoints. */
  lemma ToolPhaseIsSafe(env: Env, cfg: AgentConfig, s: LoopState, toolCount: nat)
    requires Honest(env) && Resumable(s.history)
    ensures var (s1, events) := ToolPhase(env, cfg, s, PendingToolCalls(s.history), toolCount);
            WellFormed(s1.history) && EventsOk(events)
    ensures ProviderCalls(ToolPhase(env, cfg, s, PendingToolCalls(s.history), toolCount).1) == 0
  {
    hide WellFormed, Maintained, Resumable, PendingToolCalls, ResultMessages, ToolResults, MemoryWritten;
    var calls := PendingToolCalls(s.history);
    var s1 := Executed(env, cfg, s, calls);
    var rs := ToolResults(env, cfg.registry, s.clock, s.files, calls);
    PendingCallsComplete(s.history, rs);
    WellFormedIsResumable(s1.history);
    MaintenanceKeepsBlocks(env, cfg, s1, toolCount, MemoryWritten(rs));
    var more := Maintained(env, cfg, s1, toolCount, MemoryWritten(rs)).1;
    NoProviderCalls(more);
    ProviderCallsConcat([ToolsRan(calls, rs, s1.files), Checkpointed(s1.history)], more);
    TwoEvents(ToolsRan(calls, rs, s1.files), Checkpointed(s1.history));
  }

  // ----- Counting provider calls -----

  function ProviderCalls(events: seq<Event>): nat {
    if events == [] then 0 else (if events[0].ProviderCalled? then 1 else 0) + ProviderCalls(events[1..])
  }

  lemma {:induction false} ProviderCallsConcat(a: seq<Event>, b: seq<Event>)
    ensures ProviderCalls(a + b) == ProviderCalls(a) + ProviderCalls(b)
  {
    if a == [] {
      EmptyConcat(b);
    } else {
      TailOfConcat(a, b);
      ProviderCallsConcat(a[1..], b);
    }
  }

  lemma {:induction false} NoProviderCalls(events: seq<Event>)
    requires forall e :: e in events ==> !e.ProviderCalled?
    ensures ProviderCalls(events) == 0
  {
    if events != [] {
      assert events[0] in events;
      NoProviderCalls(events[1..]);
    }
  }

  lemma TwoEvents(a: Event, b: Event)
    ensures ProviderCalls([a, b]) == (if a.ProviderCalled? then 1 else 0) + (if b.ProviderCalled? then 1 else 0)
  {
    assert [a, b][1..] == [b] && [b][1..] == [];
    assert ProviderCalls([b]) == if b.ProviderCalled? then 1 else 0;
  }

  // ----- Whole runs -----

  ghost predicate SafeEnd(t: TurnEnd, budget: nat) {
    && EventsOk(t.events)
    && Resumable(t.state.history)
    && ProviderCalls(t.events) + t.budget <= budget
  }

  lemma SafeAfter(events: seq<Event>, t: TurnEnd, spent: nat, budget: nat)
    requires EventsOk(events) && ProviderCalls(events) <= spent && SafeEnd(t, budget)
    ensures SafeEnd(After(events, t), budget + spent)
  {
    hide EventOk, Resumable;
    ProviderCallsConcat(events, t.events);
  }

  lemma {:induction false} LoopIsSafe(env: Env, cfg: AgentConfig, resuming: bool, s: LoopState, budget: nat)
    requires Honest(env) && Resumable(s.history)
    ensures SafeEnd(RunLoop(env, cfg, resuming, s, budget), budget)
    decreases budget, 1
  {
    hide Resumable, WellFormed, ToolPhase, RunLoop, PendingPhase, ProviderPhase, TurnIsComplete, PendingToolCalls,
         Honest;
    LoopUnfolds(env, cfg, resuming, s, budget);
    if budget != 0 && !(resuming && TurnIsComplete(s.history)) {
      var toolCount := env.toolCount(s.clock);
      PendingPhaseIsSafe(env, cfg, s, toolCount);
      var (s1, events) := PendingPhase(env, cfg, s, toolCount);
      ProviderIsSafe(env, cfg, resuming, s1, toolCount, budget);
      SafeAfter(events, ProviderPhase(env, cfg, resuming, s1, toolCount, budget), 0, budget);
    } else {
      NothingHappened();
    }
  }

  lemma NothingHappened()
    ensures ProviderCalls([]) == 0 && EventsOk([])
  {
  }

  lemma PendingPhaseIsSafe(env: Env, cfg: AgentConfig, s: LoopState, toolCount: nat)
    requires Honest(env) && Resumable(s.history)
    ensures var (s1, events) := PendingPhase(env, cfg, s, toolCount);
            WellFormed(s1.history) && EventsOk(events) && ProviderCalls(events) == 0
  {
    hide Resumable, WellFormed, ToolPhase, PendingToolCalls;
    PendingUnfolds(env, cfg, s, toolCount);
    if PendingToolCalls(s.history) == [] {
      PendingCallsComplete(s.history, []);
      assert ResultMessages([]) == [];
      EmptyConcat(s.history);
      NothingHappened();
    } else {
      ToolPhaseIsSafe(env, cfg, s, toolCount);
    }
  }

  lemma {:induction false} ProviderIsSafe(env: Env, cfg: AgentConfig, resuming: bool, s: LoopState, toolCount: nat,
                                          budget: nat)
    requires Honest(env) && WellFormed(s.history) && budget > 0
    ensures SafeEnd(ProviderPhase(env, cfg, resuming, s, toolCount, budget), budget)
    decreases budget, 0
  {
    hide Resumable, WellFormed, ToolPhase, RunLoop, ProviderPhase, NoDuplicates;
    ProviderUnfolds(env, cfg, resuming, s, toolCount, budget);
    WellFormedIsResumable(s.history);
    assert FreshReply(env.provider(s.clock, s.system, s.history), s.history);
    match env.provider(s.clock, s.system, s.history)
    case Err(e) =>
      OneCall(s.system, s.history);
    case Ok(r) =>
      var s1 := Answered(s, r);
      ReplyIsResumable(s.history, r);
      var events := [ProviderCalled(s.system, s.history), Checkpointed(s1.history)];
      TwoEvents(events[0], events[1]);
      if r.toolCalls != [] {
        ToolPhaseIsSafe(env, cfg, s1, toolCount);
        var (s2, more) := ToolPhase(env, cfg, s1, r.toolCalls, toolCount);
        WellFormedIsResumable(s2.history);
        LoopIsSafe(env, cfg, resuming, s2, budget - 1);
        ProviderCallsConcat(events, more);
        SafeAfter(events + more, RunLoop(env, cfg, resuming, s2, budget - 1), 1, budget - 1);
      }
  }

  lemma OneCall(system: string, h: History)
    requires WellFormed(h)
    ensures EventsOk([ProviderCalled(system, h)]) && ProviderCalls([ProviderCalled(system, h)]) == 1
  {
    assert [ProviderCalled(system, h)][1..] == [];
  }

  lemma UserMessageIsPlain(h: History, text: string)
    ensures WellFormed(h + [UserMessage(text)]) <==> WellFormed(h)
    ensures PendingToolCalls(h + [UserMessage(text)]) == []
  {
    var u := UserMessage(text);
    IssuedIdsConcat(h, [u]);
    SingletonIds(u);
    EmptyConcat(IssuedIds(h));
    UnitIsBlocks([u]);
    if BlocksOk(h) {
      BlocksOkConcat(h, [u]);
    }
    if BlocksOk(h + [u]) {
      CutBetweenBlocks(h + [u], |h|);
      PartsOfConcat(h, [u]);
    }
    NothingPendingAfter(h + [u], |h|);
  }

  /** Main result: a turn started by a user message on a well-formed history, or
      resumed from any resumable one, is safe throughout.  Its checkpoints are
      resumable in turn, so this holds across any number of crashes. */
  lemma TurnIsSafe(env: Env, cfg: AgentConfig, user: Option<string>, s: LoopState, budget: nat)
    requires Honest(env) && if user.Some? then WellFormed(s.history) else Resumable(s.history)
    ensures SafeEnd(Turn(env, cfg, user, s, budget), budget)
  {
    hide Resumable, WellFormed, RunLoop, Honest, BuildSystem;
    match user
    case None =>
      LoopIsSafe(env, cfg, true, StartState(cfg, s), budget);
    case Some(text) =>
      var asked := s.(history := s.history + [UserMessage(text)]);
      UserMessageIsPlain(s.history, text);
      WellFormedIsResumable(asked.history);
      LoopIsSafe(env, cfg, false, StartState(cfg, asked), budget);
      NoProviderCalls([Checkpointed(asked.history)]);
      SafeAfter([Checkpointed(asked.history)], RunLoop(env, cfg, false, StartState(cfg, asked), budget), 0, budget);
  }

  /** A user message does not repair anything: all provider calls of a turn it starts
      are well-formed exactly when the history it was pushed on was. */
  lemma UserTurnSafeIff(env: Env, cfg: AgentConfig, text: string, s: LoopState, budget: nat)
    requires Honest(env) && budget > 0
    ensures var events := Turn(env, cfg, Some(text), s, budget).events;
            (forall system, request :: ProviderCalled(system, request) in events ==> WellFormed(request))
            <==> WellFormed(s.history)
  {
    hide Resumable, WellFormed, RunLoop, ProviderPhase, PendingPhase, Honest, ToolPhase, PendingToolCalls, BuildSystem;
    var asked := s.(history := s.history + [UserMessage(text)]);
    var t := Turn(env, cfg, Some(text), s, budget);
    UserMessageIsPlain(s.history, text);
    var u := StartState(cfg, asked);
    LoopUnfolds(env, cfg, false, u, budget);
    PendingUnfolds(env, cfg, u, env.toolCount(u.clock));
    ProviderUnfolds(env, cfg, false, u, env.toolCount(u.clock), budget);
    var first := ProviderCalled(u.system, asked.history);
    assert first in ProviderPhase(env, cfg, false, u, env.toolCount(u.clock), budget).events;
    assert first in t.events;
    if WellFormed(s.history) {
      TurnIsSafe(env, cfg, Some(text), s, budget);
      forall system, request | ProviderCalled(system, request) in t.events ensures WellFormed(request) {
        assert EventOk(ProviderCalled(system, request));
      }
    }
  }

  // ----- What the continuation boundary says -----

  /** On a resumable history the boundary tells the cases apart: unanswered calls are
      run, a final assistant message completes the turn, otherwise the provider is next. */
  lemma BoundaryClassifies(h: History)
    requires Resumable(h)
    ensures match AnalyzeContinuationBoundary(h)
            case None => WellFormed(h) && (h == [] || h[|h| - 1].role == System)
            case Some(b) =>
              && h != [] && b.historyLen == |h| && b.pendingToolCalls == |PendingToolCalls(h)|
              && (b.safeAction == ExecutePendingTools <==> !WellFormed(h))
              && (b.safeAction == CompleteTurn <==> WellFormed(h) && h[|h| - 1].role == Assistant)
              && (b.safeAction == CallProvider <==> WellFormed(h) && h[|h| - 1].role in {User, Tool})
              && (b.kind == PendingCalls <==> !WellFormed(h))
              && (b.kind == UserCheckpointed <==> WellFormed(h) && h[|h| - 1].role == User)
              && (b.kind == AssistantResponseCheckpointed <==> WellFormed(h) && h[|h| - 1].role == Assistant)
              && (b.kind == ToolResultsCheckpointed <==> WellFormed(h) && h[|h| - 1].role == Tool)
  {
    hide WellFormed, Resumable, PendingToolCalls;
    NothingPendingIffWellFormed(h);
    EmptyHistory();
  }

  lemma EmptyHistory()
    ensures PendingToolCalls([]) == []
  {
  }

  lemma NothingPendingIffWellFormed(h: History)
    requires Resumable(h)
    ensures PendingToolCalls(h) == [] <==> WellFormed(h)
  {
    hide PendingToolCalls, BlocksOk;
    if PendingToolCalls(h) == [] {
      PendingCallsComplete(h, []);
      assert ResultMessages([]) == [];
      EmptyConcat(h);
    }
    if WellFormed(h) {
      WellFormedHasNothingPending(h);
    }
  }
}
