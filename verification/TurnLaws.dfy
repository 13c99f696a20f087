/** What the record of a turn says.  Its entries suffice to rebuild the agent's state,
    and every entry is what the state rebuilt from the entries before it calls for:
    the messages that a reply, a tool's answer or the user puts into the history are
    written out here once more. */
module TurnLaws {
  import opened Wrappers
  import opened Messages
  import opened Blocks
  import opened Sanitizer
  import opened TokenCounter
  import opened Compressor
  import opened CompressionLaws
  import opened Parallel
  import opened AgentLoop
  import opened AgentSafety
  import opened Sequences

  // ----- What tools leave behind -----

  /** The calls are admitted, and complete in the order of the moment; or else one
      after the other. */
  function OrderOfRun(env: Env, registry: Registry, clock: nat, files: Files, calls: seq<ToolCall>): (order: seq<nat>)
    ensures InRange(order, |calls|)
  {
    var order := env.order(clock, calls, files);
    if MayParallelize(calls, registry) && CompletionOrder(order, |calls|) then order else Ascending(|calls|)
  }

  /** Whatever ran, ran call by call, each on the files the one before had left. */
  lemma ToolRunIff(env: Env, registry: Registry, clock: nat, files: Files, calls: seq<ToolCall>,
                   results: seq<ToolCallResult>, after: Files)
    ensures (results, after) == ToolRun(env, registry, clock, files, calls)
       <==> TakeEffect(calls, ToolAt(env.tool, clock), OrderOfRun(env, registry, clock, files, calls), files,
                       results, after)
  {
    hide TakeEffect, RunAtOnce, RunInSequence;
    var act, order := ToolAt(env.tool, clock), env.order(clock, calls, files);
    SequenceIff(calls, act, files, results, after);
    if CompletionOrder(order, |calls|) {
      AtOnceIff(calls, act, order, files, results, after);
    }
  }

  /** A single call, a call of an exclusive tool, a question to the user, or two writes
      that meet: the calls run one after the other, whatever order others might complete in. */
  lemma InSequenceWhen(env: Env, registry: Registry, clock: nat, files: Files, calls: seq<ToolCall>)
    requires |calls| <= 1 || WritesMeet(calls, registry)
             || exists c :: c in calls && (c.name == "clarify" || (c.name in registry && registry[c.name].isExclusive))
    ensures ToolRun(env, registry, clock, files, calls) == RunInSequence(calls, ToolAt(env.tool, clock), files)
    ensures OrderOfRun(env, registry, clock, files, calls) == Ascending(|calls|)
  {
    hide WritesMeet;
    AdmittedIff(calls, registry);
  }

  /** `after` is `before` with a result message for each call. */
  ghost predicate ResultsAppended(before: History, after: History, calls: seq<ToolCall>, results: seq<ToolCallResult>) {
    && |results| == |calls| && |after| == |before| + |calls| && before <= after
    && forall k :: 0 <= k < |calls| ==>
         after[|before| + k] == Message(Tool, Text(results[k].result.content), [], None, Some(calls[k].name),
                                        Some(calls[k].id))
  }

  ghost predicate MemoryWasWritten(results: seq<ToolCallResult>) {
    exists r :: r in results && r.toolName == "memory_write" && !r.result.isError
  }

  /** Running calls appends what each of them said, in call order, under its own id and
      name, and takes over the files that the last to complete had left. */
  lemma ExecutedAppends(env: Env, cfg: AgentConfig, s: LoopState, calls: seq<ToolCall>)
    ensures var s' := Executed(env, cfg, s, calls);
            var rs := ToolResults(env, cfg.registry, s.clock, s.files, calls);
            && TakeEffect(calls, ToolAt(env.tool, s.clock), OrderOfRun(env, cfg.registry, s.clock, s.files, calls),
                          s.files, rs, s'.files)
            && ResultsAppended(s.history, s'.history, calls, rs)
            && s'.snapshot == (if MemoryWasWritten(rs) then env.memoryBlock(s.clock, s'.files) else s.snapshot)
            && s'.system == s.system && s'.previousSummary == s.previousSummary
  {
    hide TakeEffect, ToolRun, OrderOfRun;
    var rs := ToolResults(env, cfg.registry, s.clock, s.files, calls);
    ToolRunIff(env, cfg.registry, s.clock, s.files, calls, rs, FilesAfter(env, cfg.registry, s.clock, s.files, calls));
    RunShape(env, cfg.registry, s.clock, s.files, calls);
    assert forall k :: 0 <= k < |calls| ==> ResultMessages(rs)[k] == ResultMessage(rs[k]);
  }

  /** A single call: its tool is asked once, on the files as they are. */
  lemma SingleCall(env: Env, cfg: AgentConfig, s: LoopState, c: ToolCall)
    ensures var (r, after) := env.tool(s.clock, c, s.files);
            var s' := Executed(env, cfg, s, [c]);
            && s'.history == s.history + [Message(Tool, Text(r.content), [], None, Some(c.name), Some(c.id))]
            && s'.files == after
  {
    hide RunOrder;
    var act := ToolAt(env.tool, s.clock);
    var (r, after) := act(c, s.files);
    var rs := ToolResults(env, cfg.registry, s.clock, s.files, [c]);
    NothingRan([c], act, s.files);
    SequentialStep([c], act, s.files, 0);
    assert Ascending(0) == [];
    assert ResultMessages(rs) == [ResultMessage(rs[0])];
  }

  // ----- What the entries of a record do to the state -----

  function WithSnapshot(cfg: AgentConfig, s: LoopState, block: string): LoopState {
    s.(snapshot := block, system := BuildSystem(cfg.systemPrompt, block))
  }

  function Next(env: Env, cfg: AgentConfig, s: LoopState, e: Event): LoopState {
    match e
    case Checkpointed(h) => s.(history := h)
    case ProviderCalled(_, _) => s.(clock := s.clock + 1)
    case ToolsRan(_, results, files) =>
      var after := s.(files := files, clock := s.clock + 1);
      if exists r :: r in results && r.toolName == "memory_write" && !r.result.isError then
        WithSnapshot(cfg, after, env.memoryBlock(s.clock, files))
      else after
    case CompressionRan(made) =>
      var after := s.(history := CompressionAt(env, cfg, s).history, clock := s.clock + 1);
      if made.Some? then WithSnapshot(cfg, after.(previousSummary := made), env.memoryBlock(s.clock, s.files))
      else after
  }

  /** The state that a record leads to. */
  function Rebuilt(env: Env, cfg: AgentConfig, s: LoopState, events: seq<Event>): LoopState {
    if events == [] then s else Next(env, cfg, Rebuilt(env, cfg, s, events[..|events| - 1]), events[|events| - 1])
  }

  lemma {:induction false} RebuiltConcat(env: Env, cfg: AgentConfig, s: LoopState, a: seq<Event>, b: seq<Event>)
    ensures Rebuilt(env, cfg, s, a + b) == Rebuilt(env, cfg, Rebuilt(env, cfg, s, a), b)
  {
    hide Next;
    if b == [] {
      EmptyConcat(a);
    } else {
      var n := |b| - 1;
      RebuiltConcat(env, cfg, s, a, b[..n]);
      assert (a + b)[..|a + b| - 1] == a + b[..n] && (a + b)[|a + b| - 1] == b[n];
    }
  }

  lemma RebuiltOne(env: Env, cfg: AgentConfig, s: LoopState, e: Event)
    ensures Rebuilt(env, cfg, s, []) == s && Rebuilt(env, cfg, s, [e]) == Next(env, cfg, s, e)
  {
    hide Next;
    assert [e][..0] == [];
  }

  lemma RebuiltCons(env: Env, cfg: AgentConfig, s: LoopState, e: Event, rest: seq<Event>)
    ensures Rebuilt(env, cfg, s, [e] + rest) == Rebuilt(env, cfg, Next(env, cfg, s, e), rest)
  {
    hide Next, Rebuilt;
    RebuiltOne(env, cfg, s, e);
    RebuiltConcat(env, cfg, s, [e], rest);
  }

  // ----- What each entry must be, and what must follow it -----

  /** The prompt is the configured one, with the memory block behind it if there is one. */
  predicate IsPrompt(cfg: AgentConfig, snapshot: string, system: string) {
    system == if snapshot == "" then cfg.systemPrompt else cfg.systemPrompt + "\n\n" + snapshot
  }

  /** A request carries prompt and history as they are.  An error ends the turn.  A reply
      is saved as it came; without calls it is the answer, otherwise its calls run next. */
  ghost predicate RequestLaw(env: Env, cfg: AgentConfig, s: LoopState, system: string, request: History,
                             next: seq<Event>, outcome: Outcome)
  {
    && request == s.history && IsPrompt(cfg, s.snapshot, system)
    && match env.provider(s.clock, system, request)
       case Err(e) => next == [] && outcome == Failed(e)
       case Ok(r) =>
         && next != []
         && next[0]
            == Checkpointed(request + [Message(Assistant, Text(r.content), r.toolCalls, r.reasoning, None, None)])
         && if r.toolCalls == [] then |next| == 1 && outcome == Answer(r.content)
            else |next| > 1 && next[1].ToolsRan? && next[1].calls == r.toolCalls
  }

  /** Compressions come exactly when the request would reach the threshold or the history
      holds more than 500 messages; then the provider is asked, or what is pending runs, or
      the turn is over. */
  ghost predicate UpkeepLaw(env: Env, cfg: AgentConfig, s: LoopState, toolCount: nat, next: seq<Event>,
                            outcome: Outcome)
  {
    if RequestTokens(s.system, s.history, toolCount) >= cfg.compression.pressureTokens then
      next != [] && next[0].CompressionRan? && CapLaw(env, cfg, Next(env, cfg, s, next[0]), next[1..], outcome)
    else CapLaw(env, cfg, s, next, outcome)
  }

  ghost predicate CapLaw(env: Env, cfg: AgentConfig, s: LoopState, next: seq<Event>, outcome: Outcome) {
    if |s.history| > 500 then
      next != [] && next[0].CompressionRan? && GoesOn(Next(env, cfg, s, next[0]), next[1..], outcome)
    else GoesOn(s, next, outcome)
  }

  predicate GoesOn(s: LoopState, next: seq<Event>, outcome: Outcome) {
    if next == [] then outcome == Exhausted || TurnIsComplete(s.history)
    else next[0].ProviderCalled? || (next[0].ToolsRan? && next[0].calls == PendingToolCalls(s.history))
  }

  /** Calls take effect on the files as they are; what they said is saved next. */
  ghost predicate ToolLaw(env: Env, cfg: AgentConfig, s: LoopState, calls: seq<ToolCall>,
                          results: seq<ToolCallResult>, files: Files, next: seq<Event>, outcome: Outcome)
  {
    && TakeEffect(calls, ToolAt(env.tool, s.clock), OrderOfRun(env, cfg.registry, s.clock, s.files, calls), s.files,
                  results, files)
    && next != [] && next[0].Checkpointed?
    && ResultsAppended(s.history, next[0].history, calls, results)
    && exists clock ::
         UpkeepLaw(env, cfg, Rebuilt(env, cfg, s, [ToolsRan(calls, results, files), next[0]]), env.toolCount(clock),
                   next[1..], outcome)
  }

  /** A compression reports its summary, if it made one. */
  predicate CompressionLaw(env: Env, cfg: AgentConfig, s: LoopState, made: Option<string>) {
    var c := CompressionAt(env, cfg, s);
    made == if c.result.Compressed? then c.previousSummary else None
  }

  ghost predicate Lawful(env: Env, cfg: AgentConfig, s: LoopState, e: Event, next: seq<Event>, outcome: Outcome) {
    match e
    case Checkpointed(_) => true
    case ProviderCalled(system, request) => RequestLaw(env, cfg, s, system, request, next, outcome)
    case ToolsRan(calls, results, files) => ToolLaw(env, cfg, s, calls, results, files, next, outcome)
    case CompressionRan(made) => CompressionLaw(env, cfg, s, made)
  }

  /** Every entry is what the state rebuilt from those before it calls for, and the whole
      record leads to the final state. */
  ghost predicate IsRecord(env: Env, cfg: AgentConfig, s: LoopState, t: TurnEnd) {
    && (forall i :: 0 <= i < |t.events| ==>
          Lawful(env, cfg, Rebuilt(env, cfg, s, t.events[..i]), t.events[i], t.events[i + 1..], t.outcome))
    && t.state == Rebuilt(env, cfg, s, t.events)
    && IsPrompt(cfg, t.state.snapshot, t.state.system)
  }

  lemma RecordStarts(env: Env, cfg: AgentConfig, s: LoopState, e: Event, t: TurnEnd)
    requires Lawful(env, cfg, s, e, t.events, t.outcome) && IsRecord(env, cfg, Next(env, cfg, s, e), t)
    ensures IsRecord(env, cfg, s, After([e], t))
  {
    hide Lawful, Next, Rebuilt;
    var u := After([e], t);
    RebuiltOne(env, cfg, s, e);
    RebuiltCons(env, cfg, s, e, t.events);
    forall i | 0 <= i < |u.events|
      ensures Lawful(env, cfg, Rebuilt(env, cfg, s, u.events[..i]), u.events[i], u.events[i + 1..], u.outcome)
    {
      if i > 0 {
        assert u.events[..i] == [e] + t.events[..i - 1] && u.events[i + 1..] == t.events[i..];
        RebuiltCons(env, cfg, s, e, t.events[..i - 1]);
      } else {
        assert u.events[..0] == [] && u.events[1..] == t.events;
      }
    }
  }

  // ----- Every turn keeps the laws -----

  /** A compression as an entry of the record. */
  lemma CompactedIsNext(env: Env, cfg: AgentConfig, s: LoopState)
    ensures Compacted(env, cfg, s) == Next(env, cfg, s, CompressionRan(Made(env, cfg, s)))
    ensures CompressionLaw(env, cfg, s, Made(env, cfg, s))
  {
    hide BuildSystem, PrunedBefore, TailStart, CutOut, HistoryTokens;
  }

  /** What upkeep adds to a record, whatever it goes on with. */
  lemma CappedRecord(env: Env, cfg: AgentConfig, s: LoopState, t: TurnEnd)
    requires IsRecord(env, cfg, Capped(env, cfg, s).0, t) && GoesOn(Capped(env, cfg, s).0, t.events, t.outcome)
    ensures var u := After(Capped(env, cfg, s).1, t);
            IsRecord(env, cfg, s, u) && CapLaw(env, cfg, s, u.events, u.outcome)
  {
    hide IsRecord, Compacted, Made, CompressionAt, GoesOn, Next;
    if |s.history| > 500 {
      var made := CompressionRan(Made(env, cfg, s));
      CompactedIsNext(env, cfg, s);
      RecordStarts(env, cfg, s, made, t);
      assert ([made] + t.events)[1..] == t.events;
    } else {
      EmptyConcat(t.events);
    }
  }

  lemma MaintainedRecord(env: Env, cfg: AgentConfig, s: LoopState, toolCount: nat, t: TurnEnd)
    requires var (s', _) := Maintained(env, cfg, s, toolCount, false);
             IsRecord(env, cfg, s', t) && GoesOn(s', t.events, t.outcome)
    ensures var u := After(Maintained(env, cfg, s, toolCount, false).1, t);
            IsRecord(env, cfg, s, u) && UpkeepLaw(env, cfg, s, toolCount, u.events, u.outcome)
  {
    hide IsRecord, Compacted, Made, CompressionAt, GoesOn, Next, Capped, CapLaw;
    if UnderPressure(cfg, s, toolCount) {
      var made, after := CompressionRan(Made(env, cfg, s)), Compacted(env, cfg, s);
      CappedRecord(env, cfg, after, t);
      CompactedIsNext(env, cfg, s);
      var u := After(Capped(env, cfg, after).1, t);
      RecordStarts(env, cfg, s, made, u);
      AfterAfter([made], Capped(env, cfg, after).1, t);
      assert ([made] + u.events)[1..] == u.events;
    } else {
      CappedRecord(env, cfg, s, t);
    }
  }

  /** The prompt that a memory write calls for is rebuilt before it is used. */
  lemma MaintainedRefreshes(env: Env, cfg: AgentConfig, s: LoopState, toolCount: nat, written: bool)
    ensures Maintained(env, cfg, s, toolCount, written)
         == Maintained(env, cfg, if written then Remembered(cfg, s) else s, toolCount, false)
  {
    hide BuildSystem, Compacted, Made, Capped, UnderPressure;
  }

  lemma ToolPhaseRecord(env: Env, cfg: AgentConfig, s: LoopState, calls: seq<ToolCall>, clock: nat, t: TurnEnd)
    requires var s' := ToolPhase(env, cfg, s, calls, env.toolCount(clock)).0;
             IsRecord(env, cfg, s', t) && GoesOn(s', t.events, t.outcome)
    ensures IsRecord(env, cfg, s, After(ToolPhase(env, cfg, s, calls, env.toolCount(clock)).1, t))
  {
    hide IsRecord, GoesOn, Maintained, UpkeepLaw, BuildSystem, Executed, ToolResults, TakeEffect, OrderOfRun;
    var s1 := Executed(env, cfg, s, calls);
    var rs := ToolResults(env, cfg.registry, s.clock, s.files, calls);
    var toolCount := env.toolCount(clock);
    ExecutedAppends(env, cfg, s, calls);
    var s2 := if MemoryWritten(rs) then Remembered(cfg, s1) else s1;
    MaintainedRefreshes(env, cfg, s1, toolCount, MemoryWritten(rs));
    MaintainedRecord(env, cfg, s2, toolCount, t);
    var u := After(Maintained(env, cfg, s2, toolCount, false).1, t);
    var ran, saved := ToolsRan(calls, rs, s1.files), Checkpointed(s1.history);
    ToolStep(env, cfg, s, calls);
    RebuiltTwo(env, cfg, s, ran, saved);
    RecordStarts(env, cfg, Next(env, cfg, s, ran), saved, u);
    var v := After([saved], u);
    assert v.events[1..] == u.events;
    assert Lawful(env, cfg, s, ran, v.events, v.outcome);
    RecordStarts(env, cfg, s, ran, v);
    AfterAfter([ran], [saved], u);
    AfterAfter([ran, saved], Maintained(env, cfg, s2, toolCount, false).1, t);
    assert [ran] + [saved] == [ran, saved];
    assert ToolPhase(env, cfg, s, calls, toolCount).1 == [ran, saved] + Maintained(env, cfg, s2, toolCount, false).1;
  }

  lemma RebuiltTwo(env: Env, cfg: AgentConfig, s: LoopState, e: Event, f: Event)
    ensures Rebuilt(env, cfg, s, [e, f]) == Next(env, cfg, Next(env, cfg, s, e), f)
  {
    hide Next;
    RebuiltCons(env, cfg, s, e, [f]);
    RebuiltOne(env, cfg, Next(env, cfg, s, e), f);
    assert [e] + [f] == [e, f];
  }

  /** Running calls and saving their results, as two entries. */
  lemma ToolStep(env: Env, cfg: AgentConfig, s: LoopState, calls: seq<ToolCall>)
    ensures var s1 := Executed(env, cfg, s, calls);
            var rs := ToolResults(env, cfg.registry, s.clock, s.files, calls);
            var s2 := if MemoryWritten(rs) then Remembered(cfg, s1) else s1;
            s2 == Next(env, cfg, Next(env, cfg, s, ToolsRan(calls, rs, s1.files)), Checkpointed(s1.history))
  {
    hide ToolResults, ResultMessages, FilesAfter, BuildSystem;
    ExecutedAppends(env, cfg, s, calls);
  }

  lemma PhaseKeepsPrompt(env: Env, cfg: AgentConfig, s: LoopState, calls: seq<ToolCall>, toolCount: nat)
    requires IsPrompt(cfg, s.snapshot, s.system)
    ensures var s' := ToolPhase(env, cfg, s, calls, toolCount).0;
            IsPrompt(cfg, s'.snapshot, s'.system)
  {
    hide ToolResults, FilesAfter, CompressionAt, UnderPressure;
  }

  lemma {:induction false} LoopRecord(env: Env, cfg: AgentConfig, resuming: bool, s: LoopState, budget: nat)
    requires IsPrompt(cfg, s.snapshot, s.system)
    ensures var t := RunLoop(env, cfg, resuming, s, budget);
            IsRecord(env, cfg, s, t) && GoesOn(s, t.events, t.outcome)
    decreases budget, 1
  {
    hide RunLoop, ToolPhase, ProviderPhase, IsPrompt;
    LoopUnfolds(env, cfg, resuming, s, budget);
    if budget > 0 && !(resuming && TurnIsComplete(s.history)) {
      var calls, toolCount := PendingToolCalls(s.history), env.toolCount(s.clock);
      hide PendingToolCalls, IsRecord;
      PhaseKeepsPrompt(env, cfg, s, calls, toolCount);
      var (s1, events) := PendingPhase(env, cfg, s, toolCount);
      ProviderRecord(env, cfg, resuming, s1, s.clock, budget);
      var t := ProviderPhase(env, cfg, resuming, s1, toolCount, budget);
      if calls == [] {
        EmptyConcat(t.events);
      } else {
        ToolPhaseRecord(env, cfg, s, calls, s.clock, t);
        PhaseStarts(env, cfg, s, calls, toolCount, t);
      }
    } else {
      assert Rebuilt(env, cfg, s, []) == s;
    }
  }

  lemma PhaseStarts(env: Env, cfg: AgentConfig, s: LoopState, calls: seq<ToolCall>, toolCount: nat, t: TurnEnd)
    ensures var u := After(ToolPhase(env, cfg, s, calls, toolCount).1, t);
            u.events != [] && u.events[0].ToolsRan? && u.events[0].calls == calls
  {
    hide Executed, Maintained, ToolResults;
  }

  /** The same from a provider call on. */
  lemma {:induction false} ProviderRecord(env: Env, cfg: AgentConfig, resuming: bool, s: LoopState, clock: nat,
                                          budget: nat)
    requires budget > 0 && IsPrompt(cfg, s.snapshot, s.system)
    ensures var t := ProviderPhase(env, cfg, resuming, s, env.toolCount(clock), budget);
            IsRecord(env, cfg, s, t) && t.events != [] && t.events[0].ProviderCalled?
    decreases budget, 0
  {
    hide RunLoop, ToolPhase, ProviderPhase, IsRecord, IsPrompt;
    var toolCount := env.toolCount(clock);
    ProviderUnfolds(env, cfg, resuming, s, toolCount, budget);
    match env.provider(s.clock, s.system, s.history)
    case Err(e) =>
      FailureRecord(env, cfg, s, e, budget - 1);
    case Ok(r) =>
      var s1 := Answered(s, r);
      if r.toolCalls == [] {
        Ends(env, cfg, s1, Answer(r.content), budget - 1);
        AnsweredRecord(env, cfg, s, r, TurnEnd(Answer(r.content), s1, [], budget - 1));
        EmptyConcat([ProviderCalled(s.system, s.history), Checkpointed(s1.history)]);
      } else {
        var (s2, more) := ToolPhase(env, cfg, s1, r.toolCalls, toolCount);
        var rest := RunLoop(env, cfg, resuming, s2, budget - 1);
        PhaseKeepsPrompt(env, cfg, s1, r.toolCalls, toolCount);
        LoopRecord(env, cfg, resuming, s2, budget - 1);
        ToolPhaseRecord(env, cfg, s1, r.toolCalls, clock, rest);
        PhaseStarts(env, cfg, s1, r.toolCalls, toolCount, rest);
        AnsweredRecord(env, cfg, s, r, After(more, rest));
        AfterAfter([ProviderCalled(s.system, s.history), Checkpointed(s1.history)], more, rest);
      }
  }

  lemma FailureRecord(env: Env, cfg: AgentConfig, s: LoopState, e: string, budget: nat)
    requires IsPrompt(cfg, s.snapshot, s.system) && env.provider(s.clock, s.system, s.history) == Err(e)
    ensures IsRecord(env, cfg, s, TurnEnd(Failed(e), s.(clock := s.clock + 1), [ProviderCalled(s.system, s.history)],
                                          budget))
  {
    var s1 := s.(clock := s.clock + 1);
    Ends(env, cfg, s1, Failed(e), budget);
    hide IsRecord;
    RecordStarts(env, cfg, s, ProviderCalled(s.system, s.history), TurnEnd(Failed(e), s1, [], budget));
  }

  /** A request, the reply saved, and what follows. */
  lemma AnsweredRecord(env: Env, cfg: AgentConfig, s: LoopState, r: ChatResponse, t: TurnEnd)
    requires IsPrompt(cfg, s.snapshot, s.system) && env.provider(s.clock, s.system, s.history) == Ok(r)
    requires IsRecord(env, cfg, Answered(s, r), t)
    requires if r.toolCalls == [] then t.events == [] && t.outcome == Answer(r.content)
             else t.events != [] && t.events[0].ToolsRan? && t.events[0].calls == r.toolCalls
    ensures IsRecord(env, cfg, s, After([ProviderCalled(s.system, s.history), Checkpointed(Answered(s, r).history)], t))
  {
    hide IsRecord;
    var asked, saved := ProviderCalled(s.system, s.history), Checkpointed(Answered(s, r).history);
    RecordStarts(env, cfg, s.(clock := s.clock + 1), saved, t);
    var u := After([saved], t);
    assert u.events[1..] == t.events;
    RecordStarts(env, cfg, s, asked, u);
    AfterAfter([asked], [saved], t);
    assert [asked] + [saved] == [asked, saved];
  }

  lemma Ends(env: Env, cfg: AgentConfig, s: LoopState, outcome: Outcome, budget: nat)
    requires IsPrompt(cfg, s.snapshot, s.system)
    ensures IsRecord(env, cfg, s, TurnEnd(outcome, s, [], budget))
  {
    assert Rebuilt(env, cfg, s, []) == s;
  }

  /** Main result: the record of any turn, with any tools, memory and provider.  A user's
      message is saved first.  Then every entry is what the state rebuilt from the entries
      before it calls for, and the state at the end is the one rebuilt from them all. */
  lemma TurnIsRecord(env: Env, cfg: AgentConfig, user: Option<string>, s: LoopState, budget: nat)
    ensures var t := Turn(env, cfg, user, s, budget);
            var start := WithSnapshot(cfg, s, s.snapshot);
            && IsPrompt(cfg, start.snapshot, start.system)
            && IsRecord(env, cfg, start, t)
            && match user
               case None => GoesOn(start, t.events, t.outcome)
               case Some(text) =>
                 var asked := s.history + [Message(User, Text(text), [], None, None, None)];
                 && t.events != [] && t.events[0] == Checkpointed(asked)
                 && GoesOn(start.(history := asked), t.events[1..], t.outcome)
  {
    hide IsRecord, RunLoop, GoesOn;
    var start := WithSnapshot(cfg, s, s.snapshot);
    match user
    case None =>
      LoopRecord(env, cfg, true, start, budget);
    case Some(text) =>
      var asked := s.history + [UserMessage(text)];
      var t := RunLoop(env, cfg, false, start.(history := asked), budget);
      LoopRecord(env, cfg, false, start.(history := asked), budget);
      RecordStarts(env, cfg, start, Checkpointed(asked), t);
      assert ([Checkpointed(asked)] + t.events)[1..] == t.events;
  }

  // ----- How a turn ends -----

  lemma PhaseCallsNobody(env: Env, cfg: AgentConfig, s: LoopState, calls: seq<ToolCall>, toolCount: nat)
    ensures ProviderCalls(ToolPhase(env, cfg, s, calls, toolCount).1) == 0
  {
    hide Executed, ToolResults, Compacted, Made, UnderPressure;
    NoProviderCalls(ToolPhase(env, cfg, s, calls, toolCount).1);
  }

  /** An answer is the text of the last message, which is the assistant's; and a turn is
      exhausted only when nothing is left of its budget. */
  predicate EndsWell(t: TurnEnd) {
    match t.outcome
    case Answer(text) =>
      var h := t.state.history;
      h != [] && h[|h| - 1].role == Assistant && h[|h| - 1].content.AsTextLossy() == text
    case Exhausted => t.budget == 0
    case Failed(_) => t.events != [] && t.events[|t.events| - 1].ProviderCalled?
  }

  /** Every provider call takes one turn of the budget, and nothing else does, except that
      finding a resumed conversation complete takes one. */
  lemma {:induction false} LoopSpends(env: Env, cfg: AgentConfig, resuming: bool, s: LoopState, budget: nat)
    ensures var t := RunLoop(env, cfg, resuming, s, budget);
            && EndsWell(t)
            && (ProviderCalls(t.events) + t.budget == budget
                || (resuming && t.outcome.Answer? && ProviderCalls(t.events) + t.budget + 1 == budget))
    decreases budget, 1
  {
    hide RunLoop, ToolPhase, ProviderPhase;
    LoopUnfolds(env, cfg, resuming, s, budget);
    if budget > 0 && !(resuming && TurnIsComplete(s.history)) {
      var toolCount := env.toolCount(s.clock);
      var (s1, events) := PendingPhase(env, cfg, s, toolCount);
      PhaseCallsNobody(env, cfg, s, PendingToolCalls(s.history), toolCount);
      ProviderSpends(env, cfg, resuming, s1, toolCount, budget);
      ProviderCallsConcat(events, ProviderPhase(env, cfg, resuming, s1, toolCount, budget).events);
    }
  }

  lemma {:induction false} ProviderSpends(env: Env, cfg: AgentConfig, resuming: bool, s: LoopState, toolCount: nat,
                                          budget: nat)
    requires budget > 0
    ensures var t := ProviderPhase(env, cfg, resuming, s, toolCount, budget);
            && EndsWell(t)
            && (ProviderCalls(t.events) + t.budget == budget
                || (resuming && t.outcome.Answer? && ProviderCalls(t.events) + t.budget + 1 == budget))
    decreases budget, 0
  {
    hide RunLoop, ToolPhase, ProviderPhase;
    ProviderUnfolds(env, cfg, resuming, s, toolCount, budget);
    match env.provider(s.clock, s.system, s.history)
    case Err(e) =>
    case Ok(r) =>
      var s1 := Answered(s, r);
      var events := [ProviderCalled(s.system, s.history), Checkpointed(s1.history)];
      assert events[1..] == [Checkpointed(s1.history)];
      NoProviderCalls(events[1..]);
      if r.toolCalls != [] {
        var (s2, more) := ToolPhase(env, cfg, s1, r.toolCalls, toolCount);
        PhaseCallsNobody(env, cfg, s1, r.toolCalls, toolCount);
        LoopSpends(env, cfg, resuming, s2, budget - 1);
        ProviderCallsConcat(events, more);
        ProviderCallsConcat(events + more, RunLoop(env, cfg, resuming, s2, budget - 1).events);
      }
  }

  lemma TurnSpends(env: Env, cfg: AgentConfig, user: Option<string>, s: LoopState, budget: nat)
    ensures var t := Turn(env, cfg, user, s, budget);
            && EndsWell(t)
            && (ProviderCalls(t.events) + t.budget == budget
                || (user.None? && t.outcome.Answer? && ProviderCalls(t.events) + t.budget + 1 == budget))
  {
    hide RunLoop;
    match user
    case None =>
      LoopSpends(env, cfg, true, StartState(cfg, s), budget);
    case Some(text) =>
      var asked := s.(history := s.history + [UserMessage(text)]);
      LoopSpends(env, cfg, false, StartState(cfg, asked), budget);
      ProviderCallsConcat([Checkpointed(asked.history)],
                          RunLoop(env, cfg, false, StartState(cfg, asked), budget).events);
  }

  // ----- What the loop asks a compression for -----

  /** The summarising model of this moment. */
  ghost predicate IsAsked(summarizer: Summarizer, env: Env, clock: nat) {
    forall previous, h, memory :: summarizer(previous, h, memory) == env.summarizer(clock, previous, h, memory)
  }

  ghost predicate IsCompacted(env: Env, cfg: AgentConfig, s: LoopState, c: Compression, s': LoopState) {
    && s'.history == c.history && s'.previousSummary == c.previousSummary && s'.files == s.files
    && if c.result.Compressed? then
         s'.snapshot == env.memoryBlock(s.clock, s.files) && IsPrompt(cfg, s'.snapshot, s'.system)
       else s'.snapshot == s.snapshot && s'.system == s.system
  }

  /** Compressing complete blocks in the loop: the summarising model is given the summary
      held, the messages that go, and what the memory contributes to the whole history; the
      memory is read anew, and the prompt rebuilt, only if something was replaced. */
  lemma CompactedMeans(env: Env, cfg: AgentConfig, s: LoopState)
    requires WellFormed(s.history) && forall t, ids :: Enumerates(env.iterate(t, ids), ids)
    ensures exists summarizer, p, t: nat, c ::
              && IsAsked(summarizer, env, s.clock) && t <= |p|
              && IsPruned(s.history, cfg.compression.tailBudget, p) && IsTail(p, cfg.compression.tailBudget, t)
              && IsCompressed(cfg.compression, s.previousSummary, summarizer, env.contribution(s.clock, s.history),
                              s.history, p, t, c)
              && IsCompacted(env, cfg, s, c, Compacted(env, cfg, s))
  {
    hide WellFormed, Enumerates, Compress, IsPruned, IsTail, IsCompressed;
    var summarizer, iterate := SummarizerAt(env.summarizer, s.clock), IterateAt(env.iterate, s.clock);
    assert IsAsked(summarizer, env, s.clock);
    CompressionMeans(cfg.compression, s.previousSummary, summarizer, env.contribution(s.clock, s.history), iterate,
                     s.history);
    assert IsCompacted(env, cfg, s, CompressionAt(env, cfg, s), Compacted(env, cfg, s));
  }
}
