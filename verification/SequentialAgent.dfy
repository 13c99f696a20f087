/** When the order in which calls complete shows nowhere in a whole turn. */
module SequentialAgent {
  import opened Wrappers
  import opened Messages
  import opened PathConflicts
  import opened IndexSort
  import opened TokenCounter
  import opened Compressor
  import opened Parallel
  import opened ParallelTheorems
  import opened AgentLoop

  /** The same environment, with calls completing in the order in which they were made. */
  function Sequentially(env: Env): Env {
    env.(order := (t, calls, f) => Ascending(|calls|))
  }

  /** The calls that ran at the same time keep to the paths they name. */
  ghost predicate ConfinedBatches(env: Env, cfg: AgentConfig, events: seq<Event>) {
    forall e :: e in events && e.ToolsRan? ==> ConfinedBatch(env, cfg, e.calls)
  }

  ghost predicate ConfinedBatch(env: Env, cfg: AgentConfig, calls: seq<ToolCall>) {
    MayParallelize(calls, cfg.registry) ==> forall t :: KeepsToPaths(ToolAt(env.tool, t), calls, cfg.registry)
  }

  lemma BatchesParts(env: Env, cfg: AgentConfig, a: seq<Event>, b: seq<Event>)
    requires ConfinedBatches(env, cfg, a + b)
    ensures ConfinedBatches(env, cfg, a) && ConfinedBatches(env, cfg, b)
  {
    hide ConfinedBatch;
    assert forall e :: e in a ==> e in a + b;
    assert forall e :: e in b ==> e in a + b;
  }

  /** One batch, in any order of completion, does what its calls do one after the other. */
  lemma BatchInSequence(env: Env, cfg: AgentConfig, clock: nat, files: Files, calls: seq<ToolCall>)
    requires ConfinedBatch(env, cfg, calls)
    ensures ToolRun(env, cfg.registry, clock, files, calls) == RunInSequence(calls, ToolAt(env.tool, clock), files)
    ensures ToolRun(Sequentially(env), cfg.registry, clock, files, calls)
         == RunInSequence(calls, ToolAt(env.tool, clock), files)
  {
    hide RunOrder, KeepsToPaths, SortByIndex, Conflicting;
    var act := ToolAt(env.tool, clock);
    if MayParallelize(calls, cfg.registry) {
      var order := env.order(clock, calls, files);
      if CompletionOrder(order, |calls|) {
        ParallelRefinesSequential(calls, cfg.registry, act, order, files);
      }
      ParallelRefinesSequential(calls, cfg.registry, act, Ascending(|calls|), files);
    }
  }

  lemma SameMaintained(env: Env, cfg: AgentConfig, s: LoopState, toolCount: nat, written: bool)
    ensures Maintained(Sequentially(env), cfg, s, toolCount, written) == Maintained(env, cfg, s, toolCount, written)
  {
    hide Compress, RequestTokens, BuildSystem;
  }

  lemma SameToolPhase(env: Env, cfg: AgentConfig, s: LoopState, calls: seq<ToolCall>, toolCount: nat)
    requires ConfinedBatches(env, cfg, ToolPhase(env, cfg, s, calls, toolCount).1)
    ensures ToolPhase(Sequentially(env), cfg, s, calls, toolCount) == ToolPhase(env, cfg, s, calls, toolCount)
  {
    hide Maintained, ToolRun, MemoryWritten, ResultMessages, ConfinedBatch;
    var events := ToolPhase(env, cfg, s, calls, toolCount).1;
    assert events[0] in events && events[0].calls == calls;
    BatchInSequence(env, cfg, s.clock, s.files, calls);
    var s1 := Executed(env, cfg, s, calls);
    SameMaintained(env, cfg, s1, toolCount, MemoryWritten(ToolResults(env, cfg.registry, s.clock, s.files, calls)));
  }

  lemma SamePending(env: Env, cfg: AgentConfig, s: LoopState, toolCount: nat)
    requires ConfinedBatches(env, cfg, PendingPhase(env, cfg, s, toolCount).1)
    ensures PendingPhase(Sequentially(env), cfg, s, toolCount) == PendingPhase(env, cfg, s, toolCount)
  {
    hide ToolPhase, ConfinedBatches;
    PendingUnfolds(env, cfg, s, toolCount);
    PendingUnfolds(Sequentially(env), cfg, s, toolCount);
    if PendingToolCalls(s.history) != [] {
      SameToolPhase(env, cfg, s, PendingToolCalls(s.history), toolCount);
    }
  }

  lemma {:induction false} SameLoop(env: Env, cfg: AgentConfig, resuming: bool, s: LoopState, budget: nat)
    requires ConfinedBatches(env, cfg, RunLoop(env, cfg, resuming, s, budget).events)
    ensures RunLoop(Sequentially(env), cfg, resuming, s, budget) == RunLoop(env, cfg, resuming, s, budget)
    decreases budget, 1
  {
    hide RunLoop, ProviderPhase, PendingPhase, ConfinedBatches, TurnIsComplete;
    LoopUnfolds(env, cfg, resuming, s, budget);
    LoopUnfolds(Sequentially(env), cfg, resuming, s, budget);
    if budget > 0 && !(resuming && TurnIsComplete(s.history)) {
      var toolCount := env.toolCount(s.clock);
      var (s1, events) := PendingPhase(env, cfg, s, toolCount);
      BatchesParts(env, cfg, events, ProviderPhase(env, cfg, resuming, s1, toolCount, budget).events);
      SamePending(env, cfg, s, toolCount);
      SameProviderPhase(env, cfg, resuming, s1, toolCount, budget);
    }
  }

  lemma {:induction false} SameProviderPhase(env: Env, cfg: AgentConfig, resuming: bool, s: LoopState, toolCount: nat,
                                             budget: nat)
    requires budget > 0
    requires ConfinedBatches(env, cfg, ProviderPhase(env, cfg, resuming, s, toolCount, budget).events)
    ensures ProviderPhase(Sequentially(env), cfg, resuming, s, toolCount, budget)
         == ProviderPhase(env, cfg, resuming, s, toolCount, budget)
    decreases budget, 0
  {
    hide RunLoop, ProviderPhase, ToolPhase, ConfinedBatches;
    ProviderUnfolds(env, cfg, resuming, s, toolCount, budget);
    ProviderUnfolds(Sequentially(env), cfg, resuming, s, toolCount, budget);
    match env.provider(s.clock, s.system, s.history)
    case Err(_) =>
    case Ok(r) =>
      if r.toolCalls != [] {
        var s1 := Answered(s, r);
        var first := [ProviderCalled(s.system, s.history), Checkpointed(s1.history)];
        var (s2, more) := ToolPhase(env, cfg, s1, r.toolCalls, toolCount);
        var rest := RunLoop(env, cfg, resuming, s2, budget - 1).events;
        BatchesParts(env, cfg, first + more, rest);
        BatchesParts(env, cfg, first, more);
        SameToolPhase(env, cfg, s1, r.toolCalls, toolCount);
        SameLoop(env, cfg, resuming, s2, budget - 1);
      }
  }

  /** Main result: a turn in which the calls that ran at the same time keep to the paths
      they name is, in all that can be observed, the turn of an agent that runs all calls
      one after the other. */
  lemma TurnRefinesSequential(env: Env, cfg: AgentConfig, user: Option<string>, s: LoopState, budget: nat)
    requires ConfinedBatches(env, cfg, Turn(env, cfg, user, s, budget).events)
    ensures Turn(Sequentially(env), cfg, user, s, budget) == Turn(env, cfg, user, s, budget)
  {
    hide RunLoop, ConfinedBatches, BuildSystem;
    match user
    case None =>
      SameLoop(env, cfg, true, StartState(cfg, s), budget);
    case Some(text) =>
      var asked := s.(history := s.history + [UserMessage(text)]);
      var rest := RunLoop(env, cfg, false, StartState(cfg, asked), budget);
      BatchesParts(env, cfg, [Checkpointed(asked.history)], rest.events);
      SameLoop(env, cfg, false, StartState(cfg, asked), budget);
  }
}
