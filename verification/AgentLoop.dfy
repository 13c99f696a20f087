/** The agent loop: provider calls, tool execution, checkpoints, compression.
    Everything outside the loop is an `Env`: functions of a clock that advances
    whenever the outside is consulted, so any behaviour over time is covered. */
module AgentLoop {
  import opened Wrappers
  import opened Messages
  import opened Blocks
  import opened Sanitizer
  import opened TokenCounter
  import opened Compressor
  import opened Budget
  import opened Parallel
  import opened IndexSort
  import opened Sequences

  const MEMORY_WRITE := "memory_write"
  const MAX_HISTORY_MESSAGES := 500

  datatype ChatResponse = ChatResponse(content: string, toolCalls: seq<ToolCall>, reasoning: Option<string>)

  datatype Env = Env(
    provider: (nat, string, History) -> Result<ChatResponse, string>,
    tool: (nat, ToolCall, Files) -> (ToolResult, Files),
    order: (nat, seq<ToolCall>, Files) -> seq<nat>,
    summarizer: (nat, Option<string>, History, Option<string>) -> Result<string, string>,
    contribution: (nat, History) -> Option<string>,
    memoryBlock: (nat, Files) -> string,
    iterate: (nat, set<string>) -> seq<string>,
    toolCount: nat -> nat)

  datatype AgentConfig = AgentConfig(systemPrompt: string, registry: Registry, compression: CompressionConfig)

  /** What an observer of the loop can record.  A compression made a summary, or
      found nothing to replace. */
  datatype Event =
    | Checkpointed(history: History)
    | ProviderCalled(system: string, request: History)
    | ToolsRan(calls: seq<ToolCall>, results: seq<ToolCallResult>, files: Files)
    | CompressionRan(made: Option<string>)

  datatype Outcome = Answer(text: string) | Exhausted | Failed(error: string)

  // ----- Reading a history -----

  function LastCaller(h: History): (i: Option<nat>)
    ensures i.Some? ==> i.value < |h| && IsCaller(h[i.value])
  {
    if h == [] then None
    else if IsCaller(h[|h| - 1]) then Some(|h| - 1)
    else LastCaller(h[..|h| - 1])
  }

  function Unanswered(calls: seq<ToolCall>, done: seq<string>): seq<ToolCall> {
    if calls == [] then []
    else (if calls[0].id in done then [] else [calls[0]]) + Unanswered(calls[1..], done)
  }

  /** Calls of the last caller that nothing but tool results follow and that have
      no result yet. */
  function PendingToolCalls(h: History): seq<ToolCall> {
    match LastCaller(h)
    case None => []
    case Some(i) =>
      var following := h[i + 1..];
      if exists m :: m in following && m.role != Tool then []
      else Unanswered(h[i].toolCalls, AnsweredIds(following))
  }

  function LatestAssistantText(h: History): Option<string> {
    if h == [] then None
    else if h[|h| - 1].role == Assistant then Some(h[|h| - 1].content.AsTextLossy())
    else LatestAssistantText(h[..|h| - 1])
  }

  datatype BoundaryKind =
    UserCheckpointed | AssistantResponseCheckpointed | PendingCalls | ToolResultsCheckpointed

  datatype ContinuationAction = CallProvider | ExecutePendingTools | CompleteTurn

  datatype ContinuationBoundary =
    ContinuationBoundary(kind: BoundaryKind, safeAction: ContinuationAction, historyLen: nat, pendingToolCalls: nat)

  function AnalyzeContinuationBoundary(h: History): Option<ContinuationBoundary> {
    var pending := PendingToolCalls(h);
    if pending != [] then Some(ContinuationBoundary(PendingCalls, ExecutePendingTools, |h|, |pending|))
    else if h == [] then None
    else
      match h[|h| - 1].role
      case User => Some(ContinuationBoundary(UserCheckpointed, CallProvider, |h|, 0))
      case Assistant => Some(ContinuationBoundary(AssistantResponseCheckpointed, CompleteTurn, |h|, 0))
      case Tool => Some(ContinuationBoundary(ToolResultsCheckpointed, CallProvider, |h|, 0))
      case System => None
  }

  predicate TurnIsComplete(h: History) {
    AnalyzeContinuationBoundary(h).Some? && AnalyzeContinuationBoundary(h).value.safeAction == CompleteTurn
  }

  // ----- The loop as functions -----

  /** History, files, the system prompt in use, the memory block it is built from (a
      snapshot, refreshed when memory is written or the history compressed), and the
      summary of the last compression. */
  datatype LoopState =
    LoopState(history: History, files: Files, system: string, snapshot: string, previousSummary: Option<string>,
              clock: nat)

  function BuildSystem(prompt: string, block: string): string {
    if block == "" then prompt else prompt + "\n\n" + block
  }

  function ResultMessage(r: ToolCallResult): Message {
    Message(Tool, Text(r.result.content), [], None, Some(r.toolName), Some(r.callId))
  }

  function ResultMessages(rs: seq<ToolCallResult>): (h: History)
    ensures |h| == |rs| && forall k :: 0 <= k < |rs| ==> h[k] == ResultMessage(rs[k])
  {
    seq(|rs|, k requires 0 <= k < |rs| => ResultMessage(rs[k]))
  }

  function ToolAt(tool: (nat, ToolCall, Files) -> (ToolResult, Files), clock: nat): Action {
    (c, f) => tool(clock, c, f)
  }

  /** Calls that are admitted run at the same time and complete in the order of that
      moment; others run one after the other. */
  function ToolRun(env: Env, registry: Registry, clock: nat, files: Files, calls: seq<ToolCall>)
    : (seq<ToolCallResult>, Files)
  {
    var order := env.order(clock, calls, files);
    if MayParallelize(calls, registry) && CompletionOrder(order, |calls|) then
      RunAtOnce(calls, ToolAt(env.tool, clock), order, files)
    else RunInSequence(calls, ToolAt(env.tool, clock), files)
  }

  lemma RunShape(env: Env, registry: Registry, clock: nat, files: Files, calls: seq<ToolCall>)
    ensures var rs := ToolRun(env, registry, clock, files, calls).0;
            && |rs| == |calls|
            && forall k :: 0 <= k < |calls| ==> rs[k].callId == calls[k].id && rs[k].toolName == calls[k].name
  {
    hide RunOrder, MayParallelize, SortByIndex;
    var act, order := ToolAt(env.tool, clock), env.order(clock, calls, files);
    SequenceShape(calls, act, files);
    if CompletionOrder(order, |calls|) {
      OneResultPerCall(calls, act, order, files);
    }
  }

  function ToolResults(env: Env, registry: Registry, clock: nat, files: Files, calls: seq<ToolCall>)
    : (rs: seq<ToolCallResult>)
    ensures |rs| == |calls|
    ensures forall k :: 0 <= k < |calls| ==> rs[k].callId == calls[k].id && rs[k].toolName == calls[k].name
  {
    RunShape(env, registry, clock, files, calls);
    ToolRun(env, registry, clock, files, calls).0
  }

  function FilesAfter(env: Env, registry: Registry, clock: nat, files: Files, calls: seq<ToolCall>): Files {
    ToolRun(env, registry, clock, files, calls).1
  }

  predicate MemoryWritten(rs: seq<ToolCallResult>) {
    exists r :: r in rs && r.toolName == MEMORY_WRITE && !r.result.isError
  }

  /** The calls ran; a successful memory write refreshes the snapshot. */
  function Executed(env: Env, cfg: AgentConfig, s: LoopState, calls: seq<ToolCall>): LoopState {
    var rs := ToolResults(env, cfg.registry, s.clock, s.files, calls);
    var files := FilesAfter(env, cfg.registry, s.clock, s.files, calls);
    s.(history := s.history + ResultMessages(rs),
       files := files,
       snapshot := if MemoryWritten(rs) then env.memoryBlock(s.clock, files) else s.snapshot,
       clock := s.clock + 1)
  }

  function SummarizerAt(summarizer: (nat, Option<string>, History, Option<string>) -> Result<string, string>,
                        clock: nat): Summarizer
  {
    (previous, h, memory) => summarizer(clock, previous, h, memory)
  }

  function IterateAt(iterate: (nat, set<string>) -> seq<string>, clock: nat): set<string> -> seq<string> {
    s => iterate(clock, s)
  }

  function CompressionAt(env: Env, cfg: AgentConfig, s: LoopState): Compression {
    Compress(cfg.compression, s.previousSummary, SummarizerAt(env.summarizer, s.clock),
             env.contribution(s.clock, s.history), IterateAt(env.iterate, s.clock), s.history)
  }

  function Compacted(env: Env, cfg: AgentConfig, s: LoopState): LoopState {
    var c := CompressionAt(env, cfg, s);
    if c.result.Compressed? then
      var block := env.memoryBlock(s.clock, s.files);
      LoopState(c.history, s.files, BuildSystem(cfg.systemPrompt, block), block, c.previousSummary, s.clock + 1)
    else s.(history := c.history, previousSummary := c.previousSummary, clock := s.clock + 1)
  }

  /** The summary that compressing in state `s` makes, if any. */
  function Made(env: Env, cfg: AgentConfig, s: LoopState): Option<string> {
    var c := CompressionAt(env, cfg, s);
    if c.result.Compressed? then c.previousSummary else None
  }

  /** The prompt is rebuilt from the snapshot. */
  function Remembered(cfg: AgentConfig, s: LoopState): LoopState {
    s.(system := BuildSystem(cfg.systemPrompt, s.snapshot))
  }

  predicate UnderPressure(cfg: AgentConfig, s: LoopState, toolCount: nat) {
    RequestTokens(s.system, s.history, toolCount) >= cfg.compression.pressureTokens
  }

  function Capped(env: Env, cfg: AgentConfig, s: LoopState): (LoopState, seq<Event>) {
    if |s.history| > MAX_HISTORY_MESSAGES then (Compacted(env, cfg, s), [CompressionRan(Made(env, cfg, s))])
    else (s, [])
  }

  /** After tools ran: refresh the prompt, compress under pressure, enforce the cap. */
  function Maintained(env: Env, cfg: AgentConfig, s: LoopState, toolCount: nat, memoryWritten: bool)
    : (LoopState, seq<Event>)
  {
    var s1 := if memoryWritten then Remembered(cfg, s) else s;
    if UnderPressure(cfg, s1, toolCount) then
      var (s2, events) := Capped(env, cfg, Compacted(env, cfg, s1));
      (s2, [CompressionRan(Made(env, cfg, s1))] + events)
    else Capped(env, cfg, s1)
  }

  /** Runs calls, checkpoints their results, then maintains. */
  function ToolPhase(env: Env, cfg: AgentConfig, s: LoopState, calls: seq<ToolCall>, toolCount: nat)
    : (LoopState, seq<Event>)
  {
    var s1 := Executed(env, cfg, s, calls);
    var rs := ToolResults(env, cfg.registry, s.clock, s.files, calls);
    var (s2, events) := Maintained(env, cfg, s1, toolCount, MemoryWritten(rs));
    (s2, [ToolsRan(calls, rs, s1.files), Checkpointed(s1.history)] + events)
  }

  function PendingPhase(env: Env, cfg: AgentConfig, s: LoopState, toolCount: nat): (LoopState, seq<Event>) {
    if PendingToolCalls(s.history) == [] then (s, [])
    else ToolPhase(env, cfg, s, PendingToolCalls(s.history), toolCount)
  }

  function AssistantMessage(r: ChatResponse): Message {
    Message(Assistant, Text(r.content), r.toolCalls, r.reasoning, None, None)
  }

  function Answered(s: LoopState, r: ChatResponse): LoopState {
    s.(history := s.history + [AssistantMessage(r)], clock := s.clock + 1)
  }

  datatype TurnEnd = TurnEnd(outcome: Outcome, state: LoopState, events: seq<Event>, budget: nat)

  function After(events: seq<Event>, t: TurnEnd): TurnEnd {
    t.(events := events + t.events)
  }

  /** The `while` loop from state `s` on, with `budget` turns left. */
  function RunLoop(env: Env, cfg: AgentConfig, resuming: bool, s: LoopState, budget: nat): TurnEnd
    decreases budget, 1
  {
    if budget == 0 then TurnEnd(Exhausted, s, [], 0)
    else if resuming && TurnIsComplete(s.history) then
      var text := LatestAssistantText(s.history);
      TurnEnd(if text.Some? then Answer(text.value) else Exhausted, s, [], budget - 1)
    else
      var (s1, events) := PendingPhase(env, cfg, s, env.toolCount(s.clock));
      After(events, ProviderPhase(env, cfg, resuming, s1, env.toolCount(s.clock), budget))
  }

  /** The second half of a turn: call the provider and act on its reply. */
  function ProviderPhase(env: Env, cfg: AgentConfig, resuming: bool, s: LoopState, toolCount: nat, budget: nat): TurnEnd
    requires budget > 0
    decreases budget, 0
  {
    match env.provider(s.clock, s.system, s.history)
    case Err(e) => TurnEnd(Failed(e), s.(clock := s.clock + 1), [ProviderCalled(s.system, s.history)], budget - 1)
    case Ok(r) =>
      var s1 := Answered(s, r);
      var events := [ProviderCalled(s.system, s.history), Checkpointed(s1.history)];
      if r.toolCalls == [] then TurnEnd(Answer(r.content), s1, events, budget - 1)
      else
        var (s2, more) := ToolPhase(env, cfg, s1, r.toolCalls, toolCount);
        After(events + more, RunLoop(env, cfg, resuming, s2, budget - 1))
  }

  /** A turn begins by building the prompt from the snapshot. */
  function StartState(cfg: AgentConfig, s: LoopState): LoopState {
    Remembered(cfg, s)
  }

  /** An agent process that was just started on these files. */
  function Fresh(env: Env, h: History, files: Files, previousSummary: Option<string>, clock: nat): LoopState {
    LoopState(h, files, "", env.memoryBlock(clock, files), previousSummary, clock + 1)
  }

  /** One conversation turn: a fresh user message, or none when resuming. */
  function Turn(env: Env, cfg: AgentConfig, user: Option<string>, s: LoopState, budget: nat): TurnEnd {
    match user
    case Some(text) =>
      var asked := s.(history := s.history + [UserMessage(text)]);
      After([Checkpointed(asked.history)], RunLoop(env, cfg, false, StartState(cfg, asked), budget))
    case None => RunLoop(env, cfg, true, StartState(cfg, s), budget)
  }

  /** Whatever runs at the same time completes, each call once. */
  ghost predicate Schedules(env: Env) {
    forall t, calls, f :: CompletionOrder(env.order(t, calls, f), |calls|)
  }

  lemma AfterAfter(a: seq<Event>, b: seq<Event>, t: TurnEnd)
    ensures After(a, After(b, t)) == After(a + b, t)
  {
    Associative(a, b, t.events);
  }

  // ----- The loop in place -----

  class EventLog {
    var events: seq<Event>

    constructor ()
      ensures events == []
    {
      events := [];
    }

    method Record(e: Event)
      modifies this
      ensures events == old(events) + [e]
    {
      events := events + [e];
    }
  }

  class Agent {
    const config: AgentConfig
    const env: Env
    const budget: IterationBudget
    const compressor: ContextCompressor
    const observer: EventLog
    const workspace: Workspace
    var snapshot: string
    var clock: nat

    ghost predicate Valid()
      reads this, budget
    {
      && budget.Valid()
      && compressor.config == config.compression
      && Schedules(env)
      && forall t, s :: Enumerates(env.iterate(t, s), s)
    }

    constructor (config: AgentConfig, env: Env, maxIterations: u32, observer: EventLog, workspace: Workspace)
      requires Schedules(env) && forall t, s :: Enumerates(env.iterate(t, s), s)
      ensures Valid() && fresh(budget) && fresh(compressor)
      ensures this.config == config && this.env == env && this.observer == observer && this.workspace == workspace
      ensures budget.remaining == maxIterations
      ensures forall log: MessageLog :: State(log, "") == Fresh(env, log.messages, workspace.files, None, 0)
    {
      this.config := config;
      this.env := env;
      this.observer := observer;
      this.workspace := workspace;
      budget := new IterationBudget(maxIterations);
      compressor := new ContextCompressor(config.compression);
      snapshot := env.memoryBlock(0, workspace.files);
      clock := 1;
    }

    /** The loop state that the heap and the local prompt amount to. */
    function State(log: MessageLog, system: string): LoopState
      reads this, log, compressor, workspace
    {
      LoopState(log.messages, workspace.files, system, snapshot, compressor.previousSummary, clock)
    }

    method RunCalls(calls: seq<ToolCall>) returns (results: seq<ToolCallResult>)
      requires Schedules(env)
      modifies workspace
      ensures results == ToolResults(env, config.registry, clock, old(workspace.files), calls)
      ensures workspace.files == FilesAfter(env, config.registry, clock, old(workspace.files), calls)
    {
      hide RunOrder, RunAtOnce, RunInSequence, MayParallelize;
      var parallel := ShouldParallelize(calls, config.registry);
      if parallel {
        var order := env.order(clock, calls, workspace.files);
        results := ExecuteParallel(calls, ToolAt(env.tool, clock), order, workspace);
      } else {
        results := ExecuteSequential(calls, ToolAt(env.tool, clock), workspace);
      }
    }

    method ExecuteToolCalls(calls: seq<ToolCall>, log: MessageLog, ghost system: string)
      returns (memoryWriteSucceeded: bool)
      requires Schedules(env)
      modifies `clock, `snapshot, observer, workspace, log
      ensures State(log, system) == Executed(env, config, old(State(log, system)), calls)
      ensures var results := ToolResults(env, config.registry, old(clock), old(workspace.files), calls);
              && memoryWriteSucceeded == MemoryWritten(results)
              && observer.events
                 == old(observer.events) + [ToolsRan(calls, results, workspace.files), Checkpointed(log.messages)]
    {
      hide ToolRun, ResultMessages, Schedules;
      var results := RunCalls(calls);
      memoryWriteSucceeded := exists r :: r in results && r.toolName == MEMORY_WRITE && !r.result.isError;
      log.messages := log.messages + ResultMessages(results);
      if memoryWriteSucceeded {
        snapshot := env.memoryBlock(clock, workspace.files);
      }
      clock := clock + 1;
      observer.Record(ToolsRan(calls, results, workspace.files));
      observer.Record(Checkpointed(log.messages));
    }

    method DoCompression(log: MessageLog, system: string) returns (newSystem: string)
      requires Valid()
      modifies `clock, `snapshot, compressor, observer, log
      ensures State(log, newSystem) == Compacted(env, config, old(State(log, system)))
      ensures observer.events == old(observer.events) + [CompressionRan(Made(env, config, old(State(log, system))))]
    {
      hide Compress, BuildSystem, Enumerates;
      newSystem := system;
      var contribution := env.contribution(clock, log.messages);
      var result := compressor.Run(log, SummarizerAt(env.summarizer, clock), contribution,
                                   IterateAt(env.iterate, clock));
      if result.Compressed? {
        snapshot := env.memoryBlock(clock, workspace.files);
        newSystem := BuildSystem(config.systemPrompt, snapshot);
      }
      observer.Record(CompressionRan(if result.Compressed? then compressor.previousSummary else None));
      clock := clock + 1;
    }

    method PostToolExecutionMaintenance(log: MessageLog, system: string, toolCount: nat, memoryWriteSucceeded: bool)
      returns (newSystem: string)
      requires Valid()
      modifies `clock, `snapshot, compressor, observer, log
      ensures var (s, events) := Maintained(env, config, old(State(log, system)), toolCount, memoryWriteSucceeded);
              && State(log, newSystem) == s
              && observer.events == old(observer.events) + events
    {
      hide Compacted, Made, RequestTokens, BuildSystem, Enumerates;
      newSystem := system;
      if memoryWriteSucceeded {
        newSystem := BuildSystem(config.systemPrompt, snapshot);
      }
      var pressure := compressor.ShouldCompress(newSystem, log.messages, toolCount);
      if pressure {
        newSystem := DoCompression(log, newSystem);
      }
      if |log.messages| > MAX_HISTORY_MESSAGES {
        newSystem := DoCompression(log, newSystem);
      }
    }

    method RunTools(calls: seq<ToolCall>, log: MessageLog, system: string, toolCount: nat) returns (newSystem: string)
      requires Valid()
      modifies `clock, `snapshot, compressor, observer, workspace, log
      ensures var (s, events) := ToolPhase(env, config, old(State(log, system)), calls, toolCount);
              && State(log, newSystem) == s
              && observer.events == old(observer.events) + events
    {
      hide Maintained, Executed, ToolResults, MemoryWritten, Enumerates, Schedules;
      var written := ExecuteToolCalls(calls, log, system);
      newSystem := PostToolExecutionMaintenance(log, system, toolCount, written);
    }

    /** How a piece of the loop ended: with the outcome `done`, or one turn further on. */
    ghost predicate Progress(t: TurnEnd, resuming: bool, done: Option<Outcome>, s: LoopState, events: seq<Event>)
      reads budget
    {
      match done
      case Some(outcome) => t == TurnEnd(outcome, s, events, budget.remaining)
      case None => t == After(events, RunLoop(env, config, resuming, s, budget.remaining))
    }

    lemma ProgressAfter(seen: seq<Event>, t: TurnEnd, resuming: bool, done: Option<Outcome>, s: LoopState,
                        events: seq<Event>)
      requires Progress(t, resuming, done, s, events)
      ensures match done
              case Some(outcome) => After(seen, t) == TurnEnd(outcome, s, seen + events, budget.remaining)
              case None => After(seen, t) == After(seen + events, RunLoop(env, config, resuming, s, budget.remaining))
    {
      hide RunLoop;
      if done.None? {
        AfterAfter(seen, events, RunLoop(env, config, resuming, s, budget.remaining));
      }
    }

    /** The provider call of a turn and what follows it. */
    method CallProvider(resuming: bool, log: MessageLog, system: string, toolCount: nat)
      returns (done: Option<Outcome>, newSystem: string, ghost events: seq<Event>)
      requires Valid()
      modifies `clock, `snapshot, compressor, observer, workspace, log
      ensures observer.events == old(observer.events) + events
      ensures Progress(ProviderPhase(env, config, resuming, old(State(log, system)), toolCount, budget.remaining + 1),
                       resuming, done, State(log, newSystem), events)
    {
      hide RunLoop, ProviderPhase, ToolPhase, Enumerates;
      ghost var s := State(log, system);
      ProviderUnfolds(env, config, resuming, s, toolCount, budget.remaining + 1);
      newSystem := system;
      var reply := env.provider(clock, system, log.messages);
      observer.Record(ProviderCalled(system, log.messages));
      clock := clock + 1;
      if reply.Err? {
        return Some(Failed(reply.error)), newSystem, [ProviderCalled(s.system, s.history)];
      }
      var response := reply.value;
      log.Push(AssistantMessage(response));
      observer.Record(Checkpointed(log.messages));
      events := [ProviderCalled(s.system, s.history), Checkpointed(log.messages)];
      if response.toolCalls == [] {
        return Some(Answer(response.content)), newSystem, events;
      }
      events := events + ToolPhase(env, config, State(log, system), response.toolCalls, toolCount).1;
      newSystem := RunTools(response.toolCalls, log, newSystem, toolCount);
      done := None;
    }

    /** The loop body, once a turn is consumed. */
    method LoopBody(resuming: bool, log: MessageLog, system: string)
      returns (done: Option<Outcome>, newSystem: string, ghost events: seq<Event>)
      requires Valid()
      modifies `clock, `snapshot, compressor, observer, workspace, log
      ensures observer.events == old(observer.events) + events
      ensures Progress(RunLoop(env, config, resuming, old(State(log, system)), budget.remaining + 1),
                       resuming, done, State(log, newSystem), events)
    {
      hide RunLoop, ProviderPhase, PendingPhase, ToolPhase, Enumerates, PendingToolCalls, TurnIsComplete;
      ghost var s := State(log, system);
      LoopUnfolds(env, config, resuming, s, budget.remaining + 1);
      newSystem := system;
      var toolCount := env.toolCount(clock);
      if resuming && TurnIsComplete(log.messages) {
        var text := LatestAssistantText(log.messages);
        return Some(if text.Some? then Answer(text.value) else Exhausted), newSystem, [];
      }
      var pending := PendingToolCalls(log.messages);
      PendingUnfolds(env, config, s, toolCount);
      ghost var front := PendingPhase(env, config, s, toolCount).1;
      if pending != [] {
        newSystem := RunTools(pending, log, newSystem, toolCount);
      }
      done, newSystem, events := CallProvider(resuming, log, newSystem, toolCount);
      AfterAfter(front, events, RunLoop(env, config, resuming, State(log, newSystem), budget.remaining));
      events := front + events;
    }

    method Loop(resuming: bool, log: MessageLog, system: string) returns (outcome: Outcome, ghost t: TurnEnd)
      requires Valid()
      modifies `clock, `snapshot, budget, compressor, observer, workspace, log
      ensures Valid()
      ensures t == RunLoop(env, config, resuming, old(State(log, system)), old(budget.remaining))
      ensures outcome == t.outcome && budget.remaining == t.budget
      ensures State(log, t.state.system) == t.state
      ensures observer.events == old(observer.events) + t.events
    {
      hide RunLoop, Enumerates, Progress;
      var fullSystem := system;
      ghost var before := observer.events;
      ghost var seen: seq<Event> := [];
      t := RunLoop(env, config, resuming, State(log, system), budget.remaining);
      EmptyConcat(t.events);
      while true
        invariant Valid()
        invariant observer.events == before + seen
        invariant t == After(seen, RunLoop(env, config, resuming, State(log, fullSystem), budget.remaining))
        decreases budget.remaining
      {
        ghost var s := State(log, fullSystem);
        var consumed := budget.TryConsume();
        if !consumed {
          LoopUnfolds(env, config, resuming, s, 0);
          return Exhausted, t;
        }
        var done;
        ghost var events;
        done, fullSystem, events := LoopBody(resuming, log, fullSystem);
        ProgressAfter(seen, RunLoop(env, config, resuming, s, budget.remaining + 1), resuming, done,
                      State(log, fullSystem), events);
        seen := seen + events;
        if done.Some? {
          return done.value, t;
        }
      }
    }

    /** A whole turn.  The new state and everything observed are those of `Turn`. */
    method RunConversationInner(userMessage: Option<string>, log: MessageLog) returns (outcome: Outcome)
      requires Valid()
      modifies `clock, `snapshot, budget, compressor, observer, workspace, log
      ensures Valid()
      ensures var t := Turn(env, config, userMessage, old(State(log, "")), old(budget.remaining));
              && outcome == t.outcome
              && State(log, t.state.system) == t.state
              && budget.remaining == t.budget
              && observer.events == old(observer.events) + t.events
    {
      hide RunLoop, BuildSystem, Enumerates;
      if userMessage.Some? {
        log.Push(UserMessage(userMessage.value));
        observer.Record(Checkpointed(log.messages));
      }
      var fullSystem := BuildSystem(config.systemPrompt, snapshot);
      ghost var t;
      outcome, t := Loop(userMessage.None?, log, fullSystem);
    }
  }

  // One turn of the loop, as equations, so that the method's proof can treat the
  // functions themselves as opaque.

  lemma LoopUnfolds(env: Env, cfg: AgentConfig, resuming: bool, s: LoopState, budget: nat)
    ensures budget == 0 ==> RunLoop(env, cfg, resuming, s, budget) == TurnEnd(Exhausted, s, [], 0)
    ensures budget > 0 && resuming && TurnIsComplete(s.history) ==>
              var text := LatestAssistantText(s.history);
              RunLoop(env, cfg, resuming, s, budget)
              == TurnEnd(if text.Some? then Answer(text.value) else Exhausted, s, [], budget - 1)
    ensures budget > 0 && !(resuming && TurnIsComplete(s.history)) ==>
              var (s1, events) := PendingPhase(env, cfg, s, env.toolCount(s.clock));
              RunLoop(env, cfg, resuming, s, budget)
              == After(events, ProviderPhase(env, cfg, resuming, s1, env.toolCount(s.clock), budget))
  {
  }

  lemma PendingUnfolds(env: Env, cfg: AgentConfig, s: LoopState, toolCount: nat)
    ensures PendingPhase(env, cfg, s, toolCount)
            == if PendingToolCalls(s.history) == [] then (s, [])
               else ToolPhase(env, cfg, s, PendingToolCalls(s.history), toolCount)
  {
  }

  lemma ProviderUnfolds(env: Env, cfg: AgentConfig, resuming: bool, s: LoopState, toolCount: nat, budget: nat)
    requires budget > 0
    ensures match env.provider(s.clock, s.system, s.history)
            case Err(e) =>
              ProviderPhase(env, cfg, resuming, s, toolCount, budget)
              == TurnEnd(Failed(e), s.(clock := s.clock + 1), [ProviderCalled(s.system, s.history)], budget - 1)
            case Ok(r) =>
              var s1 := Answered(s, r);
              var events := [ProviderCalled(s.system, s.history), Checkpointed(s1.history)];
              if r.toolCalls == [] then
                ProviderPhase(env, cfg, resuming, s, toolCount, budget)
                == TurnEnd(Answer(r.content), s1, events, budget - 1)
              else
                var (s2, more) := ToolPhase(env, cfg, s1, r.toolCalls, toolCount);
                ProviderPhase(env, cfg, resuming, s, toolCount, budget)
                == After(events + more, RunLoop(env, cfg, resuming, s2, budget - 1))
  {
  }
}
