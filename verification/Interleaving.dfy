/** Tools that run concurrently take turns at their single steps, not only as a whole.
    When every step keeps to its call's path, no interleaving can be told from running
    the calls one after the other. */
module Interleaving {
  import opened Messages
  import opened PathConflicts
  import opened Parallel
  import opened IndexSort
  import opened ParallelTheorems
  import opened ParallelLimits

  /** A tool as a program: `steps` atomic steps on a local state and the files. */
  datatype Program<!L> = Program(
    start: ToolCall -> L,
    step: (ToolCall, nat, L, Files) -> (L, Files),
    steps: ToolCall -> nat,
    finish: (ToolCall, L) -> ToolResult)

  /** The first `n` steps of a call, with nobody else around. */
  function Alone<L>(t: Program<L>, c: ToolCall, n: nat, files: Files): (L, Files) {
    if n == 0 then (t.start(c), files)
    else
      var (l, f) := Alone(t, c, n - 1, files);
      t.step(c, n - 1, l, f)
  }

  /** The tool as one action. */
  function Whole<L>(t: Program<L>): Action {
    (c, f) =>
      var (l, after) := Alone(t, c, t.steps(c), f);
      (t.finish(c, l), after)
  }

  // ----- Taking turns -----

  /** How many steps of call `i` a schedule holds. */
  function Turns(schedule: seq<nat>, i: nat): nat {
    if schedule == [] then 0
    else Turns(schedule[..|schedule| - 1], i) + (if schedule[|schedule| - 1] == i then 1 else 0)
  }

  /** Each entry of the schedule lets that call do its next step. */
  function Interleaved<L>(t: Program<L>, calls: seq<ToolCall>, schedule: seq<nat>, files: Files)
    : (out: (seq<L>, Files))
    requires InRange(schedule, |calls|)
    ensures |out.0| == |calls|
  {
    if schedule == [] then (seq(|calls|, i requires 0 <= i < |calls| => t.start(calls[i])), files)
    else
      var n, i := |schedule| - 1, schedule[|schedule| - 1];
      var (locals, f) := Interleaved(t, calls, schedule[..n], files);
      var (l, after) := t.step(calls[i], Turns(schedule[..n], i), locals[i], f);
      (locals[i := l], after)
  }

  /** Every call gets exactly as many turns as it has steps. */
  predicate IsComplete<L>(t: Program<L>, calls: seq<ToolCall>, schedule: seq<nat>) {
    InRange(schedule, |calls|) && forall i: nat :: i < |calls| ==> Turns(schedule, i) == t.steps(calls[i])
  }

  /** Results in call order. */
  function ResultsOf<L>(t: Program<L>, calls: seq<ToolCall>, locals: seq<L>): (rs: seq<ToolCallResult>)
    requires |locals| == |calls|
    ensures |rs| == |calls|
    ensures forall k :: 0 <= k < |calls| ==> rs[k] == ResultOf(calls[k], t.finish(calls[k], locals[k]))
  {
    seq(|calls|, k requires 0 <= k < |calls| => ResultOf(calls[k], t.finish(calls[k], locals[k])))
  }

  // ----- Steps that keep to paths -----

  ghost predicate ConfinedSteps<L(!new)>(t: Program<L>, c: ToolCall, root: string) {
    && (forall n, l, f :: SameElsewhere(f, t.step(c, n, l, f).1, root))
    && (forall n, l, f, g :: SameUnder(f, g, root) ==>
          t.step(c, n, l, f).0 == t.step(c, n, l, g).0 && SameUnder(t.step(c, n, l, f).1, t.step(c, n, l, g).1, root))
  }

  ghost predicate UndisturbedSteps<L(!new)>(t: Program<L>, c: ToolCall, roots: seq<string>) {
    && (forall n, l, f :: t.step(c, n, l, f).1 == f)
    && (forall n, l, f, g :: SameOutside(f, g, roots) ==> t.step(c, n, l, f).0 == t.step(c, n, l, g).0)
  }

  ghost predicate StepsKeepToPaths<L(!new)>(t: Program<L>, calls: seq<ToolCall>, registry: Registry) {
    forall i :: 0 <= i < |calls| ==>
      if WritesAt(calls, registry, i) then ConfinedSteps(t, calls[i], calls[i].arguments.path.value)
      else UndisturbedSteps(t, calls[i], WritePaths(calls, registry))
  }

  lemma {:induction false} AloneIsConfined<L(!new)>(t: Program<L>, c: ToolCall, root: string, n: nat, f: Files,
                                                    g: Files)
    requires ConfinedSteps(t, c, root)
    ensures SameElsewhere(f, Alone(t, c, n, f).1, root)
    ensures SameUnder(f, g, root) ==>
              Alone(t, c, n, f).0 == Alone(t, c, n, g).0 && SameUnder(Alone(t, c, n, f).1, Alone(t, c, n, g).1, root)
  {
    hide Under, Lookup;
    if n > 0 {
      AloneIsConfined(t, c, root, n - 1, f, g);
      var (l, f') := Alone(t, c, n - 1, f);
      assert SameElsewhere(f', t.step(c, n - 1, l, f').1, root);
    }
  }

  lemma {:induction false} AloneIsUndisturbed<L(!new)>(t: Program<L>, c: ToolCall, roots: seq<string>, n: nat,
                                                       f: Files, g: Files)
    requires UndisturbedSteps(t, c, roots)
    ensures Alone(t, c, n, f).1 == f
    ensures SameOutside(f, g, roots) ==> Alone(t, c, n, f).0 == Alone(t, c, n, g).0
  {
    if n > 0 {
      AloneIsUndisturbed(t, c, roots, n - 1, f, g);
      AloneIsUndisturbed(t, c, roots, n - 1, g, f);
    }
  }

  /** Steps that keep to their paths make up actions that do. */
  lemma WholeKeepsToPaths<L(!new)>(t: Program<L>, calls: seq<ToolCall>, registry: Registry)
    requires StepsKeepToPaths(t, calls, registry)
    ensures KeepsToPaths(Whole(t), calls, registry)
  {
    hide SameElsewhere, SameUnder, SameOutside, Alone, ConfinedSteps, UndisturbedSteps;
    forall i | 0 <= i < |calls|
      ensures if WritesAt(calls, registry, i) then ConfinedWriter(Whole(t), calls[i], calls[i].arguments.path.value)
              else UndisturbedReader(Whole(t), calls[i], WritePaths(calls, registry))
    {
      var c := calls[i];
      forall f, g: Files
        ensures WritesAt(calls, registry, i) ==>
                  var root := c.arguments.path.value;
                  && SameElsewhere(f, Whole(t)(c, f).1, root)
                  && (SameUnder(f, g, root) ==>
                        Whole(t)(c, f).0 == Whole(t)(c, g).0 && SameUnder(Whole(t)(c, f).1, Whole(t)(c, g).1, root))
        ensures !WritesAt(calls, registry, i) ==>
                  && Whole(t)(c, f).1 == f
                  && (SameOutside(f, g, WritePaths(calls, registry)) ==> Whole(t)(c, f).0 == Whole(t)(c, g).0)
      {
        if WritesAt(calls, registry, i) {
          AloneIsConfined(t, c, c.arguments.path.value, t.steps(c), f, g);
        } else {
          AloneIsUndisturbed(t, c, WritePaths(calls, registry), t.steps(c), f, g);
        }
      }
    }
  }

  // ----- Every call runs as if alone -----

  predicate NobodyWrites(calls: seq<ToolCall>, registry: Registry, p: string) {
    forall i :: 0 <= i < |calls| && WritesAt(calls, registry, i) ==> !Under(calls[i].arguments.path.value, p)
  }

  /** So far each call stands where it would stand alone, in its local state and region. */
  ghost predicate EachAsAlone<L(!new)>(t: Program<L>, calls: seq<ToolCall>, registry: Registry, schedule: seq<nat>,
                                        files: Files, locals: seq<L>, after: Files)
  {
    && |locals| == |calls|
    && (forall i :: 0 <= i < |calls| ==> locals[i] == Alone(t, calls[i], Turns(schedule, i), files).0)
    && (forall i :: 0 <= i < |calls| && WritesAt(calls, registry, i) ==>
          SameUnder(after, Alone(t, calls[i], Turns(schedule, i), files).1, calls[i].arguments.path.value))
    && (forall p :: NobodyWrites(calls, registry, p) ==> Lookup(after, p) == Lookup(files, p))
  }

  /** One more turn of call `i`. */
  lemma TurnAsAlone<L(!new)>(t: Program<L>, calls: seq<ToolCall>, registry: Registry, schedule: seq<nat>, i: nat,
                               files: Files, locals: seq<L>, before: Files)
    requires StepsKeepToPaths(t, calls, registry) && i < |calls|
    requires EachAsAlone(t, calls, registry, schedule, files, locals, before)
    ensures var n := Turns(schedule, i);
            var (l, after) := t.step(calls[i], n, locals[i], before);
            var (l', alone) := Alone(t, calls[i], n + 1, files);
            && l == l'
            && (if WritesAt(calls, registry, i) then
                  && SameUnder(after, alone, calls[i].arguments.path.value)
                  && SameElsewhere(before, after, calls[i].arguments.path.value)
                else after == before)
  {
    hide Under, Lookup;
    var n, c := Turns(schedule, i), calls[i];
    var (l', alone) := Alone(t, c, n, files);
    if WritesAt(calls, registry, i) {
      var root := c.arguments.path.value;
      assert SameUnder(before, alone, root);
      assert SameElsewhere(before, t.step(c, n, locals[i], before).1, root);
    } else {
      var roots := WritePaths(calls, registry);
      AloneIsUndisturbed(t, c, roots, n, files, files);
      forall p | forall k :: 0 <= k < |roots| ==> !Under(roots[k], p) ensures Lookup(before, p) == Lookup(files, p) {
        WritePathsComplete(calls, registry);
        assert NobodyWrites(calls, registry, p);
      }
      assert SameOutside(before, files, roots);
    }
  }

  lemma {:induction false} InterleavedAsAlone<L(!new)>(t: Program<L>, calls: seq<ToolCall>, registry: Registry,
                                                 schedule: seq<nat>, files: Files)
    requires StepsKeepToPaths(t, calls, registry) && !Conflicting(WritePaths(calls, registry))
    requires InRange(schedule, |calls|)
    ensures var (locals, after) := Interleaved(t, calls, schedule, files);
            EachAsAlone(t, calls, registry, schedule, files, locals, after)
  {
    hide Under, Lookup, Conflicting, StepsKeepToPaths, EachAsAlone;
    if schedule == [] {
      NobodyRan(t, calls, registry, files);
    } else {
      var n, i := |schedule| - 1, schedule[|schedule| - 1];
      var front := schedule[..n];
      InterleavedAsAlone(t, calls, registry, front, files);
      var (locals, before) := Interleaved(t, calls, front, files);
      TurnAsAlone(t, calls, registry, front, i, files, locals, before);
      TurnExtends(t, calls, registry, schedule, files, locals, before);
    }
  }

  lemma NobodyRan<L(!new)>(t: Program<L>, calls: seq<ToolCall>, registry: Registry, files: Files)
    ensures var (locals, after) := Interleaved(t, calls, [], files);
            EachAsAlone(t, calls, registry, [], files, locals, after)
  {
    hide Under, Lookup;
  }

  lemma TurnExtends<L(!new)>(t: Program<L>, calls: seq<ToolCall>, registry: Registry, schedule: seq<nat>, files: Files,
                             locals: seq<L>, before: Files)
    requires !Conflicting(WritePaths(calls, registry)) && schedule != [] && InRange(schedule, |calls|)
    requires EachAsAlone(t, calls, registry, schedule[..|schedule| - 1], files, locals, before)
    requires var n, i := |schedule| - 1, schedule[|schedule| - 1];
             var m := Turns(schedule[..n], i);
             var (l, after) := t.step(calls[i], m, locals[i], before);
             var (l', alone) := Alone(t, calls[i], m + 1, files);
             && l == l'
             && (if WritesAt(calls, registry, i) then
                   && SameUnder(after, alone, calls[i].arguments.path.value)
                   && SameElsewhere(before, after, calls[i].arguments.path.value)
                 else after == before)
    ensures var n, i := |schedule| - 1, schedule[|schedule| - 1];
            var (l, after) := t.step(calls[i], Turns(schedule[..n], i), locals[i], before);
            EachAsAlone(t, calls, registry, schedule, files, locals[i := l], after)
  {
    hide Under, Lookup, Conflicting, Alone;
    var n, i := |schedule| - 1, schedule[|schedule| - 1];
    var after := t.step(calls[i], Turns(schedule[..n], i), locals[i], before).1;
    forall j | 0 <= j < |calls| && WritesAt(calls, registry, j)
      ensures SameUnder(after, Alone(t, calls[j], Turns(schedule, j), files).1, calls[j].arguments.path.value)
    {
      if j != i {
        OtherRegionStays(calls, registry, i, j, before, after);
      }
    }
  }

  lemma OtherRegionStays(calls: seq<ToolCall>, registry: Registry, i: nat, j: nat, before: Files, after: Files)
    requires !Conflicting(WritePaths(calls, registry)) && i < |calls| && i != j && WritesAt(calls, registry, j)
    requires if WritesAt(calls, registry, i) then SameElsewhere(before, after, calls[i].arguments.path.value)
             else after == before
    ensures SameUnder(after, before, calls[j].arguments.path.value)
  {
    hide Under, Lookup, Conflicting;
    if WritesAt(calls, registry, i) {
      forall p | Under(calls[j].arguments.path.value, p) ensures Lookup(after, p) == Lookup(before, p) {
        WriterRegionsDisjoint(calls, registry, i, j, p);
      }
    }
  }

  // ----- The main result -----

  lemma SameInRegion<L(!new)>(t: Program<L>, calls: seq<ToolCall>, registry: Registry, schedule: seq<nat>,
                              files: Files, i: nat, p: string)
    requires StepsKeepToPaths(t, calls, registry) && !Conflicting(WritePaths(calls, registry))
    requires IsComplete(t, calls, schedule)
    requires WritesAt(calls, registry, i) && Under(calls[i].arguments.path.value, p)
    ensures Lookup(Interleaved(t, calls, schedule, files).1, p) == Lookup(RunInSequence(calls, Whole(t), files).1, p)
  {
    hide Under, Lookup, Conflicting, StepsKeepToPaths, KeepsToPaths, RunOrder, Interleaved, Turns, Alone;
    InterleavedAsAlone(t, calls, registry, schedule, files);
    WholeKeepsToPaths(t, calls, registry);
    RegionAfter(calls, registry, Whole(t), Ascending(|calls|), files, i);
  }

  lemma SameOutsideRegions<L(!new)>(t: Program<L>, calls: seq<ToolCall>, registry: Registry, schedule: seq<nat>,
                                    files: Files, p: string)
    requires StepsKeepToPaths(t, calls, registry) && !Conflicting(WritePaths(calls, registry))
    requires IsComplete(t, calls, schedule) && NobodyWrites(calls, registry, p)
    ensures Lookup(Interleaved(t, calls, schedule, files).1, p) == Lookup(RunInSequence(calls, Whole(t), files).1, p)
  {
    hide Under, Lookup, Conflicting, StepsKeepToPaths, KeepsToPaths, RunOrder, Interleaved, Turns, Alone, SameUnder;
    var inOrder := Ascending(|calls|);
    InterleavedAsAlone(t, calls, registry, schedule, files);
    WholeKeepsToPaths(t, calls, registry);
    AnyOrderRunsAlone(calls, registry, Whole(t), inOrder, files);
    assert Untouched(calls, registry, inOrder, p);
  }

  /** Main result: for every interleaving of the steps of admitted calls, the results and
      the files are those of running the calls one after the other. */
  lemma InterleavingRefinesSequential<L(!new)>(t: Program<L>, calls: seq<ToolCall>, registry: Registry,
                                                 schedule: seq<nat>, files: Files)
    requires MayParallelize(calls, registry) && StepsKeepToPaths(t, calls, registry)
    requires IsComplete(t, calls, schedule)
    ensures var (locals, after) := Interleaved(t, calls, schedule, files);
            (ResultsOf(t, calls, locals), after) == RunInSequence(calls, Whole(t), files)
  {
    hide Conflicting, StepsKeepToPaths, RunOrder, Interleaved, Lookup, SortByIndex, KeepsToPaths, Turns, Under;
    var (locals, after) := Interleaved(t, calls, schedule, files);
    var inOrder := Ascending(|calls|);
    InterleavedAsAlone(t, calls, registry, schedule, files);
    WholeKeepsToPaths(t, calls, registry);
    AnyOrderRunsAlone(calls, registry, Whole(t), inOrder, files);
    var (rs, end) := RunInSequence(calls, Whole(t), files);
    forall k | 0 <= k < |calls| ensures rs[k] == ResultsOf(t, calls, locals)[k] {
      assert inOrder[k] == k;
    }
    assert rs == ResultsOf(t, calls, locals);
    forall p ensures Lookup(after, p) == Lookup(end, p) {
      if i: nat :| WritesAt(calls, registry, i) && Under(calls[i].arguments.path.value, p) {
        SameInRegion(t, calls, registry, schedule, files, i, p);
      } else {
        SameOutsideRegions(t, calls, registry, schedule, files, p);
      }
    }
    SameFiles(after, end);
  }
}
