/** Running the tool calls of one assistant message, in order or concurrently.
    Tools act on a shared file map; a concurrent task takes effect when it
    completes, so one run is one completion order. */
module Parallel {
  import opened Wrappers
  import opened Messages
  import opened PathConflicts
  import opened IndexSort
  import opened Sequences

  const NEVER_PARALLEL := "clarify"

  datatype ToolInfo = ToolInfo(isExclusive: bool, isReadOnly: bool)

  /** Tools by name; a call may name a tool that is not registered. */
  type Registry = map<string, ToolInfo>

  datatype ToolCallResult = ToolCallResult(callId: string, toolName: string, result: ToolResult)

  type Files = map<string, string>

  /** What running a call does: its result and the files afterwards. */
  type Action = (ToolCall, Files) -> (ToolResult, Files)

  class Workspace {
    var files: Files

    constructor (f: Files)
      ensures files == f
    {
      files := f;
    }
  }

  // ----- May the calls run concurrently? -----

  predicate IsExclusive(c: ToolCall, registry: Registry) {
    c.name in registry && registry[c.name].isExclusive
  }

  /** Unregistered tools count as writers. */
  predicate IsWriter(c: ToolCall, registry: Registry) {
    c.name in registry ==> !registry[c.name].isReadOnly
  }

  /** Paths of the writers that carry one. */
  function WritePaths(calls: seq<ToolCall>, registry: Registry): seq<string> {
    if calls == [] then []
    else (if IsWriter(calls[0], registry) && calls[0].arguments.path.Some? then [calls[0].arguments.path.value] else [])
         + WritePaths(calls[1..], registry)
  }

  predicate MayParallelize(calls: seq<ToolCall>, registry: Registry) {
    && |calls| > 1
    && (forall c :: c in calls ==> c.name != NEVER_PARALLEL)
    && (forall c :: c in calls ==> !IsExclusive(c, registry))
    && !Conflicting(WritePaths(calls, registry))
  }

  /** A call that writes, or may write, a file: a read-only tool is registered as such. */
  predicate MayWrite(c: ToolCall, registry: Registry, path: string) {
    c.arguments.path == Some(path) && (c.name in registry ==> !registry[c.name].isReadOnly)
  }

  /** Two calls in different positions may write overlapping paths. */
  ghost predicate WritesMeet(calls: seq<ToolCall>, registry: Registry) {
    exists i, j, a, b :: 0 <= i < j < |calls| && MayWrite(calls[i], registry, a) && MayWrite(calls[j], registry, b)
                         && Overlap(a, b)
  }

  lemma {:induction false} ListedWrites(calls: seq<ToolCall>, registry: Registry, path: string)
    ensures path in WritePaths(calls, registry) <==> exists k :: 0 <= k < |calls| && MayWrite(calls[k], registry, path)
  {
    if calls != [] {
      HeadAndTail(calls);
      ListedWrites(calls[1..], registry, path);
      if k :| 0 <= k < |calls| && MayWrite(calls[k], registry, path) {
        assert k > 0 ==> MayWrite(calls[1..][k - 1], registry, path);
      }
      if k :| 0 <= k < |calls| - 1 && MayWrite(calls[1..][k], registry, path) {
        assert MayWrite(calls[k + 1], registry, path);
      }
    }
  }

  lemma ConflictingCons(path: string, rest: seq<string>)
    ensures Conflicting([path] + rest) <==> (exists b :: b in rest && Overlap(path, b)) || Conflicting(rest)
  {
    var all := [path] + rest;
    if i, j :| 0 <= i < j < |all| && Overlap(all[i], all[j]) {
      assert all[j] == rest[j - 1];
      assert i > 0 ==> all[i] == rest[i - 1];
    }
    if b :| b in rest && Overlap(path, b) {
      var j :| 0 <= j < |rest| && rest[j] == b;
      assert all[0] == path && all[j + 1] == b;
    }
    if i, j :| 0 <= i < j < |rest| && Overlap(rest[i], rest[j]) {
      assert all[i + 1] == rest[i] && all[j + 1] == rest[j];
    }
  }

  lemma WritesMeetCons(calls: seq<ToolCall>, registry: Registry)
    requires calls != []
    ensures WritesMeet(calls, registry) <==>
            WritesMeet(calls[1..], registry)
            || exists j, a, b :: 0 < j < |calls| && MayWrite(calls[0], registry, a) && MayWrite(calls[j], registry, b)
                                 && Overlap(a, b)
  {
    hide MayWrite, Overlap;
    var rest := calls[1..];
    if i, j, a, b :| 0 <= i < j < |calls| && MayWrite(calls[i], registry, a) && MayWrite(calls[j], registry, b)
                     && Overlap(a, b)
    {
      assert calls[j] == rest[j - 1];
      assert i > 0 ==> calls[i] == rest[i - 1];
    }
    if i, j, a, b :| 0 <= i < j < |rest| && MayWrite(rest[i], registry, a) && MayWrite(rest[j], registry, b)
                     && Overlap(a, b)
    {
      assert calls[i + 1] == rest[i] && calls[j + 1] == rest[j];
    }
  }

  /** The list of written paths holds two overlapping ones exactly when two calls do. */
  lemma {:induction false} ConflictsAreWrites(calls: seq<ToolCall>, registry: Registry)
    ensures Conflicting(WritePaths(calls, registry)) <==> WritesMeet(calls, registry)
  {
    hide Overlap;
    if calls != [] {
      var rest := WritePaths(calls[1..], registry);
      ConflictsAreWrites(calls[1..], registry);
      WritesMeetCons(calls, registry);
      EmptyConcat(rest);
      if IsWriter(calls[0], registry) && calls[0].arguments.path.Some? {
        var path := calls[0].arguments.path.value;
        ConflictingCons(path, rest);
        FirstMeets(calls, registry, path);
      }
    }
  }

  lemma FirstMeets(calls: seq<ToolCall>, registry: Registry, path: string)
    requires calls != []
    ensures (exists b :: b in WritePaths(calls[1..], registry) && Overlap(path, b))
       <==> exists j, b :: 0 < j < |calls| && MayWrite(calls[j], registry, b) && Overlap(path, b)
  {
    hide Overlap, MayWrite;
    var rest := WritePaths(calls[1..], registry);
    if b :| b in rest && Overlap(path, b) {
      ListedWrites(calls[1..], registry, b);
      var k :| 0 <= k < |calls| - 1 && MayWrite(calls[1..][k], registry, b);
      assert calls[k + 1] == calls[1..][k];
    }
    if j, b :| 0 < j < |calls| && MayWrite(calls[j], registry, b) && Overlap(path, b) {
      assert calls[1..][j - 1] == calls[j];
      ListedWrites(calls[1..], registry, b);
    }
  }

  /** Exactly which calls may run at the same time. */
  lemma AdmittedIff(calls: seq<ToolCall>, registry: Registry)
    ensures MayParallelize(calls, registry) <==>
            && 2 <= |calls|
            && (forall c :: c in calls ==> c.name != "clarify" && !(c.name in registry && registry[c.name].isExclusive))
            && !WritesMeet(calls, registry)
  {
    hide Conflicting, WritePaths, WritesMeet;
    ConflictsAreWrites(calls, registry);
  }

  method ShouldParallelize(calls: seq<ToolCall>, registry: Registry) returns (b: bool)
    ensures b <==> MayParallelize(calls, registry)
    ensures b <==>
            && 2 <= |calls|
            && (forall c :: c in calls ==> c.name != "clarify" && !(c.name in registry && registry[c.name].isExclusive))
            && !WritesMeet(calls, registry)
  {
    AdmittedIff(calls, registry);
    if |calls| <= 1 {
      return false;
    }
    if exists c :: c in calls && c.name == NEVER_PARALLEL {
      return false;
    }
    if exists c :: c in calls && IsExclusive(c, registry) {
      return false;
    }
    var conflict := HasPathConflicts(WritePaths(calls, registry));
    return !conflict;
  }

  // ----- One completion order -----

  type Indexed = (nat, ToolCallResult)

  function ResultOf(c: ToolCall, r: ToolResult): ToolCallResult {
    ToolCallResult(c.id, c.name, r)
  }

  predicate InRange(order: seq<nat>, n: nat) {
    forall k :: 0 <= k < |order| ==> order[k] < n
  }

  /** Runs the calls whose positions `order` lists, in that order. */
  function RunOrder(calls: seq<ToolCall>, act: Action, order: seq<nat>, files: Files): (out: (seq<Indexed>, Files))
    requires InRange(order, |calls|)
    ensures |out.0| == |order|
    ensures forall k :: 0 <= k < |order| ==> out.0[k].0 == order[k]
  {
    if order == [] then ([], files)
    else
      var last := order[|order| - 1];
      var (done, before) := RunOrder(calls, act, order[..|order| - 1], files);
      var (r, after) := act(calls[last], before);
      (done + [(last, ResultOf(calls[last], r))], after)
  }

  function Ascending(n: nat): (s: seq<nat>)
    ensures |s| == n && forall k :: 0 <= k < n ==> s[k] == k
  {
    seq(n, k => k)
  }

  /** Every call once, in any order. */
  predicate CompletionOrder(order: seq<nat>, n: nat) {
    |order| == n && InRange(order, n) && forall i, j :: 0 <= i < j < n ==> order[i] != order[j]
  }

  /** What sequential execution returns and leaves behind. */
  function RunInSequence(calls: seq<ToolCall>, act: Action, files: Files): (seq<ToolCallResult>, Files) {
    var (done, after) := RunOrder(calls, act, Ascending(|calls|), files);
    (Results(done), after)
  }

  /** What concurrent execution returns and leaves behind, for one completion order. */
  function RunAtOnce(calls: seq<ToolCall>, act: Action, order: seq<nat>, files: Files): (seq<ToolCallResult>, Files)
    requires InRange(order, |calls|)
  {
    var (done, after) := RunOrder(calls, act, order, files);
    (Results(SortByIndex(done)), after)
  }

  function Results(done: seq<Indexed>): (rs: seq<ToolCallResult>)
    ensures |rs| == |done|
    ensures forall k :: 0 <= k < |done| ==> rs[k] == done[k].1
  {
    seq(|done|, k requires 0 <= k < |done| => done[k].1)
  }

  // ----- Sorting results by call position -----

  lemma {:induction false} StrictlySortedBelow(xs: seq<Indexed>, n: nat, k: nat)
    requires StrictlySorted(xs) && |xs| == n && forall x :: x in xs ==> x.0 < n
    requires k < n
    ensures xs[n - 1 - k].0 == n - 1 - k || xs[n - 1 - k].0 < n - 1 - k
    decreases k
  {
    assert xs[n - 1 - k] in xs;
    if k > 0 {
      StrictlySortedBelow(xs, n, k - 1);
    }
  }

  lemma {:induction false} StrictlySortedAbove(xs: seq<Indexed>, k: nat)
    requires StrictlySorted(xs) && k < |xs|
    ensures xs[k].0 >= k
  {
    if k > 0 {
      StrictlySortedAbove(xs, k - 1);
    }
  }

  /** Distinct indices below `n`, `n` of them: sorting puts index `k` at position `k`. */
  lemma SortRestoresOrder(xs: seq<Indexed>, n: nat)
    requires |xs| == n && (forall x :: x in xs ==> x.0 < n)
    requires forall i, j :: 0 <= i < j < n ==> xs[i].0 != xs[j].0
    ensures |SortByIndex(xs)| == n
    ensures forall k :: 0 <= k < n ==> SortByIndex(xs)[k] in xs && SortByIndex(xs)[k].0 == k
  {
    SortByIndexSorts(xs);
    var s := SortByIndex(xs);
    forall x | x in s ensures x in xs {
      assert x in multiset(s);
    }
    forall k | 0 <= k < n ensures s[k] in xs && s[k].0 == k {
      assert s[k] in s;
      StrictlySortedAbove(s, k);
      StrictlySortedBelow(s, n, n - 1 - k);
    }
  }

  // ----- Execution in place -----

  /** One by one, in call order. */
  method ExecuteSequential(calls: seq<ToolCall>, act: Action, ws: Workspace) returns (results: seq<ToolCallResult>)
    modifies ws
    ensures (results, ws.files) == RunInSequence(calls, act, old(ws.files))
  {
    ghost var files := ws.files;
    results := [];
    for i := 0 to |calls|
      invariant RunOrder(calls, act, Ascending(i), files).1 == ws.files
      invariant Results(RunOrder(calls, act, Ascending(i), files).0) == results
    {
      var (r, after) := act(calls[i], ws.files);
      SequentialStep(calls, act, files, i);
      ws.files := after;
      results := results + [ResultOf(calls[i], r)];
    }
  }

  lemma SequentialStep(calls: seq<ToolCall>, act: Action, files: Files, i: nat)
    requires i < |calls|
    ensures var (done, before) := RunOrder(calls, act, Ascending(i), files);
            var (r, after) := act(calls[i], before);
            && RunOrder(calls, act, Ascending(i + 1), files).1 == after
            && Results(RunOrder(calls, act, Ascending(i + 1), files).0) == Results(done) + [ResultOf(calls[i], r)]
  {
    assert Ascending(i + 1)[..i] == Ascending(i);
  }

  function Positions(n: nat): (s: set<nat>)
    ensures |s| == n && forall i: nat :: i in s <==> i < n
  {
    if n == 0 then {} else Positions(n - 1) + {n - 1}
  }

  lemma NothingRan(calls: seq<ToolCall>, act: Action, files: Files)
    ensures RunOrder(calls, act, [], files) == ([], files)
  {
  }

  lemma CompletionStep(calls: seq<ToolCall>, act: Action, order: seq<nat>, idx: nat, files: Files)
    requires InRange(order, |calls|) && idx < |calls|
    ensures var next := order + [idx];
            var (done, before) := RunOrder(calls, act, order, files);
            var (r, after) := act(calls[idx], before);
            && InRange(next, |calls|)
            && RunOrder(calls, act, next, files) == (done + [(idx, ResultOf(calls[idx], r))], after)
  {
    var next := order + [idx];
    assert next[..|next| - 1] == order;
  }

  /** All at once: the tasks complete in whatever `order` it happens to be, and their
      results are sorted back into call order. */
  method ExecuteParallel(calls: seq<ToolCall>, act: Action, order: seq<nat>, ws: Workspace)
    returns (results: seq<ToolCallResult>)
    requires CompletionOrder(order, |calls|)
    modifies ws
    ensures (results, ws.files) == RunAtOnce(calls, act, order, old(ws.files))
  {
    hide RunOrder, ResultOf;
    ghost var files := ws.files;
    var indexed: seq<Indexed> := [];
    NothingRan(calls, act, files);
    for k := 0 to |order|
      invariant InRange(order[..k], |calls|)
      invariant (indexed, ws.files) == RunOrder(calls, act, order[..k], files)
    {
      var idx := order[k];
      var (r, after) := act(calls[idx], ws.files);
      CompletionStep(calls, act, order[..k], idx, files);
      assert order[..k + 1] == order[..k] + [idx];
      indexed := indexed + [(idx, ResultOf(calls[idx], r))];
      ws.files := after;
    }
    assert order[..|order|] == order;
    results := Results(SortByIndex(indexed));
  }

  // ----- Each call acts on what the calls before it left -----

  /** `trail` holds the files before and after each of the calls that ran. */
  ghost predicate IsTrail(calls: seq<ToolCall>, act: Action, order: seq<nat>, files: Files, trail: seq<Files>)
    requires InRange(order, |calls|)
  {
    && |trail| == |order| + 1 && trail[0] == files
    && (forall k :: 0 <= k < |order| ==> trail[k + 1] == act(calls[order[k]], trail[k]).1)
  }

  /** Every call reports, at its own position, what it said on the files it found. */
  ghost predicate ReportsAlong(calls: seq<ToolCall>, act: Action, order: seq<nat>, trail: seq<Files>,
                               results: seq<ToolCallResult>)
    requires InRange(order, |calls|) && |results| == |calls| && |trail| == |order| + 1
  {
    forall k :: 0 <= k < |order| ==>
      results[order[k]] == ToolCallResult(calls[order[k]].id, calls[order[k]].name, act(calls[order[k]], trail[k]).0)
  }

  /** The calls take effect one after the other in this order, each on the files that
      the one before left. */
  ghost predicate TakeEffect(calls: seq<ToolCall>, act: Action, order: seq<nat>, files: Files,
                             results: seq<ToolCallResult>, after: Files)
    requires InRange(order, |calls|)
  {
    && |results| == |calls|
    && exists trail ::
         IsTrail(calls, act, order, files, trail) && trail[|order|] == after
         && ReportsAlong(calls, act, order, trail, results)
  }

  lemma {:induction false} RunsAlongTrail(calls: seq<ToolCall>, act: Action, order: seq<nat>, files: Files,
                                          trail: seq<Files>)
    requires InRange(order, |calls|) && IsTrail(calls, act, order, files, trail)
    ensures var (done, after) := RunOrder(calls, act, order, files);
            && after == trail[|order|]
            && forall k :: 0 <= k < |order| ==>
                 done[k].1 == ResultOf(calls[order[k]], act(calls[order[k]], trail[k]).0)
  {
    if order != [] {
      var front := order[..|order| - 1];
      RunsAlongTrail(calls, act, front, files, trail[..|order|]);
      assert forall k :: 0 <= k < |front| ==> front[k] == order[k];
    }
  }

  lemma {:induction false} TrailExists(calls: seq<ToolCall>, act: Action, order: seq<nat>, files: Files)
    requires InRange(order, |calls|)
    ensures exists trail :: IsTrail(calls, act, order, files, trail)
  {
    if order == [] {
      assert IsTrail(calls, act, order, files, [files]);
    } else {
      var front, last := order[..|order| - 1], order[|order| - 1];
      TrailExists(calls, act, front, files);
      var trail :| IsTrail(calls, act, front, files, trail);
      assert IsTrail(calls, act, order, files, trail + [act(calls[last], trail[|front|]).1]);
    }
  }

  lemma {:induction false} EveryPositionTaken(order: seq<nat>, n: nat, i: nat)
    requires CompletionOrder(order, n) && i < n
    ensures exists k :: 0 <= k < |order| && order[k] == i
  {
    var taken := set k | 0 <= k < n :: order[k];
    DistinctPositions(order, n, n);
    if i !in taken {
      SubsetSize(taken, Positions(n) - {i});
    }
  }

  lemma {:induction false} DistinctPositions(order: seq<nat>, n: nat, m: nat)
    requires CompletionOrder(order, n) && m <= n
    ensures |set k | 0 <= k < m :: order[k]| == m
  {
    if m > 0 {
      DistinctPositions(order, n, m - 1);
      assert (set k | 0 <= k < m :: order[k]) == (set k | 0 <= k < m - 1 :: order[k]) + {order[m - 1]};
    }
  }

  lemma {:induction false} SubsetSize(a: set<nat>, b: set<nat>)
    requires a <= b
    ensures |a| <= |b|
  {
    if a != {} {
      var x :| x in a;
      SubsetSize(a - {x}, b - {x});
    }
  }

  /** Running at once does exactly that, whatever the order of completion. */
  lemma AtOnceIff(calls: seq<ToolCall>, act: Action, order: seq<nat>, files: Files, results: seq<ToolCallResult>,
                  after: Files)
    requires CompletionOrder(order, |calls|)
    ensures TakeEffect(calls, act, order, files, results, after)
       <==> (results, after) == RunAtOnce(calls, act, order, files)
  {
    hide RunOrder, SortByIndex;
    TrailExists(calls, act, order, files);
    var trail :| IsTrail(calls, act, order, files, trail);
    RunsAlongTrail(calls, act, order, files, trail);
    var (done, left) := RunOrder(calls, act, order, files);
    SortRestoresOrder(done, |calls|);
    var rs := RunAtOnce(calls, act, order, files).0;
    forall k | 0 <= k < |order| ensures rs[order[k]] == done[k].1 {
      var x := SortByIndex(done)[order[k]];
      var m :| 0 <= m < |done| && done[m] == x;
    }
    if TakeEffect(calls, act, order, files, results, after) {
      SameTrail(calls, act, order, files, results, after, trail);
      forall i | 0 <= i < |calls| ensures results[i] == rs[i] {
        EveryPositionTaken(order, |calls|, i);
      }
      assert results == rs;
    }
  }

  lemma SameTrail(calls: seq<ToolCall>, act: Action, order: seq<nat>, files: Files, results: seq<ToolCallResult>,
                  after: Files, trail: seq<Files>)
    requires InRange(order, |calls|) && IsTrail(calls, act, order, files, trail)
    requires TakeEffect(calls, act, order, files, results, after)
    ensures after == trail[|order|]
    ensures forall k :: 0 <= k < |order| ==>
              results[order[k]] == ResultOf(calls[order[k]], act(calls[order[k]], trail[k]).0)
  {
    var other :| IsTrail(calls, act, order, files, other) && other[|order|] == after
                 && ReportsAlong(calls, act, order, other, results);
    TrailsAgree(calls, act, order, files, trail, other, |order|);
    forall k | 0 <= k < |order|
      ensures results[order[k]] == ResultOf(calls[order[k]], act(calls[order[k]], trail[k]).0)
    {
      TrailsAgree(calls, act, order, files, trail, other, k);
    }
  }

  lemma {:induction false} TrailsAgree(calls: seq<ToolCall>, act: Action, order: seq<nat>, files: Files,
                                       trail: seq<Files>, other: seq<Files>, k: nat)
    requires InRange(order, |calls|) && k <= |order|
    requires IsTrail(calls, act, order, files, trail) && IsTrail(calls, act, order, files, other)
    ensures trail[k] == other[k]
  {
    if k > 0 {
      TrailsAgree(calls, act, order, files, trail, other, k - 1);
    }
  }

  /** Running in sequence does it in call order. */
  lemma SequenceIff(calls: seq<ToolCall>, act: Action, files: Files, results: seq<ToolCallResult>, after: Files)
    ensures TakeEffect(calls, act, Ascending(|calls|), files, results, after)
       <==> (results, after) == RunInSequence(calls, act, files)
  {
    hide RunOrder;
    var order := Ascending(|calls|);
    TrailExists(calls, act, order, files);
    var trail :| IsTrail(calls, act, order, files, trail);
    RunsAlongTrail(calls, act, order, files, trail);
    if TakeEffect(calls, act, order, files, results, after) {
      SameTrail(calls, act, order, files, results, after, trail);
      var rs := RunInSequence(calls, act, files).0;
      forall i | 0 <= i < |calls| ensures results[i] == rs[i] {
        assert order[i] == i;
      }
      assert results == rs;
    }
  }

  // ----- Results come back one per call, in call order -----

  lemma {:induction false} IndexedNamesCall(calls: seq<ToolCall>, act: Action, order: seq<nat>, files: Files, k: nat)
    requires InRange(order, |calls|) && k < |order|
    ensures var x := RunOrder(calls, act, order, files).0[k];
            x.1.callId == calls[x.0].id && x.1.toolName == calls[x.0].name
  {
    if k < |order| - 1 {
      IndexedNamesCall(calls, act, order[..|order| - 1], files, k);
    }
  }

  lemma SequenceShape(calls: seq<ToolCall>, act: Action, files: Files)
    ensures var rs := RunInSequence(calls, act, files).0;
            && |rs| == |calls|
            && forall k :: 0 <= k < |calls| ==> rs[k].callId == calls[k].id && rs[k].toolName == calls[k].name
  {
    hide RunOrder;
    var rs := RunInSequence(calls, act, files).0;
    forall k | 0 <= k < |calls| ensures rs[k].callId == calls[k].id && rs[k].toolName == calls[k].name {
      IndexedNamesCall(calls, act, Ascending(|calls|), files, k);
    }
  }

  /** Whatever the completion order: one result per call, in call order, carrying
      that call's id and tool name. */
  lemma OneResultPerCall(calls: seq<ToolCall>, act: Action, order: seq<nat>, files: Files)
    requires CompletionOrder(order, |calls|)
    ensures var results := Results(SortByIndex(RunOrder(calls, act, order, files).0));
            && |results| == |calls|
            && forall k :: 0 <= k < |calls| ==> results[k].callId == calls[k].id && results[k].toolName == calls[k].name
  {
    var done := RunOrder(calls, act, order, files).0;
    forall x | x in done ensures x.0 < |calls| && x.1.callId == calls[x.0].id && x.1.toolName == calls[x.0].name {
      var k :| 0 <= k < |done| && done[k] == x;
      IndexedNamesCall(calls, act, order, files, k);
    }
    SortRestoresOrder(done, |calls|);
  }
}
