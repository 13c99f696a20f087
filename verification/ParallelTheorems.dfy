/** Concurrent execution of admitted calls is indistinguishable from sequential
    execution, when tools keep to the paths they declare. */
module ParallelTheorems {
  import opened Wrappers
  import opened Messages
  import opened PathConflicts
  import opened Parallel
  import opened IndexSort
  import opened Sequences

  function Lookup(f: Files, p: string): Option<string> {
    if p in f then Some(f[p]) else None
  }

  ghost predicate SameUnder(a: Files, b: Files, root: string) {
    forall p :: Under(root, p) ==> Lookup(a, p) == Lookup(b, p)
  }

  ghost predicate SameElsewhere(a: Files, b: Files, root: string) {
    forall p :: !Under(root, p) ==> Lookup(a, p) == Lookup(b, p)
  }

  /** A writer that looks at and changes only its path and what lies below it. */
  ghost predicate ConfinedWriter(act: Action, c: ToolCall, root: string) {
    && (forall f :: SameElsewhere(f, act(c, f).1, root))
    && (forall f, g :: SameUnder(f, g, root) ==>
          act(c, f).0 == act(c, g).0 && SameUnder(act(c, f).1, act(c, g).1, root))
  }

  ghost predicate SameOutside(a: Files, b: Files, roots: seq<string>) {
    forall p :: (forall k :: 0 <= k < |roots| ==> !Under(roots[k], p)) ==> Lookup(a, p) == Lookup(b, p)
  }

  /** A reader that changes nothing and looks at nothing the writers may change. */
  ghost predicate UndisturbedReader(act: Action, c: ToolCall, roots: seq<string>) {
    && (forall f :: act(c, f).1 == f)
    && (forall f, g :: SameOutside(f, g, roots) ==> act(c, f).0 == act(c, g).0)
  }

  /** A writer that names a path; other writers have nothing to be compared with. */
  predicate WritesAt(calls: seq<ToolCall>, registry: Registry, i: nat) {
    i < |calls| && IsWriter(calls[i], registry) && calls[i].arguments.path.Some?
  }

  ghost predicate KeepsToPaths(act: Action, calls: seq<ToolCall>, registry: Registry) {
    forall i :: 0 <= i < |calls| ==>
      if WritesAt(calls, registry, i) then ConfinedWriter(act, calls[i], calls[i].arguments.path.value)
      else UndisturbedReader(act, calls[i], WritePaths(calls, registry))
  }

  // ----- Admitted writers have disjoint regions -----

  lemma {:induction false} WritePathsComplete(calls: seq<ToolCall>, registry: Registry)
    ensures forall i: nat :: WritesAt(calls, registry, i) ==>
              calls[i].arguments.path.value in WritePaths(calls, registry)
    ensures forall p :: p in WritePaths(calls, registry) ==>
              exists i: nat :: WritesAt(calls, registry, i) && calls[i].arguments.path.value == p
  {
    if calls != [] {
      var rest := calls[1..];
      WritePathsComplete(rest, registry);
      forall i: nat | WritesAt(calls, registry, i)
        ensures calls[i].arguments.path.value in WritePaths(calls, registry)
      {
        if i > 0 {
          assert WritesAt(rest, registry, i - 1);
        }
      }
      forall p | p in WritePaths(calls, registry)
        ensures exists i: nat :: WritesAt(calls, registry, i) && calls[i].arguments.path.value == p
      {
        if p in WritePaths(rest, registry) {
          var i: nat :| WritesAt(rest, registry, i) && rest[i].arguments.path.value == p;
          assert WritesAt(calls, registry, i + 1);
        } else {
          assert WritesAt(calls, registry, 0);
        }
      }
    }
  }

  lemma ConflictCons(head: string, rest: seq<string>)
    requires !Conflicting([head] + rest)
    ensures !Conflicting(rest)
    ensures forall p :: p in rest ==> !Overlap(head, p)
  {
    var all := [head] + rest;
    forall i, j | 0 <= i < j < |rest| ensures !Overlap(rest[i], rest[j]) {
      assert !Overlap(all[i + 1], all[j + 1]);
    }
    forall p | p in rest ensures !Overlap(head, p) {
      var k :| 0 <= k < |rest| && rest[k] == p;
      assert !Overlap(all[0], all[k + 1]);
    }
  }

  lemma {:induction false} WritersDisjoint(calls: seq<ToolCall>, registry: Registry, i: nat, j: nat)
    requires !Conflicting(WritePaths(calls, registry))
    requires WritesAt(calls, registry, i) && WritesAt(calls, registry, j) && i < j
    ensures !Overlap(calls[i].arguments.path.value, calls[j].arguments.path.value)
  {
    var rest := calls[1..];
    WritePathsComplete(rest, registry);
    assert WritesAt(rest, registry, j - 1);
    if WritesAt(calls, registry, 0) {
      ConflictCons(calls[0].arguments.path.value, WritePaths(rest, registry));
    } else {
      EmptyConcat(WritePaths(rest, registry));
    }
    if i > 0 {
      assert WritesAt(rest, registry, i - 1);
      WritersDisjoint(rest, registry, i - 1, j - 1);
    }
  }

  lemma DisjointRegions(a: string, b: string, p: string)
    requires !Overlap(a, b)
    ensures !(Under(a, p) && Under(b, p))
  {
    if Under(a, p) && Under(b, p) {
      PrefixesCompare(Components(a), Components(b), Components(p));
    }
  }

  lemma PrefixesCompare<T>(x: seq<T>, y: seq<T>, z: seq<T>)
    requires x <= z && y <= z
    ensures x <= y || y <= x
  {
    assert |x| <= |y| ==> x == y[..|x|];
    assert |y| <= |x| ==> y == x[..|y|];
  }

  lemma WriterRegionsDisjoint(calls: seq<ToolCall>, registry: Registry, i: nat, j: nat, p: string)
    requires !Conflicting(WritePaths(calls, registry))
    requires WritesAt(calls, registry, i) && WritesAt(calls, registry, j) && i != j
    ensures !(Under(calls[i].arguments.path.value, p) && Under(calls[j].arguments.path.value, p))
  {
    if i < j {
      WritersDisjoint(calls, registry, i, j);
      DisjointRegions(calls[i].arguments.path.value, calls[j].arguments.path.value, p);
    } else {
      WritersDisjoint(calls, registry, j, i);
      DisjointRegions(calls[j].arguments.path.value, calls[i].arguments.path.value, p);
    }
  }

  // ----- What any order leaves behind -----

  /** No call of `order` writes at `p`. */
  predicate Untouched(calls: seq<ToolCall>, registry: Registry, order: seq<nat>, p: string)
  {
    forall k :: 0 <= k < |order| && WritesAt(calls, registry, order[k]) ==>
      !Under(calls[order[k]].arguments.path.value, p)
  }

  /** Each finished writer left its region as if it had run alone on `files`, the rest
      is as in `files`, and each result is as if its call had run alone. */
  ghost predicate AsIfAlone(calls: seq<ToolCall>, registry: Registry, act: Action, order: seq<nat>, files: Files,
                            done: seq<Indexed>, after: Files)
    requires InRange(order, |calls|)
  {
    && |done| == |order|
    && (forall p :: Untouched(calls, registry, order, p) ==> Lookup(after, p) == Lookup(files, p))
    && (forall k :: 0 <= k < |order| && WritesAt(calls, registry, order[k]) ==>
          SameUnder(after, act(calls[order[k]], files).1, calls[order[k]].arguments.path.value))
    && (forall k :: 0 <= k < |order| ==>
          done[k] == (order[k], ResultOf(calls[order[k]], act(calls[order[k]], files).0)))
  }

  predicate Distinct(order: seq<nat>) {
    forall i, j :: 0 <= i < j < |order| ==> order[i] != order[j]
  }

  /** A position not yet run sees its region as it was at the start. */
  lemma RegionStillOriginal(calls: seq<ToolCall>, registry: Registry, order: seq<nat>, i: nat, p: string)
    requires !Conflicting(WritePaths(calls, registry)) && InRange(order, |calls|)
    requires WritesAt(calls, registry, i) && Under(calls[i].arguments.path.value, p)
    requires forall k :: 0 <= k < |order| ==> order[k] != i
    ensures Untouched(calls, registry, order, p)
  {
    forall k | 0 <= k < |order| && WritesAt(calls, registry, order[k])
      ensures !Under(calls[order[k]].arguments.path.value, p)
    {
      WriterRegionsDisjoint(calls, registry, order[k], i, p);
    }
  }

  lemma OutsideWritersUntouched(calls: seq<ToolCall>, registry: Registry, order: seq<nat>, p: string)
    requires InRange(order, |calls|)
    requires forall k :: 0 <= k < |WritePaths(calls, registry)| ==> !Under(WritePaths(calls, registry)[k], p)
    ensures Untouched(calls, registry, order, p)
  {
    WritePathsComplete(calls, registry);
  }

  /** The last call of an order returns what it would have returned alone. */
  lemma LastCallAlone(calls: seq<ToolCall>, registry: Registry, act: Action, order: seq<nat>, last: nat,
                      files: Files, done: seq<Indexed>, before: Files)
    requires KeepsToPaths(act, calls, registry) && !Conflicting(WritePaths(calls, registry))
    requires InRange(order, |calls|) && last < |calls| && forall k :: 0 <= k < |order| ==> order[k] != last
    requires AsIfAlone(calls, registry, act, order, files, done, before)
    ensures act(calls[last], before).0 == act(calls[last], files).0
    ensures LastStep(calls, registry, act, last, files, before, act(calls[last], before).1)
  {
    hide Under;
    if WritesAt(calls, registry, last) {
      var root := calls[last].arguments.path.value;
      forall p | Under(root, p) ensures Lookup(before, p) == Lookup(files, p) {
        RegionStillOriginal(calls, registry, order, last, p);
      }
      assert SameUnder(before, files, root);
    } else {
      var roots := WritePaths(calls, registry);
      forall p | forall k :: 0 <= k < |roots| ==> !Under(roots[k], p) ensures Lookup(before, p) == Lookup(files, p) {
        OutsideWritersUntouched(calls, registry, order, p);
      }
      assert SameOutside(before, files, roots);
    }
  }

  lemma {:induction false} AnyOrderRunsAlone(calls: seq<ToolCall>, registry: Registry, act: Action, order: seq<nat>,
                                             files: Files)
    requires KeepsToPaths(act, calls, registry) && !Conflicting(WritePaths(calls, registry))
    requires InRange(order, |calls|) && Distinct(order)
    ensures var (done, after) := RunOrder(calls, act, order, files);
            AsIfAlone(calls, registry, act, order, files, done, after)
  {
    if order != [] {
      var n := |order| - 1;
      var last, front := order[n], order[..n];
      var (done, before) := RunOrder(calls, act, front, files);
      AnyOrderRunsAlone(calls, registry, act, front, files);
      LastCallAlone(calls, registry, act, front, last, files, done, before);
      ExtendAsIfAlone(calls, registry, act, order, files, done, before);
    }
  }

  /** What the last call did: its own region, and nothing else. */
  ghost predicate LastStep(calls: seq<ToolCall>, registry: Registry, act: Action, last: nat,
                           files: Files, before: Files, after: Files)
    requires last < |calls|
  {
    if WritesAt(calls, registry, last) then
      && SameUnder(after, act(calls[last], files).1, calls[last].arguments.path.value)
      && SameElsewhere(before, after, calls[last].arguments.path.value)
    else after == before
  }

  lemma ExtendUntouched(calls: seq<ToolCall>, registry: Registry, act: Action, order: seq<nat>, files: Files,
                        before: Files, after: Files, p: string)
    requires order != [] && InRange(order, |calls|) && Untouched(calls, registry, order, p)
    requires LastStep(calls, registry, act, order[|order| - 1], files, before, after)
    ensures Untouched(calls, registry, order[..|order| - 1], p)
    ensures Lookup(after, p) == Lookup(before, p)
  {
    hide Under, Lookup;
    var n := |order| - 1;
    assert WritesAt(calls, registry, order[n]) ==> !Under(calls[order[n]].arguments.path.value, p);
    forall k | 0 <= k < n && WritesAt(calls, registry, order[..n][k])
      ensures !Under(calls[order[..n][k]].arguments.path.value, p)
    {
      assert order[..n][k] == order[k];
    }
  }

  lemma ExtendWritten(calls: seq<ToolCall>, registry: Registry, act: Action, i: nat, last: nat, files: Files,
                      before: Files, after: Files)
    requires !Conflicting(WritePaths(calls, registry)) && last < |calls| && i != last
    requires WritesAt(calls, registry, i)
    requires SameUnder(before, act(calls[i], files).1, calls[i].arguments.path.value)
    requires LastStep(calls, registry, act, last, files, before, after)
    ensures SameUnder(after, act(calls[i], files).1, calls[i].arguments.path.value)
  {
    hide Under, Lookup, Conflicting;
    if WritesAt(calls, registry, last) {
      forall p | Under(calls[i].arguments.path.value, p) ensures Lookup(after, p) == Lookup(before, p) {
        WriterRegionsDisjoint(calls, registry, i, last, p);
      }
    }
  }

  lemma ExtendAsIfAlone(calls: seq<ToolCall>, registry: Registry, act: Action, order: seq<nat>, files: Files,
                        done: seq<Indexed>, before: Files)
    requires !Conflicting(WritePaths(calls, registry))
    requires order != [] && InRange(order, |calls|) && Distinct(order)
    requires AsIfAlone(calls, registry, act, order[..|order| - 1], files, done, before)
    requires var last := order[|order| - 1];
             && act(calls[last], before).0 == act(calls[last], files).0
             && LastStep(calls, registry, act, last, files, before, act(calls[last], before).1)
    ensures var last := order[|order| - 1];
            var (r, after) := act(calls[last], before);
            AsIfAlone(calls, registry, act, order, files, done + [(last, ResultOf(calls[last], r))], after)
  {
    hide Untouched, SameUnder, LastStep, Conflicting, Lookup;
    var n := |order| - 1;
    var last, front := order[n], order[..n];
    var (r, after) := act(calls[last], before);
    forall p | Untouched(calls, registry, order, p) ensures Lookup(after, p) == Lookup(files, p) {
      ExtendUntouched(calls, registry, act, order, files, before, after, p);
    }
    forall k | 0 <= k < |order| && WritesAt(calls, registry, order[k])
      ensures SameUnder(after, act(calls[order[k]], files).1, calls[order[k]].arguments.path.value)
    {
      if k < n {
        assert order[k] == front[k];
        ExtendWritten(calls, registry, act, order[k], last, files, before, after);
      } else {
        LastWritten(calls, registry, act, last, files, before, after);
      }
    }
    forall k | 0 <= k < n
      ensures done[k] == (order[k], ResultOf(calls[order[k]], act(calls[order[k]], files).0))
    {
      assert order[k] == front[k];
    }
  }

  lemma LastWritten(calls: seq<ToolCall>, registry: Registry, act: Action, last: nat, files: Files, before: Files,
                    after: Files)
    requires WritesAt(calls, registry, last) && LastStep(calls, registry, act, last, files, before, after)
    ensures SameUnder(after, act(calls[last], files).1, calls[last].arguments.path.value)
  {
  }

  // ----- Any two orders agree -----

  lemma {:induction false} OrderIsComplete(order: seq<nat>, n: nat, i: nat)
    requires CompletionOrder(order, n) && i < n
    ensures exists k :: 0 <= k < n && order[k] == i
  {
    if forall k :: 0 <= k < n ==> order[k] != i {
      DistinctWithin(order, Positions(n) - {i});
      assert false;
    }
  }

  lemma {:induction false} DistinctWithin(order: seq<nat>, s: set<nat>)
    requires Distinct(order) && forall k :: 0 <= k < |order| ==> order[k] in s
    ensures |order| <= |s|
  {
    if order != [] {
      var n := |order| - 1;
      DistinctWithin(order[..n], s - {order[n]});
    }
  }

  lemma UntouchedByAll(calls: seq<ToolCall>, registry: Registry, order: seq<nat>, other: seq<nat>, p: string)
    requires CompletionOrder(order, |calls|) && InRange(other, |calls|) && Untouched(calls, registry, order, p)
    ensures Untouched(calls, registry, other, p)
  {
    forall k | 0 <= k < |other| && WritesAt(calls, registry, other[k])
      ensures !Under(calls[other[k]].arguments.path.value, p)
    {
      OrderIsComplete(order, |calls|, other[k]);
    }
  }

  lemma SameFiles(a: Files, b: Files)
    requires forall p :: Lookup(a, p) == Lookup(b, p)
    ensures a == b
  {
    forall p ensures (p in a <==> p in b) && (p in a ==> a[p] == b[p]) {
      assert Lookup(a, p) == Lookup(b, p);
    }
  }

  lemma OrdersLeaveSameFiles(calls: seq<ToolCall>, registry: Registry, act: Action,
                             order: seq<nat>, other: seq<nat>, files: Files)
    requires KeepsToPaths(act, calls, registry) && !Conflicting(WritePaths(calls, registry))
    requires CompletionOrder(order, |calls|) && CompletionOrder(other, |calls|)
    ensures RunOrder(calls, act, order, files).1 == RunOrder(calls, act, other, files).1
  {
    hide Under, RunOrder;
    var (done1, after1) := RunOrder(calls, act, order, files);
    var (done2, after2) := RunOrder(calls, act, other, files);
    AnyOrderRunsAlone(calls, registry, act, order, files);
    AnyOrderRunsAlone(calls, registry, act, other, files);
    forall p ensures Lookup(after1, p) == Lookup(after2, p) {
      if Untouched(calls, registry, order, p) {
        UntouchedByAll(calls, registry, order, other, p);
      } else {
        var k :| 0 <= k < |order| && WritesAt(calls, registry, order[k])
                 && Under(calls[order[k]].arguments.path.value, p);
        OrderIsComplete(other, |calls|, order[k]);
        var k' :| 0 <= k' < |other| && other[k'] == order[k];
        assert SameUnder(after1, act(calls[order[k]], files).1, calls[order[k]].arguments.path.value);
        assert SameUnder(after2, act(calls[other[k']], files).1, calls[other[k']].arguments.path.value);
      }
    }
    SameFiles(after1, after2);
  }

  /** Results of any order, sorted, are those of every call run alone. */
  lemma ResultsRunAlone(calls: seq<ToolCall>, registry: Registry, act: Action, order: seq<nat>, files: Files)
    requires KeepsToPaths(act, calls, registry) && !Conflicting(WritePaths(calls, registry))
    requires CompletionOrder(order, |calls|)
    ensures var results := Results(SortByIndex(RunOrder(calls, act, order, files).0));
            && |results| == |calls|
            && forall k :: 0 <= k < |calls| ==> results[k] == ResultOf(calls[k], act(calls[k], files).0)
  {
    hide RunOrder, KeepsToPaths, Conflicting, Untouched, SameUnder;
    var (done, after) := RunOrder(calls, act, order, files);
    AnyOrderRunsAlone(calls, registry, act, order, files);
    SortRestoresOrder(done, |calls|);
    var sorted := SortByIndex(done);
    forall k | 0 <= k < |calls| ensures sorted[k] == (k, ResultOf(calls[k], act(calls[k], files).0)) {
      var m :| 0 <= m < |done| && done[m] == sorted[k];
    }
  }

  /** Main result: for every completion order, the files and the returned results are
      those of sequential execution. */
  lemma ParallelRefinesSequential(calls: seq<ToolCall>, registry: Registry, act: Action, order: seq<nat>, files: Files)
    requires KeepsToPaths(act, calls, registry) && !Conflicting(WritePaths(calls, registry))
    requires CompletionOrder(order, |calls|)
    ensures var (done, after) := RunOrder(calls, act, order, files);
            (Results(SortByIndex(done)), after) == RunInSequence(calls, act, files)
  {
    hide RunOrder, KeepsToPaths, Conflicting;
    var inOrder := Ascending(|calls|);
    OrdersLeaveSameFiles(calls, registry, act, order, inOrder, files);
    ResultsRunAlone(calls, registry, act, order, files);
    ResultsRunAlone(calls, registry, act, inOrder, files);
    AnyOrderRunsAlone(calls, registry, act, inOrder, files);
    var done := RunOrder(calls, act, inOrder, files).0;
    SortRestoresOrder(done, |calls|);
    forall k | 0 <= k < |calls| ensures Results(done)[k] == ResultOf(calls[k], act(calls[k], files).0) {
      assert inOrder[k] == k;
    }
    assert Results(done) == Results(SortByIndex(RunOrder(calls, act, order, files).0));
  }

  /** Tools whose results depend on nothing but the call. */
  function Stateless(f: ToolCall -> ToolResult): Action {
    (c, files) => (f(c), files)
  }

  /** They leave the files alone and answer each call by itself. */
  lemma {:induction false} StatelessOrder(calls: seq<ToolCall>, f: ToolCall -> ToolResult, order: seq<nat>,
                                          files: Files)
    requires InRange(order, |calls|)
    ensures var (done, after) := RunOrder(calls, Stateless(f), order, files);
            && after == files
            && forall k :: 0 <= k < |order| ==> done[k] == (order[k], ResultOf(calls[order[k]], f(calls[order[k]])))
  {
    if order != [] {
      var n := |order| - 1;
      StatelessOrder(calls, f, order[..n], files);
      forall k | 0 <= k < n ensures order[..n][k] == order[k] {}
    }
  }
}
