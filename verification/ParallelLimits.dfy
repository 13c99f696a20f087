/** Exactly when the admission test is enough, and exactly when a batch of calls can
    be run again after a crash that lost its results. */
module ParallelLimits {
  import opened Wrappers
  import opened Messages
  import opened PathConflicts
  import opened Parallel
  import opened IndexSort
  import opened ParallelTheorems

  // ----- Tools that keep to their own path -----

  /** A reader that changes nothing and looks at its path and below only. */
  ghost predicate ConfinedReader(act: Action, c: ToolCall, root: string) {
    && (forall f :: act(c, f).1 == f)
    && (forall f, g :: SameUnder(f, g, root) ==> act(c, f).0 == act(c, g).0)
  }

  ghost predicate TouchesNoFile(act: Action, c: ToolCall) {
    && (forall f :: act(c, f).1 == f)
    && (forall f, g :: act(c, f).0 == act(c, g).0)
  }

  /** Every call keeps to the path it names, or touches no file when it names none. */
  ghost predicate KeepsToOwnPath(act: Action, calls: seq<ToolCall>, registry: Registry) {
    forall i :: 0 <= i < |calls| ==> KeepsOwn(act, calls[i], registry)
  }

  ghost predicate KeepsOwn(act: Action, c: ToolCall, registry: Registry) {
    match c.arguments.path
    case None => TouchesNoFile(act, c)
    case Some(path) => if IsWriter(c, registry) then ConfinedWriter(act, c, path) else ConfinedReader(act, c, path)
  }

  predicate ReadsAt(calls: seq<ToolCall>, registry: Registry, j: nat) {
    j < |calls| && !IsWriter(calls[j], registry) && calls[j].arguments.path.Some?
  }

  /** A read and a write of the batch concern overlapping paths. */
  predicate ReadMeetsWrite(calls: seq<ToolCall>, registry: Registry, i: nat, j: nat) {
    WritesAt(calls, registry, i) && ReadsAt(calls, registry, j)
    && Overlap(calls[i].arguments.path.value, calls[j].arguments.path.value)
  }

  ghost predicate SameAsSequential(calls: seq<ToolCall>, act: Action, order: seq<nat>, files: Files)
    requires InRange(order, |calls|)
  {
    var (done, after) := RunOrder(calls, act, order, files);
    (Results(SortByIndex(done)), after) == RunInSequence(calls, act, files)
  }

  /** Whatever the tools do within their paths, no order can be told from the sequential one. */
  ghost predicate OrderNeverShows(calls: seq<ToolCall>, registry: Registry) {
    forall act: Action, order, files ::
      KeepsToOwnPath(act, calls, registry) && CompletionOrder(order, |calls|)
      ==> SameAsSequential(calls, act, order, files)
  }

  // ----- Reads clear of writes are safe -----

  lemma ClearReaderIsUndisturbed(calls: seq<ToolCall>, registry: Registry, act: Action, j: nat)
    requires ReadsAt(calls, registry, j) && ConfinedReader(act, calls[j], calls[j].arguments.path.value)
    requires forall i: nat :: !ReadMeetsWrite(calls, registry, i, j)
    ensures UndisturbedReader(act, calls[j], WritePaths(calls, registry))
  {
    hide Under;
    var root, roots := calls[j].arguments.path.value, WritePaths(calls, registry);
    WritePathsComplete(calls, registry);
    forall f, g | SameOutside(f, g, roots) ensures act(calls[j], f).0 == act(calls[j], g).0 {
      forall p | Under(root, p) ensures Lookup(f, p) == Lookup(g, p) {
        forall k | 0 <= k < |roots| ensures !Under(roots[k], p) {
          assert roots[k] in roots;
          var i: nat :| WritesAt(calls, registry, i) && calls[i].arguments.path.value == roots[k];
          assert !ReadMeetsWrite(calls, registry, i, j);
          DisjointRegions(roots[k], root, p);
        }
      }
      assert SameUnder(f, g, root);
    }
  }

  lemma ClearCallsKeepToPaths(calls: seq<ToolCall>, registry: Registry, act: Action)
    requires KeepsToOwnPath(act, calls, registry)
    requires forall i: nat, j: nat :: !ReadMeetsWrite(calls, registry, i, j)
    ensures KeepsToPaths(act, calls, registry)
  {
    hide Under, ConfinedWriter, ReadMeetsWrite;
    forall i | 0 <= i < |calls| && !WritesAt(calls, registry, i)
      ensures UndisturbedReader(act, calls[i], WritePaths(calls, registry))
    {
      assert KeepsOwn(act, calls[i], registry);
      if ReadsAt(calls, registry, i) {
        ClearReaderIsUndisturbed(calls, registry, act, i);
      }
    }
    forall i | 0 <= i < |calls| && WritesAt(calls, registry, i)
      ensures ConfinedWriter(act, calls[i], calls[i].arguments.path.value)
    {
      assert KeepsOwn(act, calls[i], registry);
    }
  }

  // ----- A read that meets a write is not -----

  /** Call `w` makes the file `q`, call `r` reports whether it is there, others do nothing. */
  function Probe(w: ToolCall, r: ToolCall, q: string): Action {
    (c, f) =>
      if c == w then (ToolResult("", false), f[q := ""])
      else if c == r then (ToolResult("", q in f), f)
      else (ToolResult("", false), f)
  }

  lemma ProbeKeepsToPaths(calls: seq<ToolCall>, registry: Registry, w: ToolCall, r: ToolCall, q: string)
    requires IsWriter(w, registry) && w.arguments.path.Some? && Under(w.arguments.path.value, q)
    requires !IsWriter(r, registry) && r.arguments.path.Some? && Under(r.arguments.path.value, q)
    ensures KeepsToOwnPath(Probe(w, r, q), calls, registry)
  {
    hide Under;
    var act := Probe(w, r, q);
    var root := r.arguments.path.value;
    forall f, g | SameUnder(f, g, root) ensures act(r, f).0 == act(r, g).0 {
      assert Lookup(f, q) == Lookup(g, q);
    }
  }

  /** One of the first `n` calls of an order is `w`. */
  predicate Earlier(calls: seq<ToolCall>, w: ToolCall, order: seq<nat>, n: nat)
    requires InRange(order, |calls|) && n <= |order|
  {
    exists m | 0 <= m < n :: calls[order[m]] == w
  }

  /** The file is there from `w` on, and `r` sees whether `w` came before. */
  lemma {:induction false} ProbeRun(calls: seq<ToolCall>, w: ToolCall, r: ToolCall, q: string, order: seq<nat>)
    requires InRange(order, |calls|) && w != r
    ensures var (done, after) := RunOrder(calls, Probe(w, r, q), order, map[]);
            && (q in after <==> Earlier(calls, w, order, |order|))
            && (forall k :: 0 <= k < |order| && calls[order[k]] == r ==>
                  (done[k].1.result.isError <==> Earlier(calls, w, order, k)))
  {
    if order != [] {
      var n := |order| - 1;
      var front := order[..n];
      assert forall m :: 0 <= m < n ==> front[m] == order[m];
      ProbeRun(calls, w, r, q, front);
      forall k | 0 <= k <= n
        ensures Earlier(calls, w, front, k) <==> Earlier(calls, w, order, k)
      {
      }
      assert Earlier(calls, w, order, n + 1) <==> Earlier(calls, w, order, n) || calls[order[n]] == w;
      hide Earlier;
    }
  }

  function Descending(n: nat): (s: seq<nat>)
    ensures |s| == n && forall k :: 0 <= k < n ==> s[k] == n - 1 - k
  {
    seq(n, k requires 0 <= k < n => n - 1 - k)
  }

  lemma OneWriter(calls: seq<ToolCall>, registry: Registry, i: nat, k: nat)
    requires !Conflicting(WritePaths(calls, registry)) && WritesAt(calls, registry, i)
    requires k < |calls| && calls[k] == calls[i]
    ensures k == i
  {
    if k < i {
      WritersDisjoint(calls, registry, k, i);
    } else if i < k {
      WritersDisjoint(calls, registry, i, k);
    }
  }

  /** In call order the read sees the write exactly if it stands behind it; in the
      opposite order exactly if it stands in front. */
  lemma ProbeShows(calls: seq<ToolCall>, registry: Registry, i: nat, j: nat, q: string)
    requires !Conflicting(WritePaths(calls, registry))
    requires WritesAt(calls, registry, i) && ReadsAt(calls, registry, j)
    ensures !SameAsSequential(calls, Probe(calls[i], calls[j], q), Descending(|calls|), map[])
  {
    hide RunOrder, SortByIndex, Conflicting, WritePaths;
    var act, n := Probe(calls[i], calls[j], q), |calls|;
    var up, down := Ascending(n), Descending(n);
    ProbeRun(calls, calls[i], calls[j], q, up);
    ProbeRun(calls, calls[i], calls[j], q, down);
    forall k | 0 <= k < n && calls[k] == calls[i] ensures k == i {
      OneWriter(calls, registry, i, k);
    }
    var inOrder := RunOrder(calls, act, up, map[]).0;
    assert calls[up[j]] == calls[j] && calls[up[i]] == calls[i];
    assert inOrder[j].1.result.isError <==> i < j;
    var done := RunOrder(calls, act, down, map[]).0;
    SortRestoresOrder(done, n);
    var sorted := SortByIndex(done);
    var m :| 0 <= m < n && done[m] == sorted[j];
    assert done[m].0 == down[m];
    assert calls[down[n - 1 - i]] == calls[i] && m == n - 1 - j;
    assert done[m].1.result.isError <==> i > j;
    assert Results(sorted)[j] != Results(inOrder)[j];
  }

  lemma UnderItself(path: string)
    ensures Under(path, path)
  {
  }

  lemma MeetingShows(calls: seq<ToolCall>, registry: Registry, i: nat, j: nat)
    requires !Conflicting(WritePaths(calls, registry)) && ReadMeetsWrite(calls, registry, i, j)
    ensures !OrderNeverShows(calls, registry)
  {
    hide Under, SameAsSequential, Conflicting;
    var w, r := calls[i].arguments.path.value, calls[j].arguments.path.value;
    var q := if Under(w, r) then r else w;
    UnderItself(q);
    var act := Probe(calls[i], calls[j], q);
    ProbeKeepsToPaths(calls, registry, calls[i], calls[j], q);
    ProbeShows(calls, registry, i, j, q);
    assert CompletionOrder(Descending(|calls|), |calls|);
  }

  /** For calls whose written paths do not conflict, as admission ensures, the
      completion order can never be told, whatever the tools do
      within their own paths, if and only if no read concerns a written path.  The
      admission test compares writers only, so it does not ensure this. */
  lemma OrderNeverShowsIff(calls: seq<ToolCall>, registry: Registry)
    requires !Conflicting(WritePaths(calls, registry))
    ensures OrderNeverShows(calls, registry) <==> forall i: nat, j: nat :: !ReadMeetsWrite(calls, registry, i, j)
  {
    hide Conflicting, ReadMeetsWrite, KeepsToOwnPath, KeepsToPaths, RunOrder, RunInSequence;
    if i: nat, j: nat :| ReadMeetsWrite(calls, registry, i, j) {
      MeetingShows(calls, registry, i, j);
    } else {
      forall act: Action, order, files | KeepsToOwnPath(act, calls, registry) && CompletionOrder(order, |calls|)
        ensures SameAsSequential(calls, act, order, files)
      {
        ClearCallsKeepToPaths(calls, registry, act);
        ParallelRefinesSequential(calls, registry, act, order, files);
      }
    }
  }

  const PATH := "notes.txt"
  const WRITE := ToolCall("1", "write_file", Arguments("new", Some(PATH)))
  const READ := ToolCall("2", "read_file", Arguments("", Some(PATH)))
  const TOOLS: Registry := map["write_file" := ToolInfo(false, false), "read_file" := ToolInfo(false, true)]

  lemma WriteAndReadAdmitted()
    ensures MayParallelize([WRITE, READ], TOOLS)
  {
    var calls := [WRITE, READ];
    assert WritePaths(calls[1..], TOOLS) == [] by { assert calls[1..][1..] == []; }
    assert WritePaths(calls, TOOLS) == [PATH];
  }

  /** Such calls are admitted: a write and a read of the same path. */
  lemma ReadMayRaceWrite()
    ensures MayParallelize([WRITE, READ], TOOLS) && !OrderNeverShows([WRITE, READ], TOOLS)
  {
    hide MayParallelize, OrderNeverShows, Under;
    var calls := [WRITE, READ];
    WriteAndReadAdmitted();
    UnderItself(PATH);
    assert ReadMeetsWrite(calls, TOOLS, 0, 1);
    OrderNeverShowsIff(calls, TOOLS);
  }

  // ----- Running a batch again -----

  /** Run twice on its own, the call says and leaves what it did the first time. */
  ghost predicate RepeatsItself(act: Action, c: ToolCall, files: Files, root: string) {
    var (r, once) := act(c, files);
    act(c, once).0 == r && SameUnder(act(c, once).1, once, root)
  }

  /** What a call does behind a crash in which the calls `ran` took effect. */
  lemma BehindCrash(calls: seq<ToolCall>, registry: Registry, act: Action, ran: seq<nat>, files: Files, i: nat)
    requires KeepsToPaths(act, calls, registry) && !Conflicting(WritePaths(calls, registry))
    requires InRange(ran, |calls|) && Distinct(ran) && i < |calls|
    ensures var after := RunOrder(calls, act, ran, files).1;
            if !WritesAt(calls, registry, i) then act(calls[i], after).0 == act(calls[i], files).0
            else
              var root := calls[i].arguments.path.value;
              var seen := if i in ran then act(calls[i], files).1 else files;
              act(calls[i], after).0 == act(calls[i], seen).0
              && SameUnder(act(calls[i], after).1, act(calls[i], seen).1, root)
  {
    hide RunOrder, Under, Conflicting, Lookup;
    var (done, after) := RunOrder(calls, act, ran, files);
    AnyOrderRunsAlone(calls, registry, act, ran, files);
    if i !in ran {
      LastCallAlone(calls, registry, act, ran, i, files, done, after);
    } else if WritesAt(calls, registry, i) {
      var k :| 0 <= k < |ran| && ran[k] == i;
      assert SameUnder(after, act(calls[i], files).1, calls[i].arguments.path.value);
    } else {
      var roots := WritePaths(calls, registry);
      forall p | forall k :: 0 <= k < |roots| ==> !Under(roots[k], p) ensures Lookup(after, p) == Lookup(files, p) {
        OutsideWritersUntouched(calls, registry, ran, p);
      }
      assert SameOutside(after, files, roots);
    }
  }

  /** A crash while tools run loses all results, and the resumption runs the whole batch
      again.  That leaves the files and results of a run without a crash if and only if
      every writer that had taken effect repeats itself. */
  lemma RerunAfterCrash(calls: seq<ToolCall>, registry: Registry, act: Action, ran: seq<nat>, again: seq<nat>,
                        files: Files)
    requires KeepsToPaths(act, calls, registry) && !Conflicting(WritePaths(calls, registry))
    requires InRange(ran, |calls|) && Distinct(ran) && CompletionOrder(again, |calls|)
    ensures var after := RunOrder(calls, act, ran, files).1;
            var (done, end) := RunOrder(calls, act, again, after);
            var (done', end') := RunOrder(calls, act, again, files);
            (Results(SortByIndex(done)), end) == (Results(SortByIndex(done')), end')
            <==> forall i: nat :: i in ran && WritesAt(calls, registry, i) ==>
                   RepeatsItself(act, calls[i], files, calls[i].arguments.path.value)
  {
    hide RunOrder, Under, Conflicting, KeepsToPaths, SortByIndex, Lookup;
    var after := RunOrder(calls, act, ran, files).1;
    var end, end' := RunOrder(calls, act, again, after).1, RunOrder(calls, act, again, files).1;
    var rs := Results(SortByIndex(RunOrder(calls, act, again, after).0));
    var rs' := Results(SortByIndex(RunOrder(calls, act, again, files).0));
    ResultsRunAlone(calls, registry, act, again, after);
    ResultsRunAlone(calls, registry, act, again, files);
    if rs == rs' && end == end' {
      forall i: nat | i in ran && WritesAt(calls, registry, i)
        ensures RepeatsItself(act, calls[i], files, calls[i].arguments.path.value)
      {
        BehindCrash(calls, registry, act, ran, files, i);
        RegionAfter(calls, registry, act, again, after, i);
        RegionAfter(calls, registry, act, again, files, i);
        assert rs[i] == rs'[i];
      }
    }
    if forall i: nat :: i in ran && WritesAt(calls, registry, i) ==>
         RepeatsItself(act, calls[i], files, calls[i].arguments.path.value)
    {
      forall i | 0 <= i < |calls| ensures rs[i] == rs'[i] {
        BehindCrash(calls, registry, act, ran, files, i);
      }
      forall p ensures Lookup(end, p) == Lookup(end', p) {
        RerunAt(calls, registry, act, ran, again, files, p);
      }
      SameFiles(end, end');
      assert rs == rs';
    }
  }

  lemma RegionAfter(calls: seq<ToolCall>, registry: Registry, act: Action, order: seq<nat>, files: Files, i: nat)
    requires KeepsToPaths(act, calls, registry) && !Conflicting(WritePaths(calls, registry))
    requires CompletionOrder(order, |calls|) && WritesAt(calls, registry, i)
    ensures SameUnder(RunOrder(calls, act, order, files).1, act(calls[i], files).1, calls[i].arguments.path.value)
  {
    hide RunOrder, SameUnder, KeepsToPaths, Conflicting;
    AnyOrderRunsAlone(calls, registry, act, order, files);
    OrderIsComplete(order, |calls|, i);
  }

  lemma RerunAt(calls: seq<ToolCall>, registry: Registry, act: Action, ran: seq<nat>, again: seq<nat>, files: Files,
                p: string)
    requires KeepsToPaths(act, calls, registry) && !Conflicting(WritePaths(calls, registry))
    requires InRange(ran, |calls|) && Distinct(ran) && CompletionOrder(again, |calls|)
    requires forall i: nat :: i in ran && WritesAt(calls, registry, i) ==>
               RepeatsItself(act, calls[i], files, calls[i].arguments.path.value)
    ensures var after := RunOrder(calls, act, ran, files).1;
            Lookup(RunOrder(calls, act, again, after).1, p) == Lookup(RunOrder(calls, act, again, files).1, p)
  {
    hide RunOrder, Under, KeepsToPaths, Conflicting, Lookup;
    var after := RunOrder(calls, act, ran, files).1;
    if i: nat :| WritesAt(calls, registry, i) && Under(calls[i].arguments.path.value, p) {
      BehindCrash(calls, registry, act, ran, files, i);
      RegionAfter(calls, registry, act, again, after, i);
      RegionAfter(calls, registry, act, again, files, i);
    } else {
      AnyOrderRunsAlone(calls, registry, act, ran, files);
      AnyOrderRunsAlone(calls, registry, act, again, after);
      AnyOrderRunsAlone(calls, registry, act, again, files);
      assert Untouched(calls, registry, ran, p) && Untouched(calls, registry, again, p);
    }
  }
}
