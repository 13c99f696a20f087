/** Tools resolve the path they are given before they use it, while the admission test
    compares paths as spelled.  Exactly when that is enough. */
module PathSpelling {
  import opened Wrappers
  import opened Messages
  import opened PathConflicts
  import opened Parallel
  import opened IndexSort
  import opened ParallelTheorems
  import opened ParallelLimits
  import opened Sequences

  type Resolver = string -> string

  // ----- Tools that keep to the path they resolve -----

  ghost predicate KeepsResolved(act: Action, c: ToolCall, registry: Registry, resolve: Resolver) {
    match c.arguments.path
    case None => TouchesNoFile(act, c)
    case Some(path) =>
      if IsWriter(c, registry) then ConfinedWriter(act, c, resolve(path)) else ConfinedReader(act, c, resolve(path))
  }

  ghost predicate KeepsToResolved(act: Action, calls: seq<ToolCall>, registry: Registry, resolve: Resolver) {
    forall i :: 0 <= i < |calls| ==> KeepsResolved(act, calls[i], registry, resolve)
  }

  predicate NamesPath(calls: seq<ToolCall>, i: nat) {
    i < |calls| && calls[i].arguments.path.Some?
  }

  /** A write at `i` and another call at `j` concern overlapping places. */
  predicate Meets(calls: seq<ToolCall>, registry: Registry, resolve: Resolver, i: nat, j: nat) {
    i != j && WritesAt(calls, registry, i) && NamesPath(calls, j)
    && Overlap(resolve(calls[i].arguments.path.value), resolve(calls[j].arguments.path.value))
  }

  /** Whatever the tools do within their places, no order can be told from the sequential one. */
  ghost predicate OrderNeverTells(calls: seq<ToolCall>, registry: Registry, resolve: Resolver) {
    forall act: Action, order, files ::
      KeepsToResolved(act, calls, registry, resolve) && CompletionOrder(order, |calls|)
      ==> SameAsSequential(calls, act, order, files)
  }

  // ----- Calls spelled the way they are resolved -----

  function Respelled(c: ToolCall, resolve: Resolver): ToolCall {
    match c.arguments.path
    case None => c
    case Some(path) => c.(arguments := c.arguments.(path := Some(resolve(path))))
  }

  function RespelledAll(calls: seq<ToolCall>, resolve: Resolver): (out: seq<ToolCall>)
    ensures |out| == |calls| && forall k :: 0 <= k < |calls| ==> out[k] == Respelled(calls[k], resolve)
  {
    seq(|calls|, k requires 0 <= k < |calls| => Respelled(calls[k], resolve))
  }

  function Original(calls: seq<ToolCall>, resolve: Resolver, c: ToolCall): ToolCall {
    if calls == [] then c
    else if Respelled(calls[0], resolve) == c then calls[0]
    else Original(calls[1..], resolve, c)
  }

  /** The tools, seen as acting on respelled calls. */
  function Unspelled(act: Action, calls: seq<ToolCall>, resolve: Resolver): Action {
    (c, f) => act(Original(calls, resolve, c), f)
  }

  predicate DistinctCalls(calls: seq<ToolCall>) {
    forall i, j :: 0 <= i < j < |calls| ==> calls[i].id != calls[j].id
  }

  lemma {:induction false} OriginalFound(calls: seq<ToolCall>, resolve: Resolver, k: nat)
    requires DistinctCalls(calls) && k < |calls|
    ensures Original(calls, resolve, Respelled(calls[k], resolve)) == calls[k]
  {
    if k > 0 {
      assert calls[0].id != calls[k].id;
      OriginalFound(calls[1..], resolve, k - 1);
    }
  }

  lemma {:induction false} RespelledRun(calls: seq<ToolCall>, act: Action, resolve: Resolver, order: seq<nat>,
                                        files: Files)
    requires DistinctCalls(calls) && InRange(order, |calls|)
    ensures RunOrder(RespelledAll(calls, resolve), Unspelled(act, calls, resolve), order, files)
         == RunOrder(calls, act, order, files)
  {
    if order != [] {
      var n := |order| - 1;
      RespelledRun(calls, act, resolve, order[..n], files);
      OriginalFound(calls, resolve, order[n]);
    }
  }

  lemma RespelledKeeps(calls: seq<ToolCall>, registry: Registry, act: Action, resolve: Resolver)
    requires DistinctCalls(calls) && KeepsToResolved(act, calls, registry, resolve)
    ensures KeepsToOwnPath(Unspelled(act, calls, resolve), RespelledAll(calls, resolve), registry)
  {
    hide Under, Lookup, SameUnder, SameElsewhere;
    forall i | 0 <= i < |calls|
      ensures KeepsOwn(Unspelled(act, calls, resolve), RespelledAll(calls, resolve)[i], registry)
    {
      OriginalFound(calls, resolve, i);
      assert KeepsResolved(act, calls[i], registry, resolve);
    }
  }

  /** Two positions of writers whose paths overlap. */
  predicate WritersMeet(calls: seq<ToolCall>, registry: Registry, i: nat, j: nat) {
    i < j && WritesAt(calls, registry, i) && WritesAt(calls, registry, j)
    && Overlap(calls[i].arguments.path.value, calls[j].arguments.path.value)
  }

  lemma {:induction false} ConflictHasWriters(calls: seq<ToolCall>, registry: Registry) returns (i: nat, j: nat)
    requires Conflicting(WritePaths(calls, registry))
    ensures WritersMeet(calls, registry, i, j)
  {
    var rest := calls[1..];
    hide Overlap, Conflicting, IsWriter;
    if Conflicting(WritePaths(rest, registry)) {
      i, j := ConflictHasWriters(rest, registry);
      assert WritersMeet(rest, registry, i, j);
      i, j := i + 1, j + 1;
    } else {
      EmptyConcat(WritePaths(rest, registry));
      i := 0;
      j := FirstMeets(calls, registry);
    }
  }

  lemma FirstMeets(calls: seq<ToolCall>, registry: Registry) returns (j: nat)
    requires calls != [] && WritesAt(calls, registry, 0)
    requires Conflicting([calls[0].arguments.path.value] + WritePaths(calls[1..], registry))
    requires !Conflicting(WritePaths(calls[1..], registry))
    ensures WritersMeet(calls, registry, 0, j)
  {
    hide Overlap, Conflicting, IsWriter, WritePaths;
    var rest := calls[1..];
    var p := NewConflict(calls[0].arguments.path.value, WritePaths(rest, registry));
    WritePathsComplete(rest, registry);
    var k: nat :| WritesAt(rest, registry, k) && rest[k].arguments.path.value == p;
    j := k + 1;
  }

  lemma NewConflict(head: string, paths: seq<string>) returns (p: string)
    requires Conflicting([head] + paths) && !Conflicting(paths)
    ensures p in paths && Overlap(head, p)
  {
    hide Overlap;
    var all := [head] + paths;
    var i: nat, j: nat :| i < j < |all| && Overlap(all[i], all[j]);
    if i > 0 {
      ConflictBehind(head, paths, i, j);
    }
    p := paths[j - 1];
  }

  lemma ConflictBehind(head: string, paths: seq<string>, i: nat, j: nat)
    requires 0 < i < j <= |paths| && Overlap(([head] + paths)[i], ([head] + paths)[j])
    ensures Conflicting(paths)
  {
    assert ([head] + paths)[i] == paths[i - 1] && ([head] + paths)[j] == paths[j - 1];
  }

  /** Nothing meets: the respelled calls are admitted and their reads clear of writes. */
  lemma ApartIsClear(calls: seq<ToolCall>, registry: Registry, resolve: Resolver)
    requires forall i: nat, j: nat :: !Meets(calls, registry, resolve, i, j)
    ensures var spelled := RespelledAll(calls, resolve);
            && !Conflicting(WritePaths(spelled, registry))
            && forall i: nat, j: nat :: !ReadMeetsWrite(spelled, registry, i, j)
  {
    hide Overlap;
    var spelled := RespelledAll(calls, resolve);
    if Conflicting(WritePaths(spelled, registry)) {
      var i, j := ConflictHasWriters(spelled, registry);
      WritersMeetPlaces(calls, registry, resolve, i, j);
    }
    forall i: nat, j: nat ensures !ReadMeetsWrite(spelled, registry, i, j) {
      assert !Meets(calls, registry, resolve, i, j);
    }
  }

  lemma WritersMeetPlaces(calls: seq<ToolCall>, registry: Registry, resolve: Resolver, i: nat, j: nat)
    requires WritersMeet(RespelledAll(calls, resolve), registry, i, j)
    ensures Meets(calls, registry, resolve, i, j)
  {
    hide Overlap;
  }

  // ----- Calls that meet can be told apart -----

  /** Calls `w` and `x` report whether the file `q` is there; `w`, and `x` if it writes,
      make it. */
  function Touch(w: ToolCall, x: ToolCall, xWrites: bool, q: string): Action {
    (c, f) =>
      if c == w || (c == x && xWrites) then (ToolResult("", q in f), f[q := ""])
      else if c == x then (ToolResult("", q in f), f)
      else (ToolResult("", false), f)
  }

  lemma TouchKeeps(calls: seq<ToolCall>, registry: Registry, resolve: Resolver, i: nat, j: nat, q: string)
    requires WritesAt(calls, registry, i) && Under(resolve(calls[i].arguments.path.value), q)
    requires NamesPath(calls, j) && Under(resolve(calls[j].arguments.path.value), q)
    ensures KeepsToResolved(Touch(calls[i], calls[j], IsWriter(calls[j], registry), q), calls, registry, resolve)
  {
    hide Under;
    var w, x := calls[i], calls[j];
    var act := Touch(w, x, IsWriter(x, registry), q);
    forall k | 0 <= k < |calls| ensures KeepsResolved(act, calls[k], registry, resolve) {
      if calls[k] == w || calls[k] == x {
        var root := resolve(calls[k].arguments.path.value);
        assert forall f, g :: SameUnder(f, g, root) ==> Lookup(f, q) == Lookup(g, q);
      }
    }
  }

  predicate Touches(c: ToolCall, w: ToolCall, x: ToolCall, xWrites: bool) {
    c == w || (c == x && xWrites)
  }

  predicate TouchedBefore(calls: seq<ToolCall>, w: ToolCall, x: ToolCall, xWrites: bool, order: seq<nat>, n: nat)
    requires InRange(order, |calls|) && n <= |order|
  {
    exists m | 0 <= m < n :: Touches(calls[order[m]], w, x, xWrites)
  }

  lemma {:induction false} TouchRun(calls: seq<ToolCall>, w: ToolCall, x: ToolCall, xWrites: bool, q: string,
                                    order: seq<nat>)
    requires InRange(order, |calls|)
    ensures var (done, after) := RunOrder(calls, Touch(w, x, xWrites, q), order, map[]);
            && (q in after <==> TouchedBefore(calls, w, x, xWrites, order, |order|))
            && (forall k :: 0 <= k < |order| && calls[order[k]] == x ==>
                  (done[k].1.result.isError <==> TouchedBefore(calls, w, x, xWrites, order, k)))
  {
    if order != [] {
      var n := |order| - 1;
      var front := order[..n];
      assert forall m :: 0 <= m < n ==> front[m] == order[m];
      TouchRun(calls, w, x, xWrites, q, front);
      forall k | 0 <= k <= n
        ensures TouchedBefore(calls, w, x, xWrites, front, k) <==> TouchedBefore(calls, w, x, xWrites, order, k)
      {
      }
      assert TouchedBefore(calls, w, x, xWrites, order, n + 1)
        <==> TouchedBefore(calls, w, x, xWrites, order, n) || Touches(calls[order[n]], w, x, xWrites);
      hide TouchedBefore;
    }
  }

  /** Before call `j` came its turn, the file was made exactly if `i` was earlier. */
  lemma TouchedWhen(calls: seq<ToolCall>, i: nat, j: nat, xWrites: bool, order: seq<nat>, at: nat, other: nat)
    requires DistinctCalls(calls) && i < |calls| && j < |calls| && i != j && CompletionOrder(order, |calls|)
    requires at < |order| && order[at] == j && other < |order| && order[other] == i
    ensures TouchedBefore(calls, calls[i], calls[j], xWrites, order, at) <==> other < at
  {
    forall m | 0 <= m < at ensures Touches(calls[order[m]], calls[i], calls[j], xWrites) <==> m == other {
      assert order[m] != order[at];
      SamePosition(order, |calls|, m, other);
      if order[m] != i {
        assert calls[order[m]].id != calls[i].id && calls[order[m]].id != calls[j].id;
      }
    }
  }

  lemma SamePosition(order: seq<nat>, n: nat, a: nat, b: nat)
    requires CompletionOrder(order, n) && a < n && b < n
    ensures order[a] == order[b] <==> a == b
  {
  }

  lemma TouchTells(calls: seq<ToolCall>, i: nat, j: nat, xWrites: bool, q: string)
    requires DistinctCalls(calls) && i < |calls| && j < |calls| && i != j
    ensures !SameAsSequential(calls, Touch(calls[i], calls[j], xWrites, q), Descending(|calls|), map[])
  {
    hide RunOrder, SortByIndex, TouchedBefore, DistinctCalls;
    var act, n := Touch(calls[i], calls[j], xWrites, q), |calls|;
    var up, down := Ascending(n), Descending(n);
    TouchRun(calls, calls[i], calls[j], xWrites, q, up);
    TouchRun(calls, calls[i], calls[j], xWrites, q, down);
    TouchedWhen(calls, i, j, xWrites, up, j, i);
    TouchedWhen(calls, i, j, xWrites, down, n - 1 - j, n - 1 - i);
    var inOrder := RunOrder(calls, act, up, map[]).0;
    assert inOrder[j].1.result.isError <==> i < j;
    var done := RunOrder(calls, act, down, map[]).0;
    SortRestoresOrder(done, n);
    var sorted := SortByIndex(done);
    var m :| 0 <= m < n && done[m] == sorted[j];
    assert done[m].0 == down[m];
    assert m == n - 1 - j;
    assert done[m].1.result.isError <==> i > j;
    assert Results(sorted)[j] != Results(inOrder)[j];
  }

  lemma MeetingTells(calls: seq<ToolCall>, registry: Registry, resolve: Resolver, i: nat, j: nat)
    requires DistinctCalls(calls) && Meets(calls, registry, resolve, i, j)
    ensures !OrderNeverTells(calls, registry, resolve)
  {
    hide Under, SameAsSequential, DistinctCalls;
    var w, x := resolve(calls[i].arguments.path.value), resolve(calls[j].arguments.path.value);
    var q := if Under(w, x) then x else w;
    UnderItself(q);
    TouchKeeps(calls, registry, resolve, i, j, q);
    TouchTells(calls, i, j, IsWriter(calls[j], registry), q);
    assert CompletionOrder(Descending(|calls|), |calls|);
  }

  /** For calls with ids of their own, admitted or not: tools that keep to the places they
      resolve can never show the completion order if and only if no write and no other
      call concern overlapping places. */
  lemma OrderNeverTellsIff(calls: seq<ToolCall>, registry: Registry, resolve: Resolver)
    requires DistinctCalls(calls)
    ensures OrderNeverTells(calls, registry, resolve)
       <==> forall i: nat, j: nat :: !Meets(calls, registry, resolve, i, j)
  {
    hide Conflicting, Meets, KeepsToOwnPath, KeepsToPaths, KeepsToResolved, RunOrder, DistinctCalls, ReadMeetsWrite;
    if i: nat, j: nat :| Meets(calls, registry, resolve, i, j) {
      MeetingTells(calls, registry, resolve, i, j);
    } else {
      ApartIsClear(calls, registry, resolve);
      forall act: Action, order, files |
        KeepsToResolved(act, calls, registry, resolve) && CompletionOrder(order, |calls|)
        ensures SameAsSequential(calls, act, order, files)
      {
        var spelled, unspelled := RespelledAll(calls, resolve), Unspelled(act, calls, resolve);
        RespelledKeeps(calls, registry, act, resolve);
        ClearCallsKeepToPaths(spelled, registry, unspelled);
        ParallelRefinesSequential(spelled, registry, unspelled, order, files);
        RespelledRun(calls, act, resolve, order, files);
        RespelledRun(calls, act, resolve, Ascending(|calls|), files);
      }
    }
  }

  // ----- When the spelling tells the place -----

  function Resolved(paths: seq<string>, resolve: Resolver): (out: seq<string>)
    ensures |out| == |paths| && forall k :: 0 <= k < |paths| ==> out[k] == resolve(paths[k])
  {
    seq(|paths|, k requires 0 <= k < |paths| => resolve(paths[k]))
  }

  /** Paths found apart by their spelling lead to places that are apart. */
  ghost predicate SpellingSuffices(resolve: Resolver) {
    forall paths :: !Conflicting(paths) ==> !Conflicting(Resolved(paths, resolve))
  }

  /** The admission test is right about places exactly when overlapping places are always
      spelled as overlapping paths. */
  lemma SpellingSufficesIff(resolve: Resolver)
    ensures SpellingSuffices(resolve) <==> forall a, b :: Overlap(resolve(a), resolve(b)) ==> Overlap(a, b)
  {
    hide Overlap;
    if SpellingSuffices(resolve) {
      forall a, b | Overlap(resolve(a), resolve(b)) ensures Overlap(a, b) {
        var pair := Resolved([a, b], resolve);
        assert Overlap(pair[0], pair[1]);
        assert Conflicting([a, b]);
        var i, j :| 0 <= i < j < 2 && Overlap([a, b][i], [a, b][j]);
      }
    } else {
      var paths :| !Conflicting(paths) && Conflicting(Resolved(paths, resolve));
      var out := Resolved(paths, resolve);
      var i, j :| 0 <= i < j < |out| && Overlap(out[i], out[j]);
      assert !Overlap(paths[i], paths[j]) && Overlap(resolve(paths[i]), resolve(paths[j]));
    }
  }

  // ----- The places that relative paths name -----

  /** "." and empty components stay where they are, ".." goes up. */
  function Lexical(parts: seq<string>): seq<string> {
    if parts == [] then []
    else
      var front, last := Lexical(parts[..|parts| - 1]), parts[|parts| - 1];
      if last == "" || last == "." then front
      else if last == ".." then if front == [] then [] else front[..|front| - 1]
      else front + [last]
  }

  function Spell(parts: seq<string>): string {
    if parts == [] then ""
    else if |parts| == 1 then parts[0]
    else parts[0] + ("/" + Spell(parts[1..]))
  }

  /** The components of the place that `path` names from the directory `dir`. */
  function PartsFrom(dir: seq<string>, path: string): seq<string> {
    var parts := Components(path);
    Lexical(if path != "" && path[0] == '/' then parts else dir + parts)
  }

  function PlaceFrom(dir: seq<string>, path: string): string {
    var parts := PartsFrom(dir, path);
    if parts == [] then "" else "/" + Spell(parts)
  }

  predicate IsPlainPart(part: string) {
    part != "" && part != "." && part != ".."
  }

  /** A relative path that is spelled out. */
  predicate IsPlainPath(path: string) {
    forall part :: part in Components(path) ==> IsPlainPart(part)
  }

  lemma {:induction false} LexicalOfPlain(dir: seq<string>, parts: seq<string>)
    requires forall part :: part in parts ==> IsPlainPart(part)
    ensures Lexical(dir + parts) == Lexical(dir) + parts
  {
    if parts == [] {
      EmptyConcat(dir);
      EmptyConcat(Lexical(dir));
    } else {
      var n := |parts| - 1;
      assert parts[n] in parts;
      assert (dir + parts)[..|dir + parts| - 1] == dir + parts[..n];
      assert forall part :: part in parts[..n] ==> part in parts;
      LexicalOfPlain(dir, parts[..n]);
      assert parts == parts[..n] + [parts[n]];
      Associative(Lexical(dir), parts[..n], [parts[n]]);
    }
  }

  lemma {:induction false} LexicalIsPlain(parts: seq<string>)
    ensures forall part :: part in Lexical(parts) ==> part in parts
  {
    if parts != [] {
      LexicalIsPlain(parts[..|parts| - 1]);
    }
  }

  lemma {:induction false} LexicalOfTwo(a: seq<string>, b: seq<string>, c: seq<string>)
    requires Lexical(a) == Lexical(b)
    ensures Lexical(a + c) == Lexical(b + c)
  {
    if c == [] {
      EmptyConcat(a);
      EmptyConcat(b);
    } else {
      var n := |c| - 1;
      assert (a + c)[..|a + c| - 1] == a + c[..n] && (b + c)[..|b + c| - 1] == b + c[..n];
      LexicalOfTwo(a, b, c[..n]);
    }
  }

  /** What resolving does to any list of components: empty ones and "." count for nothing,
      ".." takes back the component in front of it, and nothing at the root; what is left is
      spelled out, and spelled-out components stay. */
  lemma LexicalLaws(a: seq<string>, part: string, b: seq<string>)
    ensures part == "" || part == "." ==> Lexical(a + [part] + b) == Lexical(a + b)
    ensures IsPlainPart(part) ==> Lexical(a + [part, ".."] + b) == Lexical(a + b)
    ensures Lexical([".."] + b) == Lexical(b)
    ensures (forall p :: p in a ==> IsPlainPart(p)) ==> Lexical(a) == a
    ensures forall p :: p in Lexical(a) ==> IsPlainPart(p)
  {
    assert (a + [part])[..|a|] == a;
    if part == "" || part == "." {
      LexicalOfTwo(a + [part], a, b);
    }
    if IsPlainPart(part) {
      var up := a + [part, ".."];
      assert up[..|up| - 1] == a + [part];
      assert Lexical(a + [part]) == Lexical(a) + [part];
      LexicalOfTwo(up, a, b);
    }
    assert [".."][..0] == [];
    LexicalOfTwo([".."], [], b);
    EmptyConcat(b);
    if forall p :: p in a ==> IsPlainPart(p) {
      LexicalOfPlain([], a);
      EmptyConcat(a);
    }
    LexicalLeavesPlain(a);
  }

  lemma {:induction false} LexicalLeavesPlain(parts: seq<string>)
    ensures forall p :: p in Lexical(parts) ==> IsPlainPart(p)
  {
    if parts != [] {
      LexicalLeavesPlain(parts[..|parts| - 1]);
    }
  }

  lemma {:induction false} PartThenSlash(part: string, rest: string)
    requires '/' !in part
    ensures Components(part) == [part]
    ensures Components(part + ("/" + rest)) == [part] + Components(rest)
  {
    if part == "" {
      EmptyConcat("/" + rest);
      PartsOfConcat("/", rest);
    } else {
      TailOfConcat(part, "/" + rest);
      HeadAndTail(part);
      PartThenSlash(part[1..], rest);
      PartsOfConcat([part[1..]], Components(rest));
    }
  }

  lemma {:induction false} ComponentsOfSpelled(parts: seq<string>)
    requires parts != [] && forall part :: part in parts ==> '/' !in part
    ensures Components(Spell(parts)) == parts
  {
    if |parts| == 1 {
      PartThenSlash(parts[0], "");
    } else {
      ComponentsOfSpelled(parts[1..]);
      PartThenSlash(parts[0], Spell(parts[1..]));
      HeadAndTail(parts);
    }
  }

  lemma {:induction false} NoSlashInside(path: string)
    ensures forall part :: part in Components(path) ==> '/' !in part
  {
    if path != "" {
      NoSlashInside(path[1..]);
      HeadAndTail(Components(path[1..]));
    }
  }

  lemma PlainIsRelative(path: string)
    requires IsPlainPath(path)
    ensures path != "" && path[0] != '/'
  {
    assert Components(path)[0] in Components(path);
  }

  lemma PlaceParts(dir: seq<string>, path: string)
    requires forall part :: part in dir ==> '/' !in part
    ensures Components(PlaceFrom(dir, path)) == [""] + PartsFrom(dir, path)
  {
    var parts := PartsFrom(dir, path);
    NoSlashInside(path);
    LexicalIsPlain(if path != "" && path[0] == '/' then Components(path) else dir + Components(path));
    if parts == [] {
      EmptyConcat([""]);
    } else {
      ComponentsOfSpelled(parts);
      PartsOfConcat("/", Spell(parts));
    }
  }

  lemma PrefixBehind<T>(front: seq<T>, a: seq<T>, b: seq<T>)
    ensures front + a <= front + b <==> a <= b
  {
    PartsOfConcat(front, a);
    PartsOfConcat(front, b);
    if front + a <= front + b {
      assert forall k :: 0 <= k < |a| ==> (front + a)[|front| + k] == a[k] && (front + b)[|front| + k] == b[k];
    }
  }

  /** One is the beginning of the other. */
  predicate Comparable(a: seq<string>, b: seq<string>) {
    a <= b || b <= a
  }

  /** Places overlap exactly when their components do. */
  lemma PlacesOverlapIff(dir: seq<string>, a: string, b: string)
    requires forall part :: part in dir ==> '/' !in part
    ensures Overlap(PlaceFrom(dir, a), PlaceFrom(dir, b)) <==> Comparable(PartsFrom(dir, a), PartsFrom(dir, b))
  {
    PlaceParts(dir, a);
    PlaceParts(dir, b);
    hide PlaceFrom, PartsFrom;
    PrefixBehind([""], PartsFrom(dir, a), PartsFrom(dir, b));
    PrefixBehind([""], PartsFrom(dir, b), PartsFrom(dir, a));
  }

  /** The two ways in which the test can be wrong about two spellings, in terms of their
      components, as spelled and as resolved: it misses an overlap, or sees one that is
      not there. */
  lemma TestErrsWhen(dir: seq<string>, a: string, b: string)
    requires forall part :: part in dir ==> '/' !in part
    ensures !Overlap(a, b) && Overlap(PlaceFrom(dir, a), PlaceFrom(dir, b))
       <==> !Comparable(Components(a), Components(b)) && Comparable(PartsFrom(dir, a), PartsFrom(dir, b))
    ensures Overlap(a, b) && !Overlap(PlaceFrom(dir, a), PlaceFrom(dir, b))
       <==> Comparable(Components(a), Components(b)) && !Comparable(PartsFrom(dir, a), PartsFrom(dir, b))
  {
    PlacesOverlapIff(dir, a, b);
    hide PlaceFrom, PartsFrom;
  }

  lemma PlainParts(dir: seq<string>, path: string)
    requires IsPlainPath(path)
    ensures PartsFrom(dir, path) == Lexical(dir) + Components(path)
  {
    PlainIsRelative(path);
    LexicalOfPlain(dir, Components(path));
  }

  /** Between spelled-out relative paths the test is right. */
  lemma PlainPathsTell(dir: seq<string>, a: string, b: string)
    requires IsPlainPath(a) && IsPlainPath(b) && forall part :: part in dir ==> '/' !in part
    ensures Overlap(PlaceFrom(dir, a), PlaceFrom(dir, b)) <==> Overlap(a, b)
  {
    PlacesOverlapIff(dir, a, b);
    PlainParts(dir, a);
    PlainParts(dir, b);
    hide PlaceFrom, PartsFrom, IsPlainPath, Lexical;
    PrefixBehind(Lexical(dir), Components(a), Components(b));
    PrefixBehind(Lexical(dir), Components(b), Components(a));
  }

  /** Between an absolute path and a relative one, both spelled out, it never sees an
      overlap, and misses one exactly when the absolute path and the directory followed
      by the relative one are comparable. */
  lemma AbsoluteAndRelative(dir: seq<string>, rest: string, b: string)
    requires IsPlainPath(rest) && IsPlainPath(b) && forall part :: part in dir ==> '/' !in part
    ensures !Overlap("/" + rest, b)
    ensures Overlap(PlaceFrom(dir, "/" + rest), PlaceFrom(dir, b))
       <==> Comparable(Components(rest), Lexical(dir) + Components(b))
  {
    var a := "/" + rest;
    AbsoluteParts(dir, rest);
    PlainParts(dir, b);
    PlacesOverlapIff(dir, a, b);
    assert Components(b)[0] in Components(b) && Components(a)[0] == "";
    hide PlaceFrom, PartsFrom, Lexical;
  }

  lemma AbsoluteParts(dir: seq<string>, rest: string)
    requires IsPlainPath(rest)
    ensures Components("/" + rest) == [""] + Components(rest)
    ensures PartsFrom(dir, "/" + rest) == Components(rest)
  {
    PartsOfConcat("/", rest);
    LexicalOfPlain([""], Components(rest));
    assert [""][..0] == [];
    assert Lexical([""]) == [];
    EmptyConcat(Components(rest));
  }

  /** In general they are not: "notes.txt" and "./notes.txt" do not overlap as spelled and
      name one place, so the spelling does not suffice. */
  lemma DotHidesOverlap(dir: seq<string>)
    requires forall part :: part in dir ==> '/' !in part
    ensures !Overlap("notes.txt", "./notes.txt")
    ensures PlaceFrom(dir, "notes.txt") == PlaceFrom(dir, "./notes.txt")
    ensures !SpellingSuffices(path => PlaceFrom(dir, path))
  {
    DottedParts();
    assert |"notes.txt"| != |"."|;
    assert Components("notes.txt")[0] != Components("./notes.txt")[0];
    DottedPlace(dir);
    hide Components, PlaceFrom;
    var resolve := path => PlaceFrom(dir, path);
    UnderItself(resolve("notes.txt"));
    assert Overlap(resolve("notes.txt"), resolve("./notes.txt"));
    SpellingSufficesIff(resolve);
    hide SpellingSuffices;
  }

  lemma DottedParts()
    ensures Components("notes.txt") == ["notes.txt"] && Components("./notes.txt") == [".", "notes.txt"]
  {
    hide Components;
    PartThenSlash("notes.txt", "");
    PartThenSlash(".", "notes.txt");
    assert "./notes.txt" == "." + ("/" + "notes.txt");
  }

  lemma DottedPlace(dir: seq<string>)
    ensures PlaceFrom(dir, "notes.txt") == PlaceFrom(dir, "./notes.txt")
  {
    hide Components, Spell;
    DottedParts();
    SameDirectory(dir);
    LexicalOfPlain(dir, ["notes.txt"]);
    LexicalOfPlain(dir + ["."], ["notes.txt"]);
    assert dir + [".", "notes.txt"] == (dir + ["."]) + ["notes.txt"];
    hide Lexical;
  }

  lemma SameDirectory(dir: seq<string>)
    ensures Lexical(dir + ["."]) == Lexical(dir)
  {
    assert (dir + ["."])[..|dir|] == dir;
  }
}
