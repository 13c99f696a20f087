/** Putting together tool calls that a provider streams in interleaved fragments. */
module ToolAssembler {
  import opened Wrappers
  import opened Messages
  import opened IndexSort
  import opened Sequences

  datatype PendingToolCall = PendingToolCall(id: string, name: string, argumentsBuf: string)

  /** One streamed fragment. */
  datatype Delta =
    | Started(index: nat, id: string, name: string)
    | Appended(index: nat, text: string)

  type PendingMap = map<nat, PendingToolCall>

  // ----- What the fragments of one index amount to -----

  function Projection(trace: seq<Delta>, index: nat): seq<Delta> {
    if trace == [] then []
    else (if trace[0].index == index then [trace[0]] else []) + Projection(trace[1..], index)
  }

  function LastStart(fragments: seq<Delta>): (p: Option<nat>)
    ensures p.Some? ==> p.value < |fragments| && fragments[p.value].Started?
    ensures forall k :: (if p.Some? then p.value < k else 0 <= k) && k < |fragments| ==> fragments[k].Appended?
  {
    if fragments == [] then None
    else if fragments[|fragments| - 1].Started? then Some(|fragments| - 1)
    else LastStart(fragments[..|fragments| - 1])
  }

  function TextOf(fragments: seq<Delta>): string {
    if fragments == [] then ""
    else TextOf(fragments[..|fragments| - 1])
         + (if fragments[|fragments| - 1].Appended? then fragments[|fragments| - 1].text else "")
  }

  /** The last start's id and name, and the text appended since. */
  function Gathered(fragments: seq<Delta>): Option<PendingToolCall> {
    match LastStart(fragments)
    case None => None
    case Some(p) => Some(PendingToolCall(fragments[p].id, fragments[p].name, TextOf(fragments[p + 1..])))
  }

  // ----- What the assembler does with a trace -----

  function Apply(pending: PendingMap, d: Delta): PendingMap {
    match d
    case Started(i, id, name) => pending[i := PendingToolCall(id, name, "")]
    case Appended(i, text) =>
      if i in pending then pending[i := pending[i].(argumentsBuf := pending[i].argumentsBuf + text)] else pending
  }

  function Assembled(trace: seq<Delta>): PendingMap {
    if trace == [] then map[] else Apply(Assembled(trace[..|trace| - 1]), trace[|trace| - 1])
  }

  lemma {:induction false} ProjectionExtends(trace: seq<Delta>, d: Delta, index: nat)
    ensures Projection(trace + [d], index) == Projection(trace, index) + (if d.index == index then [d] else [])
  {
    if trace == [] {
      EmptyConcat([d]);
      assert [d][1..] == [];
    } else {
      TailOfConcat(trace, [d]);
      ProjectionExtends(trace[1..], d, index);
      Associative(if trace[0].index == index then [trace[0]] else [], Projection(trace[1..], index),
                  if d.index == index then [d] else []);
    }
  }

  lemma LastStartExtends(fragments: seq<Delta>, d: Delta)
    ensures LastStart(fragments + [d]) == if d.Started? then Some(|fragments|) else LastStart(fragments)
  {
    var all := fragments + [d];
    assert all[..|all| - 1] == fragments && all[|all| - 1] == d;
  }

  lemma TextExtends(fragments: seq<Delta>, d: Delta)
    ensures TextOf(fragments + [d]) == TextOf(fragments) + (if d.Appended? then d.text else "")
  {
    var all := fragments + [d];
    assert all[..|all| - 1] == fragments && all[|all| - 1] == d;
  }

  lemma GatheredExtends(fragments: seq<Delta>, d: Delta)
    ensures Gathered(fragments + [d]) ==
            match d
            case Started(_, id, name) => Some(PendingToolCall(id, name, ""))
            case Appended(_, text) =>
              if Gathered(fragments).Some? then
                Some(Gathered(fragments).value.(argumentsBuf := Gathered(fragments).value.argumentsBuf + text))
              else None
  {
    hide LastStart, TextOf;
    var all := fragments + [d];
    LastStartExtends(fragments, d);
    if d.Started? {
      assert all[|all|..] == [];
      NoText();
    } else if LastStart(fragments).Some? {
      var p := LastStart(fragments).value;
      assert all[p + 1..] == fragments[p + 1..] + [d];
      TextExtends(fragments[p + 1..], d);
    }
  }

  lemma NoText()
    ensures TextOf([]) == ""
  {
  }

  /** Main result: after any interleaving, index `i` holds what its own fragments amount to. */
  lemma {:induction false} AssembledPerIndex(trace: seq<Delta>, i: nat)
    ensures i in Assembled(trace) <==> Gathered(Projection(trace, i)).Some?
    ensures i in Assembled(trace) ==> Assembled(trace)[i] == Gathered(Projection(trace, i)).value
  {
    hide Gathered;
    if trace == [] {
      NothingGathered();
    } else {
      var front, d := trace[..|trace| - 1], trace[|trace| - 1];
      AssembledPerIndex(front, i);
      assert trace == front + [d];
      ProjectionExtends(front, d, i);
      GatheredExtends(Projection(front, i), d);
      EmptyConcat(Projection(front, i));
    }
  }

  lemma NothingGathered()
    ensures Gathered([]) == None
  {
  }

  // ----- Finishing -----

  /** `items` lists the entries of `m` by ascending index. */
  ghost predicate AscendingItems(items: seq<(nat, PendingToolCall)>, m: PendingMap) {
    && StrictlySorted(items)
    && forall i: nat, p :: (i, p) in items <==> i in m && m[i] == p
  }

  /** JSON parsing, and the wrapper for text that does not parse. */
  datatype Json = Json(parse: string -> Result<Arguments, string>, wrap: (string, string) -> Arguments)

  function ArgumentsOf(json: Json, buffer: string): Arguments {
    match json.parse(buffer)
    case Ok(v) => v
    case Err(e) => json.wrap(buffer, e)
  }

  function Finished(json: Json, items: seq<(nat, PendingToolCall)>): seq<ToolCall> {
    seq(|items|, k requires 0 <= k < |items| =>
      ToolCall(items[k].1.id, items[k].1.name, ArgumentsOf(json, items[k].1.argumentsBuf)))
  }

  class ToolCallAssembler {
    var pending: PendingMap
    /** Everything received since creation or the last `Finish`. */
    ghost var trace: seq<Delta>

    ghost predicate Valid()
      reads this
    {
      pending == Assembled(trace)
    }

    constructor ()
      ensures Valid() && trace == []
    {
      pending := map[];
      trace := [];
    }

    method Start(index: nat, id: string, name: string)
      requires Valid()
      modifies this
      ensures Valid() && trace == old(trace) + [Started(index, id, name)]
    {
      pending := pending[index := PendingToolCall(id, name, "")];
      trace := trace + [Started(index, id, name)];
      assert trace[..|trace| - 1] == old(trace);
    }

    method AppendArguments(index: nat, delta: string)
      requires Valid()
      modifies this
      ensures Valid() && trace == old(trace) + [Appended(index, delta)]
    {
      if index in pending {
        var entry := pending[index];
        pending := pending[index := entry.(argumentsBuf := entry.argumentsBuf + delta)];
      }
      trace := trace + [Appended(index, delta)];
      assert trace[..|trace| - 1] == old(trace);
    }

    /** Drains the map, in whatever order it yields its entries, and sorts. */
    method Finish(json: Json) returns (calls: seq<ToolCall>, ghost items: seq<(nat, PendingToolCall)>)
      requires Valid()
      modifies this
      ensures Valid() && trace == []
      ensures AscendingItems(items, Assembled(old(trace)))
      ensures calls == Finished(json, items)
    {
      var entries: seq<(nat, PendingToolCall)> := [];
      ghost var all := pending;
      while pending != map[]
        invariant forall i: nat, p :: (i, p) in entries <==> i in all && i !in pending && all[i] == p
        invariant forall i :: i in pending ==> i in all && all[i] == pending[i]
        invariant DistinctIndices(entries)
        decreases |pending|
      {
        var index :| index in pending;
        entries := Drained(entries, index, pending[index]);
        pending := pending - {index};
      }
      SortByIndexSorts(entries);
      var sorted := SortByIndex(entries);
      SameMembers(entries, sorted);
      items := sorted;
      trace := [];
      calls := seq(|sorted|, k requires 0 <= k < |sorted| =>
        ToolCall(sorted[k].1.id, sorted[k].1.name, ArgumentsOf(json, sorted[k].1.argumentsBuf)));
    }
  }

  lemma SameMembers(a: seq<(nat, PendingToolCall)>, b: seq<(nat, PendingToolCall)>)
    requires multiset(a) == multiset(b)
    ensures forall i: nat, p :: (i, p) in a <==> (i, p) in b
  {
    forall i: nat, p ensures (i, p) in a <==> (i, p) in b {
      assert (i, p) in multiset(a) <==> (i, p) in multiset(b);
    }
  }

  function Drained(entries: seq<(nat, PendingToolCall)>, i: nat, p: PendingToolCall): (all: seq<(nat, PendingToolCall)>)
    ensures forall j: nat, q :: (j, q) in all <==> (j, q) in entries || (j, q) == (i, p)
    ensures DistinctIndices(entries) && (forall k :: 0 <= k < |entries| ==> entries[k].0 != i) ==> DistinctIndices(all)
  {
    entries + [(i, p)]
  }

  // ----- Interleaving does not matter -----

  /** The entries are the started indices, ascending, each with what its own fragments
      amount to. */
  lemma ItemsPerIndex(trace: seq<Delta>, items: seq<(nat, PendingToolCall)>)
    requires AscendingItems(items, Assembled(trace))
    ensures StrictlySorted(items)
    ensures forall i: nat, p :: (i, p) in items <==> Gathered(Projection(trace, i)) == Some(p)
  {
    forall i: nat, p ensures (i, p) in items <==> Gathered(Projection(trace, i)) == Some(p) {
      AssembledPerIndex(trace, i);
    }
  }

  /** `p` is where the last start of an index stands among its fragments. */
  predicate StartsLast(fragments: seq<Delta>, p: nat) {
    p < |fragments| && fragments[p].Started? && forall i :: p < i < |fragments| ==> fragments[i].Appended?
  }

  lemma GatheredStarts(fragments: seq<Delta>)
    requires Gathered(fragments).Some?
    ensures var p, g := LastStart(fragments).value, Gathered(fragments).value;
            && StartsLast(fragments, p)
            && g == PendingToolCall(fragments[p].id, fragments[p].name, TextOf(fragments[p + 1..]))
  {
    hide LastStart, TextOf;
  }

  /** What comes out at the end: for each started index, ascending, one call with the id and
      name of its last start, and the arguments that the text appended since then parses to;
      text that does not parse is wrapped together with the error. */
  lemma FinishedCalls(json: Json, trace: seq<Delta>, items: seq<(nat, PendingToolCall)>, k: nat)
    requires AscendingItems(items, Assembled(trace)) && k < |items|
    ensures |Finished(json, items)| == |items|
    ensures var fragments := Projection(trace, items[k].0);
            var call := Finished(json, items)[k];
            exists p: nat :: StartsLast(fragments, p)
                        && call.id == fragments[p].id && call.name == fragments[p].name
                        && match json.parse(TextOf(fragments[p + 1..]))
                           case Ok(arguments) => call.arguments == arguments
                           case Err(e) => call.arguments == json.wrap(TextOf(fragments[p + 1..]), e)
  {
    hide TextOf, LastStart, Projection, StartsLast, AscendingItems;
    var (i, g) := items[k];
    ItemsAt(trace, items, k);
    GatheredStarts(Projection(trace, i));
  }

  lemma ItemsAt(trace: seq<Delta>, items: seq<(nat, PendingToolCall)>, k: nat)
    requires AscendingItems(items, Assembled(trace)) && k < |items|
    ensures Gathered(Projection(trace, items[k].0)) == Some(items[k].1)
  {
    ItemsPerIndex(trace, items);
    assert items[k] == (items[k].0, items[k].1) && items[k] in items;
  }

  /** Main result: traces that agree index by index finish with the same calls, whatever
      the interleaving and the drain orders. */
  lemma InterleavingIrrelevant(json: Json, trace: seq<Delta>, other: seq<Delta>,
                               items: seq<(nat, PendingToolCall)>, otherItems: seq<(nat, PendingToolCall)>)
    requires forall i: nat :: Projection(trace, i) == Projection(other, i)
    requires AscendingItems(items, Assembled(trace)) && AscendingItems(otherItems, Assembled(other))
    ensures Finished(json, items) == Finished(json, otherItems)
  {
    ItemsPerIndex(trace, items);
    ItemsPerIndex(other, otherItems);
    forall i: nat, p ensures (i, p) in items <==> (i, p) in otherItems {
      assert Projection(trace, i) == Projection(other, i);
    }
    SortedIsUnique(items, otherItems);
  }

  /** A strictly sorted list is determined by what it contains. */
  lemma {:induction false} SortedIsUnique(xs: seq<(nat, PendingToolCall)>, ys: seq<(nat, PendingToolCall)>)
    requires StrictlySorted(xs) && StrictlySorted(ys)
    requires forall i: nat, p :: (i, p) in xs <==> (i, p) in ys
    ensures xs == ys
  {
    if xs != [] && ys != [] {
      SameFirst(xs, ys);
      HeadAndTail(xs);
      HeadAndTail(ys);
      forall i: nat, p ensures (i, p) in xs[1..] <==> (i, p) in ys[1..] {
        TailMembers(xs, i, p);
        TailMembers(ys, i, p);
      }
      SortedIsUnique(xs[1..], ys[1..]);
    } else {
      FirstMember(xs);
      FirstMember(ys);
    }
  }

  lemma FirstMember(xs: seq<(nat, PendingToolCall)>)
    ensures xs != [] ==> (xs[0].0, xs[0].1) in xs
  {
    assert xs != [] ==> xs[0] == (xs[0].0, xs[0].1);
  }

  lemma SameFirst(xs: seq<(nat, PendingToolCall)>, ys: seq<(nat, PendingToolCall)>)
    requires StrictlySorted(xs) && StrictlySorted(ys) && xs != [] && ys != []
    requires forall i: nat, p :: (i, p) in xs <==> (i, p) in ys
    ensures xs[0] == ys[0]
  {
    FirstMember(xs);
    FirstMember(ys);
    var a :| 0 <= a < |ys| && ys[a] == (xs[0].0, xs[0].1);
    var b :| 0 <= b < |xs| && xs[b] == (ys[0].0, ys[0].1);
  }

  lemma TailMembers(xs: seq<(nat, PendingToolCall)>, i: nat, p: PendingToolCall)
    requires StrictlySorted(xs) && xs != []
    ensures (i, p) in xs[1..] <==> (i, p) in xs && (i, p) != xs[0]
  {
    if (i, p) in xs[1..] {
      var k :| 0 <= k < |xs| - 1 && xs[1..][k] == (i, p);
      assert xs[k + 1] == (i, p);
    }
    if (i, p) in xs && (i, p) != xs[0] {
      var k :| 0 <= k < |xs| && xs[k] == (i, p);
      assert xs[1..][k - 1] == (i, p);
    }
  }
}
