/** Tool blocks: an assistant message that issues calls, immediately followed by
    exactly one result for each of them.  Providers reject any other layout. */
module Blocks {
  import opened Messages
  import opened Sequences

  // ----- Well-formed histories -----

  predicate IsCaller(m: Message) {
    m.role == Assistant && m.toolCalls != []
  }

  predicate IsResult(m: Message) {
    m.role == Tool && m.toolCallId.Some?
  }

  function CallIds(calls: seq<ToolCall>): (ids: seq<string>)
    ensures |ids| == |calls|
    ensures forall i :: 0 <= i < |calls| ==> ids[i] == calls[i].id
  {
    seq(|calls|, i requires 0 <= i < |calls| => calls[i].id)
  }

  /** Call ids issued by assistant messages, in order. */
  function IssuedIds(h: History): seq<string> {
    if h == [] then []
    else (if h[0].role == Assistant then CallIds(h[0].toolCalls) else []) + IssuedIds(h[1..])
  }

  /** Call ids answered by tool messages, in order. */
  function AnsweredIds(h: History): seq<string> {
    if h == [] then []
    else (if IsResult(h[0]) then [h[0].toolCallId.value] else []) + AnsweredIds(h[1..])
  }

  predicate NoDuplicates(ids: seq<string>) {
    forall i, j :: 0 <= i < j < |ids| ==> ids[i] != ids[j]
  }

  /** `results` answers every call once, in any order, and contains nothing else. */
  predicate Answers(calls: seq<ToolCall>, results: History) {
    && (forall m :: m in results ==> IsResult(m))
    && multiset(AnsweredIds(results)) == multiset(CallIds(calls))
  }

  /** How many messages the block or plain message at the front of `h` takes. */
  function UnitLength(h: History): nat
    requires h != []
  {
    if IsCaller(h[0]) then 1 + |h[0].toolCalls| else 1
  }

  /** A plain message, or a caller followed by exactly its results. */
  predicate Unit(u: History) {
    u != [] && if IsCaller(u[0]) then Answers(u[0].toolCalls, u[1..]) else |u| == 1 && u[0].role != Tool
  }

  /** `h` is a sequence of plain messages and complete tool blocks. */
  predicate BlocksOk(h: History)
    decreases |h|
  {
    h == [] ||
    (UnitLength(h) <= |h| && Unit(h[..UnitLength(h)]) && BlocksOk(h[UnitLength(h)..]))
  }

  predicate WellFormed(h: History) {
    BlocksOk(h) && NoDuplicates(IssuedIds(h))
  }

  /** A caller with results for some of its calls, none twice; or nothing. */
  predicate PartialBlock(b: History) {
    b == [] ||
    (&& IsCaller(b[0])
     && (forall m :: m in b[1..] ==> IsResult(m))
     && NoDuplicates(AnsweredIds(b[1..]))
     && (forall id :: id in AnsweredIds(b[1..]) ==> id in CallIds(b[0].toolCalls)))
  }

  /** What a checkpoint may hold: complete blocks, then at most one partly
      answered block at the very end. */
  ghost predicate Resumable(h: History) {
    NoDuplicates(IssuedIds(h)) &&
    exists c :: 0 <= c <= |h| && BlocksOk(h[..c]) && PartialBlock(h[c..])
  }

  // ----- Concatenation -----

  lemma {:induction false} IssuedIdsConcat(a: History, b: History)
    ensures IssuedIds(a + b) == IssuedIds(a) + IssuedIds(b)
  {
    if a == [] {
      EmptyConcat(b);
    } else {
      TailOfConcat(a, b);
      IssuedIdsConcat(a[1..], b);
      Associative((if a[0].role == Assistant then CallIds(a[0].toolCalls) else []), IssuedIds(a[1..]), IssuedIds(b));
    }
  }

  lemma {:induction false} AnsweredIdsConcat(a: History, b: History)
    ensures AnsweredIds(a + b) == AnsweredIds(a) + AnsweredIds(b)
  {
    if a == [] {
      EmptyConcat(b);
    } else {
      TailOfConcat(a, b);
      AnsweredIdsConcat(a[1..], b);
      Associative((if IsResult(a[0]) then [a[0].toolCallId.value] else []), AnsweredIds(a[1..]), AnsweredIds(b));
    }
  }

  // ----- Results only: no issued ids, as many answered ids as messages -----

  lemma {:induction false} ResultsOnly(rs: History)
    requires forall m :: m in rs ==> IsResult(m)
    ensures IssuedIds(rs) == [] && |AnsweredIds(rs)| == |rs|
    ensures forall i :: 0 <= i < |rs| ==> IsResult(rs[i]) && AnsweredIds(rs)[i] == rs[i].toolCallId.value
  {
    if rs != [] {
      assert rs[0] in rs;
      ResultsOnly(rs[1..]);
    }
  }

  lemma AnswersLength(calls: seq<ToolCall>, rs: History)
    requires Answers(calls, rs)
    ensures |rs| == |calls|
  {
    ResultsOnly(rs);
    assert |multiset(AnsweredIds(rs))| == |multiset(CallIds(calls))|;
  }

  // ----- Units and blocks under concatenation -----

  lemma UnitLengthIsLength(u: History, rest: History)
    requires Unit(u)
    ensures UnitLength(u + rest) == |u|
  {
    if IsCaller(u[0]) {
      AnswersLength(u[0].toolCalls, u[1..]);
    }
  }

  lemma NoBlocks(h: History)
    ensures BlocksOk(h[..0])
  {
  }

  lemma FirstUnit(h: History)
    requires BlocksOk(h) && h != []
    ensures UnitLength(h) <= |h| && Unit(h[..UnitLength(h)]) && BlocksOk(h[UnitLength(h)..])
  {
  }

  lemma UnitThen(u: History, rest: History)
    requires Unit(u)
    ensures BlocksOk(u + rest) <==> BlocksOk(rest)
  {
    hide Unit;
    UnitLengthIsLength(u, rest);
    PartsOfConcat(u, rest);
  }

  /** Blocks in front do not change what is well-formed behind them. */
  lemma {:induction false} BlocksOkConcat(a: History, b: History)
    requires BlocksOk(a)
    ensures BlocksOk(a + b) <==> BlocksOk(b)
    decreases |a|
  {
    hide Unit;
    if a == [] {
      EmptyConcat(b);
    } else {
      var n := UnitLength(a);
      BlocksOkConcat(a[n..], b);
      UnitThen(a[..n], a[n..] + b);
      SplitAt(a, n);
      Associative(a[..n], a[n..], b);
    }
  }

  // ----- Cutting a well-formed history -----

  lemma UnitHasResultsInside(u: History, k: nat)
    requires Unit(u) && 0 < k < |u|
    ensures IsResult(u[k])
  {
    assert u[1..][k - 1] in u[1..];
  }

  /** A cut that does not fall in front of a tool message splits no block. */
  lemma {:induction false} CutBetweenBlocks(h: History, k: nat)
    requires BlocksOk(h) && k <= |h| && (k == |h| || h[k].role != Tool)
    ensures BlocksOk(h[..k]) && BlocksOk(h[k..])
    decreases |h|
  {
    hide Unit;
    if k == 0 {
      EmptyConcat(h);
      SplitAt(h, 0);
    } else if k < UnitLength(h) {
      UnitHasResultsInside(h[..UnitLength(h)], k);
    } else {
      var n := UnitLength(h);
      CutBetweenBlocks(h[n..], k - n);
      UnitThen(h[..n], h[n..][..k - n]);
      TakePastSplit(h, n, k);
      DropPastSplit(h, n, k);
    }
  }

  /** The start of the block that position `k` falls into, or `k` itself when
      `k` falls between blocks. */
  function LastBoundary(h: History, k: nat): (c: nat)
    requires k <= |h|
    ensures c <= k
    decreases |h|
  {
    if k == 0 || k < UnitLength(h) then 0
    else UnitLength(h) + LastBoundary(h[UnitLength(h)..], k - UnitLength(h))
  }

  lemma {:induction false} FirstBlockCovers(h: History, k: nat)
    requires BlocksOk(h) && 0 < k <= |h| && k < UnitLength(h)
    ensures InsideBlock(h, 0, k)
  {
    assert h[..UnitLength(h)][1..] == h[1..UnitLength(h)];
  }

  /** Everything before the block that a cut falls into is made of complete blocks. */
  lemma {:induction false} BlocksBeforeBoundary(h: History, k: nat)
    requires BlocksOk(h) && k <= |h|
    ensures BlocksOk(h[..LastBoundary(h, k)])
    decreases |h|
  {
    hide Unit, BlocksOk;
    if k == 0 || k < UnitLength(h) {
      NoBlocks(h);
    } else {
      var n := UnitLength(h);
      FirstUnit(h);
      var c := LastBoundary(h[n..], k - n);
      BlocksBeforeBoundary(h[n..], k - n);
      UnitThen(h[..n], h[n..][..c]);
      TakePastSplit(h, n, n + c);
    }
  }

  /** A cut that is not between blocks is inside the block at `LastBoundary`. */
  lemma {:induction false} CutInsideBlock(h: History, k: nat)
    requires BlocksOk(h) && k <= |h| && LastBoundary(h, k) < k
    ensures InsideBlock(h, LastBoundary(h, k), k)
    decreases |h|
  {
    hide Unit, InsideBlock, BlocksOk;
    if k < UnitLength(h) {
      FirstBlockCovers(h, k);
    } else {
      var n := UnitLength(h);
      FirstUnit(h);
      CutInsideBlock(h[n..], k - n);
      InsideBlockShift(h, n, LastBoundary(h[n..], k - n), k - n);
    }
  }

  /** The complete block at `c` extends past `k`. */
  predicate InsideBlock(h: History, c: nat, k: nat) {
    && c < k < |h| && IsCaller(h[c]) && k <= c + |h[c].toolCalls| < |h|
    && Answers(h[c].toolCalls, h[c + 1..c + 1 + |h[c].toolCalls|])
  }

  lemma InsideBlockShift(h: History, n: nat, c: nat, k: nat)
    requires n <= |h| && InsideBlock(h[n..], c, k)
    ensures InsideBlock(h, n + c, n + k)
  {
    var m := |h[n + c].toolCalls|;
    assert h[n..][c + 1..c + 1 + m] == h[n + c + 1..n + c + 1 + m];
  }

  // ----- Duplicate-free id lists -----

  lemma NoDuplicatesParts(a: seq<string>, b: seq<string>)
    requires NoDuplicates(a + b)
    ensures NoDuplicates(a) && NoDuplicates(b)
    ensures forall id :: id in a ==> id !in b
  {
    var s := a + b;
    forall i, j | 0 <= i < j < |a| ensures a[i] != a[j] { assert s[i] != s[j]; }
    forall i, j | 0 <= i < j < |b| ensures b[i] != b[j] { assert s[|a| + i] != s[|a| + j]; }
    forall id | id in a ensures id !in b {
      var i :| 0 <= i < |a| && a[i] == id;
      forall j | 0 <= j < |b| ensures b[j] != id { assert s[i] != s[|a| + j]; }
    }
  }

  lemma {:induction false} NoDuplicatesCounts(ids: seq<string>)
    requires NoDuplicates(ids)
    ensures forall id :: multiset(ids)[id] == if id in ids then 1 else 0
  {
    if ids != [] {
      var rest := ids[..|ids| - 1];
      NoDuplicatesCounts(rest);
      assert ids == rest + [ids[|ids| - 1]];
    }
  }

  /** Two disjoint duplicate-free lists that together cover `all` are a
      rearrangement of it. */
  lemma CoverIsRearrangement(a: seq<string>, b: seq<string>, all: seq<string>)
    requires NoDuplicates(a) && NoDuplicates(b) && NoDuplicates(all)
    requires forall id :: id in a ==> id in all
    requires forall id :: id in b <==> id in all && id !in a
    ensures multiset(a) + multiset(b) == multiset(all)
  {
    NoDuplicatesCounts(a);
    NoDuplicatesCounts(b);
    NoDuplicatesCounts(all);
  }
}
