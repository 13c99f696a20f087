/** What the repair promises, for any history at all. */
module SanitizerTheorems {
  import opened Wrappers
  import opened Messages
  import opened Blocks
  import opened Sanitizer
  import opened Sequences

  /** Every call has a result and every result has a call. */
  predicate Paired(h: History) {
    Expected(h) == Actual(h)
  }

  // ----- Weaving in stubs issues nothing and answers exactly the inserted ids -----

  predicate OnlyStubs(ins: seq<Insertion>) {
    forall x :: x in ins ==> IsResult(x.1)
  }

  /** Ids of the insertions that go behind position `i`. */
  function IdsBehind(ins: seq<Insertion>, i: nat): seq<string>
    requires OnlyStubs(ins)
  {
    if ins == [] then []
    else (if i < ins[0].0 then [ins[0].1.toolCallId.value] else []) + IdsBehind(ins[1..], i)
  }

  lemma {:induction false} RunHoldsStubs(ins: seq<Insertion>, p: nat)
    ensures forall m :: m in RunAt(ins, p) <==> (p, m) in ins
  {
    if ins != [] {
      RunHoldsStubs(ins[1..], p);
      HeadAndTail(ins);
    }
  }

  lemma {:induction false} RunIssuesNothing(ins: seq<Insertion>, p: nat)
    requires OnlyStubs(ins)
    ensures IssuedIds(RunAt(ins, p)) == []
  {
    if ins != [] {
      RunIssuesNothing(ins[1..], p);
      IssuedIdsConcat(RunAt(ins[1..], p), if ins[0].0 == p then [ins[0].1] else []);
    }
  }

  lemma {:induction false} RunAnswers(ins: seq<Insertion>, i: nat, id: string)
    requires OnlyStubs(ins)
    ensures Times(IdsBehind(ins, i), id)
            == Times(AnsweredIds(RunAt(ins, i + 1)), id) + Times(IdsBehind(ins, i + 1), id)
  {
    hide Times;
    if ins != [] {
      RunAnswers(ins[1..], i, id);
      assert ins[0] in ins;
      SingletonIds(ins[0].1);
      var own := if ins[0].0 == i + 1 then [ins[0].1] else [];
      AnsweredIdsConcat(RunAt(ins[1..], i + 1), own);
      TimesConcat(AnsweredIds(RunAt(ins[1..], i + 1)), AnsweredIds(own), id);
      TimesConcat(if i < ins[0].0 then [ins[0].1.toolCallId.value] else [], IdsBehind(ins[1..], i), id);
      TimesConcat(if i + 1 < ins[0].0 then [ins[0].1.toolCallId.value] else [], IdsBehind(ins[1..], i + 1), id);
      NeverInNothing(id);
    } else {
      NeverInNothing(id);
    }
  }

  lemma NeverInNothing(id: string)
    ensures Times([], id) == 0
  {
    TimesPositive([], id);
  }

  lemma SingletonIds(m: Message)
    ensures IssuedIds([m]) == (if m.role == Assistant then CallIds(m.toolCalls) else [])
    ensures AnsweredIds([m]) == (if IsResult(m) then [m.toolCallId.value] else [])
  {
    EmptyConcat(if m.role == Assistant then CallIds(m.toolCalls) else []);
  }

  lemma {:induction false} NothingBehindEnd(ins: seq<Insertion>, i: nat)
    requires OnlyStubs(ins) && forall x :: x in ins ==> x.0 <= i
    ensures IdsBehind(ins, i) == []
  {
    if ins != [] {
      NothingBehindEnd(ins[1..], i);
    }
  }

  lemma {:induction false} WovenIssues(h: History, ins: seq<Insertion>, i: nat)
    requires OnlyStubs(ins) && i <= |h|
    ensures IssuedIds(Woven(h, ins, i)) == IssuedIds(h[i..])
    decreases |h| - i
  {
    if i < |h| {
      WovenIssues(h, ins, i + 1);
      RunIssuesNothing(ins, i + 1);
      IssuedIdsConcat([h[i]], RunAt(ins, i + 1));
      IssuedIdsConcat([h[i]] + RunAt(ins, i + 1), Woven(h, ins, i + 1));
      IssuedIdsConcat([h[i]], h[i + 1..]);
      HeadAndTail(h[i..]);
      EmptyConcat(IssuedIds([h[i]]));
    }
  }

  lemma {:induction false} WovenAnswers(h: History, ins: seq<Insertion>, i: nat, id: string)
    requires OnlyStubs(ins) && i <= |h| && forall x :: x in ins ==> x.0 <= |h|
    ensures Times(AnsweredIds(Woven(h, ins, i)), id) == Times(AnsweredIds(h[i..]), id) + Times(IdsBehind(ins, i), id)
    decreases |h| - i
  {
    hide Times, RunAt, IdsBehind, AnsweredIds;
    if i == |h| {
      NothingBehindEnd(ins, i);
      NothingAnswered();
      NeverInNothing(id);
    } else {
      var own, run, rest := [h[i]], RunAt(ins, i + 1), Woven(h, ins, i + 1);
      WovenAnswers(h, ins, i + 1, id);
      RunAnswers(ins, i, id);
      AnsweredIdsConcat(own, run);
      AnsweredIdsConcat(own + run, rest);
      AnsweredIdsConcat(own, h[i + 1..]);
      TimesConcat(AnsweredIds(own), AnsweredIds(run), id);
      TimesConcat(AnsweredIds(own + run), AnsweredIds(rest), id);
      TimesConcat(AnsweredIds(own), AnsweredIds(h[i + 1..]), id);
      HeadAndTail(h[i..]);
    }
  }

  lemma NothingAnswered()
    ensures AnsweredIds([]) == []
  {
  }

  lemma {:induction false} AllBehindStart(r: History, ids: seq<string>, n: nat)
    requires n <= |ids| && OnlyStubs(Insertions(r, ids)) && forall x :: x in Insertions(r, ids) ==> 0 < x.0
    ensures IdsBehind(Insertions(r, ids)[n..], 0) == ids[n..]
    decreases |ids| - n
  {
    if n < |ids| {
      AllBehindStart(r, ids, n + 1);
      HeadAndTail(ids[n..]);
      HeadAndTail(Insertions(r, ids)[n..]);
      assert Insertions(r, ids)[n] in Insertions(r, ids);
    }
  }

  /** The repair issues the same calls, and answers what was kept plus one stub
      for each missing call. */
  lemma SanitizedIds(h: History, ids: seq<string>)
    requires Enumerates(ids, Missing(h))
    ensures IssuedIds(Sanitized(h, ids)) == IssuedIds(h)
    ensures forall id :: Times(AnsweredIds(Sanitized(h, ids)), id)
                         == Times(AnsweredIds(Retained(h, Expected(h))), id) + Times(ids, id)
  {
    hide Times;
    var r := Retained(h, Expected(h));
    var ins := Insertions(r, ids);
    PositionsInRange(h, ids);
    AllBehindStart(r, ids, 0);
    assert ins[0..] == ins && ids[0..] == ids && r[0..] == r;
    WovenIssues(r, ins, 0);
    forall id { WovenAnswers(r, ins, 0, id); }
    RetainedIssues(h, Expected(h));
  }

  lemma {:induction false} RetainedAnswers(h: History, expected: set<string>, id: string)
    ensures Times(AnsweredIds(Retained(h, expected)), id) == if id in expected then Times(AnsweredIds(h), id) else 0
  {
    hide Times;
    if h == [] {
      NeverInNothing(id);
    } else {
      RetainedAnswers(h[1..], expected, id);
      var own := if IsResult(h[0]) then [h[0].toolCallId.value] else [];
      TimesConcat(own, AnsweredIds(h[1..]), id);
      TimesOfOwn(h[0], id);
      if IsOrphan(h[0], expected) {
        EmptyConcat(Retained(h[1..], expected));
      } else {
        PartsOfConcat([h[0]], Retained(h[1..], expected));
        TimesConcat(own, AnsweredIds(Retained(h[1..], expected)), id);
      }
    }
  }

  lemma TimesOfOwn(m: Message, id: string)
    ensures Times(if IsResult(m) then [m.toolCallId.value] else [], id)
            == if IsResult(m) && m.toolCallId.value == id then 1 else 0
  {
  }

  /** Main result: afterwards calls and results match exactly; every missing call
      has exactly one result, and no other call gained or lost any. */
  lemma SanitizedIsPaired(h: History, ids: seq<string>)
    requires Enumerates(ids, Missing(h))
    ensures Paired(Sanitized(h, ids))
    ensures Expected(Sanitized(h, ids)) == Expected(h)
    ensures forall id :: id in Expected(h) ==>
              Times(AnsweredIds(Sanitized(h, ids)), id) == if id in Actual(h) then Times(AnsweredIds(h), id) else 1
  {
    var out := Sanitized(h, ids);
    SanitizedIds(h, ids);
    NoDuplicatesCounts(ids);
    forall id
      ensures id in Actual(out) <==> id in Expected(out)
      ensures id in Expected(h) ==>
                Times(AnsweredIds(out), id) == if id in Actual(h) then Times(AnsweredIds(h), id) else 1
    {
      RetainedAnswers(h, Expected(h), id);
      TimesPositive(AnsweredIds(out), id);
      TimesPositive(AnsweredIds(h), id);
      assert id in ids <==> id in Missing(h);
    }
  }

  // ----- Survivors keep their order -----

  /** `h` without the results for the given ids. */
  function WithoutAnswers(h: History, ids: set<string>): History {
    if h == [] then []
    else (if IsResult(h[0]) && h[0].toolCallId.value in ids then [] else [h[0]]) + WithoutAnswers(h[1..], ids)
  }

  lemma {:induction false} WithoutAnswersConcat(a: History, b: History, ids: set<string>)
    ensures WithoutAnswers(a + b, ids) == WithoutAnswers(a, ids) + WithoutAnswers(b, ids)
  {
    if a == [] {
      EmptyConcat(b);
      EmptyConcat(WithoutAnswers(b, ids));
    } else {
      TailOfConcat(a, b);
      WithoutAnswersConcat(a[1..], b, ids);
      Associative(if IsResult(a[0]) && a[0].toolCallId.value in ids then [] else [a[0]],
                  WithoutAnswers(a[1..], ids), WithoutAnswers(b, ids));
    }
  }

  lemma {:induction false} WithoutAnswersAll(run: History, ids: set<string>)
    requires forall m :: m in run ==> IsResult(m) && m.toolCallId.value in ids
    ensures WithoutAnswers(run, ids) == []
  {
    if run != [] {
      WithoutAnswersAll(run[1..], ids);
    }
  }

  lemma {:induction false} WithoutAnswersNone(h: History, ids: set<string>)
    requires forall id :: id in AnsweredIds(h) ==> id !in ids
    ensures WithoutAnswers(h, ids) == h
  {
    if h != [] {
      assert forall id :: id in AnsweredIds(h[1..]) ==> id in AnsweredIds(h);
      WithoutAnswersNone(h[1..], ids);
      HeadAndTail(h);
      if IsResult(h[0]) {
        assert AnsweredIds(h)[0] == h[0].toolCallId.value;
      }
    }
  }

  lemma {:induction false} WovenWithout(h: History, ins: seq<Insertion>, ids: set<string>, i: nat)
    requires i <= |h|
    requires forall x :: x in ins ==> IsResult(x.1) && x.1.toolCallId.value in ids
    requires forall id :: id in AnsweredIds(h[i..]) ==> id !in ids
    ensures WithoutAnswers(Woven(h, ins, i), ids) == h[i..]
    decreases |h| - i
  {
    if i < |h| {
      var run, rest := RunAt(ins, i + 1), Woven(h, ins, i + 1);
      HeadAndTail(h[i..]);
      AnsweredIdsConcat([h[i]], h[i + 1..]);
      assert forall id :: id in AnsweredIds(h[i + 1..]) ==> id in AnsweredIds(h[i..]);
      assert forall id :: id in AnsweredIds([h[i]]) ==> id in AnsweredIds(h[i..]);
      WovenWithout(h, ins, ids, i + 1);
      RunHoldsStubs(ins, i + 1);
      WithoutAnswersAll(run, ids);
      WithoutAnswersNone([h[i]], ids);
      WithoutAnswersConcat([h[i]], run, ids);
      WithoutAnswersConcat([h[i]] + run, rest, ids);
      EmptyConcat([h[i]]);
    }
  }

  /** Of every message in any place: it is retained, unless it is the result of a call
      that nobody made. */
  lemma {:induction false} RetainedExact(a: History, m: Message, b: History, expected: set<string>)
    ensures Retained([], expected) == []
    ensures Retained(a + ([m] + b), expected)
         == Retained(a, expected)
            + ((if m.role == Tool && m.toolCallId.Some? && m.toolCallId.value !in expected then [] else [m])
               + Retained(b, expected))
  {
    if a == [] {
      EmptyConcat([m] + b);
      PartsOfConcat([m], b);
      EmptyConcat(Retained([m] + b, expected));
    } else {
      TailOfConcat(a, [m] + b);
      RetainedExact(a[1..], m, b, expected);
      Associative(if IsOrphan(a[0], expected) then [] else [a[0]], Retained(a[1..], expected),
                  (if IsOrphan(m, expected) then [] else [m]) + Retained(b, expected));
    }
  }

  /** Taking the stubs out again leaves the retained messages, in their order. */
  lemma SurvivorsKeepOrder(h: History, ids: seq<string>)
    requires Enumerates(ids, Missing(h))
    ensures WithoutAnswers(Sanitized(h, ids), Missing(h)) == Retained(h, Expected(h))
  {
    var r := Retained(h, Expected(h));
    assert r[0..] == r;
    forall id | id in AnsweredIds(r) ensures id !in Missing(h) {
      RetainedAnswers(h, Expected(h), id);
      TimesPositive(AnsweredIds(r), id);
      TimesPositive(AnsweredIds(h), id);
    }
    forall x | x in Insertions(r, ids) ensures IsResult(x.1) && x.1.toolCallId.value in Missing(h) {
      var k :| 0 <= k < |ids| && Insertions(r, ids)[k] == x;
      assert ids[k] in ids;
    }
    WovenWithout(r, Insertions(r, ids), Missing(h), 0);
  }

  // ----- Where a stub ends up -----

  /** `h[i..j]` with its insertions. */
  function WovenBetween(h: History, ins: seq<Insertion>, i: nat, j: nat): History
    requires i <= j <= |h|
    decreases j - i
  {
    if i == j then [] else [h[i]] + RunAt(ins, i + 1) + WovenBetween(h, ins, i + 1, j)
  }

  lemma {:induction false} WovenSplit(h: History, ins: seq<Insertion>, i: nat, j: nat)
    requires i <= j <= |h|
    ensures Woven(h, ins, i) == WovenBetween(h, ins, i, j) + Woven(h, ins, j)
    decreases j - i
  {
    if i == j {
      EmptyConcat(Woven(h, ins, j));
    } else {
      WovenSplit(h, ins, i + 1, j);
      Associative([h[i]] + RunAt(ins, i + 1), WovenBetween(h, ins, i + 1, j), Woven(h, ins, j));
    }
  }

  predicate IsStubOf(m: Message, issuer: Message) {
    && m.toolCallId.Some? && Issues(issuer, m.toolCallId.value)
    && m == Message(Tool, Text("[Tool result removed during compression]"), [], None, None, m.toolCallId)
  }

  lemma StubAnswers(id: string, issuer: Message)
    requires Issues(issuer, id)
    ensures IsStubOf(Stub(id), issuer)
  {
  }

  /** A stub stands in the unbroken run of stubs right behind the first message
      that issued its call, and that run belongs to this message alone. */
  lemma StubPlacement(h: History, ids: seq<string>, id: string)
    requires Enumerates(ids, Missing(h)) && id in ids
    ensures var r := Retained(h, Expected(h));
            var f := FirstIssuer(r, id);
            f < |r| &&
            var run := RunAt(Insertions(r, ids), f + 1);
            && Issues(r[f], id)
            && Stub(id) in run
            && (forall m :: m in run ==> IsStubOf(m, r[f]) && m.toolCallId.value in ids
                                         && FirstIssuer(r, m.toolCallId.value) == f)
            && Sanitized(h, ids) == WovenBetween(r, Insertions(r, ids), 0, f)
                                    + ([r[f]] + run + Woven(r, Insertions(r, ids), f + 1))
  {
    hide IsStubOf, Issues, STUB_TEXT;
    var r := Retained(h, Expected(h));
    var ins := Insertions(r, ids);
    PositionsInRange(h, ids);
    RetainedIssues(h, Expected(h));
    FirstIssuerFound(r, id);
    var f := FirstIssuer(r, id);
    RunHoldsStubs(ins, f + 1);
    var k :| 0 <= k < |ids| && ids[k] == id;
    assert ins[k] == (f + 1, Stub(id));
    forall m | m in RunAt(ins, f + 1)
      ensures IsStubOf(m, r[f]) && m.toolCallId.value in ids && FirstIssuer(r, m.toolCallId.value) == f
    {
      assert (f + 1, m) in ins;
      var j :| 0 <= j < |ins| && ins[j] == (f + 1, m);
      assert ids[j] in ids;
      FirstIssuerFound(r, ids[j]);
      StubAnswers(ids[j], r[f]);
    }
    WovenSplit(r, ins, 0, f);
  }

  // ----- Nothing to repair -----

  lemma {:induction false} NoOrphans(h: History, expected: set<string>)
    ensures Retained(h, expected) == h <==> forall id :: id in AnsweredIds(h) ==> id in expected
    ensures |Retained(h, expected)| <= |h|
  {
    if h != [] {
      NoOrphans(h[1..], expected);
      HeadAndTail(h);
      if IsOrphan(h[0], expected) {
        assert AnsweredIds(h)[0] == h[0].toolCallId.value;
        EmptyConcat(Retained(h[1..], expected));
      } else {
        PartsOfConcat([h[0]], Retained(h[1..], expected));
        assert forall id :: id in AnsweredIds(h[1..]) ==> id in AnsweredIds(h);
      }
    }
  }

  lemma FirstIsElement(ids: seq<string>, s: set<string>)
    requires Enumerates(ids, s) && ids != []
    ensures ids[0] in s
  {
    assert ids[0] in ids;
  }

  lemma NothingMissing(ids: seq<string>, s: set<string>)
    requires Enumerates(ids, s) && s == {}
    ensures ids == []
  {
    hide Enumerates;
    if ids != [] {
      FirstIsElement(ids, s);
    }
  }

  /** The repair changes nothing exactly when calls and results already match. */
  lemma SanitizedIsIdentity(h: History, ids: seq<string>)
    requires Enumerates(ids, Missing(h))
    ensures Sanitized(h, ids) == h <==> Paired(h)
  {
    if Paired(h) {
      NothingMissing(ids, Missing(h));
      forall id | id in AnsweredIds(h) ensures id in Expected(h) { assert id in Actual(h); }
      NoOrphans(h, Expected(h));
      WovenNothing(h, 0);
      assert Insertions(h, ids) == [];
      assert h[0..] == h;
    }
    SanitizedIsPaired(h, ids);
  }

  /** Repairing twice, under any two hash orders, is repairing once. */
  lemma SanitizedIsIdempotent(h: History, ids: seq<string>, again: seq<string>)
    requires Enumerates(ids, Missing(h)) && Enumerates(again, Missing(Sanitized(h, ids)))
    ensures Sanitized(Sanitized(h, ids), again) == Sanitized(h, ids)
  {
    SanitizedIsPaired(h, ids);
    SanitizedIsIdentity(Sanitized(h, ids), again);
  }
}
