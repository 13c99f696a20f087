/** Completing a tool block that lost some of its results. */
module BlockRepair {
  import opened Messages
  import opened Blocks
  import opened Sanitizer
  import opened SanitizerTheorems
  import opened Sequences

  // ----- Blocks answer what they issue -----

  lemma UnitIsPaired(u: History, id: string)
    requires Unit(u)
    ensures Times(AnsweredIds(u), id) == Times(IssuedIds(u), id)
  {
    HeadAndTail(u);
    SingletonIds(u[0]);
    AnsweredIdsConcat([u[0]], u[1..]);
    IssuedIdsConcat([u[0]], u[1..]);
    if IsCaller(u[0]) {
      ResultsOnly(u[1..]);
      EmptyConcat(CallIds(u[0].toolCalls));
      EmptyConcat(AnsweredIds(u[1..]));
    } else {
      assert u[1..] == [];
      assert CallIds([]) == [];
    }
  }

  lemma {:induction false} BlocksArePaired(h: History, id: string)
    requires BlocksOk(h)
    ensures Times(AnsweredIds(h), id) == Times(IssuedIds(h), id)
    decreases |h|
  {
    hide Times, Unit;
    if h != [] {
      var n := UnitLength(h);
      FirstUnit(h);
      UnitIsPaired(h[..n], id);
      BlocksArePaired(h[n..], id);
      SplitAt(h, n);
      AnsweredIdsConcat(h[..n], h[n..]);
      IssuedIdsConcat(h[..n], h[n..]);
      TimesConcat(AnsweredIds(h[..n]), AnsweredIds(h[n..]), id);
      TimesConcat(IssuedIds(h[..n]), IssuedIds(h[n..]), id);
    }
  }

  /** Complete blocks need no repair. */
  lemma WellFormedIsPaired(h: History)
    requires BlocksOk(h)
    ensures Paired(h)
  {
    forall id ensures id in Expected(h) <==> id in Actual(h) {
      BlocksAnswerIssued(h, id);
    }
  }

  // ----- A caller and two groups of results that together answer it -----

  lemma CallerWithTwoGroups(caller: Message, xs: History, ys: History)
    requires IsCaller(caller) && NoDuplicates(CallIds(caller.toolCalls))
    requires (forall m :: m in xs ==> IsResult(m)) && (forall m :: m in ys ==> IsResult(m))
    requires NoDuplicates(AnsweredIds(xs)) && NoDuplicates(AnsweredIds(ys))
    requires forall id :: id in AnsweredIds(xs) ==> id in CallIds(caller.toolCalls)
    requires forall id :: id in AnsweredIds(ys) <==> id in CallIds(caller.toolCalls) && id !in AnsweredIds(xs)
    ensures Unit([caller] + (xs + ys)) && Unit([caller] + (ys + xs))
  {
    CoverIsRearrangement(AnsweredIds(xs), AnsweredIds(ys), CallIds(caller.toolCalls));
    AnsweredIdsConcat(xs, ys);
    AnsweredIdsConcat(ys, xs);
    PartsOfConcat([caller], xs + ys);
    PartsOfConcat([caller], ys + xs);
  }

  lemma UnitIsBlocks(u: History)
    requires Unit(u)
    ensures BlocksOk(u)
  {
    UnitThen(u, []);
    EmptyConcat(u);
  }

  // ----- The repair on blocks, one partial block, blocks -----

  /** Stubs as the repair leaves them behind one caller: last visited id first. */
  function StubsBackwards(ids: seq<string>): History {
    if ids == [] then [] else StubsBackwards(ids[1..]) + [Stub(ids[0])]
  }

  lemma {:induction false} StubsBackwardsIds(ids: seq<string>)
    ensures |StubsBackwards(ids)| == |ids|
    ensures forall m :: m in StubsBackwards(ids) ==> IsResult(m)
    ensures forall id :: Times(AnsweredIds(StubsBackwards(ids)), id) == Times(ids, id)
  {
    hide Times;
    if ids == [] {
      NothingAnswered();
    } else {
      StubsBackwardsIds(ids[1..]);
      AnsweredIdsConcat(StubsBackwards(ids[1..]), [Stub(ids[0])]);
      SingletonIds(Stub(ids[0]));
      HeadAndTail(ids);
      forall id ensures Times(AnsweredIds(StubsBackwards(ids)), id) == Times(ids, id) {
        TimesConcat(AnsweredIds(StubsBackwards(ids[1..])), [ids[0]], id);
        TimesConcat([ids[0]], ids[1..], id);
      }
    }
  }

  lemma SameTimesNoDuplicates(a: seq<string>, b: seq<string>)
    requires NoDuplicates(b) && forall id :: Times(a, id) == Times(b, id)
    ensures NoDuplicates(a) && forall id :: id in a <==> id in b
  {
    NoDuplicatesCounts(b);
    forall i, j | 0 <= i < j < |a| ensures a[i] != a[j] {
      TwiceCounts(a, i, j);
      assert Times(b, a[i]) <= 1;
    }
    forall id ensures id in a <==> id in b {
      TimesPositive(a, id);
      TimesPositive(b, id);
    }
  }

  lemma TwiceCounts(a: seq<string>, i: nat, j: nat)
    requires i < j < |a|
    ensures a[i] == a[j] ==> Times(a, a[i]) >= 2
  {
    assert a == a[..j] + ([a[j]] + a[j + 1..]);
    TimesConcat(a[..j], [a[j]] + a[j + 1..], a[i]);
    TimesConcat([a[j]], a[j + 1..], a[i]);
    assert a[i] in a[..j];
    TimesPositive(a[..j], a[i]);
  }

  function Completed(pb: History, ids: seq<string>): History {
    if pb == [] then [] else [pb[0]] + (StubsBackwards(ids) + pb[1..])
  }

  lemma {:induction false} WovenSingle(h: History, ins: seq<Insertion>, p: nat, i: nat)
    requires i < p <= |h| && forall k :: 0 <= k < |ins| ==> ins[k].0 == p
    ensures Woven(h, ins, i) == h[i..p] + (RunAt(ins, p) + h[p..])
    decreases |h| - i
  {
    if i + 1 == p {
      WovenBeyond(h, ins, p);
      assert h[i..p] == [h[i]];
      Associative([h[i]], RunAt(ins, p), h[p..]);
    } else {
      WovenSingle(h, ins, p, i + 1);
      WovenStep(h, ins, i);
      assert h[i..p] == [h[i]] + h[i + 1..p];
      Associative([h[i]], h[i + 1..p], RunAt(ins, p) + h[p..]);
    }
  }

  lemma {:induction false} WovenBeyond(h: History, ins: seq<Insertion>, i: nat)
    requires i <= |h| && forall k :: 0 <= k < |ins| ==> ins[k].0 <= i
    ensures Woven(h, ins, i) == h[i..]
    decreases |h| - i
  {
    if i < |h| {
      WovenBeyond(h, ins, i + 1);
      WovenStep(h, ins, i);
      assert h[i..] == [h[i]] + h[i + 1..];
    }
  }

  lemma {:induction false} RunIsStubs(h: History, ids: seq<string>, p: nat)
    requires forall k :: 0 <= k < |ids| ==> InsertPosition(h, ids[k]) == p
    ensures RunAt(Insertions(h, ids), p) == StubsBackwards(ids)
  {
    if ids != [] {
      RunIsStubs(h, ids[1..], p);
      assert Insertions(h, ids)[1..] == Insertions(h, ids[1..]);
    }
  }

  lemma {:induction false} FirstIssuerAfter(a: History, rest: History, id: string)
    requires id !in IssuedIds(a) && rest != [] && Issues(rest[0], id)
    ensures FirstIssuer(a + rest, id) == |a|
  {
    if a == [] {
      EmptyConcat(rest);
    } else {
      TailOfConcat(a, rest);
      FirstIssuerAfter(a[1..], rest, id);
    }
  }

  lemma PartialBlockIds(pb: History)
    requires PartialBlock(pb)
    ensures IssuedIds(pb) == (if pb == [] then [] else CallIds(pb[0].toolCalls))
    ensures AnsweredIds(pb) == (if pb == [] then [] else AnsweredIds(pb[1..]))
  {
    if pb != [] {
      HeadAndTail(pb);
      SingletonIds(pb[0]);
      IssuedIdsConcat([pb[0]], pb[1..]);
      AnsweredIdsConcat([pb[0]], pb[1..]);
      ResultsOnly(pb[1..]);
      EmptyConcat(CallIds(pb[0].toolCalls));
      EmptyConcat(AnsweredIds(pb[1..]));
    }
  }

  lemma ThreePartIds(a: History, pb: History, b: History)
    requires NoDuplicates(IssuedIds(a + (pb + b)))
    ensures IssuedIds(a + (pb + b)) == IssuedIds(a) + (IssuedIds(pb) + IssuedIds(b))
    ensures AnsweredIds(a + (pb + b)) == AnsweredIds(a) + (AnsweredIds(pb) + AnsweredIds(b))
    ensures NoDuplicates(IssuedIds(a)) && NoDuplicates(IssuedIds(pb)) && NoDuplicates(IssuedIds(b))
    ensures forall id :: id in IssuedIds(pb) ==> id !in IssuedIds(a) && id !in IssuedIds(b)
  {
    IssuedIdsConcat(a, pb + b);
    IssuedIdsConcat(pb, b);
    AnsweredIdsConcat(a, pb + b);
    AnsweredIdsConcat(pb, b);
    NoDuplicatesParts(IssuedIds(a), IssuedIds(pb) + IssuedIds(b));
    NoDuplicatesParts(IssuedIds(pb), IssuedIds(b));
  }

  lemma BlocksAnswerIssued(h: History, id: string)
    requires BlocksOk(h)
    ensures id in AnsweredIds(h) <==> id in IssuedIds(h)
  {
    BlocksArePaired(h, id);
    TimesPositive(AnsweredIds(h), id);
    TimesPositive(IssuedIds(h), id);
  }

  /** Between complete blocks, what is missing is what the partial block lacks. */
  lemma MissingFromPartialBlock(a: History, pb: History, b: History)
    requires BlocksOk(a) && PartialBlock(pb) && BlocksOk(b)
    requires NoDuplicates(IssuedIds(a + (pb + b)))
    ensures Retained(a + (pb + b), Expected(a + (pb + b))) == a + (pb + b)
    ensures forall id :: id in Missing(a + (pb + b)) <==> id in IssuedIds(pb) && id !in AnsweredIds(pb)
  {
    hide BlocksOk, NoDuplicates, Retained;
    var h := a + (pb + b);
    ThreePartIds(a, pb, b);
    PartialBlockIds(pb);
    forall id
      ensures id in AnsweredIds(h) ==> id in Expected(h)
      ensures id in Missing(h) <==> id in IssuedIds(pb) && id !in AnsweredIds(pb)
    {
      BlocksAnswerIssued(a, id);
      BlocksAnswerIssued(b, id);
    }
    NoOrphans(h, Expected(h));
  }

  lemma WovenBehindCaller(a: History, pb: History, b: History, ids: seq<string>)
    requires PartialBlock(pb) && pb != []
    requires forall id :: id in ids ==> id in IssuedIds(pb) && id !in IssuedIds(a)
    ensures var h := a + (pb + b);
            Woven(h, Insertions(h, ids), 0) == a + (Completed(pb, ids) + b)
  {
    var h := a + (pb + b);
    var p := |a| + 1;
    PartialBlockIds(pb);
    forall k | 0 <= k < |ids| ensures InsertPosition(h, ids[k]) == p {
      assert ids[k] in ids;
      FirstIssuerAfter(a, pb + b, ids[k]);
    }
    WovenSingle(h, Insertions(h, ids), p, 0);
    RunIsStubs(h, ids, p);
    RepairedParts(a, pb, b, StubsBackwards(ids));
  }

  /** The repair completes the partial block in place and touches nothing else. */
  lemma RepairPartialBlock(a: History, pb: History, b: History, ids: seq<string>)
    requires BlocksOk(a) && PartialBlock(pb) && BlocksOk(b)
    requires NoDuplicates(IssuedIds(a + (pb + b)))
    requires Enumerates(ids, Missing(a + (pb + b)))
    ensures Sanitized(a + (pb + b), ids) == a + (Completed(pb, ids) + b)
    ensures |ids| + |AnsweredIds(pb)| == |IssuedIds(pb)|
    ensures BlocksOk(Completed(pb, ids))
  {
    hide BlocksOk, Retained;
    MissingFromPartialBlock(a, pb, b);
    ThreePartIds(a, pb, b);
    if pb == [] {
      NothingToRepair(a, b, ids);
    } else {
      WovenBehindCaller(a, pb, b, ids);
      CompletedIsUnit(pb, ids);
    }
  }

  lemma NothingToRepair(a: History, b: History, ids: seq<string>)
    requires BlocksOk(a) && BlocksOk(b) && Enumerates(ids, Missing(a + ([] + b)))
    ensures Sanitized(a + ([] + b), ids) == a + (Completed([], ids) + b)
    ensures |ids| == 0 && BlocksOk(Completed([], ids))
  {
    EmptyConcat(b);
    BlocksOkConcat(a, b);
    WellFormedIsPaired(a + b);
    NothingMissing(ids, Missing(a + b));
    SanitizedIsIdentity(a + b, ids);
  }

  lemma RepairedParts(a: History, pb: History, b: History, stubs: History)
    requires pb != []
    ensures var h := a + (pb + b);
            h[0..|a| + 1] + (stubs + h[|a| + 1..]) == a + (([pb[0]] + (stubs + pb[1..])) + b)
  {
    var h := a + (pb + b);
    assert h[0..|a| + 1] == a + [pb[0]];
    assert h[|a| + 1..] == pb[1..] + b;
  }

  lemma CompletedIsUnit(pb: History, ids: seq<string>)
    requires PartialBlock(pb) && pb != [] && NoDuplicates(IssuedIds(pb)) && NoDuplicates(ids)
    requires forall id :: id in ids <==> id in IssuedIds(pb) && id !in AnsweredIds(pb)
    ensures BlocksOk(Completed(pb, ids))
    ensures |ids| + |AnsweredIds(pb)| == |IssuedIds(pb)|
  {
    PartialBlockIds(pb);
    StubsBackwardsIds(ids);
    SameTimesNoDuplicates(AnsweredIds(StubsBackwards(ids)), ids);
    CallerWithTwoGroups(pb[0], pb[1..], StubsBackwards(ids));
    UnitIsBlocks(Completed(pb, ids));
    CoverIsRearrangement(AnsweredIds(pb), ids, IssuedIds(pb));
    assert |multiset(AnsweredIds(pb)) + multiset(ids)| == |multiset(IssuedIds(pb))|;
  }
}
