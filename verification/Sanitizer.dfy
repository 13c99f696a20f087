/** Repairing the call/result pairing of a history whose middle was cut out:
    results nobody asked for are dropped, and a stub result is put right behind
    the assistant message whose call lost its answer. */
module Sanitizer {
  import opened Wrappers
  import opened Messages
  import opened Blocks
  import opened Sequences

  const STUB_TEXT := "[Tool result removed during compression]"

  function Stub(id: string): Message {
    Message(Tool, Text(STUB_TEXT), [], None, None, Some(id))
  }

  // ----- The repair as functions -----

  function Expected(h: History): set<string> {
    set id | id in IssuedIds(h)
  }

  function Actual(h: History): set<string> {
    set id | id in AnsweredIds(h)
  }

  function Missing(h: History): set<string> {
    Expected(h) - Actual(h)
  }

  predicate IsOrphan(m: Message, expected: set<string>) {
    IsResult(m) && m.toolCallId.value !in expected
  }

  function Retained(h: History, expected: set<string>): History {
    if h == [] then []
    else (if IsOrphan(h[0], expected) then [] else [h[0]]) + Retained(h[1..], expected)
  }

  predicate Issues(m: Message, id: string) {
    m.role == Assistant && id in CallIds(m.toolCalls)
  }

  /** Position of the first assistant message that issued `id`, or `|h|`. */
  function FirstIssuer(h: History, id: string): (i: nat)
    ensures i <= |h|
  {
    if h == [] || Issues(h[0], id) then 0 else 1 + FirstIssuer(h[1..], id)
  }

  function InsertPosition(h: History, id: string): (p: nat)
    ensures p <= |h|
  {
    if FirstIssuer(h, id) < |h| then FirstIssuer(h, id) + 1 else |h|
  }

  type Insertion = (nat, Message)

  function Insertions(h: History, ids: seq<string>): (ins: seq<Insertion>)
    ensures |ins| == |ids|
    ensures forall k :: 0 <= k < |ids| ==> ins[k] == (InsertPosition(h, ids[k]), Stub(ids[k]))
  {
    seq(|ids|, k requires 0 <= k < |ids| => (InsertPosition(h, ids[k]), Stub(ids[k])))
  }

  /** The messages inserted at `p`; a later insertion ends up in front. */
  function RunAt(ins: seq<Insertion>, p: nat): History {
    if ins == [] then [] else RunAt(ins[1..], p) + (if ins[0].0 == p then [ins[0].1] else [])
  }

  /** `h[i..]` with every insertion placed behind the message it belongs to. */
  function Woven(h: History, ins: seq<Insertion>, i: nat): History
    decreases |h| - i
  {
    if i >= |h| then [] else [h[i]] + RunAt(ins, i + 1) + Woven(h, ins, i + 1)
  }

  /** The repaired history, when the missing ids are visited in the order `ids`. */
  function Sanitized(h: History, ids: seq<string>): History {
    var r := Retained(h, Expected(h));
    Woven(r, Insertions(r, ids), 0)
  }

  /** `ids` lists the elements of `s` once each, in some order. */
  ghost predicate Enumerates(ids: seq<string>, s: set<string>) {
    NoDuplicates(ids) && forall id :: id in ids <==> id in s
  }

  // ----- Sorting by descending position, stably -----

  predicate Descending(ins: seq<Insertion>) {
    forall i, j :: 0 <= i < j < |ins| ==> ins[i].0 >= ins[j].0
  }

  /** Puts `x` in front of everything that does not have to precede it. */
  function InsertDescending(x: Insertion, ins: seq<Insertion>): seq<Insertion> {
    if ins == [] || x.0 >= ins[0].0 then [x] + ins
    else [ins[0]] + InsertDescending(x, ins[1..])
  }

  function SortDescending(ins: seq<Insertion>): seq<Insertion> {
    if ins == [] then [] else InsertDescending(ins[0], SortDescending(ins[1..]))
  }

  lemma {:induction false} InsertDescendingElements(x: Insertion, ins: seq<Insertion>)
    ensures forall y :: y in InsertDescending(x, ins) <==> y == x || y in ins
  {
    if ins != [] && x.0 < ins[0].0 {
      InsertDescendingElements(x, ins[1..]);
      HeadAndTail(ins);
    }
  }

  lemma DescendingCons(head: Insertion, rest: seq<Insertion>)
    requires Descending(rest) && forall y :: y in rest ==> y.0 <= head.0
    ensures Descending([head] + rest)
  {
  }

  lemma {:induction false} InsertDescendingSorted(x: Insertion, ins: seq<Insertion>)
    requires Descending(ins)
    ensures Descending(InsertDescending(x, ins))
  {
    if ins == [] {
    } else if x.0 >= ins[0].0 {
      DescendingCons(x, ins);
    } else {
      InsertDescendingSorted(x, ins[1..]);
      InsertDescendingElements(x, ins[1..]);
      DescendingCons(ins[0], InsertDescending(x, ins[1..]));
    }
  }

  lemma RunAtCons(x: Insertion, ins: seq<Insertion>, p: nat)
    ensures RunAt([x] + ins, p) == RunAt(ins, p) + (if x.0 == p then [x.1] else [])
  {
    PartsOfConcat([x], ins);
  }

  lemma {:induction false} InsertDescendingRuns(x: Insertion, ins: seq<Insertion>, p: nat)
    ensures RunAt(InsertDescending(x, ins), p) == RunAt([x] + ins, p)
  {
    if ins != [] && x.0 < ins[0].0 {
      InsertDescendingRuns(x, ins[1..], p);
      RunAtCons(x, ins[1..], p);
      RunAtCons(x, ins, p);
      RunAtCons(ins[0], InsertDescending(x, ins[1..]), p);
      EmptyConcat(RunAt(ins[1..], p));
    }
  }

  /** The sort orders the insertions, keeps them all, and keeps the original
      order among those that go to the same position. */
  lemma {:induction false} SortDescendingSorted(ins: seq<Insertion>)
    ensures Descending(SortDescending(ins))
    ensures forall x :: x in SortDescending(ins) <==> x in ins
    ensures forall p :: RunAt(SortDescending(ins), p) == RunAt(ins, p)
  {
    if ins != [] {
      var rest := SortDescending(ins[1..]);
      SortDescendingSorted(ins[1..]);
      InsertDescendingSorted(ins[0], rest);
      InsertDescendingElements(ins[0], rest);
      HeadAndTail(ins);
      forall p ensures RunAt(SortDescending(ins), p) == RunAt(ins, p) {
        InsertDescendingRuns(ins[0], rest, p);
        RunAtCons(ins[0], rest, p);
      }
    }
  }

  // ----- One insertion -----

  /** `Vec::insert`. */
  function InsertAt(h: History, p: nat, m: Message): History
    requires p <= |h|
  {
    h[..p] + [m] + h[p..]
  }

  lemma {:induction false} RunAtConcat(a: seq<Insertion>, b: seq<Insertion>, p: nat)
    ensures RunAt(a + b, p) == RunAt(b, p) + RunAt(a, p)
  {
    if a == [] {
      EmptyConcat(b);
      EmptyConcat(RunAt(b, p));
    } else {
      TailOfConcat(a, b);
      RunAtConcat(a[1..], b, p);
      Associative(RunAt(b, p), RunAt(a[1..], p), if a[0].0 == p then [a[0].1] else []);
    }
  }

  lemma {:induction false} RunAtEmpty(ins: seq<Insertion>, p: nat)
    requires forall k :: 0 <= k < |ins| ==> ins[k].0 != p
    ensures RunAt(ins, p) == []
  {
    if ins != [] {
      RunAtEmpty(ins[1..], p);
    }
  }

  lemma {:induction false} WovenUntouched(h: History, ins: seq<Insertion>, x: Insertion, i: nat)
    requires x.0 <= i
    ensures Woven(h, ins + [x], i) == Woven(h, ins, i)
    decreases |h| - i
  {
    if i < |h| {
      WovenUntouched(h, ins, x, i + 1);
      RunAtConcat(ins, [x], i + 1);
      assert RunAt([x], i + 1) == [] by { RunAtEmpty([x], i + 1); }
      EmptyConcat(RunAt(ins, i + 1));
    }
  }

  lemma InsertionHere(h: History, ins: seq<Insertion>, x: Insertion, i: nat)
    requires x.0 == i + 1 <= |h|
    ensures var w := Woven(h, ins, i);
            && 1 <= |w|
            && Woven(h, ins + [x], i) == InsertAt(w, 1, x.1)
  {
    RunAtConcat(ins, [x], i + 1);
    RunAtCons(x, [], i + 1);
    EmptyConcat([x]);
    EmptyConcat([x.1]);
    WovenUntouched(h, ins, x, i + 1);
    WeaveFront(h[i], x.1, RunAt(ins, i + 1), Woven(h, ins, i + 1));
  }

  /** Inserting at a position no earlier insertion lies before extends the weave. */
  lemma {:induction false} InsertionStep(h: History, ins: seq<Insertion>, x: Insertion, i: nat)
    requires i < x.0 <= |h|
    requires forall k :: 0 <= k < |ins| ==> x.0 <= ins[k].0
    ensures var w := Woven(h, ins, i);
            && x.0 - i <= |w|
            && Woven(h, ins + [x], i) == InsertAt(w, x.0 - i, x.1)
    decreases |h| - i
  {
    hide RunAt, InsertAt;
    if i + 1 == x.0 {
      InsertionHere(h, ins, x, i);
    } else {
      InsertionStep(h, ins, x, i + 1);
      WovenStep(h, ins, i);
      WovenStep(h, ins + [x], i);
      WeaveLater(h[i], x.1, Woven(h, ins, i + 1), x.0 - i - 1);
    }
  }

  lemma WovenStep(h: History, ins: seq<Insertion>, i: nat)
    requires i < |h| && forall k :: 0 <= k < |ins| ==> ins[k].0 != i + 1
    ensures Woven(h, ins, i) == [h[i]] + Woven(h, ins, i + 1)
  {
    RunAtEmpty(ins, i + 1);
    EmptyConcat([h[i]]);
  }

  lemma WeaveFront(m: Message, s: Message, run: History, rest: History)
    ensures var w := [m] + run + rest;
            [m] + ([s] + run) + rest == InsertAt(w, 1, s)
  {
  }

  lemma WeaveLater(m: Message, s: Message, v: History, k: nat)
    requires k <= |v|
    ensures var w := [m] + v;
            [m] + InsertAt(v, k, s) == InsertAt(w, k + 1, s)
  {
  }

  lemma {:induction false} WovenNothing(h: History, i: nat)
    requires i <= |h|
    ensures Woven(h, [], i) == h[i..]
    decreases |h| - i
  {
    if i < |h| {
      WovenNothing(h, i + 1);
      assert [h[i]] + h[i + 1..] == h[i..];
    }
  }

  lemma {:induction false} WovenByRuns(h: History, a: seq<Insertion>, b: seq<Insertion>, i: nat)
    requires forall p :: RunAt(a, p) == RunAt(b, p)
    ensures Woven(h, a, i) == Woven(h, b, i)
    decreases |h| - i
  {
    if i < |h| {
      WovenByRuns(h, a, b, i + 1);
    }
  }

  // ----- Where the stubs go -----

  lemma {:induction false} FirstIssuerFound(h: History, id: string)
    ensures id in IssuedIds(h) <==> FirstIssuer(h, id) < |h|
    ensures FirstIssuer(h, id) < |h| ==> Issues(h[FirstIssuer(h, id)], id)
    ensures forall j :: 0 <= j < FirstIssuer(h, id) ==> !Issues(h[j], id)
  {
    if h != [] && !Issues(h[0], id) {
      FirstIssuerFound(h[1..], id);
    }
  }

  lemma {:induction false} RetainedIssues(h: History, expected: set<string>)
    ensures IssuedIds(Retained(h, expected)) == IssuedIds(h)
  {
    if h != [] {
      RetainedIssues(h[1..], expected);
      if IsOrphan(h[0], expected) {
        EmptyConcat(Retained(h[1..], expected));
        EmptyConcat(IssuedIds(h[1..]));
      } else {
        PartsOfConcat([h[0]], Retained(h[1..], expected));
      }
    }
  }

  /** Every stub position is behind an existing message. */
  lemma PositionsInRange(h: History, ids: seq<string>)
    requires forall id :: id in ids ==> id in Missing(h)
    ensures var r := Retained(h, Expected(h));
            forall x :: x in Insertions(r, ids) ==> 0 < x.0 <= |r|
  {
    var r := Retained(h, Expected(h));
    RetainedIssues(h, Expected(h));
    forall x | x in Insertions(r, ids) ensures 0 < x.0 <= |r| {
      var k :| 0 <= k < |ids| && Insertions(r, ids)[k] == x;
      assert ids[k] in ids;
      FirstIssuerFound(r, ids[k]);
    }
  }

  /** Before the loop: the work list is ordered, in range, and stands for the repair. */
  lemma SortedInsertions(h: History, ids: seq<string>)
    requires forall id :: id in ids ==> id in Missing(h)
    ensures var r := Retained(h, Expected(h));
            var ins := SortDescending(Insertions(r, ids));
            && Descending(ins)
            && (forall k :: 0 <= k < |ins| ==> 0 < ins[k].0 <= |r|)
            && Woven(r, ins, 0) == Sanitized(h, ids)
  {
    var r := Retained(h, Expected(h));
    var ins := SortDescending(Insertions(r, ids));
    PositionsInRange(h, ids);
    SortDescendingSorted(Insertions(r, ids));
    forall k | 0 <= k < |ins| ensures 0 < ins[k].0 <= |r| {
      assert ins[k] in Insertions(r, ids);
    }
    WovenByRuns(r, ins, Insertions(r, ids), 0);
  }

  /** One turn of the loop. */
  lemma NextInsertion(r: History, ins: seq<Insertion>, j: nat)
    requires j < |ins| && Descending(ins) && 0 < ins[j].0 <= |r|
    ensures var w := Woven(r, ins[..j], 0);
            && ins[j].0 <= |w|
            && Woven(r, ins[..j + 1], 0) == InsertAt(w, ins[j].0, ins[j].1)
  {
    InsertionStep(r, ins[..j], ins[j], 0);
    assert ins[..j + 1] == ins[..j] + [ins[j]];
  }

  // ----- The repair in place -----

  /** `iterate` is the order in which the hash set of missing ids is walked. */
  method SanitizeToolPairs(log: MessageLog, iterate: set<string> -> seq<string>)
    requires forall s :: Enumerates(iterate(s), s)
    modifies log
    ensures log.messages == Sanitized(old(log.messages), iterate(Missing(old(log.messages))))
  {
    ghost var before := log.messages;
    var expected := Expected(log.messages);
    var actual := Actual(log.messages);
    log.messages := Retained(log.messages, expected);
    ghost var r := log.messages;
    var missing := iterate(expected - actual);
    var insertions := SortDescending(Insertions(log.messages, missing));
    SortedInsertions(before, missing);
    WovenNothing(r, 0);
    var j := 0;
    while j < |insertions|
      invariant 0 <= j <= |insertions|
      invariant log.messages == Woven(r, insertions[..j], 0)
    {
      var (pos, stub) := insertions[j];
      NextInsertion(r, insertions, j);
      log.messages := InsertAt(log.messages, pos, stub);
      j := j + 1;
    }
    TakeAll(insertions);
  }
}
