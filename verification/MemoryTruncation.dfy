/** Keeping the newest memory entries that fit.  Texts are byte sequences; entries
    are separated by "\n", section sign, "\n", which can overlap itself. */
module MemoryTruncation {
  import opened Wrappers
  import opened Sequences

  newtype byte = b: int | 0 <= b < 256

  type Bytes = seq<byte>

  /** Line feed, the two UTF-8 bytes of the section sign, line feed. */
  const SEPARATOR: Bytes := [0x0A, 0xC2, 0xA7, 0x0A]

  predicate SeparatorAt(s: Bytes, i: nat) {
    i + |SEPARATOR| <= |s| && s[i..i + |SEPARATOR|] == SEPARATOR
  }

  /** The leftmost separator. */
  function FindSeparator(s: Bytes, from: nat): (p: Option<nat>)
    requires from <= |s|
    ensures p.Some? ==> from <= p.value && SeparatorAt(s, p.value)
    ensures forall i: nat :: from <= i && (p.Some? ==> i < p.value) ==> !SeparatorAt(s, i)
    decreases |s| - from
  {
    if from == |s| then None
    else if SeparatorAt(s, from) then Some(from)
    else FindSeparator(s, from + 1)
  }

  /** `str::split`: cut at the leftmost separator, go on behind it. */
  function Entries(s: Bytes): (es: seq<Bytes>)
    ensures |es| >= 1
    decreases |s|
  {
    match FindSeparator(s, 0)
    case None => [s]
    case Some(i) => [s[..i]] + Entries(s[i + |SEPARATOR|..])
  }

  function Join(es: seq<Bytes>): Bytes {
    if es == [] then []
    else if |es| == 1 then es[0]
    else es[0] + (SEPARATOR + Join(es[1..]))
  }

  /** Going down from `i`, how far entries can be added in front and still fit. */
  function KeptStart(es: seq<Bytes>, max: nat, i: nat): (k: nat)
    requires i <= |es|
    ensures k <= i
  {
    if i > 0 && |Join(es[i - 1..])| <= max then KeptStart(es, max, i - 1) else i
  }

  function Kept(content: Bytes, max: nat): seq<Bytes> {
    var es := Entries(content);
    es[KeptStart(es, max, |es|)..]
  }

  function Truncated(content: Bytes, max: nat): Bytes {
    if |content| <= max then content else Join(Kept(content, max))
  }

  function Reversed<T>(s: seq<T>): seq<T> {
    if s == [] then [] else Reversed(s[1..]) + [s[0]]
  }

  lemma {:induction false} ReversedConcat<T>(s: seq<T>, x: T)
    ensures Reversed(s + [x]) == [x] + Reversed(s)
  {
    if s == [] {
      EmptyConcat([x]);
    } else {
      TailOfConcat(s, [x]);
      ReversedConcat(s[1..], x);
      Associative([x], Reversed(s[1..]), [s[0]]);
    }
  }

  lemma JoinInFront(e: Bytes, es: seq<Bytes>)
    ensures |Join([e] + es)| == if es == [] then |e| else |e| + |SEPARATOR| + |Join(es)|
  {
    if es == [] {
      EmptyConcat([e]);
    } else {
      PartsOfConcat([e], es);
    }
  }

  method TruncateEntries(content: Bytes, maxChars: nat) returns (r: Bytes)
    ensures r == Truncated(content, maxChars)
  {
    if |content| <= maxChars {
      return content;
    }
    var entries := Entries(content);
    var kept: seq<Bytes> := [];
    var total := 0;
    var i := |entries|;
    while i > 0
      invariant 0 <= i <= |entries|
      invariant Reversed(kept) == entries[i..] && |kept| == |entries| - i
      invariant total == |Join(entries[i..])|
      invariant KeptStart(entries, maxChars, |entries|) == KeptStart(entries, maxChars, i)
    {
      var entry := entries[i - 1];
      var addedSeparator := if kept == [] then 0 else |SEPARATOR|;
      HeadAndTail(entries[i - 1..]);
      JoinInFront(entry, entries[i..]);
      if total + |entry| + addedSeparator <= maxChars {
        total := total + |entry| + addedSeparator;
        ReversedConcat(kept, entry);
        kept := kept + [entry];
        i := i - 1;
      } else {
        break;
      }
    }
    r := Join(Reversed(kept));
  }

  // ----- Splitting and joining are inverse -----

  lemma {:induction false} JoinOfEntries(s: Bytes)
    ensures Join(Entries(s)) == s
    decreases |s|
  {
    match FindSeparator(s, 0)
    case None =>
    case Some(i) =>
      SplitAtSeparator(s, i);
      hide SEPARATOR, SeparatorAt, FindSeparator;
      var rest := s[i + |SEPARATOR|..];
      JoinOfEntries(rest);
      PartsOfConcat([s[..i]], Entries(rest));
  }

  lemma SplitAtSeparator(s: Bytes, i: nat)
    requires SeparatorAt(s, i)
    ensures i + |SEPARATOR| <= |s| && s == s[..i] + (SEPARATOR + s[i + |SEPARATOR|..])
  {
    hide SEPARATOR;
    SplitAt(s, i);
    SplitAt(s[i..], |SEPARATOR|);
  }

  // ----- Entries are what stands between separators -----

  /** The last entry holds no separator; any other one, with the separator behind it,
      holds none but that, however the separator overlaps itself. */
  predicate IsEntry(e: Bytes, isLast: bool) {
    if isLast then forall i | 0 <= i < |e| :: !SeparatorAt(e, i)
    else forall i | 0 <= i < |e| :: !SeparatorAt(e + [0x0A, 0xC2, 0xA7, 0x0A], i)
  }

  predicate IsDivision(es: seq<Bytes>) {
    es != [] && forall k :: 0 <= k < |es| ==> IsEntry(es[k], k + 1 == |es|)
  }

  lemma DivisionCons(e: Bytes, rest: seq<Bytes>)
    requires rest != []
    ensures IsDivision([e] + rest) <==> IsEntry(e, false) && IsDivision(rest)
    ensures Join([e] + rest) == e + ([0x0A, 0xC2, 0xA7, 0x0A] + Join(rest))
  {
    hide IsEntry;
    var all := [e] + rest;
    assert all[1..] == rest && all[0] == e;
    if IsDivision(all) {
      forall k | 0 <= k < |rest| ensures IsEntry(rest[k], k + 1 == |rest|) {
        assert all[k + 1] == rest[k];
      }
    }
  }

  lemma SeparatorInFront(front: Bytes, rest: Bytes, i: nat)
    requires i + |SEPARATOR| <= |front|
    ensures SeparatorAt(front + rest, i) <==> SeparatorAt(front, i)
  {
    hide SEPARATOR;
    assert (front + rest)[i..i + |SEPARATOR|] == front[i..i + |SEPARATOR|];
  }

  lemma SeparatorBehind(e: Bytes, rest: Bytes)
    ensures SeparatorAt(e + (SEPARATOR + rest), |e|)
  {
    hide SEPARATOR;
    PartsOfConcat(e, SEPARATOR + rest);
    PartsOfConcat(SEPARATOR, rest);
    var s := e + (SEPARATOR + rest);
    SliceIsTake(s, |e|, |SEPARATOR|);
  }

  lemma SliceIsTake(s: Bytes, i: nat, n: nat)
    requires i + n <= |s|
    ensures s[i..i + n] == s[i..][..n]
  {
  }

  /** An entry ends where the first separator begins. */
  lemma FirstSeparator(e: Bytes, rest: Bytes)
    ensures FindSeparator(e + (SEPARATOR + rest), 0) == Some(|e|) <==> IsEntry(e, false)
  {
    hide SeparatorAt;
    var s := e + (SEPARATOR + rest);
    SeparatorBehind(e, rest);
    Associative(e, SEPARATOR, rest);
    forall i | 0 <= i < |e| ensures SeparatorAt(s, i) <==> SeparatorAt(e + SEPARATOR, i) {
      SeparatorInFront(e + SEPARATOR, rest, i);
    }
  }

  lemma NoSeparator(s: Bytes)
    ensures FindSeparator(s, 0) == None <==> IsEntry(s, true)
  {
    var p := FindSeparator(s, 0);
    if p.Some? {
      assert SeparatorAt(s, p.value);
    }
  }

  /** Splitting gives the only list of entries whose join is the text. */
  lemma {:induction false} EntriesIff(s: Bytes, es: seq<Bytes>)
    ensures es == Entries(s) <==> Join(es) == s && IsDivision(es)
    decreases |s|
  {
    JoinOfEntries(s);
    NoSeparator(s);
    hide IsDivision, IsEntry, SeparatorAt, FindSeparator;
    var p := FindSeparator(s, 0);
    if p.Some? {
      SplitAtSeparator(s, p.value);
      var e, rest := s[..p.value], s[p.value + |SEPARATOR|..];
      FirstSeparator(e, rest);
      EntriesIff(rest, Entries(rest));
      DivisionCons(e, Entries(rest));
    } else {
      SingleDivision(s);
    }
    if Join(es) == s && IsDivision(es) {
      OnlyDivision(s, es);
      if |es| > 1 {
        PartsOfConcat(es[0], SEPARATOR + Join(es[1..]));
        DropTwice(es[0], SEPARATOR, Join(es[1..]));
        EntriesIff(Join(es[1..]), es[1..]);
        HeadAndTail(es);
      }
    }
  }

  lemma DropTwice(a: Bytes, b: Bytes, c: Bytes)
    ensures (a + (b + c))[|a| + |b|..] == c
  {
  }

  lemma SingleDivision(s: Bytes)
    ensures IsDivision([s]) <==> IsEntry(s, true)
  {
    hide IsEntry;
    assert [s][0] == s;
  }

  /** The first entry of any division is what stands in front of the first separator. */
  lemma OnlyDivision(s: Bytes, es: seq<Bytes>)
    requires Join(es) == s && IsDivision(es)
    ensures if |es| == 1 then FindSeparator(s, 0) == None && es == [s]
            else && FindSeparator(s, 0) == Some(|es[0]|) && s == es[0] + (SEPARATOR + Join(es[1..]))
                 && IsDivision(es[1..])
  {
    hide IsEntry, FindSeparator, SeparatorAt;
    if |es| == 1 {
      SingleDivision(s);
      NoSeparator(s);
    } else {
      HeadAndTail(es);
      DivisionCons(es[0], es[1..]);
      FirstSeparator(es[0], Join(es[1..]));
    }
  }

  /** Any trailing entries, joined, split into exactly those entries again, however
      the separator overlaps. */
  lemma {:induction false} EntriesOfSuffix(s: Bytes, k: nat)
    requires k < |Entries(s)|
    ensures Entries(Join(Entries(s)[k..])) == Entries(s)[k..]
    decreases |s|
  {
    var es := Entries(s);
    if k == 0 {
      JoinOfEntries(s);
      assert es[0..] == es;
    } else {
      var i := FindSeparator(s, 0).value;
      var rest := s[i + |SEPARATOR|..];
      PartsOfConcat([s[..i]], Entries(rest));
      EntriesOfSuffix(rest, k - 1);
      assert es[k..] == Entries(rest)[k - 1..];
    }
  }

  lemma {:induction false} JoinOfSuffix(es: seq<Bytes>, k: nat)
    requires k <= |es|
    ensures |Join(es[k..])| <= |Join(es)|
    ensures Join(es)[|Join(es)| - |Join(es[k..])|..] == Join(es[k..])
    decreases |es|
  {
    if k == 0 {
      assert es[0..] == es;
      SplitAt(Join(es), 0);
      EmptyConcat(Join(es));
    } else if |es| == 1 {
    } else {
      JoinOfSuffix(es[1..], k - 1);
      assert es[1..][k - 1..] == es[k..];
      var front, rest := es[0] + SEPARATOR, Join(es[1..]);
      Associative(es[0], SEPARATOR, rest);
      SuffixBehind(front, rest, |Join(es[k..])|);
    }
  }

  lemma SuffixBehind(front: Bytes, rest: Bytes, n: nat)
    requires n <= |rest|
    ensures (front + rest)[|front + rest| - n..] == rest[|rest| - n..]
  {
  }

  lemma JoinShrinks(es: seq<Bytes>, j: nat, k: nat)
    requires j <= k <= |es|
    ensures |Join(es[k..])| <= |Join(es[j..])|
  {
    JoinOfSuffix(es[j..], k - j);
    assert es[j..][k - j..] == es[k..];
  }

  /** The kept entries fit, and keeping one more would not. */
  lemma {:induction false} KeptStartIsLeast(es: seq<Bytes>, max: nat, i: nat)
    requires i <= |es| && |Join(es[i..])| <= max
    ensures var k := KeptStart(es, max, i);
            && |Join(es[k..])| <= max
            && forall j :: 0 <= j < k ==> |Join(es[j..])| > max
  {
    if i > 0 {
      if |Join(es[i - 1..])| <= max {
        KeptStartIsLeast(es, max, i - 1);
      } else {
        forall j | 0 <= j < i ensures |Join(es[j..])| > max {
          JoinShrinks(es, j, i - 1);
        }
      }
    }
  }

  /** The early return agrees with the loop: content that fits keeps every entry. */
  lemma FittingContentIsKept(content: Bytes, max: nat)
    requires |content| <= max
    ensures Kept(content, max) == Entries(content) && Join(Kept(content, max)) == content
  {
    hide Entries, KeptStart, Join;
    var es := Entries(content);
    JoinOfEntries(content);
    NothingKept(es);
    KeptStartIsLeast(es, max, |es|);
    assert es[0..] == es;
    assert KeptStart(es, max, |es|) == 0;
  }

  lemma NothingKept(es: seq<Bytes>)
    ensures es[|es|..] == [] && Join(es[|es|..]) == []
  {
  }

  /** Main result: the outcome is a byte suffix of the content within the limit, made
      of the largest number of whole trailing entries that fit; splitting it gives those
      entries back, unless none fits. */
  lemma TruncationKeepsNewest(content: Bytes, max: nat)
    ensures var es, r := Entries(content), Truncated(content, max);
            var k := |es| - |Kept(content, max)|;
            && |r| <= max
            && |r| <= |content| && content[|content| - |r|..] == r
            && 0 <= k && Kept(content, max) == es[k..] && r == Join(es[k..])
            && (forall j :: 0 <= j <= |es| ==> (|Join(es[j..])| <= max <==> k <= j))
            && (k < |es| ==> Entries(r) == es[k..])
            && (k == |es| ==> r == [])
  {
    hide Entries, KeptStart, Join;
    var es := Entries(content);
    var k := KeptStart(es, max, |es|);
    TruncatedIsJoin(content, max);
    FitsFrom(es, max);
    SuffixOfContent(content, k);
    NothingKept(es);
    if k < |es| {
      EntriesOfSuffix(content, k);
    }
  }

  /** Exactly the suffixes from the kept start on fit. */
  lemma FitsFrom(es: seq<Bytes>, max: nat)
    ensures var k := KeptStart(es, max, |es|);
            forall j :: 0 <= j <= |es| ==> (|Join(es[j..])| <= max <==> k <= j)
  {
    hide KeptStart, Join;
    var k := KeptStart(es, max, |es|);
    NothingKept(es);
    KeptStartIsLeast(es, max, |es|);
    forall j | 0 <= j <= |es| ensures |Join(es[j..])| <= max <==> k <= j {
      if k <= j {
        JoinShrinks(es, k, j);
      }
    }
  }

  lemma SuffixOfContent(content: Bytes, k: nat)
    requires k <= |Entries(content)|
    ensures var r := Join(Entries(content)[k..]);
            |r| <= |content| && content[|content| - |r|..] == r
  {
    hide Entries, Join;
    JoinOfEntries(content);
    JoinOfSuffix(Entries(content), k);
  }

  /** Both paths of the code give the kept entries joined. */
  lemma TruncatedIsJoin(content: Bytes, max: nat)
    ensures Truncated(content, max) == Join(Kept(content, max))
  {
    hide Entries, KeptStart, Join, Kept;
    if |content| <= max {
      FittingContentIsKept(content, max);
    }
  }
}
