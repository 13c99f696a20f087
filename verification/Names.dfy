/** Trimming text, and bringing lists of names into canonical form. */
module Names {
  import opened Sequences

  /** Unicode White_Space. */
  predicate IsSpace(c: char) {
    var n := c as int;
    9 <= n <= 13 || n == 32 || n == 0x85 || n == 0xA0 || n == 0x1680 || 0x2000 <= n <= 0x200A
    || n == 0x2028 || n == 0x2029 || n == 0x202F || n == 0x205F || n == 0x3000
  }

  predicate IsLineEnd(c: char) {
    c == '\n' || c == '\r'
  }

  function TrimStart(s: string): string {
    if s != "" && IsSpace(s[0]) then TrimStart(s[1..]) else s
  }

  function TrimEnd(s: string): string {
    if s != "" && IsSpace(s[|s| - 1]) then TrimEnd(s[..|s| - 1]) else s
  }

  function Trim(s: string): string {
    TrimEnd(TrimStart(s))
  }

  function TrimLineEnds(s: string): string {
    if s != "" && IsLineEnd(s[|s| - 1]) then TrimLineEnds(s[..|s| - 1]) else s
  }

  predicate IsTrimmed(s: string) {
    s == "" || (!IsSpace(s[0]) && !IsSpace(s[|s| - 1]))
  }

  lemma {:induction false} TrimStartTrims(s: string)
    ensures TrimStart(s) == "" || !IsSpace(TrimStart(s)[0])
  {
    if s != "" && IsSpace(s[0]) {
      TrimStartTrims(s[1..]);
    }
  }

  lemma {:induction false} TrimEndTrims(s: string)
    ensures TrimEnd(s) == "" || !IsSpace(TrimEnd(s)[|TrimEnd(s)| - 1])
    ensures TrimEnd(s) <= s
  {
    if s != "" && IsSpace(s[|s| - 1]) {
      TrimEndTrims(s[..|s| - 1]);
    }
  }

  lemma TrimTrims(s: string)
    ensures IsTrimmed(Trim(s))
  {
    TrimStartTrims(s);
    TrimEndTrims(TrimStart(s));
  }

  lemma TrimmedIsFixed(s: string)
    requires IsTrimmed(s)
    ensures Trim(s) == s
  {
  }

  lemma {:induction false} LineEndsTrimmedOnce(s: string)
    ensures TrimLineEnds(TrimLineEnds(s)) == TrimLineEnds(s)
  {
    if s != "" && IsLineEnd(s[|s| - 1]) {
      LineEndsTrimmedOnce(s[..|s| - 1]);
    }
  }

  /** `t` is `s` without the blanks in front and behind. */
  ghost predicate IsTrimOf(s: string, t: string) {
    IsTrimmed(t) && exists a, b :: s == a + (t + b) && forall c :: c in a || c in b ==> IsSpace(c)
  }

  lemma {:induction false} TrimStartExact(a: string, s: string)
    requires (forall c :: c in a ==> IsSpace(c)) && (s == "" || !IsSpace(s[0]))
    ensures TrimStart(a + s) == s
  {
    if a == "" {
      EmptyConcat(s);
    } else {
      TailOfConcat(a, s);
      TrimStartExact(a[1..], s);
    }
  }

  lemma {:induction false} TrimEndExact(s: string, b: string)
    requires (forall c :: c in b ==> IsSpace(c)) && (s == "" || !IsSpace(s[|s| - 1]))
    ensures TrimEnd(s + b) == s
  {
    if b == "" {
      EmptyConcat(s);
    } else {
      assert (s + b)[..|s + b| - 1] == s + b[..|b| - 1];
      TrimEndExact(s, b[..|b| - 1]);
    }
  }

  lemma {:induction false} TrimStartDrops(s: string) returns (a: string)
    ensures s == a + TrimStart(s) && forall c :: c in a ==> IsSpace(c)
  {
    if s != "" && IsSpace(s[0]) {
      var rest := TrimStartDrops(s[1..]);
      a := [s[0]] + rest;
      HeadAndTail(s);
      Associative([s[0]], rest, TrimStart(s[1..]));
    } else {
      a := "";
      EmptyConcat(s);
    }
  }

  lemma {:induction false} TrimEndDrops(s: string) returns (b: string)
    ensures s == TrimEnd(s) + b && forall c :: c in b ==> IsSpace(c)
  {
    if s != "" && IsSpace(s[|s| - 1]) {
      var n := |s| - 1;
      var rest := TrimEndDrops(s[..n]);
      b := rest + [s[n]];
      assert s == s[..n] + [s[n]];
      Associative(TrimEnd(s[..n]), rest, [s[n]]);
    } else {
      b := "";
      EmptyConcat(s);
    }
  }

  /** Trimming is the only way to take all blanks off both ends. */
  lemma TrimIff(s: string, t: string)
    ensures t == Trim(s) <==> IsTrimOf(s, t)
  {
    hide IsSpace;
    var a := TrimStartDrops(s);
    var b := TrimEndDrops(TrimStart(s));
    TrimTrims(s);
    assert s == a + (Trim(s) + b);
    if IsTrimOf(s, t) {
      var x, y :| s == x + (t + y) && forall c :: c in x || c in y ==> IsSpace(c);
      TrimEndExact(t, y);
      if t == "" {
        EmptyConcat(y);
        EmptyConcat(x + y);
        TrimStartExact(x + y, "");
      } else {
        TrimStartExact(x, t + y);
      }
    }
  }

  /** `t` is `s` without the line ends behind it, and only these are gone. */
  lemma {:induction false} LineEndsTrimmed(s: string) returns (b: string)
    ensures s == TrimLineEnds(s) + b && forall c :: c in b ==> c == '\n' || c == '\r'
    ensures var t := TrimLineEnds(s);
            t == "" || (t[|t| - 1] != '\n' && t[|t| - 1] != '\r')
  {
    if s != "" && IsLineEnd(s[|s| - 1]) {
      var n := |s| - 1;
      var rest := LineEndsTrimmed(s[..n]);
      b := rest + [s[n]];
      assert s == s[..n] + [s[n]];
      Associative(TrimLineEnds(s[..n]), rest, [s[n]]);
    } else {
      b := "";
      EmptyConcat(s);
    }
  }

  // ----- The order of names -----

  predicate LessEq(a: string, b: string) {
    a == "" || (b != "" && (a[0] < b[0] || (a[0] == b[0] && LessEq(a[1..], b[1..]))))
  }

  lemma {:induction false} LessEqTotal(a: string, b: string)
    ensures LessEq(a, b) || LessEq(b, a)
    ensures LessEq(a, a)
  {
    if a != "" {
      LessEqTotal(a[1..], if b == "" then "" else b[1..]);
    }
  }

  lemma {:induction false} LessEqAntisymmetric(a: string, b: string)
    requires LessEq(a, b) && LessEq(b, a)
    ensures a == b
  {
    if a != "" && b != "" {
      LessEqAntisymmetric(a[1..], b[1..]);
      HeadAndTail(a);
      HeadAndTail(b);
    }
  }

  lemma {:induction false} LessEqTransitive(a: string, b: string, c: string)
    requires LessEq(a, b) && LessEq(b, c)
    ensures LessEq(a, c)
  {
    if a != "" && b != "" && c != "" && a[0] == b[0] == c[0] {
      LessEqTransitive(a[1..], b[1..], c[1..]);
    }
  }

  /** Names are in the order of a dictionary: a name comes before those it begins, and
      otherwise the first character that differs decides. */
  lemma {:induction false} LessEqByCharacter(a: string, b: string)
    ensures LessEq(a, b) <==>
            a <= b || exists k :: 0 <= k < |a| && k < |b| && a[..k] == b[..k] && a[k] < b[k]
  {
    if a != "" && b != "" {
      HeadAndTail(a);
      HeadAndTail(b);
      LessEqByCharacter(a[1..], b[1..]);
      if k :| 0 <= k < |a| && k < |b| && a[..k] == b[..k] && a[k] < b[k] {
        if k > 0 {
          assert a[..k][0] == b[..k][0] && a[1..][..k - 1] == a[..k][1..] && b[1..][..k - 1] == b[..k][1..];
          assert a[1..][k - 1] < b[1..][k - 1];
        }
      }
      if a[0] < b[0] {
        assert a[..0] == b[..0];
      }
      if k :| 0 <= k < |a| - 1 && k < |b| - 1 && a[1..][..k] == b[1..][..k] && a[1..][k] < b[1..][k] {
        if a[0] == b[0] {
          assert a[..k + 1] == [a[0]] + a[1..][..k] && b[..k + 1] == [b[0]] + b[1..][..k];
          assert a[k + 1] < b[k + 1];
        }
      }
    } else if a != "" {
      assert !(a <= b);
    }
  }

  // ----- Sorting and removing repetitions -----

  function InsertName(x: string, names: seq<string>): seq<string> {
    if names == [] || LessEq(x, names[0]) then [x] + names else [names[0]] + InsertName(x, names[1..])
  }

  function SortNames(names: seq<string>): seq<string> {
    if names == [] then [] else InsertName(names[0], SortNames(names[1..]))
  }

  function Dedup(names: seq<string>): seq<string> {
    if |names| <= 1 then names
    else if names[0] == names[1] then Dedup(names[1..])
    else [names[0]] + Dedup(names[1..])
  }

  function CleanNames(names: seq<string>): seq<string> {
    if names == [] then []
    else (if Trim(names[0]) == "" then [] else [Trim(names[0])]) + CleanNames(names[1..])
  }

  /** Trim, drop empty names, sort, drop repetitions. */
  function NormalizeNames(names: seq<string>): seq<string> {
    Dedup(SortNames(CleanNames(names)))
  }

  predicate Ascending(names: seq<string>) {
    forall i, j :: 0 <= i < j < |names| ==> LessEq(names[i], names[j])
  }

  predicate StrictlyAscending(names: seq<string>) {
    forall i, j :: 0 <= i < j < |names| ==> LessEq(names[i], names[j]) && names[i] != names[j]
  }

  lemma {:induction false} InsertNameSorts(x: string, names: seq<string>)
    requires Ascending(names)
    ensures Ascending(InsertName(x, names))
    ensures forall y :: y in InsertName(x, names) <==> y == x || y in names
  {
    if names == [] {
    } else if LessEq(x, names[0]) {
      forall j | 0 <= j < |names| ensures LessEq(x, names[j]) {
        if j > 0 {
          LessEqTransitive(x, names[0], names[j]);
        }
      }
    } else {
      LessEqTotal(x, names[0]);
      InsertNameSorts(x, names[1..]);
      HeadAndTail(names);
      forall y | y in InsertName(x, names[1..]) ensures LessEq(names[0], y) {
        if y in names[1..] {
          var k :| 0 <= k < |names| - 1 && names[1..][k] == y;
          assert LessEq(names[0], names[k + 1]);
        }
      }
    }
  }

  lemma {:induction false} SortNamesSorts(names: seq<string>)
    ensures Ascending(SortNames(names))
    ensures forall y :: y in SortNames(names) <==> y in names
  {
    if names != [] {
      SortNamesSorts(names[1..]);
      InsertNameSorts(names[0], SortNames(names[1..]));
      HeadAndTail(names);
    }
  }

  lemma {:induction false} DedupDedups(names: seq<string>)
    requires Ascending(names)
    ensures StrictlyAscending(Dedup(names))
    ensures forall y :: y in Dedup(names) <==> y in names
  {
    if |names| > 1 {
      DedupDedups(names[1..]);
      HeadAndTail(names);
      if names[0] != names[1] {
        forall y | y in Dedup(names[1..]) ensures LessEq(names[0], y) && names[0] != y {
          assert y in names[1..];
          var k :| 0 <= k < |names| - 1 && names[1..][k] == y;
          assert LessEq(names[0], names[1]) && LessEq(names[0], names[k + 1]);
          if y == names[0] {
            assert k == 0 || LessEq(names[1], names[k + 1]);
            LessEqAntisymmetric(names[0], names[1]);
          }
        }
      }
    }
  }

  predicate IsCleanName(name: string) {
    name != "" && IsTrimmed(name)
  }

  lemma {:induction false} CleanNamesCleans(names: seq<string>)
    ensures forall y :: y in CleanNames(names) ==> IsCleanName(y)
    ensures forall y :: y in CleanNames(names) <==> y != "" && exists k :: 0 <= k < |names| && Trim(names[k]) == y
  {
    if names != [] {
      TrimTrims(names[0]);
      CleanNamesCleans(names[1..]);
      forall y ensures y in CleanNames(names) <==> y != "" && exists k :: 0 <= k < |names| && Trim(names[k]) == y {
        if k :| 0 <= k < |names| && Trim(names[k]) == y {
          if k > 0 {
            assert Trim(names[1..][k - 1]) == y;
          }
        }
        if k :| 0 <= k < |names| - 1 && Trim(names[1..][k]) == y {
          assert Trim(names[k + 1]) == y;
        }
      }
    }
  }

  predicate IsNormalNames(names: seq<string>) {
    StrictlyAscending(names) && forall y :: y in names ==> IsCleanName(y)
  }

  /** The canonical form is strictly ascending, free of blank or padded names, and
      holds exactly the trimmed non-blank names of the list. */
  lemma NormalizeNamesNormal(names: seq<string>)
    ensures IsNormalNames(NormalizeNames(names))
    ensures forall y :: y in NormalizeNames(names) <==> y != "" && exists k :: 0 <= k < |names| && Trim(names[k]) == y
  {
    CleanNamesCleans(names);
    SortNamesSorts(CleanNames(names));
    DedupDedups(SortNames(CleanNames(names)));
  }

  lemma {:induction false} NormalNamesFixed(names: seq<string>)
    requires IsNormalNames(names)
    ensures CleanNames(names) == names && SortNames(names) == names && Dedup(names) == names
  {
    if names != [] {
      var rest := names[1..];
      assert IsCleanName(names[0]) && forall y :: y in rest ==> y in names;
      NormalNamesFixed(rest);
      TrimmedIsFixed(names[0]);
      HeadAndTail(names);
      if rest != [] {
        assert LessEq(names[0], names[1]);
      }
    }
  }

  /** Normalising again changes nothing. */
  lemma NormalizeNamesIdempotent(names: seq<string>)
    requires IsNormalNames(names)
    ensures NormalizeNames(names) == names
  {
    NormalNamesFixed(names);
  }
}
