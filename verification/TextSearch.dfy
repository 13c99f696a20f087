/** Finding a phrase in a text, cutting a text at single characters, and joining
    and recovering lists of names. */
module TextSearch {
  import opened Wrappers
  import opened Sequences
  import opened Names

  predicate OccursAt(s: string, phrase: string, i: nat) {
    i + |phrase| <= |s| && s[i..i + |phrase|] == phrase
  }

  /** `str::contains`. */
  predicate Contains(s: string, phrase: string) {
    exists i | 0 <= i <= |s| :: OccursAt(s, phrase, i)
  }

  /** `str::split_once`, second half: what follows the leftmost occurrence. */
  function After(s: string, phrase: string, from: nat): Option<string>
    decreases |s| - from
  {
    if OccursAt(s, phrase, from) then Some(s[from + |phrase|..])
    else if from >= |s| then None
    else After(s, phrase, from + 1)
  }

  /** At shift `i` the phrase disagrees with `s` somewhere inside `s`. */
  predicate Disagrees(s: string, phrase: string, i: int) {
    exists j | 0 <= j < |phrase| :: 0 <= i + j < |s| && s[i + j] != phrase[j]
  }

  /** Wherever `s` holds the phrase's `p`-th character, the neighbourhood rules the
      phrase out.  This survives concatenation, so it can be shown piece by piece. */
  predicate Refutes(s: string, phrase: string, p: nat)
    requires p < |phrase|
  {
    forall k | 0 <= k < |s| :: s[k] == phrase[p] ==> Disagrees(s, phrase, k - p)
  }

  lemma RefutesFree(s: string, phrase: string, p: nat)
    requires p < |phrase| && phrase[p] !in s
    ensures Refutes(s, phrase, p)
  {
  }

  /** The only place where `s` holds the mark is `m`. */
  predicate OnlyMark(s: string, c: char, m: nat) {
    m < |s| && s[m] == c && forall k | 0 <= k < |s| :: s[k] == c ==> k == m
  }

  /** The phrase's `p`-th character does not occur earlier in it. */
  predicate FirstMark(phrase: string, p: nat) {
    p < |phrase| && forall k | 0 <= k < p :: phrase[k] != phrase[p]
  }

  lemma RefutesMark(s: string, phrase: string, p: nat, m: nat, d: int)
    requires p < |phrase| && OnlyMark(s, phrase[p], m)
    requires 0 <= m + d < |s| && 0 <= p + d < |phrase| && s[m + d] != phrase[p + d]
    ensures Refutes(s, phrase, p)
  {
    forall k | 0 <= k < |s| && s[k] == phrase[p] ensures Disagrees(s, phrase, k - p) {
      var j := p + d;
      assert s[k - p + j] != phrase[j];
    }
  }

  lemma RefutesConcat(a: string, b: string, phrase: string, p: nat)
    requires p < |phrase| && Refutes(a, phrase, p) && Refutes(b, phrase, p)
    ensures Refutes(a + b, phrase, p)
  {
    var s := a + b;
    forall k | 0 <= k < |s| && s[k] == phrase[p] ensures Disagrees(s, phrase, k - p) {
      if k < |a| {
        assert a[k] == s[k];
        var j :| 0 <= j < |phrase| && 0 <= k - p + j < |a| && a[k - p + j] != phrase[j];
        assert s[k - p + j] != phrase[j];
      } else {
        var at := k - |a|;
        assert b[at] == s[k];
        var j :| 0 <= j < |phrase| && 0 <= at - p + j < |b| && b[at - p + j] != phrase[j];
        assert s[k - p + j] == b[at - p + j];
      }
    }
  }

  lemma OccursChar(s: string, phrase: string, i: nat, j: nat)
    requires OccursAt(s, phrase, i) && j < |phrase|
    ensures s[i + j] == phrase[j]
  {
    assert s[i..i + |phrase|][j] == phrase[j];
  }

  lemma OccursInside(s: string, phrase: string, i: nat)
    requires OccursAt(s, phrase, i)
    ensures i + |phrase| <= |s|
  {
  }

  lemma RefutedAbsent(s: string, phrase: string, p: nat)
    requires p < |phrase| && Refutes(s, phrase, p)
    ensures !Contains(s, phrase)
  {
    if i :| 0 <= i <= |s| && OccursAt(s, phrase, i) {
      OccursChar(s, phrase, i, p);
      assert Disagrees(s, phrase, i + p - p);
      var j :| 0 <= j < |phrase| && 0 <= i + j < |s| && s[i + j] != phrase[j];
      OccursChar(s, phrase, i, j);
    }
  }

  lemma OccursBetween(front: string, phrase: string, rest: string)
    ensures OccursAt(front + (phrase + rest), phrase, |front|)
    ensures Contains(front + (phrase + rest), phrase)
    ensures (front + (phrase + rest))[|front| + |phrase|..] == rest
  {
    PartsOfConcat(front, phrase + rest);
    PartsOfConcat(phrase, rest);
    assert OccursAt(front + (phrase + rest), phrase, |front|);
  }

  lemma SliceOfSlice(s: string, i: nat, n: nat, k: nat, m: nat)
    requires i + n <= |s| && k + m <= n
    ensures s[i..i + n][k..k + m] == s[i + k..i + k + m]
  {
    var a, b := s[i..i + n][k..k + m], s[i + k..i + k + m];
    forall x | 0 <= x < m ensures a[x] == b[x] {
      assert a[x] == s[i..i + n][k + x];
    }
  }

  lemma PartOccurs(s: string, front: string, phrase: string, rest: string, i: nat)
    requires OccursAt(s, front + (phrase + rest), i)
    ensures OccursAt(s, phrase, i + |front|)
  {
    var whole := front + (phrase + rest);
    SliceOfSlice(s, i, |whole|, |front|, |phrase|);
    OccursBetween(front, phrase, rest);
  }

  lemma ContainsPart(s: string, front: string, phrase: string, rest: string)
    requires Contains(s, front + (phrase + rest))
    ensures Contains(s, phrase)
  {
    hide OccursAt;
    var i :| 0 <= i <= |s| && OccursAt(s, front + (phrase + rest), i);
    PartOccurs(s, front, phrase, rest, i);
    OccursInside(s, phrase, i + |front|);
  }

  lemma {:induction false} AfterSkips(s: string, phrase: string, from: nat, found: nat)
    requires from <= found && OccursAt(s, phrase, found)
    requires forall i: nat :: from <= i < found ==> !OccursAt(s, phrase, i)
    ensures After(s, phrase, from) == Some(s[found + |phrase|..])
    decreases found - from
  {
    if from < found {
      AfterSkips(s, phrase, from + 1, found);
    }
  }

  /** A phrase ruled out in front of a place is first found at that place. */
  lemma AfterFirst(front: string, phrase: string, rest: string, p: nat)
    requires p < |phrase| && Refutes(front, phrase, p) && FirstMark(phrase, p)
    ensures After(front + (phrase + rest), phrase, 0) == Some(rest)
  {
    var s := front + (phrase + rest);
    OccursBetween(front, phrase, rest);
    forall i: nat | i < |front| ensures !OccursAt(s, phrase, i) {
      if OccursAt(s, phrase, i) {
        OccursChar(s, phrase, i, p);
        if i + p < |front| {
          assert front[i + p] == phrase[p];
          assert Disagrees(front, phrase, i + p - p);
          var j :| 0 <= j < |phrase| && 0 <= i + j < |front| && front[i + j] != phrase[j];
          OccursChar(s, phrase, i, j);
        } else {
          OccursChar(s, phrase, |front|, i + p - |front|);
        }
      }
    }
    AfterSkips(s, phrase, 0, |front|);
  }

  // ----- Lists of names in a text -----

  predicate IsStop(c: char) {
    c == '(' || c == ')' || c == ';'
  }

  /** The part before the first parenthesis or semicolon. */
  function UpToStop(s: string): string {
    if s == "" || IsStop(s[0]) then "" else [s[0]] + UpToStop(s[1..])
  }

  /** A list is read up to the first parenthesis or semicolon. */
  lemma {:induction false} StopsThere(value: string, rest: string)
    requires forall c :: c in value ==> c != '(' && c != ')' && c != ';'
    requires rest != "" && rest[0] in {'(', ')', ';'}
    ensures UpToStop(value + rest) == value
  {
    if value == "" {
      EmptyConcat(rest);
    } else {
      TailOfConcat(value, rest);
      HeadAndTail(value);
      assert value[0] in value && forall c :: c in value[1..] ==> c in value;
      StopsThere(value[1..], rest);
    }
  }

  /** `str::split(',')`. */
  function SplitCommas(s: string): (parts: seq<string>)
    ensures |parts| >= 1
  {
    if s == "" then [""]
    else
      var rest := SplitCommas(s[1..]);
      if s[0] == ',' then [""] + rest else [[s[0]] + rest[0]] + rest[1..]
  }

  lemma {:induction false} SplitFirst(name: string, rest: string)
    requires ',' !in name
    ensures SplitCommas(name) == [name]
    ensures SplitCommas(name + ("," + rest)) == [name] + SplitCommas(rest)
  {
    if name == "" {
      EmptyConcat("," + rest);
      PartsOfConcat(",", rest);
    } else {
      TailOfConcat(name, "," + rest);
      HeadAndTail(name);
      SplitFirst(name[1..], rest);
    }
  }

  /** `join(", ")`. */
  function JoinNames(names: seq<string>): string {
    if names == [] then ""
    else if |names| == 1 then names[0]
    else names[0] + ("," + (" " + JoinNames(names[1..])))
  }

  /** Characters that a printed list keeps apart from what ends a name or the list. */
  predicate IsNameChar(c: char) {
    !IsSpace(c) && !IsStop(c) && c != ','
  }

  predicate IsPlainName(name: string) {
    name != "" && forall c :: c in name ==> IsNameChar(c)
  }

  predicate ArePlainNames(names: seq<string>) {
    forall k :: 0 <= k < |names| ==> IsPlainName(names[k])
  }

  /** Names that a joined list keeps apart. */
  predicate AreListedNames(names: seq<string>) {
    forall k :: 0 <= k < |names| ==> IsCleanName(names[k]) && ',' !in names[k]
  }

  lemma PlainAreListed(names: seq<string>)
    requires ArePlainNames(names)
    ensures AreListedNames(names)
  {
    forall k | 0 <= k < |names| ensures IsCleanName(names[k]) && ',' !in names[k] {
      var name := names[k];
      assert IsPlainName(name);
      assert name[0] in name && name[|name| - 1] in name;
    }
  }

  lemma PlainTail(names: seq<string>)
    requires ArePlainNames(names) && names != []
    ensures ArePlainNames(names[1..])
  {
  }

  lemma PaddedName(name: string)
    requires IsCleanName(name)
    ensures Trim(name) == name && Trim(" " + name) == name
  {
    PartsOfConcat(" ", name);
    assert TrimStart(" " + name) == TrimStart(name);
  }

  /** Splitting a joined list at commas and trimming gives the names back. */
  lemma {:induction false} JoinedNames(names: seq<string>, pad: string)
    requires AreListedNames(names) && names != []
    requires pad == "" || pad == " "
    ensures CleanNames(SplitCommas(pad + JoinNames(names))) == names
    decreases |names|
  {
    var name := names[0];
    PaddedName(name);
    EmptyConcat(name);
    HeadAndTail(names);
    assert Trim(pad + name) == name && ',' !in pad + name;
    if |names| == 1 {
      SplitFirst(pad + name, "");
    } else {
      var rest := " " + JoinNames(names[1..]);
      JoinedNames(names[1..], " ");
      SplitFirst(pad + name, rest);
      Associative(pad, name, "," + rest);
      PartsOfConcat([pad + name], SplitCommas(rest));
    }
  }

  predicate BlanksFollowCommas(s: string) {
    forall k | 0 <= k < |s| :: s[k] == ' ' ==> k > 0 && s[k - 1] == ','
  }

  /** A joined list holds name characters, commas and blanks only, every blank behind
      a comma, and neither begins nor ends with a blank. */
  lemma {:induction false} JoinedCharacters(names: seq<string>)
    requires ArePlainNames(names) && names != []
    ensures |JoinNames(names)| >= |names| && JoinNames(names)[0] == names[0][0]
    ensures forall c :: c in JoinNames(names) ==> IsNameChar(c) || c == ',' || c == ' '
    ensures IsTrimmed(JoinNames(names)) && BlanksFollowCommas(JoinNames(names))
  {
    var name := names[0];
    assert name[0] in name && name[|name| - 1] in name;
    NoBlankInside(name);
    if |names| > 1 {
      PlainTail(names);
      JoinedCharacters(names[1..]);
      var rest := JoinNames(names[1..]);
      BlanksInFront(name, rest);
      hide BlanksFollowCommas, ArePlainNames;
      var joined := name + ("," + (" " + rest));
      assert joined[0] == name[0];
      assert joined[|joined| - 1] == rest[|rest| - 1];
    }
  }

  lemma NoBlankInside(name: string)
    requires IsPlainName(name)
    ensures ' ' !in name && BlanksFollowCommas(name)
  {
  }

  lemma BlanksInFront(name: string, rest: string)
    requires ' ' !in name && BlanksFollowCommas(rest)
    ensures BlanksFollowCommas(name + ("," + (" " + rest)))
  {
    var joined, n := name + ("," + (" " + rest)), |name|;
    forall k | 0 <= k < |joined| && joined[k] == ' ' ensures k > 0 && joined[k - 1] == ',' {
      if k >= n + 2 {
        assert joined[k] == rest[k - n - 2];
      }
    }
  }

  // ----- Phrases and printed lists -----

  /** Text that a list is printed behind. */
  predicate IsLead(lead: string) {
    |lead| >= 2 && lead[|lead| - 1] == ' ' && (lead[|lead| - 2] == ':' || lead[|lead| - 2] == '>')
  }

  /** The phrase's `p`-th character belongs to a word, whose preceding blank is at `q`
      and stands behind something that no blank in front of or in a list stands behind. */
  predicate InWordFrom(phrase: string, p: nat, q: nat) {
    && 0 < q < p < |phrase| && phrase[q] == ' ' && (forall j | q < j <= p :: phrase[j] != ' ')
    && phrase[q - 1] != ',' && phrase[q - 1] != ':' && phrase[q - 1] != '>'
  }

  lemma {:induction false} LastBlank(s: string, k: nat) returns (b: nat)
    requires k < |s| && exists j :: 0 <= j <= k && s[j] == ' '
    ensures b <= k && s[b] == ' ' && forall j :: b < j <= k ==> s[j] != ' '
  {
    if s[k] == ' ' {
      b := k;
    } else {
      b := LastBlank(s, k - 1);
    }
  }

  /** A list rules a phrase out wherever one of its own characters would be the marked
      one: in a list every blank stands behind a comma. */
  lemma ListRefutes(lead: string, list: string, phrase: string, p: nat, q: nat)
    requires InWordFrom(phrase, p, q) && IsLead(lead) && BlanksFollowCommas(list)
    requires forall k | 0 <= k < |lead| :: lead[k] == phrase[p] ==> Disagrees(lead + list, phrase, k - p)
    ensures Refutes(lead + list, phrase, p)
  {
    var s, n := lead + list, |lead|;
    forall k | 0 <= k < |s| && s[k] == phrase[p] ensures Disagrees(s, phrase, k - p) {
      if k >= n {
        assert s[n - 1] == ' ' && s[n - 2] == lead[n - 2];
        var b := LastBlank(s, k);
        BlankBehind(lead, list, b);
        if k - b < p - q {
          assert s[k - p + (p - (k - b))] != phrase[p - (k - b)];
        } else if k - b > p - q {
          assert s[k - p + q] != phrase[q];
        } else {
          assert s[k - p + (q - 1)] != phrase[q - 1];
        }
      }
    }
  }

  lemma BlankBehind(lead: string, list: string, b: nat)
    requires IsLead(lead) && BlanksFollowCommas(list)
    requires |lead| - 1 <= b < |lead + list| && (lead + list)[b] == ' '
    ensures var y := (lead + list)[b - 1]; y == ',' || y == ':' || y == '>'
  {
    if b >= |lead| {
      assert list[b - |lead|] == ' ';
    }
  }

  lemma KeyRefutes(lead: string, list: string, phrase: string, p: nat, q: nat)
    requires InWordFrom(phrase, p, q) && IsLead(lead) && BlanksFollowCommas(list) && Refutes(lead, phrase, p)
    ensures Refutes(lead + list, phrase, p)
  {
    forall k | 0 <= k < |lead| && lead[k] == phrase[p] ensures Disagrees(lead + list, phrase, k - p) {
      var j :| 0 <= j < |phrase| && 0 <= k - p + j < |lead| && lead[k - p + j] != phrase[j];
      assert (lead + list)[k - p + j] != phrase[j];
    }
    ListRefutes(lead, list, phrase, p, q);
  }
}
