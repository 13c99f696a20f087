/** When two write paths overlap: the textual test the scheduler uses is exactly
    component-wise containment. */
module PathConflicts {
  import opened Sequences

  /** A path as its '/'-separated components. */
  function Components(path: string): (parts: seq<string>)
    ensures |parts| >= 1
  {
    if path == "" then [""]
    else if path[0] == '/' then [""] + Components(path[1..])
    else
      var rest := Components(path[1..]);
      [[path[0]] + rest[0]] + rest[1..]
  }

  /** `path` is `root` itself or lies below it. */
  predicate Under(root: string, path: string) {
    Components(root) <= Components(path)
  }

  predicate Overlap(a: string, b: string) {
    Under(a, b) || Under(b, a)
  }

  /** The textual form of `Under`: a prefix that ends at a separator. */
  predicate PrefixAtSeparator(root: string, path: string) {
    root <= path && (|root| < |path| ==> path[|root|] == '/')
  }

  lemma {:induction false} UnderIsTextual(root: string, path: string)
    ensures Under(root, path) <==> PrefixAtSeparator(root, path)
  {
    if root == "" {
      RootComponents(path);
    } else if path == "" {
      MoreThanOne(root);
    } else if root[0] == '/' || path[0] == '/' {
      UnderIsTextual(root[1..], path[1..]);
      SlashComponents(root, path);
      PrefixTail(root, path);
    } else {
      UnderIsTextual(root[1..], path[1..]);
      PlainComponents(root, path);
      PrefixTail(root, path);
    }
  }

  lemma RootComponents(path: string)
    ensures Under("", path) <==> path == "" || path[0] == '/'
  {
    assert Components("") == [""];
    if path != "" && path[0] != '/' {
      assert Components(path)[0][0] == path[0];
    }
  }

  lemma MoreThanOne(root: string)
    requires root != ""
    ensures !Under(root, "")
  {
    assert Components("") == [""];
    if root[0] != '/' {
      assert |Components(root)[0]| > 0;
    }
  }

  lemma SlashComponents(root: string, path: string)
    requires root != "" && path != "" && (root[0] == '/' || path[0] == '/')
    ensures Under(root, path) <==> root[0] == path[0] && Under(root[1..], path[1..])
  {
    var r, p := Components(root), Components(path);
    if root[0] == path[0] {
      PartsOfConcat([""], Components(root[1..]));
      PartsOfConcat([""], Components(path[1..]));
      PrefixCons(r, p);
    } else {
      assert |r[0]| != |p[0]|;
    }
  }

  lemma PlainComponents(root: string, path: string)
    requires root != "" && path != "" && root[0] != '/' && path[0] != '/'
    ensures Under(root, path) <==> root[0] == path[0] && Under(root[1..], path[1..])
  {
    var r, p := Components(root[1..]), Components(path[1..]);
    PrefixCons(r, p);
    PrefixCons(Components(root), Components(path));
    PartsOfConcat([[root[0]] + r[0]], r[1..]);
    PartsOfConcat([[path[0]] + p[0]], p[1..]);
    ConsEqual(root[0], r[0], path[0], p[0]);
  }

  lemma ConsEqual(c: char, s: string, d: char, t: string)
    ensures [c] + s == [d] + t <==> c == d && s == t
  {
    PartsOfConcat([c], s);
    PartsOfConcat([d], t);
  }

  lemma PrefixCons<T>(a: seq<T>, b: seq<T>)
    requires a != [] && b != []
    ensures a <= b <==> a[0] == b[0] && a[1..] <= b[1..]
  {
    HeadAndTail(a);
    HeadAndTail(b);
  }

  lemma PrefixTail(root: string, path: string)
    requires root != "" && path != ""
    ensures PrefixAtSeparator(root, path) <==> root[0] == path[0] && PrefixAtSeparator(root[1..], path[1..])
  {
    PrefixCons(root, path);
  }

  /** Some two positions of the list hold overlapping paths. */
  predicate Conflicting(paths: seq<string>) {
    exists i, j :: 0 <= i < j < |paths| && Overlap(paths[i], paths[j])
  }

  /** True exactly when two listed paths overlap. */
  method HasPathConflicts(paths: seq<string>) returns (found: bool)
    ensures found <==> Conflicting(paths)
  {
    for i := 0 to |paths|
      invariant forall x, y :: 0 <= x < i && x < y < |paths| ==> !Overlap(paths[x], paths[y])
    {
      for k := i + 1 to |paths|
        invariant forall y :: i < y < k ==> !Overlap(paths[i], paths[y])
      {
        var a, b := paths[i], paths[k];
        UnderIsTextual(a, b);
        UnderIsTextual(b, a);
        if a == b {
          return true;
        }
        var shorter, longer := b, a;
        if |a| < |b| {
          shorter, longer := a, b;
        }
        if shorter <= longer {
          if |shorter| == |longer| || longer[|shorter|] == '/' {
            return true;
          }
        }
      }
    }
    return false;
  }

  /** The same statement without positions: two different listed paths overlap, or
      one is listed twice. */
  lemma ConflictingByContents(paths: seq<string>)
    ensures Conflicting(paths) <==>
            exists a, b :: a in multiset(paths) && b in multiset(paths) && Overlap(a, b)
                           && (a == b ==> multiset(paths)[a] >= 2)
  {
    if Conflicting(paths) {
      var i, j :| 0 <= i < j < |paths| && Overlap(paths[i], paths[j]);
      TwoPositions(paths, i, j);
      assert paths[i] in multiset(paths) && paths[j] in multiset(paths);
    }
    if a, b :| a in multiset(paths) && b in multiset(paths) && Overlap(a, b)
               && (a == b ==> multiset(paths)[a] >= 2)
    {
      var i :| 0 <= i < |paths| && paths[i] == a;
      var j := OtherPosition(paths, i, b);
      assert Overlap(paths[i], paths[j]) && Overlap(paths[j], paths[i]);
    }
  }

  lemma TwoPositions(paths: seq<string>, i: nat, j: nat)
    requires i < j < |paths|
    ensures paths[i] == paths[j] ==> multiset(paths)[paths[i]] >= 2
  {
    assert paths == paths[..j] + ([paths[j]] + paths[j + 1..]);
    assert paths[i] in paths[..j];
  }

  lemma OthersHold(front: seq<string>, a: string, back: seq<string>, b: string)
    requires b in multiset(front + ([a] + back)) && (a == b ==> multiset(front + ([a] + back))[b] >= 2)
    ensures b in front + back
  {
    assert b in multiset(front + back);
  }

  lemma OtherPosition(paths: seq<string>, i: nat, b: string) returns (j: nat)
    requires i < |paths| && b in multiset(paths)
    requires paths[i] == b ==> multiset(paths)[b] >= 2
    ensures j < |paths| && j != i && paths[j] == b
  {
    var others := paths[..i] + paths[i + 1..];
    assert paths == paths[..i] + ([paths[i]] + paths[i + 1..]);
    OthersHold(paths[..i], paths[i], paths[i + 1..], b);
    var k :| 0 <= k < |others| && others[k] == b;
    j := if k < i then k else k + 1;
  }

  /** The answer does not depend on the order of the paths. */
  lemma ConflictsIgnoreOrder(paths: seq<string>, shuffled: seq<string>)
    requires multiset(paths) == multiset(shuffled)
    ensures Conflicting(paths) <==> Conflicting(shuffled)
  {
    ConflictingByContents(paths);
    ConflictingByContents(shuffled);
  }
}
