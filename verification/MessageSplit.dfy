/** Splitting a long text into numbered, platform-sized messages.  A `string` is
    a sequence of Unicode scalar values here. */
module MessageSplit {
  import opened Wrappers
  import opened Sequences

  const PREFIX_RESERVE := 12

  function EffectiveMax(maxChars: nat): nat {
    if maxChars < PREFIX_RESERVE then 0 else maxChars - PREFIX_RESERVE
  }

  // ----- One cut -----

  /** Position of the last newline, if any. */
  function LastNewline(s: string): (p: Option<nat>)
    ensures p.Some? ==> p.value < |s| && s[p.value] == '\n'
    ensures forall i :: (if p.Some? then p.value < i else 0 <= i) && i < |s| ==> s[i] != '\n'
  {
    if s == "" then None
    else if s[|s| - 1] == '\n' then Some(|s| - 1)
    else LastNewline(s[..|s| - 1])
  }

  /** How much of `remaining`, longer than `max`, goes into the next chunk. */
  function CutPoint(remaining: string, max: nat): (n: nat)
    requires max < |remaining|
    ensures n <= max && (max > 0 ==> n > 0)
  {
    match LastNewline(remaining[..max])
    case Some(p) => p + 1
    case None => max
  }

  /** The raw chunks. */
  function Chunks(text: string, max: nat): seq<string>
    requires max > 0
  {
    if text == "" then []
    else if |text| <= max then [text]
    else [text[..CutPoint(text, max)]] + Chunks(text[CutPoint(text, max)..], max)
  }

  // ----- Numbering -----

  function Digit(d: nat): char
    requires d < 10
  {
    "0123456789"[d]
  }

  function Decimal(n: nat): string {
    if n < 10 then [Digit(n)] else Decimal(n / 10) + [Digit(n % 10)]
  }

  function Prefix(k: nat, n: nat): string {
    "(" + Decimal(k) + "/" + Decimal(n) + ") "
  }

  function Numbered(chunks: seq<string>): (out: seq<string>)
    ensures |out| == |chunks|
    ensures forall i :: 0 <= i < |chunks| ==> out[i] == Prefix(i + 1, |chunks|) + chunks[i]
  {
    seq(|chunks|, i requires 0 <= i < |chunks| => Prefix(i + 1, |chunks|) + chunks[i])
  }

  /** The messages sent for `text`. */
  function Messages(text: string, maxChars: nat): seq<string>
    requires |text| <= maxChars || EffectiveMax(maxChars) > 0
  {
    if |text| <= maxChars then [text] else Numbered(Chunks(text, EffectiveMax(maxChars)))
  }

  /** The loop makes progress only if the reserve leaves room: see `NoProgressWithoutRoom`. */
  method SplitMessage(text: string, maxChars: nat) returns (messages: seq<string>)
    requires |text| <= maxChars || EffectiveMax(maxChars) > 0
    ensures messages == Messages(text, maxChars)
  {
    if |text| <= maxChars {
      return [text];
    }
    var effectiveMax := if maxChars < PREFIX_RESERVE then 0 else maxChars - PREFIX_RESERVE;
    var chunks: seq<string> := [];
    var remaining := text;
    EmptyConcat(Chunks(text, effectiveMax));
    while remaining != ""
      invariant chunks + Chunks(remaining, effectiveMax) == Chunks(text, effectiveMax)
      decreases |remaining|
    {
      if |remaining| <= effectiveMax {
        chunks := chunks + [remaining];
        remaining := "";
        EmptyConcat(chunks);
        break;
      }
      var limit := effectiveMax;
      var newline := LastNewline(remaining[..limit]);
      var split := if newline.Some? then newline.value + 1 else limit;
      split := if split == 0 then limit else split;
      Associative(chunks, [remaining[..split]], Chunks(remaining[split..], effectiveMax));
      chunks := chunks + [remaining[..split]];
      remaining := remaining[split..];
    }
    EmptyConcat(chunks);
    var n := |chunks|;
    messages := seq(n, i requires 0 <= i < n => Prefix(i + 1, n) + chunks[i]);
  }

  /** Without room for a chunk the cut takes nothing: the loop body would leave
      `remaining` as it is, for ever. */
  lemma NoProgressWithoutRoom(remaining: string, maxChars: nat)
    requires |remaining| > EffectiveMax(maxChars)
    ensures CutPoint(remaining, EffectiveMax(maxChars)) == 0 <==> maxChars <= PREFIX_RESERVE
  {
  }

  // ----- Chunks give the text back and fit -----

  function Concat(parts: seq<string>): string {
    if parts == [] then "" else parts[0] + Concat(parts[1..])
  }

  lemma {:induction false} ChunksConcat(text: string, max: nat)
    requires max > 0
    ensures Concat(Chunks(text, max)) == text
    ensures forall c :: c in Chunks(text, max) ==> 0 < |c| <= max
    decreases |text|
  {
    if text != "" && |text| > max {
      var n := CutPoint(text, max);
      ChunksConcat(text[n..], max);
      PartsOfConcat([text[..n]], Chunks(text[n..], max));
      SplitAt(text, n);
    } else if text != "" {
      assert Concat([text]) == text + Concat([text][1..]);
      assert [text][1..] == [];
    }
  }

  // ----- Where the text is cut -----

  /** `c` is cut off a text longer than `max`, of which `rest` is what follows: behind the
      last newline among the first `max` characters, or behind all of them if there is none. */
  predicate IsCut(c: string, rest: string, max: nat) {
    && 0 < |c| <= max < |c| + |rest|
    && if c[|c| - 1] == '\n' then '\n' !in rest[..max - |c|] else |c| == max && '\n' !in c
  }

  /** Every chunk but the last is cut off what was left, and the last one is what was left. */
  predicate IsSplit(chunks: seq<string>, max: nat) {
    forall k :: 0 <= k < |chunks| ==>
      if k + 1 == |chunks| then 0 < |chunks[k]| <= max else IsCut(chunks[k], Concat(chunks[k + 1..]), max)
  }

  lemma CutIff(text: string, max: nat, n: nat)
    requires 0 < max < |text| && n <= |text|
    ensures n == CutPoint(text, max) <==> IsCut(text[..n], text[n..], max)
  {
    var window := text[..max];
    if 0 < n <= max {
      assert text[..n] == window[..n] && text[n..][..max - n] == window[n..];
      assert forall i :: n <= i < max ==> window[i] == window[n..][i - n];
      assert forall i :: 0 <= i < n ==> window[i] == window[..n][i];
      match LastNewline(window)
      case Some(p) =>
        assert p >= n ==> window[p] in window[n..];
        assert p < n - 1 ==> text[..n][n - 1] != '\n' && window[p] in window[..n];
      case None =>
    }
  }

  lemma SplitCons(c: string, rest: seq<string>, max: nat)
    requires rest != []
    ensures IsSplit([c] + rest, max) <==> IsCut(c, Concat(rest), max) && IsSplit(rest, max)
  {
    hide IsCut, Concat;
    var all := [c] + rest;
    assert all[1..] == rest;
    assert forall k :: 0 <= k < |rest| ==> all[k + 1] == rest[k] && all[k + 2..] == rest[k + 1..];
    if IsSplit(all, max) {
      forall k | 0 <= k < |rest|
        ensures if k + 1 == |rest| then 0 < |rest[k]| <= max else IsCut(rest[k], Concat(rest[k + 1..]), max)
      {
        assert all[k + 1] == rest[k];
      }
      assert all[0] == c;
    }
  }

  /** The chunks of a text are its only such division. */
  lemma {:induction false} ChunksIff(text: string, max: nat, chunks: seq<string>)
    requires max > 0
    ensures chunks == Chunks(text, max) <==> Concat(chunks) == text && IsSplit(chunks, max)
    decreases |text|
  {
    hide IsCut, CutPoint, IsSplit;
    ChunksConcat(text, max);
    if text == "" {
      NoChunks(chunks, max);
    } else if |text| <= max {
      OneChunk(text, max, chunks);
    } else {
      var n := CutPoint(text, max);
      CutIff(text, max, n);
      var rest := Chunks(text[n..], max);
      ChunksIff(text[n..], max, rest);
      ChunksConcat(text[n..], max);
      SplitCons(text[..n], rest, max);
      if Concat(chunks) == text && IsSplit(chunks, max) {
        FirstChunk(text, max, chunks);
        ChunksIff(text[n..], max, chunks[1..]);
        HeadAndTail(chunks);
      }
    }
  }

  lemma NoChunks(chunks: seq<string>, max: nat)
    ensures Concat(chunks) == "" && IsSplit(chunks, max) <==> chunks == []
  {
    if IsSplit(chunks, max) {
      SeveralExceed(chunks, max);
    }
  }

  lemma SeveralExceed(chunks: seq<string>, max: nat)
    requires IsSplit(chunks, max)
    ensures |chunks| > 1 ==> |Concat(chunks)| > max
    ensures |chunks| == 1 ==> Concat(chunks) == chunks[0] && 0 < |chunks[0]| <= max
  {
    if |chunks| > 1 {
      assert IsCut(chunks[0], Concat(chunks[1..]), max);
    } else if |chunks| == 1 {
      assert chunks[1..] == [];
      EmptyConcat(chunks[0]);
    }
  }

  lemma OneChunk(text: string, max: nat, chunks: seq<string>)
    requires 0 < |text| <= max
    ensures Concat(chunks) == text && IsSplit(chunks, max) <==> chunks == [text]
  {
    assert [text][1..] == [];
    EmptyConcat(text);
    if Concat(chunks) == text && IsSplit(chunks, max) {
      SeveralExceed(chunks, max);
    }
  }

  lemma FirstChunk(text: string, max: nat, chunks: seq<string>)
    requires 0 < max < |text| && Concat(chunks) == text && IsSplit(chunks, max)
    ensures |chunks| > 1 && chunks[0] == text[..CutPoint(text, max)]
    ensures Concat(chunks[1..]) == text[CutPoint(text, max)..] && IsSplit(chunks[1..], max)
  {
    var rest := Concat(chunks[1..]);
    HeadAndTail(chunks);
    SplitCons(chunks[0], chunks[1..], max);
    PartsOfConcat(chunks[0], rest);
    CutIff(text, max, |chunks[0]|);
  }

  /** Main result: a text within the limit is sent as it is; a longer one as the numbered
      chunks of its only division that fits behind twelve reserved characters. */
  lemma MessagesMean(text: string, maxChars: nat, chunks: seq<string>)
    requires |text| <= maxChars || maxChars > 12
    ensures |text| <= maxChars ==> Messages(text, maxChars) == [text]
    ensures |text| > maxChars && Concat(chunks) == text && IsSplit(chunks, maxChars - 12) ==>
              var ms := Messages(text, maxChars);
              |ms| == |chunks| && forall i :: 0 <= i < |ms| ==>
                ms[i] == "(" + Decimal(i + 1) + "/" + Decimal(|ms|) + ") " + chunks[i]
  {
    hide IsSplit, Concat;
    if |text| > maxChars {
      ChunksIff(text, maxChars - 12, chunks);
    }
  }

  // ----- How many chunks -----

  /** No newline in the window: the next chunk covers the whole window. */
  lemma FirstChunkCovers(text: string, max: nat, w: nat)
    requires max > 0 && text != "" && w <= max && w <= |text|
    requires forall i :: 0 <= i < w ==> text[i] != '\n'
    ensures w < |Chunks(text, max)[0]| || |Chunks(text, max)[0]| == max || Chunks(text, max)[0] == text
  {
  }

  /** Two neighbouring chunks never fit into one. */
  lemma {:induction false} NeighboursExceed(text: string, max: nat, k: nat)
    requires max > 0 && k + 1 < |Chunks(text, max)|
    ensures |Chunks(text, max)[k]| + |Chunks(text, max)[k + 1]| > max
    decreases k
  {
    var n := CutPoint(text, max);
    var rest := text[n..];
    if k > 0 {
      NeighboursExceed(rest, max, k - 1);
    } else {
      var w := max - n;
      forall i | 0 <= i < w ensures rest[i] != '\n' {
        assert rest[i] == text[..max][n + i];
      }
      FirstChunkCovers(rest, max, w);
      ChunksConcat(rest, max);
      assert Chunks(rest, max)[0] in Chunks(rest, max);
    }
  }

  function TotalLength(parts: seq<string>): nat {
    if parts == [] then 0 else |parts[0]| + TotalLength(parts[1..])
  }

  lemma {:induction false} TotalIsConcat(parts: seq<string>)
    ensures TotalLength(parts) == |Concat(parts)|
  {
    if parts != [] {
      TotalIsConcat(parts[1..]);
    }
  }

  lemma {:induction false} PairsExceed(parts: seq<string>, max: nat)
    requires forall k :: 0 <= k < |parts| - 1 ==> |parts[k]| + |parts[k + 1]| > max
    ensures (|parts| / 2) * (max + 1) <= TotalLength(parts)
    decreases |parts|
  {
    if |parts| >= 2 {
      var rest := parts[2..];
      forall k | 0 <= k < |rest| - 1 ensures |rest[k]| + |rest[k + 1]| > max {
        assert |parts[k + 2]| + |parts[k + 2 + 1]| > max;
      }
      PairsExceed(rest, max);
      assert parts[1..][1..] == rest;
      assert TotalLength(parts) == |parts[0]| + (|parts[1]| + TotalLength(rest));
      assert |parts| / 2 == |rest| / 2 + 1;
      OneMorePair(|rest| / 2, max + 1);
    }
  }

  lemma OneMorePair(q: nat, e: nat)
    ensures (q + 1) * e == q * e + e
  {
  }

  /** Every pair of chunks uses up more than `max` characters of the text. */
  lemma ChunkCountBound(text: string, max: nat)
    requires max > 0
    ensures (|Chunks(text, max)| / 2) * (max + 1) <= |text|
  {
    var chunks := Chunks(text, max);
    forall k | 0 <= k < |chunks| - 1 ensures |chunks[k]| + |chunks[k + 1]| > max {
      NeighboursExceed(text, max, k);
    }
    PairsExceed(chunks, max);
    TotalIsConcat(chunks);
    ChunksConcat(text, max);
  }

  // ----- Every message fits, as long as four digits suffice -----

  function PowerOfTen(d: nat): nat {
    if d == 0 then 1 else 10 * PowerOfTen(d - 1)
  }

  lemma {:induction false} DecimalLength(n: nat, d: nat)
    requires d > 0
    ensures |Decimal(n)| <= d <==> n < PowerOfTen(d)
    decreases d
  {
    if d == 1 {
      assert PowerOfTen(1) == 10 * PowerOfTen(0);
      if n >= 10 {
        DecimalNotEmpty(n / 10);
      }
    } else if n >= 10 {
      DecimalLength(n / 10, d - 1);
    } else {
      PowerAtLeastTen(d);
    }
  }

  lemma {:induction false} PowerAtLeastTen(d: nat)
    requires d > 0
    ensures PowerOfTen(d) >= 10
  {
    if d > 1 {
      PowerAtLeastTen(d - 1);
    } else {
      assert PowerOfTen(1) == 10 * PowerOfTen(0);
    }
  }

  lemma {:induction false} DecimalNotEmpty(n: nat)
    ensures |Decimal(n)| >= 1
  {
  }

  lemma FourDigits(n: nat)
    ensures |Decimal(n)| <= 4 <==> n < 10000
    ensures |Decimal(n)| <= 3 <==> n < 1000
  {
    DecimalLength(n, 4);
    DecimalLength(n, 3);
    assert PowerOfTen(1) == 10 * PowerOfTen(0);
    assert PowerOfTen(2) == 10 * PowerOfTen(1);
    assert PowerOfTen(3) == 10 * PowerOfTen(2);
    assert PowerOfTen(4) == 10 * PowerOfTen(3);
  }

  lemma PrefixLength(k: nat, n: nat)
    ensures |Prefix(k, n)| == 4 + |Decimal(k)| + |Decimal(n)|
  {
  }

  predicate AllFit(messages: seq<string>, maxChars: nat) {
    forall m :: m in messages ==> |m| <= maxChars
  }

  lemma HalfBound(n: nat, e: nat, length: nat)
    requires (n / 2) * e <= length < 5000 * e
    ensures n < 10000
  {
    if n >= 10000 {
      Monotone(5000, n / 2, e);
    }
  }

  lemma Monotone(a: nat, b: nat, e: nat)
    requires a <= b
    ensures a * e <= b * e
  {
  }

  /** Texts shorter than 5000 pairs of chunks are split into messages that all fit. */
  lemma ShortTextsFit(text: string, maxChars: nat)
    requires maxChars > PREFIX_RESERVE
    requires |text| < 5000 * (EffectiveMax(maxChars) + 1)
    ensures AllFit(Messages(text, maxChars), maxChars)
  {
    if |text| > maxChars {
      var e := EffectiveMax(maxChars);
      var chunks := Chunks(text, e);
      ChunkCountBound(text, e);
      HalfBound(|chunks|, e + 1, |text|);
      ChunksConcat(text, e);
      forall m | m in Numbered(chunks) ensures |m| <= maxChars {
        var i :| 0 <= i < |chunks| && Numbered(chunks)[i] == m;
        assert chunks[i] in chunks;
        PrefixLength(i + 1, |chunks|);
        FourDigits(i + 1);
        FourDigits(|chunks|);
      }
    }
  }

  // ----- That bound is the best one -----

  function Xs(n: nat): (s: string)
    ensures |s| == n && forall i :: 0 <= i < n ==> s[i] == 'x'
  {
    seq(n, i => 'x')
  }

  /** `j` times a lone newline and a full window, then `tail`. */
  function Dense(j: nat, max: nat, tail: string): string {
    if j == 0 then tail else "\n" + (Xs(max) + Dense(j - 1, max, tail))
  }

  function Pairs(j: nat, max: nat): seq<string> {
    if j == 0 then [] else ["\n", Xs(max)] + Pairs(j - 1, max)
  }

  lemma NewlineChunk(max: nat, rest: string)
    requires max > 0
    ensures Chunks("\n" + (Xs(max) + rest), max) == ["\n"] + Chunks(Xs(max) + rest, max)
  {
    var text := "\n" + (Xs(max) + rest);
    var window := text[..max];
    assert window[0] == '\n';
    forall i | 1 <= i < max ensures window[i] == 'x' {
      assert window[i] == Xs(max)[i - 1];
    }
    assert CutPoint(text, max) == 1;
    PartsOfConcat("\n", Xs(max) + rest);
  }

  lemma WindowChunk(max: nat, rest: string)
    requires max > 0
    ensures Chunks(Xs(max) + rest, max) == [Xs(max)] + Chunks(rest, max)
  {
    PartsOfConcat(Xs(max), rest);
    if rest == "" {
      EmptyConcat(Xs(max));
      EmptyConcat([Xs(max)]);
    } else {
      assert LastNewline(Xs(max)).None?;
    }
  }

  lemma {:induction false} DenseLength(j: nat, max: nat, tail: string)
    ensures |Dense(j, max, tail)| == j * (max + 1) + |tail|
  {
    if j > 0 {
      DenseLength(j - 1, max, tail);
      OneMorePair(j - 1, max + 1);
    }
  }

  lemma TwoInFront<T>(a: T, b: T, p: seq<T>, q: seq<T>)
    ensures [a] + ([b] + (p + q)) == ([a, b] + p) + q
  {
  }

  lemma {:induction false} DenseChunks(j: nat, max: nat, tail: string)
    requires max > 0
    ensures Chunks(Dense(j, max, tail), max) == Pairs(j, max) + Chunks(tail, max)
  {
    hide Chunks;
    if j == 0 {
      EmptyConcat(Chunks(tail, max));
    } else {
      var rest := Dense(j - 1, max, tail);
      DenseChunks(j - 1, max, tail);
      NewlineChunk(max, rest);
      WindowChunk(max, rest);
      TwoInFront("\n", Xs(max), Pairs(j - 1, max), Chunks(tail, max));
    }
  }

  lemma {:induction false} PairsAt(j: nat, max: nat, a: nat)
    requires a < j
    ensures 2 * a + 1 < |Pairs(j, max)| && Pairs(j, max)[2 * a + 1] == Xs(max)
  {
    if a > 0 {
      PairsAt(j - 1, max, a - 1);
    }
    PairsLength(j, max);
  }

  lemma {:induction false} PairsLength(j: nat, max: nat)
    ensures |Pairs(j, max)| == 2 * j
  {
    if j > 0 {
      PairsLength(j - 1, max);
    }
  }

  /** From 5000 pairs on, some text of that length is cut so densely that message
      1000, a full window, no longer fits. */
  lemma DenseTextDoesNotFit(maxChars: nat, n: nat)
    requires maxChars > PREFIX_RESERVE && n >= 5000 * (EffectiveMax(maxChars) + 1)
    ensures exists text :: |text| == n && !AllFit(Messages(text, maxChars), maxChars)
  {
    var e := EffectiveMax(maxChars);
    var tail := Xs(n - 5000 * (e + 1));
    var text := Dense(5000, e, tail);
    DenseChunks(5000, e, tail);
    DenseLength(5000, e, tail);
    PairsAt(5000, e, 499);
    PairsLength(5000, e);
    var chunks := Chunks(text, e);
    assert chunks[999] == Pairs(5000, e)[999];
    PrefixLength(1000, |chunks|);
    FourDigits(1000);
    FourDigits(|chunks|);
    assert |Numbered(chunks)[999]| > maxChars;
    assert Numbered(chunks)[999] in Messages(text, maxChars);
  }

  /** Main result: all texts of length `n` are split into messages of at most
      `maxChars` characters exactly when `n` is below 5000 pairs of chunks. */
  lemma FitsExactlyBelow(maxChars: nat, n: nat)
    requires maxChars > PREFIX_RESERVE
    ensures (forall text :: |text| == n ==> AllFit(Messages(text, maxChars), maxChars))
            <==> n < 5000 * (EffectiveMax(maxChars) + 1)
  {
    if n < 5000 * (EffectiveMax(maxChars) + 1) {
      forall text | |text| == n ensures AllFit(Messages(text, maxChars), maxChars) {
        ShortTextsFit(text, maxChars);
      }
    } else {
      DenseTextDoesNotFit(maxChars, n);
    }
  }

  // ----- Putting the messages together again -----

  /** Position of the first ") ", or the length if there is none. */
  function FirstClose(m: string): (i: nat)
    ensures i <= |m|
  {
    if m == "" then 0
    else if |m| >= 2 && m[0] == ')' && m[1] == ' ' then 0
    else 1 + FirstClose(m[1..])
  }

  function Stripped(m: string): string {
    if FirstClose(m) + 2 <= |m| then m[FirstClose(m) + 2..] else m
  }

  function StrippedAll(messages: seq<string>): seq<string> {
    if messages == [] then [] else [Stripped(messages[0])] + StrippedAll(messages[1..])
  }

  predicate AllDigits(s: string) {
    forall i :: 0 <= i < |s| ==> '0' <= s[i] <= '9'
  }

  lemma {:induction false} DecimalDigits(n: nat)
    ensures AllDigits(Decimal(n))
  {
    if n >= 10 {
      DecimalDigits(n / 10);
    }
  }

  lemma {:induction false} FirstCloseAfter(front: string, rest: string)
    requires forall i :: 0 <= i < |front| ==> front[i] != ')'
    ensures FirstClose(front + (") " + rest)) == |front|
  {
    if front == "" {
      EmptyConcat(") " + rest);
    } else {
      TailOfConcat(front, ") " + rest);
      FirstCloseAfter(front[1..], rest);
    }
  }

  lemma StrippedMessage(k: nat, n: nat, chunk: string)
    ensures Stripped(Prefix(k, n) + chunk) == chunk
  {
    var front := "(" + Decimal(k) + "/" + Decimal(n);
    DecimalDigits(k);
    DecimalDigits(n);
    FirstCloseAfter(front, chunk);
    assert Prefix(k, n) + chunk == front + (") " + chunk);
  }

  lemma {:induction false} StrippedNumbered(chunks: seq<string>, n: nat, i: nat)
    requires i <= |chunks|
    ensures StrippedAll(NumberedFrom(chunks, n, i)) == chunks[i..]
    decreases |chunks| - i
  {
    if i < |chunks| {
      StrippedMessage(i + 1, n, chunks[i]);
      StrippedNumbered(chunks, n, i + 1);
      PartsOfConcat([Prefix(i + 1, n) + chunks[i]], NumberedFrom(chunks, n, i + 1));
      HeadAndTail(chunks[i..]);
    }
  }

  function NumberedFrom(chunks: seq<string>, n: nat, i: nat): (out: seq<string>)
    requires i <= |chunks|
    ensures |out| == |chunks| - i
    ensures forall j :: 0 <= j < |out| ==> out[j] == Prefix(i + j + 1, n) + chunks[i + j]
    decreases |chunks| - i
  {
    if i == |chunks| then [] else [Prefix(i + 1, n) + chunks[i]] + NumberedFrom(chunks, n, i + 1)
  }

  // ----- Reading the numbers -----

  function Value(digits: string): nat
    requires AllDigits(digits)
  {
    if digits == "" then 0
    else 10 * Value(digits[..|digits| - 1]) + (digits[|digits| - 1] as int - '0' as int)
  }

  lemma {:induction false} ValueOfDecimal(n: nat)
    ensures AllDigits(Decimal(n)) && Value(Decimal(n)) == n
  {
    DecimalDigits(n);
    if n >= 10 {
      ValueOfDecimal(n / 10);
      PartsOfConcat(Decimal(n / 10), [Digit(n % 10)]);
    } else {
      assert Decimal(n)[..0] == "";
    }
  }

  /** `m` starts with "(", digits with value `k`, "/", digits with value `n`, ") ". */
  ghost predicate IsNumbered(m: string, k: nat, n: nat) {
    exists a, b, rest :: AllDigits(a) && AllDigits(b) && Value(a) == k && Value(b) == n
                         && m == "(" + a + "/" + b + ") " + rest
  }

  /** Main result: the messages of a split text are numbered 1 to N, and dropping each
      one's prefix, found at its first ") ", gives the text back. */
  lemma RoundTrip(text: string, maxChars: nat)
    requires |text| > maxChars > PREFIX_RESERVE
    ensures Concat(StrippedAll(Messages(text, maxChars))) == text
    ensures var ms := Messages(text, maxChars);
            forall i :: 0 <= i < |ms| ==> IsNumbered(ms[i], i + 1, |ms|)
  {
    var chunks := Chunks(text, EffectiveMax(maxChars));
    var ms := Messages(text, maxChars);
    assert NumberedFrom(chunks, |chunks|, 0) == ms;
    StrippedNumbered(chunks, |chunks|, 0);
    assert chunks[0..] == chunks;
    ChunksConcat(text, EffectiveMax(maxChars));
    forall i | 0 <= i < |ms| ensures IsNumbered(ms[i], i + 1, |ms|) {
      ValueOfDecimal(i + 1);
      ValueOfDecimal(|ms|);
      assert ms[i] == "(" + Decimal(i + 1) + "/" + Decimal(|ms|) + ") " + chunks[i];
    }
  }
}
