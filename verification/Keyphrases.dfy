/** Candidate phrases and their selection (`demo/keyphrases.py`): short runs of
    words, every identity once, a budget shared fairly between the phrase lengths
    and spread over the positions, then a greedy choice without overlaps. */
module Keyphrases {
  import opened Wrappers
  import P = Passages

  type Passage = P.Passage

  // ---- Sharing the budget ------------------------------------------------------

  function Sum(s: seq<nat>): nat {
    if s == [] then 0 else s[0] + Sum(s[1..])
  }

  function Min(a: int, b: int): int {
    if a < b then a else b
  }

  /** `s` with every share above `level` cut down to it. */
  function Capped(s: seq<nat>, level: nat): (r: seq<nat>)
    ensures |r| == |s| && forall i :: 0 <= i < |s| ==> r[i] == Min(s[i], level)
  {
    seq(|s|, i requires 0 <= i < |s| => Min(s[i], level))
  }

  predicate Within(quotas: seq<nat>, sizes: seq<nat>) {
    |quotas| == |sizes| && forall i :: 0 <= i < |sizes| ==> quotas[i] <= sizes[i]
  }

  /** Max-min fair: a group two ahead of another means the other is exhausted; one
      ahead, that it is exhausted or stands first in the order of taking. */
  ghost predicate Fair(quotas: seq<nat>, sizes: seq<nat>) {
    Within(quotas, sizes)
    && forall i, j :: 0 <= i < |sizes| && 0 <= j < |sizes| && quotas[j] < sizes[j] ==>
      quotas[i] <= quotas[j] + 1 && (quotas[i] == quotas[j] + 1 ==> i > j)
  }

  lemma {:induction false} SumUpdate(s: seq<nat>, i: nat, v: nat)
    requires i < |s|
    ensures Sum(s[i := v]) == Sum(s) - s[i] + v
  {
    if i == 0 {
      assert s[0 := v][1..] == s[1..];
    } else {
      SumUpdate(s[1..], i - 1, v);
      assert s[i := v][1..] == s[1..][i - 1 := v];
    }
  }

  lemma {:induction false} SumAtMost(a: seq<nat>, b: seq<nat>)
    requires |a| == |b| && forall i :: 0 <= i < |a| ==> a[i] <= b[i]
    ensures Sum(a) <= Sum(b)
    ensures Sum(a) == Sum(b) ==> a == b
  {
    if a != [] {
      SumAtMost(a[1..], b[1..]);
      assert a == [a[0]] + a[1..] && b == [b[0]] + b[1..];
    }
  }

  lemma {:induction false} SumZeros(s: seq<nat>)
    requires forall i :: 0 <= i < |s| ==> s[i] == 0
    ensures Sum(s) == 0
  {
    if s != [] {
      SumZeros(s[1..]);
    }
  }

  /** The group with the least of those that have more to give, the last of equals. */
  method Neediest(quotas: seq<nat>, sizes: seq<nat>) returns (chosen: Option<nat>)
    requires Within(quotas, sizes)
    ensures chosen.Some? ==> chosen.value < |sizes| && quotas[chosen.value] < sizes[chosen.value]
    ensures forall j :: 0 <= j < |sizes| && quotas[j] < sizes[j] ==>
      chosen.Some? && quotas[chosen.value] <= quotas[j] && (quotas[chosen.value] == quotas[j] ==> chosen.value >= j)
  {
    chosen := None;
    for i := 0 to |sizes|
      invariant chosen.Some? ==> chosen.value < i && quotas[chosen.value] < sizes[chosen.value]
      invariant forall j :: 0 <= j < i && quotas[j] < sizes[j] ==>
        chosen.Some? && quotas[chosen.value] <= quotas[j] && (quotas[chosen.value] == quotas[j] ==> chosen.value >= j)
    {
      if quotas[i] < sizes[i] && (chosen.None? || quotas[i] <= quotas[chosen.value]) {
        chosen := Some(i);
      }
    }
  }

  /** One more to the neediest keeps the shares fair. */
  lemma {:induction false} TakeOne(quotas: seq<nat>, sizes: seq<nat>, i: nat)
    requires Fair(quotas, sizes) && i < |sizes| && quotas[i] < sizes[i]
    requires forall j :: 0 <= j < |sizes| && quotas[j] < sizes[j] ==>
      quotas[i] <= quotas[j] && (quotas[i] == quotas[j] ==> i >= j)
    ensures Fair(quotas[i := quotas[i] + 1], sizes)
  {
  }

  /** The quota loop: one more to the neediest group while any has more to give. */
  method ShareBudget(sizes: seq<nat>, budget: nat) returns (quotas: seq<nat>)
    ensures Fair(quotas, sizes) && Sum(quotas) == Min(budget, Sum(sizes))
  {
    quotas := seq(|sizes|, i => 0);
    SumZeros(quotas);
    SumAtMost(quotas, sizes);
    assert Fair(quotas, sizes);
    hide Fair, Sum;
    for spent := 0 to budget
      invariant Fair(quotas, sizes) && Sum(quotas) == spent <= Sum(sizes)
    {
      var chosen := Neediest(quotas, sizes);
      if chosen.None? {
        assert quotas == sizes;
        return;
      }
      SumUpdate(quotas, chosen.value, quotas[chosen.value] + 1);
      TakeOne(quotas, sizes, chosen.value);
      quotas := quotas[chosen.value := quotas[chosen.value] + 1];
      SumAtMost(quotas, sizes);
    }
  }

  /** No other way to spend the budget gives the groups more at any level: what
      falls to them, each counted up to the level, is the most there can be. */
  lemma {:induction false} FairIsBest(quotas: seq<nat>, sizes: seq<nat>, budget: nat, other: seq<nat>, level: nat)
    requires Fair(quotas, sizes) && Sum(quotas) == Min(budget, Sum(sizes))
    requires Within(other, sizes) && Sum(other) <= budget
    ensures Sum(Capped(other, level)) <= Sum(Capped(quotas, level))
  {
    if j :| 0 <= j < |sizes| && quotas[j] < sizes[j] && quotas[j] < level {
      assert Capped(quotas, level) == quotas;
      SumAtMost(Capped(other, level), other);
      SumAtMost(other, sizes);
    } else {
      SumAtMost(Capped(other, level), Capped(quotas, level));
    }
  }

  // ---- Spreading over the positions ------------------------------------------------

  /** The position of the `i`th of `q` taken from `n`: the middle one alone, else
      from the first to the last evenly. */
  function Spread(i: nat, q: nat, n: nat): nat
    requires q > 0 && n > 0
  {
    if q == 1 then n / 2 else i * (n - 1) / (q - 1)
  }

  lemma {:induction false} MulAtMost(a: nat, b: nat, d: nat)
    requires a <= b
    ensures a * d <= b * d
  {
    assert b * d == a * d + (b - a) * d;
  }

  lemma {:induction false} MulNext(a: nat, b: nat, d: nat)
    ensures a < b ==> (a + 1) * d <= b * d
  {
    if a < b {
      MulAtMost(a + 1, b, d);
    }
  }

  lemma {:induction false} DivAtLeast(y: nat, d: nat, k: nat)
    requires d > 0 && y >= k * d
    ensures y / d >= k
  {
    var p := y / d;
    assert y == p * d + y % d && (p + 1) * d == p * d + d;
    MulNext(p, k, d);
  }

  lemma {:induction false} DivStep(x: nat, step: nat, d: nat)
    requires d > 0 && step >= d
    ensures (x + step) / d >= x / d + 1
  {
    var q := x / d;
    assert x == q * d + x % d && (q + 1) * d == q * d + d;
    DivAtLeast(x + step, d, q + 1);
  }

  lemma {:induction false} MulDiv(a: nat, d: nat)
    requires d > 0
    ensures d * a / d == a
  {
    DivAtLeast(d * a, d, a);
    var p := d * a / d;
    assert p * d + d * a % d == d * a == a * d && (a + 1) * d == a * d + d;
    MulNext(a, p, d);
  }

  /** Two or more positions climb strictly from the first to the last. */
  lemma {:induction false} SpreadClimbs(q: nat, n: nat)
    requires 2 <= q <= n
    ensures Spread(0, q, n) == 0 && Spread(q - 1, q, n) == n - 1
    ensures forall i :: 0 <= i < q - 1 ==> Spread(i, q, n) < Spread(i + 1, q, n)
  {
    assert (q - 1) * (n - 1) / (q - 1) == n - 1 by {
      MulDiv(n - 1, q - 1);
    }
    forall i | 0 <= i < q - 1
      ensures Spread(i, q, n) < Spread(i + 1, q, n)
    {
      assert (i + 1) * (n - 1) == i * (n - 1) + (n - 1);
      DivStep(i * (n - 1), n - 1, q - 1);
    }
  }

  /** One alone is the middle one, the later of two. Of more, each is less than one
      place before the even division of the way to the last, and no gap is longer
      than another by more than one. */
  lemma {:induction false} SpreadEven(q: nat, n: nat, i: nat, j: nat)
    requires n > 0 && q > 0
    ensures q == 1 ==> n - 1 - Spread(0, q, n) <= Spread(0, q, n) <= n - Spread(0, q, n)
    ensures q >= 2 ==> Spread(i, q, n) * (q - 1) <= i * (n - 1) < (Spread(i, q, n) + 1) * (q - 1)
    ensures q >= 2 ==>
      Spread(i + 1, q, n) - Spread(i, q, n) <= Spread(j + 1, q, n) - Spread(j, q, n) + 1
  {
    if q >= 2 {
      var d := q - 1;
      GapOf(i, n - 1, d);
      GapOf(j, n - 1, d);
      var x := i * (n - 1);
      assert x == x / d * d + x % d && (x / d + 1) * d == x / d * d + d;
    }
  }

  /** A gap is the whole part of the even one, or that and one. */
  lemma {:induction false} GapOf(i: nat, way: nat, d: nat)
    requires d > 0
    ensures way / d <= (i + 1) * way / d - i * way / d <= way / d + 1
  {
    assert (i + 1) * way == i * way + way;
    DivSum(i * way, way, d);
  }

  /** Whole parts add up to the whole part of the sum, or one less. */
  lemma {:induction false} DivSum(x: nat, y: nat, d: nat)
    requires d > 0
    ensures x / d + y / d <= (x + y) / d <= x / d + y / d + 1
  {
    DivParts(x, d);
    DivParts(y, d);
    SumBetween(x, y, d, x / d, y / d);
  }

  lemma {:induction false} SumBetween(x: nat, y: nat, d: nat, a: nat, b: nat)
    requires d > 0 && a * d <= x < a * d + d && b * d <= y < b * d + d
    ensures a + b <= (x + y) / d <= a + b + 1
  {
    Distributes(a, b, d);
    DivAtLeast(x + y, d, a + b);
    DivBelow(x + y, d, a + b + 2);
  }

  lemma {:induction false} Distributes(a: nat, b: nat, d: nat)
    ensures (a + b) * d == a * d + b * d && (a + b + 2) * d == a * d + b * d + d + d
  {
  }

  lemma {:induction false} DivParts(x: nat, d: nat)
    requires d > 0
    ensures x / d * d <= x < x / d * d + d
  {
    assert x == x / d * d + x % d;
  }

  lemma {:induction false} DivBelow(y: nat, d: nat, k: nat)
    requires d > 0 && y < k * d
    ensures y / d < k
  {
    DivParts(y, d);
    if k <= y / d {
      MulAtMost(k, y / d, d);
    }
  }

  /** The positions taken are distinct and in range. */
  lemma {:induction false} SpreadApart(q: nat, n: nat, i: nat, j: nat)
    requires 1 <= q <= n && i < j < q
    ensures Spread(i, q, n) < Spread(j, q, n) < n
    decreases q - i, j
  {
    SpreadClimbs(q, n);
    if i < j - 1 {
      SpreadApart(q, n, i, j - 1);
    }
    SpreadBelow(q, n, j);
  }

  lemma {:induction false} SpreadBelow(q: nat, n: nat, i: nat)
    requires 1 <= q <= n && i < q
    ensures Spread(i, q, n) < n
    decreases q - i
  {
    if q >= 2 {
      SpreadClimbs(q, n);
      if i < q - 1 {
        SpreadBelow(q, n, i + 1);
      }
    }
  }

  // ---- The phrases ---------------------------------------------------------------

  /** A word found in the source, by character offsets, in order. */
  datatype Word = Word(start: nat, end: nat)

  /** What the text analysis gives: whether a word is a stopword, a phrase's
      identity (case folded, its blanks single) and its size in bytes. */
  datatype Analysis = Analysis(stop: string -> bool, identity: string -> string, size: string -> nat)

  predicate WordsIn(source: string, words: seq<Word>) {
    (forall i :: 0 <= i < |words| ==> words[i].start < words[i].end <= |source|)
    && forall i, j :: 0 <= i < j < |words| ==> words[i].end <= words[j].start
  }

  predicate Blank(s: string) {
    s != "" && forall i :: 0 <= i < |s| ==> s[i] == ' ' || s[i] == '\t'
  }

  predicate Stops(a: Analysis, source: string, words: seq<Word>, i: nat)
    requires WordsIn(source, words) && i < |words|
  {
    a.stop(source[words[i].start..words[i].end])
  }

  /** How many words, at most three, run up to and with word `i`: none of them a
      stopword, only blanks between them. */
  function RunLength(a: Analysis, source: string, words: seq<Word>, i: nat): (n: nat)
    requires WordsIn(source, words) && i < |words|
    ensures n <= 3 && n <= i + 1
  {
    if Stops(a, source, words, i) then 0
    else if i == 0 || Stops(a, source, words, i - 1) || !Blank(source[words[i - 1].end..words[i].start]) then 1
    else
      var before := RunLength(a, source, words, i - 1);
      if before >= 2 then 3 else before + 1
  }

  /** The phrase of the last `n` words up to and with word `i`. */
  function PhraseAt(source: string, words: seq<Word>, i: nat, n: nat): Passage
    requires WordsIn(source, words) && i < |words| && 1 <= n <= i + 1
  {
    Between(words, i + 1 - n, i);
    P.Passage(source[words[i + 1 - n].start..words[i].end], words[i + 1 - n].start, words[i].end)
  }

  lemma {:induction false} Between(words: seq<Word>, i: nat, j: nat)
    requires i <= j < |words| && forall k :: 0 <= k < |words| ==> words[k].start < words[k].end
    requires forall k, l :: 0 <= k < l < |words| ==> words[k].end <= words[l].start
    ensures words[i].start <= words[j].end
  {
  }

  /** A phrase that counts: within a run, long enough to be told apart, short
      enough to embed. */
  predicate Eligible(a: Analysis, source: string, words: seq<Word>, i: nat, n: nat): (r: bool)
    requires WordsIn(source, words) && i < |words|
    ensures r ==> 1 <= n <= 3 && n <= i + 1
  {
    1 <= n <= RunLength(a, source, words, i)
    && |a.identity(PhraseAt(source, words, i, n).text)| >= 3
    && a.size(PhraseAt(source, words, i, n).text) <= P.PASSAGE_BYTES
  }

  /** Nothing stops the `n` words up to and with word `i`: none of them is a
      stopword, and only spaces and tabs stand between them. */
  ghost predicate Unbroken(a: Analysis, source: string, words: seq<Word>, i: nat, n: nat)
    requires WordsIn(source, words) && i < |words| && n <= i + 1
  {
    (forall k | i + 1 - n <= k <= i :: !a.stop(source[words[k].start..words[k].end]))
    && forall k | i + 1 - n < k <= i :: Blank(source[words[k - 1].end..words[k].start])
  }

  lemma {:induction false} RunIsUnbroken(a: Analysis, source: string, words: seq<Word>, i: nat, n: nat)
    requires WordsIn(source, words) && i < |words| && n <= 3 && n <= i + 1
    ensures n <= RunLength(a, source, words, i) <==> Unbroken(a, source, words, i, n)
    decreases i
  {
    hide Blank, WordsIn;
    if n >= 2 {
      RunIsUnbroken(a, source, words, i - 1, n - 1);
      RunIsUnbroken(a, source, words, i - 1, 1);
      OneBack(a, source, words, i, n);
    }
  }

  lemma {:induction false} OneBack(a: Analysis, source: string, words: seq<Word>, i: nat, n: nat)
    requires WordsIn(source, words) && i < |words| && 2 <= n <= i + 1
    ensures Unbroken(a, source, words, i, n) <==>
      && Unbroken(a, source, words, i - 1, n - 1) && !Stops(a, source, words, i)
      && Blank(source[words[i - 1].end..words[i].start])
  {
    hide Blank;
  }

  /** A phrase counts exactly when it is one to three words with nothing to break
      them, at least three characters by its identity and at most 384 bytes. */
  lemma {:induction false} CountsWhen(a: Analysis, source: string, words: seq<Word>, i: nat, n: nat)
    requires WordsIn(source, words) && i < |words| && 1 <= n <= i + 1
    ensures words[i + 1 - n].start <= words[i].end
    ensures Eligible(a, source, words, i, n) <==>
      var text := source[words[i + 1 - n].start..words[i].end];
      n <= 3 && Unbroken(a, source, words, i, n) && |a.identity(text)| >= 3 && a.size(text) <= 384
  {
    Between(words, i + 1 - n, i);
    if n <= 3 {
      RunIsUnbroken(a, source, words, i, n);
    }
    hide Unbroken, Blank;
  }

  type Groups = seq<seq<Passage>>

  function Holding(groups: Groups): nat {
    if |groups| == 3 then |groups[0]| + |groups[1]| + |groups[2]| else 0
  }

  /** The place before others: an earlier word's phrases, or this word's shorter ones. */
  predicate Before(j: nat, l: nat, i: nat, n: nat) {
    j < i || (j == i && l < n)
  }

  /** The phrase here counts, and no phrase before it has its identity. */
  ghost predicate FirstAt(a: Analysis, source: string, words: seq<Word>, i: nat, n: nat): (r: bool)
    requires WordsIn(source, words)
    ensures r ==> i < |words| && 1 <= n <= 3 && n <= i + 1
  {
    i < |words| && Eligible(a, source, words, i, n)
    && forall j: nat, l: nat :: j < |words| && Before(j, l, i, n) && Eligible(a, source, words, j, l) ==>
      a.identity(PhraseAt(source, words, j, l).text) != a.identity(PhraseAt(source, words, i, n).text)
  }

  /** `p` is a first occurrence of length `n`, found before place `(i, l)`. */
  ghost predicate IsFound(a: Analysis, source: string, words: seq<Word>, p: Passage, n: nat, i: nat, l: nat)
    requires WordsIn(source, words)
  {
    exists j: nat :: Before(j, n, i, l) && FirstAt(a, source, words, j, n) && p == PhraseAt(source, words, j, n)
  }

  ghost predicate AllFound(a: Analysis, source: string, words: seq<Word>, i: nat, l: nat, groups: Groups)
    requires WordsIn(source, words)
  {
    forall g, k :: 0 <= g < |groups| && 0 <= k < |groups[g]| ==> IsFound(a, source, words, groups[g][k], g + 1, i, l)
  }

  ghost predicate NoneMissed(a: Analysis, source: string, words: seq<Word>, i: nat, l: nat, groups: Groups)
    requires WordsIn(source, words)
  {
    |groups| == 3
    && forall j: nat, n: nat :: Before(j, n, i, l) && FirstAt(a, source, words, j, n) ==>
      n - 1 < 3 && PhraseAt(source, words, j, n) in groups[n - 1]
  }

  /** Each group in the order of the text. */
  ghost predicate Rising(groups: Groups) {
    forall g, j, k :: 0 <= g < |groups| && 0 <= j < k < |groups[g]| ==> groups[g][j].end < groups[g][k].end
  }

  ghost predicate HasIdentity(a: Analysis, groups: Groups, id: string) {
    exists g, k :: 0 <= g < |groups| && 0 <= k < |groups[g]| && a.identity(groups[g][k].text) == id
  }

  /** The identities seen are those held, and those of every place before. */
  ghost predicate SeenAll(
      a: Analysis, source: string, words: seq<Word>, i: nat, l: nat, groups: Groups, seen: set<string>)
    requires WordsIn(source, words)
  {
    (forall id :: id in seen <==> HasIdentity(a, groups, id))
    && forall j: nat, n: nat :: j < |words| && Before(j, n, i, l) && Eligible(a, source, words, j, n) ==>
      a.identity(PhraseAt(source, words, j, n).text) in seen
  }

  /** What the extraction has found before place `(i, l)`: the groups hold exactly
      the first occurrences of every eligible identity, each in the group of its
      length, in the order of the text. */
  ghost predicate Extracted(
      a: Analysis, source: string, words: seq<Word>, i: nat, l: nat, groups: Groups, seen: set<string>)
    requires WordsIn(source, words)
  {
    |groups| == 3 && AllFound(a, source, words, i, l, groups) && NoneMissed(a, source, words, i, l, groups)
    && Rising(groups) && SeenAll(a, source, words, i, l, groups, seen)
    && DistinctIdentities(a, groups) && |seen| == Holding(groups)
  }

  ghost predicate DistinctIdentities(a: Analysis, groups: Groups) {
    forall g, k, h, l ::
      (0 <= g < |groups| && 0 <= k < |groups[g]| && 0 <= h < |groups| && 0 <= l < |groups[h]|
       && a.identity(groups[g][k].text) == a.identity(groups[h][l].text)) ==>
      g == h && k == l
  }

  predicate Told(seen: set<string>, id: string, all: set<string>) {
    all == seen + {id}
  }

  lemma {:induction false} ToldOnce(seen: set<string>, id: string, all: set<string>)
    requires Told(seen, id, all) && id !in seen
    ensures |all| == |seen| + 1
  {
  }

  predicate Pushed(groups: Groups, at: int, p: Passage, after: Groups) {
    0 <= at < |groups| && after == groups[at := groups[at] + [p]]
  }

  /** A phrase whose identity is new is a first occurrence, and joins its group at
      the back. */
  lemma {:induction false} OneMore(
      a: Analysis, source: string, words: seq<Word>, i: nat, n: nat, groups: Groups, seen: set<string>, p: Passage,
      after: Groups, all: set<string>)
    requires WordsIn(source, words) && i < |words| && 1 <= n <= 3 && Eligible(a, source, words, i, n)
    requires Extracted(a, source, words, i, n, groups, seen)
    requires p == PhraseAt(source, words, i, n) && a.identity(p.text) !in seen
    requires Pushed(groups, n - 1, p, after) && Told(seen, a.identity(p.text), all)
    ensures Extracted(a, source, words, i, n + 1, after, all)
  {
    Parts(a, source, words, i, n, groups, seen);
    hide *;
    assert AllFound(a, source, words, i, n + 1, after) by {
      NewIsFirst(a, source, words, i, n, groups, seen, p);
      OneMoreFound(a, source, words, i, n, groups, p, after);
    }
    assert NoneMissed(a, source, words, i, n + 1, after) by {
      NewIsFirst(a, source, words, i, n, groups, seen, p);
      OneMoreNotMissed(a, source, words, i, n, groups, p, after);
    }
    assert Rising(after) by {
      EndsBefore(a, source, words, i, n, groups, p, after);
    }
    assert SeenAll(a, source, words, i, n + 1, after, all) by {
      OneMoreSeen(a, source, words, i, n, groups, seen, p, after, all);
    }
    assert DistinctIdentities(a, after) by {
      HeldAreSeen(a, source, words, i, n, groups, seen);
      StillDistinct(a, groups, n - 1, p, seen, after);
    }
    OneLonger(groups, n - 1, p, after);
    ToldOnce(seen, a.identity(p.text), all);
    Together(a, source, words, i, n + 1, after, all);
  }

  lemma {:induction false} Parts(
      a: Analysis, source: string, words: seq<Word>, i: nat, l: nat, groups: Groups, seen: set<string>)
    requires WordsIn(source, words) && Extracted(a, source, words, i, l, groups, seen)
    ensures |groups| == 3 && |seen| == Holding(groups)
    ensures AllFound(a, source, words, i, l, groups) && NoneMissed(a, source, words, i, l, groups) && Rising(groups)
    ensures SeenAll(a, source, words, i, l, groups, seen) && DistinctIdentities(a, groups)
  {
    hide AllFound, NoneMissed, Rising, SeenAll, DistinctIdentities, WordsIn;
  }

  lemma {:induction false} Together(
      a: Analysis, source: string, words: seq<Word>, i: nat, l: nat, groups: Groups, seen: set<string>)
    requires WordsIn(source, words) && |groups| == 3 && |seen| == Holding(groups)
    requires AllFound(a, source, words, i, l, groups) && NoneMissed(a, source, words, i, l, groups) && Rising(groups)
    requires SeenAll(a, source, words, i, l, groups, seen) && DistinctIdentities(a, groups)
    ensures Extracted(a, source, words, i, l, groups, seen)
  {
    hide AllFound, NoneMissed, Rising, SeenAll, DistinctIdentities, WordsIn;
  }

  lemma {:induction false} OneLonger(groups: Groups, at: nat, p: Passage, after: Groups)
    requires |groups| == 3 && at < 3 && Pushed(groups, at, p, after)
    ensures |after| == 3 && Holding(after) == Holding(groups) + 1
  {
  }

  lemma {:induction false} NewIsFirst(
      a: Analysis, source: string, words: seq<Word>, i: nat, n: nat, groups: Groups, seen: set<string>, p: Passage)
    requires WordsIn(source, words) && i < |words| && Eligible(a, source, words, i, n)
    requires Extracted(a, source, words, i, n, groups, seen)
    requires p == PhraseAt(source, words, i, n) && a.identity(p.text) !in seen
    ensures FirstAt(a, source, words, i, n) && IsFound(a, source, words, p, n, i, n + 1)
  {
    hide AllFound, NoneMissed, Rising, DistinctIdentities, Eligible, PhraseAt, WordsIn, HasIdentity;
    assert FirstAt(a, source, words, i, n);
    assert Before(i, n, i, n + 1);
  }

  lemma {:induction false} HeldAreSeen(
      a: Analysis, source: string, words: seq<Word>, i: nat, n: nat, groups: Groups, seen: set<string>)
    requires WordsIn(source, words) && SeenAll(a, source, words, i, n, groups, seen)
    ensures forall g, k :: 0 <= g < |groups| && 0 <= k < |groups[g]| ==> a.identity(groups[g][k].text) in seen
  {
    hide Eligible, PhraseAt, WordsIn;
    forall g, k | 0 <= g < |groups| && 0 <= k < |groups[g]|
      ensures a.identity(groups[g][k].text) in seen
    {
      assert HasIdentity(a, groups, a.identity(groups[g][k].text));
    }
  }

  lemma {:induction false} OneMoreFound(
      a: Analysis, source: string, words: seq<Word>, i: nat, n: nat, groups: Groups, p: Passage, after: Groups)
    requires WordsIn(source, words) && 1 <= n <= |groups| && AllFound(a, source, words, i, n, groups)
    requires IsFound(a, source, words, p, n, i, n + 1)
    requires Pushed(groups, n - 1, p, after)
    ensures AllFound(a, source, words, i, n + 1, after)
  {
    forall g, k | 0 <= g < |after| && 0 <= k < |after[g]|
      ensures IsFound(a, source, words, after[g][k], g + 1, i, n + 1)
    {
      if k < |groups[g]| {
        FoundLater(a, source, words, groups[g][k], g + 1, i, n);
      }
    }
  }

  lemma {:induction false} FoundLater(a: Analysis, source: string, words: seq<Word>, p: Passage, l: nat, i: nat, n: nat)
    requires WordsIn(source, words) && IsFound(a, source, words, p, l, i, n)
    ensures IsFound(a, source, words, p, l, i, n + 1) && IsFound(a, source, words, p, l, i + 1, 1)
  {
    hide FirstAt, PhraseAt, WordsIn;
    var j: nat :| Before(j, l, i, n) && FirstAt(a, source, words, j, l) && p == PhraseAt(source, words, j, l);
    assert Before(j, l, i, n + 1) && Before(j, l, i + 1, 1);
  }

  lemma {:induction false} OneMoreNotMissed(
      a: Analysis, source: string, words: seq<Word>, i: nat, n: nat, groups: Groups, p: Passage, after: Groups)
    requires WordsIn(source, words) && i < |words| && 1 <= n <= 3 && FirstAt(a, source, words, i, n)
    requires NoneMissed(a, source, words, i, n, groups) && p == PhraseAt(source, words, i, n)
    requires Pushed(groups, n - 1, p, after)
    ensures NoneMissed(a, source, words, i, n + 1, after)
  {
    hide FirstAt, PhraseAt, WordsIn;
    forall j: nat, l: nat | Before(j, l, i, n + 1) && FirstAt(a, source, words, j, l)
      ensures l - 1 < 3 && PhraseAt(source, words, j, l) in after[l - 1]
    {
      if !(j == i && l == n) {
        assert Before(j, l, i, n);
      }
    }
  }

  lemma {:induction false} EndsBefore(
      a: Analysis, source: string, words: seq<Word>, i: nat, n: nat, groups: Groups, p: Passage, after: Groups)
    requires WordsIn(source, words) && i < |words| && 1 <= n <= |groups| && AllFound(a, source, words, i, n, groups)
    requires Eligible(a, source, words, i, n) && p == PhraseAt(source, words, i, n) && Rising(groups)
    requires Pushed(groups, n - 1, p, after)
    ensures Rising(after)
  {
    var mine := groups[n - 1];
    forall k | 0 <= k < |mine|
      ensures mine[k].end < p.end
    {
      assert IsFound(a, source, words, mine[k], n, i, n);
      var j: nat :| Before(j, n, i, n) && FirstAt(a, source, words, j, n) && mine[k] == PhraseAt(source, words, j, n);
      assert words[j].end <= words[i].start;
    }
    hide AllFound, IsFound, FirstAt;
  }

  lemma {:induction false} OneMoreSeen(
      a: Analysis, source: string, words: seq<Word>, i: nat, n: nat, groups: Groups, seen: set<string>, p: Passage,
      after: Groups, all: set<string>)
    requires WordsIn(source, words) && i < |words| && 1 <= n <= |groups|
    requires Eligible(a, source, words, i, n) && p == PhraseAt(source, words, i, n)
    requires SeenAll(a, source, words, i, n, groups, seen)
    requires Pushed(groups, n - 1, p, after) && Told(seen, a.identity(p.text), all)
    ensures SeenAll(a, source, words, i, n + 1, after, all)
  {
    hide Eligible, PhraseAt, WordsIn;
    assert after[n - 1][|groups[n - 1]|] == p;
    forall id | id in seen
      ensures HasIdentity(a, after, id)
    {
      var g, k :| 0 <= g < |groups| && 0 <= k < |groups[g]| && a.identity(groups[g][k].text) == id;
      assert after[g][k] == groups[g][k];
    }
    forall id | HasIdentity(a, after, id)
      ensures id in all
    {
      var g, k :| 0 <= g < |after| && 0 <= k < |after[g]| && a.identity(after[g][k].text) == id;
      if k < |groups[g]| {
        assert HasIdentity(a, groups, id);
      }
    }
    forall j: nat, l: nat | j < |words| && Before(j, l, i, n + 1) && Eligible(a, source, words, j, l)
      ensures a.identity(PhraseAt(source, words, j, l).text) in all
    {
      assert (j == i && l == n) || Before(j, l, i, n);
    }
  }

  /** A phrase that does not count, or whose identity is held, changes nothing. */
  lemma {:induction false} NoMore(
      a: Analysis, source: string, words: seq<Word>, i: nat, n: nat, groups: Groups, seen: set<string>)
    requires WordsIn(source, words) && i < |words| && Extracted(a, source, words, i, n, groups, seen)
    requires Eligible(a, source, words, i, n) ==> a.identity(PhraseAt(source, words, i, n).text) in seen
    ensures Extracted(a, source, words, i, n + 1, groups, seen)
  {
    hide Eligible, PhraseAt, WordsIn, DistinctIdentities, Rising;
    forall g, k | 0 <= g < |groups| && 0 <= k < |groups[g]|
      ensures IsFound(a, source, words, groups[g][k], g + 1, i, n + 1)
    {
      FoundLater(a, source, words, groups[g][k], g + 1, i, n);
    }
    if Eligible(a, source, words, i, n) {
      NotFirst(a, source, words, i, n, groups, seen);
    }
    assert forall j: nat, l: nat :: Before(j, l, i, n + 1) ==> Before(j, l, i, n) || (j == i && l == n);
    hide IsFound, HasIdentity;
  }

  lemma {:induction false} NotFirst(
      a: Analysis, source: string, words: seq<Word>, i: nat, n: nat, groups: Groups, seen: set<string>)
    requires WordsIn(source, words) && i < |words| && Extracted(a, source, words, i, n, groups, seen)
    requires Eligible(a, source, words, i, n) && a.identity(PhraseAt(source, words, i, n).text) in seen
    ensures !FirstAt(a, source, words, i, n)
  {
    hide Eligible, PhraseAt, WordsIn;
    var id := a.identity(PhraseAt(source, words, i, n).text);
    assert HasIdentity(a, groups, id);
    var g, k :| 0 <= g < |groups| && 0 <= k < |groups[g]| && a.identity(groups[g][k].text) == id;
    assert IsFound(a, source, words, groups[g][k], g + 1, i, n);
  }

  /** Past the last length, the next word. */
  lemma {:induction false} NextWord(
      a: Analysis, source: string, words: seq<Word>, i: nat, groups: Groups, seen: set<string>)
    requires WordsIn(source, words) && i < |words|
    requires Extracted(a, source, words, i, RunLength(a, source, words, i) + 1, groups, seen)
    ensures Extracted(a, source, words, i + 1, 1, groups, seen)
  {
    var n := RunLength(a, source, words, i) + 1;
    NoneLonger(a, source, words, i);
    hide Eligible, PhraseAt, WordsIn, DistinctIdentities, Rising, RunLength, HasIdentity, FirstAt, IsFound;
    assert AllFound(a, source, words, i + 1, 1, groups) by {
      forall g, k | 0 <= g < |groups| && 0 <= k < |groups[g]|
        ensures IsFound(a, source, words, groups[g][k], g + 1, i + 1, 1)
      {
        FoundBefore(a, source, words, groups[g][k], g + 1, i, n);
      }
    }
    assert NoneMissed(a, source, words, i + 1, 1, groups) by {
      FirstsEnd(a, source, words, i);
    }
    assert SeenAll(a, source, words, i + 1, 1, groups, seen);
    hide AllFound, NoneMissed, SeenAll;
  }

  /** Nothing longer than the run counts, and nothing of no words. */
  lemma {:induction false} NoneLonger(a: Analysis, source: string, words: seq<Word>, i: nat)
    requires WordsIn(source, words) && i < |words|
    ensures forall l: nat :: Eligible(a, source, words, i, l) ==> Before(i, l, i, RunLength(a, source, words, i) + 1)
  {
    hide RunLength, PhraseAt;
  }

  lemma {:induction false} FirstsEnd(a: Analysis, source: string, words: seq<Word>, i: nat)
    requires WordsIn(source, words) && i < |words|
    ensures forall l: nat :: FirstAt(a, source, words, i, l) ==> Before(i, l, i, RunLength(a, source, words, i) + 1)
  {
    NoneLonger(a, source, words, i);
    hide RunLength, PhraseAt, Eligible;
  }

  lemma {:induction false} FoundBefore(
      a: Analysis, source: string, words: seq<Word>, p: Passage, l: nat, i: nat, n: nat)
    requires WordsIn(source, words) && IsFound(a, source, words, p, l, i, n)
    ensures IsFound(a, source, words, p, l, i + 1, 1)
  {
    FoundLater(a, source, words, p, l, i, n);
  }

  lemma {:induction false} StillDistinct(
      a: Analysis, groups: Groups, at: nat, p: Passage, seen: set<string>, after: Groups)
    requires at < |groups| && DistinctIdentities(a, groups) && a.identity(p.text) !in seen
    requires forall g, k :: 0 <= g < |groups| && 0 <= k < |groups[g]| ==> a.identity(groups[g][k].text) in seen
    requires Pushed(groups, at, p, after)
    ensures DistinctIdentities(a, after)
  {
    forall g, k | 0 <= g < |groups| && 0 <= k < |after[g]|
      ensures if k < |groups[g]| then after[g][k] == groups[g][k] else g == at && k == |groups[at]| && after[g][k] == p
    {
    }
  }

  lemma {:induction false} WithinRun(a: Analysis, source: string, words: seq<Word>, i: nat, n: nat)
    requires WordsIn(source, words) && i < |words| && 1 <= n <= RunLength(a, source, words, i)
    ensures n <= 3 && n <= i + 1
    ensures var text := PhraseAt(source, words, i, n).text;
      Eligible(a, source, words, i, n) <==> |a.identity(text)| >= 3 && a.size(text) <= P.PASSAGE_BYTES
  {
    hide RunLength, PhraseAt;
  }

  /** The phrases that end with word `i`, shortest first. */
  method ExtractAt(a: Analysis, source: string, words: seq<Word>, i: nat, run: nat, before: Groups, known: set<string>)
      returns (groups: Groups, seen: set<string>)
    requires WordsIn(source, words) && i < |words| && run == RunLength(a, source, words, i)
    requires Extracted(a, source, words, i, 1, before, known)
    ensures Extracted(a, source, words, i + 1, 1, groups, seen)
  {
    hide *;
    groups, seen := before, known;
    for n := 1 to run + 1
      invariant Extracted(a, source, words, i, n, groups, seen)
    {
      groups, seen := ExtractOne(a, source, words, i, n, groups, seen);
    }
    NextWord(a, source, words, i, groups, seen);
  }

  /** The phrase of one length that ends there, when it counts and is new. */
  method ExtractOne(
      a: Analysis, source: string, words: seq<Word>, i: nat, n: nat, before: Groups, known: set<string>)
      returns (groups: Groups, seen: set<string>)
    requires WordsIn(source, words) && i < |words| && 1 <= n <= RunLength(a, source, words, i)
    requires Extracted(a, source, words, i, n, before, known)
    ensures Extracted(a, source, words, i, n + 1, groups, seen)
  {
    WithinRun(a, source, words, i, n);
    assert |before| == 3;
    hide Extracted, RunLength, Eligible;
    var p := PhraseAt(source, words, i, n);
    var identity := a.identity(p.text);
    if |identity| >= 3 && a.size(p.text) <= P.PASSAGE_BYTES && identity !in known {
      groups, seen := before[n - 1 := before[n - 1] + [p]], known + {identity};
      OneMore(a, source, words, i, n, before, known, p, groups, seen);
    } else {
      groups, seen := before, known;
      NoMore(a, source, words, i, n, groups, seen);
    }
  }

  /** The run of words goes on, starts again after anything but blanks, and stops
      at a stopword. */
  method RunOn(a: Analysis, source: string, words: seq<Word>, i: nat, before: nat) returns (run: nat)
    requires WordsIn(source, words) && i < |words|
    requires before == if i == 0 then 0 else RunLength(a, source, words, i - 1)
    ensures run == RunLength(a, source, words, i)
  {
    hide Blank;
    if Stops(a, source, words, i) {
      return 0;
    }
    run := before;
    if run > 0 && !Blank(source[words[i - 1].end..words[i].start]) {
      run := 0;
    }
    run := if run + 1 < 3 then run + 1 else 3;
  }

  method NothingYet(a: Analysis, source: string, words: seq<Word>) returns (groups: Groups, seen: set<string>)
    requires WordsIn(source, words)
    ensures Extracted(a, source, words, 0, 1, groups, seen)
  {
    groups, seen := [[], [], []], {};
  }

  /** The extraction loop of `candidates`: the groups are the first occurrences of
      the eligible identities, by length, in the order of the text. */
  method Extract(a: Analysis, source: string, words: seq<Word>) returns (groups: Groups, seen: set<string>)
    requires WordsIn(source, words)
    ensures Extracted(a, source, words, |words|, 1, groups, seen)
  {
    hide Extracted, RunLength;
    groups, seen := NothingYet(a, source, words);
    var run := 0;
    for i := 0 to |words|
      invariant Extracted(a, source, words, i, 1, groups, seen)
      invariant run == if i == 0 then 0 else RunLength(a, source, words, i - 1)
    {
      run := RunOn(a, source, words, i, run);
      groups, seen := ExtractAt(a, source, words, i, run, groups, seen);
    }
  }

  // ---- The candidates --------------------------------------------------------------

  /** What a quota takes of a group. */
  function Chosen(group: seq<Passage>, q: nat): (chosen: seq<Passage>)
    requires q <= |group|
    ensures |chosen| == q
  {
    seq(q, i requires 0 <= i < q => (SpreadBelow(q, |group|, i); group[Spread(i, q, |group|)]))
  }

  function Sizes(groups: Groups): (sizes: seq<nat>)
    ensures |sizes| == |groups| && forall g :: 0 <= g < |groups| ==> sizes[g] == |groups[g]|
  {
    seq(|groups|, g requires 0 <= g < |groups| => |groups[g]|)
  }

  function Selected(groups: Groups, quotas: seq<nat>): seq<Passage>
    requires Within(quotas, Sizes(groups))
  {
    if groups == [] then []
    else
      var n := |groups| - 1;
      assert Within(quotas[..n], Sizes(groups[..n]));
      Selected(groups[..n], quotas[..n]) + Chosen(groups[n], quotas[n])
  }

  ghost predicate AllApart(a: Analysis, phrases: seq<Passage>) {
    forall i, j :: 0 <= i < j < |phrases| ==> a.identity(phrases[i].text) != a.identity(phrases[j].text)
  }

  predicate InGroups(groups: Groups, p: Passage) {
    exists g :: 0 <= g < |groups| && p in groups[g]
  }

  lemma {:induction false} SumSnoc(s: seq<nat>, v: nat)
    ensures Sum(s + [v]) == Sum(s) + v
  {
    if s != [] {
      SumSnoc(s[1..], v);
      assert (s + [v])[1..] == s[1..] + [v];
    }
  }

  lemma {:induction false} ChosenApart(a: Analysis, group: seq<Passage>, q: nat)
    requires q <= |group| && DistinctIdentities(a, [group])
    ensures AllApart(a, Chosen(group, q)) && forall p :: p in Chosen(group, q) ==> p in group
  {
    var chosen := Chosen(group, q);
    forall i | 0 <= i < q
      ensures chosen[i] in group
    {
      SpreadBelow(q, |group|, i);
    }
    forall i, j | 0 <= i < j < q
      ensures a.identity(chosen[i].text) != a.identity(chosen[j].text)
    {
      SpreadApart(q, |group|, i, j);
      var x, y := Spread(i, q, |group|), Spread(j, q, |group|);
      assert chosen[i] == [group][0][x] && chosen[j] == [group][0][y];
    }
  }

  /** What the quotas take: as many as they say, each of its group, no identity
      twice. */
  lemma {:induction false} SelectedApart(a: Analysis, groups: Groups, quotas: seq<nat>)
    requires Within(quotas, Sizes(groups)) && DistinctIdentities(a, groups)
    ensures |Selected(groups, quotas)| == Sum(quotas) && AllApart(a, Selected(groups, quotas))
    ensures forall p :: p in Selected(groups, quotas) ==> InGroups(groups, p)
    decreases |groups|
  {
    if groups != [] {
      var n := |groups| - 1;
      var before, chosen := Selected(groups[..n], quotas[..n]), Chosen(groups[n], quotas[n]);
      SelectedApart(a, groups[..n], quotas[..n]);
      LastGroupDistinct(a, groups);
      ChosenApart(a, groups[n], quotas[n]);
      assert quotas == quotas[..n] + [quotas[n]];
      SumSnoc(quotas[..n], quotas[n]);
      hide AllApart, DistinctIdentities, Chosen;
      forall p, r | p in before && r in chosen
        ensures InGroups(groups, p) && a.identity(p.text) != a.identity(r.text)
      {
        ApartAcross(a, groups, p, r);
      }
      JoinApart(a, before, chosen);
      assert forall p :: p in chosen ==> InGroups(groups, p);
    }
  }

  lemma {:induction false} LastGroupDistinct(a: Analysis, groups: Groups)
    requires DistinctIdentities(a, groups) && groups != []
    ensures DistinctIdentities(a, [groups[|groups| - 1]]) && DistinctIdentities(a, groups[..|groups| - 1])
  {
    var last: Groups := [groups[|groups| - 1]];
    forall k, l |
      0 <= k < |last[0]| && 0 <= l < |last[0]| && a.identity(last[0][k].text) == a.identity(last[0][l].text)
      ensures k == l
    {
      assert last[0][k] == groups[|groups| - 1][k] && last[0][l] == groups[|groups| - 1][l];
    }
  }

  lemma {:induction false} ApartAcross(a: Analysis, groups: Groups, p: Passage, r: Passage)
    requires DistinctIdentities(a, groups) && groups != []
    requires InGroups(groups[..|groups| - 1], p) && r in groups[|groups| - 1]
    ensures InGroups(groups, p) && a.identity(p.text) != a.identity(r.text)
  {
    var n := |groups| - 1;
    var g :| 0 <= g < n && p in groups[..n][g];
    assert groups[..n][g] == groups[g];
    var k :| 0 <= k < |groups[g]| && groups[g][k] == p;
    var l :| 0 <= l < |groups[n]| && groups[n][l] == r;
  }

  lemma {:induction false} JoinApart(a: Analysis, x: seq<Passage>, y: seq<Passage>)
    requires AllApart(a, x) && AllApart(a, y)
    requires forall p, r :: p in x && r in y ==> a.identity(p.text) != a.identity(r.text)
    ensures AllApart(a, x + y)
  {
    forall i, j | 0 <= i < j < |x + y|
      ensures a.identity((x + y)[i].text) != a.identity((x + y)[j].text)
    {
      if i < |x| <= j {
        assert (x + y)[i] in x && (x + y)[j] in y;
      }
    }
  }

  /** The selection loop of `candidates`: the middle of a group, or its positions
      from the first to the last. */
  method Select(groups: Groups, quotas: seq<nat>) returns (selected: seq<Passage>)
    requires Within(quotas, Sizes(groups))
    ensures selected == Selected(groups, quotas)
  {
    selected := [];
    for g := 0 to |groups|
      invariant Within(quotas[..g], Sizes(groups[..g])) && selected == Selected(groups[..g], quotas[..g])
    {
      var group, q := groups[g], quotas[g];
      assert groups[..g + 1][..g] == groups[..g] && quotas[..g + 1][..g] == quotas[..g];
      if q == 1 {
        assert Chosen(group, 1) == [group[|group| / 2]];
        selected := selected + [group[|group| / 2]];
      } else {
        ghost var before := selected;
        for i := 0 to q
          invariant selected == before + Chosen(group, q)[..i]
        {
          SpreadBelow(q, |group|, i);
          assert Chosen(group, q)[..i + 1] == Chosen(group, q)[..i] + [Chosen(group, q)[i]];
          selected := selected + [group[i * (|group| - 1) / (q - 1)]];
        }
        assert Chosen(group, q)[..q] == Chosen(group, q);
      }
    }
    assert groups[..|groups|] == groups && quotas[..|groups|] == quotas;
  }

  // ---- In source order ---------------------------------------------------------------

  predicate NotAfter(p: Passage, r: Passage) {
    p.start < r.start || (p.start == r.start && p.end <= r.end)
  }

  ghost predicate InPlace(phrases: seq<Passage>) {
    forall i, j :: 0 <= i < j < |phrases| ==> NotAfter(phrases[i], phrases[j])
  }

  function Insert(p: Passage, phrases: seq<Passage>): seq<Passage> {
    if phrases == [] || NotAfter(p, phrases[0]) then [p] + phrases else [phrases[0]] + Insert(p, phrases[1..])
  }

  function Sorted(phrases: seq<Passage>): seq<Passage> {
    if phrases == [] then [] else Insert(phrases[0], Sorted(phrases[1..]))
  }

  lemma {:induction false} InsertSorts(p: Passage, phrases: seq<Passage>)
    requires InPlace(phrases)
    ensures InPlace(Insert(p, phrases)) && multiset(Insert(p, phrases)) == multiset(phrases) + multiset{p}
    decreases |phrases|
  {
    if phrases != [] && !NotAfter(p, phrases[0]) {
      InsertSorts(p, phrases[1..]);
      assert phrases == [phrases[0]] + phrases[1..];
      var rest := Insert(p, phrases[1..]);
      forall x | x in rest
        ensures NotAfter(phrases[0], x)
      {
        assert x in multiset(rest);
        assert x == p || x in phrases[1..];
      }
    }
  }

  lemma {:induction false} SortedSorts(phrases: seq<Passage>)
    ensures InPlace(Sorted(phrases)) && multiset(Sorted(phrases)) == multiset(phrases)
    decreases |phrases|
  {
    if phrases != [] {
      SortedSorts(phrases[1..]);
      InsertSorts(phrases[0], Sorted(phrases[1..]));
      assert phrases == [phrases[0]] + phrases[1..];
    }
  }

  /** `candidates`: the budget's worth of distinct phrases, or all there are, in
      source order; refused for a budget out of range. */
  method Candidates(a: Analysis, source: string, words: seq<Word>, budget: nat)
      returns (r: Option<seq<Passage>>, groups: Groups, seen: set<string>, quotas: seq<nat>)
    requires WordsIn(source, words)
    ensures r.None? <==> !(3 <= budget <= 96)
    ensures r.Some? ==>
      Extracted(a, source, words, |words|, 1, groups, seen) && Fair(quotas, Sizes(groups))
      && |r.value| == Min(budget, |seen|) && InPlace(r.value)
      && multiset(r.value) == multiset(Selected(groups, quotas)) && AllApart(a, Selected(groups, quotas))
  {
    if !(3 <= budget <= 96) {
      return None, [], {}, [];
    }
    groups, seen := Extract(a, source, words);
    quotas := ShareBudget(Sizes(groups), budget);
    hide WordsIn, Sizes, Fair, DistinctIdentities, Selected;
    var selected := Select(groups, quotas);
    SelectedApart(a, groups, quotas);
    SortedSorts(selected);
    assert |multiset(selected)| == |selected| && |multiset(Sorted(selected))| == |Sorted(selected)|;
    SumOfThree(Sizes(groups));
    r := Some(Sorted(selected));
  }

  lemma {:induction false} SumOfThree(s: seq<nat>)
    requires |s| == 3
    ensures Sum(s) == s[0] + s[1] + s[2]
  {
    assert Sum(s[3..]) == 0 && s[1..][1..] == s[2..] && s[2..][1..] == s[3..];
    assert Sum(s[2..]) == s[2] && Sum(s[1..]) == s[1] + Sum(s[2..]);
  }

  // ---- The greedy choice ---------------------------------------------------------------

  predicate Overlap(p: Passage, r: Passage) {
    p.start < r.end && r.start < p.end
  }

  predicate Covers(p: Passage, at: nat) {
    p.start <= at < p.end
  }

  /** Two phrases overlap exactly when they share a character of the source. */
  lemma {:induction false} OverlapShares(p: Passage, r: Passage)
    requires p.start < p.end && r.start < r.end
    ensures Overlap(p, r) <==> exists at: nat :: Covers(p, at) && Covers(r, at)
  {
    if Overlap(p, r) {
      var at := if p.start < r.start then r.start else p.start;
      assert Covers(p, at) && Covers(r, at);
    }
  }

  predicate IndexIn(chosen: seq<nat>, n: nat) {
    forall k :: 0 <= k < |chosen| ==> chosen[k] < n
  }

  ghost predicate FreeOf(phrases: seq<Passage>, chosen: seq<nat>, i: nat)
    requires i < |phrases| && IndexIn(chosen, |phrases|)
  {
    forall k :: 0 <= k < |chosen| ==> !Overlap(phrases[i], phrases[chosen[k]])
  }

  /** The best scored of what remains, the first of equals. */
  method Best(score: (seq<nat>, nat) -> real, chosen: seq<nat>, remaining: seq<nat>) returns (winner: nat)
    requires remaining != []
    ensures winner in remaining && forall i :: i in remaining ==> score(chosen, i) <= score(chosen, winner)
  {
    winner := remaining[0];
    for k := 1 to |remaining|
      invariant winner in remaining
      invariant forall i :: 0 <= i < k ==> score(chosen, remaining[i]) <= score(chosen, winner)
    {
      if score(chosen, remaining[k]) > score(chosen, winner) {
        winner := remaining[k];
      }
    }
  }

  function Clear(phrases: seq<Passage>, remaining: seq<nat>, winner: nat): (left: seq<nat>)
    requires winner < |phrases| && IndexIn(remaining, |phrases|)
    ensures |left| <= |remaining| && IndexIn(left, |phrases|)
    ensures forall i :: i in left <==> i in remaining && !Overlap(phrases[i], phrases[winner])
    ensures winner in remaining && Overlap(phrases[winner], phrases[winner]) ==> |left| < |remaining|
  {
    if remaining == [] then []
    else
      assert remaining == [remaining[0]] + remaining[1..];
      (if Overlap(phrases[remaining[0]], phrases[winner]) then [] else [remaining[0]])
      + Clear(phrases, remaining[1..], winner)
  }

  /** Each choice is the best of what is free of the earlier ones. */
  ghost predicate BestInTurn(phrases: seq<Passage>, score: (seq<nat>, nat) -> real, chosen: seq<nat>)
    requires IndexIn(chosen, |phrases|)
  {
    forall k | 0 <= k < |chosen| :: BestAfter(phrases, score, chosen[..k], chosen[k])
  }

  ghost predicate BestAfter(phrases: seq<Passage>, score: (seq<nat>, nat) -> real, chosen: seq<nat>, winner: nat)
    requires IndexIn(chosen, |phrases|) && winner < |phrases|
  {
    FreeOf(phrases, chosen, winner)
    && forall i :: 0 <= i < |phrases| && FreeOf(phrases, chosen, i) ==> score(chosen, i) <= score(chosen, winner)
  }

  /** The selection loop of `keyphrases`, over any scores: at most `count`, each the
      best of what overlaps none before it; fewer only when every phrase overlaps
      a chosen one. */
  method Greedy(phrases: seq<Passage>, score: (seq<nat>, nat) -> real, count: nat) returns (chosen: seq<nat>)
    requires forall p :: p in phrases ==> p.start < p.end
    ensures |chosen| <= count && IndexIn(chosen, |phrases|) && BestInTurn(phrases, score, chosen)
    ensures |chosen| < count ==> forall i :: 0 <= i < |phrases| ==> !FreeOf(phrases, chosen, i)
  {
    chosen := [];
    var remaining: seq<nat> := seq(|phrases|, i requires 0 <= i < |phrases| => i);
    forall i | 0 <= i < |phrases|
      ensures i in remaining
    {
      assert remaining[i] == i;
    }
    while remaining != [] && |chosen| < count
      invariant |chosen| <= count && IndexIn(chosen, |phrases|) && IndexIn(remaining, |phrases|)
      invariant forall i :: 0 <= i < |phrases| ==> (i in remaining <==> FreeOf(phrases, chosen, i))
      invariant BestInTurn(phrases, score, chosen)
      decreases |remaining|
    {
      var winner := Best(score, chosen, remaining);
      assert phrases[winner] in phrases;
      NextChosen(phrases, score, chosen, winner);
      chosen := chosen + [winner];
      remaining := Clear(phrases, remaining, winner);
    }
  }

  lemma {:induction false} NextChosen(
      phrases: seq<Passage>, score: (seq<nat>, nat) -> real, chosen: seq<nat>, winner: nat)
    requires IndexIn(chosen, |phrases|) && winner < |phrases|
    requires BestInTurn(phrases, score, chosen) && BestAfter(phrases, score, chosen, winner)
    ensures IndexIn(chosen + [winner], |phrases|) && BestInTurn(phrases, score, chosen + [winner])
    ensures forall i :: 0 <= i < |phrases| ==>
      (FreeOf(phrases, chosen + [winner], i) <==> FreeOf(phrases, chosen, i) && !Overlap(phrases[i], phrases[winner]))
  {
    var after := chosen + [winner];
    forall k | 0 <= k < |after|
      ensures BestAfter(phrases, score, after[..k], after[k])
    {
      assert after[..k] == chosen[..k] && chosen[..|chosen|] == chosen;
    }
    forall i | 0 <= i < |phrases|
      ensures FreeOf(phrases, after, i) <==> FreeOf(phrases, chosen, i) && !Overlap(phrases[i], phrases[winner])
    {
      assert forall k :: 0 <= k < |chosen| ==> after[k] == chosen[k];
      assert after[|chosen|] == winner;
    }
  }
}
