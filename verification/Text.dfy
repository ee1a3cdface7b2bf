/** Searching text: occurrences of a pattern, the first and the last one, and
    when joining two texts cannot make a new occurrence. */
module Text {
  import opened Wrappers

  predicate At(s: string, i: int, p: string) {
    0 <= i && i + |p| <= |s| && s[i..i + |p|] == p
  }

  /** `p` occurs nowhere in `s`. */
  ghost predicate Free(s: string, p: string) {
    forall i :: !At(s, i, p)
  }

  predicate EndsWith(s: string, p: string) {
    At(s, |s| - |p|, p)
  }

  /** The first occurrence of `p` in `s` at or after `from`. */
  function FindFrom(s: string, p: string, from: nat): (r: Option<nat>)
    ensures r.Some? ==> from <= r.value && At(s, r.value, p) && forall i :: from <= i < r.value ==> !At(s, i, p)
    ensures r.None? ==> forall i :: from <= i ==> !At(s, i, p)
    decreases |s| + 1 - from
  {
    if from > |s| then None
    else if At(s, from, p) then Some(from)
    else FindFrom(s, p, from + 1)
  }

  function Find(s: string, p: string): (r: Option<nat>)
    ensures r.Some? ==> At(s, r.value, p) && forall i :: 0 <= i < r.value ==> !At(s, i, p)
    ensures r.None? <==> Free(s, p)
  {
    FindFrom(s, p, 0)
  }

  predicate Contains(s: string, p: string) {
    exists i | 0 <= i <= |s| :: At(s, i, p)
  }

  /** The last occurrence of `p` in `s` at or before `upto`. */
  function FindLastUpTo(s: string, p: string, upto: nat): (r: Option<nat>)
    ensures r.Some? ==> r.value <= upto && At(s, r.value, p) && forall i :: r.value < i <= upto ==> !At(s, i, p)
    ensures r.None? ==> forall i :: 0 <= i <= upto ==> !At(s, i, p)
  {
    if At(s, upto, p) then Some(upto)
    else if upto == 0 then None
    else FindLastUpTo(s, p, upto - 1)
  }

  function FindLast(s: string, p: string): (r: Option<nat>)
    ensures r.Some? ==> At(s, r.value, p) && forall i :: r.value < i ==> !At(s, i, p)
    ensures r.None? <==> Free(s, p)
  {
    FindLastUpTo(s, p, |s|)
  }

  lemma {:induction false} Assoc<T>(a: seq<T>, b: seq<T>, c: seq<T>)
    ensures (a + b) + c == a + (b + c)
  {
  }

  lemma {:induction false} Assoc3<T>(a: seq<T>, b: seq<T>, c: seq<T>, d: seq<T>)
    ensures a + (b + c + d) == a + b + c + d
  {
  }

  lemma {:induction false} SameTail<T>(a: seq<T>, b: seq<T>, rest: seq<T>)
    ensures a + rest == b + rest <==> a == b
  {
    if a + rest == b + rest {
      assert |a| == |b|;
      assert (a + rest)[..|a|] == a && (b + rest)[..|b|] == b;
    }
  }

  lemma {:induction false} DropHead<T>(a: seq<T>, b: seq<T>)
    ensures a <= a + b && (a + b)[|a|..] == b
  {
  }

  /** `parts.join(sep)`. */
  function Join(parts: seq<string>, sep: string): string {
    if parts == [] then ""
    else if |parts| == 1 then parts[0]
    else parts[0] + sep + Join(parts[1..], sep)
  }

  lemma {:induction false} JoinSnoc(parts: seq<string>, last: string, sep: string)
    ensures Join(parts + [last], sep) == if parts == [] then last else Join(parts, sep) + sep + last
  {
    if |parts| > 1 {
      JoinSnoc(parts[1..], last, sep);
      assert (parts + [last])[1..] == parts[1..] + [last];
      var head, tail := parts[0] + sep, Join(parts[1..], sep);
      Assoc(head, tail, sep);
      Assoc(head, tail + sep, last);
    } else if |parts| == 1 {
      assert (parts + [last])[1..] == [last];
    }
  }

  /** An occurrence in `a + b` lies in `a`, lies in `b`, or crosses the join. */
  lemma {:induction false} OccurrenceInJoin(a: string, b: string, p: string, i: int)
    requires At(a + b, i, p)
    ensures i + |p| <= |a| ==> At(a, i, p)
    ensures i >= |a| ==> At(b, i - |a|, p)
    ensures i < |a| < i + |p| ==> a[|a| - 1] == p[|a| - 1 - i] && b != "" && b[0] == p[|a| - i]
  {
    var s := a + b;
    if i + |p| <= |a| {
      assert s[i..i + |p|] == a[i..i + |p|];
    }
    if i >= |a| {
      assert s[i..i + |p|] == b[i - |a|..i - |a| + |p|];
    }
    if i < |a| < i + |p| {
      assert p[|a| - 1 - i] == s[|a| - 1] == a[|a| - 1];
      assert p[|a| - i] == s[|a|] == b[0];
    }
  }

  /** Joining makes no new occurrence when no two neighbouring characters of
      the pattern can meet at the join. */
  lemma {:induction false} FreeJoin(a: string, b: string, p: string)
    requires Free(a, p) && Free(b, p)
    requires a == "" || b == "" || forall k :: 0 < k < |p| ==> p[k - 1] != a[|a| - 1] || p[k] != b[0]
    ensures Free(a + b, p)
  {
    forall i
      ensures !At(a + b, i, p)
    {
      if At(a + b, i, p) {
        OccurrenceInJoin(a, b, p, i);
      }
    }
  }

  /** Where a text occurs, so does any prefix of it. */
  lemma {:induction false} PrefixAt(s: string, i: int, p: string, q: string)
    requires p <= q
    ensures At(s, i, q) ==> At(s, i, p)
  {
    if At(s, i, q) {
      assert s[i..i + |p|] == s[i..i + |q|][..|p|];
    }
  }

  lemma {:induction false} FreeOfLonger(s: string, p: string, q: string)
    requires p <= q && Free(s, p)
    ensures Free(s, q)
  {
    forall i
      ensures !At(s, i, q)
    {
      PrefixAt(s, i, p, q);
    }
  }

  lemma {:induction false} FreeOfChar(s: string, c: char)
    requires c !in s
    ensures Free(s, [c])
  {
    forall i
      ensures !At(s, i, [c])
    {
      assert 0 <= i < |s| ==> s[i] in s && s[i..i + 1] == [s[i]];
    }
  }

  /** An occurrence in a part is an occurrence in the whole. */
  lemma {:induction false} AtInJoin(a: string, b: string, p: string, i: int)
    ensures At(a, i, p) ==> At(a + b, i, p)
    ensures At(b, i, p) ==> At(a + b, |a| + i, p)
  {
    if At(a, i, p) {
      assert (a + b)[i..i + |p|] == a[i..i + |p|];
    }
    if At(b, i, p) {
      assert (a + b)[|a| + i..|a| + i + |p|] == b[i..i + |p|];
    }
  }

  /** The first occurrence of `p` after a text free of it, when `p`'s first
      character appears nowhere else in `p`: exactly at the join. */
  lemma {:induction false} FindAtJoin(a: string, p: string, b: string)
    requires p != "" && Free(a, p)
    requires forall k :: 0 < k < |p| ==> p[k] != p[0]
    ensures Find(a + p + b, p) == Some(|a|)
  {
    var s := a + p + b;
    assert s == a + (p + b);
    assert At(p + b, 0, p);
    AtInJoin(a, p + b, p, 0);
    forall i | 0 <= i < |a|
      ensures !At(s, i, p)
    {
      if At(s, i, p) {
        OccurrenceInJoin(a, p + b, p, i);
      }
    }
  }
}
