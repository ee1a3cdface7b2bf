/** Splitting a text into passages an embedding takes (`chunks` of `demo/lfm2.py`):
    paragraphs, cut by bytes, at whitespace where there is any. Offsets are
    characters. */
module Passages {
  import opened Wrappers

  const PASSAGE_BYTES := 384

  datatype Passage = Passage(text: string, start: nat, end: nat)

  /** `str.isspace` of one character. */
  predicate Space(c: char) {
    var n := c as int;
    9 <= n <= 13 || 0x1C <= n <= 0x20 || n == 0x85 || n == 0xA0 || n == 0x1680 || 0x2000 <= n <= 0x200A
    || n == 0x2028 || n == 0x2029 || n == 0x202F || n == 0x205F || n == 0x3000
  }

  predicate AllSpace(s: string, from: nat, to: nat)
    requires to <= |s|
  {
    forall i :: from <= i < to ==> Space(s[i])
  }

  predicate NoSpace(s: string, from: nat, to: nat)
    requires to <= |s|
  {
    forall i :: from <= i < to ==> !Space(s[i])
  }

  /** Bytes of a character in UTF-8. */
  function Width(c: char): (n: nat)
    ensures 1 <= n <= 4
  {
    if c as int < 0x80 then 1 else if c as int < 0x800 then 2 else if c as int < 0x10000 then 3 else 4
  }

  function Bytes(s: string): nat {
    if s == "" then 0 else Bytes(s[..|s| - 1]) + Width(s[|s| - 1])
  }

  // ---- Paragraphs ------------------------------------------------------------

  function LineEnd(s: string, at: nat): Option<nat> {
    var n := if at < |s| && s[at] == '\r' then at + 1 else at;
    if n < |s| && s[n] == '\n' then Some(n + 1) else None
  }

  function Blanks(s: string, at: nat): nat
    requires at <= |s|
    decreases |s| - at
  {
    if at < |s| && (s[at] == ' ' || s[at] == '\t') then Blanks(s, at + 1) else at
  }

  /** A blank line starts here: a line end, blanks, and another line end. */
  predicate BreakAt(s: string, at: nat) {
    var first := LineEnd(s, at);
    first.Some? && LineEnd(s, Blanks(s, first.value)).Some?
  }

  /** One match of the paragraph pattern from `from` on: from the first character
      that is no space to the first blank line after it, or the end. */
  ghost predicate IsParagraph(s: string, from: nat, start: nat, end: nat) {
    from <= start < end <= |s| && AllSpace(s, from, start) && !Space(s[start])
    && (forall i :: start < i < end ==> !BreakAt(s, i))
    && (end < |s| ==> BreakAt(s, end))
  }

  method NextParagraph(s: string, from: nat) returns (r: Option<(nat, nat)>)
    requires from <= |s|
    ensures r.None? ==> AllSpace(s, from, |s|)
    ensures r.Some? ==> IsParagraph(s, from, r.value.0, r.value.1)
  {
    var start := from;
    while start < |s| && Space(s[start])
      invariant from <= start <= |s| && AllSpace(s, from, start)
    {
      start := start + 1;
    }
    if start == |s| {
      return None;
    }
    var end := start + 1;
    while end < |s| && !BreakAt(s, end)
      invariant start < end <= |s|
      invariant forall i :: start < i < end ==> !BreakAt(s, i)
    {
      end := end + 1;
    }
    return Some((start, end));
  }

  // ---- Passages ----------------------------------------------------------------

  /** A slice of the source that fits and keeps to one paragraph, the longest that
      does: cut inside a word only when that word fills it. */
  ghost predicate IsPassage(s: string, p: Passage) {
    p.start < p.end <= |s| && p.text == s[p.start..p.end] && Bytes(p.text) <= PASSAGE_BYTES
    && !AllSpace(s, p.start, p.end)
    && (forall i :: p.start < i < p.end ==> !BreakAt(s, i))
    && (p.end == |s| || Space(s[p.end]) || Space(s[p.end - 1]) || NoSpace(s, p.start, p.end))
    && Longest(s, p.start, p.end)
  }

  /** A slice from `start` fits its bytes and its paragraph. */
  ghost predicate FitsTo(s: string, start: nat, end: nat) {
    start < end <= |s| && Bytes(s[start..end]) <= PASSAGE_BYTES && forall i :: start < i < end ==> !BreakAt(s, i)
  }

  /** Inside a word: no space before or after, and not at the end. */
  predicate InWord(s: string, at: nat) {
    0 < at < |s| && !Space(s[at - 1]) && !Space(s[at])
  }

  /** No longer slice fits and ends between words, unless all it adds is space; and
      when this one ends inside a word no longer one fits at all. */
  ghost predicate Longest(s: string, start: nat, end: nat) {
    forall e :: end < e && FitsTo(s, start, e) ==> AllSpace(s, end, e) || (InWord(s, e) && !InWord(s, end))
  }

  ghost predicate Apart(passages: seq<Passage>) {
    forall j, k :: 0 <= j < k < |passages| ==> passages[j].end <= passages[k].start
  }

  ghost predicate Within(passages: seq<Passage>, i: nat) {
    exists k :: 0 <= k < |passages| && passages[k].start <= i < passages[k].end
  }

  /** The passages of the source up to `end`: in order, apart, and over every
      character that is no space. */
  ghost predicate Cover(s: string, passages: seq<Passage>, end: nat) {
    end <= |s| && Apart(passages)
    && (forall k :: 0 <= k < |passages| ==> IsPassage(s, passages[k]) && passages[k].end <= end)
    && forall i :: 0 <= i < end && !Space(s[i]) ==> Within(passages, i)
  }

  lemma {:induction false} BytesSnoc(s: string, start: nat, end: nat)
    requires start <= end < |s|
    ensures Bytes(s[start..end + 1]) == Bytes(s[start..end]) + Width(s[end])
  {
    assert s[start..end + 1][..end - start] == s[start..end];
  }

  lemma {:induction false} BytesGrow(s: string, start: nat, end: nat, more: nat)
    requires start <= end <= more <= |s|
    ensures Bytes(s[start..end]) <= Bytes(s[start..more])
    decreases more - end
  {
    if end < more {
      BytesGrow(s, start, end, more - 1);
      BytesSnoc(s, start, more - 1);
    }
  }

  /** As many characters from `start` as fit, then back to the last space when the
      cut falls inside a word. */
  method CutEnd(s: string, start: nat, stop: nat) returns (end: nat)
    requires start < stop <= |s|
    ensures start < end <= stop && Bytes(s[start..end]) <= PASSAGE_BYTES
    ensures end == stop || Space(s[end]) || Space(s[end - 1]) || NoSpace(s, start, end)
    ensures forall e :: end < e <= stop && Bytes(s[start..e]) <= PASSAGE_BYTES ==>
      e < stop && InWord(s, e) && !InWord(s, end)
  {
    var size := 0;
    end := start;
    assert s[start..start] == "";
    while end < stop && size + Width(s[end]) <= PASSAGE_BYTES
      invariant start <= end <= stop && size == Bytes(s[start..end]) <= PASSAGE_BYTES
    {
      BytesSnoc(s, start, end);
      size := size + Width(s[end]);
      end := end + 1;
    }
    assert end > start;
    ghost var full := end;
    forall e | full < e <= stop
      ensures Bytes(s[start..e]) > PASSAGE_BYTES
    {
      BytesSnoc(s, start, full);
      BytesGrow(s, start, full + 1, e);
    }
    hide Bytes;
    if end < stop && !Space(s[end]) {
      var at := end;
      while at > start && !Space(s[at - 1])
        invariant start <= at <= end && NoSpace(s, at, end)
      {
        at := at - 1;
      }
      if at > start {
        BytesGrow(s, start, at, end);
        end := at;
      }
    }
  }

  /** More of the source covered: nothing but space, or one more passage. */
  lemma {:induction false} CoverSpace(s: string, passages: seq<Passage>, from: nat, to: nat)
    requires Cover(s, passages, from) && from <= to <= |s| && AllSpace(s, from, to)
    ensures Cover(s, passages, to)
  {
  }

  lemma {:induction false} CoverPassage(s: string, passages: seq<Passage>, p: Passage)
    requires Cover(s, passages, p.start) && IsPassage(s, p)
    ensures Cover(s, passages + [p], p.end)
  {
    var after := passages + [p];
    hide IsPassage, Space;
    assert p.start < p.end <= |s| by {
      PassageBounds(s, p);
    }
    forall i | 0 <= i < p.end && !Space(s[i])
      ensures Within(after, i)
    {
      if i < p.start {
        var k :| 0 <= k < |passages| && passages[k].start <= i < passages[k].end;
        assert after[k] == passages[k];
      } else {
        assert after[|passages|] == p;
      }
    }
  }

  lemma {:induction false} PassageBounds(s: string, p: Passage)
    requires IsPassage(s, p)
    ensures p.start < p.end <= |s|
  {
  }

  /** A cut that is as long as can be before `stop` is so within the paragraph. */
  lemma {:induction false} AsLong(s: string, start: nat, end: nat, stop: nat, close: nat)
    requires start < end <= stop <= close <= |s| && AllSpace(s, stop, close) && (close < |s| ==> BreakAt(s, close))
    requires forall e :: end < e <= stop && Bytes(s[start..e]) <= PASSAGE_BYTES ==>
      e < stop && InWord(s, e) && !InWord(s, end)
    ensures Longest(s, start, end)
  {
    hide Bytes, BreakAt, Space;
    forall e | end < e && FitsTo(s, start, e)
      ensures AllSpace(s, end, e) || (InWord(s, e) && !InWord(s, end))
    {
      assert e <= close;
      if end < stop < e {
        BytesGrow(s, start, stop, e);
      }
    }
  }

  /** One paragraph, cut into passages. */
  method SplitParagraph(s: string, before: seq<Passage>, from: nat, stop: nat, ghost close: nat)
      returns (passages: seq<Passage>)
    requires Cover(s, before, from) && from <= stop <= close <= |s|
    requires forall i :: from < i < close ==> !BreakAt(s, i)
    requires AllSpace(s, stop, close) && (close < |s| ==> BreakAt(s, close))
    requires stop == |s| || Space(s[stop])
    ensures Cover(s, passages, stop) && before <= passages
    ensures !AllSpace(s, from, stop) ==> passages != []
  {
    passages := before;
    var start := from;
    while start < stop
      invariant from <= start <= stop && Cover(s, passages, start) && before <= passages
      invariant !AllSpace(s, from, start) ==> passages != []
    {
      hide BreakAt, Cover, Bytes;
      var end := CutEnd(s, start, stop);
      if AllSpace(s, start, end) {
        CoverSpace(s, passages, start, end);
      } else {
        var p := Passage(s[start..end], start, end);
        AsLong(s, start, end, stop, close);
        assert IsPassage(s, p);
        CoverPassage(s, passages, p);
        passages := passages + [p];
      }
      start := end;
    }
  }

  /** `chunks`: refused exactly for a text of nothing but space; else ordered
      disjoint slices, each within its bytes and its paragraph, that hold every
      other character exactly once. */
  method Chunks(source: string) returns (r: Result<seq<Passage>, ()>)
    ensures r.Failure? <==> AllSpace(source, 0, |source|)
    ensures r.Success? ==> Cover(source, r.value, |source|)
  {
    var passages: seq<Passage> := [];
    var at := 0;
    var more := true;
    while more
      invariant at <= |source| && Cover(source, passages, at)
      invariant passages == [] ==> AllSpace(source, 0, at)
      invariant !more ==> at == |source|
      decreases |source| - at, more
    {
      var next := NextParagraph(source, at);
      hide BreakAt, Cover, Space;
      if next.None? {
        CoverSpace(source, passages, at, |source|);
        at, more := |source|, false;
      } else {
        var (start, end) := next.value;
        var stop := TrimEnd(source, start, end);
        CoverSpace(source, passages, at, start);
        passages := SplitParagraph(source, passages, start, stop, end);
        CoverSpace(source, passages, stop, end);
        at := end;
      }
    }
    if passages == [] {
      return Failure(());
    }
    CoverHolds(source, passages);
    return Success(passages);
  }

  lemma {:induction false} CoverHolds(s: string, passages: seq<Passage>)
    requires Cover(s, passages, |s|) && passages != []
    ensures !AllSpace(s, 0, |s|)
  {
    assert IsPassage(s, passages[0]);
  }

  method TrimEnd(s: string, start: nat, end: nat) returns (stop: nat)
    requires start < end <= |s| && !Space(s[start]) && (end < |s| ==> BreakAt(s, end))
    ensures start < stop <= end && AllSpace(s, stop, end) && !AllSpace(s, start, stop)
    ensures stop == |s| || Space(s[stop])
  {
    stop := end;
    while stop > start && Space(s[stop - 1])
      invariant start < stop <= end && AllSpace(s, stop, end)
    {
      stop := stop - 1;
    }
    assert !AllSpace(s, start, stop) by {
      assert !Space(s[start]);
    }
  }

  /** Each character that is no space lies in exactly one passage. */
  lemma {:induction false} InOnePassage(s: string, passages: seq<Passage>, i: nat) returns (k: nat)
    requires Cover(s, passages, |s|) && i < |s| && !Space(s[i])
    ensures k < |passages| && passages[k].start <= i < passages[k].end
    ensures forall j :: 0 <= j < |passages| && passages[j].start <= i < passages[j].end ==> j == k
  {
    assert Within(passages, i);
    k :| 0 <= k < |passages| && passages[k].start <= i < passages[k].end;
  }
}
