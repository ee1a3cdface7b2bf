/** The span decoder of `src/token_classification.rs`: BIOES tags to entity spans,
    forgiving about malformed tags, scored by their weakest token and trimmed of
    whitespace. Offsets are bytes, scores are reals. */
module TokenSpans {
  import opened Wrappers

  /** A token's predicted label, byte span and the probability of that label. */
  datatype Token = Token(tag: string, start: nat, end: nat, confidence: real)

  datatype Span = Span(start: nat, end: nat, entity: string, score: real)

  type Tokens = seq<Token>

  // ---- Tags ------------------------------------------------------------------

  function Dash(s: string): (i: nat)
    ensures i <= |s| && (forall j :: 0 <= j < i ==> s[j] != '-') && (i < |s| ==> s[i] == '-')
  {
    if s == "" || s[0] == '-' then 0 else 1 + Dash(s[1..])
  }

  /** The prefix and the entity of a tag: split at the first dash; a tag without
      one is a single token of its own type. */
  function Prefix(tag: string): string {
    if Dash(tag) < |tag| then tag[..Dash(tag)] else "S"
  }

  function Entity(tag: string): string {
    if Dash(tag) < |tag| then tag[Dash(tag) + 1..] else tag
  }

  predicate Labelled(t: Token) {
    t.end > t.start && t.tag != "O"
  }

  predicate Fresh(t: Token) {
    Prefix(t.tag) == "B" || Prefix(t.tag) == "S"
  }

  /** Where a span starts: at `B` or `S`, after an unlabelled token, and where the
      type changes. */
  predicate Opens(ts: Tokens, i: nat)
    requires i < |ts|
  {
    Labelled(ts[i])
    && (Fresh(ts[i]) || i == 0 || !Labelled(ts[i - 1]) || Entity(ts[i - 1].tag) != Entity(ts[i].tag))
  }

  // ---- Runs of tokens ----------------------------------------------------------

  /** Tokens `first` up to but not `last`. */
  datatype Run = Run(first: nat, last: nat)

  type Runs = seq<Run>

  /** One span's tokens: from where it opens, over labelled tokens that open none. */
  ghost predicate IsRun(ts: Tokens, run: Run) {
    run.first < run.last <= |ts| && Opens(ts, run.first)
    && forall i :: run.first < i < run.last ==> Labelled(ts[i]) && !Opens(ts, i)
  }

  /** ... to where it cannot go on. */
  ghost predicate IsWhole(ts: Tokens, run: Run) {
    IsRun(ts, run) && (run.last < |ts| ==> !Labelled(ts[run.last]) || Opens(ts, run.last))
  }

  ghost predicate InOrder(runs: Runs) {
    forall j, k :: 0 <= j < k < |runs| ==> runs[j].last <= runs[k].first
  }

  ghost predicate Opened(runs: Runs, i: nat) {
    exists k :: 0 <= k < |runs| && runs[k].first == i
  }

  /** The tokens cut into runs: whole ones, in order, one for every opening. */
  ghost predicate IsCut(ts: Tokens, runs: Runs) {
    InOrder(runs) && (forall k :: 0 <= k < |runs| ==> IsWhole(ts, runs[k]))
    && forall i :: 0 <= i < |ts| && Opens(ts, i) ==> Opened(runs, i)
  }

  /** After `n` tokens: the runs that are whole, and the one going on. */
  ghost predicate CutTo(ts: Tokens, n: nat, runs: Runs, going: Option<Run>) {
    n <= |ts| && InOrder(runs)
    && (forall k :: 0 <= k < |runs| ==> IsWhole(ts, runs[k]) && runs[k].last <= n)
    && (going.Some? ==>
          IsRun(ts, going.value) && going.value.last == n
          && forall k :: 0 <= k < |runs| ==> runs[k].last <= going.value.first)
    && (forall i :: 0 <= i < n && Opens(ts, i) ==> Opened(runs, i) || (going.Some? && going.value.first == i))
    && (going.Some? <==> n > 0 && Labelled(ts[n - 1]))
  }

  /** The run going on is closed. */
  function Closing(runs: Runs, going: Option<Run>): Runs {
    if going.Some? then runs + [going.value] else runs
  }

  lemma {:induction false} OpenedStays(runs: Runs, run: Run, i: nat)
    ensures Opened(runs, i) || run.first == i ==> Opened(runs + [run], i)
  {
    var after := runs + [run];
    if Opened(runs, i) {
      var k :| 0 <= k < |runs| && runs[k].first == i;
      assert after[k].first == i;
    } else if run.first == i {
      assert after[|runs|].first == i;
    }
  }

  /** Closing the run going on, where it cannot go on. */
  lemma {:induction false} CloseRun(ts: Tokens, n: nat, runs: Runs, going: Option<Run>)
    requires CutTo(ts, n, runs, going) && (n < |ts| ==> !Labelled(ts[n]) || Opens(ts, n))
    ensures InOrder(Closing(runs, going))
    ensures forall k :: 0 <= k < |Closing(runs, going)| ==>
      IsWhole(ts, Closing(runs, going)[k]) && Closing(runs, going)[k].last <= n
    ensures forall i :: 0 <= i < n && Opens(ts, i) ==> Opened(Closing(runs, going), i)
  {
    hide Prefix, Entity, Fresh, Labelled, Opened;
    if going.Some? {
      forall i | 0 <= i < n && Opens(ts, i)
        ensures Opened(Closing(runs, going), i)
      {
        OpenedStays(runs, going.value, i);
      }
    }
  }

  lemma {:induction false} Unlabelled(ts: Tokens, n: nat, runs: Runs, going: Option<Run>)
    requires CutTo(ts, n, runs, going) && n < |ts| && !Labelled(ts[n])
    ensures CutTo(ts, n + 1, Closing(runs, going), None)
  {
    hide Prefix, Entity, Fresh, Labelled;
    assert !Opens(ts, n);
    CloseRun(ts, n, runs, going);
    hide Opens, Opened, IsWhole, IsRun, InOrder, Closing;
  }

  lemma {:induction false} Opening(ts: Tokens, n: nat, runs: Runs, going: Option<Run>)
    requires CutTo(ts, n, runs, going) && n < |ts| && Opens(ts, n)
    ensures CutTo(ts, n + 1, Closing(runs, going), Some(Run(n, n + 1)))
  {
    hide Prefix, Entity, Fresh;
    CloseRun(ts, n, runs, going);
  }

  lemma {:induction false} GoingOn(ts: Tokens, n: nat, runs: Runs, going: Run)
    requires CutTo(ts, n, runs, Some(going)) && n < |ts| && Labelled(ts[n]) && !Opens(ts, n)
    ensures CutTo(ts, n + 1, runs, Some(Run(going.first, n + 1)))
  {
    hide Prefix, Entity, Fresh, Labelled;
  }

  /** A run's tokens are all of its entity. */
  lemma {:induction false} RunEntity(ts: Tokens, run: Run, i: nat)
    requires IsRun(ts, run) && run.first <= i < run.last
    ensures Labelled(ts[i]) && Entity(ts[i].tag) == Entity(ts[run.first].tag)
    decreases i
  {
    hide Prefix, Entity, Fresh, Labelled;
    if i > run.first {
      RunEntity(ts, run, i - 1);
      assert !Opens(ts, i);
    }
  }

  /** Each labelled token lies in exactly one run. */
  lemma {:induction false} InOneRun(ts: Tokens, runs: Runs, i: nat) returns (k: nat)
    requires IsCut(ts, runs) && i < |ts| && Labelled(ts[i])
    ensures k < |runs| && runs[k].first <= i < runs[k].last
    ensures forall j :: 0 <= j < |runs| && runs[j].first <= i < runs[j].last ==> j == k
    decreases i
  {
    hide Prefix, Entity, Fresh, Labelled;
    if Opens(ts, i) {
      assert Opened(runs, i);
      k :| 0 <= k < |runs| && runs[k].first == i;
      assert IsWhole(ts, runs[k]);
    } else {
      assert i > 0 && Labelled(ts[i - 1]);
      k := InOneRun(ts, runs, i - 1);
      assert IsWhole(ts, runs[k]);
    }
  }

  // ---- Spans -----------------------------------------------------------------------

  /** The weakest link of a run. */
  function Weakest(ts: Tokens, run: Run): (score: real)
    requires run.first < run.last <= |ts|
    ensures forall i :: run.first <= i < run.last ==> score <= ts[i].confidence
    ensures exists i :: run.first <= i < run.last && score == ts[i].confidence
    decreases run.last - run.first
  {
    var end := ts[run.last - 1].confidence;
    if run.last == run.first + 1 then end
    else
      var before := Weakest(ts, Run(run.first, run.last - 1));
      if end < before then end else before
  }

  /** A run's span: over its bytes, of its entity, scored by its weakest token. */
  ghost predicate IsSpanOf(ts: Tokens, run: Run, span: Span) {
    run.first < run.last <= |ts|
    && span == Span(ts[run.first].start, ts[run.last - 1].end, Entity(ts[run.first].tag), Weakest(ts, run))
  }

  ghost predicate AreSpansOf(ts: Tokens, runs: Runs, spans: seq<Span>) {
    |spans| == |runs| && forall k :: 0 <= k < |spans| ==> IsSpanOf(ts, runs[k], spans[k])
  }

  /** One span for each maximal run, in order. */
  ghost predicate IsDecoded(ts: Tokens, spans: seq<Span>) {
    exists runs :: IsCut(ts, runs) && AreSpansOf(ts, runs, spans)
  }

  lemma {:induction false} NextOpens(ts: Tokens, n: nat, runs: Runs, going: Option<Run>, current: Option<Span>)
    requires CutTo(ts, n, runs, going) && n < |ts| && Labelled(ts[n]) && going.Some? == current.Some?
    requires current.Some? ==> IsSpanOf(ts, going.value, current.value)
    ensures Opens(ts, n) <==> Fresh(ts[n]) || current.None? || current.value.entity != Entity(ts[n].tag)
    ensures going.Some? ==> going.value.last == n
  {
    hide Prefix, Entity, Fresh, Labelled, Weakest;
    if going.Some? {
      RunEntity(ts, going.value, n - 1);
    }
  }

  lemma {:induction false} SpanOpens(ts: Tokens, n: nat)
    requires n < |ts|
    ensures IsSpanOf(ts, Run(n, n + 1), Span(ts[n].start, ts[n].end, Entity(ts[n].tag), ts[n].confidence))
  {
  }

  lemma {:induction false} SpanGrows(ts: Tokens, n: nat, going: Run, span: Span, grown: Span)
    requires n < |ts| && going.last == n && IsSpanOf(ts, going, span)
    requires grown == span.(end := ts[n].end,
      score := if ts[n].confidence < span.score then ts[n].confidence else span.score)
    ensures IsSpanOf(ts, Run(going.first, n + 1), grown)
  {
  }

  lemma {:induction false} SpansClose(
      ts: Tokens, runs: Runs, spans: seq<Span>, going: Option<Run>, current: Option<Span>)
    requires AreSpansOf(ts, runs, spans) && going.Some? == current.Some?
    requires current.Some? ==> IsSpanOf(ts, going.value, current.value)
    ensures AreSpansOf(ts, Closing(runs, going), if current.Some? then spans + [current.value] else spans)
  {
  }

  /** After `n` tokens: the spans of the runs that are whole, and the current one. */
  ghost predicate DecodedTo(
      ts: Tokens, n: nat, runs: Runs, going: Option<Run>, spans: seq<Span>, current: Option<Span>) {
    CutTo(ts, n, runs, going) && AreSpansOf(ts, runs, spans)
    && current.Some? == going.Some? && (current.Some? ==> IsSpanOf(ts, going.value, current.value))
  }

  /** The span loop of `predict`: one span for each run. */
  method DecodeSpans(ts: Tokens) returns (spans: seq<Span>)
    ensures IsDecoded(ts, spans)
  {
    spans := [];
    var current: Option<Span> := None;
    ghost var runs: Runs := [];
    ghost var going: Option<Run> := None;
    assert DecodedTo(ts, 0, runs, going, spans, current);
    hide *;
    for n := 0 to |ts|
      invariant DecodedTo(ts, n, runs, going, spans, current)
    {
      spans, current, runs, going := NextToken(ts, n, spans, current, runs, going);
    }
    AllDecoded(ts, runs, going, spans, current);
    if current.Some? {
      spans := spans + [current.value];
    }
  }

  /** One token: it closes the current span, opens one, or joins it. */
  method NextToken(
      ts: Tokens, n: nat, spans: seq<Span>, current: Option<Span>, ghost runs: Runs, ghost going: Option<Run>)
      returns (spans': seq<Span>, current': Option<Span>, ghost runs': Runs, ghost going': Option<Run>)
    requires DecodedTo(ts, n, runs, going, spans, current) && n < |ts|
    ensures DecodedTo(ts, n + 1, runs', going', spans', current')
  {
    hide Prefix, Labelled, Opens, CutTo, Entity, Fresh, Weakest, IsSpanOf, AreSpansOf, Closing;
    var t := ts[n];
    spans' := if current.Some? then spans + [current.value] else spans;
    if !Labelled(t) {
      Unlabelled(ts, n, runs, going);
      SpansClose(ts, runs, spans, going, current);
      return spans', None, Closing(runs, going), None;
    }
    var entity := Entity(t.tag);
    NextOpens(ts, n, runs, going, current);
    if Fresh(t) || current.None? || current.value.entity != entity {
      Opening(ts, n, runs, going);
      SpansClose(ts, runs, spans, going, current);
      SpanOpens(ts, n);
      return spans', Some(Span(t.start, t.end, entity, t.confidence)), Closing(runs, going), Some(Run(n, n + 1));
    }
    GoingOn(ts, n, runs, going.value);
    var grown := current.value.(end := t.end,
      score := if t.confidence < current.value.score then t.confidence else current.value.score);
    SpanGrows(ts, n, going.value, current.value, grown);
    return spans, Some(grown), runs, Some(Run(going.value.first, n + 1));
  }

  lemma {:induction false} AllDecoded(
      ts: Tokens, runs: Runs, going: Option<Run>, spans: seq<Span>, current: Option<Span>)
    requires DecodedTo(ts, |ts|, runs, going, spans, current)
    ensures IsDecoded(ts, if current.Some? then spans + [current.value] else spans)
  {
    hide CutTo, IsSpanOf, AreSpansOf, Closing, IsDecoded;
    CutDone(ts, runs, going);
    SpansClose(ts, runs, spans, going, current);
    SpansDecoded(ts, Closing(runs, going), if current.Some? then spans + [current.value] else spans);
  }

  lemma {:induction false} SpansDecoded(ts: Tokens, runs: Runs, spans: seq<Span>)
    requires IsCut(ts, runs) && AreSpansOf(ts, runs, spans)
    ensures IsDecoded(ts, spans)
  {
    hide IsCut, AreSpansOf;
  }

  lemma {:induction false} CutDone(ts: Tokens, runs: Runs, going: Option<Run>)
    requires CutTo(ts, |ts|, runs, going)
    ensures IsCut(ts, Closing(runs, going))
  {
    hide Prefix, Entity, Fresh, Labelled;
    CloseRun(ts, |ts|, runs, going);
  }

  // ---- Trimming --------------------------------------------------------------------

  type Bytes = seq<nat>

  /** `u8::is_ascii_whitespace`. */
  predicate IsSpace(b: nat) {
    b == 0x20 || b == 0x09 || b == 0x0A || b == 0x0C || b == 0x0D
  }

  predicate AllSpace(bytes: Bytes, from: nat, to: nat)
    requires to <= |bytes|
  {
    forall i :: from <= i < to ==> IsSpace(bytes[i])
  }

  /** `t` is `span` without the whitespace at its ends. */
  predicate IsTrimmed(bytes: Bytes, span: Span, t: Span) {
    t == span.(start := t.start, end := t.end) && span.start <= t.start <= t.end <= span.end <= |bytes|
    && AllSpace(bytes, span.start, t.start) && AllSpace(bytes, t.end, span.end)
    && (t.start < t.end ==> !IsSpace(bytes[t.start]) && !IsSpace(bytes[t.end - 1]))
  }

  method Trim(bytes: Bytes, span: Span) returns (t: Span)
    requires span.start <= span.end <= |bytes|
    ensures IsTrimmed(bytes, span, t)
  {
    var start, end := span.start, span.end;
    while start < end && IsSpace(bytes[start])
      invariant span.start <= start <= end && AllSpace(bytes, span.start, start)
    {
      start := start + 1;
    }
    while end > start && IsSpace(bytes[end - 1])
      invariant start <= end <= span.end && AllSpace(bytes, end, span.end)
      invariant start < end ==> !IsSpace(bytes[start])
    {
      end := end - 1;
    }
    t := span.(start := start, end := end);
  }

  /** Offsets as a tokenizer gives them: within the text, each after the last. */
  ghost predicate Monotone(ts: Tokens, size: nat) {
    (forall i :: 0 <= i < |ts| ==> ts[i].end <= size)
    && forall i, j :: 0 <= i < j < |ts| && ts[i].start < ts[i].end && ts[j].start < ts[j].end ==>
      ts[i].end <= ts[j].start
  }

  ghost predicate Apart(spans: seq<Span>) {
    forall j, k :: 0 <= j < k < |spans| ==> spans[j].end <= spans[k].start
  }

  function NonEmpty(spans: seq<Span>): seq<Span> {
    if spans == [] then []
    else
      var last := spans[|spans| - 1];
      NonEmpty(spans[..|spans| - 1]) + (if last.start < last.end then [last] else [])
  }

  lemma {:induction false} NonEmptySnoc(spans: seq<Span>, t: Span)
    ensures NonEmpty(spans + [t]) == NonEmpty(spans) + (if t.start < t.end then [t] else [])
  {
    assert (spans + [t])[..|spans|] == spans;
  }

  lemma {:induction false} SpanProper(ts: Tokens, run: Run, span: Span, size: nat)
    requires IsWhole(ts, run) && IsSpanOf(ts, run, span) && Monotone(ts, size)
    ensures span.start < span.end <= size
  {
    hide Prefix, Entity, Fresh, Weakest;
    RunEntity(ts, run, run.last - 1);
    RunEntity(ts, run, run.first);
  }

  lemma {:induction false} PairApart(ts: Tokens, a: Run, b: Run, s: Span, t: Span, size: nat)
    requires IsWhole(ts, a) && IsSpanOf(ts, a, s) && IsWhole(ts, b) && IsSpanOf(ts, b, t)
    requires a.last <= b.first && Monotone(ts, size)
    ensures s.end <= t.start
  {
    hide Prefix, Entity, Fresh, Weakest;
    RunEntity(ts, a, a.last - 1);
    RunEntity(ts, b, b.first);
  }

  /** Runs give spans in order and apart, none inside out. */
  lemma {:induction false} SpansApart(ts: Tokens, spans: seq<Span>, size: nat)
    requires IsDecoded(ts, spans) && Monotone(ts, size)
    ensures Apart(spans) && forall k :: 0 <= k < |spans| ==> spans[k].start < spans[k].end <= size
  {
    var runs :| IsCut(ts, runs) && AreSpansOf(ts, runs, spans);
    hide IsWhole, IsSpanOf, Monotone;
    forall k | 0 <= k < |spans|
      ensures spans[k].start < spans[k].end <= size
    {
      SpanProper(ts, runs[k], spans[k], size);
    }
    forall j, k | 0 <= j < k < |spans|
      ensures spans[j].end <= spans[k].start
    {
      PairApart(ts, runs[j], runs[k], spans[j], spans[k], size);
    }
  }

  ghost predicate AllTrimmed(bytes: Bytes, raw: seq<Span>, trimmed: seq<Span>) {
    |trimmed| == |raw| && forall k :: 0 <= k < |raw| ==> IsTrimmed(bytes, raw[k], trimmed[k])
  }

  /** The spans trimmed, less those with nothing left. */
  ghost predicate AreKept(bytes: Bytes, raw: seq<Span>, spans: seq<Span>) {
    exists trimmed :: AllTrimmed(bytes, raw, trimmed) && spans == NonEmpty(trimmed)
  }

  /** Non-empty, in order, apart, and with no whitespace at either end. */
  ghost predicate Neat(bytes: Bytes, spans: seq<Span>) {
    Apart(spans)
    && forall k :: 0 <= k < |spans| ==>
      spans[k].start < spans[k].end <= |bytes| && !IsSpace(bytes[spans[k].start]) && !IsSpace(bytes[spans[k].end - 1])
  }

  lemma {:induction false} KeptAreNeat(bytes: Bytes, raw: seq<Span>, trimmed: seq<Span>)
    requires Apart(raw) && AllTrimmed(bytes, raw, trimmed)
    ensures Neat(bytes, NonEmpty(trimmed))
    ensures forall s :: s in NonEmpty(trimmed) ==> s in trimmed
    decreases |raw|
  {
    hide IsTrimmed, Neat;
    if raw == [] {
      NeatNone(bytes);
    } else {
      var n := |raw| - 1;
      var before := NonEmpty(trimmed[..n]);
      KeptAreNeat(bytes, raw[..n], trimmed[..n]);
      TrimmedInside(bytes, raw[n], trimmed[n]);
      forall s | s in before
        ensures s.end <= trimmed[n].start
      {
        assert s in trimmed[..n];
        var k :| 0 <= k < n && trimmed[k] == s;
        TrimmedInside(bytes, raw[k], s);
      }
      assert before + [] == before;
      NeatSnoc(bytes, before, raw[n], trimmed[n]);
    }
  }

  lemma {:induction false} NeatNone(bytes: Bytes)
    ensures Neat(bytes, [])
  {
  }

  lemma {:induction false} TrimmedInside(bytes: Bytes, raw: Span, t: Span)
    requires IsTrimmed(bytes, raw, t)
    ensures raw.start <= t.start <= t.end <= raw.end
  {
  }

  lemma {:induction false} NeatSnoc(bytes: Bytes, spans: seq<Span>, raw: Span, t: Span)
    requires Neat(bytes, spans) && IsTrimmed(bytes, raw, t) && forall s :: s in spans ==> s.end <= t.start
    ensures t.start < t.end ==> Neat(bytes, spans + [t])
  {
  }

  /** The trimming loops of `predict`, and the ones left empty dropped. */
  method TrimAll(bytes: Bytes, raw: seq<Span>) returns (spans: seq<Span>)
    requires forall k :: 0 <= k < |raw| ==> raw[k].start < raw[k].end <= |bytes|
    ensures AreKept(bytes, raw, spans)
  {
    hide IsTrimmed, AllTrimmed, NonEmpty, AreKept;
    spans := [];
    ghost var trimmed: seq<Span> := [];
    TrimmedNone(bytes, raw);
    for k := 0 to |raw|
      invariant AllTrimmed(bytes, raw[..k], trimmed) && spans == NonEmpty(trimmed)
    {
      var t := Trim(bytes, raw[k]);
      TrimmedSnoc(bytes, raw, k, trimmed, t);
      trimmed := trimmed + [t];
      if t.start < t.end {
        spans := spans + [t];
      }
    }
    assert raw[..|raw|] == raw;
    TrimmedKept(bytes, raw, trimmed, spans);
  }

  lemma {:induction false} TrimmedNone(bytes: Bytes, raw: seq<Span>)
    ensures AllTrimmed(bytes, raw[..0], []) && NonEmpty([]) == []
  {
  }

  lemma {:induction false} TrimmedSnoc(bytes: Bytes, raw: seq<Span>, k: nat, trimmed: seq<Span>, t: Span)
    requires k < |raw| && AllTrimmed(bytes, raw[..k], trimmed) && IsTrimmed(bytes, raw[k], t)
    ensures AllTrimmed(bytes, raw[..k + 1], trimmed + [t])
    ensures NonEmpty(trimmed + [t]) == if t.start < t.end then NonEmpty(trimmed) + [t] else NonEmpty(trimmed)
  {
    hide IsTrimmed;
    NonEmptySnoc(trimmed, t);
    assert NonEmpty(trimmed) + [] == NonEmpty(trimmed);
    hide NonEmpty;
  }

  lemma {:induction false} TrimmedKept(bytes: Bytes, raw: seq<Span>, trimmed: seq<Span>, spans: seq<Span>)
    requires AllTrimmed(bytes, raw, trimmed) && spans == NonEmpty(trimmed)
    ensures AreKept(bytes, raw, spans)
  {
    hide AllTrimmed, NonEmpty;
  }

  /** `predict` from the token labels on: the runs' spans, trimmed, the empty ones
      dropped. */
  method Predict(bytes: Bytes, ts: Tokens) returns (spans: seq<Span>)
    requires Monotone(ts, |bytes|)
    ensures Neat(bytes, spans) && exists raw :: IsDecoded(ts, raw) && AreKept(bytes, raw, spans)
  {
    hide IsDecoded, Monotone, Apart, AreKept, Neat;
    var raw := DecodeSpans(ts);
    SpansApart(ts, raw, |bytes|);
    spans := TrimAll(bytes, raw);
    KeptNeat(bytes, raw, spans);
  }

  lemma {:induction false} KeptNeat(bytes: Bytes, raw: seq<Span>, spans: seq<Span>)
    requires Apart(raw) && AreKept(bytes, raw, spans)
    ensures Neat(bytes, spans)
  {
    var trimmed :| AllTrimmed(bytes, raw, trimmed) && spans == NonEmpty(trimmed);
    hide *;
    KeptAreNeat(bytes, raw, trimmed);
  }

  // ---- Encoding and decoding ---------------------------------------------------------

  /** An entity over tokens `first` up to but not `last`. */
  datatype Entry = Entry(first: nat, last: nat, entity: string)

  /** The BIOES tag of token `i` of an entity. */
  function TagOf(e: Entry, i: nat): string {
    (if e.last == e.first + 1 then "S-" else if i == e.first then "B-" else if i + 1 == e.last then "E-" else "I-")
    + e.entity
  }

  /** Entities in order and apart, over tokens with text. */
  ghost predicate WellFormed(ts: Tokens, entries: seq<Entry>) {
    (forall k :: 0 <= k < |entries| ==> entries[k].first < entries[k].last <= |ts|)
    && (forall j, k :: 0 <= j < k < |entries| ==> entries[j].last <= entries[k].first)
    && forall k, i :: 0 <= k < |entries| && entries[k].first <= i < entries[k].last ==> ts[i].start < ts[i].end
  }

  /** The tokens carry the entities' tags, and `O` elsewhere. */
  ghost predicate Encoded(ts: Tokens, entries: seq<Entry>) {
    (forall k, i :: 0 <= k < |entries| && entries[k].first <= i < entries[k].last && i < |ts| ==>
       ts[i].tag == TagOf(entries[k], i))
    && forall i :: 0 <= i < |ts| && ts[i].tag != "O" ==> Covered(entries, i)
  }

  ghost predicate Covered(entries: seq<Entry>, i: nat) {
    exists k :: 0 <= k < |entries| && entries[k].first <= i < entries[k].last
  }

  lemma {:induction false} TagSplits(e: Entry, i: nat)
    requires e.first <= i < e.last
    ensures TagOf(e, i) != "O" && Entity(TagOf(e, i)) == e.entity
    ensures Prefix(TagOf(e, i)) == "B" || Prefix(TagOf(e, i)) == "S" <==> i == e.first
  {
    var tag := TagOf(e, i);
    assert tag[1] == '-' && tag[0] != '-';
    assert Dash(tag) == 1;
    assert tag[2..] == e.entity;
  }

  /** In an entity's tokens, only the first opens a run. */
  lemma {:induction false} EntryOpens(ts: Tokens, entries: seq<Entry>, k: nat, i: nat)
    requires WellFormed(ts, entries) && Encoded(ts, entries) && k < |entries| && entries[k].first <= i < entries[k].last
    ensures Labelled(ts[i]) && Entity(ts[i].tag) == entries[k].entity && (Opens(ts, i) <==> i == entries[k].first)
  {
    hide Prefix, Entity, TagOf;
    TagSplits(entries[k], i);
    if i > entries[k].first {
      TagSplits(entries[k], i - 1);
      assert ts[i - 1].tag == TagOf(entries[k], i - 1);
    }
  }

  function RunsOf(entries: seq<Entry>): (runs: Runs)
    ensures |runs| == |entries|
    ensures forall k :: 0 <= k < |runs| ==> runs[k] == Run(entries[k].first, entries[k].last)
  {
    seq(|entries|, k requires 0 <= k < |entries| => Run(entries[k].first, entries[k].last))
  }

  lemma {:induction false} EntriesCut(ts: Tokens, entries: seq<Entry>)
    requires WellFormed(ts, entries) && Encoded(ts, entries)
    ensures IsCut(ts, RunsOf(entries))
  {
    hide Opens, Prefix, Entity, Fresh, TagOf;
    var runs := RunsOf(entries);
    forall k | 0 <= k < |runs|
      ensures IsWhole(ts, runs[k])
    {
      EntryWhole(ts, entries, k);
    }
    forall i | 0 <= i < |ts| && Opens(ts, i)
      ensures Opened(runs, i)
    {
      OpensLabelled(ts, i);
      assert Covered(entries, i);
      var k :| 0 <= k < |entries| && entries[k].first <= i < entries[k].last;
      EntryOpens(ts, entries, k, i);
      assert runs[k].first == i;
    }
  }

  lemma {:induction false} OpensLabelled(ts: Tokens, i: nat)
    requires i < |ts| && Opens(ts, i)
    ensures ts[i].tag != "O"
  {
  }

  lemma {:induction false} EntryWhole(ts: Tokens, entries: seq<Entry>, k: nat)
    requires WellFormed(ts, entries) && Encoded(ts, entries) && k < |entries|
    ensures IsWhole(ts, Run(entries[k].first, entries[k].last))
  {
    hide Opens, Prefix, Entity, Fresh, TagOf;
    var e := entries[k];
    forall i | e.first <= i < e.last
      ensures Labelled(ts[i]) && (Opens(ts, i) <==> i == e.first)
    {
      EntryOpens(ts, entries, k, i);
    }
    if e.last < |ts| && Labelled(ts[e.last]) {
      assert Covered(entries, e.last);
      var j :| 0 <= j < |entries| && entries[j].first <= e.last < entries[j].last;
      EntryOpens(ts, entries, j, e.last);
    }
  }

  // ---- One way to cut ------------------------------------------------------------------

  lemma {:induction false} SameLast(ts: Tokens, a: Run, b: Run)
    requires IsWhole(ts, a) && IsWhole(ts, b) && a.first == b.first
    ensures a.last == b.last
  {
    hide Prefix, Entity, Fresh, Labelled;
  }

  lemma {:induction false} RunOpened(ts: Tokens, a: Runs, b: Runs, k: nat)
    requires IsCut(ts, a) && IsCut(ts, b) && k < |a|
    ensures Opened(b, a[k].first) && a[k].first < a[k].last && IsWhole(ts, a[k])
    ensures forall i, j :: 0 <= i < j < |a| ==> a[i].last <= a[j].first
  {
    hide Prefix, Entity, Fresh, Labelled;
    assert IsWhole(ts, a[k]);
  }

  /** With the runs before equal, the next of one list is the next of the other. */
  lemma {:induction false} NextAlike(ts: Tokens, a: Runs, b: Runs, k: nat)
    requires IsCut(ts, a) && IsCut(ts, b) && k < |a| && k <= |b|
    requires forall n :: 0 <= n < k ==> a[n] == b[n]
    ensures k < |b| && b[k].first <= a[k].first
  {
    hide IsCut, IsWhole, Opens;
    RunOpened(ts, a, b, k);
    var j :| 0 <= j < |b| && b[j].first == a[k].first;
    RunOpened(ts, b, a, j);
    if k < |b| {
      RunOpened(ts, b, a, k);
    }
  }

  /** There is one way to cut tokens into runs. */
  lemma {:induction false} CutIsUnique(ts: Tokens, a: Runs, b: Runs, k: nat)
    requires IsCut(ts, a) && IsCut(ts, b) && k <= |a| && k <= |b|
    ensures forall n :: 0 <= n < k ==> a[n] == b[n]
    decreases k
  {
    hide IsCut, IsWhole, Opens;
    if k > 0 {
      CutIsUnique(ts, a, b, k - 1);
      NextAlike(ts, a, b, k - 1);
      NextAlike(ts, b, a, k - 1);
      RunOpened(ts, a, b, k - 1);
      RunOpened(ts, b, a, k - 1);
      SameLast(ts, a[k - 1], b[k - 1]);
    }
  }

  /** Decoding is a function of the tokens: there is one list of spans. */
  lemma {:induction false} DecodedIsUnique(ts: Tokens, a: seq<Span>, b: seq<Span>)
    requires IsDecoded(ts, a) && IsDecoded(ts, b)
    ensures a == b
  {
    var cut :| IsCut(ts, cut) && AreSpansOf(ts, cut, a);
    var other :| IsCut(ts, other) && AreSpansOf(ts, other, b);
    CutSameLength(ts, cut, other);
    CutIsUnique(ts, cut, other, |cut|);
    assert cut == other;
    hide IsCut;
    assert forall k :: 0 <= k < |a| ==> IsSpanOf(ts, cut[k], a[k]) && IsSpanOf(ts, other[k], b[k]);
  }

  /** Decoding the tags of any well-formed list of entities gives that list back:
      the same tokens, the same types, neighbours of one type kept apart. */
  lemma {:induction false} DecodingInvertsEncoding(ts: Tokens, entries: seq<Entry>, spans: seq<Span>)
    requires WellFormed(ts, entries) && Encoded(ts, entries) && IsDecoded(ts, spans)
    ensures |spans| == |entries|
    ensures forall k :: 0 <= k < |entries| ==>
      spans[k].entity == entries[k].entity && spans[k].start == ts[entries[k].first].start
      && spans[k].end == ts[entries[k].last - 1].end
      && spans[k].score == Weakest(ts, Run(entries[k].first, entries[k].last))
  {
    var runs :| IsCut(ts, runs) && AreSpansOf(ts, runs, spans);
    hide Prefix, Entity, Fresh, Labelled, Opens, TagOf, Weakest, IsCut, WellFormed, Encoded, IsSpanOf;
    var own := RunsOf(entries);
    EntriesCut(ts, entries);
    CutSameLength(ts, runs, own);
    CutIsUnique(ts, runs, own, |own|);
    assert runs == own;
    forall k | 0 <= k < |entries|
      ensures spans[k].entity == entries[k].entity && spans[k].start == ts[entries[k].first].start
      ensures spans[k].end == ts[entries[k].last - 1].end
      ensures spans[k].score == Weakest(ts, Run(entries[k].first, entries[k].last))
    {
      SpanOfEntry(ts, entries, k, spans[k]);
    }
  }

  lemma {:induction false} SpanOfEntry(ts: Tokens, entries: seq<Entry>, k: nat, span: Span)
    requires WellFormed(ts, entries) && Encoded(ts, entries) && k < |entries|
    requires IsSpanOf(ts, Run(entries[k].first, entries[k].last), span)
    ensures span.entity == entries[k].entity && span.start == ts[entries[k].first].start
    ensures span.end == ts[entries[k].last - 1].end
    ensures span.score == Weakest(ts, Run(entries[k].first, entries[k].last))
  {
    hide Prefix, Entity, Fresh, Labelled, Opens, TagOf, Weakest;
    EntryOpens(ts, entries, k, entries[k].first);
  }

  lemma {:induction false} CutSameLength(ts: Tokens, a: Runs, b: Runs)
    requires IsCut(ts, a) && IsCut(ts, b)
    ensures |a| == |b|
  {
    hide Prefix, Entity, Fresh, Labelled, Opens, IsCut;
    if |a| < |b| {
      CutIsUnique(ts, a, b, |a|);
      NextAlike(ts, b, a, |a|);
    } else if |b| < |a| {
      CutIsUnique(ts, a, b, |b|);
      NextAlike(ts, a, b, |b|);
    }
  }
}
