/** Token ids, the blocks a model state is made of, and the canonical schedule
    of `lfm2d/src/chat_session.rs`: which blocks a transcript's ids are forwarded
    in, read off the ids alone.

    A model state is modelled as the sequence of blocks forwarded into it. That
    is the freest state a deterministic model can have: nothing relates
    forwarding `a + b` to forwarding `a` then `b`, and two states equal here are
    equal in every model (`Forwarded`). */
module Schedule {
  import opened Wrappers
  import opened Template
  import Json
  import Text

  type Token = nat
  type Ids = seq<Token>
  type State = seq<Ids>

  /** `<|im_end|>`. */
  const EOS: Token := 124900
  const CHUNK: nat := 128

  // ---- Blocks --------------------------------------------------------------

  function Flatten(blocks: State): Ids {
    if blocks == [] then [] else blocks[0] + Flatten(blocks[1..])
  }

  /** `slice::chunks`. */
  function Chunked(ids: Ids, size: nat): State
    requires size > 0
    decreases |ids|
  {
    if ids == [] then []
    else if |ids| <= size then [ids]
    else [ids[..size]] + Chunked(ids[size..], size)
  }

  /** Each token forwarded alone, as it is decoded. */
  function Singles(ids: Ids): State {
    if ids == [] then [] else [[ids[0]]] + Singles(ids[1..])
  }

  /** The blocks of a list of segments, each turned into blocks on its own. */
  function Laid(lay: Ids -> State, segments: seq<Ids>): State {
    if segments == [] then [] else lay(segments[0]) + Laid(lay, segments[1..])
  }

  function InChunks(): Ids -> State {
    (segment: Ids) => Chunked(segment, CHUNK)
  }

  /** The canonical prefill of rendered segments: cut in chunks one segment at a
      time. */
  function Segmented(segments: seq<Ids>): State {
    Laid(InChunks(), segments)
  }

  /** What any model computes by forwarding the blocks one after the other. */
  function Forwarded<S>(forward: (Ids, S) -> S, start: S, blocks: State): S {
    if blocks == [] then start else Forwarded(forward, forward(blocks[0], start), blocks[1..])
  }

  /** Continuing from a held state is forwarding its blocks and then the rest,
      in every model. */
  lemma {:induction false} ForwardedSplit<S>(forward: (Ids, S) -> S, start: S, a: State, b: State)
    ensures Forwarded(forward, start, a + b) == Forwarded(forward, Forwarded(forward, start, a), b)
  {
    if a == [] {
      assert a + b == b;
    } else {
      ForwardedSplit(forward, forward(a[0], start), a[1..], b);
      assert (a + b)[1..] == a[1..] + b;
    }
  }

  lemma {:induction false} FlattenSplit(a: State, b: State)
    ensures Flatten(a + b) == Flatten(a) + Flatten(b)
  {
    if a == [] {
      assert a + b == b;
    } else {
      FlattenSplit(a[1..], b);
      assert (a + b)[1..] == a[1..] + b;
      Text.Assoc(a[0], Flatten(a[1..]), Flatten(b));
    }
  }

  lemma {:induction false} ChunkedFlattens(ids: Ids, size: nat)
    requires size > 0
    ensures Flatten(Chunked(ids, size)) == ids
    decreases |ids|
  {
    if |ids| > size {
      ChunkedFlattens(ids[size..], size);
      assert ids == ids[..size] + ids[size..];
    } else if ids != [] {
      assert ids + [] == ids;
    }
  }

  lemma {:induction false} MulNext(a: nat, b: nat, d: nat)
    ensures a < b ==> a * d + d <= b * d
    decreases b
  {
    if a < b {
      MulNext(a, b - 1, d);
      assert b * d == (b - 1) * d + d;
    }
  }

  lemma {:induction false} ModStep(n: nat, size: nat)
    requires 0 < size <= n
    ensures n % size == (n - size) % size
  {
    var a, q := n / size, (n - size) / size;
    assert n == a * size + n % size && n - size == q * size + (n - size) % size;
    assert (q + 1) * size == q * size + size;
    MulNext(a, q + 1, size);
    MulNext(q + 1, a, size);
  }

  lemma {:induction false} ChunkedShort(a: Ids, b: Ids, size: nat)
    requires 0 < |a| < size && b != []
    ensures Chunked(a, size) + Chunked(b, size) != Chunked(a + b, size)
  {
    assert Chunked(a, size) == [a];
    assert |([a] + Chunked(b, size))[0]| < |Chunked(a + b, size)[0]|;
  }

  lemma {:induction false} ChunkedOff(a: Ids, b: Ids, size: nat)
    requires 0 < size <= |a| && b != []
    ensures Chunked(a + b, size) == [a[..size]] + Chunked(a[size..] + b, size)
    ensures Chunked(a, size) == [a[..size]] + Chunked(a[size..], size)
  {
    assert (a + b)[..size] == a[..size] && (a + b)[size..] == a[size..] + b;
    assert |a| == size ==> a[..size] == a && a[size..] == [];
  }

  /** Chunking in two pieces is chunking the whole exactly when the cut falls on a
      chunk's edge. */
  lemma {:induction false} ChunkedJoin(a: Ids, b: Ids, size: nat)
    requires size > 0 && b != []
    ensures Chunked(a, size) + Chunked(b, size) == Chunked(a + b, size) <==> |a| % size == 0
    decreases |a|
  {
    hide Chunked;
    if a == [] {
      ChunkedNone(size);
      assert a + b == b && [] + Chunked(b, size) == Chunked(b, size);
    } else if |a| < size {
      ChunkedShort(a, b, size);
    } else {
      var rest := a[size..];
      ChunkedJoin(rest, b, size);
      ChunkedOff(a, b, size);
      ModStep(|a|, size);
      Text.Assoc([a[..size]], Chunked(rest, size), Chunked(b, size));
      SameHead(a[..size], Chunked(rest, size) + Chunked(b, size), Chunked(rest + b, size));
    }
  }

  lemma {:induction false} ChunkedNone(size: nat)
    requires size > 0
    ensures Chunked([], size) == []
  {
  }

  lemma {:induction false} SameHead(u: Ids, a: State, b: State)
    ensures [u] + a == [u] + b <==> a == b
  {
    if [u] + a == [u] + b {
      Text.DropHead([u], a);
      Text.DropHead([u], b);
    }
  }

  function Lengths(blocks: State): seq<nat> {
    if blocks == [] then [] else [|blocks[0]|] + Lengths(blocks[1..])
  }

  /** Two ways to forward the same ids are one exactly when they cut them in the
      same places. */
  lemma {:induction false} CutsDecide(a: State, b: State)
    requires Flatten(a) == Flatten(b)
    ensures a == b <==> Lengths(a) == Lengths(b)
    decreases |a|
  {
    if a != [] && b != [] && Lengths(a) == Lengths(b) {
      assert Lengths(a)[0] == Lengths(b)[0];
      assert Lengths(a)[1..] == Lengths(b)[1..];
      var ids := Flatten(a);
      Text.DropHead(a[0], Flatten(a[1..]));
      Text.DropHead(b[0], Flatten(b[1..]));
      assert a[0] == ids[..|a[0]|] == b[0];
      CutsDecide(a[1..], b[1..]);
      assert a == [a[0]] + a[1..] && b == [b[0]] + b[1..];
    }
  }

  lemma {:induction false} SinglesFlatten(ids: Ids)
    ensures Flatten(Singles(ids)) == ids
  {
    if ids != [] {
      SinglesFlatten(ids[1..]);
    }
  }

  lemma {:induction false} LaidFlattens(lay: Ids -> State, segments: seq<Ids>)
    requires forall u :: Flatten(lay(u)) == u
    ensures Flatten(Laid(lay, segments)) == Flatten(segments)
  {
    if segments != [] {
      LaidFlattens(lay, segments[1..]);
      FlattenSplit(lay(segments[0]), Laid(lay, segments[1..]));
    }
  }

  lemma {:induction false} SinglesSnoc(ids: Ids, t: Token)
    ensures Singles(ids + [t]) == Singles(ids) + [[t]] && |Singles(ids)| == |ids|
  {
    if ids != [] {
      SinglesSnoc(ids[1..], t);
      assert (ids + [t])[1..] == ids[1..] + [t];
    }
  }

  lemma {:induction false} ChunkedByOne(ids: Ids)
    ensures Chunked(ids, 1) == Singles(ids)
  {
    if |ids| > 1 {
      ChunkedByOne(ids[1..]);
      assert ids[..1] == [ids[0]];
    } else if |ids| == 1 {
      assert ids[1..] == [] && ids == [ids[0]];
    }
  }

  lemma {:induction false} LaidSplit(lay: Ids -> State, a: seq<Ids>, b: seq<Ids>)
    ensures Laid(lay, a + b) == Laid(lay, a) + Laid(lay, b)
  {
    if a == [] {
      assert a + b == b;
    } else {
      LaidSplit(lay, a[1..], b);
      assert (a + b)[1..] == a[1..] + b;
      Text.Assoc(lay(a[0]), Laid(lay, a[1..]), Laid(lay, b));
    }
  }

  lemma {:induction false} LaidOne(lay: Ids -> State, segment: Ids)
    ensures Laid(lay, [segment]) == lay(segment)
  {
    assert lay(segment) + [] == lay(segment);
  }

  // ---- The tokenizer ---------------------------------------------------------

  /** A byte-level tokenizer: `piece` is what one token decodes to. */
  datatype Tokenizer = Tokenizer(encode: string -> Ids, piece: Token -> string)

  function Decode(tok: Tokenizer, ids: Ids): string {
    if ids == [] then "" else tok.piece(ids[0]) + Decode(tok, ids[1..])
  }

  lemma {:induction false} DecodeSplit(tok: Tokenizer, a: Ids, b: Ids)
    ensures Decode(tok, a + b) == Decode(tok, a) + Decode(tok, b)
  {
    if a == [] {
      assert a + b == b;
    } else {
      DecodeSplit(tok, a[1..], b);
      assert (a + b)[1..] == a[1..] + b;
      Text.Assoc(tok.piece(a[0]), Decode(tok, a[1..]), Decode(tok, b));
    }
  }

  function Newline(tok: Tokenizer): Ids {
    tok.encode(AFTER_EOS)
  }

  function Opening(tok: Tokenizer): Ids {
    tok.encode(GENERATION_PROMPT)
  }

  /** Ids up to and with their first EOS, then the newline: one closed turn. */
  predicate IsClosed(tok: Tokenizer, ids: Ids) {
    var n := |Newline(tok)|;
    |ids| > n && ids[|ids| - n..] == Newline(tok) && ids[|ids| - n - 1] == EOS
    && EOS !in ids[..|ids| - n - 1]
  }

  /** What the adjudicator's own load and BPE give: decoding undoes encoding,
      `<|im_end|>` is one token that text never makes otherwise, and the turn
      end's newline has its own ids in place. */
  ghost predicate Faithful(tok: Tokenizer) {
    (forall t :: Decode(tok, tok.encode(t)) == t)
    && (forall t :: Text.Free(t, IM_END) ==> IsClosed(tok, tok.encode(t + TURN_END)))
    && EOS !in tok.encode(BOS) && EOS !in Newline(tok) && EOS !in Opening(tok)
    && |Opening(tok)| < CHUNK
    && tok.piece(EOS) == IM_END
  }

  // ---- Reading segments off the ids --------------------------------------------

  function IndexOf(ids: Ids, t: Token): (i: nat)
    ensures i <= |ids| && (forall j :: 0 <= j < i ==> ids[j] != t) && (i < |ids| ==> ids[i] == t)
  {
    if ids == [] || ids[0] == t then 0 else 1 + IndexOf(ids[1..], t)
  }

  /** Closed turns one after the other; an unclosed rest is one last segment. */
  function Units(tok: Tokenizer, ids: Ids): seq<Ids>
    decreases |ids|
  {
    var end := IndexOf(ids, EOS) + 1 + |Newline(tok)|;
    if ids == [] then []
    else if end >= |ids| then [ids]
    else [ids[..end]] + Units(tok, ids[end..])
  }

  const SYSTEM_HEAD := "<|startoftext|><|im_start|>system\n"

  predicate HasSystem(tok: Tokenizer, ids: Ids) {
    SYSTEM_HEAD <= Decode(tok, ids)
  }

  /** The segments of a transcript: its head, with the system turn when it has
      one, then each turn. */
  function Segments(tok: Tokenizer, ids: Ids): seq<Ids> {
    if HasSystem(tok, ids) then Units(tok, ids)
    else
      var n := |tok.encode(BOS)|;
      if n > |ids| then [ids] else [ids[..n]] + Units(tok, ids[n..])
  }

  /** Whether a closed turn is an assistant's. */
  predicate IsReply(tok: Tokenizer, ids: Ids) {
    GENERATION_PROMPT <= Decode(tok, ids)
  }

  predicate LaidAsReply(tok: Tokenizer, ids: Ids) {
    IsReply(tok, ids) && |Opening(tok)| + |Newline(tok)| <= |ids|
  }

  /** The blocks of one segment of a chat: a generated turn is its opening, each
      token alone up to and with EOS, and the newline; any other is chunked. */
  function ChatBlocks(tok: Tokenizer, segment: Ids): State {
    var o, n := |Opening(tok)|, |Newline(tok)|;
    if LaidAsReply(tok, segment) then
      Chunked(segment[..o], CHUNK) + Singles(segment[o..|segment| - n]) + Chunked(segment[|segment| - n..], CHUNK)
    else Chunked(segment, CHUNK)
  }

  function AsChat(tok: Tokenizer): Ids -> State {
    (segment: Ids) => ChatBlocks(tok, segment)
  }

  lemma {:induction false} ChatBlocksFlatten(tok: Tokenizer, segment: Ids)
    ensures Flatten(ChatBlocks(tok, segment)) == segment
  {
    var o, n := |Opening(tok)|, |Newline(tok)|;
    if LaidAsReply(tok, segment) {
      ReplyFlattens(segment, o, n);
    } else {
      ChunkedFlattens(segment, CHUNK);
    }
    hide Chunked, Singles, LaidAsReply, Flatten;
  }

  lemma {:induction false} ReplyFlattens(segment: Ids, o: nat, n: nat)
    requires o + n <= |segment|
    ensures Flatten(Chunked(segment[..o], CHUNK) + Singles(segment[o..|segment| - n])
                    + Chunked(segment[|segment| - n..], CHUNK)) == segment
  {
    hide Flatten, Chunked, Singles;
    var a, b, c := segment[..o], segment[o..|segment| - n], segment[|segment| - n..];
    assert segment == a + b + c;
    ThreeFlatten(Chunked(a, CHUNK), Singles(b), Chunked(c, CHUNK));
    ChunkedFlattens(a, CHUNK);
    SinglesFlatten(b);
    ChunkedFlattens(c, CHUNK);
  }

  lemma {:induction false} ThreeFlatten(a: State, b: State, c: State)
    ensures Flatten(a + b + c) == Flatten(a) + Flatten(b) + Flatten(c)
  {
    hide Flatten;
    FlattenSplit(a + b, c);
    FlattenSplit(a, b);
  }

  /** The blocks of a transcript are its ids cut up, whichever schedule lays them. */
  lemma {:induction false} StatesFlatten(tok: Tokenizer, ids: Ids)
    requires IsTranscript(tok, ids)
    ensures Flatten(ChatState(tok, ids)) == ids && Flatten(ContextState(tok, ids)) == ids
  {
    forall u: Ids
      ensures Flatten(AsChat(tok)(u)) == u && Flatten(InChunks()(u)) == u
    {
      ChatBlocksFlatten(tok, u);
      ChunkedFlattens(u, CHUNK);
    }
    LaidFlattens(AsChat(tok), Segments(tok, ids));
    LaidFlattens(InChunks(), Segments(tok, ids));
  }

  /** The canonical state of a chat's ids. */
  function ChatState(tok: Tokenizer, ids: Ids): State {
    Laid(AsChat(tok), Segments(tok, ids))
  }

  /** The canonical state of a held context's ids: assistant turns prefilled. */
  function ContextState(tok: Tokenizer, ids: Ids): State {
    Segmented(Segments(tok, ids))
  }

  /** A closed turn of some role but the system's. */
  predicate IsTurn(tok: Tokenizer, ids: Ids) {
    IsClosed(tok, ids)
    && ("<|im_start|>user\n" <= Decode(tok, ids) || "<|im_start|>tool\n" <= Decode(tok, ids) || IsReply(tok, ids))
  }

  predicate AllTurns(tok: Tokenizer, turns: seq<Ids>) {
    forall i :: 0 <= i < |turns| ==> IsTurn(tok, turns[i])
  }

  /** A head: the BOS alone, or with a system turn. */
  predicate IsHead(tok: Tokenizer, ids: Ids) {
    ids == tok.encode(BOS) || (IsClosed(tok, ids) && HasSystem(tok, ids))
  }

  /** A head and closed turns after it. */
  predicate IsTranscript(tok: Tokenizer, ids: Ids) {
    var segments := Segments(tok, ids);
    |segments| > 0 && IsHead(tok, segments[0]) && AllTurns(tok, segments[1..]) && Flatten(segments) == ids
  }

  // ---- The segments are the ones that were joined ---------------------------------

  lemma {:induction false} IndexOfClosed(tok: Tokenizer, u: Ids, rest: Ids, s: Ids)
    requires IsClosed(tok, u) && s == u + rest
    ensures IndexOf(s, EOS) + 1 + |Newline(tok)| == |u|
  {
    var at := |u| - |Newline(tok)| - 1;
    var i := IndexOf(s, EOS);
    assert s[at] == u[at] == EOS;
    assert forall j :: 0 <= j < at ==> s[j] == u[..at][j];
  }

  lemma {:induction false} UnitsOfTurns(tok: Tokenizer, turns: seq<Ids>)
    requires forall i :: 0 <= i < |turns| ==> IsClosed(tok, turns[i])
    ensures Units(tok, Flatten(turns)) == turns
  {
    if turns != [] {
      UnitsOfTurns(tok, turns[1..]);
      NoEmptyRest(tok, turns[1..]);
      UnitAhead(tok, turns[0], Flatten(turns[1..]), Flatten(turns));
      assert turns == [turns[0]] + turns[1..];
    }
    hide Units, IsClosed;
  }

  /** A closed turn ahead is the first unit. */
  lemma {:induction false} UnitAhead(tok: Tokenizer, u: Ids, rest: Ids, s: Ids)
    requires IsClosed(tok, u) && s == u + rest
    ensures Units(tok, s) == [u] + Units(tok, rest)
  {
    IndexOfClosed(tok, u, rest, s);
    hide IsClosed;
    Text.DropHead(u, rest);
    assert s[..|u|] == u;
    assert rest == [] ==> s == u && [u] + [] == [u];
  }

  lemma {:induction false} NoEmptyRest(tok: Tokenizer, turns: seq<Ids>)
    requires forall i :: 0 <= i < |turns| ==> IsClosed(tok, turns[i])
    ensures turns != [] ==> Flatten(turns) != []
  {
    if turns != [] {
      assert |Flatten(turns)| >= |turns[0]|;
    }
  }

  /** A turn of another role does not start like the system turn. */
  lemma {:induction false} NoSystemAhead(tok: Tokenizer, turns: seq<Ids>, ids: Ids)
    requires Faithful(tok) && AllTurns(tok, turns) && ids == tok.encode(BOS) + Flatten(turns)
    ensures !HasSystem(tok, ids)
  {
    var d := Decode(tok, ids);
    DecodeSplit(tok, tok.encode(BOS), Flatten(turns));
    if turns == [] {
      assert d == BOS + "" == BOS;
    } else {
      var u := turns[0];
      var more := Decode(tok, Flatten(turns[1..]));
      DecodeSplit(tok, u, Flatten(turns[1..]));
      assert d == BOS + (Decode(tok, u) + more);
      RoleDiffers(Decode(tok, u), more, d);
    }
  }

  lemma {:induction false} RoleDiffers(t: string, more: string, d: string)
    requires "<|im_start|>user\n" <= t || "<|im_start|>tool\n" <= t || GENERATION_PROMPT <= t
    requires d == BOS + (t + more)
    ensures !(SYSTEM_HEAD <= d)
  {
    var at := |BOS| + |IM_START|;
    assert d[at] == t[|IM_START|] && d[at] in ['u', 't', 'a'];
    assert SYSTEM_HEAD[at] == 's';
  }

  /** The segments of a head and turns are exactly that head and those turns. */
  lemma {:induction false} SegmentsOf(tok: Tokenizer, head: Ids, turns: seq<Ids>, ids: Ids)
    requires Faithful(tok) && IsHead(tok, head) && AllTurns(tok, turns) && ids == head + Flatten(turns)
    ensures Segments(tok, ids) == [head] + turns && IsTranscript(tok, ids)
  {
    var all := [head] + turns;
    assert all[1..] == turns && Flatten(all) == ids;
    if head == tok.encode(BOS) {
      NoSystemAhead(tok, turns, ids);
      UnitsOfTurns(tok, turns);
      Text.DropHead(head, Flatten(turns));
      assert ids[..|head|] == head;
    } else {
      DecodeSplit(tok, head, Flatten(turns));
      assert SYSTEM_HEAD <= Decode(tok, ids);
      UnitsOfTurns(tok, all);
    }
  }

  /** Appending closed turns to a transcript appends exactly their segments. */
  lemma {:induction false} TranscriptGrows(tok: Tokenizer, ids: Ids, turns: seq<Ids>, all: Ids)
    requires Faithful(tok) && IsTranscript(tok, ids) && AllTurns(tok, turns) && all == ids + Flatten(turns)
    ensures IsTranscript(tok, all) && Segments(tok, all) == Segments(tok, ids) + turns
  {
    var segments := Segments(tok, ids);
    var head, before := segments[0], segments[1..];
    assert segments == [head] + before;
    FlattenSplit(before, turns);
    Text.Assoc(head, Flatten(before), Flatten(turns));
    assert AllTurns(tok, before + turns);
    SegmentsOf(tok, head, before + turns, all);
    Text.Assoc([head], before, turns);
  }

  /** ... and exactly their blocks, whichever schedule lays them. */
  lemma {:induction false} StateGrows(tok: Tokenizer, lay: Ids -> State, ids: Ids, turns: seq<Ids>, all: Ids)
    requires Faithful(tok) && IsTranscript(tok, ids) && AllTurns(tok, turns) && all == ids + Flatten(turns)
    ensures IsTranscript(tok, all)
    ensures Laid(lay, Segments(tok, all)) == Laid(lay, Segments(tok, ids)) + Laid(lay, turns)
  {
    TranscriptGrows(tok, ids, turns, all);
    LaidSplit(lay, Segments(tok, ids), turns);
  }

  /** Two ways to split the same ids into a head and turns are one: the segments
      are a function of the ids, though generated turns may hold any token but
      an early EOS. */
  lemma {:induction false} SplitIsUnique(tok: Tokenizer, head: Ids, turns: seq<Ids>, head': Ids, turns': seq<Ids>)
    requires Faithful(tok) && IsHead(tok, head) && IsHead(tok, head') && AllTurns(tok, turns) && AllTurns(tok, turns')
    requires head + Flatten(turns) == head' + Flatten(turns')
    ensures head == head' && turns == turns'
  {
    SegmentsOf(tok, head, turns, head + Flatten(turns));
    SegmentsOf(tok, head', turns', head + Flatten(turns));
    assert ([head] + turns)[0] == ([head'] + turns')[0];
    assert ([head] + turns)[1..] == ([head'] + turns')[1..];
  }

  // ---- Rendered and generated turns are turns ----------------------------------------

  lemma {:induction false} FramedIsClosed(tok: Tokenizer, role: string, body: string, t: string)
    requires Faithful(tok) && '\n' !in role && '<' !in role && Text.Free(body, IM_END)
    requires t == Framed(role, body)
    ensures IsClosed(tok, tok.encode(t))
  {
    var line := role + "\n" + body;
    RoleLine(role, body);
    StartAloneFree();
    Text.FreeJoin(IM_START, line, IM_END);
    var inside := IM_START + line;
    assert t == inside + TURN_END;
  }

  lemma {:induction false} FramedStart(role: string, body: string, t: string)
    requires t == Framed(role, body) && role != ""
    ensures IM_START + role + "\n" <= t && t[|IM_START|] == role[0]
  {
    assert t == IM_START + role + "\n" + (body + TURN_END);
  }

  /** A rendered message is a closed turn, an assistant's exactly when its role
      says so. */
  lemma {:induction false} FramedIsTurn(tok: Tokenizer, role: string, body: string, t: string)
    requires Faithful(tok) && role in {"user", "tool", "assistant"} && Text.Free(body, IM_END)
    requires t == Framed(role, body)
    ensures IsTurn(tok, tok.encode(t)) && Decode(tok, tok.encode(t)) == t
    ensures IsReply(tok, tok.encode(t)) <==> role == "assistant"
  {
    hide IsClosed, Text.Free, Framed;
    FramedIsClosed(tok, role, body, t);
    FramedStart(role, body, t);
    assert Decode(tok, tok.encode(t)) == t;
    assert GENERATION_PROMPT[|IM_START|] == 'a';
  }

  lemma {:induction false} StartAloneFree()
    ensures Text.Free(IM_START, IM_END)
  {
    forall i
      ensures !Text.At(IM_START, i, IM_END)
    {
      if 0 <= i && i + |IM_END| <= |IM_START| {
        assert IM_START[i..i + |IM_END|][5] == IM_START[i + 5];
        assert IM_START[i..i + |IM_END|][0] == IM_START[i];
      }
    }
  }

  /** A rendered head is a head. */
  lemma {:induction false} RenderedHead(tok: Tokenizer, system: string, tools: seq<Json.Value>, t: string)
    requires Faithful(tok) && RenderHead(system, tools) == Success(t)
    ensures IsHead(tok, tok.encode(t)) && Decode(tok, tok.encode(t)) == t
  {
    var prompt := Prompt(system, tools).value;
    assert Decode(tok, tok.encode(t)) == t;
    if prompt != "" {
      PromptClean(system, tools);
      CleanHasNoEnd(prompt);
      SystemHead(prompt, t);
      var inside := BOS + IM_START + ("system" + "\n" + prompt);
      assert t == inside + TURN_END;
    }
  }

  lemma {:induction false} SystemHead(prompt: string, t: string)
    requires Text.Free(prompt, IM_END) && t == BOS + Framed("system", prompt)
    ensures SYSTEM_HEAD <= t
    ensures Text.Free(BOS + IM_START + ("system" + "\n" + prompt), IM_END)
  {
    RoleLine("system", prompt);
    StartsFree();
    Text.FreeJoin(BOS + IM_START, "system" + "\n" + prompt, IM_END);
    assert t == SYSTEM_HEAD + (prompt + TURN_END);
  }

  lemma {:induction false} StartsFree()
    ensures Text.Free(BOS + IM_START, IM_END)
  {
    var s := BOS + IM_START;
    forall i
      ensures !Text.At(s, i, IM_END)
    {
      if 0 <= i && i + |IM_END| <= |s| {
        assert s[i..i + |IM_END|][5] == s[i + 5];
        assert s[i..i + |IM_END|][0] == s[i];
      }
    }
  }

  /** A rendered message is a closed turn that decodes to its text. */
  lemma {:induction false} RenderedTurn(tok: Tokenizer, alnum: char -> bool, m: Message, t: string)
    requires Faithful(tok) && Render(alnum, m) == Success(t)
    ensures IsTurn(tok, tok.encode(t)) && Decode(tok, tok.encode(t)) == t
    ensures IsReply(tok, tok.encode(t)) <==> m.Assistant?
  {
    BodyFree(alnum, m);
    FramedIsTurn(tok, Role(m), Body(alnum, m).value, t);
  }

  /** A turn generated up to EOS and closed by the newline is a reply, and its
      canonical blocks are the ones generating it forwarded. */
  lemma {:induction false} GeneratedTurn(tok: Tokenizer, generated: Ids, u: Ids)
    requires Faithful(tok) && EOS !in generated && u == Opening(tok) + (generated + [EOS]) + Newline(tok)
    ensures IsTurn(tok, u) && IsReply(tok, u)
    ensures ChatBlocks(tok, u)
         == Chunked(Opening(tok), CHUNK) + Singles(generated + [EOS]) + Chunked(Newline(tok), CHUNK)
    ensures Decode(tok, u) == GENERATION_PROMPT + Decode(tok, generated + [EOS]) + AFTER_EOS
  {
    var o, n := Opening(tok), Newline(tok);
    var before := o + generated;
    assert u == before + [EOS] + n;
    assert u[..|u| - |n| - 1] == before && u[|u| - |n|..] == n;
    DecodeSplit(tok, o + (generated + [EOS]), n);
    DecodeSplit(tok, o, generated + [EOS]);
    assert u[..|o|] == o && u[|o|..|u| - |n|] == generated + [EOS];
  }

  // ---- A chat and a context of the same ids --------------------------------------------

  lemma {:induction false} OpeningNonempty(tok: Tokenizer)
    requires Faithful(tok)
    ensures Opening(tok) != [] && Newline(tok) != []
  {
    assert Decode(tok, Opening(tok)) == GENERATION_PROMPT;
    assert Decode(tok, Newline(tok)) == AFTER_EOS;
  }

  /** A generated turn's first block is its opening alone; prefilled, it is longer. */
  lemma {:induction false} ReplyFirstBlock(tok: Tokenizer, u: Ids, rest: State)
    requires Faithful(tok) && LaidAsReply(tok, u)
    ensures var chat := ChatBlocks(tok, u) + rest; var context := Chunked(u, CHUNK) + rest;
      chat != [] && context != [] && |chat[0]| < |context[0]|
  {
    OpeningNonempty(tok);
    var o := |Opening(tok)|;
    assert Chunked(u[..o], CHUNK) == [u[..o]];
    assert |Chunked(u, CHUNK)[0]| > o;
  }

  /** The canonical states of a chat and of a context with the same segments
      are the same exactly when no segment is a reply. */
  lemma {:induction false} SchedulesAgree(tok: Tokenizer, segments: seq<Ids>, rest: State, rest': State)
    requires Faithful(tok)
    ensures (forall u :: u in segments ==> !LaidAsReply(tok, u)) ==>
      Laid(AsChat(tok), segments) == Segmented(segments)
    ensures (exists u :: u in segments && LaidAsReply(tok, u)) ==>
      Laid(AsChat(tok), segments) + rest != Segmented(segments) + rest'
  {
    if segments != [] {
      var u, more := segments[0], segments[1..];
      SchedulesAgree(tok, more, rest, rest');
      var chat, context := Laid(AsChat(tok), more), Segmented(more);
      Text.Assoc(ChatBlocks(tok, u), chat, rest);
      Text.Assoc(Chunked(u, CHUNK), context, rest');
      if LaidAsReply(tok, u) {
        ReplyFirstBlock(tok, u, chat + rest);
        ReplyFirstBlock(tok, u, context + rest');
      } else if chat + rest != context + rest' {
        DropHeadsDiffer(Chunked(u, CHUNK), chat + rest, context + rest');
      }
    }
  }

  lemma {:induction false} DropHeadsDiffer(a: State, b: State, c: State)
    requires b != c
    ensures a + b != a + c
  {
    if a + b == a + c {
      Text.DropHead(a, b);
      Text.DropHead(a, c);
    }
  }

  /** A chat checkpoint and a held context of the same ids are different states
      exactly when some turn of theirs was generated. */
  lemma {:induction false} ChatAndContextDiffer(tok: Tokenizer, ids: Ids)
    requires Faithful(tok)
    ensures ChatState(tok, ids) == ContextState(tok, ids)
      <==> forall u :: u in Segments(tok, ids) ==> !LaidAsReply(tok, u)
  {
    SchedulesAgree(tok, Segments(tok, ids), [], []);
    assert ChatState(tok, ids) + [] == ChatState(tok, ids);
    assert ContextState(tok, ids) + [] == ContextState(tok, ids);
  }
}
