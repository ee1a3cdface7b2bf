/** What the adjudicator holds and serves, as values: the checkpoints and cache
    entries with what each must be, the prompts a request stands for, and the
    answers a daemon with empty caches gives (`lfm2d/src/adjudicator.rs`). */
module Serving {
  import opened Wrappers
  import opened Budgets
  import opened Schedule
  import opened Decoding
  import opened Specs
  import opened StateStores
  import Json
  import Template
  import Text

  /** The failures that are the caller's leaving or the deadline, not the request's. */
  predicate Stops(e: Failure) {
    e.Cancelled? || e.Deadline?
  }

  predicate Stopped<T>(r: Result<T, Failure>) {
    r.Failure? && Stops(r.error)
  }

  // ---- Checkpoints -----------------------------------------------------------

  /** `checkpoint_id` and `context_id`: injective in the ids, and apart. */
  datatype Id = ChatId(ids: Ids) | ContextId(ids: Ids)

  datatype Kind = ChatTurn | Context

  datatype Checkpoint = Checkpoint(kind: Kind, ids: Ids, text: string, state: State)

  type Held = map<Id, Checkpoint>

  /** What an id stands for, whoever made it and from what. */
  function Canonical(m: Model, id: Id): Checkpoint {
    match id
    case ChatId(ids) => Checkpoint(ChatTurn, ids, Decode(m.tok, ids), ChatState(m.tok, ids))
    case ContextId(ids) => Checkpoint(Context, ids, Decode(m.tok, ids), ContextState(m.tok, ids))
  }

  predicate HeldOk(m: Model, id: Id, c: Checkpoint) {
    c == Canonical(m, id) && IsTranscript(m.tok, id.ids)
  }

  ghost predicate AllHeldOk(m: Model, held: Held) {
    forall id :: id in held ==> HeldOk(m, id, held[id])
  }

  // ---- Loaded specs ------------------------------------------------------------

  /** What loading a spec gives. */
  ghost predicate SpecOk(m: Model, s: LoadedSpec) {
    s.prefixIds == m.tok.encode(s.prefixText) && s.prefixIds != [] && s.prefix == Chunked(s.prefixIds, CHUNK)
    && (s.grammar.Some? ==> EmissionOrdered(m, s.grammar.value, s.fields))
  }

  /** Ids are hashes of the content: two specs of one id differ in name only. */
  ghost predicate AllSpecsOk(m: Model, loaded: set<LoadedSpec>) {
    (forall s :: s in loaded ==> SpecOk(m, s))
    && forall s, t :: s in loaded && t in loaded && s.id == t.id ==> SameContent(s, t)
  }

  predicate SameContent(s: LoadedSpec, t: LoadedSpec) {
    s.(name := t.name) == t
  }

  ghost predicate Names(loaded: set<LoadedSpec>, id: string) {
    exists s :: s in loaded && s.id == id
  }

  function UserTurn(s: LoadedSpec, input: string): string {
    "<|im_start|>user\n" + input + "<|im_end|>\n<|im_start|>assistant\n" + s.reasoning
  }

  /** The content of a prefix that is one system turn. */
  function Block(s: LoadedSpec): Option<string> {
    var t, n := s.prefixText, |SYSTEM_HEAD|;
    if SYSTEM_HEAD <= t && Text.EndsWith(t[n..], Template.TURN_END) then
      Some(t[n..|t| - |Template.TURN_END|])
    else None
  }

  function TailHead(block: string): string {
    "<|im_start|>user\n" + block + "\n\n"
  }

  lemma {:induction false} UserTurnIsFramed(s: LoadedSpec, input: string)
    ensures UserTurn(s, input) == Template.Framed("user", input) + (Template.GENERATION_PROMPT + s.reasoning)
  {
    var start, end, opening: string := "<|im_start|>user\n", Template.TURN_END, Template.GENERATION_PROMPT;
    assert "<|im_end|>\n<|im_start|>assistant\n" == end + opening;
    FramedAsUser(input, start, end);
    Pieces(start, input, end, opening, s.reasoning);
  }

  lemma {:induction false} FramedAsUser(input: string, start: string, end: string)
    requires start == "<|im_start|>user\n" && end == Template.TURN_END
    ensures Template.Framed("user", input) == start + input + end
  {
    assert start == Template.IM_START + ("user" + "\n");
    Pieces(Template.IM_START, "user" + "\n", input, end, "");
  }

  lemma {:induction false} Pieces(a: string, b: string, c: string, d: string, e: string)
    ensures a + b + (c + d) + e == a + b + c + (d + e) && a + (b + c) + d == a + b + c + d
    ensures a + b + c + (d + e) == a + (b + c + d) + e
  {
  }

  /** The block is what stands between the system turn's start and its end. */
  lemma {:induction false} BlockIs(s: LoadedSpec, block: string)
    ensures Block(s) == Some(block) <==> s.prefixText == SYSTEM_HEAD + (block + Template.TURN_END)
  {
    var start, end: string := SYSTEM_HEAD, Template.TURN_END;
    var t := s.prefixText;
    if t == start + (block + end) {
      Text.DropHead(start, block + end);
      Text.DropHead(block, end);
      var after := t[|start|..];
      assert after == block + end && after[|block|..|block| + |end|] == end;
      assert t[|start|..|t| - |end|] == after[..|block|] == block;
    }
    if Block(s) == Some(block) {
      var after := t[|start|..];
      assert after[|after| - |end|..|after|] == end && block == after[..|after| - |end|];
      assert t == start + after && after == block + end;
    }
  }

  // ---- Cache entries -------------------------------------------------------------

  datatype CacheKey =
    | ReadyKey(spec: string, prompt: Ids)
    | DescribedKey(spec: string, prompt: Ids, field: string)
    | TailKey(spec: string, checkpoint: Id)

  datatype Cached =
    | ReadyPrompt(ids: Ids, state: State, logits: State)
    | Described(prompt: Ids, field: string, slot: Slot)
    | TailPrefix(len: nat, state: State)

  datatype Group = ReadyOf(spec: string) | DescribedOf(spec: string)

  type Cache = map<CacheKey, Cached>

  const DESCRIBED_CACHE_CAPACITY := 16

  /** One description made: for which spec and prompt, and along which blocks. */
  datatype Path = Path(spec: string, prompt: Ids, blocks: State)

  /** The blocks a plain prompt is prefilled in: after the resident prefix, or
      from nothing when the caller wants it cold. */
  function PlainPath(s: LoadedSpec, ids: Ids, useCache: bool): State {
    if useCache && |s.prefixIds| <= |ids| then s.prefix + Chunked(ids[|s.prefixIds|..], CHUNK) else Chunked(ids, CHUNK)
  }

  /** A checkpoint's state with the spec's head forwarded after it. */
  predicate TailOf(m: Model, s: LoadedSpec, held: Held, checkpoint: Id, state: State, len: nat) {
    checkpoint in held && Block(s).Some?
    && var head := m.tok.encode(TailHead(Block(s).value));
       state == held[checkpoint].state + Chunked(head, CHUNK) && len == |checkpoint.ids| + |head|
  }

  ghost predicate Fits(m: Model, s: LoadedSpec, held: Held, paths: set<Path>, key: CacheKey, value: Cached) {
    match key
    case ReadyKey(_, prompt) =>
      value.ReadyPrompt? && value.ids == prompt && value.logits == value.state
      && s.prefixIds <= prompt && value.state == PlainPath(s, prompt, true)
    case DescribedKey(_, prompt, field) =>
      value.Described? && value.prompt == prompt && value.field == field
      && Path(s.id, prompt, PathOf(value.slot)) in paths
      && IsFirst(m, Begin(m, s.grammar, prompt, PathOf(value.slot)), field, value.slot)
    case TailKey(_, checkpoint) =>
      value.TailPrefix? && TailOf(m, s, held, checkpoint, value.state, value.len)
  }

  /** No orphan, and the value is the one its key stands for: the spec is loaded
      and a tail's checkpoint is held. */
  ghost predicate EntryOk(
      m: Model, loaded: set<LoadedSpec>, held: Held, paths: set<Path>, key: CacheKey, value: Cached) {
    Names(loaded, key.spec)
    && forall s ::
         s in loaded && s.id == key.spec ==> Fits(m, s, held, paths, key, value)
  }

  ghost predicate CacheOk(m: Model, loaded: set<LoadedSpec>, held: Held, paths: set<Path>, cache: Cache) {
    forall k ::
      k in cache ==> EntryOk(m, loaded, held, paths, k, cache[k])
  }

  // ---- What keeps the cache ------------------------------------------------------

  lemma {:induction false} SameSpecFits(
      m: Model, s: LoadedSpec, t: LoadedSpec, held: Held, paths: set<Path>, key: CacheKey, value: Cached)
    requires SameContent(s, t) && Fits(m, s, held, paths, key, value)
    ensures Fits(m, t, held, paths, key, value)
  {
    assert t.id == s.id && t.prefixIds == s.prefixIds && t.prefix == s.prefix && t.grammar == s.grammar;
    assert t.prefixText == s.prefixText;
  }

  /** A value that fits one loaded spec of its key is an entry. */
  lemma {:induction false} EntryOf(
      m: Model, loaded: set<LoadedSpec>, held: Held, paths: set<Path>, s: LoadedSpec, key: CacheKey, value: Cached)
    requires AllSpecsOk(m, loaded) && s in loaded && s.id == key.spec && Fits(m, s, held, paths, key, value)
    ensures EntryOk(m, loaded, held, paths, key, value)
  {
    forall t | t in loaded && t.id == key.spec
      ensures Fits(m, t, held, paths, key, value)
    {
      SameSpecFits(m, s, t, held, paths, key, value);
    }
  }

  lemma {:induction false} CacheAdmits(
      m: Model, loaded: set<LoadedSpec>, held: Held, paths: set<Path>,
      before: Cache, after: Cache, key: CacheKey, value: Cached, evicted: seq<CacheKey>)
    requires CacheOk(m, loaded, held, paths, before) && EntryOk(m, loaded, held, paths, key, value)
    requires Grown(before, after, key, value, evicted)
    ensures CacheOk(m, loaded, held, paths, after)
  {
  }

  /** More descriptions made and more checkpoints held leave every entry good. */
  lemma {:induction false} CacheStays(
      m: Model, loaded: set<LoadedSpec>, held: Held, more: Held, paths: set<Path>, longer: set<Path>, cache: Cache)
    requires CacheOk(m, loaded, held, paths, cache) && paths <= longer
    requires forall k :: k in cache && k.TailKey? && k.checkpoint in held ==>
      k.checkpoint in more && more[k.checkpoint] == held[k.checkpoint]
    ensures CacheOk(m, loaded, more, longer, cache)
  {
    forall k, s | k in cache && s in loaded && s.id == k.spec
      ensures Fits(m, s, more, longer, k, cache[k])
    {
      assert EntryOk(m, loaded, held, paths, k, cache[k]);
    }
  }

  function WithoutSpec(cache: Cache, gone: string): Cache {
    map k | k in cache && k.spec != gone :: cache[k]
  }

  /** A spec gone, its entries gone with it. */
  lemma {:induction false} SpecGone(
      m: Model, loaded: set<LoadedSpec>, left: set<LoadedSpec>, gone: string,
      held: Held, paths: set<Path>, cache: Cache, kept: Cache)
    requires CacheOk(m, loaded, held, paths, cache)
    requires forall s :: s in left <==> s in loaded && s.id != gone
    requires kept == WithoutSpec(cache, gone)
    ensures CacheOk(m, left, held, paths, kept)
  {
    forall k | k in kept
      ensures EntryOk(m, left, held, paths, k, kept[k])
    {
      assert EntryOk(m, loaded, held, paths, k, cache[k]);
      var s :| s in loaded && s.id == k.spec;
      assert s in left;
    }
  }

  lemma {:induction false} SpecLoaded(
      m: Model, loaded: set<LoadedSpec>, spec: LoadedSpec, held: Held, paths: set<Path>, cache: Cache)
    requires CacheOk(m, loaded, held, paths, cache) && !Names(loaded, spec.id)
    ensures CacheOk(m, loaded + {spec}, held, paths, cache)
  {
    forall k | k in cache
      ensures EntryOk(m, loaded + {spec}, held, paths, k, cache[k])
    {
      assert EntryOk(m, loaded, held, paths, k, cache[k]);
      var s :| s in loaded && s.id == k.spec;
      assert s in loaded + {spec};
      assert k.spec != spec.id;
    }
  }

  predicate OfCheckpoint(k: CacheKey, gone: seq<Id>) {
    k.TailKey? && k.checkpoint in gone
  }

  function WithoutTails(cache: Cache, gone: seq<Id>): Cache {
    map k | k in cache && !OfCheckpoint(k, gone) :: cache[k]
  }

  lemma {:induction false} ForgetNone(cache: Cache)
    ensures WithoutTails(cache, []) == cache
  {
  }

  lemma {:induction false} ForgetOneMore(cache: Cache, gone: seq<Id>, i: nat, after: Cache)
    requires i < |gone|
    requires var left := WithoutTails(cache, gone[..i]);
      after == map k | k in left && !OfCheckpoint(k, [gone[i]]) :: left[k]
    ensures after == WithoutTails(cache, gone[..i + 1])
  {
    assert gone[..i + 1] == gone[..i] + [gone[i]];
  }

  /** Checkpoints gone, their tail prefixes gone with them. */
  lemma {:induction false} CheckpointsGone(
      m: Model, loaded: set<LoadedSpec>, held: Held, left: Held, gone: seq<Id>, paths: set<Path>,
      cache: Cache, kept: Cache)
    requires CacheOk(m, loaded, held, paths, cache)
    requires kept == WithoutTails(cache, gone)
    requires forall id :: id in held && id !in gone ==> id in left && left[id] == held[id]
    ensures CacheOk(m, loaded, left, paths, kept)
  {
    assert CacheOk(m, loaded, held, paths, kept) by {
      forall k | k in kept
        ensures EntryOk(m, loaded, held, paths, k, kept[k])
      {
        assert EntryOk(m, loaded, held, paths, k, cache[k]);
      }
    }
    CacheStays(m, loaded, held, left, paths, paths, kept);
  }

  // ---- Opinion reads ---------------------------------------------------------------

  /** A question resolved against the menu: the field and how many fields the
      schema emits before it. */
  datatype Question = Question(field: string, at: nat)

  datatype Read = Read(
    spec: string, questions: seq<Question>, input: string, context: Option<Id>, useCache: bool)

  /** A prompt's ids and the blocks they are prefilled in. */
  datatype Prompted = Prompted(ids: Ids, blocks: State)

  /** The handler's `resolve_all`: every question names a field at its place. */
  predicate Asked(s: LoadedSpec, questions: seq<Question>) {
    forall i :: 0 <= i < |questions| ==>
      questions[i].at < |s.fields| && s.fields[questions[i].at] == questions[i].field
  }

  predicate InOrder(questions: seq<Question>) {
    forall i :: 0 < i < |questions| ==> questions[i - 1].at < questions[i].at
  }

  function Fields(questions: seq<Question>): (fields: seq<string>)
    ensures |fields| == |questions|
    ensures forall i :: 0 <= i < |fields| ==> fields[i] == questions[i].field
  {
    seq(|questions|, i requires 0 <= i < |questions| => questions[i].field)
  }

  function LastField(q: Read): string
    requires q.questions != []
  {
    q.questions[|q.questions| - 1].field
  }

  /** `describe_budget`. */
  function DescribeBudget(fields: nat, remaining: nat): (r: nat)
    ensures r <= remaining && (r == remaining || r >= 512) && (r == remaining || r >= 64 * fields)
    ensures r < remaining ==> r == 512 || r == 64 * fields
  {
    var floor := if 64 * fields > 512 then 64 * fields else 512;
    if floor < remaining then floor else remaining
  }

  predicate Resumable(s: LoadedSpec, ids: Ids) {
    s.prefixIds <= ids && |ids| > |s.prefixIds|
  }

  /** A read's ids: the spec's own prompt, or a checkpoint's with the read turn
      after it. */
  function ReadIds(m: Model, s: LoadedSpec, held: Held, q: Read): Result<Ids, Failure> {
    if q.context.None? then
      var ids := m.tok.encode(s.prefixText + UserTurn(s, q.input));
      if |ids| + 2 >= m.contextLimit then Failure(BadRequest) else Success(ids)
    else if s.tools then Failure(BadRequest)
    else if q.context.value !in held then Failure(NotFound)
    else if Block(s).None? then Failure(Internal)
    else
      var turn := m.tok.encode(UserTurn(s, Block(s).value + "\n\n" + q.input));
      var ids := held[q.context.value].ids + turn;
      if !(m.tok.encode(TailHead(Block(s).value)) <= turn) || |ids| + 2 >= m.contextLimit then Failure(BadRequest)
      else Success(ids)
  }

  /** The prompt of a read: its ids, and the blocks a daemon with empty caches
      prefills them in. A checkpoint's are continued by the read turn in two
      segments. */
  function PromptOf(m: Model, s: LoadedSpec, held: Held, q: Read): Result<Prompted, Failure> {
    match ReadIds(m, s, held, q)
    case Failure(e) => Failure(e)
    case Success(ids) =>
      if q.context.None? then
        if Resumable(s, ids) then Success(Prompted(ids, PlainPath(s, ids, q.useCache))) else Failure(BadRequest)
      else if q.useCache then
        var head := m.tok.encode(TailHead(Block(s).value));
        var turn := m.tok.encode(UserTurn(s, Block(s).value + "\n\n" + q.input));
        Success(Prompted(ids, held[q.context.value].state + Chunked(head, CHUNK) + Chunked(turn[|head|..], CHUNK)))
      else Success(Prompted(ids, Chunked(ids, CHUNK)))
  }

  /** A plain read's ids are those of the spec's prefix, the input in a user turn
      and the opening of the reply; refused only for their length. */
  lemma {:induction false} PlainPrompt(m: Model, s: LoadedSpec, held: Held, q: Read, ids: Ids)
    requires Faithful(m.tok) && q.context.None?
    ensures ReadIds(m, s, held, q) == Success(ids)
      <==> ids == m.tok.encode(
             s.prefixText + (Template.Framed("user", q.input) + (Template.GENERATION_PROMPT + s.reasoning)))
           && |ids| + 2 < m.contextLimit
    ensures ReadIds(m, s, held, q) == Success(ids) ==>
      Decode(m.tok, ids)
        == s.prefixText + (Template.Framed("user", q.input) + (Template.GENERATION_PROMPT + s.reasoning))
    ensures ReadIds(m, s, held, q).Failure? ==> ReadIds(m, s, held, q) == Failure(BadRequest)
  {
    UserTurnIsFramed(s, q.input);
    hide UserTurn, Template.Framed, Decode;
  }

  /** A tail read's are the checkpoint's, then the spec's block and the input in one
      user turn and the opening of the reply. */
  lemma {:induction false} TailPrompt(m: Model, s: LoadedSpec, held: Held, q: Read, id: Id, block: string, ids: Ids)
    requires Faithful(m.tok) && AllHeldOk(m, held) && q.context == Some(id)
    requires s.prefixText == SYSTEM_HEAD + (block + Template.TURN_END)
    ensures var turn :=
        Template.Framed("user", block + "\n\n" + q.input) + (Template.GENERATION_PROMPT + s.reasoning);
      (ReadIds(m, s, held, q) == Success(ids)
       <==> !s.tools && id in held && ids == id.ids + m.tok.encode(turn) && |ids| + 2 < m.contextLimit
            && m.tok.encode(TailHead(block)) <= m.tok.encode(turn))
      && (ReadIds(m, s, held, q) == Success(ids) ==> Decode(m.tok, ids) == held[id].text + turn)
    ensures ReadIds(m, s, held, q).Failure? ==>
      ReadIds(m, s, held, q) == Failure(if !s.tools && id !in held then NotFound else BadRequest)
  {
    var input := block + "\n\n" + q.input;
    BlockIs(s, block);
    UserTurnIsFramed(s, input);
    if id in held {
      assert HeldOk(m, id, held[id]);
      DecodeSplit(m.tok, id.ids, m.tok.encode(UserTurn(s, input)));
    }
    hide UserTurn, Template.Framed, Decode, Block, IsTranscript, ChatState, ContextState;
  }

  /** Without such a block a tail read is refused. */
  lemma {:induction false} TailNeedsBlock(m: Model, s: LoadedSpec, held: Held, q: Read)
    requires q.context.Some? && forall block :: s.prefixText != SYSTEM_HEAD + (block + Template.TURN_END)
    ensures ReadIds(m, s, held, q)
      == Failure(if s.tools then BadRequest else if q.context.value !in held then NotFound else Internal)
  {
    if Block(s).Some? {
      BlockIs(s, Block(s).value);
    }
    hide Block;
  }

  function BudgetOf(m: Model, ids: Ids, questions: seq<Question>): nat
    requires questions != []
  {
    DescribeBudget(questions[|questions| - 1].at + 1, if |ids| <= m.contextLimit then m.contextLimit - |ids| else 0)
  }

  /** The blocks of a prompt: cold, the ids in chunks; else a plain read's go on from
      the spec's prefix, and a tail read's from the checkpoint, in two segments. */
  lemma {:induction false} PromptBlocks(m: Model, s: LoadedSpec, held: Held, q: Read, p: Prompted)
    requires AllHeldOk(m, held) && SpecOk(m, s) && PromptOf(m, s, held, q) == Success(p)
    ensures !q.useCache ==> p.blocks == Chunked(p.ids, CHUNK)
    ensures q.useCache && q.context.None? ==>
      s.prefixIds < p.ids
      && p.blocks == Chunked(s.prefixIds, CHUNK) + Chunked(p.ids[|s.prefixIds|..], CHUNK)
    ensures q.useCache && q.context.Some? ==>
      q.context.value in held && Block(s).Some? && q.context.value.ids <= p.ids
      && var head, rest := m.tok.encode(TailHead(Block(s).value)), p.ids[|q.context.value.ids|..];
         head <= rest
         && p.blocks == held[q.context.value].state + Chunked(head, CHUNK) + Chunked(rest[|head|..], CHUNK)
  {
    hide Chunked, Block, TailHead, UserTurn, IsTranscript, ChatState, ContextState, Decode, EmissionOrdered;
    if q.context.Some? {
      assert HeldOk(m, q.context.value, held[q.context.value]);
    }
  }

  /** Refusals before any prompt is built, and the spec. */
  function Asking(boot: SpecList, uploaded: SpecList, q: Read): (r: Result<LoadedSpec, Failure>)
    ensures r.Success? ==>
      Named(boot, uploaded, q.spec) == Some(r.value) && r.value.grammar.Some? && Asked(r.value, q.questions)
      && q.questions != [] && InOrder(q.questions)
    ensures r.Success?
      <==> q.questions != [] && InOrder(q.questions)
           && match Named(boot, uploaded, q.spec)
              case None => false
              case Some(s) => s.grammar.Some? && Asked(s, q.questions)
    ensures r == Failure(NotFound) <==>
      q.questions != [] && InOrder(q.questions) && Named(boot, uploaded, q.spec).None?
  {
    if q.questions == [] then Failure(BadRequest)
    else if !InOrder(q.questions) then Failure(Internal)
    else match Named(boot, uploaded, q.spec)
      case None => Failure(NotFound)
      case Some(s) => if s.grammar.None? || !Asked(s, q.questions) then Failure(BadRequest) else Success(s)
  }

  /** The slots a daemon with empty caches describes. */
  function FreshSlots(m: Model, s: LoadedSpec, held: Held, q: Read): Result<seq<Slot>, Failure>
    requires q.questions != []
  {
    match PromptOf(m, s, held, q)
    case Failure(e) => Failure(e)
    case Success(p) =>
      Describe(m, Begin(m, s.grammar, p.ids, p.blocks), Fields(q.questions), BudgetOf(m, p.ids, q.questions))
  }

  /** The read as a daemon with empty caches answers it. */
  function FreshRead(m: Model, boot: SpecList, uploaded: SpecList, held: Held, q: Read): Result<seq<Slot>, Failure> {
    match Asking(boot, uploaded, q)
    case Failure(e) => Failure(e)
    case Success(s) => FreshSlots(m, s, held, q)
  }

  /** A read on empty caches finds the slots that its run meets within the budget,
      and only those. */
  lemma {:induction false} FreshSlotsMet(m: Model, s: LoadedSpec, held: Held, q: Read, steps: seq<nat>)
    requires q.questions != [] && PromptOf(m, s, held, q).Success?
    requires var p := PromptOf(m, s, held, q).value;
      Meets(m, Begin(m, s.grammar, p.ids, p.blocks), Fields(q.questions), steps)
    ensures var p := PromptOf(m, s, held, q).value;
      Sum(steps) <= BudgetOf(m, p.ids, q.questions) ==>
        FreshSlots(m, s, held, q)
          == Success(SlotsMet(m, Begin(m, s.grammar, p.ids, p.blocks), Fields(q.questions), steps))
  {
    hide PromptOf, Meets, SlotsMet, Begin, Describe;
    var p := PromptOf(m, s, held, q).value;
    if Sum(steps) <= BudgetOf(m, p.ids, q.questions) {
      DescribesWhatItMeets(m, Begin(m, s.grammar, p.ids, p.blocks), Fields(q.questions), steps,
                           BudgetOf(m, p.ids, q.questions));
    }
  }

  lemma {:induction false} FreshSlotsWereMet(m: Model, s: LoadedSpec, held: Held, q: Read) returns (steps: seq<nat>)
    requires q.questions != [] && FreshSlots(m, s, held, q).Success?
    ensures PromptOf(m, s, held, q).Success?
    ensures var p := PromptOf(m, s, held, q).value;
      var c := Begin(m, s.grammar, p.ids, p.blocks);
      Meets(m, c, Fields(q.questions), steps) && Sum(steps) <= BudgetOf(m, p.ids, q.questions)
      && FreshSlots(m, s, held, q).value == SlotsMet(m, c, Fields(q.questions), steps)
  {
    hide PromptOf, Meets, SlotsMet, Begin, Describe;
    var p := PromptOf(m, s, held, q).value;
    steps := DescribedWasMet(m, Begin(m, s.grammar, p.ids, p.blocks), Fields(q.questions),
                             BudgetOf(m, p.ids, q.questions));
  }

  // ---- Why a cached description answers a read -----------------------------------------

  lemma {:induction false} RisingAt(questions: seq<Question>, i: nat, j: nat)
    requires InOrder(questions) && i < j < |questions|
    ensures questions[i].at < questions[j].at
    decreases j - i
  {
    assert questions[j - 1].at < questions[j].at;
    if i < j - 1 {
      RisingAt(questions, i, j - 1);
    }
  }

  /** Questions asked in order are emitted in order. */
  lemma {:induction false} AskedInOrder(m: Model, s: LoadedSpec, questions: seq<Question>)
    requires SpecOk(m, s) && s.grammar.Some? && Asked(s, questions) && InOrder(questions)
    ensures EmissionOrdered(m, s.grammar.value, Fields(questions))
  {
    var g, fields := s.grammar.value, Fields(questions);
    forall i, j, ids: Ids, n |
      0 <= i < j < |fields| && 0 <= n <= |ids| && Walk(m, g, m.start(g), ids).Some? && AtSlot(m, fields[j], ids[..n])
      ensures !AtSlot(m, fields[i], ids)
    {
      RisingAt(questions, i, j);
      assert s.fields[questions[i].at] == fields[i] && s.fields[questions[j].at] == fields[j];
    }
  }

  /** A description that succeeds finds each slot first. */
  lemma {:induction false} DescribedFirst(
      m: Model, g: Grammar, ids: Ids, blocks: State, fields: seq<string>, budget: nat)
    requires EmissionOrdered(m, g, fields) && fields != []
    requires Describe(m, Begin(m, Some(g), ids, blocks), fields, budget).Success?
    ensures AllFirst(m, Begin(m, Some(g), ids, blocks), fields,
                     Describe(m, Begin(m, Some(g), ids, blocks), fields, budget).value)
  {
    var c := Begin(m, Some(g), ids, blocks);
    BeginTracks(m, Some(g), ids, blocks);
    assert Walking(m, c, fields[0], 0, c);
    DescribeFindsFirst(m, g, ids, blocks, fields, 0, c, budget);
  }

  /** Slots held for a prompt's fields, each first along its own path. */
  ghost predicate HeldFirst(m: Model, s: LoadedSpec, ids: Ids, fields: seq<string>, slots: seq<Slot>) {
    |slots| == |fields|
    && forall i :: 0 <= i < |slots| ==> IsFirst(m, Begin(m, s.grammar, ids, PathOf(slots[i])), fields[i], slots[i])
  }

  /** Held slots are the ones a fresh read finds exactly when each was described
      along the blocks the read prefills. */
  lemma {:induction false} HeldAreFresh(
      m: Model, s: LoadedSpec, questions: seq<Question>, ids: Ids, blocks: State, slots: seq<Slot>, budget: nat)
    requires SpecOk(m, s) && s.grammar.Some? && Asked(s, questions) && InOrder(questions) && questions != []
    requires HeldFirst(m, s, ids, Fields(questions), slots)
    requires Describe(m, Begin(m, s.grammar, ids, blocks), Fields(questions), budget).Success?
    ensures slots == Describe(m, Begin(m, s.grammar, ids, blocks), Fields(questions), budget).value
      <==> forall i :: 0 <= i < |slots| ==> PathOf(slots[i]) == blocks
  {
    var fields := Fields(questions);
    var found := Describe(m, Begin(m, s.grammar, ids, blocks), fields, budget).value;
    AskedInOrder(m, s, questions);
    DescribedFirst(m, s.grammar.value, ids, blocks, fields, budget);
    forall i | 0 <= i < |slots|
      ensures slots[i] == found[i] <==> PathOf(slots[i]) == blocks
    {
      HeldSlotIsFresh(m, s.grammar, ids, PathOf(slots[i]), blocks, fields[i], slots[i], found[i]);
    }
  }

  /** The described key does not record the path. A chat checkpoint and a held
      context of the same ids give a read the same prompt, so the same key, along
      blocks that differ exactly when some turn of theirs was generated. */
  lemma {:induction false} SamePromptOtherPath(
      m: Model, s: LoadedSpec, held: Held, q: Read, ids: Ids, chat: Prompted, context: Prompted)
    requires Faithful(m.tok) && AllHeldOk(m, held) && ChatId(ids) in held && ContextId(ids) in held && q.useCache
    requires PromptOf(m, s, held, q.(context := Some(ChatId(ids)))) == Success(chat)
    requires PromptOf(m, s, held, q.(context := Some(ContextId(ids)))) == Success(context)
    ensures chat.ids == context.ids
    ensures chat.blocks == context.blocks <==> forall u :: u in Segments(m.tok, ids) ==> !LaidAsReply(m.tok, u)
  {
    assert HeldOk(m, ChatId(ids), held[ChatId(ids)]) && HeldOk(m, ContextId(ids), held[ContextId(ids)]);
    hide ChatState, ContextState, Segments, LaidAsReply, IsTranscript, Faithful;
    ChatAndContextDiffer(m.tok, ids);
    var head := m.tok.encode(TailHead(Block(s).value));
    var turn := m.tok.encode(UserTurn(s, Block(s).value + "\n\n" + q.input));
    var a, b := ChatState(m.tok, ids), ContextState(m.tok, ids);
    var rest := Chunked(head, CHUNK) + Chunked(turn[|head|..], CHUNK);
    Text.Assoc(a, Chunked(head, CHUNK), Chunked(turn[|head|..], CHUNK));
    Text.Assoc(b, Chunked(head, CHUNK), Chunked(turn[|head|..], CHUNK));
    Text.SameTail(a, b, rest);
  }

  /** Whatever path leads to a prompt, its blocks are the prompt's ids cut up. */
  lemma {:induction false} PathFlattens(m: Model, s: LoadedSpec, held: Held, q: Read)
    requires AllHeldOk(m, held) && SpecOk(m, s) && PromptOf(m, s, held, q).Success?
    ensures Flatten(PromptOf(m, s, held, q).value.blocks) == PromptOf(m, s, held, q).value.ids
  {
    hide AllHeldOk, SpecOk, TailHead, UserTurn, Block, Flatten, Chunked, PlainPath, Resumable;
    var p := PromptOf(m, s, held, q).value;
    if q.context.None? {
      PlainFlattens(m, s, p.ids, q.useCache);
    } else if q.useCache {
      var head := m.tok.encode(TailHead(Block(s).value));
      var turn := m.tok.encode(UserTurn(s, Block(s).value + "\n\n" + q.input));
      HeldFlattens(m, held, q.context.value);
      TailFlattens(held[q.context.value].state, held[q.context.value].ids, head, turn);
    } else {
      ChunkedFlattens(p.ids, CHUNK);
    }
  }

  lemma {:induction false} PlainFlattens(m: Model, s: LoadedSpec, ids: Ids, useCache: bool)
    requires SpecOk(m, s) && Resumable(s, ids)
    ensures Flatten(PlainPath(s, ids, useCache)) == ids
  {
    var rest := ids[|s.prefixIds|..];
    hide Chunked, Flatten;
    ChunkedFlattens(ids, CHUNK);
    ChunkedFlattens(s.prefixIds, CHUNK);
    ChunkedFlattens(rest, CHUNK);
    FlattenSplit(s.prefix, Chunked(rest, CHUNK));
    assert ids == s.prefixIds + rest;
  }

  lemma {:induction false} HeldFlattens(m: Model, held: Held, id: Id)
    requires AllHeldOk(m, held) && id in held
    ensures Flatten(held[id].state) == held[id].ids
  {
    assert HeldOk(m, id, held[id]);
    StatesFlatten(m.tok, id.ids);
    hide ChatState, ContextState, IsTranscript;
  }

  lemma {:induction false} TailFlattens(state: State, ids: Ids, head: Ids, turn: Ids)
    requires Flatten(state) == ids && head <= turn
    ensures Flatten(state + Chunked(head, CHUNK) + Chunked(turn[|head|..], CHUNK)) == ids + turn
  {
    var rest := turn[|head|..];
    ChunkedFlattens(head, CHUNK);
    ChunkedFlattens(rest, CHUNK);
    hide Chunked, Flatten;
    FlattenSplit(state + Chunked(head, CHUNK), Chunked(rest, CHUNK));
    FlattenSplit(state, Chunked(head, CHUNK));
    assert turn == head + rest;
    Text.Assoc(ids, head, rest);
  }

  /** Two reads of one prompt prefill it along the same blocks exactly when they
      cut it in the same places. */
  lemma {:induction false} PathsAgree(m: Model, s: LoadedSpec, held: Held, q: Read, r: Read)
    requires AllHeldOk(m, held) && SpecOk(m, s) && PromptOf(m, s, held, q).Success? && PromptOf(m, s, held, r).Success?
    requires PromptOf(m, s, held, q).value.ids == PromptOf(m, s, held, r).value.ids
    ensures PromptOf(m, s, held, q).value.blocks == PromptOf(m, s, held, r).value.blocks
      <==> Lengths(PromptOf(m, s, held, q).value.blocks) == Lengths(PromptOf(m, s, held, r).value.blocks)
  {
    PathFlattens(m, s, held, q);
    PathFlattens(m, s, held, r);
    CutsDecide(PromptOf(m, s, held, q).value.blocks, PromptOf(m, s, held, r).value.blocks);
    hide PromptOf;
  }

  /** A plain read and a tail read on a held context of the spec's own system turn
      may have one prompt, so one key, with no generated turn between them. Their
      blocks agree exactly when the spec's head fills whole chunks. */
  lemma {:induction false} PlainAndTailDiffer(m: Model, s: LoadedSpec, held: Held, plain: Read, tail: Read)
    requires Faithful(m.tok) && AllHeldOk(m, held) && SpecOk(m, s) && IsHead(m.tok, s.prefixIds)
    requires plain.context.None? && tail.context == Some(ContextId(s.prefixIds)) && plain.useCache && tail.useCache
    requires PromptOf(m, s, held, plain).Success? && PromptOf(m, s, held, tail).Success?
    requires PromptOf(m, s, held, plain).value.ids == PromptOf(m, s, held, tail).value.ids
    ensures Segments(m.tok, s.prefixIds) == [s.prefixIds]
    ensures PromptOf(m, s, held, plain).value.blocks == PromptOf(m, s, held, tail).value.blocks
      <==> |m.tok.encode(TailHead(Block(s).value))| % CHUNK == 0
  {
    hide Chunked, IsHead, Faithful, Segments, ContextState, UserTurn, TailHead, Block, Resumable;
    var head := m.tok.encode(TailHead(Block(s).value));
    var turn := m.tok.encode(UserTurn(s, Block(s).value + "\n\n" + tail.input));
    assert HeldOk(m, ContextId(s.prefixIds), held[ContextId(s.prefixIds)]);
    HeadAlone(m.tok, s.prefixIds);
    HeadIsShort(m, s, tail.input);
    TwoPieces(s.prefix, s.prefixIds, head, turn);
  }

  lemma {:induction false} TwoPieces(prefix: State, prefixIds: Ids, head: Ids, turn: Ids)
    requires head <= turn && |head| < |turn|
    ensures prefix + Chunked((prefixIds + turn)[|prefixIds|..], CHUNK)
        == prefix + Chunked(head, CHUNK) + Chunked(turn[|head|..], CHUNK)
      <==> |head| % CHUNK == 0
  {
    var rest := turn[|head|..];
    assert turn == head + rest;
    Text.DropHead(prefixIds, turn);
    ChunkedJoin(head, rest, CHUNK);
    Text.Assoc(prefix, Chunked(head, CHUNK), Chunked(rest, CHUNK));
    SameTails(prefix, Chunked(head, CHUNK) + Chunked(rest, CHUNK), Chunked(turn, CHUNK));
    hide Chunked;
  }

  lemma {:induction false} SameTails(a: State, b: State, c: State)
    ensures a + b == a + c <==> b == c
  {
    if a + b == a + c {
      Text.DropHead(a, b);
      Text.DropHead(a, c);
    }
  }

  lemma {:induction false} HeadAlone(tok: Tokenizer, head: Ids)
    requires Faithful(tok) && IsHead(tok, head)
    ensures Segments(tok, head) == [head] && ContextState(tok, head) == Chunked(head, CHUNK)
  {
    assert head + [] == head && [head] + [] == [head];
    SegmentsOf(tok, head, [], head);
    LaidOne(InChunks(), head);
  }

  /** The spec's head is not all of a read turn, nor nothing. */
  lemma {:induction false} HeadIsShort(m: Model, s: LoadedSpec, input: string)
    requires Faithful(m.tok) && Block(s).Some?
    requires m.tok.encode(TailHead(Block(s).value)) <= m.tok.encode(UserTurn(s, Block(s).value + "\n\n" + input))
    ensures 0 < |m.tok.encode(TailHead(Block(s).value))|
          < |m.tok.encode(UserTurn(s, Block(s).value + "\n\n" + input))|
  {
    var head, turn := TailHead(Block(s).value), UserTurn(s, Block(s).value + "\n\n" + input);
    assert |head| < |turn|;
    EncodedNonempty(m.tok, head);
    ShorterIds(m.tok, head, turn);
  }

  lemma {:induction false} ShorterIds(tok: Tokenizer, a: string, b: string)
    requires Faithful(tok) && a != b && tok.encode(a) <= tok.encode(b)
    ensures |tok.encode(a)| < |tok.encode(b)|
  {
    assert Decode(tok, tok.encode(a)) == a && Decode(tok, tok.encode(b)) == b;
    var x, y := tok.encode(a), tok.encode(b);
    assert y[..|x|] == x && y[..|y|] == y;
  }

  lemma {:induction false} EncodedNonempty(tok: Tokenizer, t: string)
    requires Faithful(tok) && t != ""
    ensures tok.encode(t) != []
  {
    assert Decode(tok, tok.encode(t)) == t;
  }

  /** A hit is every field's slot; some of them are none. */
  predicate Hit(cache: Cache, spec: string, prompt: Ids, fields: seq<string>) {
    forall f :: f in fields ==>
      DescribedKey(spec, prompt, f) in cache && cache[DescribedKey(spec, prompt, f)].Described?
  }

  lemma {:induction false} LastOf(q: Read)
    requires q.questions != []
    ensures LastField(q) == Fields(q.questions)[|Fields(q.questions)| - 1] && LastField(q) in Fields(q.questions)
  {
    assert Fields(q.questions)[|q.questions| - 1] in Fields(q.questions);
  }

  lemma {:induction false} HitLast(cache: Cache, spec: string, prompt: Ids, q: Read)
    requires q.questions != [] && Hit(cache, spec, prompt, Fields(q.questions))
    ensures DescribedKey(spec, prompt, LastField(q)) in cache
  {
    LastOf(q);
  }

  function SlotsHeld(cache: Cache, spec: string, prompt: Ids, fields: seq<string>): (slots: seq<Slot>)
    requires Hit(cache, spec, prompt, fields)
    ensures |slots| == |fields|
    ensures forall i :: 0 <= i < |slots| ==> slots[i] == cache[DescribedKey(spec, prompt, fields[i])].slot
  {
    seq(|fields|, i requires 0 <= i < |fields| => cache[DescribedKey(spec, prompt, fields[i])].slot)
  }

  /** An answer to a read: the slots its questions are scored at, and whether
      they were held. */
  datatype Answer = Answer(slots: seq<Slot>, described: bool)

  /** What a read answers on this cache. */
  function AnswerOf(m: Model, s: LoadedSpec, held: Held, cache: Cache, q: Read): Result<Answer, Failure>
    requires q.questions != []
  {
    match ReadIds(m, s, held, q)
    case Failure(e) => Failure(e)
    case Success(ids) =>
      if q.useCache && Hit(cache, s.id, ids, Fields(q.questions)) then
        Success(Answer(SlotsHeld(cache, s.id, ids, Fields(q.questions)), true))
      else
        match FreshSlots(m, s, held, q)
        case Failure(e) => Failure(e)
        case Success(slots) => Success(Answer(slots, false))
  }

  /** What a read is answered, unless it is stopped: decided by the cache as it
      was when the read came. */
  predicate Answers(
      m: Model, boot: SpecList, uploaded: SpecList, held: Held, cache: Cache, q: Read, r: Result<Answer, Failure>)
  {
    match Asking(boot, uploaded, q)
    case Failure(e) => r == Failure(e)
    case Success(s) => Stopped(r) || r == AnswerOf(m, s, held, cache, q)
  }

  /** Whatever this read finds held was described along the blocks it would
      itself prefill. */
  predicate OwnPath(m: Model, s: LoadedSpec, held: Held, cache: Cache, q: Read) {
    PromptOf(m, s, held, q).Success?
    && var p := PromptOf(m, s, held, q).value;
       q.useCache && Hit(cache, s.id, p.ids, Fields(q.questions)) ==>
         forall f :: f in Fields(q.questions) ==> PathOf(cache[DescribedKey(s.id, p.ids, f)].slot) == p.blocks
  }

  /** The described cache is invisible exactly to a read whose held slots were
      described along the blocks it would prefill itself. */
  lemma {:induction false} ReadIsFresh(
      m: Model, loaded: set<LoadedSpec>, paths: set<Path>, s: LoadedSpec, held: Held, cache: Cache, q: Read)
    requires s in loaded && SpecOk(m, s) && s.grammar.Some? && CacheOk(m, loaded, held, paths, cache)
    requires q.questions != [] && Asked(s, q.questions) && InOrder(q.questions)
    requires FreshSlots(m, s, held, q).Success?
    ensures AnswerOf(m, s, held, cache, q).Success?
    ensures AnswerOf(m, s, held, cache, q).value.slots == FreshSlots(m, s, held, q).value
      <==> OwnPath(m, s, held, cache, q)
  {
    var p, fields := PromptOf(m, s, held, q).value, Fields(q.questions);
    PromptIds(m, s, held, q);
    hide ReadIds, PromptOf, Describe, Hit, IsFirst, HeldFirst, CacheOk, SpecOk, Begin, PathOf;
    if q.useCache && Hit(cache, s.id, p.ids, fields) {
      var slots := SlotsHeld(cache, s.id, p.ids, fields);
      HitIsFirst(m, loaded, paths, s, held, cache, p.ids, fields);
      HeldAreFresh(m, s, q.questions, p.ids, p.blocks, slots, BudgetOf(m, p.ids, q.questions));
      AllPaths(cache, s.id, p.ids, fields, p.blocks);
    }
  }

  lemma {:induction false} PromptIds(m: Model, s: LoadedSpec, held: Held, q: Read)
    requires PromptOf(m, s, held, q).Success?
    ensures ReadIds(m, s, held, q) == Success(PromptOf(m, s, held, q).value.ids)
  {
    hide ReadIds, PlainPath;
  }

  lemma {:induction false} AllPaths(cache: Cache, spec: string, prompt: Ids, fields: seq<string>, blocks: State)
    requires Hit(cache, spec, prompt, fields)
    ensures (forall i :: 0 <= i < |fields| ==> PathOf(SlotsHeld(cache, spec, prompt, fields)[i]) == blocks)
      <==> forall f :: f in fields ==> PathOf(cache[DescribedKey(spec, prompt, f)].slot) == blocks
  {
    hide PathOf;
    var slots := SlotsHeld(cache, spec, prompt, fields);
    assert forall i :: 0 <= i < |fields| ==> fields[i] in fields;
    if forall i :: 0 <= i < |fields| ==> PathOf(slots[i]) == blocks {
      forall f | f in fields
        ensures PathOf(cache[DescribedKey(spec, prompt, f)].slot) == blocks
      {
        var i :| 0 <= i < |fields| && fields[i] == f;
        assert slots[i] == cache[DescribedKey(spec, prompt, f)].slot;
      }
    }
  }

  lemma {:induction false} HitIsFirst(
      m: Model, loaded: set<LoadedSpec>, paths: set<Path>, s: LoadedSpec, held: Held, cache: Cache,
      prompt: Ids, fields: seq<string>)
    requires s in loaded && CacheOk(m, loaded, held, paths, cache) && Hit(cache, s.id, prompt, fields)
    ensures HeldFirst(m, s, prompt, fields, SlotsHeld(cache, s.id, prompt, fields))
    ensures forall f :: f in fields ==> Path(s.id, prompt, PathOf(cache[DescribedKey(s.id, prompt, f)].slot)) in paths
  {
    hide IsFirst, PathOf, Begin;
    forall f | f in fields
      ensures Fits(m, s, held, paths, DescribedKey(s.id, prompt, f), cache[DescribedKey(s.id, prompt, f)])
    {
      assert EntryOk(m, loaded, held, paths, DescribedKey(s.id, prompt, f), cache[DescribedKey(s.id, prompt, f)]);
    }
    assert forall i :: 0 <= i < |fields| ==> fields[i] in fields;
  }

  /** Every description of this spec and prompt so far ran along these blocks. */
  ghost predicate OnePath(paths: set<Path>, spec: string, prompt: Ids, blocks: State) {
    forall p :: p in paths && p.spec == spec && p.prompt == prompt ==> p.blocks == blocks
  }

  /** So it is while one path has led to each spec and prompt. */
  lemma {:induction false} OnePathIsOwn(
      m: Model, loaded: set<LoadedSpec>, paths: set<Path>, s: LoadedSpec, held: Held, cache: Cache, q: Read)
    requires s in loaded && CacheOk(m, loaded, held, paths, cache) && PromptOf(m, s, held, q).Success?
    requires OnePath(paths, s.id, PromptOf(m, s, held, q).value.ids, PromptOf(m, s, held, q).value.blocks)
    ensures OwnPath(m, s, held, cache, q)
  {
    var p, fields := PromptOf(m, s, held, q).value, Fields(q.questions);
    if Hit(cache, s.id, p.ids, fields) {
      HitIsFirst(m, loaded, paths, s, held, cache, p.ids, fields);
    }
    hide PromptOf, CacheOk, Hit;
  }

  // ---- Generation --------------------------------------------------------------------------

  datatype Generate = Generate(spec: string, input: string, maxTokens: nat, useCache: bool)

  /** The spec and the prompt of a generation. */
  function GenerateIds(m: Model, boot: SpecList, uploaded: SpecList, q: Generate)
      : (r: Result<(LoadedSpec, Ids), Failure>)
    ensures r.Success? ==> Named(boot, uploaded, q.spec) == Some(r.value.0)
  {
    match Named(boot, uploaded, q.spec)
    case None => Failure(NotFound)
    case Some(s) =>
      var ids := m.tok.encode(s.prefixText + UserTurn(s, q.input));
      if |ids| + q.maxTokens > m.contextLimit then Failure(BadRequest) else Success((s, ids))
  }

  /** A generation's ids are those of the spec the key names: its prefix, the input
      in a user turn and the opening of the reply. */
  lemma {:induction false} GeneratePrompt(
      m: Model, boot: SpecList, uploaded: SpecList, q: Generate, s: LoadedSpec, ids: Ids)
    requires Faithful(m.tok)
    ensures GenerateIds(m, boot, uploaded, q) == Success((s, ids))
      <==> Named(boot, uploaded, q.spec) == Some(s) && |ids| + q.maxTokens <= m.contextLimit
           && ids == m.tok.encode(
                s.prefixText + (Template.Framed("user", q.input) + (Template.GENERATION_PROMPT + s.reasoning)))
    ensures GenerateIds(m, boot, uploaded, q) == Success((s, ids)) ==>
      Decode(m.tok, ids)
        == s.prefixText + (Template.Framed("user", q.input) + (Template.GENERATION_PROMPT + s.reasoning))
    ensures GenerateIds(m, boot, uploaded, q).Failure? ==>
      GenerateIds(m, boot, uploaded, q)
        == Failure(if Named(boot, uploaded, q.spec).None? then NotFound else BadRequest)
  {
    if Named(boot, uploaded, q.spec).Some? {
      UserTurnIsFramed(Named(boot, uploaded, q.spec).value, q.input);
    }
    hide UserTurn, Template.Framed, Decode, Named;
  }

  type Entries = seq<Entry<CacheKey, Group, Cached>>

  predicate IsDescription(e: Entry<CacheKey, Group, Cached>, spec: string, prompt: Ids) {
    e.id.DescribedKey? && e.id.spec == spec && e.id.prompt == prompt && e.value.Described?
  }

  /** `StateCache::deepest`: the description of a prompt with the most tokens, the
      most recently used of equals. */
  function DeepestOf(es: Entries, spec: string, prompt: Ids): Option<Slot> {
    if es == [] then None
    else
      var e, before := es[|es| - 1], DeepestOf(es[..|es| - 1], spec, prompt);
      if IsDescription(e, spec, prompt)
         && (before.None? || |e.value.slot.generated| >= |before.value.generated|) then Some(e.value.slot)
      else before
  }

  /** It is one of them, and none has more tokens. */
  lemma {:induction false} DeepestIsDeepest(es: Entries, spec: string, prompt: Ids)
    ensures var d := DeepestOf(es, spec, prompt);
      (d.Some? ==> exists e :: e in es && IsDescription(e, spec, prompt) && e.value.slot == d.value)
      && forall e :: e in es && IsDescription(e, spec, prompt) ==>
        d.Some? && |e.value.slot.generated| <= |d.value.generated|
    decreases |es|
  {
    if es != [] {
      var before, e := es[..|es| - 1], es[|es| - 1];
      DeepestIsDeepest(before, spec, prompt);
      assert es == before + [e];
    }
  }

  /** The description a generation resumes from. */
  function Route(es: Entries, s: LoadedSpec, ids: Ids, q: Generate): Option<Slot> {
    var d := DeepestOf(es, s.id, ids);
    if q.useCache && d.Some? && |d.value.generated| < q.maxTokens then d else None
  }

  /** What a generation writes, and whether it resumed: along the held
      description's own blocks, or along the prompt's. */
  function GenerationOf(m: Model, s: LoadedSpec, es: Entries, ids: Ids, q: Generate)
      : Result<((Ids, bool), bool), Failure> {
    match Route(es, s, ids, q)
    case Some(slot) => Flagged(Generated(m, Begin(m, s.grammar, ids, PathOf(slot)), q.maxTokens), true)
    case None =>
      if !Resumable(s, ids) then Failure(BadRequest)
      else Flagged(Generated(m, Begin(m, s.grammar, ids, PlainPath(s, ids, q.useCache)), q.maxTokens), false)
  }

  function Flagged(r: Result<(Ids, bool), Failure>, resumed: bool): Result<((Ids, bool), bool), Failure> {
    match r
    case Failure(e) => Failure(e)
    case Success(t) => Success((t, resumed))
  }

  predicate Generates(
      m: Model, boot: SpecList, uploaded: SpecList, es: Entries, q: Generate, r: Result<((Ids, bool), bool), Failure>)
  {
    match GenerateIds(m, boot, uploaded, q)
    case Failure(e) => Stopped(r) || r == Failure(e)
    case Success((s, ids)) => Stopped(r) || r == GenerationOf(m, s, es, ids, q)
  }

  /** A resumed generation stands, after the resumed tokens, exactly where the
      generation on empty caches does, if and only if the description ran along
      the prompt's own blocks; and then it writes the same. */
  lemma {:induction false} ResumeIsFresh(
      m: Model, loaded: set<LoadedSpec>, held: Held, paths: set<Path>, cache: Cache, es: Entries,
      s: LoadedSpec, ids: Ids, q: Generate)
    requires s in loaded && CacheOk(m, loaded, held, paths, cache) && StateStores.Distinct(es) && cache == AsMap(es)
    requires Route(es, s, ids, q).Some? && Resumable(s, ids)
    ensures var slot := Route(es, s, ids, q).value; var own := PlainPath(s, ids, true);
      Rebuilt(m, s.grammar, ids, slot.generated, slot.state, slot.logits).Success?
      && (PathOf(slot) == own <==>
            Steps(m, Begin(m, s.grammar, ids, own), |slot.generated|)
              == Some(Rebuilt(m, s.grammar, ids, slot.generated, slot.state, slot.logits).value))
      && (PathOf(slot) == own ==>
            GenerationOf(m, s, es, ids, q) == Flagged(Generated(m, Begin(m, s.grammar, ids, own), q.maxTokens), true))
      && (OnePath(paths, s.id, ids, own) ==> PathOf(slot) == own)
  {
    var slot, own := Route(es, s, ids, q).value, PlainPath(s, ids, true);
    DeepestIsDeepest(es, s.id, ids);
    var e :| e in es && IsDescription(e, s.id, ids) && e.value.slot == slot;
    InView(es, e);
    assert EntryOk(m, loaded, held, paths, e.id, cache[e.id]);
    assert Fits(m, s, held, paths, e.id, e.value);
    FirstSlotPath(m, s.grammar, ids, PathOf(slot), e.id.field, slot);
    ResumesWhereFreshStands(m, s.grammar, ids, PathOf(slot), own, e.id.field, slot);
    hide CacheOk, EntryOk, Fits, IsFirst, PlainPath, Rebuilt, Steps, Generated, DeepestOf, StateStores.Distinct;
  }

  /** Whether a generation resumes: when the caller takes the cache, some
      description of this very prompt is held, and each leaves a token to write. */
  lemma {:induction false} ResumesWhenHeld(es: Entries, s: LoadedSpec, ids: Ids, q: Generate)
    ensures Route(es, s, ids, q).Some?
      <==> q.useCache && (exists e :: e in es && IsDescription(e, s.id, ids))
           && forall e :: e in es && IsDescription(e, s.id, ids) ==> |e.value.slot.generated| < q.maxTokens
    ensures Route(es, s, ids, q).Some? ==>
      (exists e :: e in es && IsDescription(e, s.id, ids) && e.value.slot == Route(es, s, ids, q).value)
      && forall e :: e in es && IsDescription(e, s.id, ids) ==>
        |e.value.slot.generated| <= |Route(es, s, ids, q).value.generated|
  {
    DeepestIsDeepest(es, s.id, ids);
    hide DeepestOf, IsDescription;
  }

  /** What a generation answers is the greedy run under the spec's grammar after the
      prompt's ids, along the resumed description's blocks or the prompt's own. */
  lemma {:induction false} GenerationIsGreedy(
      m: Model, s: LoadedSpec, es: Entries, ids: Ids, q: Generate, tokens: Ids, stopped: bool, resumed: bool)
    requires GenerationOf(m, s, es, ids, q) == Success(((tokens, stopped), resumed))
    ensures resumed <==> Route(es, s, ids, q).Some?
    ensures var path := if resumed then PathOf(Route(es, s, ids, q).value) else PlainPath(s, ids, q.useCache);
      Writes(m, Begin(m, s.grammar, ids, path), q.maxTokens, tokens, stopped)
  {
    hide Route, Writes, Generated, PlainPath, PathOf;
    var path := if resumed then PathOf(Route(es, s, ids, q).value) else PlainPath(s, ids, q.useCache);
    GeneratedIsWritten(m, Begin(m, s.grammar, ids, path), q.maxTokens, tokens, stopped);
  }

  // ---- Verdicts and probes -------------------------------------------------------------------

  /** The state the fixed question of `/v1/adjudicate` is scored at. */
  function VerdictOf(m: Model, boot: SpecList, uploaded: SpecList, key: string, shared: Ids, useCache: bool)
      : Result<State, Failure> {
    match Named(boot, uploaded, key)
    case None => Failure(NotFound)
    case Some(s) =>
      if |shared| > m.contextLimit || !Resumable(s, shared) then Failure(BadRequest)
      else Success(PlainPath(s, shared, useCache))
  }

  function ProbeOf(m: Model, specs: SpecList, ids: Ids, split: nat, useCache: bool): Result<State, Failure> {
    if ids == [] || split > |ids| || |ids| > m.contextLimit then Failure(BadRequest)
    else Success(ProbeState(specs, ids, split, useCache))
  }

  /** A probe's blocks: the longest resident prefix of the bulk, the rest of the
      bulk in chunks, and one token at a time from the split on. */
  function ProbeState(specs: SpecList, ids: Ids, split: nat, useCache: bool): State
    requires split <= |ids|
  {
    var bulk := ids[..split];
    var best := if useCache then Winner(bulk, specs) else None;
    (if best.Some? then best.value.prefix + Chunked(bulk[|best.value.prefixIds|..], CHUNK) else Chunked(bulk, CHUNK))
    + Singles(ids[split..])
  }

  /** A probe's state does not depend on the order of use of the loaded specs. */
  lemma {:induction false} ProbeIgnoresOrder(m: Model, a: SpecList, b: SpecList, ids: Ids, split: nat, useCache: bool)
    requires split <= |ids| && (forall s :: s in a <==> s in b) && (forall s :: s in a ==> SpecOk(m, s))
    ensures ProbeState(a, ids, split, useCache) == ProbeState(b, ids, split, useCache)
  {
    BestPrefixIgnoresOrder(ids[..split], a, b);
  }

  /** A verdict stands after its prompt, which goes on from the spec's prefix;
      refused are a key that names nothing and a prompt that is too long or does not
      go on from that prefix. */
  lemma {:induction false} VerdictStandsAt(
      m: Model, boot: SpecList, uploaded: SpecList, key: string, shared: Ids, useCache: bool, state: State)
    requires forall s :: s in boot || s in uploaded ==> SpecOk(m, s)
    ensures var found := Named(boot, uploaded, key);
      var r := VerdictOf(m, boot, uploaded, key, shared, useCache);
      (r == Success(state)
       <==> found.Some? && found.value.prefixIds < shared && |shared| <= m.contextLimit
            && state == if useCache then
                          Chunked(found.value.prefixIds, CHUNK) + Chunked(shared[|found.value.prefixIds|..], CHUNK)
                        else Chunked(shared, CHUNK))
      && (r.Failure? ==> r == Failure(if found.None? then NotFound else BadRequest))
  {
    hide Chunked, Named, EmissionOrdered;
    if Named(boot, uploaded, key).Some? {
      assert SpecOk(m, Named(boot, uploaded, key).value);
    }
  }

  /** A probe forwards its ids, those from the split on one at a time, and goes on
      from a resident prefix that no other within the bulk is longer than. */
  lemma {:induction false} ProbeStandsAt(m: Model, specs: SpecList, ids: Ids, split: nat, useCache: bool)
    requires forall s :: s in specs ==> SpecOk(m, s)
    ensures ProbeOf(m, specs, ids, split, useCache).Failure?
      <==> ids == [] || split > |ids| || |ids| > m.contextLimit
    ensures ProbeOf(m, specs, ids, split, useCache).Success? ==>
      var bulk, tail := ids[..split], Singles(ids[split..]);
      exists start: nat ::
        start <= split && ProbeOf(m, specs, ids, split, useCache).value == ProbeFrom(bulk, start) + tail
        && (start > 0 ==>
              useCache && exists s :: s in specs && IsCandidate(bulk, s.prefixIds) && |s.prefixIds| == start)
        && (useCache ==> forall s :: s in specs && IsCandidate(bulk, s.prefixIds) ==> |s.prefixIds| <= start)
  {
    hide Chunked, Singles, EmissionOrdered;
    if ProbeOf(m, specs, ids, split, useCache).Success? {
      var bulk := ids[..split];
      var best := if useCache then Winner(bulk, specs) else None;
      if best.Some? {
        var start := |best.value.prefixIds|;
        assert SpecOk(m, best.value) && bulk[..start] == best.value.prefixIds;
        assert ProbeOf(m, specs, ids, split, useCache).value == ProbeFrom(bulk, start) + Singles(ids[split..]);
      } else {
        ChunkedNone(CHUNK);
        assert bulk[..0] == [] && bulk[0..] == bulk && [] + Chunked(bulk, CHUNK) == Chunked(bulk, CHUNK);
        assert ProbeOf(m, specs, ids, split, useCache).value == ProbeFrom(bulk, 0) + Singles(ids[split..]);
      }
    }
  }

  /** The bulk of a probe cut at where it resumes. */
  ghost function ProbeFrom(bulk: Ids, start: nat): State
    requires start <= |bulk|
  {
    Chunked(bulk[..start], CHUNK) + Chunked(bulk[start..], CHUNK)
  }

  // ---- Chats and contexts ----------------------------------------------------------------------

  datatype Chat = Chat(
    system: string, tools: seq<Json.Value>, from: Option<Id>, messages: seq<Template.Message>, maxTokens: nat)

  datatype Build = Build(system: string, tools: seq<Json.Value>, messages: seq<Template.Message>, pin: Option<bool>)

  const MAX_CHAT_TOKENS := 32768

  function Encoded(tok: Tokenizer, texts: seq<string>): (segments: seq<Ids>)
    ensures |segments| == |texts|
    ensures forall i :: 0 <= i < |texts| ==> segments[i] == tok.encode(texts[i])
  {
    seq(|texts|, i requires 0 <= i < |texts| => tok.encode(texts[i]))
  }

  /** The texts a chat turn appends: with a head when it starts the chat. */
  function ChatTexts(m: Model, q: Chat): Result<seq<string>, Template.Refusal> {
    if q.from.Some? then Template.RenderTurns(m.alnum, q.messages)
    else Template.RenderSegments(m.alnum, Template.Chat(q.system, q.tools, q.messages))
  }

  function BuildTexts(m: Model, q: Build): Result<seq<string>, Template.Refusal> {
    Template.RenderSegments(m.alnum, Template.Chat(q.system, q.tools, q.messages))
  }

  /** `ChatRequest::validate`, rendering apart. */
  predicate ChatValid(q: Chat) {
    (q.from.Some? ==> q.system == "" && q.tools == []) && q.messages != []
    && (forall x :: x in q.messages ==> !x.Assistant?) && 0 < q.maxTokens <= MAX_CHAT_TOKENS
  }

  /** The ids up to the turn's first checkpoint. */
  function ChatPrompt(m: Model, held: Held, q: Chat): Result<Ids, Failure> {
    var texts := ChatTexts(m, q);
    if !ChatValid(q) || texts.Failure? then Failure(BadRequest)
    else if q.from.Some? && q.from.value !in held then Failure(NotFound)
    else if q.from.Some? && !held[q.from.value].kind.ChatTurn? then Failure(BadRequest)
    else
      var base := if q.from.Some? then held[q.from.value].ids else [];
      var ids := base + Flatten(Encoded(m.tok, texts.value));
      if |ids| + |Opening(m.tok)| + q.maxTokens + |Newline(m.tok)| > m.contextLimit then Failure(BadRequest)
      else Success(ids)
  }

  /** The state generation starts from: a function of the ids alone. */
  function ChatStart(m: Model, ids: Ids): State {
    ChatState(m.tok, ids) + Chunked(Opening(m.tok), CHUNK)
  }

  /** What the model generates after a chat's ids. */
  function ChatRun(m: Model, ids: Ids, maxTokens: nat): Result<(Ids, bool), Failure> {
    Generated(m, Begin(m, None, ids + Opening(m.tok), ChatStart(m, ids)), maxTokens)
  }

  datatype ChatReply = ChatReply(user: Id, checkpoint: Option<Id>, tokens: Ids, stopped: bool)

  function Closed(m: Model, ids: Ids, tokens: Ids): Id {
    ChatId(ids + Opening(m.tok) + tokens + Newline(m.tok))
  }

  /** What a chat turn answers: a function of its ids and `max_tokens`. */
  function ReplyOf(m: Model, held: Held, q: Chat): Result<ChatReply, Failure> {
    match ChatPrompt(m, held, q)
    case Failure(e) => Failure(e)
    case Success(ids) => RepliesTo(m, ids, q.maxTokens)
  }

  function RepliesTo(m: Model, ids: Ids, maxTokens: nat): Result<ChatReply, Failure> {
    match ChatRun(m, ids, maxTokens)
    case Failure(e) => Failure(e)
    case Success((tokens, stopped)) =>
      Success(ChatReply(ChatId(ids), if stopped then Some(Closed(m, ids, tokens)) else None, tokens, stopped))
  }

  /** The reply to a chat is the greedy run after its ids and the assistant's
      opening, on the chat's own state: its tokens, whether the model ended it, and
      the checkpoint of all that when it did. */
  lemma {:induction false} ReplyIsGreedy(m: Model, held: Held, q: Chat, r: ChatReply)
    requires ReplyOf(m, held, q) == Success(r)
    ensures ChatPrompt(m, held, q) == Success(r.user.ids) && r.user.ChatId?
    ensures var ids := r.user.ids;
      Writes(m, Begin(m, None, ids + Opening(m.tok), ChatState(m.tok, ids) + Chunked(Opening(m.tok), CHUNK)),
             q.maxTokens, r.tokens, r.stopped)
    ensures r.checkpoint
      == if r.stopped then Some(ChatId(r.user.ids + Opening(m.tok) + r.tokens + Newline(m.tok))) else None
  {
    hide ChatPrompt, ChatState, Opening, Newline, Chunked, Writes, Generated;
    var ids := r.user.ids;
    GeneratedIsWritten(m, Begin(m, None, ids + Opening(m.tok), ChatStart(m, ids)), q.maxTokens, r.tokens, r.stopped);
  }

  /** No reply: the prompt is refused, or a step among those asked for breaks. */
  lemma {:induction false} NoReply(m: Model, held: Held, q: Chat, e: Failure)
    ensures ChatPrompt(m, held, q).Failure? ==> ReplyOf(m, held, q) == Failure(ChatPrompt(m, held, q).error)
    ensures ChatPrompt(m, held, q).Success? ==>
      var ids := ChatPrompt(m, held, q).value;
      var c := Begin(m, None, ids + Opening(m.tok), ChatStart(m, ids));
      (ReplyOf(m, held, q) == Failure(e) <==> exists k :: 0 <= k < q.maxTokens && EndsAfter(m, c, k, Broken(e)))
  {
    hide ChatPrompt, ChatState, Opening, Newline, Chunked, EndsAfter, Generated;
    if ChatPrompt(m, held, q).Success? {
      var ids := ChatPrompt(m, held, q).value;
      GeneratedBreaks(m, Begin(m, None, ids + Opening(m.tok), ChatStart(m, ids)), q.maxTokens, e);
    }
  }

  /** A context's ids. */
  function BuildIds(m: Model, q: Build): Result<Ids, Failure> {
    var texts := BuildTexts(m, q);
    if texts.Failure? then Failure(BadRequest)
    else
      var ids := Flatten(Encoded(m.tok, texts.value));
      if |ids| >= m.contextLimit then Failure(BadRequest) else Success(ids)
  }

  /** A context's ids stand for the whole of what was asked to be held: they decode
      to the rendered head and every message, with a segment for each. Refused are
      what does not render and what fills the context. */
  lemma {:induction false} BuildStandsFor(m: Model, q: Build)
    requires Faithful(m.tok)
    ensures var rendered := Template.RenderSegments(m.alnum, Template.Chat(q.system, q.tools, q.messages));
      match BuildIds(m, q)
      case Success(ids) =>
        rendered.Success? && Decode(m.tok, ids) == Template.Concat(rendered.value) && |ids| < m.contextLimit
        && |Segments(m.tok, ids)| == 1 + |q.messages| && Flatten(Segments(m.tok, ids)) == ids
      case Failure(e) =>
        e == BadRequest
        && (rendered.Success? ==> |Flatten(Encoded(m.tok, rendered.value))| >= m.contextLimit)
  {
    var rendered := Template.RenderSegments(m.alnum, Template.Chat(q.system, q.tools, q.messages));
    if rendered.Success? {
      var ids := Flatten(Encoded(m.tok, rendered.value));
      RenderedWhole(m, q.system, q.tools, q.messages, rendered.value, ids);
      SegmentEach(m.alnum, q.system, q.tools, q.messages, rendered.value);
    }
    hide Template.RenderSegments, Template.Concat, Flatten, Decode, Segments, IsTranscript, IsHead, IsTurn;
  }

  lemma {:induction false} SegmentEach(
      alnum: char -> bool, system: string, tools: seq<Json.Value>, messages: seq<Template.Message>, texts: seq<string>)
    requires Template.RenderSegments(alnum, Template.Chat(system, tools, messages)) == Success(texts)
    ensures |texts| == 1 + |messages|
  {
    Template.PrefixTurns(alnum, messages, 0, texts[1..]);
  }

  /** One id for two builds only when they render the same: the same system text and
      the same turns, in the same order. */
  lemma {:induction false} BuildsApart(m: Model, q: Build, p: Build)
    requires Faithful(m.tok) && BuildIds(m, q).Success? && BuildIds(m, q) == BuildIds(m, p)
    ensures Template.Prompt(q.system, q.tools) == Template.Prompt(p.system, p.tools)
    ensures |q.messages| == |p.messages| && Template.Turns(m.alnum, q.messages) == Template.Turns(m.alnum, p.messages)
  {
    BuildStandsFor(m, q);
    BuildStandsFor(m, p);
    hide BuildIds;
    var a, b := Template.Chat(q.system, q.tools, q.messages), Template.Chat(p.system, p.tools, p.messages);
    Template.RenderingInjective(m.alnum, a, b);
    Template.ScanRecovers(m.alnum, a);
    Template.ScanRecovers(m.alnum, b);
  }

  /** A chat's ids decode to what it continues and the messages sent, each as the
      template renders it, after a head when it starts the chat. */
  lemma {:induction false} ChatStandsFor(m: Model, held: Held, q: Chat, ids: Ids)
    requires Faithful(m.tok) && AllHeldOk(m, held) && ChatPrompt(m, held, q) == Success(ids)
    ensures match q.from
      case None =>
        var rendered := Template.RenderSegments(m.alnum, Template.Chat(q.system, q.tools, q.messages));
        rendered.Success? && Decode(m.tok, ids) == Template.Concat(rendered.value)
      case Some(from) =>
        var rendered := Template.RenderTurns(m.alnum, q.messages);
        from in held && from.ChatId? && rendered.Success? && from.ids <= ids
        && Decode(m.tok, ids) == held[from].text + Template.Concat(rendered.value)
    ensures |ids| + |Opening(m.tok)| + q.maxTokens + |Newline(m.tok)| <= m.contextLimit
    ensures q.messages != [] && (forall x :: x in q.messages ==> !x.Assistant?) && 0 < q.maxTokens <= MAX_CHAT_TOKENS
  {
    var texts := ChatTexts(m, q).value;
    match q.from
    case None =>
      assert [] + Flatten(Encoded(m.tok, texts)) == ids;
      RenderedWhole(m, q.system, q.tools, q.messages, texts, ids);
    case Some(from) =>
      assert HeldOk(m, from, held[from]);
      ChatContinues(m, from.ids, q.messages, texts, ids);
  }

  /** A chat that can be answered: user and tool turns, a reply of at least one token
      and no more than the limit, and before the turns a head or a held chat. */
  ghost predicate Answerable(held: Held, q: Chat) {
    q.messages != [] && (forall x :: x in q.messages ==> !x.Assistant?) && 0 < q.maxTokens <= MAX_CHAT_TOKENS
    && (q.from.Some? ==> q.system == "" && q.tools == [] && q.from.value in held && q.from.value.ChatId?)
  }

  /** A chat is refused exactly as: malformed or not renderable, continuing what is
      not held or is no chat, or too long for its reply. */
  lemma {:induction false} ChatRefused(m: Model, held: Held, q: Chat)
    requires AllHeldOk(m, held) && ChatPrompt(m, held, q).Failure?
    ensures ChatPrompt(m, held, q).error == NotFound || ChatPrompt(m, held, q).error == BadRequest
    ensures var rendered := if q.from.Some? then Template.RenderTurns(m.alnum, q.messages)
                            else Template.RenderSegments(m.alnum, Template.Chat(q.system, q.tools, q.messages));
      (ChatPrompt(m, held, q).error == NotFound ==> q.from.Some? && q.from.value !in held)
      && (Answerable(held, q) && rendered.Success? ==>
            |if q.from.Some? then q.from.value.ids else []| + |Flatten(Encoded(m.tok, rendered.value))|
            + |Opening(m.tok)| + q.maxTokens + |Newline(m.tok)| > m.contextLimit)
  {
    hide Template.RenderTurns, Template.RenderSegments, Flatten, Opening, Newline, IsTranscript, ChatState,
         ContextState, Decode;
    if q.from.Some? && q.from.value in held {
      assert HeldOk(m, q.from.value, held[q.from.value]);
    }
  }

  // ---- Rendered segments --------------------------------------------------------------------------

  /** Rendered turns are turns that decode to their texts; without assistant
      turns a chat lays them as a prefill does. */
  lemma {:induction false} RenderedTurns(m: Model, messages: seq<Template.Message>, texts: seq<string>)
    requires Faithful(m.tok) && Template.RenderTurns(m.alnum, messages) == Success(texts)
    ensures |texts| == |messages| && AllTurns(m.tok, Encoded(m.tok, texts))
    ensures Decode(m.tok, Flatten(Encoded(m.tok, texts))) == Template.Concat(texts)
    ensures (forall x :: x in messages ==> !x.Assistant?) ==>
      Laid(AsChat(m.tok), Encoded(m.tok, texts)) == Segmented(Encoded(m.tok, texts))
    decreases |messages|
  {
    if messages != [] {
      Template.RenderTurnsCons(m.alnum, messages, texts);
      var segments := Encoded(m.tok, texts);
      var first, more := segments[0], segments[1..];
      assert more == Encoded(m.tok, texts[1..]);
      RenderedTurn(m.tok, m.alnum, messages[0], texts[0]);
      RenderedTurns(m, messages[1..], texts[1..]);
      DecodeSplit(m.tok, first, Flatten(more));
      assert messages[0] in messages && forall x :: x in messages[1..] ==> x in messages;
    } else {
      assert Encoded(m.tok, texts) == [];
    }
  }

  /** A rendered head and turns: their ids are a transcript of exactly those
      segments, and decode to their texts. */
  lemma {:induction false} RenderedWhole(
      m: Model, system: string, tools: seq<Json.Value>, messages: seq<Template.Message>, texts: seq<string>, ids: Ids)
    requires Faithful(m.tok)
    requires Template.RenderSegments(m.alnum, Template.Chat(system, tools, messages)) == Success(texts)
    requires ids == Flatten(Encoded(m.tok, texts))
    ensures texts != [] && IsHead(m.tok, Encoded(m.tok, texts)[0]) && AllTurns(m.tok, Encoded(m.tok, texts)[1..])
    ensures Segments(m.tok, ids) == Encoded(m.tok, texts) && IsTranscript(m.tok, ids)
    ensures Decode(m.tok, ids) == Template.Concat(texts)
    ensures (forall x :: x in messages ==> !x.Assistant?) ==> ChatState(m.tok, ids) == Segmented(Encoded(m.tok, texts))
  {
    var head, turns := texts[0], texts[1..];
    assert Template.RenderHead(system, tools) == Success(head);
    assert Template.RenderTurns(m.alnum, messages) == Success(turns);
    RenderedHead(m.tok, system, tools, head);
    RenderedTurns(m, messages, turns);
    var segments := Encoded(m.tok, texts);
    assert segments[1..] == Encoded(m.tok, turns) && segments == [segments[0]] + segments[1..];
    SegmentsOf(m.tok, segments[0], segments[1..], ids);
    DecodeSplit(m.tok, segments[0], Flatten(segments[1..]));
    HeadLaid(m.tok, system, tools, head);
  }

  /** A head is never laid as a reply. */
  lemma {:induction false} HeadLaid(tok: Tokenizer, system: string, tools: seq<Json.Value>, head: string)
    requires Faithful(tok) && Template.RenderHead(system, tools) == Success(head)
    ensures ChatBlocks(tok, tok.encode(head)) == Chunked(tok.encode(head), CHUNK)
  {
    RenderedHead(tok, system, tools, head);
    assert head[2] == 's' && Template.GENERATION_PROMPT[2] == 'i';
  }

  /** A chat continued from a canonical state reaches the canonical state. */
  lemma {:induction false} ChatContinues(
      m: Model, base: Ids, messages: seq<Template.Message>, texts: seq<string>, ids: Ids)
    requires Faithful(m.tok) && IsTranscript(m.tok, base)
    requires Template.RenderTurns(m.alnum, messages) == Success(texts) && forall x :: x in messages ==> !x.Assistant?
    requires ids == base + Flatten(Encoded(m.tok, texts))
    ensures IsTranscript(m.tok, ids)
    ensures ChatState(m.tok, ids) == ChatState(m.tok, base) + Segmented(Encoded(m.tok, texts))
    ensures Decode(m.tok, ids) == Decode(m.tok, base) + Template.Concat(texts)
  {
    RenderedTurns(m, messages, texts);
    StateGrows(m.tok, AsChat(m.tok), base, Encoded(m.tok, texts), ids);
    DecodeSplit(m.tok, base, Flatten(Encoded(m.tok, texts)));
  }

  /** A generation that stopped itself wrote EOS once, at its end. */
  lemma {:induction false} StoppedAtEnd(m: Model, c: Config, n: nat, tokens: Ids)
    requires Generated(m, c, n) == Success((tokens, true)) && EOS !in c.generated
    ensures tokens != [] && tokens[|tokens| - 1] == EOS && EOS !in tokens[..|tokens| - 1]
    decreases n
  {
    if Next(m, c).Went? {
      StoppedAtEnd(m, Next(m, c).next, n - 1, tokens);
    } else {
      assert tokens == c.generated + [EOS] && tokens[..|tokens| - 1] == c.generated;
    }
  }

  /** A generated turn closed: the checkpoint it leaves is the canonical one. */
  lemma {:induction false} ReplyAdded(m: Model, ids: Ids, tokens: Ids, all: Ids)
    requires Faithful(m.tok) && IsTranscript(m.tok, ids)
    requires tokens != [] && tokens[|tokens| - 1] == EOS && EOS !in tokens[..|tokens| - 1]
    requires all == ids + Opening(m.tok) + tokens + Newline(m.tok)
    ensures IsTranscript(m.tok, all)
    ensures ChatState(m.tok, all) == ChatStart(m, ids) + Singles(tokens) + Chunked(Newline(m.tok), CHUNK)
    ensures Decode(m.tok, all)
         == Decode(m.tok, ids) + Template.GENERATION_PROMPT + Decode(m.tok, tokens) + Template.AFTER_EOS
  {
    var u := Opening(m.tok) + tokens + Newline(m.tok);
    ReplyIsTurn(m, tokens, u);
    Text.Assoc3(ids, Opening(m.tok), tokens, Newline(m.tok));
    ReplyGrows(m, ids, u, all);
    Text.Assoc3(ChatState(m.tok, ids), Chunked(Opening(m.tok), CHUNK), Singles(tokens), Chunked(Newline(m.tok), CHUNK));
    Text.Assoc3(Decode(m.tok, ids), Template.GENERATION_PROMPT, Decode(m.tok, tokens), Template.AFTER_EOS);
  }

  lemma {:induction false} ReplyIsTurn(m: Model, tokens: Ids, u: Ids)
    requires Faithful(m.tok) && tokens != [] && tokens[|tokens| - 1] == EOS && EOS !in tokens[..|tokens| - 1]
    requires u == Opening(m.tok) + tokens + Newline(m.tok)
    ensures IsTurn(m.tok, u)
    ensures ChatBlocks(m.tok, u)
         == Chunked(Opening(m.tok), CHUNK) + Singles(tokens) + Chunked(Newline(m.tok), CHUNK)
    ensures Decode(m.tok, u) == Template.GENERATION_PROMPT + Decode(m.tok, tokens) + Template.AFTER_EOS
  {
    var before := tokens[..|tokens| - 1];
    assert tokens == before + [EOS];
    GeneratedTurn(m.tok, before, u);
  }

  lemma {:induction false} ReplyGrows(m: Model, ids: Ids, u: Ids, all: Ids)
    requires Faithful(m.tok) && IsTranscript(m.tok, ids) && IsTurn(m.tok, u) && all == ids + u
    ensures IsTranscript(m.tok, all) && ChatState(m.tok, all) == ChatState(m.tok, ids) + ChatBlocks(m.tok, u)
    ensures Decode(m.tok, all) == Decode(m.tok, ids) + Decode(m.tok, u)
  {
    assert Flatten([u]) == u + [] == u;
    StateGrows(m.tok, AsChat(m.tok), ids, [u], all);
    LaidOne(AsChat(m.tok), u);
    DecodeSplit(m.tok, ids, u);
  }

  /** A build from the longest held context is the whole build. */
  lemma {:induction false} BuildContinues(m: Model, segments: seq<Ids>, k: nat, base: Ids, ids: Ids)
    requires Faithful(m.tok) && 1 <= k <= |segments|
    requires IsHead(m.tok, segments[0]) && AllTurns(m.tok, segments[1..])
    requires base == Flatten(segments[..k]) && ids == Flatten(segments)
    ensures base <= ids && IsTranscript(m.tok, base) && IsTranscript(m.tok, ids)
    ensures ContextState(m.tok, ids) == ContextState(m.tok, base) + Segmented(segments[k..])
    ensures ContextState(m.tok, ids) == Segmented(segments)
  {
    hide IsHead, IsTurn, IsTranscript, Segments;
    var head, turns := segments[0], segments[1..];
    var before, more := turns[..k - 1], segments[k..];
    assert segments == [head] + turns;
    assert segments[..k] == [head] + before;
    assert segments == [head] + before + more;
    FlattenSplit([head] + before, more);
    FlattenHead(head, turns);
    FlattenHead(head, before);
    SegmentsOf(m.tok, head, turns, ids);
    SegmentsOf(m.tok, head, before, base);
    LaidSplit(InChunks(), [head] + before, more);
  }

  lemma {:induction false} FlattenHead(head: Ids, turns: seq<Ids>)
    ensures Flatten([head] + turns) == head + Flatten(turns)
  {
    assert ([head] + turns)[1..] == turns;
  }

  // ---- Jobs and their classes -------------------------------------------------------------------------

  datatype Class = Background | Generative | Interactive

  datatype Job =
    | Adjudicate(generate: Generate)
    | Verdict(key: string, shared: Ids, useCache: bool)
    | Opinion(read: Read)
    | Register(id: string, loaded: Option<LoadedSpec>)
    | Unregister(id: string)
    | Probe(prompt: Ids, decodeFrom: nat, useCache: bool)
    | ChatJob(chat: Chat)
    | ContextCreate(build: Build)
    | ContextInfo(context: Id)
    | ContextDelete(context: Id)

  /** `Job::priority`. */
  function ClassOf(job: Job): Class {
    match job
    case Verdict(_, _, _) | Opinion(_) | Probe(_, _, _) | ContextInfo(_) => Interactive
    case _ => Generative
  }
}
