/** The adjudicator (`lfm2d/src/adjudicator.rs`): every job it runs on its
    resident prefixes, held checkpoints and derived-state cache, what all of
    them keep, and that what a job answers is what empty caches answer,
    whatever is held, evicted, or served at its pauses. */
module Engine {
  import opened Wrappers
  import opened Budgets
  import opened Schedule
  import opened Decoding
  import opened Specs
  import opened StateStores
  import opened Serving
  import Template
  import Text

  type Task = (Id, string)

  function TasksWithout(tasks: seq<Task>, drop: Task -> bool): (left: seq<Task>)
    ensures forall t :: t in left <==> t in tasks && !drop(t)
  {
    if tasks == [] then []
    else (if drop(tasks[0]) then [] else [tasks[0]]) + TasksWithout(tasks[1..], drop)
  }

  /** A composed read: its ids, and for a tail read where the checkpoint and the
      spec's head end. */
  datatype Composed = Composed(ids: Ids, at: nat, split: nat)

  ghost predicate ComposedOf(m: Model, s: LoadedSpec, held: Held, q: Read, c: Composed) {
    ReadIds(m, s, held, q) == Success(c.ids) && |c.ids| + 2 < m.contextLimit
    && (q.context.Some? ==>
          c.at == |q.context.value.ids| && |held[q.context.value].ids| == c.at
          && c.split == c.at + |m.tok.encode(TailHead(Block(s).value))|)
  }

  type ChatEntries = seq<Entry<Id, Group, Checkpoint>>

  /** What a checkpoint of this id is charged. */
  function ChatBytes(m: Model, size: StateSize, id: Id): nat {
    CheckpointBytes(size, |id.ids|, |Decode(m.tok, id.ids)|)
  }

  /** Each checkpoint is charged by its id, and none more than a full one. */
  ghost predicate AllCharged(m: Model, size: StateSize, es: ChatEntries) {
    forall e :: e in es ==>
      e.bytes == ChatBytes(m, size, e.id) && e.bytes <= FullCheckpoint(size, m.contextLimit, m.longest)
  }

  class Adjudicator {
    const m: Model
    const specs: SpecStore
    const chats: StateStore<Id, Group, Checkpoint>
    const states: StateStore<CacheKey, Group, Cached>
    const size: StateSize
    /** Tail prefixes to fill when idle, oldest first. */
    var background: seq<Task>
    /** Every description made so far. */
    ghost var paths: set<Path>

    ghost function Loaded(): set<LoadedSpec>
      reads specs
    {
      set s | s in specs.All()
    }

    ghost predicate Valid()
      reads this`background, this`paths, specs, chats, states
    {
      specs.Valid() && chats.Valid() && states.Valid() && Faithful(m.tok)
      && AllSpecsOk(m, Loaded()) && AllHeldOk(m, chats.View())
      && CacheOk(m, Loaded(), chats.View(), paths, states.View())
      && (forall t :: t in background ==> t.0 in chats.View())
      && Budgeted()
    }

    /** What `load` refused to start without, and what it leaves: room for any
        cached state and for a turn's two checkpoints, no pins among the cached
        states. */
    ghost predicate Budgeted()
      reads chats, states
    {
      Bounded(m) && states.budget >= LargestEntry(size, m.contextLimit, m.longest)
      && chats.budget >= 2 * Full() && AllCharged(m, size, chats.entries) && PinnedTotal(states.entries) == 0
    }

    function Full(): nat {
      FullCheckpoint(size, m.contextLimit, m.longest)
    }

    /** Nothing a paused job relies on is gone: the same specs are loaded, the
        same checkpoints held, the same tasks queued. */
    twostate predicate Kept()
      requires old(Valid())
      reads this`background, this`paths, specs, chats, states
    {
      Valid() && Loaded() == old(Loaded()) && chats.View() == old(chats.View())
      && SameEntries(old(chats.entries), chats.entries)
      && background == old(background) && old(paths) <= paths
    }

    constructor (m: Model, boot: SpecList, capacity: nat, chatBudget: nat, stateBudget: nat, size: StateSize)
      requires Faithful(m.tok) && Bounded(m) && AllSpecsOk(m, set s | s in boot)
      requires Starts(m, chatBudget, stateBudget, size)
      ensures Valid() && Loaded() == (set s | s in boot) && chats.View() == map[] && background == [] && paths == {}
      ensures fresh(specs) && fresh(chats) && fresh(states)
    {
      this.m := m;
      specs := new SpecStore(boot, capacity);
      chats := new StateStore(chatBudget);
      states := new StateStore(stateBudget);
      this.size := size;
      background := [];
      paths := {};
      new;
      assert Loaded() == set s | s in boot by {
        assert specs.All() == boot;
      }
    }

    /** `Adjudicator::load`, its two budget checks: a cached state at the full
        context must fit, and so must a turn's two checkpoints. */
    static method Load(m: Model, boot: SpecList, capacity: nat, chatBudget: nat, stateBudget: nat, size: StateSize)
        returns (r: Option<Adjudicator>)
      requires Faithful(m.tok) && Bounded(m) && AllSpecsOk(m, set s | s in boot)
      ensures r.Some? <==> Starts(m, chatBudget, stateBudget, size)
      ensures r.Some? ==> fresh(r.value) && r.value.Valid() && r.value.Loaded() == (set s | s in boot)
    {
      if stateBudget < LargestEntry(size, m.contextLimit, m.longest) {
        return None;
      }
      if chatBudget < 2 * FullCheckpoint(size, m.contextLimit, m.longest) {
        return None;
      }
      var a := new Adjudicator(m, boot, capacity, chatBudget, stateBudget, size);
      return Some(a);
    }

    /** `YieldPoint::check`: the caller may be gone and the deadline past at any
        look. */
    method Check() returns (r: Result<(), Failure>)
      ensures r.Failure? ==> Stops(r.error)
    {
      if * {
        return Failure(Cancelled);
      }
      if * {
        return Failure(Deadline);
      }
      return Success(());
    }

    // ---- The derived-state cache ---------------------------------------------

    /** `StateCache::hold`: within the budget nothing is refused. */
    method Hold(key: CacheKey, group: Option<(Group, nat)>, bytes: nat, value: Cached)
      requires Valid() && EntryOk(m, Loaded(), chats.View(), paths, key, value)
      requires bytes <= LargestEntry(size, m.contextLimit, m.longest)
      modifies states
      ensures Valid()
      ensures group.None? || group.value.1 > 0 ==> key in states.View()
    {
      hide AllSpecsOk, AllHeldOk, CacheOk, EntryOk, Admitted, SameEntries, MovedBack, Grown, Faithful, Total,
           PinnedTotal;
      ghost var before := states.View();
      var held := states.InsertIn(key, group, bytes, value);
      // The source's refusal cannot happen here: nothing is pinned, and `load` left room.
      assert held.Success?;
      if key !in before && states.View() != before {
        CacheAdmits(m, Loaded(), chats.View(), paths, before, states.View(), key, value, held.value);
      }
    }

    method PutReady(s: LoadedSpec, full: Ids, state: State)
      requires Valid() && s in Loaded() && s.prefixIds <= full && state == PlainPath(s, full, true)
      requires |full| <= m.contextLimit
      modifies states
      ensures Valid() && ReadyKey(s.id, full) in states.View()
    {
      EntryOf(m, Loaded(), chats.View(), paths, s, ReadyKey(s.id, full), ReadyPrompt(full, state, state));
      EntriesFit(size, m, |full|, []);
      Hold(ReadyKey(s.id, full), Some((ReadyOf(s.id), 1)), ReadyBytes(size, |full|), ReadyPrompt(full, state, state));
    }

    method Ready(s: LoadedSpec, full: Ids) returns (r: Option<State>)
      requires Valid() && s in Loaded()
      modifies states
      ensures Valid()
      ensures r.Some? ==> s.prefixIds <= full && r.value == PlainPath(s, full, true)
      ensures r.Some? ==> ReadyKey(s.id, full) in states.View()
    {
      var held := states.Get(ReadyKey(s.id, full));
      if held.None? {
        return None;
      }
      assert EntryOk(m, Loaded(), chats.View(), paths, ReadyKey(s.id, full), held.value);
      r := Some(held.value.state);
    }

    method PutDescribed(s: LoadedSpec, prompt: Ids, field: string, slot: Slot)
      requires Valid() && s in Loaded() && Path(s.id, prompt, PathOf(slot)) in paths
      requires IsFirst(m, Begin(m, s.grammar, prompt, PathOf(slot)), field, slot)
      requires |prompt| + |slot.generated| <= m.contextLimit
      modifies states
      ensures Valid() && DescribedKey(s.id, prompt, field) in states.View()
    {
      var tokens := |prompt| + |slot.generated|;
      EntryOf(m, Loaded(), chats.View(), paths, s, DescribedKey(s.id, prompt, field), Described(prompt, field, slot));
      EntriesFit(size, m, tokens, slot.generated);
      Hold(DescribedKey(s.id, prompt, field), Some((DescribedOf(s.id), DESCRIBED_CACHE_CAPACITY)),
           DescribedBytes(size, tokens, |slot.text|), Described(prompt, field, slot));
    }

    ghost predicate IsHeld(s: LoadedSpec, prompt: Ids, field: string, slot: Slot)
      reads this`paths
    {
      IsFirst(m, Begin(m, s.grammar, prompt, PathOf(slot)), field, slot) && Path(s.id, prompt, PathOf(slot)) in paths
    }

    method DescribedSlot(s: LoadedSpec, prompt: Ids, field: string) returns (r: Option<Slot>)
      requires Valid() && s in Loaded()
      modifies states
      ensures Valid() && states.View() == old(states.View())
      ensures r.Some? ==> IsHeld(s, prompt, field, r.value)
      ensures var key := DescribedKey(s.id, prompt, field);
        if key in states.View() then states.View()[key].Described? && r == Some(states.View()[key].slot) else r.None?
    {
      var held := states.Get(DescribedKey(s.id, prompt, field));
      if held.None? {
        return None;
      }
      assert EntryOk(m, Loaded(), chats.View(), paths, DescribedKey(s.id, prompt, field), held.value);
      r := Some(held.value.slot);
    }

    /** `StateCache::deepest`: touched like a hit. */
    method Deepest(s: LoadedSpec, prompt: Ids) returns (r: Option<Slot>)
      requires Valid() && s in Loaded()
      modifies states
      ensures Valid() && states.View() == old(states.View())
      ensures r == DeepestOf(old(states.entries), s.id, prompt)
      ensures r.Some? ==> exists field :: IsHeld(s, prompt, field, r.value)
    {
      ghost var es := states.entries;
      var best := DeepestField(s.id, prompt);
      if best.None? {
        return None;
      }
      DeepestIsDeepest(es, s.id, prompt);
      r := DescribedSlot(s, prompt, best.value);
      assert IsHeld(s, prompt, best.value, r.value);
    }

    /** The field it stopped at. */
    method DeepestField(spec: string, prompt: Ids) returns (best: Option<string>)
      requires states.Valid()
      ensures best.None? <==> DeepestOf(states.entries, spec, prompt).None?
      ensures best.Some? ==>
        var key := DescribedKey(spec, prompt, best.value);
        key in states.View() && states.View()[key].Described?
        && DeepestOf(states.entries, spec, prompt) == Some(states.View()[key].slot)
    {
      hide DeepestOf, Total, PinnedTotal;
      best := None;
      var depth: nat := 0;
      DeepestNone(spec, prompt);
      for i := 0 to |states.entries|
        invariant DeepestUpTo(states.entries, i, spec, prompt, best, depth)
      {
        var e := states.entries[i];
        DeepestNext(states.entries, i, spec, prompt, best, depth);
        if IsDescription(e, spec, prompt) && (best.None? || |e.value.slot.generated| >= depth) {
          best, depth := Some(e.id.field), |e.value.slot.generated|;
        }
      }
      DeepestDone(states.entries, spec, prompt, best, depth);
    }

    method PutTail(s: LoadedSpec, checkpoint: Id, state: State, len: nat)
      requires Valid() && s in Loaded() && TailOf(m, s, chats.View(), checkpoint, state, len) && len <= m.contextLimit
      modifies states
      ensures Valid() && TailKey(s.id, checkpoint) in states.View()
    {
      EntryOf(m, Loaded(), chats.View(), paths, s, TailKey(s.id, checkpoint), TailPrefix(len, state));
      EntriesFit(size, m, len, []);
      Hold(TailKey(s.id, checkpoint), None, size.Bytes(len), TailPrefix(len, state));
    }

    method Tail(s: LoadedSpec, checkpoint: Id) returns (r: Option<(State, nat)>)
      requires Valid() && s in Loaded()
      modifies states
      ensures Valid()
      ensures r.Some? ==> TailOf(m, s, chats.View(), checkpoint, r.value.0, r.value.1)
    {
      var held := states.Get(TailKey(s.id, checkpoint));
      if held.None? {
        return None;
      }
      assert EntryOk(m, Loaded(), chats.View(), paths, TailKey(s.id, checkpoint), held.value);
      r := Some((held.value.state, held.value.len));
    }

    /** `CheckpointStore::get`: a held checkpoint, touched. */
    method Recall(id: Id) returns (r: Option<Checkpoint>)
      requires Valid()
      modifies chats
      ensures Kept()
      ensures r == if id in chats.View() then Some(chats.View()[id]) else None
    {
      hide AllHeldOk, AllSpecsOk, CacheOk, Faithful, Bounded, LargestEntry, FullCheckpoint, Total, PinnedTotal,
           AllCharged, SameEntries;
      ghost var es := chats.entries;
      r := chats.Get(id);
      SameCharged(m, size, es, chats.entries);
    }

    // ---- Forwarding ------------------------------------------------------------

    /** `forward_chunks`: onto `start`, in chunks, stopping between them when
        asked to; at a pause the waiting interactive jobs run. */
    method ForwardChunks(start: State, ids: Ids, chunk: nat, pauses: bool) returns (r: Result<State, Failure>)
      requires Valid() && chunk > 0
      modifies this`paths, specs, chats, states
      ensures Kept()
      ensures r.Failure? ==> Stops(r.error) || (r.error.Internal? && ids == [])
      ensures r.Success? ==> ids != [] && r.value == start + Chunked(ids, chunk)
      decreases pauses, 1
    {
      hide AllHeldOk, AllSpecsOk, CacheOk, Budgeted, Faithful, Total, PinnedTotal, Chunked;
      var state, at := start, 0;
      assert ids[0..] == ids;
      while at < |ids|
        invariant at <= |ids| && Kept()
        invariant state + Chunked(ids[at..], chunk) == start + Chunked(ids, chunk)
      {
        var ok := Yield(pauses);
        if ok.Failure? {
          return Failure(ok.error);
        }
        var end := if at + chunk < |ids| then at + chunk else |ids|;
        ChunkAt(state, ids, at, end, chunk);
        state := state + [ids[at..end]];
        at := end;
      }
      if ids == [] {
        return Failure(Internal);
      }
      assert ids[at..] == [];
      ChunkedNone(chunk);
      assert state + [] == state;
      return Success(state);
    }

    /** `forward_segments`: no chunk crosses from one segment into the next. */
    method ForwardSegments(start: State, segments: seq<Ids>, pauses: bool) returns (r: Result<State, Failure>)
      requires Valid()
      modifies this`paths, specs, chats, states
      ensures Kept()
      ensures r.Failure? ==> Stops(r.error) || (r.error.Internal? && (segments == [] || [] in segments))
      ensures r.Success? ==> r.value == start + Segmented(segments)
      decreases pauses, 2, 1
    {
      hide AllHeldOk, AllSpecsOk, CacheOk, Total, PinnedTotal;
      var state := start;
      for i := 0 to |segments|
        invariant Kept()
        invariant state == start + Segmented(segments[..i])
      {
        if segments[i] == [] {
          return Failure(Internal);
        }
        var next := ForwardChunks(state, segments[i], CHUNK, pauses);
        if next.Failure? {
          return next;
        }
        SegmentOn(start, segments, i);
        state := next.value;
      }
      assert segments[..|segments|] == segments;
      if segments == [] {
        return Failure(Internal);
      }
      return Success(state);
    }

    /** Look around; at a pause, serve. */
    method Yield(pauses: bool) returns (r: Result<(), Failure>)
      requires Valid()
      modifies this`paths, specs, chats, states
      ensures Kept()
      ensures r.Failure? ==> Stops(r.error)
      decreases pauses, 0, 1
    {
      hide AllHeldOk, AllSpecsOk, CacheOk, Total, PinnedTotal;
      if pauses {
        r := Pause();
      } else {
        r := Check();
      }
    }

    /** `Pause::pause`: interactive jobs, each to its end, with a look at the check
        around each of them. */
    method Pause() returns (r: Result<(), Failure>)
      requires Valid()
      modifies this`paths, specs, chats, states
      ensures Kept()
      ensures r.Failure? ==> Stops(r.error)
      decreases true, 0, 0
    {
      hide AllHeldOk, AllSpecsOk, CacheOk, Total, PinnedTotal;
      var waiting: seq<Job> := *;
      for i := 0 to |waiting|
        invariant Kept()
      {
        r := Check();
        if r.Failure? {
          return;
        }
        if ClassOf(waiting[i]).Interactive? {
          Serve(waiting[i]);
        }
      }
      r := Check();
    }

    // ---- Reads -----------------------------------------------------------------

    /** `PromptCache::prepare`, and the same with pauses in a generation: the
        ready prompt, or a prefill published once complete. */
    method Prepare(s: LoadedSpec, full: Ids, useCache: bool, pauses: bool) returns (r: Result<State, Failure>)
      requires Valid() && s in Loaded() && |full| <= m.contextLimit
      modifies this`paths, specs, chats, states
      ensures Kept()
      ensures r.Failure? ==> Stops(r.error) || (r.error.BadRequest? && !Resumable(s, full))
      ensures r.Success? ==> Resumable(s, full) && r.value == PlainPath(s, full, useCache)
      ensures r.Success? && useCache ==> ReadyKey(s.id, full) in states.View()
      decreases pauses, 3
    {
      hide AllHeldOk, AllSpecsOk, CacheOk, Total, PinnedTotal;
      var ok := Check();
      if ok.Failure? {
        return Failure(ok.error);
      }
      if !Resumable(s, full) {
        return Failure(BadRequest);
      }
      if useCache {
        var ready := Ready(s, full);
        if ready.Some? {
          return Success(ready.value);
        }
        r := ForwardChunks(s.prefix, full[|s.prefixIds|..], CHUNK, pauses);
      } else {
        r := ForwardChunks([], full, CHUNK, pauses);
        assert [] + Chunked(full, CHUNK) == Chunked(full, CHUNK);
      }
      if r.Failure? {
        return;
      }
      ok := Check();
      if ok.Failure? {
        return Failure(ok.error);
      }
      if useCache {
        PutReady(s, full, r.value);
      }
    }

    /** A read's ids, and for a tail read where the checkpoint and the head end. */
    method Compose(s: LoadedSpec, q: Read) returns (r: Result<Composed, Failure>)
      requires Valid() && s in Loaded()
      modifies chats
      ensures Kept() && states.View() == old(states.View())
      ensures r.Failure? ==> ReadIds(m, s, chats.View(), q) == Failure(r.error)
      ensures r.Success? ==> ComposedOf(m, s, chats.View(), q, r.value)
    {
      hide AllHeldOk, AllSpecsOk, CacheOk, Budgeted, Faithful, Total, PinnedTotal, Block, TailHead, UserTurn, HeldOk;
      if q.context.None? {
        var ids := m.tok.encode(s.prefixText + UserTurn(s, q.input));
        if |ids| + 2 >= m.contextLimit {
          return Failure(BadRequest);
        }
        return Success(Composed(ids, 0, 0));
      }
      if s.tools {
        return Failure(BadRequest);
      }
      var held := Recall(q.context.value);
      if held.None? {
        return Failure(NotFound);
      }
      var block := Block(s);
      if block.None? {
        return Failure(Internal);
      }
      var head := m.tok.encode(TailHead(block.value));
      var turn := m.tok.encode(UserTurn(s, block.value + "\n\n" + q.input));
      if !(head <= turn) {
        return Failure(BadRequest);
      }
      var ids := held.value.ids + turn;
      if |ids| + 2 >= m.contextLimit {
        return Failure(BadRequest);
      }
      HeldLength(m, chats.View(), q.context.value);
      r := Success(Composed(ids, |held.value.ids|, |held.value.ids| + |head|));
    }

    /** The state a read describes from: prepared, resumed at the checkpoint or
        its tail prefix, or cold. */
    method Prefill(s: LoadedSpec, q: Read, c: Composed) returns (r: Result<State, Failure>)
      requires Valid() && s in Loaded() && ComposedOf(m, s, chats.View(), q, c)
      modifies this`paths, specs, chats, states
      ensures Kept()
      ensures r.Failure? ==> Stops(r.error) || PromptOf(m, s, chats.View(), q) == Failure(r.error)
      ensures r.Success? ==> PromptOf(m, s, chats.View(), q) == Success(Prompted(c.ids, r.value))
      decreases false, 4
    {
      hide AllHeldOk, AllSpecsOk, CacheOk, ReadIds, Chunked, Budgeted, Faithful, Total, PinnedTotal;
      if q.context.None? {
        r := Prepare(s, c.ids, q.useCache, false);
      } else if q.useCache {
        r := PrefillTail(s, q, c);
      } else {
        ComposedHead(m, s, chats.View(), q, c);
        r := ForwardChunks([], c.ids, CHUNK, false);
        assert [] + Chunked(c.ids, CHUNK) == Chunked(c.ids, CHUNK);
      }
    }

    /** Resumed at the checkpoint: the head, then the rest of the read turn. */
    method PrefillTail(s: LoadedSpec, q: Read, c: Composed) returns (r: Result<State, Failure>)
      requires Valid() && s in Loaded() && ComposedOf(m, s, chats.View(), q, c) && q.context.Some? && q.useCache
      modifies this`paths, specs, chats, states
      ensures Kept()
      ensures r.Failure? ==> Stops(r.error)
      ensures r.Success? ==> PromptOf(m, s, chats.View(), q) == Success(Prompted(c.ids, r.value))
      decreases false, 3
    {
      hide AllHeldOk, AllSpecsOk, CacheOk, PromptOf, TailOf, ComposedOf, Chunked, Budgeted, Faithful, Total,
           PinnedTotal;
      ComposedHead(m, s, chats.View(), q, c);
      r := HeadState(s, q.context.value, c);
      if r.Failure? {
        return;
      }
      LaidOne(InChunks(), c.ids[c.split..]);
      r := ForwardSegments(r.value, [c.ids[c.split..]], false);
      if r.Success? {
        var ok := Check();
        if ok.Failure? {
          return Failure(ok.error);
        }
      }
    }

    /** The state after a checkpoint and a spec's head: its tail prefix, or the
        head forwarded now and held. */
    method HeadState(s: LoadedSpec, checkpoint: Id, c: Composed) returns (r: Result<State, Failure>)
      requires Valid() && s in Loaded() && c.at < c.split <= |c.ids| <= m.contextLimit && checkpoint in chats.View()
      requires TailOf(m, s, chats.View(), checkpoint,
                      chats.View()[checkpoint].state + Chunked(c.ids[c.at..c.split], CHUNK), c.split)
      modifies this`paths, specs, chats, states
      ensures Kept()
      ensures r.Failure? ==> Stops(r.error)
      ensures r.Success? ==> r.value == chats.View()[checkpoint].state + Chunked(c.ids[c.at..c.split], CHUNK)
      decreases false, 2, 2
    {
      hide AllHeldOk, AllSpecsOk, CacheOk, Budgeted, Faithful, Total, PinnedTotal;
      var tail := Tail(s, checkpoint);
      if tail.Some? {
        // The source refuses a tail of another length here: there is none.
        assert tail.value.1 == c.split;
        return Success(tail.value.0);
      }
      hide TailOf;
      LaidOne(InChunks(), c.ids[c.at..c.split]);
      r := ForwardSegments(chats.Peek(checkpoint).value.state, [c.ids[c.at..c.split]], false);
      if r.Failure? {
        return;
      }
      var ok := Check();
      if ok.Failure? {
        return Failure(ok.error);
      }
      PutTail(s, checkpoint, r.value, c.split);
    }

    ghost method Log(path: Path)
      requires Valid()
      modifies this`paths
      ensures Valid() && paths == old(paths) + {path}
    {
      CacheStays(m, Loaded(), chats.View(), chats.View(), paths, paths + {path}, states.View());
      paths := paths + {path};
    }

    /** One description token: sampled, refused when it is no token or ends the
        turn, forwarded. */
    method DescribeToken(c: Config) returns (r: Result<Config, Failure>)
      ensures r.Failure? ==> Stops(r.error) || (r.error.Internal? && !Next(m, c).Went?)
      ensures r.Success? ==> Next(m, c) == Went(r.value)
    {
      var ok := Check();
      if ok.Failure? {
        return Failure(ok.error);
      }
      var sampled := Sample(m, c.decoder, c.logits);
      if sampled.Failure? || !m.usable(sampled.value.0) || sampled.value.0 == EOS {
        return Failure(Internal);
      }
      var (token, decoder) := sampled.value;
      var state := c.state + [[token]];
      return Success(Config(state, state, decoder, c.generated + [token]));
    }

    /** The description loop: generate under the grammar, keep the state at each
        question's slot, refuse a token written past one. */
    method DescribeSlots(s: LoadedSpec, q: Read, ids: Ids, start: State, budget: nat)
        returns (r: Result<seq<Slot>, Failure>)
      requires Valid() && s in Loaded() && s.grammar.Some? && |ids| + budget <= m.contextLimit
      requires q.questions != [] && Asked(s, q.questions) && InOrder(q.questions)
      modifies this`paths, states
      ensures Valid() && old(paths) <= paths
      ensures Stopped(r) || r == Describe(m, Begin(m, s.grammar, ids, start), Fields(q.questions), budget)
      ensures r.Success? && q.useCache ==> DescribedKey(s.id, ids, LastField(q)) in states.View()
      ensures q.useCache ==> paths == old(paths) + {Path(s.id, ids, start)}
    {
      var fields := Fields(q.questions);
      LoadedOk(m, Loaded(), s);
      AskedInOrder(m, s, q.questions);
      LastOf(q);
      hide *;
      if q.useCache {
        Log(Path(s.id, ids, start));
      }
      r := DescribeAll(s, q.useCache, ids, start, fields, budget);
    }

    /** The loop over the run's tokens. */
    method DescribeAll(s: LoadedSpec, useCache: bool, ids: Ids, start: State, fields: seq<string>, budget: nat)
        returns (r: Result<seq<Slot>, Failure>)
      requires Valid() && s in Loaded() && s.grammar.Some? && |ids| + budget <= m.contextLimit
      requires fields != [] && EmissionOrdered(m, s.grammar.value, fields)
      requires useCache ==> Path(s.id, ids, start) in paths
      modifies states
      ensures Valid()
      ensures Stopped(r) || r == Describe(m, Begin(m, s.grammar, ids, start), fields, budget)
      ensures r.Success? && useCache ==> DescribedKey(s.id, ids, fields[|fields| - 1]) in states.View()
    {
      hide *;
      var c, slots := Begin(m, s.grammar, ids, start), [];
      DescribingStarts(m, s.grammar.value, ids, start, fields, budget);
      for n := 0 to budget
        invariant Valid() && |slots| < |fields|
        invariant Describing(m, s.grammar.value, ids, start, fields, budget, slots, n, c)
      {
        var done;
        done, slots, c := DescribeOne(s, useCache, ids, start, fields, budget, slots, n, c);
        if done.Some? {
          return done.value;
        }
      }
      DescribingEnds(m, s.grammar.value, ids, start, fields, budget, slots, c);
      return Failure(Unprocessable);
    }

    /** One round of it: an outcome, or where the loop goes on from. */
    method DescribeOne(
        s: LoadedSpec, useCache: bool, ids: Ids, start: State, fields: seq<string>, budget: nat, slots: seq<Slot>,
        n: nat, c: Config)
        returns (done: Option<Result<seq<Slot>, Failure>>, found: seq<Slot>, next: Config)
      requires Valid() && s in Loaded() && s.grammar.Some? && |ids| + budget <= m.contextLimit && n < budget
      requires EmissionOrdered(m, s.grammar.value, fields) && |slots| < |fields|
      requires Describing(m, s.grammar.value, ids, start, fields, budget, slots, n, c)
      requires useCache ==> Path(s.id, ids, start) in paths
      modifies states
      ensures Valid()
      ensures match done
        case Some(r) =>
          (Stopped(r) || r == Describe(m, Begin(m, s.grammar, ids, start), fields, budget))
          && (r.Success? && useCache ==> DescribedKey(s.id, ids, fields[|fields| - 1]) in states.View())
        case None =>
          |found| < |fields| && Describing(m, s.grammar.value, ids, start, fields, budget, found, n + 1, next)
    {
      ghost var g := s.grammar.value;
      hide *;
      var step := DescribeToken(c);
      if step.Failure? {
        DescribingBreaks(m, g, ids, start, fields, budget, slots, n, c, step.error);
        return Some(Failure(step.error)), slots, c;
      }
      next := step.value;
      if AtSlot(m, fields[|slots|], next.generated) {
        DescribingAtSlot(m, g, ids, start, fields, budget, slots, n, c, next);
        KeepSlot(s, useCache, ids, fields[|slots|], SlotOf(m, next));
        found := slots + [SlotOf(m, next)];
        done := if |found| == |fields| then Some(Success(found)) else None;
      } else if WrotePast(m, fields[|slots|], c.generated, next.generated) {
        DescribingPast(m, g, ids, start, fields, budget, slots, n, c, next);
        return Some(Failure(Internal)), slots, next;
      } else {
        DescribingBetween(m, g, ids, start, fields, budget, slots, n, c, next);
        return None, slots, next;
      }
    }

    method KeepSlot(s: LoadedSpec, useCache: bool, prompt: Ids, field: string, slot: Slot)
      requires Valid() && s in Loaded() && (useCache ==> Path(s.id, prompt, PathOf(slot)) in paths)
      requires IsFirst(m, Begin(m, s.grammar, prompt, PathOf(slot)), field, slot)
      requires |prompt| + |slot.generated| <= m.contextLimit
      modifies states
      ensures Valid() && (useCache ==> DescribedKey(s.id, prompt, field) in states.View())
    {
      if useCache {
        PutDescribed(s, prompt, field, slot);
      }
    }

    /** The held slots of every question, or none: a partial set is no hit. */
    method HeldSlots(s: LoadedSpec, q: Read, ids: Ids) returns (r: Option<seq<Slot>>)
      requires Valid() && s in Loaded()
      modifies states
      ensures Valid() && states.View() == old(states.View())
      ensures var cache, fields := states.View(), Fields(q.questions);
        if Hit(cache, s.id, ids, fields) then r == Some(SlotsHeld(cache, s.id, ids, fields)) else r.None?
    {
      hide AllHeldOk, AllSpecsOk, CacheOk, IsFirst, Begin, PathOf, Budgeted, Faithful, Fits, EntryOk, IsHeld, Hit,
           HitTo, Total, PinnedTotal;
      var slots: seq<Slot> := [];
      ghost var cache, fields := states.View(), Fields(q.questions);
      HitNone(cache, s.id, ids, fields);
      for i := 0 to |q.questions|
        invariant Valid() && states.View() == cache && HitTo(cache, s.id, ids, fields, slots, i)
      {
        var slot := DescribedSlot(s, ids, q.questions[i].field);
        if slot.None? {
          NoHit(cache, s.id, ids, fields, i);
          return None;
        }
        HitNext(cache, s.id, ids, fields, slots, i, slot.value);
        slots := slots + [slot.value];
      }
      HitAll(cache, s.id, ids, fields, slots);
      return Some(slots);
    }

    /** `describe_then_read`: what the questions are scored at, decided by the cache
        as it was when the read came. It is what the read answers on empty caches
        exactly when the slots it found held were described along its own blocks. The
        last question's description is held when it answers. */
    method ReadJob(q: Read) returns (r: Result<Answer, Failure>)
      requires Valid()
      modifies this`paths, specs, chats, states
      ensures Kept()
      ensures Answers(m, specs.boot, old(specs.uploaded), chats.View(), old(states.View()), q, r)
      ensures r.Success? && FreshRead(m, specs.boot, old(specs.uploaded), chats.View(), q).Success? ==>
        (r.value.slots == FreshRead(m, specs.boot, old(specs.uploaded), chats.View(), q).value
         <==> OwnPath(m, Asking(specs.boot, old(specs.uploaded), q).value, chats.View(), old(states.View()), q))
      ensures r.Success? && q.useCache ==>
        q.questions != [] && Asking(specs.boot, old(specs.uploaded), q).Success?
        && var s := Asking(specs.boot, old(specs.uploaded), q).value;
           ReadIds(m, s, chats.View(), q).Success?
           && DescribedKey(s.id, ReadIds(m, s, chats.View(), q).value, LastField(q)) in states.View()
      decreases false, 8
    {
      hide AllHeldOk, AllSpecsOk, CacheOk, Asking, Budgeted, Faithful, AnswerOf, OwnPath, FreshSlots, Total,
           PinnedTotal;
      ghost var cache, held, was, loaded := states.View(), chats.View(), paths, Loaded();
      var s := Ask(q);
      if s.Failure? {
        return Failure(s.error);
      }
      LoadedOk(m, loaded, s.value);
      if FreshSlots(m, s.value, held, q).Success? {
        ReadIsFresh(m, loaded, was, s.value, held, cache, q);
      }
      var ok := Check();
      if ok.Failure? {
        return Failure(ok.error);
      }
      r := ReadOf(s.value, q);
    }

    /** Refusals before the prompt; the spec is used. */
    method Ask(q: Read) returns (r: Result<LoadedSpec, Failure>)
      requires Valid()
      modifies specs
      ensures Kept()
      ensures r == Asking(specs.boot, old(specs.uploaded), q)
      ensures r.Success? ==> r.value in Loaded() && r.value in old(Loaded())
    {
      if q.questions == [] {
        return Failure(BadRequest);
      }
      if !InOrder(q.questions) {
        return Failure(Internal);
      }
      var found := Resolve(q.spec);
      if found.None? {
        return Failure(NotFound);
      }
      if found.value.grammar.None? || !Asked(found.value, q.questions) {
        return Failure(BadRequest);
      }
      return Success(found.value);
    }

    method Resolve(key: string) returns (r: Option<LoadedSpec>)
      requires Valid()
      modifies specs
      ensures Kept()
      ensures r == Named(specs.boot, old(specs.uploaded), key) && (r.Some? ==> r.value in Loaded())
    {
      r := specs.ResolveKey(key);
      assert Loaded() == old(Loaded());
    }

    method ReadOf(s: LoadedSpec, q: Read) returns (r: Result<Answer, Failure>)
      requires Valid() && s in Loaded() && s.grammar.Some?
      requires q.questions != [] && Asked(s, q.questions) && InOrder(q.questions)
      modifies this`paths, specs, chats, states
      ensures Kept()
      ensures Stopped(r) || r == AnswerOf(m, s, chats.View(), old(states.View()), q)
      ensures r.Success? && q.useCache ==>
        ReadIds(m, s, chats.View(), q).Success?
        && DescribedKey(s.id, ReadIds(m, s, chats.View(), q).value, LastField(q)) in states.View()
      decreases false, 7
    {
      hide AllHeldOk, AllSpecsOk, CacheOk, FreshSlots, ReadIds, Budgeted, Faithful, Hit, Total, PinnedTotal;
      var composed := Compose(s, q);
      if composed.Failure? {
        return Failure(composed.error);
      }
      if q.useCache {
        var hit := HeldSlots(s, q, composed.value.ids);
        if hit.Some? {
          HitLast(states.View(), s.id, composed.value.ids, q);
          return Success(Answer(hit.value, true));
        }
      }
      var slots := DescribeFresh(s, q, composed.value);
      r := match slots case Failure(e) => Failure(e) case Success(found) => Success(Answer(found, false));
    }

    method DescribeFresh(s: LoadedSpec, q: Read, c: Composed) returns (r: Result<seq<Slot>, Failure>)
      requires Valid() && s in Loaded() && s.grammar.Some? && ComposedOf(m, s, chats.View(), q, c)
      requires q.questions != [] && Asked(s, q.questions) && InOrder(q.questions)
      modifies this`paths, specs, chats, states
      ensures Kept()
      ensures Stopped(r) || r == FreshSlots(m, s, chats.View(), q)
      ensures r.Success? && q.useCache ==> DescribedKey(s.id, c.ids, LastField(q)) in states.View()
      decreases false, 6
    {
      hide PromptOf, Describe, AllHeldOk, AllSpecsOk, CacheOk, ReadIds, Budgeted, Faithful, Total, PinnedTotal;
      var start := Prefill(s, q, c);
      if start.Failure? {
        return Failure(start.error);
      }
      var budget := DescribeBudget(q.questions[|q.questions| - 1].at + 1, m.contextLimit - |c.ids|);
      r := DescribeSlots(s, q, c.ids, start.value, budget);
    }

    /** The fixed question of `/v1/adjudicate`: scored at the prepared prompt. */
    method VerdictJob(key: string, shared: Ids, useCache: bool) returns (r: Result<State, Failure>)
      requires Valid()
      modifies this`paths, specs, chats, states
      ensures Kept()
      ensures Stopped(r) || r == VerdictOf(m, specs.boot, old(specs.uploaded), key, shared, useCache)
      decreases false, 8
    {
      hide AllHeldOk, AllSpecsOk, CacheOk, Budgeted, Faithful, Total, PinnedTotal;
      var found := Resolve(key);
      if found.None? {
        return Failure(NotFound);
      }
      if |shared| > m.contextLimit {
        return Failure(BadRequest);
      }
      r := Prepare(found.value, shared, useCache, false);
    }

    /** `/v1/probe` up to its scores: resumed on the longest resident prefix, the
        rest in bulk, then token by token from `decodeFrom`. */
    method ProbeJob(ids: Ids, decodeFrom: nat, useCache: bool) returns (r: Result<State, Failure>)
      requires Valid()
      modifies this`paths, specs, chats, states
      ensures Kept()
      ensures Stopped(r) || r == ProbeOf(m, old(specs.All()), ids, decodeFrom, useCache)
      decreases false, 9
    {
      hide AllHeldOk, AllSpecsOk, CacheOk, Budgeted, Faithful, Total, PinnedTotal, Winner;
      var ok := Check();
      if ok.Failure? {
        return Failure(ok.error);
      }
      if ids == [] || decodeFrom > |ids| || |ids| > m.contextLimit {
        return Failure(BadRequest);
      }
      r := ProbeOn(ids, decodeFrom, useCache);
    }

    method ProbeOn(ids: Ids, decodeFrom: nat, useCache: bool) returns (r: Result<State, Failure>)
      requires Valid() && decodeFrom <= |ids|
      modifies this`paths, specs, chats, states
      ensures Kept()
      ensures r.Failure? ==> Stops(r.error)
      ensures r.Success? ==> r.value == ProbeState(old(specs.All()), ids, decodeFrom, useCache)
      decreases false, 8
    {
      hide AllHeldOk, AllSpecsOk, CacheOk, Budgeted, Faithful, Total, PinnedTotal, Winner, Chunked, ProbeState, Singles;
      ghost var loaded := specs.All();
      var bulk := ids[..decodeFrom];
      var resumed := None;
      if useCache {
        resumed := Longest(bulk);
      }
      ProbeBlocks(loaded, ids, decodeFrom, useCache, resumed);
      if resumed.Some? {
        r := ForwardAny(resumed.value.prefix, bulk[|resumed.value.prefixIds|..], CHUNK);
      } else {
        r := ForwardAny([], bulk, CHUNK);
      }
      if r.Failure? {
        return;
      }
      r := ForwardAny(r.value, ids[decodeFrom..], 1);
    }

    /** The spec with the longest resident prefix of these ids, used. */
    method Longest(ids: Ids) returns (r: Option<LoadedSpec>)
      requires Valid()
      modifies specs
      ensures Kept() && r == Winner(ids, old(specs.All()))
    {
      hide AllHeldOk, AllSpecsOk, CacheOk, Budgeted, Faithful, Total, PinnedTotal, Winner;
      r := specs.ResolveBestPrefix(ids);
      assert Loaded() == old(Loaded());
    }

    /** Forward what there is to forward. */
    method ForwardAny(start: State, ids: Ids, chunk: nat) returns (r: Result<State, Failure>)
      requires Valid() && chunk > 0
      modifies this`paths, specs, chats, states
      ensures Kept()
      ensures r.Failure? ==> Stops(r.error)
      ensures r.Success? ==> r.value == start + Chunked(ids, chunk)
      decreases false, 7
    {
      if ids == [] {
        assert start + [] == start;
        return Success(start);
      }
      r := ForwardChunks(start, ids, chunk, false);
    }

    /** An interactive job: it never pauses, and keeps all a paused job relies on. */
    method Serve(job: Job)
      requires Valid() && ClassOf(job).Interactive?
      modifies this`paths, specs, chats, states
      ensures Kept()
      decreases false, 10
    {
      var ok := Check();
      if ok.Failure? {
        return;
      }
      match job {
        case Opinion(q) =>
          var r := ReadJob(q);
        case Verdict(key, shared, useCache) =>
          var r := VerdictJob(key, shared, useCache);
        case Probe(prompt, decodeFrom, useCache) =>
          var r := ProbeJob(prompt, decodeFrom, useCache);
        case ContextInfo(id) =>
          var r := chats.Peek(id);
      }
    }

    // ---- Generation ------------------------------------------------------------

    /** The decode loop: a pause before every token, the last one not forwarded. */
    method Decoded(first: Config, maxTokens: nat) returns (r: Result<(Ids, bool), Failure>)
      requires Valid() && |first.generated| <= maxTokens
      modifies this`paths, specs, chats, states
      ensures Kept()
      ensures Stopped(r) || r == Generated(m, first, maxTokens - |first.generated|)
    {
      hide AllHeldOk, AllSpecsOk, CacheOk, Budgeted, Faithful, Total, PinnedTotal;
      var c := first;
      while |c.generated| < maxTokens
        invariant Kept() && |c.generated| <= maxTokens
        invariant Generated(m, c, maxTokens - |c.generated|) == Generated(m, first, maxTokens - |first.generated|)
        decreases maxTokens - |c.generated|
      {
        var ok := Pause();
        if ok.Failure? {
          return Failure(ok.error);
        }
        var sampled := Sample(m, c.decoder, c.logits);
        if sampled.Failure? || !m.usable(sampled.value.0) {
          return Failure(Internal);
        }
        var (token, decoder) := sampled.value;
        if token == EOS {
          return Success((c.generated + [token], true));
        }
        if |c.generated| + 1 == maxTokens {
          return Success((c.generated + [token], false));
        }
        c := Forward(c, token, decoder);
      }
      return Success((c.generated, false));
    }

    /** A generation: its tokens, whether it stopped itself, and whether it resumed
        at a held description, decided by the cache as it was when the request came
        and by nothing that ran at its pauses. */
    method GenerateJob(q: Generate) returns (r: Result<((Ids, bool), bool), Failure>)
      requires Valid()
      modifies this`paths, specs, chats, states
      ensures Kept()
      ensures Generates(m, specs.boot, old(specs.uploaded), old(states.entries), q, r)
    {
      hide AllHeldOk, AllSpecsOk, CacheOk, Budgeted, Faithful, GenerationOf, Total, PinnedTotal;
      var found := Resolve(q.spec);
      if found.None? {
        return Failure(NotFound);
      }
      var s := found.value;
      var ok := Check();
      if ok.Failure? {
        return Failure(ok.error);
      }
      var ids := m.tok.encode(s.prefixText + UserTurn(s, q.input));
      if |ids| + q.maxTokens > m.contextLimit {
        return Failure(BadRequest);
      }
      r := GenerateOn(s, q, ids);
    }

    method GenerateOn(s: LoadedSpec, q: Generate, ids: Ids) returns (r: Result<((Ids, bool), bool), Failure>)
      requires Valid() && s in Loaded() && |ids| <= m.contextLimit
      modifies this`paths, specs, chats, states
      ensures Kept()
      ensures Stopped(r) || r == GenerationOf(m, s, old(states.entries), ids, q)
    {
      hide AllHeldOk, AllSpecsOk, CacheOk, Budgeted, Faithful, DeepestOf, Generated, Begin, PlainPath, PathOf,
           Resumable, Total, PinnedTotal;
      ghost var es := states.entries;
      var resumed := None;
      if q.useCache {
        resumed := Deepest(s, ids);
      }
      if resumed.Some? && |resumed.value.generated| < q.maxTokens {
        assert Route(es, s, ids, q) == resumed;
        r := Resumed(s, q, ids, resumed.value);
        return;
      }
      assert Route(es, s, ids, q) == None;
      r := Unresumed(s, q, ids);
    }

    /** From the prompt, prepared. */
    method Unresumed(s: LoadedSpec, q: Generate, ids: Ids) returns (r: Result<((Ids, bool), bool), Failure>)
      requires Valid() && s in Loaded() && |ids| <= m.contextLimit
      modifies this`paths, specs, chats, states
      ensures Kept()
      ensures Stopped(r)
        || r == (if !Resumable(s, ids) then Failure(BadRequest)
                 else
                   Flagged(Generated(m, Begin(m, s.grammar, ids, PlainPath(s, ids, q.useCache)), q.maxTokens), false))
    {
      hide AllHeldOk, AllSpecsOk, CacheOk, Budgeted, Faithful, Generated, PlainPath, Resumable, Total, PinnedTotal;
      var start := Prepare(s, ids, q.useCache, true);
      if start.Failure? {
        return Failure(start.error);
      }
      var tokens := Decoded(Begin(m, s.grammar, ids, start.value), q.maxTokens);
      r := Flagged(tokens, false);
    }

    /** From a held slot: the sampler over the whole history, the grammar walked
        over the resumed tokens. */
    method Resumed(s: LoadedSpec, q: Generate, ids: Ids, slot: Slot) returns (r: Result<((Ids, bool), bool), Failure>)
      requires Valid() && s in Loaded() && |slot.generated| < q.maxTokens
      requires exists field :: IsHeld(s, ids, field, slot)
      modifies this`paths, specs, chats, states
      ensures Kept()
      ensures Stopped(r) || r == Flagged(Generated(m, Begin(m, s.grammar, ids, PathOf(slot)), q.maxTokens), true)
    {
      hide AllHeldOk, AllSpecsOk, CacheOk, Budgeted, Faithful, Total, PinnedTotal;
      ghost var field :| IsHeld(s, ids, field, slot);
      ResumedGeneration(m, s.grammar, ids, PathOf(slot), field, slot, q.maxTokens);
      // The grammar took these tokens when they were described: it takes them again.
      var decoder := Advance(m, NewDecoder(m, s.grammar, ids + slot.generated), slot.generated);
      hide Generated, IsFirst, PathOf;
      var tokens := Decoded(Config(slot.state, slot.logits, decoder.value, slot.generated), q.maxTokens);
      r := Flagged(tokens, true);
    }

    // ---- Checkpoints -----------------------------------------------------------

    /** One background task: it makes a spec's tail prefix on a checkpoint, or finds
        that none is wanted. */
    method TailPrefill(checkpoint: Id, spec: string) returns (r: Result<bool, Failure>)
      requires Valid()
      modifies this`paths, specs, chats, states
      ensures Kept()
      ensures r.Failure? ==>
        Stops(r.error) || (r.error.Internal? && exists s :: s in Loaded() && s.id == spec && Block(s).None?)
      ensures r == Success(true) ==> TailKey(spec, checkpoint) in states.View()
      ensures r == Success(false) ==> states.View() == old(states.View()) && specs.uploaded == old(specs.uploaded)
      ensures Stopped(r)
        || (r == Success(false)
            <==> !Wanted(m, old(Loaded()), old(chats.View()), old(states.View()), checkpoint, spec))
    {
      hide AllHeldOk, AllSpecsOk, CacheOk, Budgeted, Faithful, Block, TailHead, Chunked, Total, PinnedTotal;
      var ok := Check();
      if ok.Failure? {
        return Failure(ok.error);
      }
      var prefilled, held, loaded := states.Peek(TailKey(spec, checkpoint)), chats.Peek(checkpoint), specs.Get(spec);
      if loaded.Some? {
        OneTail(m, Loaded(), loaded.value, checkpoint);
      }
      if prefilled.Some? || held.None? || loaded.None? || loaded.value.tools || loaded.value.grammar.None? {
        return Success(false);
      }
      var s, block := loaded.value, Block(loaded.value);
      if block.None? {
        return Failure(Internal);
      }
      var head := m.tok.encode(TailHead(block.value));
      if |checkpoint.ids| + |head| + 2 >= m.contextLimit {
        return Success(false);
      }
      r := FillTail(checkpoint, s, held.value.state, head);
    }

    method FillTail(checkpoint: Id, s: LoadedSpec, start: State, head: Ids) returns (r: Result<bool, Failure>)
      requires Valid() && s in Loaded() && Block(s).Some? && head == m.tok.encode(TailHead(Block(s).value))
      requires checkpoint in chats.View() && chats.View()[checkpoint].state == start
      requires |checkpoint.ids| + |head| <= m.contextLimit
      modifies this`paths, specs, chats, states
      ensures Kept()
      ensures match r
        case Failure(e) => Stops(e)
        case Success(done) => done && TailKey(s.id, checkpoint) in states.View()
    {
      hide AllHeldOk, AllSpecsOk, CacheOk, Budgeted, Faithful, Block, TailHead, Chunked, Total, PinnedTotal;
      LaidOne(InChunks(), head);
      HeadNonempty(m, s);
      var state := ForwardSegments(start, [head], true);
      if state.Failure? {
        return Failure(state.error);
      }
      var ok := Check();
      if ok.Failure? {
        return Failure(ok.error);
      }
      PutTail(s, checkpoint, state.value, |checkpoint.ids| + |head|);
      return Success(true);
    }

    /** `StateCache::forget_checkpoint`, for each checkpoint gone. */
    method ForgetCheckpoints(gone: seq<Id>)
      requires states.Valid()
      modifies states
      ensures states.Valid() && PinnedTotal(states.entries) <= old(PinnedTotal(states.entries))
      ensures states.View() == WithoutTails(old(states.View()), gone)
    {
      hide Total, PinnedTotal, WithoutTails;
      ghost var cache := states.View();
      ForgetNone(cache);
      assert gone[..0] == [];
      for i := 0 to |gone|
        invariant states.Valid() && PinnedTotal(states.entries) <= old(PinnedTotal(states.entries))
        invariant states.View() == WithoutTails(cache, gone[..i])
      {
        states.Retain((k: CacheKey) => !OfCheckpoint(k, [gone[i]]));
        ForgetOneMore(cache, gone, i, states.View());
      }
      assert gone[..|gone|] == gone;
    }

    /** Drop what checkpoints leave behind: their tail prefixes and their tasks. */
    method DropTraces(gone: seq<Id>, ghost held: Held)
      requires specs.Valid() && chats.Valid() && states.Valid() && Faithful(m.tok) && Budgeted()
      requires AllSpecsOk(m, Loaded()) && AllHeldOk(m, chats.View())
      requires CacheOk(m, Loaded(), held, paths, states.View()) && forall t :: t in background ==> t.0 in held
      requires forall id :: id in held && id !in gone ==> id in chats.View() && chats.View()[id] == held[id]
      modifies this`background, states
      ensures Valid() && forall t :: t in background <==> t in old(background) && t.0 !in gone
    {
      ghost var cache := states.View();
      ForgetCheckpoints(gone);
      background := TasksWithout(background, (t: Task) => t.0 in gone);
      CheckpointsGone(m, Loaded(), held, chats.View(), gone, paths, cache, states.View());
    }

    /** A checkpoint as the store holds it. */
    ghost function Charge(id: Id, c: Checkpoint): Entry<Id, Group, Checkpoint> {
      Entry(id, None, CheckpointBytes(size, |c.ids|, |c.text|), false, c)
    }

    /** `hold_checkpoint`: never refused; the checkpoints evicted for it take their
        traces with them, and a task is queued for each spec in `readBy`. */
    method HoldCheckpoint(id: Id, c: Checkpoint, readBy: seq<string>)
      requires Valid() && HeldOk(m, id, c) && |c.ids| <= m.contextLimit
      modifies this`background, chats, states
      ensures Valid() && id in chats.View() && PinnedTotal(chats.entries) == old(PinnedTotal(chats.entries))
      ensures forall k :: k in chats.View() ==> k == id || k in old(chats.View())
      ensures old(PinnedTotal(chats.entries)) + Charge(id, c).bytes <= chats.budget
      ensures if id in old(chats.View()) then SameEntries(old(chats.entries), chats.entries)
        else chats.entries == Admitted(old(chats.entries), None, Charge(id, c), chats.budget)
      ensures forall spec :: spec in readBy ==> (id, spec) in background
      ensures forall t :: t in background ==> t in old(background) || (t.0 == id && t.1 in readBy)
      ensures forall t :: t in old(background) && t.0 in chats.View() ==> t in background
    {
      hide AllSpecsOk, AllHeldOk, CacheOk, HeldOk, CheckpointBytes, FullCheckpoint, Faithful, Bounded, LargestEntry,
           Grown, Admitted, Total, PinnedTotal, SameEntries, AllCharged;
      ChargedInFull(m, size, id, c);
      ghost var held, es := chats.View(), chats.entries;
      var evicted := chats.InsertIn(id, None, CheckpointBytes(size, |c.ids|, |c.text|), c);
      // The source's refusal cannot happen here: pins hold at most half of what `load` asked for.
      assert evicted.Success?;
      AllStayCharged(m, size, es, chats.entries, Charge(id, c), chats.budget);
      HeldStays(m, held, chats.View(), id, c, evicted.value);
      DropTraces(evicted.value, held);
      Queue(id, readBy);
    }

    method Queue(id: Id, readBy: seq<string>)
      requires Valid() && id in chats.View()
      modifies this`background
      ensures Valid()
      ensures forall t :: t in background <==> t in old(background) || (t.0 == id && t.1 in readBy)
    {
      hide AllSpecsOk, AllHeldOk, CacheOk, Budgeted, Faithful, Total, PinnedTotal;
      for i := 0 to |readBy|
        invariant Valid()
        invariant forall t :: t in background <==> t in old(background) || (t.0 == id && t.1 in readBy[..i])
      {
        assert readBy[..i + 1] == readBy[..i] + [readBy[i]];
        if (id, readBy[i]) !in background {
          background := background + [(id, readBy[i])];
        }
      }
      assert readBy[..|readBy|] == readBy;
    }

    /** A checkpoint gone, by a delete or a refused pin. */
    method DropCheckpoint(id: Id)
      requires Valid()
      modifies this`background, chats, states
      ensures Valid() && chats.View() == old(chats.View()) - {id}
      ensures forall e :: e in chats.entries ==> e in old(chats.entries)
    {
      hide AllSpecsOk, CacheOk, HeldOk, Faithful, Bounded, Total, PinnedTotal;
      ghost var held := chats.View();
      var gone := chats.Remove(id);
      DropTraces([id], held);
    }

    method ContextDeleteJob(id: Id) returns (r: Result<(), Failure>)
      requires Valid()
      modifies this`background, chats, states
      ensures Valid() && Loaded() == old(Loaded())
      ensures r.Success? <==> id.ContextId? && id in old(chats.View())
      ensures chats.View() == if r.Success? then old(chats.View()) - {id} else old(chats.View())
    {
      hide AllHeldOk, AllSpecsOk, CacheOk, Budgeted, Faithful, Total, PinnedTotal;
      var held := chats.Peek(id);
      if held.Some? {
        HeldKind(m, chats.View(), id);
      }
      if held.None? || held.value.kind != Context {
        return Failure(NotFound);
      }
      DropCheckpoint(id);
      return Success(());
    }

    // ---- Held contexts -----------------------------------------------------------

    /** The longest proper prefix of whole segments that is held as a context. */
    method FindBase(segments: seq<Ids>) returns (covered: nat, state: State)
      requires Valid() && segments != []
      ensures covered < |segments| && StartsAt(m, segments, covered, state)
      ensures covered > 0 ==> ContextId(Flatten(segments[..covered])) in chats.View()
      ensures forall k :: covered < k < |segments| ==> ContextId(Flatten(segments[..k])) !in chats.View()
    {
      hide AllHeldOk, AllSpecsOk, CacheOk, ContextState, Budgeted, Faithful, Total, PinnedTotal;
      covered := |segments| - 1;
      while covered > 0
        invariant 0 <= covered < |segments|
        invariant forall k :: covered < k < |segments| ==> ContextId(Flatten(segments[..k])) !in chats.View()
      {
        var id := ContextId(Flatten(segments[..covered]));
        var held := chats.Peek(id);
        if held.Some? {
          HeldState(m, chats.View(), id);
          return covered, held.value.state;
        }
        covered := covered - 1;
      }
      return 0, [];
    }

    /** The state of a context's ids: forwarded from the longest held prefix, it
        is the whole build's. */
    method BuildState(segments: seq<Ids>, ghost ids: Ids) returns (r: Result<State, Failure>)
      requires Valid() && segments != [] && ids == Flatten(segments)
      requires IsHead(m.tok, segments[0]) && AllTurns(m.tok, segments[1..])
      modifies this`paths, specs, chats, states
      ensures Kept()
      ensures r.Failure? ==> Stops(r.error)
      ensures r.Success? ==> r.value == ContextState(m.tok, ids)
    {
      hide AllHeldOk, AllSpecsOk, CacheOk, ContextState, IsHead, AllTurns, Flatten, Budgeted, Faithful, StartsAt,
           Segmented, SameEntries, Total, PinnedTotal;
      SegmentsNonempty(m.tok, segments);
      var covered, state := FindBase(segments);
      BuildBlocks(m, segments, covered, state, ids);
      r := ForwardSegments(state, segments[covered..], true);
      if r.Success? {
        var ok := Check();
        if ok.Failure? {
          return Failure(ok.error);
        }
      }
    }

    /** Whether pinning a context, held or to be built, would be refused. */
    ghost predicate PinRefused(es: ChatEntries, id: Id) {
      if exists e :: e in es && e.id == id then PastHalf(es, id, chats.budget)
      else PinnedTotal(es) + ChatBytes(m, size, id) > chats.budget / 2
    }

    /** `build_context`: the id is a function of the content and the state held
        under it of the id, whatever was held before. Only a pin past half the
        budget is refused, and that takes away what the request built; what was
        evicted to build it does not come back. Every other pin stays as it was. */
    method BuildContext(q: Build, readBy: seq<string>) returns (r: Result<Id, Failure>)
      requires Valid()
      modifies this`background, this`paths, specs, chats, states
      ensures Valid() && Loaded() == old(Loaded()) && old(paths) <= paths
      ensures Stopped(r) || match BuildIds(m, q)
        case Failure(e) => r == Failure(e)
        case Success(ids) =>
          r == if q.pin == Some(true) && PinRefused(old(chats.entries), ContextId(ids)) then
                 Failure(InsufficientStorage)
               else Success(ContextId(ids))
      ensures r.Success? ==>
        r.value in chats.View() && forall k :: k in chats.View() ==> k in old(chats.View()) || k == r.value
      ensures r.Failure? && r.error != InsufficientStorage ==> chats.View() == old(chats.View())
      ensures r == Failure(InsufficientStorage) ==>
        BuildIds(m, q).Success?
        && var ids := BuildIds(m, q).value;
           (chats.View() == old(chats.View()) <==>
              ContextId(ids) in old(chats.View())
              || old(Total(chats.entries)) + ChatBytes(m, size, ContextId(ids)) <= chats.budget)
      ensures if r.Success? then PinsAs(old(chats.entries), chats.entries, r.value, q.pin)
        else SamePins(old(chats.entries), chats.entries)
    {
      var ok := Check();
      if ok.Failure? {
        return Failure(ok.error);
      }
      var texts := BuildTexts(m, q);
      if texts.Failure? {
        return Failure(BadRequest);
      }
      var segments := Encoded(m.tok, texts.value);
      var ids := Flatten(segments);
      if |ids| >= m.contextLimit {
        return Failure(BadRequest);
      }
      RenderedWhole(m, q.system, q.tools, q.messages, texts.value, ids);
      hide AllHeldOk, AllSpecsOk, CacheOk, ContextState, IsTranscript, IsHead, AllTurns, Decode, Budgeted,
           PinRefused, Faithful, Encoded, Flatten, Template.Concat, PastHalf, Total, PinnedTotal, ChatBytes, PinsAs;
      r := HoldContext(segments, ids, Template.Concat(texts.value), q.pin, readBy);
    }

    method HoldContext(segments: seq<Ids>, ids: Ids, text: string, pin: Option<bool>, readBy: seq<string>)
        returns (r: Result<Id, Failure>)
      requires Valid() && segments != [] && ids == Flatten(segments) && IsTranscript(m.tok, ids)
      requires IsHead(m.tok, segments[0]) && AllTurns(m.tok, segments[1..]) && text == Decode(m.tok, ids)
      requires |ids| <= m.contextLimit
      modifies this`background, this`paths, specs, chats, states
      ensures Valid() && Loaded() == old(Loaded()) && old(paths) <= paths
      ensures Stopped(r)
        || r == if pin == Some(true) && PinRefused(old(chats.entries), ContextId(ids)) then Failure(InsufficientStorage)
                else Success(ContextId(ids))
      ensures r.Success? ==>
        r.value in chats.View() && forall k :: k in chats.View() ==> k in old(chats.View()) || k == r.value
      ensures Stopped(r) ==> chats.View() == old(chats.View())
      ensures r == Failure(InsufficientStorage) ==>
        (chats.View() == old(chats.View()) <==>
           ContextId(ids) in old(chats.View())
           || old(Total(chats.entries)) + ChatBytes(m, size, ContextId(ids)) <= chats.budget)
      ensures if r.Success? then PinsAs(old(chats.entries), chats.entries, r.value, pin)
        else SamePins(old(chats.entries), chats.entries)
    {
      hide AllHeldOk, AllSpecsOk, CacheOk, ContextState, IsTranscript, IsHead, AllTurns, Flatten, Decode, Budgeted,
           Faithful, PastHalf, Admitted, Total, PinnedTotal, SameEntries, ChatBytes, PinsAs, SamePins;
      var id := ContextId(ids);
      ghost var es := chats.entries;
      HeldSomewhere(es, id);
      var held := chats.Peek(id);
      if held.Some? {
        r := PinHeld(id, pin);
        return;
      }
      r := BuildNew(segments, ids, text, pin, readBy);
    }

    /** A context held already is used, and pinned or not as asked. */
    method PinHeld(id: Id, pin: Option<bool>) returns (r: Result<Id, Failure>)
      requires Valid() && id in chats.View()
      modifies chats
      ensures Valid() && chats.View() == old(chats.View())
      ensures r == if pin == Some(true) && PinRefused(old(chats.entries), id) then Failure(InsufficientStorage)
                   else Success(id)
      ensures if r.Success? then PinsAs(old(chats.entries), chats.entries, r.value, pin)
        else SamePins(old(chats.entries), chats.entries)
    {
      hide AllHeldOk, AllSpecsOk, CacheOk, Faithful, Budgeted, Total, PinnedTotal, PastHalf, SameEntries, PinsAs,
           SamePins;
      ghost var es := chats.entries;
      HeldSomewhere(es, id);
      var held := Recall(id);
      ghost var mid := chats.entries;
      PastHalfSame(es, mid, id, chats.budget);
      SameEntriesPins(es, mid);
      NoPinAsked(es, mid, id);
      if pin.Some? {
        var refused := SetPin(id, pin.value);
        if refused {
          return Failure(InsufficientStorage);
        }
        PinsThen(es, mid, chats.entries, id, pin);
      }
      return Success(id);
    }

    /** A context built, held, and pinned as asked, or gone again. */
    method BuildNew(segments: seq<Ids>, ids: Ids, text: string, pin: Option<bool>, readBy: seq<string>)
        returns (r: Result<Id, Failure>)
      requires Valid() && segments != [] && ids == Flatten(segments) && IsTranscript(m.tok, ids)
      requires IsHead(m.tok, segments[0]) && AllTurns(m.tok, segments[1..]) && text == Decode(m.tok, ids)
      requires |ids| <= m.contextLimit && ContextId(ids) !in chats.View()
      modifies this`background, this`paths, specs, chats, states
      ensures Valid() && Loaded() == old(Loaded()) && old(paths) <= paths
      ensures Stopped(r)
        || r == if pin == Some(true)
                   && old(PinnedTotal(chats.entries)) + ChatBytes(m, size, ContextId(ids)) > chats.budget / 2 then
                  Failure(InsufficientStorage)
                else Success(ContextId(ids))
      ensures r.Success? ==>
        r.value in chats.View() && forall k :: k in chats.View() ==> k in old(chats.View()) || k == r.value
      ensures Stopped(r) ==> chats.View() == old(chats.View())
      ensures r == Failure(InsufficientStorage) ==>
        (chats.View() == old(chats.View())
         <==> old(Total(chats.entries)) + ChatBytes(m, size, ContextId(ids)) <= chats.budget)
      ensures if r.Success? then PinsAs(old(chats.entries), chats.entries, r.value, pin)
        else SamePins(old(chats.entries), chats.entries)
    {
      hide AllHeldOk, AllSpecsOk, CacheOk, ContextState, IsTranscript, IsHead, AllTurns, Flatten, Decode, Budgeted,
           Faithful, Total, PinnedTotal, PinsAs, SamePins;
      var id := ContextId(ids);
      ghost var es := chats.entries;
      var state := BuildState(segments, ids);
      ghost var mid := chats.entries;
      SameEntriesPins(es, mid);
      if state.Failure? {
        return Failure(state.error);
      }
      HoldCheckpoint(id, Checkpoint(Context, ids, text, state.value), readBy);
      ghost var e := Charge(id, Checkpoint(Context, ids, text, state.value));
      TakenBack(mid, e, chats.budget);
      AdmittedDistinct(mid, e, chats.budget);
      PastHalfOf(chats.entries, e, chats.budget);
      AdmittedSamePins(mid, e, chats.budget);
      PinsTwice(es, mid, chats.entries);
      NoPinAsked(es, chats.entries, id);
      ghost var grown := chats.entries;
      hide Admitted;
      if pin.Some? {
        var refused := SetPin(id, pin.value);
        if refused {
          DropCheckpoint(id);
          TakenBackPins(es, grown, chats.entries, id);
          return Failure(InsufficientStorage);
        }
        PinsThen(es, grown, chats.entries, id, pin);
      }
      return Success(id);
    }

    method SetPin(id: Id, pin: bool) returns (refused: bool)
      requires Valid() && id in chats.View()
      modifies chats
      ensures Valid() && chats.View() == old(chats.View())
      ensures refused <==> pin && PastHalf(old(chats.entries), id, chats.budget)
      ensures if refused then chats.entries == old(chats.entries)
        else PinsAs(old(chats.entries), chats.entries, id, Some(pin))
    {
      hide AllHeldOk, AllSpecsOk, CacheOk, Faithful, Bounded, LargestEntry, FullCheckpoint, Total, PinnedTotal,
           PastHalf, ChatBytes, IsPinned;
      var pinned := chats.SetPinned(id, pin);
      refused := pinned.Failure?;
      assert pinned != Success(false);
      assert refused || pinned.value;
    }

    // ---- Chats -------------------------------------------------------------------

    /** The turn's first checkpoint: held already, or forwarded from the base. */
    method UserCheckpoint(ids: Ids, text: string, start: State, segments: seq<Ids>, readBy: seq<string>)
        returns (r: Result<Checkpoint, Failure>, ghost asked: ChatEntries)
      requires Valid() && IsTranscript(m.tok, ids) && text == Decode(m.tok, ids) && |ids| <= m.contextLimit
      requires ChatState(m.tok, ids) == start + Segmented(segments) && segments != [] && [] !in segments
      modifies this`background, this`paths, specs, chats, states
      ensures Valid() && Loaded() == old(Loaded()) && old(paths) <= paths
      ensures r.Failure? ==> Stops(r.error) && chats.View() == old(chats.View())
      ensures r.Success? ==> r.value == Canonical(m, ChatId(ids)) && ChatId(ids) in chats.View()
      ensures r.Success? ==> Turned(old(chats.entries), ChatId(ids), asked, chats.entries)
      ensures forall k :: k in chats.View() ==> k == ChatId(ids) || k in old(chats.View())
    {
      hide AllSpecsOk, CacheOk, ChatState, IsTranscript, Decode, Budgeted, Faithful, Total, PinnedTotal, Admitted,
           Turned, SameEntries, ChatBytes;
      var id := ChatId(ids);
      var held := Recall(id);
      asked := chats.entries;
      if held.Some? {
        assert HeldOk(m, id, held.value);
        Recalled(old(chats.entries), id, asked);
        return Success(held.value), asked;
      }
      hide AllHeldOk;
      var state := ForwardSegments(start, segments, true);
      if state.Failure? {
        return Failure(state.error), asked;
      }
      var ok := Check();
      if ok.Failure? {
        return Failure(ok.error), asked;
      }
      SameTwice(old(chats.entries), asked, chats.entries);
      asked := chats.entries;
      var user := Checkpoint(ChatTurn, ids, text, state.value);
      HoldCheckpoint(id, user, readBy);
      NewlyHeld(old(chats.entries), id, asked, chats.entries);
      return Success(user), asked;
    }

    /** How holding the user's checkpoint changed the store: it held `before` as the
        turn came, in another order `asked` as the checkpoint did, and then that
        with the checkpoint held, again in another order, `closing`. */
    ghost predicate Turned(before: ChatEntries, user: Id, asked: ChatEntries, closing: ChatEntries) {
      StateStores.Distinct(before) && StateStores.Distinct(asked) && StateStores.Distinct(closing)
      && SameEntries(before, asked)
      && if user in AsMap(asked) then SameEntries(asked, closing)
         else
           PinnedTotal(asked) + ChatBytes(m, size, user) <= chats.budget
           && SameEntries(Admitted(asked, None, Charge(user, Canonical(m, user)), chats.budget), closing)
    }

    lemma {:induction false} Recalled(before: ChatEntries, user: Id, asked: ChatEntries)
      requires StateStores.Distinct(before) && StateStores.Distinct(asked) && SameEntries(before, asked)
      requires user in AsMap(asked)
      ensures Turned(before, user, asked, asked)
    {
      hide Total, PinnedTotal, Admitted, ChatBytes, Canonical;
    }

    lemma {:induction false} NewlyHeld(before: ChatEntries, user: Id, asked: ChatEntries, closing: ChatEntries)
      requires StateStores.Distinct(before) && StateStores.Distinct(asked) && StateStores.Distinct(closing)
      requires SameEntries(before, asked) && user !in AsMap(asked)
      requires PinnedTotal(asked) + Charge(user, Canonical(m, user)).bytes <= chats.budget
      requires closing == Admitted(asked, None, Charge(user, Canonical(m, user)), chats.budget)
      ensures Turned(before, user, asked, closing)
    {
      hide Total, PinnedTotal, Admitted, Decode, ChatState, ContextState;
    }

    /** Later reads only change the order again. */
    lemma {:induction false} TurnedOn(
        before: ChatEntries, user: Id, asked: ChatEntries, mid: ChatEntries, closing: ChatEntries)
      requires Turned(before, user, asked, mid) && SameEntries(mid, closing) && StateStores.Distinct(closing)
      ensures Turned(before, user, asked, closing)
    {
      hide Total, PinnedTotal, Admitted, ChatBytes, Canonical, SameEntries;
      if user in AsMap(asked) {
        SameTwice(asked, mid, closing);
      } else {
        SameTwice(Admitted(asked, None, Charge(user, Canonical(m, user)), chats.budget), mid, closing);
      }
    }

    /** A new checkpoint's tail prefixes, for the specs in `readBy`: one that fails
        is skipped, and only the turn's own stop ends the loop. */
    method FillTails(id: Id, readBy: seq<string>) returns (r: Result<(), Failure>)
      requires Valid()
      modifies this`background, this`paths, specs, chats, states
      ensures Valid() && Loaded() == old(Loaded()) && chats.View() == old(chats.View()) && old(paths) <= paths
      ensures SameEntries(old(chats.entries), chats.entries)
      ensures r.Failure? ==> Stops(r.error)
    {
      hide AllHeldOk, AllSpecsOk, CacheOk, Budgeted, Faithful, Total, PinnedTotal;
      for i := 0 to |readBy|
        invariant Kept()
      {
        var filled := TailPrefill(id, readBy[i]);
        if filled.Failure? {
          r := Check();
          if r.Failure? {
            return;
          }
        }
      }
      background := TasksWithout(background, (t: Task) => t.0 == id);
      return Success(());
    }

    /** The assistant's turn, its end forwarded too: the tokens, whether they
        ended, and then the state after them. */
    method Reply(first: Config, maxTokens: nat) returns (r: Result<(Ids, bool, State), Failure>)
      requires Valid() && first.generated == []
      modifies this`paths, specs, chats, states
      ensures Kept()
      ensures r.Failure? ==> Stops(r.error) || Generated(m, first, maxTokens) == Failure(r.error)
      ensures r.Success? ==> Generated(m, first, maxTokens) == Success((r.value.0, r.value.1))
      ensures r.Success? && r.value.1 ==> r.value.2 == first.state + Singles(r.value.0)
    {
      hide AllHeldOk, AllSpecsOk, CacheOk, Budgeted, Faithful, Total, PinnedTotal;
      var c := first;
      assert first.state + [] == first.state;
      while |c.generated| < maxTokens
        invariant Kept() && |c.generated| <= maxTokens && c.state == first.state + Singles(c.generated)
        invariant Generated(m, c, maxTokens - |c.generated|) == Generated(m, first, maxTokens)
        decreases maxTokens - |c.generated|
      {
        var ok := Pause();
        if ok.Failure? {
          return Failure(ok.error);
        }
        var sampled := Sample(m, c.decoder, c.logits);
        if sampled.Failure? || !m.usable(sampled.value.0) {
          return Failure(Internal);
        }
        var (token, decoder) := sampled.value;
        SinglesSnoc(c.generated, token);
        Text.Assoc(first.state, Singles(c.generated), [[token]]);
        if token == EOS {
          return Success((c.generated + [token], true, c.state + [[token]]));
        }
        if |c.generated| + 1 == maxTokens {
          return Success((c.generated + [token], false, c.state));
        }
        c := Forward(c, token, decoder);
      }
      return Success((c.generated, false, c.state));
    }

    /** The state after a chat's ids and the assistant's opening. */
    method Opened(user: Checkpoint, ids: Ids) returns (r: Result<State, Failure>)
      requires Valid() && user.state == ChatState(m.tok, ids)
      modifies this`paths, specs, chats, states
      ensures Kept()
      ensures r.Failure? ==> Stops(r.error)
      ensures r.Success? ==> r.value == ChatStart(m, ids)
    {
      OpeningNonempty(m.tok);
      hide AllHeldOk, AllSpecsOk, CacheOk, ChatState, Faithful, Budgeted, Total, PinnedTotal;
      LaidOne(InChunks(), Opening(m.tok));
      r := ForwardSegments(user.state, [Opening(m.tok)], true);
    }

    /** What holding the closing checkpoint did to the store as it stood: `es`. */
    ghost predicate Closes(es: ChatEntries, all: Ids)
      reads chats
    {
      chats.Valid() && StateStores.Distinct(es)
      && var id := ChatId(all);
         if id in AsMap(es) then SameEntries(es, chats.entries)
         else
           PinnedTotal(es) + Charge(id, Canonical(m, id)).bytes <= chats.budget
           && chats.entries == Admitted(es, None, Charge(id, Canonical(m, id)), chats.budget)
    }

    /** The turn closed by the template's newline, and held. */
    method Close(user: Checkpoint, ids: Ids, tokens: Ids, state: State, readBy: seq<string>)
        returns (r: Result<Id, Failure>, ghost es: ChatEntries)
      requires Valid() && IsTranscript(m.tok, ids) && user.text == Decode(m.tok, ids)
      requires tokens != [] && tokens[|tokens| - 1] == EOS && EOS !in tokens[..|tokens| - 1]
      requires state == ChatStart(m, ids) + Singles(tokens)
      requires |ids| + |Opening(m.tok)| + |tokens| + |Newline(m.tok)| <= m.contextLimit
      modifies this`background, this`paths, specs, chats, states
      ensures Valid() && Loaded() == old(Loaded()) && old(paths) <= paths
      ensures r.Failure? ==> Stops(r.error) && chats.View() == old(chats.View())
      ensures r.Success? ==> r.value == Closed(m, ids, tokens) && r.value in chats.View()
      ensures r.Success? ==>
        SameEntries(old(chats.entries), es) && StateStores.Distinct(es) && Closes(es, r.value.ids)
      ensures forall k :: k in chats.View() ==> k in old(chats.View()) || r == Success(k)
    {
      hide AllHeldOk, AllSpecsOk, CacheOk, ChatState, ChatStart, IsTranscript, Decode, Faithful, Budgeted, Admitted,
           Total, PinnedTotal, Chunked, Singles, Flatten, Opening, Newline;
      var all := ids + Opening(m.tok) + tokens + Newline(m.tok);
      ReplyAdded(m, ids, tokens, all);
      LaidOne(InChunks(), Newline(m.tok));
      OpeningNonempty(m.tok);
      es := chats.entries;
      var after := ForwardSegments(state, [Newline(m.tok)], true);
      if after.Failure? {
        return Failure(after.error), es;
      }
      var ok := Check();
      if ok.Failure? {
        return Failure(ok.error), es;
      }
      var text := user.text + Template.GENERATION_PROMPT + Decode(m.tok, tokens) + Template.AFTER_EOS;
      es := chats.entries;
      HoldCheckpoint(ChatId(all), Checkpoint(ChatTurn, all, text, after.value), readBy);
      return Success(ChatId(all)), es;
    }

    /** The opening and the reply after a chat's ids: what the model generates, and
        when it ended itself the state after it. */
    method Spoken(user: Checkpoint, ids: Ids, maxTokens: nat) returns (r: Result<(Ids, bool, State), Failure>)
      requires Valid() && user.state == ChatState(m.tok, ids)
      modifies this`paths, specs, chats, states
      ensures Kept()
      ensures match r
        case Failure(e) => Stops(e) || ChatRun(m, ids, maxTokens) == Failure(e)
        case Success((tokens, stopped, state)) =>
          ChatRun(m, ids, maxTokens) == Success((tokens, stopped)) && |tokens| <= maxTokens
          && (stopped ==>
                state == ChatStart(m, ids) + Singles(tokens) && tokens != [] && tokens[|tokens| - 1] == EOS
                && EOS !in tokens[..|tokens| - 1])
    {
      hide AllHeldOk, AllSpecsOk, CacheOk, ChatState, ChatStart, Faithful, Budgeted, Generated, Total, PinnedTotal,
           Singles;
      var start := Opened(user, ids);
      if start.Failure? {
        return Failure(start.error);
      }
      var first := Begin(m, None, ids + Opening(m.tok), start.value);
      r := Reply(first, maxTokens);
      if r.Failure? {
        return;
      }
      var ok := Check();
      if ok.Failure? {
        return Failure(ok.error);
      }
      GeneratedAtMost(m, first, maxTokens);
      if r.value.1 {
        StoppedAtEnd(m, first, maxTokens, r.value.0);
      }
    }

    /** The assistant's turn after a chat's ids: a function of the ids. */
    method AssistantTurn(user: Checkpoint, ids: Ids, maxTokens: nat, readBy: seq<string>)
        returns (r: Result<ChatReply, Failure>, ghost es: ChatEntries)
      requires Valid() && user == Canonical(m, ChatId(ids)) && IsTranscript(m.tok, ids) && ChatId(ids) in chats.View()
      requires |ids| + |Opening(m.tok)| + maxTokens + |Newline(m.tok)| <= m.contextLimit
      modifies this`background, this`paths, specs, chats, states
      ensures Valid() && Loaded() == old(Loaded()) && old(paths) <= paths
      ensures Stopped(r) || r == RepliesTo(m, ids, maxTokens)
      ensures r.Success? && r.value.checkpoint.None? ==> chats.View() == old(chats.View())
      ensures r.Success? ==> SameEntries(old(chats.entries), es) && StateStores.Distinct(es)
      ensures r.Success? && r.value.checkpoint.Some? ==>
        r.value.checkpoint.value in chats.View() && Closes(es, r.value.checkpoint.value.ids)
      ensures forall k :: k in chats.View() ==> k in old(chats.View()) || (r.Success? && r.value.checkpoint == Some(k))
    {
      hide AllHeldOk, AllSpecsOk, CacheOk, ChatState, ChatStart, ChatRun, IsTranscript, Decode, Faithful, Budgeted,
           Closes, Closed, Total, PinnedTotal;
      es := chats.entries;
      var spoken := Spoken(user, ids, maxTokens);
      if spoken.Failure? {
        return Failure(spoken.error), es;
      }
      var (tokens, stopped, state) := spoken.value;
      if !stopped {
        return Success(ChatReply(ChatId(ids), None, tokens, false)), es;
      }
      ghost var before := chats.entries;
      var closed;
      closed, es := Close(user, ids, tokens, state, readBy);
      if closed.Failure? {
        return Failure(closed.error), es;
      }
      SameTwice(old(chats.entries), before, es);
      return Success(ChatReply(ChatId(ids), Some(closed.value), tokens, true)), es;
    }

    /** `chat_turn`: the reply is a function of the ids alone, whichever checkpoint
        it continues, whatever is held and whatever ran at its pauses; the
        checkpoints it leaves are named by the ids and canonical. The closing one
        is held when the turn answers; whether the user's still is `BothHeld` says,
        with `asked` and `es` the store as either came to be held. */
    method ChatTurnJob(q: Chat, readBy: seq<string>)
        returns (r: Result<ChatReply, Failure>, ghost asked: ChatEntries, ghost es: ChatEntries)
      requires Valid()
      modifies this`background, this`paths, specs, chats, states
      ensures Valid() && Loaded() == old(Loaded()) && old(paths) <= paths
      ensures Stopped(r) || r == ReplyOf(m, old(chats.View()), q)
      ensures r.Success? ==>
        ChatPrompt(m, old(chats.View()), q).Success?
        && BothHeld(old(chats.entries), ChatPrompt(m, old(chats.View()), q).value, r.value, asked, es)
      ensures forall k :: k in chats.View() && k !in old(chats.View()) ==>
        var ids := ChatPrompt(m, old(chats.View()), q);
        ids.Success? && (k == ChatId(ids.value) || (r.Success? && r.value.checkpoint == Some(k)))
    {
      ghost var held, before := chats.View(), chats.entries;
      hide *;
      asked, es := chats.entries, chats.entries;
      var ok := Check();
      if ok.Failure? {
        CheckStops(ok.error);
        return Failure(ok.error), asked, es;
      }
      var laid := LayChat(q);
      if laid.Failure? {
        Unprompted(m, held, q, laid.error);
        return Failure(laid.error), asked, es;
      }
      var (ids, text, start, segments) := laid.value;
      ghost var mid := chats.entries;
      r, asked, es := ChatOn(ids, text, start, segments, q.maxTokens, readBy);
      Replied(m, held, q, ids, r);
      if r.Success? {
        BothHeldFrom(before, mid, ids, r.value, asked, es);
      }
    }

    /** A chat's ids and text, and the segments it appends to the state it continues. */
    method LayChat(q: Chat) returns (r: Result<(Ids, string, State, seq<Ids>), Failure>)
      requires Valid()
      modifies chats
      ensures Kept()
      ensures match r
        case Failure(e) => ChatPrompt(m, old(chats.View()), q) == Failure(e)
        case Success((ids, text, start, segments)) =>
          ChatPrompt(m, old(chats.View()), q) == Success(ids) && IsTranscript(m.tok, ids) && text == Decode(m.tok, ids)
          && ChatState(m.tok, ids) == start + Segmented(segments) && segments != [] && [] !in segments
          && |ids| + |Opening(m.tok)| + q.maxTokens + |Newline(m.tok)| <= m.contextLimit
    {
      hide AllHeldOk, AllSpecsOk, CacheOk, Budgeted, Faithful, ChatTexts, ChatState, IsTranscript, Decode, Segmented,
           Flatten, Template.Concat, Total, PinnedTotal;
      ghost var held := chats.View();
      var texts := ChatTexts(m, q);
      if !ChatValid(q) || texts.Failure? {
        return Failure(BadRequest);
      }
      var base := Checkpoint(ChatTurn, [], "", []);
      if q.from.Some? {
        var from := Recall(q.from.value);
        if from.None? {
          return Failure(NotFound);
        }
        if from.value.kind != ChatTurn {
          return Failure(BadRequest);
        }
        base := from.value;
      }
      var segments := Encoded(m.tok, texts.value);
      var ids := base.ids + Flatten(segments);
      if |ids| + |Opening(m.tok)| + q.maxTokens + |Newline(m.tok)| > m.contextLimit {
        return Failure(BadRequest);
      }
      ChatPrompted(m, held, q, texts.value, base, ids);
      ChatSegments(m, q, texts.value);
      return Success((ids, base.text + Template.Concat(texts.value), base.state, segments));
    }

    /** A turn whose prompt is laid out: its first checkpoint, that checkpoint's tail
        prefixes, the assistant's turn. */
    method ChatOn(ids: Ids, text: string, start: State, segments: seq<Ids>, maxTokens: nat, readBy: seq<string>)
        returns (r: Result<ChatReply, Failure>, ghost asked: ChatEntries, ghost es: ChatEntries)
      requires Valid() && IsTranscript(m.tok, ids) && text == Decode(m.tok, ids)
      requires ChatState(m.tok, ids) == start + Segmented(segments) && segments != [] && [] !in segments
      requires |ids| + |Opening(m.tok)| + maxTokens + |Newline(m.tok)| <= m.contextLimit
      modifies this`background, this`paths, specs, chats, states
      ensures Valid() && Loaded() == old(Loaded()) && old(paths) <= paths
      ensures Stopped(r) || r == RepliesTo(m, ids, maxTokens)
      ensures r.Success? ==> BothHeld(old(chats.entries), ids, r.value, asked, es)
      ensures forall k :: k in chats.View() && k !in old(chats.View()) ==>
        k == ChatId(ids) || (r.Success? && r.value.checkpoint == Some(k))
    {
      hide AllHeldOk, AllSpecsOk, CacheOk, ChatState, ChatStart, IsTranscript, Decode, Faithful, Bounded, RepliesTo,
           Closes, Survives, Segmented, Flatten, Canonical, SameEntries, Total, PinnedTotal, Turned, AllCharged,
           Foreseen, LargestEntry, FullCheckpoint, ChatBytes;
      OpeningNonempty(m.tok);
      ghost var before := chats.entries;
      es := before;
      var user;
      user, asked := UserCheckpoint(ids, text, start, segments, readBy);
      if user.Failure? {
        return Failure(user.error), asked, es;
      }
      InFull(ChatId(ids));
      ghost var mid := chats.entries;
      var ok := FillTails(ChatId(ids), readBy);
      if ok.Failure? {
        return Failure(ok.error), asked, es;
      }
      ghost var filled := chats.entries;
      r, es := AssistantTurn(user.value, ids, maxTokens, readBy);
      if r.Success? {
        SameTwice(mid, filled, es);
        TurnedOn(before, ChatId(ids), asked, mid, es);
        UserOf(m, ids, maxTokens, r.value);
        if r.value.checkpoint.Some? {
          InFull(r.value.checkpoint.value);
          Stays(before, asked, es, ChatId(ids), r.value.checkpoint.value);
        }
      }
    }

    /** The closing checkpoint is held. The user's is too exactly when it survives
        that: with `es` the store as the closing one came, which is what the store
        was before the turn, the user's held and both in some order of use. */
    ghost predicate BothHeld(
        before: ChatEntries, ids: Ids, r: ChatReply, asked: ChatEntries, es: ChatEntries)
      reads chats
    {
      chats.Valid() && r.user == ChatId(ids) && Turned(before, r.user, asked, es)
      && match r.checkpoint
         case None => r.user in chats.View()
         case Some(closed) =>
           closed in chats.View()
           && (r.user in chats.View() <==>
                 closed in AsMap(es) || Survives(es, r.user, ChatBytes(m, size, closed), chats.budget))
           && Foreseen(before, r.user, closed, es)
    }

    /** What the user's checkpoint takes when it is not held. */
    ghost function Room(before: ChatEntries, user: Id): nat
      requires StateStores.Distinct(before)
    {
      if user in AsMap(before) then 0 else ChatBytes(m, size, user)
    }

    /** What can be told before the turn: the user's checkpoint stays when all that
        is held and both checkpoints fit; it stays only when the two and the pins do;
        and it stays when nothing is pinned and nothing was used after it. */
    ghost predicate Foreseen(before: ChatEntries, user: Id, closed: Id, es: ChatEntries)
      requires StateStores.Distinct(before)
      reads chats
    {
      chats.Valid()
      && (Total(before) + Room(before, user) + ChatBytes(m, size, closed) <= chats.budget ==> user in chats.View())
      && (user in chats.View() && closed !in AsMap(before) && !IsPinned(before, user) ==>
            ChatBytes(m, size, user) + PinnedTotal(before) + ChatBytes(m, size, closed) <= chats.budget)
      && (PinnedTotal(before) == 0 && es != [] && es[|es| - 1].id == user ==> user in chats.View())
    }

    lemma {:induction false} BothHeldFrom(
        before: ChatEntries, mid: ChatEntries, ids: Ids, r: ChatReply, asked: ChatEntries, es: ChatEntries)
      requires StateStores.Distinct(before) && SameEntries(before, mid) && BothHeld(mid, ids, r, asked, es)
      ensures BothHeld(before, ids, r, asked, es)
    {
      hide Total, PinnedTotal, Admitted, ChatBytes, Canonical, Charge, Survives;
      SameView(before, mid);
      SameTwice(before, mid, asked);
    }

    /** The user's checkpoint in the store as the closing one comes. */
    lemma {:induction false} TurnedEntry(before: ChatEntries, user: Id, asked: ChatEntries, es: ChatEntries)
        returns (x: Entry<Id, Group, Checkpoint>)
      requires Turned(before, user, asked, es) && AllCharged(m, size, before)
      requires ChatBytes(m, size, user) <= Full()
      ensures x in es && x.id == user && x.bytes == ChatBytes(m, size, user)
      ensures user in AsMap(es) && (x.pinned <==> IsPinned(before, user)) && AllCharged(m, size, es)
      ensures PinnedTotal(es) == PinnedTotal(before) && forall k :: k in AsMap(es) ==> k == user || k in AsMap(before)
      ensures Total(before) + Room(before, user) <= chats.budget ==> Total(es) == Total(before) + Room(before, user)
    {
      hide Total, PinnedTotal, Admitted, ChatBytes, Canonical, FullCheckpoint;
      var e := Charge(user, Canonical(m, user));
      assert e.bytes == ChatBytes(m, size, user) by { ChargeOf(user); }
      SameView(before, asked);
      if user in AsMap(asked) {
        SameView(asked, es);
        x := MemberOf(es, user);
        OnePin(es, x);
      } else {
        var mid := Admitted(asked, None, e, chats.budget);
        AdmittedDistinct(asked, e, chats.budget);
        AdmittedWhole(asked, e, chats.budget);
        IdsOf(asked, e, mid);
        SameView(mid, es);
        x := e;
        InView(es, e);
        NotPinned(before, user);
      }
    }

    /** What is held is charged no more than `load` asked for. */
    lemma {:induction false} InFull(id: Id)
      requires Valid() && id in chats.View()
      ensures ChatBytes(m, size, id) <= Full()
    {
      hide AllSpecsOk, AllHeldOk, CacheOk, Faithful, Bounded, LargestEntry, FullCheckpoint, ChatBytes, Total,
           PinnedTotal;
      var e := MemberOf(chats.entries, id);
    }

    lemma {:induction false} ChargeOf(id: Id)
      ensures Charge(id, Canonical(m, id)).bytes == ChatBytes(m, size, id) && Charge(id, Canonical(m, id)).id == id
    {
      hide CheckpointBytes, Decode, ChatState, ContextState;
    }

    /** The closing checkpoint held: the user's stays exactly when it survives. */
    lemma {:induction false} Stays(
        before: ChatEntries, asked: ChatEntries, es: ChatEntries, user: Id, closed: Id)
      requires chats.Valid() && closed.ChatId? && closed != user && Closes(es, closed.ids)
      requires Turned(before, user, asked, es) && AllCharged(m, size, before) && chats.budget >= 2 * Full()
      requires ChatBytes(m, size, user) <= Full() && ChatBytes(m, size, closed) <= Full()
      ensures user in chats.View() <==>
        closed in AsMap(es) || Survives(es, user, ChatBytes(m, size, closed), chats.budget)
      ensures Foreseen(before, user, closed, es)
    {
      var x := TurnedEntry(before, user, asked, es);
      var e := Charge(closed, Canonical(m, closed));
      ChargeOf(closed);
      assert e.id == closed == ChatId(closed.ids);
      hide Total, PinnedTotal, Canonical, Charge, Admitted, Survives, Turned, AllCharged, ChatBytes, FullCheckpoint;
      if closed in AsMap(es) {
        InView(chats.entries, x);
      } else {
        SurvivesAdmitted(es, e, chats.budget, user);
      }
      if !x.pinned {
        SurvivesBounds(es, x, e.bytes, chats.budget);
      } else {
        PinnedSurvives(es, x, e.bytes, chats.budget);
      }
      if PinnedTotal(before) == 0 && es != [] && es[|es| - 1].id == user {
        OneEntry(es, x, es[|es| - 1]);
        if !x.pinned {
          BothFit(m, size, es, closed, chats.budget);
        }
      }
    }

    /** What can be told before a turn is exact over the orders of use its pauses may
        leave: the closing checkpoint can leave the user's held if and only if the
        two and the pins fit; and, if the user's itself evicts nothing, it surely
        does if and only if all that is held and the two fit. */
    lemma {:induction false} TurnInOrders(before: ChatEntries, user: Id, closed: Id)
      requires StateStores.Distinct(before) && AllCharged(m, size, before) && !IsPinned(before, user)
      requires ChatBytes(m, size, user) <= Full()
      requires PinnedTotal(before) + ChatBytes(m, size, user) <= chats.budget
      ensures var bytes := ChatBytes(m, size, closed);
        (exists asked, es :: Turned(before, user, asked, es) && Survives(es, user, bytes, chats.budget))
        <==> ChatBytes(m, size, user) + PinnedTotal(before) + bytes <= chats.budget
      ensures Total(before) + Room(before, user) <= chats.budget ==>
        var bytes := ChatBytes(m, size, closed);
        (forall asked, es | Turned(before, user, asked, es) :: Survives(es, user, bytes, chats.budget))
        <==> Total(before) + Room(before, user) + bytes <= chats.budget
    {
      hide Total, PinnedTotal, Canonical, Charge, Admitted, Survives, Turned, AllCharged, ChatBytes, FullCheckpoint;
      var bytes := ChatBytes(m, size, closed);
      forall asked, es | Turned(before, user, asked, es)
        ensures Survives(es, user, bytes, chats.budget) ==>
          ChatBytes(m, size, user) + PinnedTotal(before) + bytes <= chats.budget
        ensures Total(before) + Room(before, user) + bytes <= chats.budget ==>
          Survives(es, user, bytes, chats.budget)
      {
        var x := TurnedEntry(before, user, asked, es);
        AreDistinct(before, user, asked, es);
        SurvivesBounds(es, x, bytes, chats.budget);
      }
      var mid := FirstTurn(before, user);
      var x := TurnedEntry(before, user, before, mid);
      AreDistinct(before, user, before, mid);
      var first := UsedFirst(mid, x, bytes, chats.budget);
      TurnedOn(before, user, before, mid, first);
      var last := UsedLast(mid, x, bytes, chats.budget);
      TurnedOn(before, user, before, mid, last);
    }

    lemma {:induction false} AreDistinct(before: ChatEntries, user: Id, asked: ChatEntries, es: ChatEntries)
      requires Turned(before, user, asked, es)
      ensures StateStores.Distinct(es)
    {
    }

    /** A turn whose pauses use nothing. */
    lemma {:induction false} FirstTurn(before: ChatEntries, user: Id) returns (mid: ChatEntries)
      requires StateStores.Distinct(before) && PinnedTotal(before) + ChatBytes(m, size, user) <= chats.budget
      ensures Turned(before, user, before, mid)
    {
      hide Total, PinnedTotal, Canonical, Admitted, ChatBytes;
      ChargeOf(user);
      if user in AsMap(before) {
        mid := before;
      } else {
        mid := Admitted(before, None, Charge(user, Canonical(m, user)), chats.budget);
        AdmittedDistinct(before, Charge(user, Canonical(m, user)), chats.budget);
      }
    }

    // ---- Registration and deletion -------------------------------------------------

    /** A spec's entries and tasks, once it is not loaded. */
    method ForgetSpec(gone: string, ghost loaded: set<LoadedSpec>)
      requires specs.Valid() && chats.Valid() && states.Valid() && Faithful(m.tok) && Budgeted()
      requires AllSpecsOk(m, Loaded()) && AllHeldOk(m, chats.View())
      requires CacheOk(m, loaded, chats.View(), paths, states.View())
      requires forall s :: s in Loaded() <==> s in loaded && s.id != gone
      requires forall t :: t in background ==> t.0 in chats.View()
      modifies this`background, states
      ensures Valid() && states.View() == WithoutSpec(old(states.View()), gone)
      ensures forall t :: t in background <==> t in old(background) && t.1 != gone
    {
      hide AllSpecsOk, AllHeldOk, CacheOk, Faithful, Bounded, LargestEntry, FullCheckpoint, AllCharged, Total,
           PinnedTotal, Filtered;
      ghost var cache := states.View();
      states.Retain((k: CacheKey) => k.spec != gone);
      assert states.View() == WithoutSpec(cache, gone);
      background := TasksWithout(background, (t: Task) => t.1 == gone);
      SpecGone(m, loaded, Loaded(), gone, chats.View(), paths, cache, states.View());
    }

    /** `register`: loaded already, or loaded now with the least recently used
        upload and all it left gone when full; refused only when it is new and does
        not load or can never be held. */
    method RegisterJob(id: string, spec: Option<LoadedSpec>) returns (r: Result<Registered, Failure>)
      requires Valid() && (spec.Some? ==> spec.value.id == id && SpecOk(m, spec.value))
      modifies this`background, specs, states
      ensures Valid()
      ensures Stopped(r)
        || if Names(old(Loaded()), id) then r.Success? && !r.value.newly
           else if specs.capacity == 0 || spec.None? then r == Failure(Unprocessable)
           else r.Success? && r.value.newly
      ensures r.Failure? ==> Loaded() == old(Loaded())
      ensures r.Success? ==> Names(Loaded(), id) && r.value.menu == specs.All()
      ensures r.Success? && !r.value.newly ==> Loaded() == old(Loaded()) && r.value.evicted.None?
      ensures r.Success? && r.value.newly ==>
        r.value.evicted == Victim(old(specs.uploaded), specs.capacity)
        && forall s :: s in Loaded() <==> s == spec.value || (s in old(Loaded()) && r.value.evicted != Some(s.id))
      ensures states.View()
        == if r.Success? && r.value.evicted.Some? then WithoutSpec(old(states.View()), r.value.evicted.value)
           else old(states.View())
    {
      var ok := Check();
      if ok.Failure? {
        return Failure(ok.error);
      }
      if specs.capacity == 0 && specs.Get(id).None? {
        return Failure(Unprocessable);
      }
      ghost var before := Loaded();
      hide AllSpecsOk, AllHeldOk, CacheOk, SpecOk, Total, PinnedTotal, WithoutSpec, Faithful, Budgeted, Victim;
      var entry := TakeIn(id, spec);
      if entry.None? {
        return Failure(Unprocessable);
      }
      var (held, newly, evicted) := entry.value;
      if newly {
        SpecLoaded(m, before, held, chats.View(), paths, states.View());
        NewSpecOk(m, before, held, Loaded());
        MakeWay(held, evicted, before);
      }
      return Success(Registered(newly, evicted, specs.All()));
    }

    /** The spec store's part of a registration. */
    method TakeIn(id: string, spec: Option<LoadedSpec>) returns (r: Option<(LoadedSpec, bool, Option<string>)>)
      requires specs.Valid() && (spec.Some? ==> spec.value.id == id && SpecOk(m, spec.value))
      requires specs.capacity > 0 || Names(Loaded(), id)
      modifies specs
      ensures specs.Valid()
      ensures r.None? <==> !Names(old(Loaded()), id) && spec.None?
      ensures r.None? ==> Loaded() == old(Loaded())
      ensures r.Some? ==>
        r.value.0 in Loaded() && r.value.0.id == id && (r.value.1 <==> !Names(old(Loaded()), id))
        && if !r.value.1 then Loaded() == old(Loaded()) && r.value.2.None?
           else
             spec == Some(r.value.0) && r.value.2 != Some(id)
             && r.value.2 == Victim(old(specs.uploaded), specs.capacity)
             && forall s :: s in Loaded() <==> s == r.value.0 || (s in old(Loaded()) && r.value.2 != Some(s.id))
    {
      hide Victim, Sound, Apply, SpecOk, ById;
      ghost var before := specs.All();
      assert forall s :: s in Loaded() <==> s in before;
      r := specs.RegisterOrLoad(id, spec);
      assert forall s :: s in Loaded() <==> s in specs.All();
    }

    /** What the upload evicted for a new one leaves behind goes. */
    method MakeWay(spec: LoadedSpec, evicted: Option<string>, ghost before: set<LoadedSpec>)
      requires specs.Valid() && chats.Valid() && states.Valid() && Faithful(m.tok) && Budgeted()
      requires AllSpecsOk(m, Loaded()) && AllHeldOk(m, chats.View())
      requires CacheOk(m, before + {spec}, chats.View(), paths, states.View())
      requires forall s :: s in Loaded() <==> s == spec || (s in before && evicted != Some(s.id))
      requires evicted != Some(spec.id) && forall t :: t in background ==> t.0 in chats.View()
      modifies this`background, states
      ensures Valid()
      ensures states.View()
        == if evicted.Some? then WithoutSpec(old(states.View()), evicted.value) else old(states.View())
    {
      hide AllSpecsOk, AllHeldOk, CacheOk, Total, PinnedTotal;
      if evicted.Some? {
        ForgetSpec(evicted.value, before + {spec});
      } else {
        assert Loaded() == before + {spec};
      }
    }

    /** `unregister`: an upload goes and all it left with it; a boot spec stays,
        asked for by its id or its name. */
    method UnregisterJob(id: string) returns (r: RemoveOutcome)
      requires Valid()
      modifies this`background, specs, states
      ensures Valid()
      ensures r.Boot? <==> exists s :: s in specs.boot && (s.id == id || s.name == id)
      ensures r.Removed? <==> !r.Boot? && Names(old(Loaded()), id)
      ensures !r.Removed? ==> Loaded() == old(Loaded()) && states.View() == old(states.View())
      ensures r.Removed? ==>
        r.spec in old(Loaded()) && r.spec.id == id && states.View() == WithoutSpec(old(states.View()), id)
        && forall s :: s in Loaded() <==> s in old(Loaded()) && s.id != id
    {
      ghost var before := Loaded();
      hide AllSpecsOk, AllHeldOk, CacheOk, SpecOk, Total, PinnedTotal, WithoutSpec, Faithful, Budgeted;
      r := specs.Unload(id);
      if r.Removed? {
        FewerSpecs(m, before, Loaded());
        ForgetSpec(r.spec.id, before);
      }
    }

    /** The oldest queued task, taken off and run. */
    method FirstTask() returns (r: Result<bool, Failure>)
      requires Valid() && background != []
      modifies this`background, this`paths, specs, chats, states
      ensures Valid() && Loaded() == old(Loaded()) && chats.View() == old(chats.View()) && old(paths) <= paths
      ensures background == old(background)[1..]
      ensures r == Success(false) ==>
        var first := old(background)[0];
        states.View() == old(states.View())
        && !Wanted(m, old(Loaded()), old(chats.View()), old(states.View()), first.0, first.1)
    {
      hide AllSpecsOk, AllHeldOk, CacheOk, Budgeted, Faithful, Total, PinnedTotal, Wanted;
      var task := background[0];
      background := background[1..];
      r := TailPrefill(task.0, task.1);
    }

    /** One background task that had work to do, the ones with none dropped. */
    method BackgroundJob() returns (ran: bool)
      requires Valid()
      modifies this`background, this`paths, specs, chats, states
      ensures Valid() && Loaded() == old(Loaded()) && chats.View() == old(chats.View()) && old(paths) <= paths
      ensures !ran ==>
        background == [] && states.View() == old(states.View())
        && forall t :: t in old(background) ==>
          !Wanted(m, old(Loaded()), old(chats.View()), old(states.View()), t.0, t.1)
      ensures ran ==> exists n :: 0 < n <= |old(background)| && background == old(background)[n..]
    {
      hide AllSpecsOk, AllHeldOk, CacheOk, Budgeted, Faithful, Total, PinnedTotal, Wanted;
      ghost var n, queued, loaded, held, cached := 0, background, Loaded(), chats.View(), states.View();
      while background != []
        invariant Valid() && Loaded() == loaded && chats.View() == held && states.View() == cached
        invariant old(paths) <= paths
        invariant n <= |queued| && background == queued[n..]
        invariant forall i :: 0 <= i < n ==> !Wanted(m, loaded, held, cached, queued[i].0, queued[i].1)
        decreases |background|
      {
        n := n + 1;
        var filled := FirstTask();
        if filled != Success(false) {
          return true;
        }
      }
      return false;
    }

    // ---- Every job -------------------------------------------------------------------

    /** Any job keeps the invariant: no orphan entry, every entry and checkpoint
        what its key stands for. An interactive one keeps every loaded spec, held
        checkpoint and queued task besides. */
    method Run(job: Job)
      requires Valid()
      requires job.Register? && job.loaded.Some? ==> job.loaded.value.id == job.id && SpecOk(m, job.loaded.value)
      modifies this`background, this`paths, specs, chats, states
      ensures Valid() && old(paths) <= paths
      ensures ClassOf(job).Interactive? ==> Kept()
    {
      hide AllSpecsOk, AllHeldOk, CacheOk, SpecOk, Generates, ReplyOf, ChatPrompt, BuildIds, Survives, Budgeted,
           Faithful, Total, PinnedTotal;
      var readBy: seq<string> := *;
      match job {
        case Opinion(_) => Serve(job);
        case Verdict(_, _, _) => Serve(job);
        case Probe(_, _, _) => Serve(job);
        case ContextInfo(_) => Serve(job);
        case Adjudicate(q) => var r := GenerateJob(q);
        case Register(id, loaded) => var r := RegisterJob(id, loaded);
        case Unregister(id) => var r := UnregisterJob(id);
        case ChatJob(q) => var r, asked, es := ChatTurnJob(q, readBy);
        case ContextCreate(q) => var r := BuildContext(q, readBy);
        case ContextDelete(id) => var r := ContextDeleteJob(id);
      }
    }

    /** A whole run: jobs in any order, background work between them. */
    method RunAll(jobs: seq<Job>)
      requires Valid()
      requires forall job :: job in jobs && job.Register? && job.loaded.Some? ==>
        job.loaded.value.id == job.id && SpecOk(m, job.loaded.value)
      modifies this`background, this`paths, specs, chats, states
      ensures Valid()
    {
      hide AllSpecsOk, AllHeldOk, CacheOk, SpecOk, Total, PinnedTotal;
      for i := 0 to |jobs|
        invariant Valid()
      {
        Run(jobs[i]);
        var ran := BackgroundJob();
      }
    }
  }

  /** A tail prefix is to be made: it is not held, and its checkpoint and its spec
      are. */
  ghost predicate Wanted(
      m: Model, loaded: set<LoadedSpec>, held: map<Id, Checkpoint>, cached: map<CacheKey, Cached>, checkpoint: Id,
      spec: string) {
    TailKey(spec, checkpoint) !in cached && checkpoint in held
    && exists s :: s in loaded && s.id == spec && HasTail(m, s, checkpoint)
  }

  /** A spec's head can go after this checkpoint. */
  ghost predicate HasTail(m: Model, s: LoadedSpec, checkpoint: Id) {
    !s.tools && s.grammar.Some?
    && (Block(s).Some? ==> |checkpoint.ids| + |m.tok.encode(TailHead(Block(s).value))| + 2 < m.contextLimit)
  }

  /** Specs of one id agree on it. */
  lemma {:induction false} OneTail(m: Model, loaded: set<LoadedSpec>, s: LoadedSpec, checkpoint: Id)
    requires AllSpecsOk(m, loaded) && s in loaded
    ensures HasTail(m, s, checkpoint) <==> exists t :: t in loaded && t.id == s.id && HasTail(m, t, checkpoint)
  {
    hide SpecOk, TailHead;
  }

  lemma {:induction false} FewerSpecs(m: Model, before: set<LoadedSpec>, after: set<LoadedSpec>)
    requires AllSpecsOk(m, before) && forall s :: s in after ==> s in before
    ensures AllSpecsOk(m, after)
  {
    hide SpecOk;
  }

  lemma {:induction false} NewSpecOk(m: Model, before: set<LoadedSpec>, spec: LoadedSpec, after: set<LoadedSpec>)
    requires AllSpecsOk(m, before) && SpecOk(m, spec) && !Names(before, spec.id)
    requires forall s :: s in after ==> s == spec || s in before
    ensures AllSpecsOk(m, after)
  {
    forall s, t | s in after && t in after && s.id == t.id
      ensures SameContent(s, t)
    {
    }
  }

  datatype Registered = Registered(newly: bool, evicted: Option<string>, menu: SpecList)

  /** A generation of at most `n` more tokens writes at most that many. */
  lemma {:induction false} GeneratedAtMost(m: Model, c: Config, n: nat)
    ensures Generated(m, c, n).Success? ==> |Generated(m, c, n).value.0| <= |c.generated| + n
    decreases n
  {
    if n > 0 && Next(m, c).Went? {
      GeneratedAtMost(m, Next(m, c).next, n - 1);
    }
  }

  lemma {:induction false} UserOf(m: Model, ids: Ids, maxTokens: nat, r: ChatReply)
    requires RepliesTo(m, ids, maxTokens) == Success(r)
    ensures r.user == ChatId(ids) && (r.checkpoint.Some? ==> r.checkpoint.value.ChatId?)
    ensures r.checkpoint.Some? && Opening(m.tok) != [] ==> r.checkpoint.value != r.user
  {
    hide ChatRun;
    if r.checkpoint.Some? {
      assert |r.checkpoint.value.ids| >= |ids| + |Opening(m.tok)|;
    }
  }

  lemma {:induction false} Replied(m: Model, held: Held, q: Chat, ids: Ids, r: Result<ChatReply, Failure>)
    requires ChatPrompt(m, held, q) == Success(ids) && (Stopped(r) || r == RepliesTo(m, ids, q.maxTokens))
    ensures Stopped(r) || r == ReplyOf(m, held, q)
    ensures r.Success? ==> r.value.user == ChatId(ids)
  {
    hide ChatPrompt, ChatRun;
  }

  lemma {:induction false} CheckStops(e: Failure)
    requires Stops(e)
    ensures Stopped<ChatReply>(Failure(e))
  {
  }

  lemma {:induction false} Unprompted(m: Model, held: Held, q: Chat, e: Failure)
    requires ChatPrompt(m, held, q) == Failure(e)
    ensures ReplyOf(m, held, q) == Failure(e)
  {
    hide ChatPrompt;
  }

  lemma {:induction false} ChargedInFull(m: Model, size: StateSize, id: Id, c: Checkpoint)
    requires Bounded(m) && HeldOk(m, id, c) && |c.ids| <= m.contextLimit
    ensures CheckpointBytes(size, |c.ids|, |c.text|) == ChatBytes(m, size, id)
    ensures ChatBytes(m, size, id) <= FullCheckpoint(size, m.contextLimit, m.longest)
  {
    CheckpointFits(size, m, c.ids);
    hide CheckpointBytes, FullCheckpoint, IsTranscript, ChatState, ContextState, Decode;
  }

  lemma {:induction false} AllStayCharged(
      m: Model, size: StateSize, es: ChatEntries, after: ChatEntries, e: Entry<Id, Group, Checkpoint>, budget: nat)
    requires StateStores.Distinct(es) && AllCharged(m, size, es) && PinnedTotal(es) + e.bytes <= budget
    requires e.bytes == ChatBytes(m, size, e.id) && e.bytes <= FullCheckpoint(size, m.contextLimit, m.longest)
    requires if e.id in AsMap(es) then SameEntries(es, after) else after == Admitted(es, None, e, budget)
    ensures AllCharged(m, size, after)
  {
    if e.id !in AsMap(es) {
      AdmittedDistinct(es, e, budget);
    }
    hide Admitted, Total, PinnedTotal, ChatBytes;
  }

  ghost predicate SamePins(es: ChatEntries, fs: ChatEntries) {
    forall id :: IsPinned(fs, id) <==> IsPinned(es, id)
  }

  /** The pins after a request for `id`: its own as asked, every other as before. */
  ghost predicate PinsAs(es: ChatEntries, fs: ChatEntries, id: Id, pin: Option<bool>) {
    (pin.Some? ==> (IsPinned(fs, id) <==> pin.value)) && (pin.None? ==> (IsPinned(fs, id) <==> IsPinned(es, id)))
    && forall k :: k != id ==> (IsPinned(fs, k) <==> IsPinned(es, k))
  }

  lemma {:induction false} SameEntriesPins(es: ChatEntries, fs: ChatEntries)
    requires SameEntries(es, fs)
    ensures SamePins(es, fs)
  {
    hide Total, PinnedTotal;
  }

  lemma {:induction false} AdmittedSamePins(es: ChatEntries, e: Entry<Id, Group, Checkpoint>, budget: nat)
    requires StateStores.Distinct(es) && e.id !in AsMap(es) && PinnedTotal(es) + e.bytes <= budget && !e.pinned
    ensures SamePins(es, Admitted(es, None, e, budget))
  {
    hide Total, PinnedTotal, Admitted, IsPinned;
    forall id
      ensures IsPinned(Admitted(es, None, e, budget), id) <==> IsPinned(es, id)
    {
      AdmittedPins(es, e, budget, id);
    }
  }

  /** A new checkpoint taken away again leaves every pin as it was. */
  lemma {:induction false} TakenBackPins(es: ChatEntries, mid: ChatEntries, left: ChatEntries, id: Id)
    requires StateStores.Distinct(es) && StateStores.Distinct(mid) && StateStores.Distinct(left)
    requires SamePins(es, mid) && id !in AsMap(es)
    requires AsMap(left) == AsMap(mid) - {id} && forall e :: e in left ==> e in mid
    ensures SamePins(es, left)
  {
    NotPinned(es, id);
    hide IsPinned, StateStores.Distinct, AsMap;
    forall k
      ensures IsPinned(left, k) <==> IsPinned(es, k)
    {
      RemovedPins(mid, left, id, k);
    }
  }

  lemma {:induction false} PinsThen(es: ChatEntries, mid: ChatEntries, fs: ChatEntries, id: Id, pin: Option<bool>)
    requires SamePins(es, mid) && PinsAs(mid, fs, id, pin)
    ensures PinsAs(es, fs, id, pin)
  {
    hide IsPinned;
  }

  lemma {:induction false} PinsTwice(es: ChatEntries, mid: ChatEntries, fs: ChatEntries)
    requires SamePins(es, mid) && SamePins(mid, fs)
    ensures SamePins(es, fs)
  {
    hide IsPinned;
  }

  lemma {:induction false} NoPinAsked(es: ChatEntries, fs: ChatEntries, id: Id)
    requires SamePins(es, fs)
    ensures PinsAs(es, fs, id, None)
  {
    hide IsPinned;
  }

  lemma {:induction false} SameCharged(m: Model, size: StateSize, es: ChatEntries, fs: ChatEntries)
    requires AllCharged(m, size, es) && SameEntries(es, fs)
    ensures AllCharged(m, size, fs) && PinnedTotal(es) == PinnedTotal(fs)
  {
    hide Total, PinnedTotal, ChatBytes, FullCheckpoint;
  }

  /** What the same entries in another order share. */
  lemma {:induction false} SameView(es: ChatEntries, fs: ChatEntries)
    requires StateStores.Distinct(es) && StateStores.Distinct(fs) && SameEntries(es, fs)
    ensures AsMap(es) == AsMap(fs) && Total(es) == Total(fs) && PinnedTotal(es) == PinnedTotal(fs)
    ensures forall id :: IsPinned(es, id) <==> IsPinned(fs, id)
  {
    hide Total, PinnedTotal, AsMap;
    SubView(es, fs);
    SubView(fs, es);
  }

  lemma {:induction false} IdsOf(es: ChatEntries, e: Entry<Id, Group, Checkpoint>, after: ChatEntries)
    requires StateStores.Distinct(es) && StateStores.Distinct(after) && forall x :: x in after ==> x == e || x in es
    ensures forall k :: k in AsMap(after) ==> k == e.id || k in AsMap(es)
  {
    forall k | k in AsMap(after)
      ensures k == e.id || k in AsMap(es)
    {
      var x := MemberOf(after, k);
      if x in es {
        InView(es, x);
      }
    }
  }

  lemma {:induction false} OnePin(es: ChatEntries, x: Entry<Id, Group, Checkpoint>)
    requires StateStores.Distinct(es) && x in es
    ensures x.pinned <==> IsPinned(es, x.id)
  {
    if e :| e in es && e.id == x.id && e.pinned {
      OneEntry(es, x, e);
    }
  }

  lemma {:induction false} NotPinned(es: ChatEntries, id: Id)
    requires StateStores.Distinct(es) && id !in AsMap(es)
    ensures !IsPinned(es, id)
  {
    if e :| e in es && e.id == id && e.pinned {
      InView(es, e);
    }
  }

  /** With nothing pinned and nothing used since the user's checkpoint, both of a
      turn's checkpoints are held, as the budget `load` asks for is meant to see to. */
  lemma {:induction false} BothFit(m: Model, size: StateSize, es: ChatEntries, closed: Id, budget: nat)
    requires StateStores.Distinct(es) && es != [] && AllCharged(m, size, es)
    requires var full := FullCheckpoint(size, m.contextLimit, m.longest);
      2 * full <= budget && ChatBytes(m, size, closed) <= full
    requires PinnedTotal(es) == 0 && !es[|es| - 1].pinned
    ensures Survives(es, es[|es| - 1].id, ChatBytes(m, size, closed), budget)
  {
    hide Survives, PinnedTotal, ChatBytes;
    NewestSurvives(es, ChatBytes(m, size, closed), budget);
    assert es[|es| - 1] in es;
  }

  lemma {:induction false} HeldStays(m: Model, held: Held, after: Held, id: Id, c: Checkpoint, evicted: seq<Id>)
    requires AllHeldOk(m, held) && HeldOk(m, id, c)
    requires if id in held then after == held && evicted == [] else Grown(held, after, id, c, evicted)
    ensures AllHeldOk(m, after) && id in after && forall k :: k in after ==> k == id || k in held
    ensures forall k :: k in held && k !in evicted ==> k in after && after[k] == held[k]
  {
    hide HeldOk;
  }

  lemma {:induction false} HeldLength(m: Model, held: Held, id: Id)
    requires AllHeldOk(m, held) && id in held
    ensures held[id].ids == id.ids
  {
    assert HeldOk(m, id, held[id]);
  }

  lemma {:induction false} HeldSomewhere(es: ChatEntries, id: Id)
    requires StateStores.Distinct(es)
    ensures id in AsMap(es) <==> exists e :: e in es && e.id == id
  {
    if e :| e in es && e.id == id {
      InView(es, e);
    }
    if id in AsMap(es) {
      var e := MemberOf(es, id);
    }
  }

  lemma {:induction false} PastHalfOf(es: ChatEntries, e: Entry<Id, Group, Checkpoint>, budget: nat)
    requires StateStores.Distinct(es) && e in es && !e.pinned
    ensures PastHalf(es, e.id, budget) <==> PinnedTotal(es) + e.bytes > budget / 2
  {
    forall x | x in es && x.id == e.id
      ensures x == e
    {
      OneEntry(es, x, e);
    }
    hide PinnedTotal;
  }

  lemma {:induction false} HeadNonempty(m: Model, s: LoadedSpec)
    requires Faithful(m.tok) && Block(s).Some?
    ensures m.tok.encode(TailHead(Block(s).value)) != []
  {
    EncodedNonempty(m.tok, TailHead(Block(s).value));
  }

  lemma {:induction false} SegmentsNonempty(tok: Tokenizer, segments: seq<Ids>)
    requires Faithful(tok) && segments != [] && IsHead(tok, segments[0]) && AllTurns(tok, segments[1..])
    ensures [] !in segments
  {
    EncodedNonempty(tok, Template.BOS);
    assert segments == [segments[0]] + segments[1..];
    hide IsTurn, Faithful;
    assert forall i :: 0 <= i < |segments[1..]| ==> segments[1..][i] != [] by {
      TurnsNonempty(tok, segments[1..]);
    }
  }

  lemma {:induction false} TurnsNonempty(tok: Tokenizer, turns: seq<Ids>)
    requires AllTurns(tok, turns)
    ensures [] !in turns
  {
  }

  /** A chat's segments: some, and none empty. */
  lemma {:induction false} ChatSegments(m: Model, q: Chat, texts: seq<string>)
    requires Faithful(m.tok) && ChatValid(q) && ChatTexts(m, q) == Success(texts)
    ensures Encoded(m.tok, texts) != [] && [] !in Encoded(m.tok, texts)
  {
    hide Faithful, IsTurn;
    if q.from.Some? {
      RenderedTurns(m, q.messages, texts);
      TurnsNonempty(m.tok, Encoded(m.tok, texts));
    } else {
      RenderedWhole(m, q.system, q.tools, q.messages, texts, Flatten(Encoded(m.tok, texts)));
      SegmentsNonempty(m.tok, Encoded(m.tok, texts));
    }
  }

  lemma {:induction false} ChatPrompted(m: Model, held: Held, q: Chat, texts: seq<string>, base: Checkpoint, ids: Ids)
    requires Faithful(m.tok) && AllHeldOk(m, held) && ChatTexts(m, q) == Success(texts)
    requires ChatPrompt(m, held, q) == Success(ids)
    requires if q.from.Some? then q.from.value in held && held[q.from.value] == base
             else base == Checkpoint(ChatTurn, [], "", [])
    ensures IsTranscript(m.tok, ids)
    ensures ChatState(m.tok, ids) == base.state + Segmented(Encoded(m.tok, texts))
    ensures Decode(m.tok, ids) == base.text + Template.Concat(texts)
  {
    if q.from.Some? {
      assert HeldOk(m, q.from.value, base);
      ChatContinues(m, base.ids, q.messages, texts, ids);
    } else {
      assert ids == Flatten(Encoded(m.tok, texts));
      RenderedWhole(m, q.system, q.tools, q.messages, texts, ids);
      assert [] + Segmented(Encoded(m.tok, texts)) == Segmented(Encoded(m.tok, texts));
      assert "" + Template.Concat(texts) == Template.Concat(texts);
    }
  }

  /** The slots found so far, then what the rest of the description finds. */
  function Joined(slots: seq<Slot>, rest: Result<seq<Slot>, Failure>): Result<seq<Slot>, Failure> {
    match rest
    case Failure(e) => Failure(e)
    case Success(more) => Success(slots + more)
  }

  /** Where the description loop stands after `n` tokens: at `c`, with `slots`
      found, and what a whole description finds is those and what the rest of the
      loop finds. */
  ghost predicate Describing(
      m: Model, g: Grammar, ids: Ids, start: State, fields: seq<string>, budget: nat, slots: seq<Slot>,
      n: nat, c: Config)
  {
    |slots| < |fields| && n <= budget
    && Walking(m, Begin(m, Some(g), ids, start), fields[|slots|], n, c) && Tracks(m, Some(g), ids, start, c)
    && Describe(m, Begin(m, Some(g), ids, start), fields, budget)
       == Joined(slots, Describe(m, c, fields[|slots|..], budget - n))
  }

  lemma {:induction false} DescribingStarts(
      m: Model, g: Grammar, ids: Ids, start: State, fields: seq<string>, budget: nat)
    requires fields != []
    ensures Describing(m, g, ids, start, fields, budget, [], 0, Begin(m, Some(g), ids, start))
  {
    BeginTracks(m, Some(g), ids, start);
    assert fields[0..] == fields;
    var rest := Describe(m, Begin(m, Some(g), ids, start), fields, budget);
    if rest.Success? {
      assert [] + rest.value == rest.value;
    }
  }

  /** One token on, at the slot: it is this question's first, and the loop goes
      on to the next or is done. */
  lemma {:induction false} DescribingAtSlot(
      m: Model, g: Grammar, ids: Ids, start: State, fields: seq<string>, budget: nat, slots: seq<Slot>,
      n: nat, c: Config, next: Config)
    requires EmissionOrdered(m, g, fields) && Describing(m, g, ids, start, fields, budget, slots, n, c)
    requires n < budget && Next(m, c) == Went(next) && AtSlot(m, fields[|slots|], next.generated)
    ensures IsFirst(m, Begin(m, Some(g), ids, start), fields[|slots|], SlotOf(m, next))
    ensures PathOf(SlotOf(m, next)) == start && |SlotOf(m, next).generated| == n + 1
    ensures if |slots| + 1 == |fields| then
        Describe(m, Begin(m, Some(g), ids, start), fields, budget) == Success(slots + [SlotOf(m, next)])
      else Describing(m, g, ids, start, fields, budget, slots + [SlotOf(m, next)], n + 1, next)
  {
    hide Walking, Tracks, FirstSlot, AtSlot, Describe, Joined, EmissionOrdered, Next;
    var c0, field := Begin(m, Some(g), ids, start), fields[|slots|];
    WalkingNext(m, c0, field, n, c);
    WalkingLength(m, c0, field, n, c, next);
    NextTracks(m, Some(g), ids, start, c);
    FirstSlotPath(m, Some(g), ids, start, field, SlotOf(m, next));
    JoinedAtSlot(m, c, next, fields, slots, SlotOf(m, next), budget - n);
    if |slots| + 1 < |fields| {
      WalkingOn(m, g, ids, start, fields, |slots|, n, c, next);
    }
  }

  lemma {:induction false} WalkingLength(m: Model, c0: Config, field: string, n: nat, c: Config, next: Config)
    requires Walking(m, c0, field, n, c) && Next(m, c) == Went(next)
    ensures |next.generated| == n + 1
  {
    hide AtSlot, Steps;
  }

  /** A step that cannot be taken ends the description. */
  lemma {:induction false} DescribingBreaks(
      m: Model, g: Grammar, ids: Ids, start: State, fields: seq<string>, budget: nat, slots: seq<Slot>,
      n: nat, c: Config, e: Failure)
    requires Describing(m, g, ids, start, fields, budget, slots, n, c) && n < budget
    requires Stops(e) || (e == Internal && !Next(m, c).Went?)
    ensures Stopped<seq<Slot>>(Failure(e)) || Describe(m, Begin(m, Some(g), ids, start), fields, budget) == Failure(e)
  {
    hide Walking, Tracks, AtSlot, WrotePast;
  }

  lemma {:induction false} DescribingPast(
      m: Model, g: Grammar, ids: Ids, start: State, fields: seq<string>, budget: nat, slots: seq<Slot>,
      n: nat, c: Config, next: Config)
    requires Describing(m, g, ids, start, fields, budget, slots, n, c) && n < budget && Next(m, c) == Went(next)
    requires !AtSlot(m, fields[|slots|], next.generated) && WrotePast(m, fields[|slots|], c.generated, next.generated)
    ensures Describe(m, Begin(m, Some(g), ids, start), fields, budget) == Failure(Internal)
  {
    hide Walking, Tracks, AtSlot, WrotePast;
  }

  /** Out of tokens before a slot. */
  lemma {:induction false} DescribingEnds(
      m: Model, g: Grammar, ids: Ids, start: State, fields: seq<string>, budget: nat, slots: seq<Slot>, c: Config)
    requires Describing(m, g, ids, start, fields, budget, slots, budget, c)
    ensures Describe(m, Begin(m, Some(g), ids, start), fields, budget) == Failure(Unprocessable)
  {
  }

  lemma {:induction false} WalkingOn(
      m: Model, g: Grammar, ids: Ids, start: State, fields: seq<string>, i: nat, n: nat, c: Config, next: Config)
    requires EmissionOrdered(m, g, fields) && i + 1 < |fields|
    requires Walking(m, Begin(m, Some(g), ids, start), fields[i], n, c) && Next(m, c) == Went(next)
    requires Tracks(m, Some(g), ids, start, next) && AtSlot(m, fields[i], next.generated)
    ensures Walking(m, Begin(m, Some(g), ids, start), fields[i + 1], n + 1, next)
  {
    LaterNotMet(m, g, ids, start, fields, i, next);
    StepsSnoc(m, Begin(m, Some(g), ids, start), n, c);
  }

  /** One token on, between slots. */
  lemma {:induction false} DescribingBetween(
      m: Model, g: Grammar, ids: Ids, start: State, fields: seq<string>, budget: nat, slots: seq<Slot>,
      n: nat, c: Config, next: Config)
    requires Describing(m, g, ids, start, fields, budget, slots, n, c)
    requires n < budget && Next(m, c) == Went(next) && !AtSlot(m, fields[|slots|], next.generated)
    requires !WrotePast(m, fields[|slots|], c.generated, next.generated)
    ensures Describing(m, g, ids, start, fields, budget, slots, n + 1, next)
  {
    WalkingNext(m, Begin(m, Some(g), ids, start), fields[|slots|], n, c);
    NextTracks(m, Some(g), ids, start, c);
  }

  /** Standing at the next question's slot adds it to the slots found. */
  lemma {:induction false} JoinedAtSlot(
      m: Model, c: Config, next: Config, fields: seq<string>, slots: seq<Slot>, slot: Slot, budget: nat)
    requires |slots| < |fields| && budget > 0 && Next(m, c) == Went(next) && slot == SlotOf(m, next)
    requires AtSlot(m, fields[|slots|], next.generated)
    ensures Joined(slots, Describe(m, c, fields[|slots|..], budget))
      == if |slots| + 1 == |fields| then Success(slots + [slot])
         else Joined(slots + [slot], Describe(m, next, fields[|slots| + 1..], budget - 1))
  {
    var left := fields[|slots|..];
    assert left[0] == fields[|slots|] && left[1..] == fields[|slots| + 1..];
    if |left| > 1 {
      var more := Describe(m, next, left[1..], budget - 1);
      if more.Success? {
        Text.Assoc(slots, [slot], more.value);
      }
    }
  }

  lemma {:induction false} ProbeBlocks(
      specs: SpecList, ids: Ids, split: nat, useCache: bool, resumed: Option<LoadedSpec>)
    requires split <= |ids| && resumed == if useCache then Winner(ids[..split], specs) else None
    ensures ProbeState(specs, ids, split, useCache)
      == (if resumed.Some? then resumed.value.prefix + Chunked(ids[..split][|resumed.value.prefixIds|..], CHUNK)
          else [] + Chunked(ids[..split], CHUNK))
         + Chunked(ids[split..], 1)
  {
    ChunkedByOne(ids[split..]);
    assert [] + Chunked(ids[..split], CHUNK) == Chunked(ids[..split], CHUNK);
  }

  lemma {:induction false} LoadedOk(m: Model, loaded: set<LoadedSpec>, s: LoadedSpec)
    requires AllSpecsOk(m, loaded) && s in loaded
    ensures SpecOk(m, s)
  {
  }

  /** Where a build starts: at nothing, or at a held prefix. */
  ghost predicate StartsAt(m: Model, segments: seq<Ids>, covered: nat, state: State) {
    covered < |segments|
    && if covered == 0 then state == [] else state == ContextState(m.tok, Flatten(segments[..covered]))
  }

  lemma {:induction false} BuildBlocks(m: Model, segments: seq<Ids>, covered: nat, state: State, ids: Ids)
    requires Faithful(m.tok) && StartsAt(m, segments, covered, state) && ids == Flatten(segments)
    requires IsHead(m.tok, segments[0]) && AllTurns(m.tok, segments[1..])
    ensures ContextState(m.tok, ids) == state + Segmented(segments[covered..])
  {
    hide ContextState, IsTranscript, IsHead, AllTurns, Flatten, Segmented;
    if covered == 0 {
      assert segments[..|segments|] == segments && segments[0..] == segments;
      BuildContinues(m, segments, |segments|, ids, ids);
      assert [] + Segmented(segments) == Segmented(segments);
    } else {
      BuildContinues(m, segments, covered, Flatten(segments[..covered]), ids);
    }
  }

  lemma {:induction false} HeldKind(m: Model, held: Held, id: Id)
    requires AllHeldOk(m, held) && id in held
    ensures held[id].kind.Context? <==> id.ContextId?
  {
    assert HeldOk(m, id, held[id]);
  }

  lemma {:induction false} HeldState(m: Model, held: Held, id: Id)
    requires AllHeldOk(m, held) && id in held
    ensures held[id].state == Canonical(m, id).state
  {
    assert HeldOk(m, id, held[id]);
  }

  /** The deepest description among the first `n` entries stopped at this field,
      this deep. */
  ghost predicate DeepestUpTo(es: Entries, n: nat, spec: string, prompt: Ids, best: Option<string>, depth: nat) {
    n <= |es| && StateStores.Distinct(es)
    && match best
       case None => DeepestOf(es[..n], spec, prompt).None?
       case Some(field) =>
         exists i :: 0 <= i < |es| && es[i].id == DescribedKey(spec, prompt, field) && es[i].value.Described?
           && |es[i].value.slot.generated| == depth && DeepestOf(es[..n], spec, prompt) == Some(es[i].value.slot)
  }

  lemma {:induction false} DeepestNone(spec: string, prompt: Ids)
    ensures forall es: Entries :: es == [] ==> DeepestOf(es, spec, prompt).None?
  {
  }

  lemma {:induction false} DeepestNext(es: Entries, n: nat, spec: string, prompt: Ids, best: Option<string>, depth: nat)
    requires DeepestUpTo(es, n, spec, prompt, best, depth) && n < |es|
    ensures if IsDescription(es[n], spec, prompt) && (best.None? || |es[n].value.slot.generated| >= depth) then
        DeepestUpTo(es, n + 1, spec, prompt, Some(es[n].id.field), |es[n].value.slot.generated|)
      else DeepestUpTo(es, n + 1, spec, prompt, best, depth)
  {
    assert es[..n + 1][..n] == es[..n];
    hide StateStores.Distinct;
  }

  lemma {:induction false} DeepestDone(es: Entries, spec: string, prompt: Ids, best: Option<string>, depth: nat)
    requires DeepestUpTo(es, |es|, spec, prompt, best, depth)
    ensures best.None? <==> DeepestOf(es, spec, prompt).None?
    ensures best.Some? ==>
      var key := DescribedKey(spec, prompt, best.value);
      key in AsMap(es) && AsMap(es)[key].Described? && DeepestOf(es, spec, prompt) == Some(AsMap(es)[key].slot)
  {
    assert es[..|es|] == es;
    hide DeepestOf;
    if best.Some? {
      var i :| 0 <= i < |es| && es[i].id == DescribedKey(spec, prompt, best.value) && es[i].value.Described?
        && |es[i].value.slot.generated| == depth && DeepestOf(es[..|es|], spec, prompt) == Some(es[i].value.slot);
      ViewAt(es, i);
    }
  }

  /** The first `n` fields are held, with these slots. */
  ghost predicate HitTo(cache: Cache, spec: string, prompt: Ids, fields: seq<string>, slots: seq<Slot>, n: nat) {
    n <= |fields| && |slots| == n
    && forall i :: 0 <= i < n ==>
      DescribedKey(spec, prompt, fields[i]) in cache && cache[DescribedKey(spec, prompt, fields[i])].Described?
      && cache[DescribedKey(spec, prompt, fields[i])].slot == slots[i]
  }

  lemma {:induction false} HitNone(cache: Cache, spec: string, prompt: Ids, fields: seq<string>)
    ensures HitTo(cache, spec, prompt, fields, [], 0)
  {
  }

  lemma {:induction false} HitNext(
      cache: Cache, spec: string, prompt: Ids, fields: seq<string>, slots: seq<Slot>, n: nat, slot: Slot)
    requires HitTo(cache, spec, prompt, fields, slots, n) && n < |fields|
    requires DescribedKey(spec, prompt, fields[n]) in cache && cache[DescribedKey(spec, prompt, fields[n])].Described?
    requires cache[DescribedKey(spec, prompt, fields[n])].slot == slot
    ensures HitTo(cache, spec, prompt, fields, slots + [slot], n + 1)
  {
  }

  lemma {:induction false} NoHit(cache: Cache, spec: string, prompt: Ids, fields: seq<string>, n: nat)
    requires n < |fields| && DescribedKey(spec, prompt, fields[n]) !in cache
    ensures !Hit(cache, spec, prompt, fields)
  {
    assert fields[n] in fields;
  }

  lemma {:induction false} HitAll(cache: Cache, spec: string, prompt: Ids, fields: seq<string>, slots: seq<Slot>)
    requires HitTo(cache, spec, prompt, fields, slots, |fields|)
    ensures Hit(cache, spec, prompt, fields) && slots == SlotsHeld(cache, spec, prompt, fields)
  {
  }

  /** The read turn's two segments are the spec's head and the rest, and neither
      is empty. */
  lemma {:induction false} ComposedHead(m: Model, s: LoadedSpec, held: Held, q: Read, c: Composed)
    requires Faithful(m.tok) && ComposedOf(m, s, held, q, c) && q.context.Some?
    ensures c.at < c.split < |c.ids| <= m.contextLimit && q.context.value in held
    ensures TailOf(m, s, held, q.context.value,
                   held[q.context.value].state + Chunked(c.ids[c.at..c.split], CHUNK), c.split)
    ensures q.useCache ==>
      var head, rest := Chunked(c.ids[c.at..c.split], CHUNK), Chunked(c.ids[c.split..], CHUNK);
      PromptOf(m, s, held, q) == Success(Prompted(c.ids, held[q.context.value].state + head + rest))
  {
    var head := m.tok.encode(TailHead(Block(s).value));
    var turn := m.tok.encode(UserTurn(s, Block(s).value + "\n\n" + q.input));
    HeadIsShort(m, s, q.input);
    hide Faithful, Block, TailHead, UserTurn, Chunked;
    assert turn == head + turn[|head|..];
    assert c.ids[c.at..c.split] == head && c.ids[c.split..] == turn[|head|..];
  }

  lemma {:induction false} ChunkOff(state: State, ids: Ids, size: nat, block: Ids, rest: Ids)
    requires size > 0 && ids != []
    requires block == ids[..if size < |ids| then size else |ids|] && rest == ids[|block|..]
    ensures state + [block] + Chunked(rest, size) == state + Chunked(ids, size)
  {
    if |ids| > size {
      Text.Assoc(state, [block], Chunked(rest, size));
    } else {
      assert rest == [] && block == ids;
      assert state + [block] + [] == state + [block];
    }
  }

  lemma {:induction false} ChunkAt(state: State, ids: Ids, at: nat, end: nat, chunk: nat)
    requires chunk > 0 && at < |ids| && end == if at + chunk < |ids| then at + chunk else |ids|
    ensures state + [ids[at..end]] + Chunked(ids[end..], chunk) == state + Chunked(ids[at..], chunk)
  {
    hide Chunked;
    assert ids[at..][..end - at] == ids[at..end] && ids[at..][end - at..] == ids[end..];
    ChunkOff(state, ids[at..], chunk, ids[at..end], ids[end..]);
  }

  lemma {:induction false} SegmentOn(start: State, segments: seq<Ids>, i: nat)
    requires i < |segments|
    ensures start + Segmented(segments[..i]) + Chunked(segments[i], CHUNK) == start + Segmented(segments[..i + 1])
  {
    assert segments[..i + 1] == segments[..i] + [segments[i]];
    LaidSplit(InChunks(), segments[..i], [segments[i]]);
    LaidOne(InChunks(), segments[i]);
    Text.Assoc(start, Segmented(segments[..i]), Chunked(segments[i], CHUNK));
  }
}
