/** The adjudicator's spec bookkeeping (`SpecStore`, `best_prefix_match`): fixed
    boot specs and a bounded cache of uploads in order of last use, with the menu
    the worker publishes. */
module Specs {
  import opened Wrappers
  import opened Schedule
  import opened Decoding

  /** A loaded spec: identity, rendered prefix with its resident state, grammar
      and its fields in emission order. */
  datatype LoadedSpec = LoadedSpec(
    id: string,
    name: string,
    prefixText: string,
    prefixIds: Ids,
    prefix: State,
    tools: bool,
    reasoning: string,
    grammar: Option<Grammar>,
    fields: seq<string>)

  type SpecList = seq<LoadedSpec>

  // ---- Lookup ----------------------------------------------------------------

  function ById(specs: SpecList, id: string): (at: nat)
    ensures at <= |specs| && (forall i :: 0 <= i < at ==> specs[i].id != id) && (at < |specs| ==> specs[at].id == id)
  {
    if specs == [] || specs[0].id == id then 0 else 1 + ById(specs[1..], id)
  }

  /** A boot spec answers to its id or its name. */
  function ByKey(specs: SpecList, key: string): (at: nat)
    ensures at <= |specs| && (forall i :: 0 <= i < at ==> specs[i].id != key && specs[i].name != key)
    ensures at < |specs| ==> specs[at].id == key || specs[at].name == key
  {
    if specs == [] || specs[0].id == key || specs[0].name == key then 0 else 1 + ByKey(specs[1..], key)
  }

  /** The spec a key names: boot specs answer to id and name, uploads to their id. */
  function Named(boot: SpecList, uploaded: SpecList, key: string): (r: Option<LoadedSpec>)
    ensures r.Some? ==> r.value in boot + uploaded && (r.value.id == key || r.value.name == key)
    ensures r.None?
      <==> (forall s :: s in boot ==> s.id != key && s.name != key) && forall s :: s in uploaded ==> s.id != key
    ensures (exists s :: s in boot && (s.id == key || s.name == key)) ==>
      r.Some? && r.value in boot && (r.value.id == key || r.value.name == key)
    ensures r.Some? && (forall s :: s in boot ==> s.id != key && s.name != key) ==>
      r.value in uploaded && r.value.id == key
  {
    var b, at := ByKey(boot, key), ById(uploaded, key);
    if b < |boot| then Some(boot[b]) else if at < |uploaded| then Some(uploaded[at]) else None
  }

  predicate IsCandidate(ids: Ids, prefix: Ids) {
    |ids| > |prefix| && prefix <= ids
  }

  /** `best_prefix_match`: the longest strict prefix, the last of equals. */
  function BestPrefix(ids: Ids, specs: SpecList): (r: Option<nat>)
    ensures r.Some? ==> r.value < |specs| && IsCandidate(ids, specs[r.value].prefixIds)
    ensures forall s :: s in specs && IsCandidate(ids, s.prefixIds) ==>
      r.Some? && |s.prefixIds| <= |specs[r.value].prefixIds|
  {
    if specs == [] then None
    else
      var n := |specs| - 1;
      var before := BestPrefix(ids, specs[..n]);
      assert specs == specs[..n] + [specs[n]];
      if IsCandidate(ids, specs[n].prefixIds)
         && (before.None? || |specs[n].prefixIds| >= |specs[before.value].prefixIds|) then Some(n)
      else before
  }

  function Winner(ids: Ids, specs: SpecList): (r: Option<LoadedSpec>)
    ensures r.Some? ==> r.value in specs && IsCandidate(ids, r.value.prefixIds)
    ensures forall s :: s in specs && IsCandidate(ids, s.prefixIds) ==>
      r.Some? && |s.prefixIds| <= |r.value.prefixIds|
  {
    match BestPrefix(ids, specs) case None => None case Some(i) => Some(specs[i])
  }

  /** The winning prefix's tokens do not depend on the order of the list. */
  lemma {:induction false} BestPrefixIgnoresOrder(ids: Ids, a: SpecList, b: SpecList)
    requires forall s :: s in a <==> s in b
    ensures var x, y := BestPrefix(ids, a), BestPrefix(ids, b);
      x.Some? == y.Some? && (x.Some? ==> a[x.value].prefixIds == b[y.value].prefixIds)
  {
    var x, y := BestPrefix(ids, a), BestPrefix(ids, b);
    if x.Some? {
      assert a[x.value] in b;
    }
    if y.Some? {
      assert b[y.value] in a;
    }
  }

  // ---- One operation on the uploads --------------------------------------------

  function Without(specs: SpecList, at: nat): SpecList
    requires at < |specs|
  {
    specs[..at] + specs[at + 1..]
  }

  /** Moved to the back: most recently used. */
  function Touched(specs: SpecList, at: nat): SpecList
    requires at < |specs|
  {
    Without(specs, at) + [specs[at]]
  }

  /** A new upload at the back, the least recently used gone when full. */
  function Inserted(uploaded: SpecList, capacity: nat, spec: LoadedSpec): SpecList {
    (if |uploaded| >= capacity && uploaded != [] then uploaded[1..] else uploaded) + [spec]
  }

  /** What a new upload takes the place of: the least recently used one, when full. */
  function Victim(uploaded: SpecList, capacity: nat): Option<string> {
    if |uploaded| >= capacity && uploaded != [] then Some(uploaded[0].id) else None
  }

  datatype Op =
    | Resolve(key: string)
    | Probe(prompt: Ids)
    | Register(id: string, loaded: Option<LoadedSpec>)
    | Remove(id: string)

  /** The uploads after an operation, the upload it used, and whether the worker
      publishes the menu for it. */
  datatype Outcome = Outcome(uploaded: SpecList, used: Option<string>, publishes: bool)

  function Apply(boot: SpecList, capacity: nat, uploaded: SpecList, op: Op): Outcome {
    match op
    case Resolve(key) =>
      var at := ById(uploaded, key);
      if ByKey(boot, key) < |boot| || at == |uploaded| then Outcome(uploaded, None, false)
      else Outcome(Touched(uploaded, at), Some(key), false)
    case Probe(prompt) =>
      (match BestPrefix(prompt, boot + uploaded)
       case None => Outcome(uploaded, None, false)
       case Some(i) =>
         if i < |boot| then Outcome(uploaded, None, false)
         else Outcome(Touched(uploaded, i - |boot|), Some(uploaded[i - |boot|].id), false))
    case Register(id, loaded) =>
      var at := ById(uploaded, id);
      if ById(boot, id) < |boot| then Outcome(uploaded, None, true)
      else if at < |uploaded| then Outcome(Touched(uploaded, at), Some(id), true)
      else if capacity == 0 || loaded.None? then Outcome(uploaded, None, false)
      else Outcome(Inserted(uploaded, capacity, loaded.value), Some(id), true)
    case Remove(id) =>
      var at := ById(uploaded, id);
      if ByKey(boot, id) < |boot| || at == |uploaded| then Outcome(uploaded, None, false)
      else Outcome(Without(uploaded, at), None, true)
  }

  /** What loading guarantees of a registration: the spec it loads has its id. */
  predicate Loads(op: Op) {
    op.Register? && op.loaded.Some? ==> op.loaded.value.id == op.id
  }

  predicate Distinct(specs: SpecList) {
    forall i, j :: 0 <= i < j < |specs| ==> specs[i].id != specs[j].id
  }

  ghost predicate Sound(boot: SpecList, capacity: nat, uploaded: SpecList) {
    Distinct(uploaded) && |uploaded| <= capacity && forall s, b :: s in uploaded && b in boot ==> s.id != b.id
  }

  lemma {:induction false} TouchedMembers(specs: SpecList, at: nat)
    requires at < |specs|
    ensures |Touched(specs, at)| == |specs| && forall s :: s in Touched(specs, at) <==> s in specs
  {
    assert specs == specs[..at] + [specs[at]] + specs[at + 1..];
  }

  lemma {:induction false} WithoutMembers(specs: SpecList, at: nat)
    requires at < |specs| && Distinct(specs)
    ensures Distinct(Without(specs, at)) && forall s :: s in Without(specs, at) <==> s in specs && s.id != specs[at].id
  {
    assert specs == specs[..at] + [specs[at]] + specs[at + 1..];
    forall s | s in Without(specs, at)
      ensures s.id != specs[at].id
    {
      var i :| 0 <= i < |Without(specs, at)| && Without(specs, at)[i] == s;
      assert s == specs[if i < at then i else i + 1];
    }
  }

  lemma {:induction false} TouchedDistinct(specs: SpecList, at: nat)
    requires at < |specs| && Distinct(specs)
    ensures Distinct(Touched(specs, at))
  {
    WithoutMembers(specs, at);
    assert forall i :: 0 <= i < |Without(specs, at)| ==> Without(specs, at)[i] in Without(specs, at);
  }

  lemma {:induction false} TouchedSound(boot: SpecList, capacity: nat, uploaded: SpecList, at: nat)
    requires Sound(boot, capacity, uploaded) && at < |uploaded|
    ensures Sound(boot, capacity, Touched(uploaded, at))
  {
    TouchedDistinct(uploaded, at);
    TouchedMembers(uploaded, at);
    hide Touched;
  }

  lemma {:induction false} WithoutSound(boot: SpecList, capacity: nat, uploaded: SpecList, at: nat)
    requires Sound(boot, capacity, uploaded) && at < |uploaded|
    ensures Sound(boot, capacity, Without(uploaded, at))
  {
    WithoutMembers(uploaded, at);
  }

  lemma {:induction false} InsertedSound(boot: SpecList, capacity: nat, uploaded: SpecList, spec: LoadedSpec)
    requires Sound(boot, capacity, uploaded) && capacity > 0
    requires (forall s :: s in uploaded ==> s.id != spec.id) && (forall b :: b in boot ==> b.id != spec.id)
    ensures Sound(boot, capacity, Inserted(uploaded, capacity, spec))
  {
    var kept := if |uploaded| >= capacity && uploaded != [] then uploaded[1..] else uploaded;
    assert forall i :: 0 <= i < |kept| ==> kept[i] in uploaded;
  }

  /** Every operation keeps the ids distinct and apart from the boot specs', and
      the uploads within capacity. */
  lemma {:induction false} ApplySound(boot: SpecList, capacity: nat, uploaded: SpecList, op: Op)
    requires Sound(boot, capacity, uploaded) && Loads(op)
    ensures Sound(boot, capacity, Apply(boot, capacity, uploaded, op).uploaded)
  {
    match op {
      case Resolve(key) =>
        var at := ById(uploaded, key);
        if at < |uploaded| {
          TouchedSound(boot, capacity, uploaded, at);
        }
        hide Sound, Touched;
      case Probe(prompt) =>
        var best := BestPrefix(prompt, boot + uploaded);
        if best.Some? && best.value >= |boot| {
          TouchedSound(boot, capacity, uploaded, best.value - |boot|);
        }
        hide Sound, Touched, BestPrefix;
      case Register(id, loaded) =>
        var at := ById(uploaded, id);
        if at < |uploaded| {
          TouchedSound(boot, capacity, uploaded, at);
        } else if ById(boot, id) == |boot| && capacity > 0 && loaded.Some? {
          InsertedSound(boot, capacity, uploaded, loaded.value);
        }
        hide Sound, Touched, Inserted;
      case Remove(id) =>
        var at := ById(uploaded, id);
        if at < |uploaded| {
          WithoutSound(boot, capacity, uploaded, at);
        }
        hide Sound, Without;
    }
  }

  /** Registering without the capacity guard breaks the bound exactly at
      capacity zero. */
  lemma {:induction false} InsertNeedsCapacity(uploaded: SpecList, capacity: nat, spec: LoadedSpec)
    requires |uploaded| <= capacity
    ensures |Inserted(uploaded, capacity, spec)| <= capacity <==> capacity >= 1
  {
  }

  // ---- Whole histories -----------------------------------------------------------

  datatype History = History(uploaded: SpecList, uses: seq<Option<string>>, menu: SpecList)

  function Run(boot: SpecList, capacity: nat, ops: seq<Op>): (h: History)
    ensures |h.uses| == |ops|
  {
    if ops == [] then History([], [], boot)
    else
      var before := Run(boot, capacity, ops[..|ops| - 1]);
      var out := Apply(boot, capacity, before.uploaded, ops[|ops| - 1]);
      History(out.uploaded, before.uses + [out.used], if out.publishes then boot + out.uploaded else before.menu)
  }

  /** When an upload was last used: the last operation that touched it, or -1. */
  function LastUse(uses: seq<Option<string>>, id: string): (at: int)
    ensures -1 <= at < |uses|
  {
    if uses == [] then -1
    else if uses[|uses| - 1] == Some(id) then |uses| - 1
    else LastUse(uses[..|uses| - 1], id)
  }

  lemma {:induction false} LastUseSnoc(uses: seq<Option<string>>, used: Option<string>, id: string)
    ensures LastUse(uses + [used], id) == if used == Some(id) then |uses| else LastUse(uses, id)
  {
    assert (uses + [used])[..|uses|] == uses;
  }

  ghost predicate InUseOrder(uploaded: SpecList, uses: seq<Option<string>>) {
    (forall i :: 0 <= i < |uploaded| ==> LastUse(uses, uploaded[i].id) >= 0)
    && forall i, j :: 0 <= i < j < |uploaded| ==> LastUse(uses, uploaded[i].id) < LastUse(uses, uploaded[j].id)
  }

  /** `kept` is a subsequence of `before`, picked by increasing positions. */
  ghost predicate Picks(before: SpecList, kept: SpecList, pick: nat -> nat) {
    (forall i :: 0 <= i < |kept| ==> pick(i) < |before| && kept[i] == before[pick(i)])
    && forall i, j :: 0 <= i < j < |kept| ==> pick(i) < pick(j)
  }

  /** A part of an ordered list stays ordered when something else is used. */
  lemma {:induction false} PartInOrder(
      before: SpecList, uses: seq<Option<string>>, kept: SpecList, pick: nat -> nat, mark: Option<string>)
    requires InUseOrder(before, uses) && Picks(before, kept, pick)
    requires forall s :: s in kept ==> mark != Some(s.id)
    ensures InUseOrder(kept, uses + [mark])
    ensures forall i :: 0 <= i < |kept| ==> LastUse(uses + [mark], kept[i].id) < |uses|
  {
    forall i | 0 <= i < |kept|
      ensures LastUse(uses + [mark], kept[i].id) == LastUse(uses, before[pick(i)].id)
    {
      assert kept[i] in kept;
      LastUseSnoc(uses, mark, kept[i].id);
    }
  }

  /** ... and so it does with the upload just used at its back. */
  lemma {:induction false} UsedAtBack(
      before: SpecList, uses: seq<Option<string>>, kept: SpecList, pick: nat -> nat, used: LoadedSpec)
    requires InUseOrder(before, uses) && Picks(before, kept, pick)
    requires forall s :: s in kept ==> s.id != used.id
    ensures InUseOrder(kept + [used], uses + [Some(used.id)])
  {
    PartInOrder(before, uses, kept, pick, Some(used.id));
    LastUseSnoc(uses, Some(used.id), used.id);
  }

  lemma {:induction false} PicksWithout(before: SpecList, at: nat) returns (pick: nat -> nat)
    requires at < |before|
    ensures Picks(before, Without(before, at), pick)
  {
    pick := (i: nat) => if i < at then i else i + 1;
  }

  lemma {:induction false} PicksAll(before: SpecList) returns (pick: nat -> nat)
    ensures Picks(before, before, pick)
  {
    pick := (i: nat) => i;
  }

  lemma {:induction false} TouchOrder(before: SpecList, uses: seq<Option<string>>, at: nat)
    requires at < |before| && Distinct(before) && InUseOrder(before, uses)
    ensures InUseOrder(Touched(before, at), uses + [Some(before[at].id)])
  {
    WithoutMembers(before, at);
    var pick := PicksWithout(before, at);
    UsedAtBack(before, uses, Without(before, at), pick, before[at]);
  }

  lemma {:induction false} UnusedOrder(before: SpecList, uses: seq<Option<string>>)
    requires InUseOrder(before, uses)
    ensures InUseOrder(before, uses + [None])
  {
    var pick := PicksAll(before);
    PartInOrder(before, uses, before, pick, None);
  }

  lemma {:induction false} InsertOrder(before: SpecList, uses: seq<Option<string>>, capacity: nat, spec: LoadedSpec)
    requires InUseOrder(before, uses) && forall s :: s in before ==> s.id != spec.id
    ensures InUseOrder(Inserted(before, capacity, spec), uses + [Some(spec.id)])
  {
    if |before| >= capacity && before != [] {
      var pick := PicksWithout(before, 0);
      assert Without(before, 0) == before[1..];
      UsedAtBack(before, uses, before[1..], pick, spec);
    } else {
      var pick := PicksAll(before);
      UsedAtBack(before, uses, before, pick, spec);
    }
  }

  lemma {:induction false} ApplyOrder(
      boot: SpecList, capacity: nat, uploaded: SpecList, op: Op, uses: seq<Option<string>>)
    requires Sound(boot, capacity, uploaded) && Loads(op) && InUseOrder(uploaded, uses)
    ensures var out := Apply(boot, capacity, uploaded, op); InUseOrder(out.uploaded, uses + [out.used])
  {
    UnusedOrder(uploaded, uses);
    match op {
      case Resolve(key) =>
        var at := ById(uploaded, key);
        if at < |uploaded| {
          TouchOrder(uploaded, uses, at);
        }
      case Probe(prompt) =>
        var best := BestPrefix(prompt, boot + uploaded);
        if best.Some? && best.value >= |boot| {
          TouchOrder(uploaded, uses, best.value - |boot|);
        }
      case Register(id, loaded) =>
        var at := ById(uploaded, id);
        if at < |uploaded| {
          TouchOrder(uploaded, uses, at);
        } else if loaded.Some? {
          InsertOrder(uploaded, uses, capacity, loaded.value);
        }
      case Remove(id) =>
        var at := ById(uploaded, id);
        if at < |uploaded| {
          var pick := PicksWithout(uploaded, at);
          PartInOrder(uploaded, uses, Without(uploaded, at), pick, None);
        }
    }
  }

  /** Over every history of operations: ids stay distinct and within capacity,
      the deque's order is the order of last use, and the published menu holds
      exactly the store's specs. */
  lemma {:induction false} HistoryKeeps(boot: SpecList, capacity: nat, ops: seq<Op>)
    requires forall op :: op in ops ==> Loads(op)
    ensures var h := Run(boot, capacity, ops);
      Sound(boot, capacity, h.uploaded) && InUseOrder(h.uploaded, h.uses)
      && forall s :: s in h.menu <==> s in boot || s in h.uploaded
  {
    if ops != [] {
      var n := |ops| - 1;
      var before := Run(boot, capacity, ops[..n]);
      HistoryKeeps(boot, capacity, ops[..n]);
      ApplySound(boot, capacity, before.uploaded, ops[n]);
      ApplyOrder(boot, capacity, before.uploaded, ops[n], before.uses);
      UnpublishedKeeps(boot, capacity, before.uploaded, ops[n]);
    }
  }

  /** An operation that does not publish keeps the set of loaded specs. */
  lemma {:induction false} UnpublishedKeeps(boot: SpecList, capacity: nat, uploaded: SpecList, op: Op)
    ensures var out := Apply(boot, capacity, uploaded, op);
      !out.publishes ==> forall s :: s in out.uploaded <==> s in uploaded
  {
    match op {
      case Resolve(key) =>
        if ById(uploaded, key) < |uploaded| {
          TouchedMembers(uploaded, ById(uploaded, key));
        }
      case Probe(prompt) =>
        var best := BestPrefix(prompt, boot + uploaded);
        if best.Some? && best.value >= |boot| {
          TouchedMembers(uploaded, best.value - |boot|);
        }
      case _ =>
    }
  }

  /** A registration that evicts takes the least recently used upload. */
  lemma {:induction false} VictimIsLeastRecent(
      boot: SpecList, capacity: nat, ops: seq<Op>, id: string, spec: LoadedSpec)
    requires (forall op :: op in ops ==> Loads(op)) && spec.id == id
    ensures var h := Run(boot, capacity, ops);
      var after := Apply(boot, capacity, h.uploaded, Register(id, Some(spec))).uploaded;
      forall gone, kept :: gone in h.uploaded && gone !in after && kept in h.uploaded && kept in after ==>
        LastUse(h.uses, gone.id) < LastUse(h.uses, kept.id)
  {
    HistoryKeeps(boot, capacity, ops);
    var h := Run(boot, capacity, ops);
    var after := Apply(boot, capacity, h.uploaded, Register(id, Some(spec))).uploaded;
    var at := ById(h.uploaded, id);
    if at < |h.uploaded| {
      TouchedMembers(h.uploaded, at);
    } else {
      forall gone, kept | gone in h.uploaded && gone !in after && kept in h.uploaded && kept in after
        ensures LastUse(h.uses, gone.id) < LastUse(h.uses, kept.id)
      {
        assert forall i :: 0 < i < |h.uploaded| ==> h.uploaded[i] == h.uploaded[1..][i - 1];
        assert gone == h.uploaded[0];
        var j :| 0 <= j < |h.uploaded| && h.uploaded[j] == kept;
      }
    }
  }

  // ---- The store -------------------------------------------------------------------

  datatype RemoveOutcome = Removed(spec: LoadedSpec) | Boot | Missing

  class SpecStore {
    const boot: SpecList
    const capacity: nat
    /** In order of last use, the oldest first. */
    var uploaded: SpecList

    ghost predicate Valid()
      reads this
    {
      Sound(boot, capacity, uploaded)
    }

    /** Every loaded spec, boot first. */
    function All(): SpecList
      reads this
    {
      boot + uploaded
    }

    constructor (boot: SpecList, capacity: nat)
      ensures Valid() && this.boot == boot && this.capacity == capacity && uploaded == []
    {
      this.boot := boot;
      this.capacity := capacity;
      uploaded := [];
    }

    /** The spec `key` names; an upload is touched to the back. */
    method ResolveKey(key: string) returns (r: Option<LoadedSpec>)
      requires Valid()
      modifies this
      ensures Valid() && uploaded == Apply(boot, capacity, old(uploaded), Resolve(key)).uploaded
      ensures forall s :: s in All() <==> s in old(All())
      ensures r == Named(boot, old(uploaded), key) && (r.Some? ==> r.value in All())
    {
      ApplySound(boot, capacity, uploaded, Resolve(key));
      UnpublishedKeeps(boot, capacity, uploaded, Resolve(key));
      var pos := ByKey(boot, key);
      if pos < |boot| {
        return Some(boot[pos]);
      }
      var at := ById(uploaded, key);
      if at == |uploaded| {
        return None;
      }
      var spec := uploaded[at];
      uploaded := Touched(uploaded, at);
      r := Some(spec);
    }

    /** The spec with exactly this id, order untouched. */
    function Get(id: string): (r: Option<LoadedSpec>)
      reads this
      ensures r.Some? ==> r.value in All() && r.value.id == id
      ensures r.None? ==> forall s :: s in All() ==> s.id != id
    {
      var at := ById(All(), id);
      if at < |All()| then Some(All()[at]) else None
    }

    /** The winner of the probe's prefix match; it counts as a use when uploaded. */
    method ResolveBestPrefix(ids: Ids) returns (r: Option<LoadedSpec>)
      requires Valid()
      modifies this
      ensures Valid() && uploaded == Apply(boot, capacity, old(uploaded), Probe(ids)).uploaded
      ensures forall s :: s in All() <==> s in old(All())
      ensures r == Winner(ids, old(All())) && (r.Some? ==> r.value in All())
    {
      ApplySound(boot, capacity, uploaded, Probe(ids));
      UnpublishedKeeps(boot, capacity, uploaded, Probe(ids));
      var winner := BestPrefix(ids, boot + uploaded);
      if winner.None? {
        return None;
      }
      r := Some((boot + uploaded)[winner.value]);
      if winner.value >= |boot| {
        uploaded := Touched(uploaded, winner.value - |boot|);
      }
    }

    /** Already loaded (touched), or loaded now with the least recently used
        upload evicted when full; the evicted id. */
    method RegisterOrLoad(id: string, loaded: Option<LoadedSpec>)
        returns (r: Option<(LoadedSpec, bool, Option<string>)>)
      requires Valid() && Loads(Register(id, loaded))
      requires capacity > 0 || ById(All(), id) < |All()|
      modifies this
      ensures Valid() && uploaded == Apply(boot, capacity, old(uploaded), Register(id, loaded)).uploaded
      ensures r.None? <==> loaded.None? && forall s :: s in old(All()) ==> s.id != id
      ensures r.None? ==> uploaded == old(uploaded)
      ensures r.Some? ==> r.value.0 in All() && r.value.0.id == id
      ensures r.Some? && !r.value.1 ==> forall s :: s in All() <==> s in old(All())
      ensures r.Some? && !r.value.1 ==> r.value.2.None?
      ensures r.Some? && r.value.1 ==> forall s :: s in old(All()) ==> s.id != id
      ensures r.Some? && r.value.1 ==>
        loaded == Some(r.value.0)
        && forall s :: s in All() <==> s == r.value.0 || (s in old(All()) && r.value.2 != Some(s.id))
      ensures r.Some? && r.value.2.Some? ==> forall s :: s in All() ==> s.id != r.value.2.value
      ensures r.None? || !r.value.1 || r.value.2 == Victim(old(uploaded), capacity)
      ensures r.Some? && !r.value.1 ==> exists s :: s in old(All()) && s.id == id
    {
      ApplySound(boot, capacity, uploaded, Register(id, loaded));
      var pos := ById(boot, id);
      if pos < |boot| {
        return Some((boot[pos], false, None));
      }
      var at := ById(uploaded, id);
      if at < |uploaded| {
        TouchedMembers(uploaded, at);
        var spec := uploaded[at];
        uploaded := Touched(uploaded, at);
        return Some((spec, false, None));
      }
      assert ById(All(), id) == |All()| by {
        assert forall s :: s in All() ==> s.id != id;
      }
      if loaded.None? {
        return None;
      }
      var evicted := Insert(loaded.value);
      r := Some((loaded.value, true, evicted));
    }

    /** Hold a new upload at the back; the least recently used goes when full. */
    method Insert(spec: LoadedSpec) returns (evicted: Option<string>)
      requires Valid() && capacity > 0 && forall s :: s in All() ==> s.id != spec.id
      modifies this
      ensures Valid() && uploaded == Inserted(old(uploaded), capacity, spec)
      ensures forall s :: s in All() <==> s == spec || (s in old(All()) && evicted != Some(s.id))
      ensures evicted.Some? ==> forall s :: s in All() ==> s.id != evicted.value
      ensures evicted == Victim(old(uploaded), capacity)
    {
      InsertedSound(boot, capacity, uploaded, spec);
      evicted := None;
      if |uploaded| >= capacity && uploaded != [] {
        assert uploaded == [uploaded[0]] + uploaded[1..];
        assert forall i :: 0 <= i < |uploaded| - 1 ==> uploaded[1..][i] == uploaded[i + 1];
        assert uploaded[0] in All();
        evicted := Some(uploaded[0].id);
        uploaded := uploaded[1..];
      }
      uploaded := uploaded + [spec];
    }

    /** Unload an upload; what names a boot spec is refused. */
    method Unload(id: string) returns (r: RemoveOutcome)
      requires Valid()
      modifies this
      ensures Valid() && uploaded == Apply(boot, capacity, old(uploaded), Remove(id)).uploaded
      ensures r.Boot? <==> exists s :: s in boot && (s.id == id || s.name == id)
      ensures r.Removed? <==> !r.Boot? && exists s :: s in old(All()) && s.id == id
      ensures r.Removed? ==>
        r.spec in old(All()) && r.spec.id == id && forall s :: s in All() <==> s in old(All()) && s.id != id
      ensures !r.Removed? ==> uploaded == old(uploaded)
    {
      ApplySound(boot, capacity, uploaded, Remove(id));
      if ByKey(boot, id) < |boot| {
        return Boot;
      }
      var at := ById(uploaded, id);
      if at == |uploaded| {
        return Missing;
      }
      r := Removed(uploaded[at]);
      WithoutMembers(uploaded, at);
      uploaded := Without(uploaded, at);
    }
  }
}
