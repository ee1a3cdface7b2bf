/** `lfm2d/src/state_store.rs`: the entries a byte budget bounds, in order of
    last use, with groups that have caps of their own and pins that eviction
    passes over. */
module StateStores {
  import opened Wrappers

  datatype Entry<K, G, V> = Entry(id: K, group: Option<G>, bytes: nat, pinned: bool, value: V)

  function Total<K, G, V>(es: seq<Entry<K, G, V>>): nat {
    if es == [] then 0 else es[0].bytes + Total(es[1..])
  }

  function PinnedTotal<K, G, V>(es: seq<Entry<K, G, V>>): nat {
    if es == [] then 0 else (if es[0].pinned then es[0].bytes else 0) + PinnedTotal(es[1..])
  }

  function InGroup<K, G(==), V>(es: seq<Entry<K, G, V>>, g: G): nat {
    if es == [] then 0 else (if es[0].group == Some(g) then 1 else 0) + InGroup(es[1..], g)
  }

  predicate Distinct<K(==), G, V>(es: seq<Entry<K, G, V>>) {
    forall i, j :: 0 <= i < j < |es| ==> es[i].id != es[j].id
  }

  /** `es` without the entry at `at`. */
  function Without<K, G, V>(es: seq<Entry<K, G, V>>, at: nat): (r: seq<Entry<K, G, V>>)
    requires at < |es|
    ensures |r| == |es| - 1
  {
    es[..at] + es[at + 1..]
  }

  /** The position of `id`, or the length when it is not held. */
  function Position<K(==), G, V>(es: seq<Entry<K, G, V>>, id: K): (at: nat)
    ensures at <= |es| && (forall i :: 0 <= i < at ==> es[i].id != id)
    ensures at < |es| ==> es[at].id == id
  {
    if es == [] || es[0].id == id then 0 else 1 + Position(es[1..], id)
  }

  /** The oldest entry an eviction may take: not pinned and, for a group's cap,
      in the group; the length when there is none. */
  function Oldest<K, G(==), V>(es: seq<Entry<K, G, V>>, group: Option<G>): (at: nat)
    ensures at <= |es| && (forall i :: 0 <= i < at ==> !Evictable(es[i], group))
    ensures at < |es| ==> Evictable(es[at], group)
  {
    if es == [] || Evictable(es[0], group) then 0 else 1 + Oldest(es[1..], group)
  }

  predicate Evictable<K, G(==), V>(e: Entry<K, G, V>, group: Option<G>) {
    !e.pinned && (group.Some? ==> e.group == group)
  }

  /** What the cap of a group leaves: its oldest unpinned members go while the
      group is at the cap. */
  function CapGroup<K, G(==), V>(es: seq<Entry<K, G, V>>, g: G, cap: nat): seq<Entry<K, G, V>>
    decreases |es|
  {
    var at := Oldest(es, Some(g));
    if InGroup(es, g) < cap || at == |es| then es else CapGroup(Without(es, at), g, cap)
  }

  /** What making room leaves: the oldest unpinned entries go until `bytes` fit. */
  function MakeRoom<K, G(==), V>(es: seq<Entry<K, G, V>>, bytes: nat, budget: nat): seq<Entry<K, G, V>>
    decreases |es|
  {
    var at := Oldest(es, None);
    if Total(es) + bytes <= budget || at == |es| then es else MakeRoom(Without(es, at), bytes, budget)
  }

  /** `insert_in`'s whole effect on the entries, for a new id that is admitted. */
  function Admitted<K, G(==), V>(
      es: seq<Entry<K, G, V>>, group: Option<(G, nat)>, e: Entry<K, G, V>, budget: nat): seq<Entry<K, G, V>> {
    MakeRoom(if group.Some? then CapGroup(es, group.value.0, group.value.1) else es, e.bytes, budget) + [e]
  }

  // ---- What eviction keeps ---------------------------------------------------

  /** `kept` is the entries of `es` at these positions, in their order. */
  ghost predicate Picks<K(!new), G(!new), V(!new)>(es: seq<Entry<K, G, V>>, kept: seq<Entry<K, G, V>>, at: seq<nat>) {
    |at| == |kept| && (forall k :: 0 <= k < |at| ==> at[k] < |es| && kept[k] == es[at[k]])
    && forall j, k :: 0 <= j < k < |at| ==> at[j] < at[k]
  }

  /** `kept` is `es` with some entries gone that an eviction may take, the rest in
      order: no pin goes and, for a group's cap, no entry outside the group. */
  ghost predicate Thinned<K(!new), G(!new), V(!new)>(
      es: seq<Entry<K, G, V>>, kept: seq<Entry<K, G, V>>, group: Option<G>) {
    (exists at :: Picks(es, kept, at))
    && (forall e :: e in es && !Evictable(e, group) ==> e in kept)
    && PinnedTotal(kept) == PinnedTotal(es) && Total(kept) <= Total(es)
  }

  lemma {:induction false} ThinnedMembers<K(!new), G(!new), V(!new)>(
      es: seq<Entry<K, G, V>>, kept: seq<Entry<K, G, V>>, group: Option<G>)
    requires Thinned(es, kept, group)
    ensures (forall e :: e in kept ==> e in es) && (Distinct(es) ==> Distinct(kept))
  {
    var at :| Picks(es, kept, at);
  }

  lemma {:induction false} ThinnedLoose<K(!new), G(!new), V(!new)>(
      es: seq<Entry<K, G, V>>, kept: seq<Entry<K, G, V>>, group: Option<G>)
    requires Thinned(es, kept, group)
    ensures Thinned(es, kept, None)
  {
    hide Picks;
  }

  lemma {:induction false} TotalWithout<K(!new), G(!new), V(!new)>(es: seq<Entry<K, G, V>>, at: nat)
    requires at < |es|
    ensures Total(Without(es, at)) == Total(es) - es[at].bytes
    ensures PinnedTotal(Without(es, at)) == PinnedTotal(es) - (if es[at].pinned then es[at].bytes else 0)
  {
    var r := Without(es, at);
    if at == 0 {
      assert r == es[1..];
    } else {
      TotalWithout(es[1..], at - 1);
      assert r[1..] == Without(es[1..], at - 1) && r[0] == es[0];
    }
  }

  lemma {:induction false} TotalJoin<K(!new), G(!new), V(!new)>(a: seq<Entry<K, G, V>>, b: seq<Entry<K, G, V>>)
    ensures Total(a + b) == Total(a) + Total(b) && PinnedTotal(a + b) == PinnedTotal(a) + PinnedTotal(b)
  {
    if a == [] {
      assert a + b == b;
    } else {
      TotalJoin(a[1..], b);
      assert (a + b)[1..] == a[1..] + b;
    }
  }

  lemma {:induction false} PinnedAtMost<K(!new), G(!new), V(!new)>(es: seq<Entry<K, G, V>>)
    ensures PinnedTotal(es) <= Total(es)
    ensures (forall e :: e in es ==> e.pinned) ==> PinnedTotal(es) == Total(es)
  {
    if es != [] {
      PinnedAtMost(es[1..]);
    }
  }

  lemma {:induction false} WithoutThins<K(!new), G(!new), V(!new)>(es: seq<Entry<K, G, V>>, at: nat, group: Option<G>)
    requires at < |es| && Evictable(es[at], group)
    ensures Thinned(es, Without(es, at), group)
  {
    var kept := Without(es, at);
    TotalWithout(es, at);
    assert Picks(es, kept, seq(|kept|, k requires 0 <= k < |kept| => if k < at then k else k + 1));
    forall e | e in es && !Evictable(e, group)
      ensures e in kept
    {
      var i :| 0 <= i < |es| && es[i] == e;
      assert kept[if i < at then i else i - 1] == e;
    }
  }

  lemma {:induction false} ThinnedTwice<K(!new), G(!new), V(!new)>(
      a: seq<Entry<K, G, V>>, b: seq<Entry<K, G, V>>, c: seq<Entry<K, G, V>>, group: Option<G>)
    requires Thinned(a, b, group) && Thinned(b, c, group)
    ensures Thinned(a, c, group)
  {
    var first :| Picks(a, b, first);
    var then_ :| Picks(b, c, then_);
    assert Picks(a, c, seq(|c|, k requires 0 <= k < |c| => first[then_[k]]));
  }

  /** A cap takes only unpinned members of its group: every other entry stays, in
      its order. */
  lemma {:induction false} CapGroupThins<K(!new), G(!new), V(!new)>(es: seq<Entry<K, G, V>>, g: G, cap: nat)
    ensures Thinned(es, CapGroup(es, g, cap), Some(g))
    decreases |es|
  {
    var at := Oldest(es, Some(g));
    if InGroup(es, g) < cap || at == |es| {
      ThinnedSelf(es, Some(g));
    } else {
      WithoutThins(es, at, Some(g));
      CapGroupThins(Without(es, at), g, cap);
      ThinnedTwice(es, Without(es, at), CapGroup(es, g, cap), Some(g));
    }
  }

  lemma {:induction false} ThinnedSelf<K(!new), G(!new), V(!new)>(es: seq<Entry<K, G, V>>, group: Option<G>)
    ensures Thinned(es, es, group)
  {
    assert Picks(es, es, seq(|es|, k requires 0 <= k < |es| => k));
  }

  /** Room is always found when the pins leave it: only unpinned entries go,
      and they suffice. */
  lemma {:induction false} MakeRoomThins<K(!new), G(!new), V(!new)>(es: seq<Entry<K, G, V>>, bytes: nat, budget: nat)
    requires PinnedTotal(es) + bytes <= budget
    ensures Thinned(es, MakeRoom(es, bytes, budget), None)
    ensures Total(MakeRoom(es, bytes, budget)) + bytes <= budget
    decreases |es|
  {
    var at := Oldest(es, None);
    PinnedAtMost(es);
    if Total(es) + bytes <= budget || at == |es| {
      ThinnedSelf(es, None);
    } else {
      WithoutThins(es, at, None);
      MakeRoomThins(Without(es, at), bytes, budget);
      ThinnedTwice(es, Without(es, at), MakeRoom(es, bytes, budget), None);
    }
  }

  /** The `n` oldest entries that an eviction may take dropped. */
  function DropOldest<K, G(==), V>(es: seq<Entry<K, G, V>>, group: Option<G>, n: nat): seq<Entry<K, G, V>>
    decreases n
  {
    var at := Oldest(es, group);
    if n == 0 || at == |es| then es else DropOldest(Without(es, at), group, n - 1)
  }

  /** A cap takes exactly the least recently used unpinned members of its group, and
      no more than needed: the `n` oldest for the least `n` that brings the group
      below the cap or leaves no such member. */
  lemma {:induction false} CapGroupIsLeast<K(!new), G(!new), V(!new)>(es: seq<Entry<K, G, V>>, g: G, cap: nat)
      returns (n: nat)
    ensures CapGroup(es, g, cap) == DropOldest(es, Some(g), n)
    ensures forall k: nat :: k < n ==>
      InGroup(DropOldest(es, Some(g), k), g) >= cap
      && exists e :: e in DropOldest(es, Some(g), k) && Evictable(e, Some(g))
    ensures InGroup(CapGroup(es, g, cap), g) < cap || forall e :: e in CapGroup(es, g, cap) ==> !Evictable(e, Some(g))
    decreases |es|
  {
    var at := Oldest(es, Some(g));
    if InGroup(es, g) < cap || at == |es| {
      n := 0;
    } else {
      var m := CapGroupIsLeast(Without(es, at), g, cap);
      n := m + 1;
      assert es[at] in es && Evictable(es[at], Some(g));
      forall k: nat | k < n
        ensures InGroup(DropOldest(es, Some(g), k), g) >= cap
        ensures exists e :: e in DropOldest(es, Some(g), k) && Evictable(e, Some(g))
      {
        if k > 0 {
          assert DropOldest(es, Some(g), k) == DropOldest(Without(es, at), Some(g), k - 1);
        }
      }
    }
  }

  /** Eviction by bytes is exactly the least recently used, and no further than
      needed: it drops the `n` oldest unpinned entries for the least `n` after
      which the new bytes fit. */
  lemma {:induction false} MakeRoomIsLeast<K(!new), G(!new), V(!new)>(
      es: seq<Entry<K, G, V>>, bytes: nat, budget: nat)
      returns (n: nat)
    requires PinnedTotal(es) + bytes <= budget
    ensures MakeRoom(es, bytes, budget) == DropOldest(es, None, n)
    ensures forall k: nat :: k < n ==> Total(DropOldest(es, None, k)) + bytes > budget
    decreases |es|
  {
    var at := Oldest(es, None);
    if Total(es) + bytes <= budget || at == |es| {
      n := 0;
    } else {
      TotalWithout(es, at);
      var m := MakeRoomIsLeast(Without(es, at), bytes, budget);
      n := m + 1;
      forall k: nat | k < n
        ensures Total(DropOldest(es, None, k)) + bytes > budget
      {
        if k > 0 {
          assert DropOldest(es, None, k) == DropOldest(Without(es, at), None, k - 1);
        }
      }
    }
  }

  /** What making room for `bytes` leaves of the unpinned entry at `i`: it stays
      exactly when it, all after it, the pins before it and the new bytes fit. */
  lemma {:induction false} SurvivesRoom<K(!new), G(!new), V(!new)>(
      es: seq<Entry<K, G, V>>, i: nat, bytes: nat, budget: nat)
    requires Distinct(es) && i < |es| && !es[i].pinned && PinnedTotal(es) + bytes <= budget
    ensures es[i] in MakeRoom(es, bytes, budget) <==> Total(es[i..]) + PinnedTotal(es[..i]) + bytes <= budget
    decreases |es|
  {
    var at := Oldest(es, None);
    assert es[..i] + es[i..] == es;
    TotalJoin(es[..i], es[i..]);
    PinnedAtMost(es[..i]);
    if Total(es) + bytes > budget {
      if at == i {
        AllPinned(es[..i]);
        RoomTakesOldest(es, bytes, budget);
      } else {
        TotalWithout(es, at);
        WithoutBefore(es, at, i);
        SurvivesRoom(Without(es, at), i - 1, bytes, budget);
      }
    }
    hide Distinct, Without, Oldest, PinnedTotal, Total;
  }

  /** When there is no room, the oldest unpinned entry goes. */
  lemma {:induction false} RoomTakesOldest<K(!new), G(!new), V(!new)>(es: seq<Entry<K, G, V>>, bytes: nat, budget: nat)
    requires Distinct(es) && PinnedTotal(es) + bytes <= budget < Total(es) + bytes
    ensures Oldest(es, None) < |es| && es[Oldest(es, None)] !in MakeRoom(es, bytes, budget)
  {
    PinnedAtMost(es);
    var at := Oldest(es, None);
    WithoutMembers(es, at);
    TotalWithout(es, at);
    MakeRoomThins(Without(es, at), bytes, budget);
    ThinnedMembers(Without(es, at), MakeRoom(Without(es, at), bytes, budget), None);
    hide Distinct, Without, Thinned;
  }

  lemma {:induction false} WithoutBefore<K(!new), G(!new), V(!new)>(es: seq<Entry<K, G, V>>, at: nat, i: nat)
    requires Distinct(es) && at < i < |es| && !es[at].pinned
    ensures Distinct(Without(es, at)) && Without(es, at)[i - 1] == es[i] && Without(es, at)[i - 1..] == es[i..]
    ensures PinnedTotal(Without(es, at)[..i - 1]) == PinnedTotal(es[..i])
  {
    hide Distinct, PinnedTotal, Total;
    WithoutMembers(es, at);
    TotalWithout(es[..i], at);
    WithoutSlices(es, at, i);
  }

  lemma {:induction false} WithoutSlices<K(!new), G(!new), V(!new)>(es: seq<Entry<K, G, V>>, at: nat, i: nat)
    requires at < i < |es|
    ensures Without(es, at)[i - 1] == es[i] && Without(es, at)[i - 1..] == es[i..]
    ensures Without(es, at)[..i - 1] == Without(es[..i], at)
  {
    assert es[..i][at] == es[at] && es[..i][at + 1..] == es[at + 1..i];
  }

  lemma {:induction false} AllPinned<K(!new), G(!new), V(!new)>(es: seq<Entry<K, G, V>>)
    requires forall i :: 0 <= i < |es| ==> es[i].pinned
    ensures PinnedTotal(es) == Total(es)
  {
    if es != [] {
      AllPinned(es[1..]);
    }
  }

  /** Making room takes nothing exactly when there is room. */
  lemma {:induction false} RoomTakes<K(!new), G(!new), V(!new)>(es: seq<Entry<K, G, V>>, bytes: nat, budget: nat)
    requires Distinct(es) && PinnedTotal(es) + bytes <= budget
    ensures (forall e :: e in es ==> e in MakeRoom(es, bytes, budget)) <==> Total(es) + bytes <= budget
  {
    if Total(es) + bytes > budget {
      RoomTakesOldest(es, bytes, budget);
    }
  }

  lemma {:induction false} AdmittedThins<K(!new), G(!new), V(!new)>(
      es: seq<Entry<K, G, V>>, group: Option<(G, nat)>, e: Entry<K, G, V>, budget: nat)
    requires PinnedTotal(es) + e.bytes <= budget && Distinct(es) && (forall x :: x in es ==> x.id != e.id)
    ensures var r := Admitted(es, group, e, budget);
      |r| > 0 && r[|r| - 1] == e && Thinned(es, r[..|r| - 1], None) && Distinct(r) && Total(r) <= budget
      && PinnedTotal(r) == PinnedTotal(es) + (if e.pinned then e.bytes else 0)
  {
    hide Thinned, Total, PinnedTotal, MakeRoom, CapGroup, Distinct;
    var capped := if group.Some? then CapGroup(es, group.value.0, group.value.1) else es;
    if group.Some? {
      CapGroupThins(es, group.value.0, group.value.1);
      ThinnedLoose(es, capped, Some(group.value.0));
    } else {
      ThinnedSelf(es, None);
    }
    ThinnedTotals(es, capped);
    var kept := MakeRoom(capped, e.bytes, budget);
    MakeRoomThins(capped, e.bytes, budget);
    ThinnedTwice(es, capped, kept, None);
    JoinThinned(es, kept, e);
  }

  lemma {:induction false} ThinnedTotals<K(!new), G(!new), V(!new)>(es: seq<Entry<K, G, V>>, kept: seq<Entry<K, G, V>>)
    requires Thinned(es, kept, None)
    ensures PinnedTotal(kept) == PinnedTotal(es)
  {
    hide Picks, Total, PinnedTotal;
  }

  lemma {:induction false} JoinThinned<K(!new), G(!new), V(!new)>(
      es: seq<Entry<K, G, V>>, kept: seq<Entry<K, G, V>>, e: Entry<K, G, V>)
    requires Thinned(es, kept, None) && Distinct(es) && (forall x :: x in es ==> x.id != e.id)
    ensures var r := kept + [e];
      r[..|r| - 1] == kept && Distinct(r) && Total(r) == Total(kept) + e.bytes
      && PinnedTotal(r) == PinnedTotal(es) + (if e.pinned then e.bytes else 0)
  {
    ThinnedTotals(es, kept);
    ThinnedMembers(es, kept, None);
    TotalJoin(kept, [e]);
    OneTotal(e);
    hide Thinned, Total, PinnedTotal;
    AppendDistinct(kept, e);
    assert (kept + [e])[..|kept|] == kept;
  }

  lemma {:induction false} OneTotal<K(!new), G(!new), V(!new)>(e: Entry<K, G, V>)
    ensures Total([e]) == e.bytes && PinnedTotal([e]) == if e.pinned then e.bytes else 0
  {
    assert [e][1..] == [];
  }

  lemma {:induction false} InGroupWithout<K(!new), G(!new), V(!new)>(es: seq<Entry<K, G, V>>, at: nat, g: G)
    requires at < |es|
    ensures InGroup(Without(es, at), g) == InGroup(es, g) - (if es[at].group == Some(g) then 1 else 0)
  {
    var r := Without(es, at);
    if at == 0 {
      assert r == es[1..];
    } else {
      InGroupWithout(es[1..], at - 1, g);
      assert r[1..] == Without(es[1..], at - 1) && r[0] == es[0];
    }
  }

  lemma {:induction false} InGroupSnoc<K(!new), G(!new), V(!new)>(es: seq<Entry<K, G, V>>, e: Entry<K, G, V>, g: G)
    ensures InGroup(es + [e], g) == InGroup(es, g) + (if e.group == Some(g) then 1 else 0)
  {
    if es != [] {
      InGroupSnoc(es[1..], e, g);
      assert (es + [e])[1..] == es[1..] + [e];
    }
  }

  ghost predicate NonePinned<K(!new), G(!new), V(!new)>(es: seq<Entry<K, G, V>>, g: G) {
    forall e :: e in es && e.group == Some(g) ==> !e.pinned
  }

  lemma {:induction false} SomeOldest<K(!new), G(!new), V(!new)>(es: seq<Entry<K, G, V>>, g: G)
    requires NonePinned(es, g) && InGroup(es, g) > 0
    ensures Oldest(es, Some(g)) < |es|
  {
    if es != [] && es[0].group != Some(g) {
      assert forall e :: e in es[1..] ==> e in es;
      SomeOldest(es[1..], g);
    }
  }

  lemma {:induction false} CapGroupCaps<K(!new), G(!new), V(!new)>(es: seq<Entry<K, G, V>>, g: G, cap: nat)
    requires cap > 0 && NonePinned(es, g)
    ensures InGroup(CapGroup(es, g, cap), g) < cap
    decreases |es|
  {
    var at := Oldest(es, Some(g));
    if InGroup(es, g) >= cap {
      SomeOldest(es, g);
      assert forall e :: e in Without(es, at) ==> e in es;
      CapGroupCaps(Without(es, at), g, cap);
    }
  }

  lemma {:induction false} MakeRoomKeepsCap<K(!new), G(!new), V(!new)>(
      es: seq<Entry<K, G, V>>, bytes: nat, budget: nat, g: G)
    ensures InGroup(MakeRoom(es, bytes, budget), g) <= InGroup(es, g)
    decreases |es|
  {
    var at := Oldest(es, None);
    if !(Total(es) + bytes <= budget || at == |es|) {
      InGroupWithout(es, at, g);
      MakeRoomKeepsCap(Without(es, at), bytes, budget, g);
    }
  }

  /** A group without pins never exceeds its cap. */
  lemma {:induction false} AdmittedWithinCap<K(!new), G(!new), V(!new)>(
      es: seq<Entry<K, G, V>>, g: G, cap: nat, e: Entry<K, G, V>, budget: nat)
    requires cap > 0 && NonePinned(es, g) && e.group == Some(g)
    ensures InGroup(Admitted(es, Some((g, cap)), e, budget), g) <= cap
  {
    CapGroupCaps(es, g, cap);
    MakeRoomKeepsCap(CapGroup(es, g, cap), e.bytes, budget, g);
    InGroupSnoc(MakeRoom(CapGroup(es, g, cap), e.bytes, budget), e, g);
  }

  // ---- The store ---------------------------------------------------------------

  /** The entries as a finite map. */
  function AsMap<K, G, V>(es: seq<Entry<K, G, V>>): (m: map<K, V>)
    requires Distinct(es)
  {
    map i | 0 <= i < |es| :: es[i].id := es[i].value
  }

  /** The same entries, in another order of use. */
  ghost predicate SameEntries<K(!new), G(!new), V(!new)>(a: seq<Entry<K, G, V>>, b: seq<Entry<K, G, V>>) {
    (forall e :: e in a <==> e in b) && Total(a) == Total(b) && PinnedTotal(a) == PinnedTotal(b)
  }

  /** The entry of `id` goes to the back; the others keep their order. */
  ghost predicate MovedBack<K(!new), G(!new), V(!new)>(
      before: seq<Entry<K, G, V>>, after: seq<Entry<K, G, V>>, id: K) {
    exists at :: 0 <= at < |before| && before[at].id == id && after == Without(before, at) + [before[at]]
  }

  /** The entry of `id` is gone; the others keep their order. */
  ghost predicate TakenOut<K(!new), G(!new), V(!new)>(
      before: seq<Entry<K, G, V>>, after: seq<Entry<K, G, V>>, id: K) {
    exists at :: 0 <= at < |before| && before[at].id == id && after == Without(before, at)
  }

  /** Exactly the entries whose id passes stay, in their order. */
  ghost predicate Filtered<K(!new), G(!new), V(!new)>(
      before: seq<Entry<K, G, V>>, after: seq<Entry<K, G, V>>, keep: K -> bool) {
    (forall e :: e in after <==> e in before && keep(e.id)) && exists at :: Picks(before, after, at)
  }

  /** Whether pinning `id` would put more than half the budget under pins. */
  ghost predicate PastHalf<K(!new), G(!new), V(!new)>(es: seq<Entry<K, G, V>>, id: K, budget: nat) {
    exists e :: e in es && e.id == id && !e.pinned && PinnedTotal(es) + e.bytes > budget / 2
  }

  lemma {:induction false} PastHalfAt<K(!new), G(!new), V(!new)>(es: seq<Entry<K, G, V>>, at: nat, budget: nat)
    requires Distinct(es) && at < |es|
    ensures PastHalf(es, es[at].id, budget) <==> !es[at].pinned && PinnedTotal(es) + es[at].bytes > budget / 2
  {
    hide PinnedTotal;
    forall x | x in es && x.id == es[at].id
      ensures x == es[at]
    {
      OneEntry(es, x, es[at]);
    }
  }

  lemma {:induction false} NotHeld<K(!new), G(!new), V(!new)>(es: seq<Entry<K, G, V>>, id: K, budget: nat)
    requires Distinct(es) && forall i :: 0 <= i < |es| ==> es[i].id != id
    ensures id !in AsMap(es) && !PastHalf(es, id, budget)
  {
    hide PinnedTotal;
  }

  /** Whether `id` is held under a pin. */
  ghost predicate IsPinned<K(!new), G(!new), V(!new)>(es: seq<Entry<K, G, V>>, id: K) {
    exists e :: e in es && e.id == id && e.pinned
  }

  /** A new unpinned entry changes no pin. */
  lemma {:induction false} AdmittedPins<K(!new), G(!new), V(!new)>(
      es: seq<Entry<K, G, V>>, e: Entry<K, G, V>, budget: nat, k: K)
    requires Distinct(es) && e.id !in AsMap(es) && PinnedTotal(es) + e.bytes <= budget && !e.pinned
    ensures IsPinned(Admitted(es, None, e, budget), k) <==> IsPinned(es, k)
  {
    AdmittedDistinct(es, e, budget);
    RoomThins(es, e.bytes, budget);
    hide MakeRoom, Total, PinnedTotal, Distinct;
  }

  /** Setting one pin changes no other. */
  lemma {:induction false} SetPins<K(!new), G(!new), V(!new)>(
      es: seq<Entry<K, G, V>>, i: nat, pinned: bool, fs: seq<Entry<K, G, V>>)
    requires Distinct(es) && i < |es| && fs == es[i := es[i].(pinned := pinned)]
    ensures forall k :: IsPinned(fs, k) <==> if k == es[i].id then pinned else IsPinned(es, k)
  {
    forall k
      ensures IsPinned(fs, k) <==> if k == es[i].id then pinned else IsPinned(es, k)
    {
      assert forall j :: 0 <= j < |es| ==> fs[j] in fs && es[j] in es;
    }
  }

  /** Taking one entry away changes no other's pin. */
  lemma {:induction false} RemovedPins<K(!new), G(!new), V(!new)>(
      es: seq<Entry<K, G, V>>, left: seq<Entry<K, G, V>>, id: K, k: K)
    requires Distinct(es) && Distinct(left) && AsMap(left) == AsMap(es) - {id} && (forall e :: e in left ==> e in es)
    ensures IsPinned(left, k) <==> k != id && IsPinned(es, k)
  {
    if k != id && IsPinned(es, k) {
      var e :| e in es && e.id == k && e.pinned;
      InView(es, e);
      var f := MemberOf(left, k);
      OneEntry(es, e, f);
    }
    if IsPinned(left, k) {
      var e :| e in left && e.id == k && e.pinned;
      InView(left, e);
    }
  }

  lemma {:induction false} PastHalfSame<K(!new), G(!new), V(!new)>(
      a: seq<Entry<K, G, V>>, b: seq<Entry<K, G, V>>, id: K, budget: nat)
    requires SameEntries(a, b)
    ensures PastHalf(a, id, budget) <==> PastHalf(b, id, budget)
  {
    hide PinnedTotal, Total;
  }

  lemma {:induction false} SameTwice<K(!new), G(!new), V(!new)>(
      a: seq<Entry<K, G, V>>, b: seq<Entry<K, G, V>>, c: seq<Entry<K, G, V>>)
    requires SameEntries(a, b) && SameEntries(b, c)
    ensures SameEntries(a, c)
  {
    hide PinnedTotal, Total;
  }

  // ---- What an insertion evicts -----------------------------------------------------

  /** Whether `id` stays when `bytes` more are held: it is pinned, or it, all used
      after it, the pins before it and the new bytes fit together. */
  ghost predicate Survives<K(!new), G(!new), V(!new)>(es: seq<Entry<K, G, V>>, id: K, bytes: nat, budget: nat) {
    exists i :: 0 <= i < |es| && es[i].id == id
      && (es[i].pinned || Total(es[i..]) + PinnedTotal(es[..i]) + bytes <= budget)
  }

  lemma {:induction false} SurvivesAdmitted<K(!new), G(!new), V(!new)>(
      es: seq<Entry<K, G, V>>, e: Entry<K, G, V>, budget: nat, id: K)
    requires Distinct(es) && id in AsMap(es) && e.id !in AsMap(es) && PinnedTotal(es) + e.bytes <= budget
    ensures Distinct(Admitted(es, None, e, budget))
    ensures id in AsMap(Admitted(es, None, e, budget)) <==> Survives(es, id, e.bytes, budget)
  {
    var left := MakeRoom(es, e.bytes, budget);
    var i :| 0 <= i < |es| && es[i].id == id;
    SurvivesAt(es, i, e.bytes, budget);
    InView(es, es[i]);
    AdmittedDistinct(es, e, budget);
    assert Admitted(es, None, e, budget) == left + [e];
    hide Total, PinnedTotal, MakeRoom, Survives, Distinct, Admitted;
    RoomThins(es, e.bytes, budget);
    HeldOrNot(es, left, e, es[i]);
    if !es[i].pinned {
      SurvivesRoom(es, i, e.bytes, budget);
    }
  }

  lemma {:induction false} RoomThins<K(!new), G(!new), V(!new)>(es: seq<Entry<K, G, V>>, bytes: nat, budget: nat)
    requires PinnedTotal(es) + bytes <= budget
    ensures forall e :: e in MakeRoom(es, bytes, budget) ==> e in es
    ensures forall e :: e in es && e.pinned ==> e in MakeRoom(es, bytes, budget)
  {
    MakeRoomThins(es, bytes, budget);
    ThinnedMembers(es, MakeRoom(es, bytes, budget), None);
    hide MakeRoom, Total, PinnedTotal, Picks;
  }

  /** With ids distinct, an entry survives as its own place says. */
  lemma {:induction false} SurvivesAt<K(!new), G(!new), V(!new)>(
      es: seq<Entry<K, G, V>>, i: nat, bytes: nat, budget: nat)
    requires Distinct(es) && i < |es|
    ensures Survives(es, es[i].id, bytes, budget)
      <==> es[i].pinned || Total(es[i..]) + PinnedTotal(es[..i]) + bytes <= budget
  {
    assert forall j :: 0 <= j < |es| && es[j].id == es[i].id ==> j == i;
    hide Total, PinnedTotal;
  }

  /** A list of entries of `es` and a new one holds an entry's id when it holds the
      entry. */
  lemma {:induction false} HeldOrNot<K(!new), G(!new), V(!new)>(
      es: seq<Entry<K, G, V>>, left: seq<Entry<K, G, V>>, e: Entry<K, G, V>, x: Entry<K, G, V>)
    requires Distinct(es) && x in es && x.id != e.id && (forall y :: y in left ==> y in es) && Distinct(left + [e])
    ensures x.id in AsMap(left + [e]) <==> x in left
  {
    if x in left {
      assert x in left + [e];
      InView(left + [e], x);
    }
    if x.id in AsMap(left + [e]) {
      var y := MemberOf(left + [e], x.id);
      OneEntry(es, x, y);
    }
  }

  lemma {:induction false} OneEntry<K(!new), G(!new), V(!new)>(
      es: seq<Entry<K, G, V>>, x: Entry<K, G, V>, y: Entry<K, G, V>)
    requires Distinct(es) && x in es && y in es && x.id == y.id
    ensures x == y
  {
    var i :| 0 <= i < |es| && es[i] == x;
    var j :| 0 <= j < |es| && es[j] == y;
  }

  lemma {:induction false} AdmittedDistinct<K(!new), G(!new), V(!new)>(
      es: seq<Entry<K, G, V>>, e: Entry<K, G, V>, budget: nat)
    requires Distinct(es) && e.id !in AsMap(es) && PinnedTotal(es) + e.bytes <= budget
    ensures Distinct(Admitted(es, None, e, budget))
    ensures PinnedTotal(Admitted(es, None, e, budget)) == PinnedTotal(es) + (if e.pinned then e.bytes else 0)
    ensures e in Admitted(es, None, e, budget) && forall x :: x in Admitted(es, None, e, budget) ==> x == e || x in es
  {
    forall x | x in es
      ensures x.id != e.id
    {
      InView(es, x);
    }
    AdmittedThins(es, None, e, budget);
    var r := Admitted(es, None, e, budget);
    ThinnedMembers(es, r[..|r| - 1], None);
    assert r == r[..|r| - 1] + [e];
    hide Admitted, Thinned, Total, PinnedTotal;
  }

  /** What was used last stays exactly when it, the pins and the new bytes fit. */
  lemma {:induction false} NewestSurvives<K(!new), G(!new), V(!new)>(es: seq<Entry<K, G, V>>, bytes: nat, budget: nat)
    requires es != [] && Distinct(es) && !es[|es| - 1].pinned
    ensures Survives(es, es[|es| - 1].id, bytes, budget) <==> es[|es| - 1].bytes + PinnedTotal(es) + bytes <= budget
  {
    var n := |es| - 1;
    TotalJoin(es[..n], es[n..]);
    assert es[..n] + es[n..] == es && es[n..] == [es[n]];
    OneTotal(es[n]);
    SurvivesAt(es, n, bytes, budget);
    hide Total, PinnedTotal, Survives;
  }

  /** An unpinned entry stays when all that is held and the new bytes fit, and only
      when it, the pins and the new bytes do. */
  lemma {:induction false} SurvivesBounds<K(!new), G(!new), V(!new)>(
      es: seq<Entry<K, G, V>>, x: Entry<K, G, V>, bytes: nat, budget: nat)
    requires Distinct(es) && x in es && !x.pinned
    ensures Total(es) + bytes <= budget ==> Survives(es, x.id, bytes, budget)
    ensures Survives(es, x.id, bytes, budget) ==> x.bytes + PinnedTotal(es) + bytes <= budget
  {
    hide Total, PinnedTotal, Survives, Distinct;
    var i :| 0 <= i < |es| && es[i] == x;
    SurvivesAt(es, i, bytes, budget);
    TotalJoin(es[..i], es[i..]);
    TotalJoin([x], es[i + 1..]);
    OneTotal(x);
    PinnedAtMost(es[..i]);
    PinnedAtMost(es[i + 1..]);
    assert es[..i] + es[i..] == es && es[i..] == [x] + es[i + 1..];
  }

  lemma {:induction false} PinnedSurvives<K(!new), G(!new), V(!new)>(
      es: seq<Entry<K, G, V>>, x: Entry<K, G, V>, bytes: nat, budget: nat)
    requires x in es && x.pinned
    ensures Survives(es, x.id, bytes, budget)
  {
    var i :| 0 <= i < |es| && es[i] == x;
    hide Total, PinnedTotal;
  }

  /** With room for it a new entry evicts nothing. */
  lemma {:induction false} AdmittedWhole<K(!new), G(!new), V(!new)>(
      es: seq<Entry<K, G, V>>, e: Entry<K, G, V>, budget: nat)
    ensures Total(es) + e.bytes <= budget ==> Total(Admitted(es, None, e, budget)) == Total(es) + e.bytes
  {
    TotalJoin(es, [e]);
    OneTotal(e);
  }

  /** Over every order of use the bounds are exact: an unpinned entry stays in all
      of them if and only if everything fits, and in some if and only if it, the
      pins and the new bytes do. */
  lemma {:induction false} SurvivesInOrders<K(!new), G(!new), V(!new)>(
      es: seq<Entry<K, G, V>>, x: Entry<K, G, V>, bytes: nat, budget: nat)
    requires Distinct(es) && x in es && !x.pinned
    ensures (forall fs | Distinct(fs) && SameEntries(es, fs) :: Survives(fs, x.id, bytes, budget))
      <==> Total(es) + bytes <= budget
    ensures (exists fs :: Distinct(fs) && SameEntries(es, fs) && Survives(fs, x.id, bytes, budget))
      <==> x.bytes + PinnedTotal(es) + bytes <= budget
  {
    hide Total, PinnedTotal, Survives, Distinct;
    forall fs | Distinct(fs) && SameEntries(es, fs)
      ensures Total(es) + bytes <= budget ==> Survives(fs, x.id, bytes, budget)
      ensures Survives(fs, x.id, bytes, budget) ==> x.bytes + PinnedTotal(es) + bytes <= budget
    {
      SurvivesBounds(fs, x, bytes, budget);
    }
    var first := UsedFirst(es, x, bytes, budget);
    var last := UsedLast(es, x, bytes, budget);
  }

  /** Everything else used since: the entry stays only when everything fits. */
  lemma {:induction false} UsedFirst<K(!new), G(!new), V(!new)>(
      es: seq<Entry<K, G, V>>, x: Entry<K, G, V>, bytes: nat, budget: nat) returns (fs: seq<Entry<K, G, V>>)
    requires Distinct(es) && x in es && !x.pinned
    ensures Distinct(fs) && SameEntries(es, fs)
    ensures Survives(fs, x.id, bytes, budget) <==> Total(es) + bytes <= budget
  {
    hide Total, PinnedTotal, Survives, Distinct, Without;
    var at :| 0 <= at < |es| && es[at] == x;
    var rest := Without(es, at);
    fs := [x] + rest;
    TotalWithout(es, at);
    TotalJoin([x], rest);
    OneTotal(x);
    TouchMembers(es, at);
    WithoutMembers(es, at);
    PrependDistinct(x, rest);
    SurvivesAt(fs, 0, bytes, budget);
    assert fs[0..] == fs && fs[..0] == [];
    NothingPinned(fs[..0]);
  }

  lemma {:induction false} NothingPinned<K(!new), G(!new), V(!new)>(es: seq<Entry<K, G, V>>)
    requires es == []
    ensures PinnedTotal(es) == 0
  {
  }

  /** Nothing used since: it stays when it, the pins and the new bytes fit. */
  lemma {:induction false} UsedLast<K(!new), G(!new), V(!new)>(
      es: seq<Entry<K, G, V>>, x: Entry<K, G, V>, bytes: nat, budget: nat) returns (fs: seq<Entry<K, G, V>>)
    requires Distinct(es) && x in es && !x.pinned
    ensures Distinct(fs) && SameEntries(es, fs)
    ensures Survives(fs, x.id, bytes, budget) <==> x.bytes + PinnedTotal(es) + bytes <= budget
  {
    var at :| 0 <= at < |es| && es[at] == x;
    fs := Without(es, at) + [x];
    TouchKeeps(es, at, fs);
    NewestSurvives(fs, bytes, budget);
    hide Total, PinnedTotal, Survives, Distinct;
  }

  /** Half the budget under pins and the other half used last: one more of that
      size takes the newest away, though two of them fit the budget. */
  lemma {:induction false} PinsCrowdOut()
    ensures var es: seq<Entry<nat, nat, nat>> := [Entry(0, None, 5, true, 0), Entry(1, None, 5, false, 0)];
      Distinct(es) && Total(es) <= 10 && PinnedTotal(es) <= 10 / 2 && 10 >= 2 * 5 && !Survives(es, 1, 5, 10)
  {
    var es: seq<Entry<nat, nat, nat>> := [Entry(0, None, 5, true, 0), Entry(1, None, 5, false, 0)];
    assert es[1..] == [es[1]];
    NewestSurvives(es, 5, 10);
  }

  /** An entry held and taken away again leaves the store as it was exactly when
      there was room for it: what it evicted does not come back. */
  lemma {:induction false} TakenBack<K(!new), G(!new), V(!new)>(es: seq<Entry<K, G, V>>, e: Entry<K, G, V>, budget: nat)
    requires Distinct(es) && e.id !in AsMap(es) && PinnedTotal(es) + e.bytes <= budget
    ensures Distinct(Admitted(es, None, e, budget))
    ensures AsMap(Admitted(es, None, e, budget)) - {e.id} == AsMap(es) <==> Total(es) + e.bytes <= budget
  {
    var left, r := MakeRoom(es, e.bytes, budget), Admitted(es, None, e, budget);
    AdmittedDistinct(es, e, budget);
    RoomTakes(es, e.bytes, budget);
    if Total(es) + e.bytes <= budget {
      SubView(r, es);
      forall k | k in AsMap(r) && k != e.id
        ensures k in AsMap(es)
      {
        var x := MemberOf(r, k);
        InView(es, x);
      }
    } else {
      var x :| x in es && x !in left;
      InView(es, x);
      MakeRoomThins(es, e.bytes, budget);
      ThinnedMembers(es, left, None);
      HeldOrNot(es, left, e, x);
      assert x.id in AsMap(es) && x.id !in AsMap(r);
    }
    hide Total, PinnedTotal, MakeRoom, Thinned;
  }

  /** A pin past half the budget, refused after the entry was held for it, has
      evicted what made room. */
  lemma {:induction false} RefusedPinEvicts()
    ensures var es: seq<Entry<nat, nat, nat>> := [Entry(0, None, 3, true, 0), Entry(1, None, 5, false, 0)];
      var e: Entry<nat, nat, nat> := Entry(2, None, 4, false, 0);
      Admitted(es, None, e, 10) == [es[0], e] && PastHalf([es[0], e], 2, 10)
  {
    var es: seq<Entry<nat, nat, nat>> := [Entry(0, None, 3, true, 0), Entry(1, None, 5, false, 0)];
    var e: Entry<nat, nat, nat> := Entry(2, None, 4, false, 0);
    assert es[1..] == [es[1]] && Total(es) == 8 && Oldest(es, None) == 1 && Without(es, 1) == [es[0]];
    assert Total([es[0]]) == 3;
    assert [es[0]] + [e] == [es[0], e] && [es[0], e][1] == e && [es[0], e][1..] == [e];
    assert [e][1..] == [] && PinnedTotal([e]) == 0;
    assert e in [es[0], e] && PinnedTotal([es[0], e]) == 3;
  }

  class StateStore<K(==, !new), G(==, !new), V(!new)> {
    const budget: nat
    var used: nat
    /** In order of last use, the oldest first. */
    var entries: seq<Entry<K, G, V>>

    ghost predicate Valid()
      reads this
    {
      Distinct(entries) && used == Total(entries) && used <= budget && PinnedTotal(entries) <= budget / 2
    }

    function View(): map<K, V>
      requires Valid()
      reads this
    {
      AsMap(entries)
    }

    constructor (budget: nat)
      ensures Valid() && this.budget == budget && entries == []
    {
      this.budget := budget;
      used := 0;
      entries := [];
    }

    /** A pin or its removal, refused when the pins would take more than half. */
    method SetPinned(id: K, pinned: bool) returns (r: Result<bool, ()>)
      requires Valid()
      modifies this
      ensures Valid() && View() == old(View()) && |entries| == old(|entries|)
      ensures r == Success(false) <==> id !in old(View())
      ensures r.Failure? <==> pinned && PastHalf(old(entries), id, budget)
      ensures r != Success(true) ==> entries == old(entries)
      ensures r == Success(true) ==>
        exists i :: 0 <= i < |entries| && old(entries)[i].id == id
          && entries == old(entries)[i := old(entries)[i].(pinned := pinned)]
      ensures r == Success(true) ==>
        forall k :: IsPinned(entries, k) <==> if k == id then pinned else IsPinned(old(entries), k)
    {
      hide IsPinned, PastHalf, Total, PinnedTotal, AsMap;
      var at := Position(entries, id);
      if at == |entries| {
        NotHeld(entries, id, budget);
        return Success(false);
      }
      var e := entries[at];
      ViewAt(entries, at);
      PastHalfAt(entries, at, budget);
      if pinned && !e.pinned && PinnedTotal(entries) + e.bytes > budget / 2 {
        return Failure(());
      }
      SetPinTotals(entries, at, pinned);
      SetPinView(entries, at, pinned);
      entries := entries[at := e.(pinned := pinned)];
      SetPins(old(entries), at, pinned, entries);
      r := Success(true);
    }

    /** One entry taken out; a pin does not protect it. */
    method Remove(id: K) returns (r: Option<V>)
      requires Valid()
      modifies this
      ensures Valid() && View() == old(View()) - {id}
      ensures forall e :: e in entries ==> e in old(entries)
      ensures r == if id in old(View()) then Some(old(View())[id]) else None
      ensures if r.None? then entries == old(entries) else TakenOut(old(entries), entries, id)
    {
      var at := Position(entries, id);
      if at == |entries| {
        return None;
      }
      r := Some(entries[at].value);
      TotalWithout(entries, at);
      WithoutView(entries, at);
      WithoutMembers(entries, at);
      used := used - entries[at].bytes;
      entries := Without(entries, at);
    }

    /** The value, with no use counted. */
    function Peek(id: K): (r: Option<V>)
      requires Valid()
      reads this
      ensures r == if id in View() then Some(View()[id]) else None
    {
      var at := Position(entries, id);
      if at < |entries| then Some(entries[at].value) else None
    }

    /** The value, and a use counted: its entry goes to the back. */
    method Get(id: K) returns (r: Option<V>)
      requires Valid()
      modifies this
      ensures Valid() && View() == old(View()) && SameEntries(old(entries), entries)
      ensures r == if id in View() then Some(View()[id]) else None
      ensures r.None? ==> entries == old(entries)
      ensures r.Some? ==> MovedBack(old(entries), entries, id)
    {
      var at := Position(entries, id);
      if at == |entries| {
        return None;
      }
      var e := entries[at];
      r := Some(e.value);
      TouchKeeps(entries, at, Without(entries, at) + [e]);
      entries := Without(entries, at) + [e];
    }

    /** A new id's value is added and `Admitted` says what goes for it; a known id's
        is only used. Refused, with nothing evicted, when the pins leave no room; not
        held, without an error, when the group's cap is 0. */
    method InsertIn(id: K, group: Option<(G, nat)>, bytes: nat, value: V) returns (r: Result<seq<K>, ()>)
      requires Valid()
      modifies this
      ensures Valid()
      ensures id in old(View()) ==> r == Success([]) && View() == old(View()) && SameEntries(old(entries), entries)
      ensures id in old(View()) ==> MovedBack(old(entries), entries, id)
      ensures PinnedTotal(entries) == old(PinnedTotal(entries))
      ensures id !in old(View()) ==>
        var full := old(PinnedTotal(entries)) + bytes > budget;
        var barred := group.Some? && group.value.1 == 0;
        var e := Entry(id, if group.Some? then Some(group.value.0) else None, bytes, false, value);
        if full then r == Failure(()) && entries == old(entries)
        else if barred then r == Success([]) && entries == old(entries)
        else r.Success? && entries == Admitted(old(entries), group, e, budget)
             && Grown(old(View()), View(), id, value, r.value)
    {
      var held := Get(id);
      if held.Some? {
        return Success([]);
      }
      PinnedAtMost(entries);
      if bytes > budget || PinnedTotal(entries) + bytes > budget {
        return Failure(());
      }
      if group.Some? && group.value.1 == 0 {
        return Success([]);
      }
      var evicted := Admit(group, Entry(id, if group.Some? then Some(group.value.0) else None, bytes, false, value));
      r := Success(evicted);
    }

    /** Evict for `e`, then hold it. */
    method Admit(group: Option<(G, nat)>, e: Entry<K, G, V>) returns (evicted: seq<K>)
      requires Valid() && e.id !in View() && !e.pinned && PinnedTotal(entries) + e.bytes <= budget
      modifies this
      ensures Valid() && entries == Admitted(old(entries), group, e, budget)
      ensures PinnedTotal(entries) == old(PinnedTotal(entries))
      ensures Grown(old(View()), View(), e.id, e.value, evicted)
    {
      ghost var before := entries;
      evicted := [];
      if group.Some? {
        evicted := EvictGroup(group.value.0, group.value.1, before);
      }
      evicted := EvictBytes(e.bytes, before, evicted);
      AddView(before, entries, evicted, e);
      TotalJoin(entries, [e]);
      used := used + e.bytes;
      entries := entries + [e];
    }

    /** The group's least recently used go while it is at its cap. */
    method EvictGroup(group: G, cap: nat, ghost before: seq<Entry<K, G, V>>) returns (evicted: seq<K>)
      requires Valid() && entries == before
      modifies this
      ensures Valid() && entries == CapGroup(before, group, cap)
      ensures PinnedTotal(entries) == PinnedTotal(before) && Partition(before, entries, evicted)
    {
      evicted := [];
      while InGroup(entries, group) >= cap && Oldest(entries, Some(group)) < |entries|
        invariant Valid() && PinnedTotal(entries) == PinnedTotal(before)
        invariant CapGroup(entries, group, cap) == CapGroup(before, group, cap)
        invariant Partition(before, entries, evicted)
        decreases |entries|
      {
        evicted := EvictAt(Oldest(entries, Some(group)), before, evicted);
      }
    }

    /** The least recently used go until `bytes` fit. */
    method EvictBytes(bytes: nat, ghost before: seq<Entry<K, G, V>>, gone: seq<K>) returns (evicted: seq<K>)
      requires Valid() && PinnedTotal(entries) + bytes <= budget && Partition(before, entries, gone)
      modifies this
      ensures Valid() && entries == MakeRoom(old(entries), bytes, budget) && used + bytes <= budget
      ensures PinnedTotal(entries) == old(PinnedTotal(entries)) && Partition(before, entries, evicted)
    {
      evicted := gone;
      while used + bytes > budget
        invariant Valid() && PinnedTotal(entries) == old(PinnedTotal(entries))
        invariant MakeRoom(entries, bytes, budget) == MakeRoom(old(entries), bytes, budget)
        invariant Partition(before, entries, evicted)
        decreases |entries|
      {
        PinnedAtMost(entries);
        evicted := EvictAt(Oldest(entries, None), before, evicted);
      }
    }

    method EvictAt(at: nat, ghost before: seq<Entry<K, G, V>>, gone: seq<K>) returns (evicted: seq<K>)
      requires Valid() && at < |entries| && !entries[at].pinned && Partition(before, entries, gone)
      modifies this
      ensures Valid() && entries == Without(old(entries), at) && PinnedTotal(entries) == old(PinnedTotal(entries))
      ensures Partition(before, entries, evicted)
    {
      PartitionStep(before, entries, gone, at);
      WithoutView(entries, at);
      TotalWithout(entries, at);
      evicted := gone + [entries[at].id];
      used := used - entries[at].bytes;
      entries := Without(entries, at);
    }

    /** Exactly the ids that pass stay; a pin protects none of the others. */
    method Retain(keep: K -> bool)
      requires Valid()
      modifies this
      ensures Valid() && View() == map k | k in old(View()) && keep(k) :: old(View())[k]
      ensures PinnedTotal(entries) <= old(PinnedTotal(entries)) && Filtered(old(entries), entries, keep)
    {
      hide Filtered, Total, PinnedTotal;
      var kept, total := Keep(keep);
      KeptFilters(entries, keep);
      KeptView(entries, keep);
      KeptTotals(entries, keep);
      entries := kept;
      used := total;
    }

    method Keep(keep: K -> bool) returns (kept: seq<Entry<K, G, V>>, total: nat)
      ensures kept == Kept(entries, keep) && total == Total(kept)
    {
      kept, total := [], 0;
      for i := 0 to |entries|
        invariant kept == Kept(entries[..i], keep) && total == Total(kept)
      {
        var e := entries[i];
        assert entries[..i + 1] == entries[..i] + [e];
        KeptSnoc(entries[..i], e, keep);
        TotalJoin(kept, [e]);
        if keep(e.id) {
          kept := kept + [e];
          total := total + e.bytes;
        }
      }
      assert entries[..|entries|] == entries;
    }
  }

  // ---- Lemmas behind the methods -------------------------------------------------

  lemma {:induction false} SetPinTotals<K(!new), G(!new), V(!new)>(es: seq<Entry<K, G, V>>, at: nat, pinned: bool)
    requires at < |es|
    ensures var r := es[at := es[at].(pinned := pinned)];
      Total(r) == Total(es)
      && PinnedTotal(r)
         == PinnedTotal(es) - (if es[at].pinned then es[at].bytes else 0) + (if pinned then es[at].bytes else 0)
  {
    var r := es[at := es[at].(pinned := pinned)];
    if at == 0 {
      assert r[1..] == es[1..];
    } else {
      SetPinTotals(es[1..], at - 1, pinned);
      assert r[1..] == es[1..][at - 1 := es[at].(pinned := pinned)];
    }
  }

  lemma {:induction false} SetPinView<K(!new), G(!new), V(!new)>(es: seq<Entry<K, G, V>>, at: nat, pinned: bool)
    requires Distinct(es) && at < |es|
    ensures var r := es[at := es[at].(pinned := pinned)]; Distinct(r) && AsMap(r) == AsMap(es)
  {
    var r := es[at := es[at].(pinned := pinned)];
    SameSlotsView(es, r);
    SameSlotsView(r, es);
  }

  lemma {:induction false} SameSlotsView<K(!new), G(!new), V(!new)>(es: seq<Entry<K, G, V>>, fs: seq<Entry<K, G, V>>)
    requires Distinct(es) && |es| == |fs|
    requires forall i :: 0 <= i < |es| ==> fs[i].id == es[i].id && fs[i].value == es[i].value
    ensures Distinct(fs) && forall k :: k in AsMap(es) ==> k in AsMap(fs) && AsMap(fs)[k] == AsMap(es)[k]
  {
    forall k | k in AsMap(es)
      ensures k in AsMap(fs) && AsMap(fs)[k] == AsMap(es)[k]
    {
      var i :| 0 <= i < |es| && es[i].id == k;
      ViewAt(fs, i);
    }
  }

  lemma {:induction false} ViewAt<K(!new), G(!new), V(!new)>(es: seq<Entry<K, G, V>>, i: nat)
    requires Distinct(es) && i < |es|
    ensures es[i].id in AsMap(es) && AsMap(es)[es[i].id] == es[i].value
  {
  }

  /** A list whose members are all in another gives a part of its map. */
  lemma {:induction false} SubView<K(!new), G(!new), V(!new)>(es: seq<Entry<K, G, V>>, fs: seq<Entry<K, G, V>>)
    requires Distinct(es) && Distinct(fs) && (forall e :: e in fs ==> e in es)
    ensures forall k :: k in AsMap(fs) ==> k in AsMap(es) && AsMap(fs)[k] == AsMap(es)[k]
  {
    forall k | k in AsMap(fs)
      ensures k in AsMap(es) && AsMap(fs)[k] == AsMap(es)[k]
    {
      var i :| 0 <= i < |fs| && fs[i].id == k;
      assert fs[i] in es;
      var j :| 0 <= j < |es| && es[j] == fs[i];
      ViewAt(fs, i);
      ViewAt(es, j);
    }
  }

  lemma {:induction false} MemberOf<K(!new), G(!new), V(!new)>(
      es: seq<Entry<K, G, V>>, k: K) returns (e: Entry<K, G, V>)
    requires Distinct(es) && k in AsMap(es)
    ensures e in es && e.id == k
  {
    var i :| 0 <= i < |es| && es[i].id == k;
    e := es[i];
  }

  lemma {:induction false} InView<K(!new), G(!new), V(!new)>(es: seq<Entry<K, G, V>>, e: Entry<K, G, V>)
    requires Distinct(es) && e in es
    ensures e.id in AsMap(es) && AsMap(es)[e.id] == e.value
  {
    var i :| 0 <= i < |es| && es[i] == e;
    ViewAt(es, i);
  }

  lemma {:induction false} WithoutMembers<K(!new), G(!new), V(!new)>(es: seq<Entry<K, G, V>>, at: nat)
    requires at < |es| && Distinct(es)
    ensures Distinct(Without(es, at)) && forall e :: e in Without(es, at) <==> e in es && e.id != es[at].id
  {
    var r := Without(es, at);
    forall e | e in es && e.id != es[at].id
      ensures e in r
    {
      var i :| 0 <= i < |es| && es[i] == e;
      assert r[if i < at then i else i - 1] == e;
    }
    forall e | e in r
      ensures e in es && e.id != es[at].id
    {
      var i :| 0 <= i < |r| && r[i] == e;
      assert e == es[if i < at then i else i + 1];
    }
  }

  lemma {:induction false} WithoutView<K(!new), G(!new), V(!new)>(es: seq<Entry<K, G, V>>, at: nat)
    requires at < |es| && Distinct(es)
    ensures Distinct(Without(es, at)) && AsMap(Without(es, at)) == AsMap(es) - {es[at].id}
  {
    var r := Without(es, at);
    WithoutMembers(es, at);
    SubView(es, r);
    forall k | k in AsMap(r)
      ensures k != es[at].id
    {
      var e := MemberOf(r, k);
    }
    forall k | k in AsMap(es) && k != es[at].id
      ensures k in AsMap(r)
    {
      var e := MemberOf(es, k);
      InView(r, e);
    }
  }

  lemma {:induction false} TouchMembers<K(!new), G(!new), V(!new)>(es: seq<Entry<K, G, V>>, at: nat)
    requires at < |es| && Distinct(es)
    ensures var r := Without(es, at) + [es[at]]; Distinct(r) && forall e :: e in r <==> e in es
  {
    var rest := Without(es, at);
    WithoutMembers(es, at);
    AppendDistinct(rest, es[at]);
    forall e | e in es && e.id == es[at].id
      ensures e == es[at]
    {
      var i :| 0 <= i < |es| && es[i] == e;
    }
  }

  lemma {:induction false} TouchKeeps<K(!new), G(!new), V(!new)>(
      es: seq<Entry<K, G, V>>, at: nat, r: seq<Entry<K, G, V>>)
    requires at < |es| && Distinct(es) && r == Without(es, at) + [es[at]]
    ensures Distinct(r) && AsMap(r) == AsMap(es) && SameEntries(es, r)
  {
    TotalWithout(es, at);
    TotalJoin(Without(es, at), [es[at]]);
    TouchMembers(es, at);
    SubView(es, r);
    SubView(r, es);
  }

  lemma {:induction false} AppendDistinct<K(!new), G(!new), V(!new)>(es: seq<Entry<K, G, V>>, e: Entry<K, G, V>)
    requires Distinct(es) && forall x :: x in es ==> x.id != e.id
    ensures Distinct(es + [e])
  {
    assert forall i :: 0 <= i < |es| ==> es[i] in es;
  }

  /** `after` holds `id` with `value`, and of `before` exactly what was not evicted. */
  ghost predicate Grown<K(!new), V(!new)>(before: map<K, V>, after: map<K, V>, id: K, value: V, evicted: seq<K>) {
    id in after && after[id] == value
    && (forall k :: k in evicted ==> k in before)
    && (forall k :: k in before ==> (k in after <==> k !in evicted))
    && (forall k :: k in after && k != id ==> k in before && after[k] == before[k])
  }

  lemma {:induction false} AddView<K(!new), G(!new), V(!new)>(
      before: seq<Entry<K, G, V>>, left: seq<Entry<K, G, V>>, evicted: seq<K>, e: Entry<K, G, V>)
    requires Distinct(before) && Distinct(left) && Partition(before, left, evicted) && e.id !in AsMap(before)
    ensures Distinct(left + [e]) && Grown(AsMap(before), AsMap(left + [e]), e.id, e.value, evicted)
  {
    var after := left + [e];
    forall x | x in left
      ensures x.id in AsMap(before) && AsMap(before)[x.id] == x.value
    {
      var i :| 0 <= i < |before| && before[i] == x;
      ViewAt(before, i);
    }
    AppendDistinct(left, e);
    ViewAt(after, |left|);
    forall k | k in AsMap(after) && k != e.id
      ensures k in AsMap(before) && AsMap(after)[k] == AsMap(before)[k] && k !in evicted
    {
      var i :| 0 <= i < |after| && after[i].id == k;
      assert after[i] == left[i] && left[i] in left;
      ViewAt(after, i);
    }
    forall k | k in AsMap(before) && k !in evicted
      ensures k in AsMap(after)
    {
      var i :| 0 <= i < |before| && before[i].id == k;
      assert before[i] in left;
      var j :| 0 <= j < |left| && left[j] == before[i];
      assert after[j] == left[j];
    }
    forall k | k in evicted
      ensures k in AsMap(before)
    {
      var x :| x in before && x.id == k;
      var i :| 0 <= i < |before| && before[i] == x;
    }
  }

  /** The entries held at the start are the ones left and the ones evicted. */
  ghost predicate Partition<K(!new), G(!new), V(!new)>(
      before: seq<Entry<K, G, V>>, left: seq<Entry<K, G, V>>, evicted: seq<K>) {
    (forall e :: e in left ==> e in before)
    && (forall e :: e in before ==> e in left || e.id in evicted)
    && (forall k :: k in evicted ==> (forall e :: e in left ==> e.id != k) && exists e :: e in before && e.id == k)
  }

  lemma {:induction false} PartitionStep<K(!new), G(!new), V(!new)>(
      before: seq<Entry<K, G, V>>, left: seq<Entry<K, G, V>>, evicted: seq<K>, at: nat)
    requires Partition(before, left, evicted) && Distinct(left) && at < |left|
    ensures Partition(before, Without(left, at), evicted + [left[at].id])
  {
    var rest, gone := Without(left, at), left[at];
    forall e | e in before
      ensures e in rest || e.id in evicted + [gone.id]
    {
      if e in left {
        var i :| 0 <= i < |left| && left[i] == e;
        if i != at {
          assert rest[if i < at then i else i - 1] == e;
        }
      }
    }
    forall e | e in rest
      ensures e in left && e.id != gone.id
    {
      var i :| 0 <= i < |rest| && rest[i] == e;
      assert e == left[if i < at then i else i + 1];
    }
  }

  function Kept<K, G, V>(es: seq<Entry<K, G, V>>, keep: K -> bool): seq<Entry<K, G, V>> {
    if es == [] then [] else (if keep(es[0].id) then [es[0]] else []) + Kept(es[1..], keep)
  }

  lemma {:induction false} KeptSnoc<K(!new), G(!new), V(!new)>(
      es: seq<Entry<K, G, V>>, e: Entry<K, G, V>, keep: K -> bool)
    ensures Kept(es + [e], keep) == Kept(es, keep) + (if keep(e.id) then [e] else [])
  {
    if es != [] {
      KeptSnoc(es[1..], e, keep);
      assert (es + [e])[1..] == es[1..] + [e];
    }
  }

  lemma {:induction false} KeptIn<K(!new), G(!new), V(!new)>(es: seq<Entry<K, G, V>>, keep: K -> bool)
    requires Distinct(es)
    ensures Distinct(Kept(es, keep))
    ensures forall e :: e in Kept(es, keep) <==> e in es && keep(e.id)
  {
    if es != [] {
      var head, more := es[0], Kept(es[1..], keep);
      KeptIn(es[1..], keep);
      assert es == [head] + es[1..];
      forall e | e in more
        ensures e.id != head.id
      {
        assert e in es[1..];
        var i :| 0 <= i < |es[1..]| && es[1..][i] == e;
        assert es[i + 1] == e;
      }
      PrependDistinct(head, more);
    }
  }

  lemma {:induction false} PrependDistinct<K(!new), G(!new), V(!new)>(e: Entry<K, G, V>, es: seq<Entry<K, G, V>>)
    requires Distinct(es) && forall x :: x in es ==> x.id != e.id
    ensures Distinct([e] + es) && Distinct([] + es)
  {
    assert [] + es == es;
    assert forall i :: 0 <= i < |es| ==> es[i] in es;
  }

  /** Positions in all but the first entry are positions in the whole, one on. */
  function Later(at: seq<nat>): (r: seq<nat>)
    ensures |r| == |at| && forall k :: 0 <= k < |at| ==> r[k] == at[k] + 1
  {
    seq(|at|, k requires 0 <= k < |at| => at[k] + 1)
  }

  lemma {:induction false} PicksSkip<K(!new), G(!new), V(!new)>(
      es: seq<Entry<K, G, V>>, kept: seq<Entry<K, G, V>>, at: seq<nat>)
    requires es != [] && Picks(es[1..], kept, at)
    ensures Picks(es, kept, Later(at))
  {
  }

  lemma {:induction false} PicksTake<K(!new), G(!new), V(!new)>(
      es: seq<Entry<K, G, V>>, kept: seq<Entry<K, G, V>>, at: seq<nat>)
    requires es != [] && Picks(es[1..], kept, at)
    ensures Picks(es, [es[0]] + kept, [0] + Later(at))
  {
    var all, picks := [es[0]] + kept, [0] + Later(at);
    forall k | 0 <= k < |picks|
      ensures picks[k] < |es| && all[k] == es[picks[k]]
    {
      if k > 0 {
        assert picks[k] == at[k - 1] + 1 && all[k] == kept[k - 1];
      }
    }
    forall j, k | 0 <= j < k < |picks|
      ensures picks[j] < picks[k]
    {
      assert picks[k] == at[k - 1] + 1;
      if j > 0 {
        assert picks[j] == at[j - 1] + 1;
      }
    }
  }

  lemma {:induction false} KeptPicks<K(!new), G(!new), V(!new)>(es: seq<Entry<K, G, V>>, keep: K -> bool)
      returns (at: seq<nat>)
    ensures Picks(es, Kept(es, keep), at)
  {
    hide Picks, Later;
    if es == [] {
      at := [];
      NothingPicked(es, at);
    } else {
      var more := KeptPicks(es[1..], keep);
      PicksSkip(es, Kept(es[1..], keep), more);
      PicksTake(es, Kept(es[1..], keep), more);
      if keep(es[0].id) {
        at := [0] + Later(more);
      } else {
        at := Later(more);
        assert Kept(es, keep) == Kept(es[1..], keep);
      }
    }
  }

  lemma {:induction false} NothingPicked<K(!new), G(!new), V(!new)>(es: seq<Entry<K, G, V>>, at: seq<nat>)
    requires at == []
    ensures Picks(es, [], at)
  {
  }

  lemma {:induction false} KeptFilters<K(!new), G(!new), V(!new)>(es: seq<Entry<K, G, V>>, keep: K -> bool)
    requires Distinct(es)
    ensures Filtered(es, Kept(es, keep), keep)
  {
    var at := KeptPicks(es, keep);
    KeptIn(es, keep);
  }

  lemma {:induction false} KeptTotals<K(!new), G(!new), V(!new)>(es: seq<Entry<K, G, V>>, keep: K -> bool)
    ensures Total(Kept(es, keep)) <= Total(es) && PinnedTotal(Kept(es, keep)) <= PinnedTotal(es)
  {
    if es != [] {
      KeptTotals(es[1..], keep);
      TotalJoin(if keep(es[0].id) then [es[0]] else [], Kept(es[1..], keep));
    }
  }

  lemma {:induction false} KeptView<K(!new), G(!new), V(!new)>(es: seq<Entry<K, G, V>>, keep: K -> bool)
    requires Distinct(es)
    ensures Distinct(Kept(es, keep))
    ensures AsMap(Kept(es, keep)) == (map k | k in AsMap(es) && keep(k) :: AsMap(es)[k])
  {
    var r := Kept(es, keep);
    KeptIn(es, keep);
    SubView(es, r);
    forall k | k in AsMap(es) && keep(k)
      ensures k in AsMap(r)
    {
      var e := MemberOf(es, k);
      InView(r, e);
    }
    forall k | k in AsMap(r)
      ensures keep(k)
    {
      var e := MemberOf(r, k);
    }
  }
}
