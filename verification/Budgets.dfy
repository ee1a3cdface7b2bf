/** What held states are charged (`StateSize` of `lfm2d/src/adjudicator.rs`), the
    two budgets the daemon refuses to start below, and that under them nothing it
    makes is too large to hold. */
module Budgets {
  import opened Schedule
  import opened Decoding

  const STATE_SLACK_BYTES: nat := 0x10_0000

  /** `checked_next_power_of_two`, from `p` up. */
  function PowerFrom(p: nat, n: nat): (r: nat)
    requires p > 0
    ensures n <= r && p <= r
    decreases n - p
  {
    if p >= n then p else PowerFrom(2 * p, n)
  }

  /** `kv` bytes a position, the convolution state, one row of logits, and the
      model's own context, which the allocator never rounds past. */
  datatype StateSize = StateSize(kv: nat, conv: nat, logits: nat, context: nat)
  {
    function Capacity(len: nat): nat {
      var rounded := PowerFrom(1, if len < 128 then 128 else len);
      if rounded < context then rounded else context
    }

    function Bytes(len: nat): nat {
      kv * Capacity(len) + conv + STATE_SLACK_BYTES
    }
  }

  lemma {:induction false} PowerGrows(p: nat, a: nat, b: nat)
    requires p > 0 && a <= b
    ensures PowerFrom(p, a) <= PowerFrom(p, b)
    decreases b - p
  {
    if p < a {
      PowerGrows(2 * p, a, b);
    }
  }

  /** A longer state is never charged less. */
  lemma {:induction false} BytesGrow(size: StateSize, a: nat, b: nat)
    requires a <= b
    ensures size.Bytes(a) <= size.Bytes(b)
  {
    var x, y := if a < 128 then 128 else a, if b < 128 then 128 else b;
    PowerGrows(1, x, y);
    Times(size.kv, size.Capacity(a), size.Capacity(b));
  }

  lemma {:induction false} Times(k: nat, a: nat, b: nat)
    requires a <= b
    ensures k * a <= k * b
  {
    assert k * b == k * a + k * (b - a);
  }

  /** `max_token_bytes`: no token decodes to more. */
  ghost predicate Bounded(m: Model) {
    forall t :: |m.tok.piece(t)| <= m.longest
  }

  lemma {:induction false} DecodeBounded(m: Model, ids: Ids)
    requires Bounded(m)
    ensures |Decode(m.tok, ids)| <= |ids| * m.longest
    decreases |ids|
  {
    if ids != [] {
      DecodeBounded(m, ids[1..]);
      assert |ids| * m.longest == m.longest + |ids[1..]| * m.longest;
    }
  }

  // ---- The charges -----------------------------------------------------------

  function ReadyBytes(size: StateSize, tokens: nat): nat {
    size.Bytes(tokens) + size.logits + 4 * tokens
  }

  function DescribedBytes(size: StateSize, tokens: nat, text: nat): nat {
    size.Bytes(tokens) + size.logits + 4 * tokens + text
  }

  /** `hold_checkpoint`'s charge. */
  function CheckpointBytes(size: StateSize, tokens: nat, text: nat): nat {
    size.Bytes(tokens) + 4 * tokens + text
  }

  /** `StateCache::largest_entry`. */
  function LargestEntry(size: StateSize, context: nat, longest: nat): nat {
    size.Bytes(context) + size.logits + context * (4 + longest)
  }

  /** One checkpoint at the full context: the chat budget is at least two. */
  function FullCheckpoint(size: StateSize, context: nat, longest: nat): nat {
    size.Bytes(context) + context * (4 + longest)
  }

  /** What `load` starts with. */
  predicate Starts(m: Model, chatBudget: nat, stateBudget: nat, size: StateSize) {
    stateBudget >= LargestEntry(size, m.contextLimit, m.longest)
    && chatBudget >= 2 * FullCheckpoint(size, m.contextLimit, m.longest)
  }

  /** Everything the state cache is asked to hold within the context fits. */
  lemma {:induction false} EntriesFit(size: StateSize, m: Model, tokens: nat, generated: Ids)
    requires Bounded(m) && |generated| <= tokens <= m.contextLimit
    ensures DescribedBytes(size, tokens, |Decode(m.tok, generated)|) <= LargestEntry(size, m.contextLimit, m.longest)
    ensures ReadyBytes(size, tokens) <= LargestEntry(size, m.contextLimit, m.longest)
    ensures size.Bytes(tokens) <= LargestEntry(size, m.contextLimit, m.longest)
  {
    BytesGrow(size, tokens, m.contextLimit);
    DecodeBounded(m, generated);
    Times(m.longest, |generated|, tokens);
    Times(4 + m.longest, tokens, m.contextLimit);
    Spread(tokens, m.longest);
  }

  lemma {:induction false} Spread(n: nat, longest: nat)
    ensures (4 + longest) * n == 4 * n + longest * n
  {
  }

  /** Every checkpoint within the context fits a full one's charge. */
  lemma {:induction false} CheckpointFits(size: StateSize, m: Model, ids: Ids)
    requires Bounded(m) && |ids| <= m.contextLimit
    ensures CheckpointBytes(size, |ids|, |Decode(m.tok, ids)|) <= FullCheckpoint(size, m.contextLimit, m.longest)
  {
    BytesGrow(size, |ids|, m.contextLimit);
    DecodeBounded(m, ids);
    Times(4 + m.longest, |ids|, m.contextLimit);
    Spread(|ids|, m.longest);
  }
}
