// Slot arithmetic of the paged cache: logical pages over fixed-size kernel blocks.

module Paging {
  import opened Common

  /** The flattened slot of logical token `i` under a block list. */
  function TokenSlot(ids: seq<nat>, i: nat, size: nat): nat
    requires size > 0 && i / size < |ids|
  {
    ids[i / size] * size + i % size
  }

  predicate InTable(ids: seq<nat>, tokens: seq<nat>, size: nat) {
    size > 0 && forall j :: 0 <= j < |tokens| ==> tokens[j] / size < |ids|
  }

  /** `token_slots`. */
  function TokenSlots(ids: seq<nat>, tokens: seq<nat>, size: nat): (slots: seq<nat>)
    requires InTable(ids, tokens, size)
    ensures |slots| == |tokens| && forall j :: 0 <= j < |tokens| ==> slots[j] == TokenSlot(ids, tokens[j], size)
  {
    seq(|tokens|, j requires 0 <= j < |tokens| => TokenSlot(ids, tokens[j], size))
  }

  /** Kernel block `k` of a list of logical pages. */
  function KernelBlock(ids: seq<nat>, factor: nat, k: nat): nat
    requires factor > 0 && k / factor < |ids|
  {
    ids[k / factor] * factor + k % factor
  }

  /** `_expand_scheduler_block_ids`: each logical page is `factor` consecutive kernel blocks. */
  function Expand(ids: seq<nat>, factor: nat): (blocks: seq<nat>)
    requires factor > 0
    ensures |blocks| == |ids| * factor
  {
    if factor == 1 then ids
    else seq(|ids| * factor, k requires 0 <= k < |ids| * factor => DivBelow(k, factor, |ids|); KernelBlock(ids, factor, k))
  }

  lemma ExpandAt(ids: seq<nat>, factor: nat, q: nat, a: nat)
    requires factor > 0 && q < |ids| && a < factor
    ensures q * factor + a < |Expand(ids, factor)| && Expand(ids, factor)[q * factor + a] == ids[q] * factor + a
  {
    DivModUnique(q, factor, a);
    MulMonotone(q + 1, |ids|, factor);
    assert (q + 1) * factor == q * factor + factor;
  }

  /** A token's logical page `q`, kernel block `a` inside it, and offset `b` inside that. */
  lemma Coordinates(q: nat, a: nat, b: nat, factor: nat, size: nat)
    requires a < factor && b < size
    ensures factor * size > 0 && a * size + b < factor * size
    ensures (q * factor + a) * size + b == q * (factor * size) + (a * size + b)
  {
    MulMonotone(a + 1, factor, size);
    MulDistributes(a, 1, size);
    MulDistributes(q * factor, a, size);
    MulAssociative(q, factor, size);
  }

  /** Every token has such coordinates. */
  lemma Locate(i: nat, factor: nat, size: nat) returns (q: nat, a: nat, b: nat)
    requires factor > 0 && size > 0
    ensures a < factor && b < size && i == (q * factor + a) * size + b
  {
    var block := i / size;
    Rebuild(i, size);
    Rebuild(block, factor);
    q, a, b := block / factor, block % factor, i % size;
  }

  /** Two-level paging commutes: the expanded kernel-block list and the logical page list give every
      token the same slot. */
  lemma TwoLevel(ids: seq<nat>, factor: nat, size: nat, i: nat)
    requires factor > 0 && size > 0 && factor * size > 0 && i / (factor * size) < |ids|
    ensures i / size < |Expand(ids, factor)|
    ensures TokenSlot(Expand(ids, factor), i, size) == TokenSlot(ids, i, factor * size)
  {
    hide Expand;
    var q, a, b := Locate(i, factor, size);
    var page := factor * size;
    Coordinates(q, a, b, factor, size);
    DivModUnique(q * factor + a, size, b);
    DivModUnique(q, page, a * size + b);
    ExpandAt(ids, factor, q, a);
    Coordinates(ids[q], a, b, factor, size);
  }

  lemma SlotApart(ids: seq<nat>, size: nat, i: nat, j: nat)
    requires size > 0 && i / size < |ids| && j / size < |ids| && (ids[i / size] != ids[j / size] || i % size != j % size)
    ensures TokenSlot(ids, i, size) != TokenSlot(ids, j, size)
  {
    PackApart(ids[i / size], i % size, ids[j / size], j % size, size);
  }

  /** Distinct pages give distinct tokens distinct slots. */
  lemma SlotInjective(ids: seq<nat>, size: nat, i: nat, j: nat)
    requires size > 0 && i / size < |ids| && j / size < |ids| && Distinct(ids) && i != j
    ensures TokenSlot(ids, i, size) != TokenSlot(ids, j, size)
  {
    hide TokenSlot;
    if i / size == j / size && i % size == j % size { DivModPins(i, j, size); }
    SlotApart(ids, size, i, j);
  }

  /** Slots of distinct tokens of a distinct table are distinct. */
  lemma SlotsDistinct(ids: seq<nat>, tokens: seq<nat>, size: nat)
    requires InTable(ids, tokens, size) && Distinct(ids) && Distinct(tokens)
    ensures Distinct(TokenSlots(ids, tokens, size))
  {
    forall i, j | 0 <= i < j < |tokens| ensures TokenSlots(ids, tokens, size)[i] != TokenSlots(ids, tokens, size)[j] {
      SlotInjective(ids, size, tokens[i], tokens[j]);
    }
  }

  /** Expansion keeps distinctness. */
  lemma ExpandDistinct(ids: seq<nat>, factor: nat)
    requires factor > 0 && Distinct(ids)
    ensures Distinct(Expand(ids, factor))
  {
    var blocks := Expand(ids, factor);
    if factor > 1 {
      forall i, j | 0 <= i < j < |blocks| ensures blocks[i] != blocks[j] {
        DivBelow(i, factor, |ids|);
        DivBelow(j, factor, |ids|);
        SlotInjective(ids, factor, i, j);
      }
    }
  }

  /** `arange`: the dense destination tokens. */
  function Dense(n: nat): (tokens: seq<nat>)
    ensures |tokens| == n && Distinct(tokens) && forall j :: 0 <= j < n ==> tokens[j] == j
  {
    seq(n, j requires 0 <= j < n => j)
  }

  /** Exactly the tables without a repeated page give every token a slot of its own. */
  lemma SlotsInjectiveExactly(ids: seq<nat>, size: nat)
    requires size > 0
    ensures Distinct(ids) <==>
      forall i: nat, j: nat :: i / size < |ids| && j / size < |ids| && i != j ==> TokenSlot(ids, i, size) != TokenSlot(ids, j, size)
  {
    if Distinct(ids) {
      forall i: nat, j: nat | i / size < |ids| && j / size < |ids| && i != j ensures TokenSlot(ids, i, size) != TokenSlot(ids, j, size) {
        SlotInjective(ids, size, i, j);
      }
    } else {
      var a, b :| 0 <= a < b < |ids| && ids[a] == ids[b];
      DivModUnique(a, size, 0);
      DivModUnique(b, size, 0);
      PairUnique(a, 0, a, 0, size);
      var i: nat, j: nat := a * size, b * size;
      assert i != j by { MulMonotone(a + 1, b, size); MulDistributes(a, 1, size); }
      assert TokenSlot(ids, i, size) == TokenSlot(ids, j, size);
    }
  }
}
