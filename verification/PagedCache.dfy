// Moving kept tokens inside the paged K and V caches, through workspaces that make overlap harmless.

module PagedCache {
  import opened Common
  import opened Paging

  lemma PlacesApart(s: nat, t: nat, size: nat, stride: nat)
    requires 0 < size <= stride && s / size * stride + s % size == t / size * stride + t % size
    ensures s == t
  {
    PairUnique(s / size, s % size, t / size, t % size, stride);
    DivModPins(s, t, size);
  }

  /** One cache tensor: `pages` pages of `size` token slots, `stride` apart in storage. Storage is
      contiguous exactly when pages are not padded. */
  class Cache<T(0)> {
    const size: nat
    const pages: nat
    const stride: nat
    const storage: array<T>

    constructor (size: nat, pages: nat, stride: nat)
      requires 0 < size <= stride
      ensures this.size == size && this.pages == pages && this.stride == stride
      ensures Valid() && fresh(storage)
    {
      this.size, this.pages, this.stride := size, pages, stride;
      storage := new T[pages * stride];
    }

    predicate Valid() {
      0 < size <= stride && storage.Length == pages * stride
    }

    predicate IsContiguous() {
      stride == size
    }

    predicate InRange(slots: seq<nat>) {
      forall j :: 0 <= j < |slots| ==> slots[j] < pages * size
    }

    /** Where a flattened slot lives in storage. */
    function Address(slot: nat): (a: nat)
      requires Valid() && slot < pages * size
      ensures a < storage.Length
    {
      AddressInRange(slot);
      slot / size * stride + slot % size
    }

    lemma AddressInRange(slot: nat)
      requires Valid() && slot < pages * size
      ensures slot / size * stride + slot % size < pages * stride
    {
      DivBelow(slot, size, pages);
      MulMonotone(slot / size + 1, pages, stride);
      assert (slot / size + 1) * stride == slot / size * stride + stride;
    }

    lemma AddressInjective(s: nat, t: nat)
      requires Valid() && s < pages * size && t < pages * size && Address(s) == Address(t)
      ensures s == t
    {
      PlacesApart(s, t, size, stride);
    }

    /** Without padding the flat view and the page view address the same element. */
    lemma ContiguousAddress(slot: nat)
      requires Valid() && slot < pages * size && IsContiguous()
      ensures Address(slot) == slot
    {
      Rebuild(slot, size);
    }

    function At(slot: nat): T
      requires Valid() && slot < pages * size
      reads storage
    {
      storage[Address(slot)]
    }

    /** `_gather_slots` into a workspace; both branches read the same slots. */
    method GatherSlots(slots: seq<nat>, out: array<T>)
      requires Valid() && InRange(slots) && |slots| <= out.Length && out != storage
      modifies out
      ensures forall j :: 0 <= j < |slots| ==> out[j] == At(slots[j])
      ensures forall j :: |slots| <= j < out.Length ==> out[j] == old(out[j])
    {
      if IsContiguous() {
        forall j | 0 <= j < |slots| ensures slots[j] < storage.Length && Address(slots[j]) == slots[j] { ContiguousAddress(slots[j]); }
        forall j | 0 <= j < |slots| {
          out[j] := storage[slots[j]];
        }
      } else {
        forall j | 0 <= j < |slots| {
          out[j] := storage[Address(slots[j])];
        }
      }
    }

    /** `_write_slots`; distinct slots receive their own value and nothing else changes. */
    method WriteSlots(slots: seq<nat>, values: array<T>)
      requires Valid() && InRange(slots) && |slots| <= values.Length && values != storage
      modifies storage
      ensures Distinct(slots) ==> forall j :: 0 <= j < |slots| ==> At(slots[j]) == values[j]
      ensures forall s :: 0 <= s < pages * size && s !in slots ==> At(s) == old(At(s))
      ensures forall a :: 0 <= a < storage.Length && Untouched(slots, a) ==> storage[a] == old(storage[a])
    {
      hide Address;
      for i := 0 to |slots|
        invariant Distinct(slots) ==> forall j :: 0 <= j < i ==> At(slots[j]) == values[j]
        invariant forall a :: 0 <= a < storage.Length && Untouched(slots, a) ==> storage[a] == old(storage[a])
      {
        if IsContiguous() {
          ContiguousAddress(slots[i]);
          storage[slots[i]] := values[i];
        } else {
          storage[Address(slots[i])] := values[i];
        }
        forall j | 0 <= j < i && Distinct(slots) ensures Address(slots[j]) != Address(slots[i]) {
          if Address(slots[j]) == Address(slots[i]) { AddressInjective(slots[j], slots[i]); }
        }
      }
      forall s | 0 <= s < pages * size && s !in slots ensures Untouched(slots, Address(s)) {
        forall j | 0 <= j < |slots| ensures Address(slots[j]) != Address(s) {
          if Address(slots[j]) == Address(s) { AddressInjective(slots[j], s); }
        }
      }
    }

    /** No slot of the list lives at this storage element: padding, or another slot. */
    predicate Untouched(slots: seq<nat>, a: nat)
      requires Valid() && InRange(slots)
    {
      forall j :: 0 <= j < |slots| ==> Address(slots[j]) != a
    }
  }

  /** `materialize_token_slots`: destination slot `j` of both caches ends with what source slot `j` held
      before, even where sources and destinations overlap; every other slot is unchanged. */
  method MaterializeTokenSlots<T(0)>(k: Cache<T>, v: Cache<T>, source: seq<nat>, destination: seq<nat>,
                                     kWorkspace: array<T>, vWorkspace: array<T>)
    requires k.Valid() && v.Valid() && k.storage != v.storage
    requires |source| == |destination| <= kWorkspace.Length && |source| <= vWorkspace.Length
    requires kWorkspace != vWorkspace && kWorkspace !in {k.storage, v.storage} && vWorkspace !in {k.storage, v.storage}
    requires k.InRange(source) && k.InRange(destination) && v.InRange(source) && v.InRange(destination)
    modifies k.storage, v.storage, kWorkspace, vWorkspace
    ensures Distinct(destination) ==> forall j :: 0 <= j < |source| ==>
      k.At(destination[j]) == old(k.At(source[j])) && v.At(destination[j]) == old(v.At(source[j]))
    ensures forall s :: 0 <= s < k.pages * k.size && s !in destination ==> k.At(s) == old(k.At(s))
    ensures forall s :: 0 <= s < v.pages * v.size && s !in destination ==> v.At(s) == old(v.At(s))
  {
    k.GatherSlots(source, kWorkspace);
    v.GatherSlots(source, vWorkspace);
    k.WriteSlots(destination, kWorkspace);
    v.WriteSlots(destination, vWorkspace);
  }

  /** `materialize_selected_tokens`: the kept tokens of the source table, densely in the destination. */
  method MaterializeSelectedTokens<T(0)>(k: Cache<T>, v: Cache<T>, sourceIds: seq<nat>, destinationIds: seq<nat>, keep: seq<nat>)
    requires k.Valid() && v.Valid() && k.storage != v.storage && k.size == v.size
    requires InTable(sourceIds, keep, k.size) && InTable(destinationIds, Dense(|keep|), k.size) && Distinct(destinationIds)
    requires var source, destination := TokenSlots(sourceIds, keep, k.size), TokenSlots(destinationIds, Dense(|keep|), k.size);
      k.InRange(source) && v.InRange(source) && k.InRange(destination) && v.InRange(destination)
    modifies k.storage, v.storage
    ensures var source, destination := TokenSlots(sourceIds, keep, k.size), TokenSlots(destinationIds, Dense(|keep|), k.size);
      && (forall j :: 0 <= j < |keep| ==>
            k.At(destination[j]) == old(k.At(source[j])) && v.At(destination[j]) == old(v.At(source[j])))
      && (forall s :: 0 <= s < k.pages * k.size && s !in destination ==> k.At(s) == old(k.At(s)))
      && (forall s :: 0 <= s < v.pages * v.size && s !in destination ==> v.At(s) == old(v.At(s)))
  {
    var source := TokenSlots(sourceIds, keep, k.size);
    var destination := TokenSlots(destinationIds, Dense(|keep|), k.size);
    SlotsDistinct(destinationIds, Dense(|keep|), k.size);
    var gatheredK, gatheredV := new T[|keep|], new T[|keep|];
    k.GatherSlots(source, gatheredK);
    v.GatherSlots(source, gatheredV);
    k.WriteSlots(destination, gatheredK);
    v.WriteSlots(destination, gatheredV);
  }

  /** Blocks that exist in the cache give slots that exist in it. */
  lemma SlotsInRange(ids: seq<nat>, tokens: seq<nat>, size: nat, pages: nat)
    requires InTable(ids, tokens, size) && forall id :: id in ids ==> id < pages
    ensures forall j :: 0 <= j < |tokens| ==> TokenSlots(ids, tokens, size)[j] < pages * size
  {
    forall j | 0 <= j < |tokens| ensures TokenSlots(ids, tokens, size)[j] < pages * size {
      var id := ids[tokens[j] / size];
      assert id in ids;
      MulMonotone(id + 1, pages, size);
      assert (id + 1) * size == id * size + size;
    }
  }
}
