/** What `define_interface!` gives every handle type: the raw accessor,
    `Clone` through the object's add-reference slot (first two arms), and
    `Deref` to the component-type base (third arm). The native reference
    counts are modelled as a map from object pointer to count. */
module Handles {
  import opened Ffi

  /** `as_raw`: the pointer the handle wraps. */
  function AsRaw(h: Handle): (p: Ptr)
    ensures h == Handle(h.interface, p)
  {
    h.raw
  }

  /** `Deref` of an `EntryPoint`, `TypeConformance` or `Module` to its
      `ComponentType` base: the same pointer reinterpreted, nothing called. */
  function Widen(h: Handle): (w: Handle)
    requires h.interface.IsDerived()
    ensures w.interface == ComponentType && !w.interface.IsDerived()
    ensures AsRaw(w) == AsRaw(h)
  {
    Handle(ComponentType, h.raw)
  }

  /** The count of every object after `addRef` has been called once per
      element of `clones`, in order. */
  function CountsAfterClones(counts: map<Ptr, nat>, clones: seq<Ptr>): (r: map<Ptr, nat>)
    requires forall i :: 0 <= i < |clones| ==> clones[i] in counts
    ensures r.Keys == counts.Keys
    decreases |clones|
  {
    if clones == [] then counts
    else
      var before := CountsAfterClones(counts, clones[..|clones| - 1]);
      var p := clones[|clones| - 1];
      before[p := before[p] + 1]
  }

  /** Each object's count has grown by exactly the number of times it was
      cloned. */
  lemma {:induction false} CountsAfterClonesIsOccurrences(counts: map<Ptr, nat>, clones: seq<Ptr>, p: Ptr)
    requires forall i :: 0 <= i < |clones| ==> clones[i] in counts
    requires p in counts
    ensures CountsAfterClones(counts, clones)[p] == counts[p] + multiset(clones)[p]
    decreases |clones|
  {
    if clones != [] {
      var init := clones[..|clones| - 1];
      assert clones == init + [clones[|clones| - 1]];
      CountsAfterClonesIsOccurrences(counts, init, p);
    }
  }

  /** With no `Drop`, no sequence of handle operations lowers a count. */
  lemma CountsNeverDecrease(counts: map<Ptr, nat>, clones: seq<Ptr>)
    requires forall i :: 0 <= i < |clones| ==> clones[i] in counts
    ensures forall p :: p in counts ==> counts[p] <= CountsAfterClones(counts, clones)[p]
    ensures forall p :: p in counts && p !in clones ==> CountsAfterClones(counts, clones)[p] == counts[p]
  {
    forall p | p in counts
      ensures counts[p] <= CountsAfterClones(counts, clones)[p]
      ensures p !in clones ==> CountsAfterClones(counts, clones)[p] == counts[p]
    {
      CountsAfterClonesIsOccurrences(counts, clones, p);
      assert p !in clones ==> multiset(clones)[p] == 0;
    }
  }

  /** The native reference counts of the objects the host holds handles
      to. Null is never a live object. */
  class RefCounts {
    var counts: map<Ptr, nat>

    ghost predicate Valid()
      reads this
    {
      Null !in counts
    }

    constructor (live: map<Ptr, nat>)
      requires Null !in live
      ensures Valid() && counts == live
    {
      counts := live;
    }

    /** `Clone` for the handle types of the first two macro arms: one
        `addRef` on the object, and a handle holding the same pointer. */
    method Clone(h: Handle) returns (c: Handle)
      requires Valid()
      requires !h.interface.IsDerived()
      requires h.raw in counts
      modifies this
      ensures Valid()
      ensures c == h && AsRaw(c) == AsRaw(h)
      ensures counts == CountsAfterClones(old(counts), [h.raw])
      ensures counts[h.raw] == old(counts)[h.raw] + 1
      ensures forall p :: p in old(counts) && p != h.raw ==> counts[p] == old(counts)[p]
    {
      counts := counts[h.raw := counts[h.raw] + 1];
      c := Handle(h.interface, h.raw);
    }
  }
}
