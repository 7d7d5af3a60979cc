// The fixed-size allocators of badger/system/mem_alloc.h. Element storage
// is a block of slots; the model hands out slot numbers instead of pointers.
module MemAlloc {
  import opened Wrappers

  // ---------------------------------------------------------------------
  // PoolAllocator: a free list threaded through the unused slots.

  /** The free list the pool constructor builds: every slot pushed in turn,
      so the last slot is at the head. */
  function InitialFreeList(n: nat): (l: seq<nat>)
    ensures |l| == n
  {
    if n == 0 then [] else [n - 1] + InitialFreeList(n - 1)
  }

  /** The initial free list holds every slot below n once, highest first. */
  lemma {:induction false} InitialFreeListSpec(n: nat)
    ensures forall k :: 0 <= k < n ==> InitialFreeList(n)[k] == n - 1 - k
    ensures forall s: nat :: s in InitialFreeList(n) <==> s < n
  {
    if n > 0 {
      InitialFreeListSpec(n - 1);
      var l := InitialFreeList(n);
      var rest := InitialFreeList(n - 1);
      assert l == [n - 1] + rest;
      assert forall s :: s in l ==> s == n - 1 || s in rest;
      forall k | 0 < k < n ensures l[k] == n - 1 - k {
        assert l[k] == rest[k - 1];
      }
      forall s: nat | s < n ensures s in l {
        if s == n - 1 {
          assert l[0] == s;
        } else {
          assert rest[n - 2 - s] == s;
          assert l[n - 1 - s] == s;
        }
      }
    }
  }

  class PoolAllocator {
    const maxElements: nat
    /** Slots on the free list, head first. */
    var freeList: seq<nat>

    constructor (maxElements: nat)
      ensures this.maxElements == maxElements
      ensures freeList == InitialFreeList(maxElements)
    {
      this.maxElements := maxElements;
      var prev: seq<nat> := [];
      var i := 0;
      while i < maxElements
        invariant i <= maxElements
        invariant prev == InitialFreeList(i)
      {
        prev := [i] + prev;
        i := i + 1;
      }
      freeList := prev;
    }

    /** alloc(): None once the free list is empty, otherwise its head. */
    method Alloc() returns (r: Option<nat>)
      modifies this
      ensures old(freeList) == [] ==> r.None? && freeList == []
      ensures old(freeList) != [] ==> r == Some(old(freeList)[0]) && freeList == old(freeList)[1..]
    {
      if freeList == [] {
        return None;
      }
      r := Some(freeList[0]);
      freeList := freeList[1..];
    }

    /** dealloc(slot): the slot becomes the new head. */
    method Dealloc(slot: nat)
      modifies this
      ensures freeList == [slot] + old(freeList)
    {
      freeList := [slot] + freeList;
    }
  }

  /** The pool is last-in first-out: alloc right after dealloc returns the
      slot just given back and leaves the free list as it was. */
  method PoolLifo(p: PoolAllocator, slot: nat) returns (r: Option<nat>)
    modifies p
    ensures r == Some(slot)
    ensures p.freeList == old(p.freeList)
  {
    p.Dealloc(slot);
    r := p.Alloc();
  }

  /** A fresh pool of n slots serves exactly n allocations, highest slot
      first, and then reports exhaustion. */
  method PoolDrain(n: nat) returns (got: seq<nat>, last: Option<nat>)
    ensures got == InitialFreeList(n)
    ensures last.None?
  {
    var p := new PoolAllocator(n);
    got := [];
    while p.freeList != []
      invariant got + p.freeList == InitialFreeList(n)
      decreases |p.freeList|
    {
      ghost var before := p.freeList;
      var r := p.Alloc();
      assert got + [r.value] + p.freeList == got + before;
      got := got + [r.value];
    }
    assert got == got + [];
    last := p.Alloc();
  }

  // ---------------------------------------------------------------------
  // CircularAllocator: a ring of maxCount slots that overwrites the oldest.

  /** Ring position x reduced once by m, for x < 2m. */
  function Wrap(x: nat, m: nat): nat
  {
    if x < m then x else x - m
  }

  class CircularAllocator {
    const maxCount: nat
    /** Next slot to hand out. */
    var head: nat
    var tail: nat
    /** Whether the ring has been filled once. */
    ghost var full: bool
    /** Slots of the live elements, oldest first. */
    ghost var live: seq<nat>

    /** Before the ring fills, tail is 0, head counts the allocations and
        slot k holds the k-th oldest element; afterwards tail is one past
        head and the oldest element sits at head. */
    ghost predicate Valid()
      reads this
    {
      maxCount > 0 && head < maxCount &&
      (!full ==> tail == 0 && |live| == head && forall k :: 0 <= k < |live| ==> live[k] == k) &&
      (full ==>
        tail == head + 1 && |live| == maxCount &&
        forall k :: 0 <= k < |live| ==> live[k] == Wrap(head + k, maxCount))
    }

    constructor (maxElements: nat)
      requires maxElements > 0
      ensures Valid() && maxCount == maxElements && live == []
      ensures head == 0 && tail == 0
    {
      maxCount := maxElements;
      head := 0;
      tail := 0;
      full := false;
      live := [];
    }

    /** alloc(): hands out slot head, then advances it; a full ring drops
        its oldest element. */
    method Alloc() returns (slot: nat)
      requires Valid()
      modifies this
      ensures Valid()
      ensures |old(live)| < maxCount ==> live == old(live) + [slot]
      ensures |old(live)| == maxCount ==> live == old(live)[1..] + [slot]
      ensures slot == old(head)
    {
      slot := head;
      live := if |live| < maxCount then live + [slot] else live[1..] + [slot];
      head := head + 1;
      if tail == head {
        tail := tail + 1;
      }
      if head == maxCount {
        head := 0;
        tail := 1;
        full := true;
      }
    }

    /** numElements(): how many live elements the ring holds. */
    method NumElements() returns (n: nat)
      requires Valid()
      ensures n == |live| && n <= maxCount
    {
      if tail == head + 1 {
        return maxCount;
      }
      return head - tail;
    }

    /** getElement(ix) as written: slot (head + ix) mod maxCount. */
    method GetElementAsWritten(ix: nat) returns (slot: nat)
      requires Valid() && ix < |live|
      ensures slot == (head + ix) % maxCount
    {
      slot := (head + ix) % maxCount;
    }

    /** getElement(ix) corrected: the slot of the ix-th oldest live element. */
    method GetElement(ix: nat) returns (slot: nat)
      requires Valid() && ix < |live|
      ensures slot == live[ix] && slot < maxCount
    {
      var n := NumElements();
      var oldest := if n == maxCount then head else 0;
      slot := Wrap(oldest + ix, maxCount);
    }
  }

  /** A ring of 3 slots after one allocation holds one element, in slot 0,
      yet getElement(0) as written names slot 1, which holds none. */
  method RingFirstElementAsWritten() returns (first: nat, slot: nat)
    ensures first == 0 && slot == 1
  {
    var ring := new CircularAllocator(3);
    first := ring.Alloc();
    assert ring.live == [first];
    slot := ring.GetElementAsWritten(0);
  }

  /** The corrected lookup names the slot of that element. */
  method RingFirstElement() returns (first: nat, slot: nat)
    ensures first == 0 && slot == first
  {
    var ring := new CircularAllocator(3);
    first := ring.Alloc();
    slot := ring.GetElement(0);
  }
}
