// The offset allocator that hands out sub-ranges of one large range by
// splitting a binary tree of ranges (util/malloc_emulator.cpp). The pointer
// tree with parent links is held here as a tree value inside the emulator.
module Malloc {
  import opened Wrappers

  /** A node of the range tree: a leaf range that is resident (handed out)
      or free, or a range split into a left and a right part. A node with
      children is never resident, so a split node carries no flag. */
  datatype Range =
    | Leaf(offset: nat, bytes: nat, resident: bool)
    | Split(offset: nat, bytes: nat, left: Range, right: Range)

  predicate IsResident(t: Range) { t.Leaf? && t.resident }

  predicate IsFreeLeaf(t: Range) { t.Leaf? && !t.resident }

  /** Number of nodes, the quantity the emulator keeps in numAllocations. */
  function Count(t: Range): nat
  {
    match t
    case Leaf(_, _, _) => 1
    case Split(_, _, l, r) => 1 + Count(l) + Count(r)
  }

  /** The topology the debug walk checks: the children of a node split its
      range in two non-empty parts, left first; resident leaves are not empty. */
  predicate WellFormed(t: Range)
  {
    match t
    case Leaf(_, b, res) => res ==> b > 0
    case Split(o, b, l, r) =>
      l.offset == o && r.offset == o + l.bytes && l.bytes + r.bytes == b &&
      l.bytes > 0 && r.bytes > 0 && WellFormed(l) && WellFormed(r)
  }

  /** The allocations handed out: (offset, bytes) of every resident leaf. */
  function Allocations(t: Range): set<(nat, nat)>
  {
    match t
    case Leaf(o, b, res) => if res then {(o, b)} else {}
    case Split(_, _, l, r) => Allocations(l) + Allocations(r)
  }

  /** (offset, bytes) of every free leaf. */
  function FreeLeaves(t: Range): set<(nat, nat)>
  {
    match t
    case Leaf(o, b, res) => if res then {} else {(o, b)}
    case Split(_, _, l, r) => FreeLeaves(l) + FreeLeaves(r)
  }

  ghost predicate Allocated(t: Range, offset: nat)
  {
    exists b :: (offset, b) in Allocations(t)
  }

  predicate Disjoint(o1: nat, b1: nat, o2: nat, b2: nat)
  {
    o1 + b1 <= o2 || o2 + b2 <= o1
  }

  lemma {:induction false} LeavesInRange(t: Range)
    requires WellFormed(t)
    ensures forall a :: a in Allocations(t) ==>
      t.offset <= a.0 && a.0 + a.1 <= t.offset + t.bytes && a.1 > 0
    ensures forall f :: f in FreeLeaves(t) ==>
      t.offset <= f.0 && f.0 + f.1 <= t.offset + t.bytes
  {
    match t
    case Leaf(_, _, _) =>
    case Split(_, _, l, r) =>
      LeavesInRange(l);
      LeavesInRange(r);
  }

  // ---------------------------------------------------------------------
  // Paths into the tree: false goes left, true goes right.

  predicate ValidPath(t: Range, p: seq<bool>)
    decreases p
  {
    p == [] || (t.Split? && ValidPath(if p[0] then t.right else t.left, p[1..]))
  }

  function At(t: Range, p: seq<bool>): Range
    requires ValidPath(t, p)
    decreases p
  {
    if p == [] then t else At(if p[0] then t.right else t.left, p[1..])
  }

  function ReplaceAt(t: Range, p: seq<bool>, x: Range): Range
    requires ValidPath(t, p)
    decreases p
  {
    if p == [] then x
    else if p[0] then Split(t.offset, t.bytes, t.left, ReplaceAt(t.right, p[1..], x))
    else Split(t.offset, t.bytes, ReplaceAt(t.left, p[1..], x), t.right)
  }

  lemma {:induction false} AtSnoc(t: Range, p: seq<bool>, d: bool)
    requires ValidPath(t, p) && At(t, p).Split?
    ensures ValidPath(t, p + [d])
    ensures At(t, p + [d]) == if d then At(t, p).right else At(t, p).left
    decreases p
  {
    if p != [] {
      assert (p + [d])[1..] == p[1..] + [d];
      AtSnoc(if p[0] then t.right else t.left, p[1..], d);
    }
  }

  lemma {:induction false} AtAppend(t: Range, p: seq<bool>, q: seq<bool>)
    requires ValidPath(t, p) && ValidPath(At(t, p), q)
    ensures ValidPath(t, p + q) && At(t, p + q) == At(At(t, p), q)
    decreases p
  {
    if p == [] {
      assert p + q == q;
    } else {
      assert (p + q)[1..] == p[1..] + q;
      AtAppend(if p[0] then t.right else t.left, p[1..], q);
    }
  }

  lemma {:induction false} AtInRange(t: Range, p: seq<bool>)
    requires WellFormed(t) && ValidPath(t, p)
    ensures WellFormed(At(t, p))
    ensures t.offset <= At(t, p).offset
    ensures At(t, p).offset + At(t, p).bytes <= t.offset + t.bytes
    decreases p
  {
    if p != [] {
      AtInRange(if p[0] then t.right else t.left, p[1..]);
    }
  }

  /** The leaf at a path is one of the tree's leaves. */
  lemma {:induction false} LeafAtPath(t: Range, p: seq<bool>)
    requires ValidPath(t, p) && At(t, p).Leaf?
    ensures IsFreeLeaf(At(t, p)) ==> (At(t, p).offset, At(t, p).bytes) in FreeLeaves(t)
    ensures IsResident(At(t, p)) ==> (At(t, p).offset, At(t, p).bytes) in Allocations(t)
    decreases p
  {
    if p != [] {
      LeafAtPath(if p[0] then t.right else t.left, p[1..]);
    }
  }

  /** Replacing a node by one with the same range keeps the topology, and
      the allocations of the other leaves. */
  lemma {:induction false} ReplaceFreeLeaf(t: Range, p: seq<bool>, x: Range)
    requires WellFormed(t) && ValidPath(t, p) && IsFreeLeaf(At(t, p))
    requires WellFormed(x) && x.offset == At(t, p).offset && x.bytes == At(t, p).bytes
    ensures WellFormed(ReplaceAt(t, p, x))
    ensures ReplaceAt(t, p, x).offset == t.offset && ReplaceAt(t, p, x).bytes == t.bytes
    ensures Allocations(ReplaceAt(t, p, x)) == Allocations(t) + Allocations(x)
    ensures Count(ReplaceAt(t, p, x)) + 1 == Count(t) + Count(x)
    decreases p
  {
    if p != [] {
      ReplaceFreeLeaf(if p[0] then t.right else t.left, p[1..], x);
    }
  }

  /** A free leaf does not overlap any allocation. */
  lemma {:induction false} FreeLeafDisjoint(t: Range, p: seq<bool>)
    requires WellFormed(t) && ValidPath(t, p) && IsFreeLeaf(At(t, p))
    ensures forall a :: a in Allocations(t) ==>
      Disjoint(a.0, a.1, At(t, p).offset, At(t, p).bytes)
    decreases p
  {
    if p != [] {
      var c := if p[0] then t.right else t.left;
      FreeLeafDisjoint(c, p[1..]);
      AtInRange(c, p[1..]);
      LeavesInRange(t.left);
      LeavesInRange(t.right);
    }
  }

  // ---------------------------------------------------------------------
  // Allocation.

  /** The leftmost free leaf of at least n bytes, the one the depth-first
      search of allocate reaches first. */
  function FirstFit(t: Range, n: nat): (p: Option<seq<bool>>)
    ensures p.Some? ==>
      ValidPath(t, p.value) && IsFreeLeaf(At(t, p.value)) && At(t, p.value).bytes >= n
  {
    match t
    case Leaf(_, b, res) => if !res && b >= n then Some([]) else None
    case Split(_, _, l, r) =>
      match FirstFit(l, n)
      case Some(q) =>
        assert ([false] + q)[1..] == q;
        Some([false] + q)
      case None =>
        match FirstFit(r, n)
        case Some(q) =>
          assert ([true] + q)[1..] == q;
          Some([true] + q)
        case None => None
  }

  /** FirstFit fails exactly when no free leaf is large enough, and otherwise
      no large enough free leaf lies to the left of the one it picks. */
  lemma {:induction false} FirstFitLeftmost(t: Range, n: nat)
    requires WellFormed(t)
    ensures FirstFit(t, n).None? <==> forall f :: f in FreeLeaves(t) ==> f.1 < n
    ensures FirstFit(t, n).Some? ==>
      forall f :: f in FreeLeaves(t) && f.1 >= n ==> At(t, FirstFit(t, n).value).offset <= f.0
  {
    match t
    case Leaf(o, b, res) =>
      if !res && b >= n {
        assert (o, b) in FreeLeaves(t);
      }
    case Split(_, _, l, r) =>
      FirstFitLeftmost(l, n);
      FirstFitLeftmost(r, n);
      LeavesInRange(r);
      match FirstFit(l, n)
      case Some(q) =>
        AtInRange(l, q);
        assert ([false] + q)[1..] == q;
        LeafAtPath(l, q);
      case None =>
        match FirstFit(r, n)
        case Some(q) =>
          assert ([true] + q)[1..] == q;
          LeafAtPath(r, q);
        case None =>
  }

  /** A subtree that is resident or smaller than n holds no fit, which is why
      the search may skip it. */
  lemma {:induction false} NoFitInSmall(t: Range, n: nat)
    requires WellFormed(t) && (IsResident(t) || t.bytes < n)
    ensures FirstFit(t, n).None?
  {
    match t
    case Leaf(_, _, _) =>
    case Split(_, _, l, r) =>
      NoFitInSmall(l, n);
      NoFitInSmall(r, n);
  }

  /** The node that takes an allocation of n bytes: split into a resident
      left part and a free right part, or marked resident on an exact fit. */
  function Carve(leaf: Range, n: nat): Range
  {
    if leaf.bytes > n then
      Split(leaf.offset, leaf.bytes, Leaf(leaf.offset, n, true),
            Leaf(leaf.offset + n, leaf.bytes - n, false))
    else Leaf(leaf.offset, leaf.bytes, true)
  }

  /** Allocation of n bytes: the new tree and the offset handed out. */
  function Alloc(t: Range, n: nat): Option<(Range, nat)>
  {
    match FirstFit(t, n)
    case None => None
    case Some(p) => Some((ReplaceAt(t, p, Carve(At(t, p), n)), At(t, p).offset))
  }

  /** What a successful allocation of n bytes at offset o promises: the
      topology and the root range are kept, the allocation is added, it lies
      inside the root range, overlaps no earlier allocation, and no large
      enough free leaf lies to its left. */
  ghost predicate AllocatedAt(t: Range, n: nat, t2: Range, o: nat)
  {
    WellFormed(t2) && t2.offset == t.offset && t2.bytes == t.bytes &&
    Allocations(t2) == Allocations(t) + {(o, n)} &&
    t.offset <= o && o + n <= t.offset + t.bytes &&
    (forall a :: a in Allocations(t) ==> Disjoint(a.0, a.1, o, n)) &&
    (forall f :: f in FreeLeaves(t) && f.1 >= n ==> o <= f.0)
  }

  /** Allocation fails only when no free leaf is large enough, and
      otherwise hands out n bytes as AllocatedAt describes. */
  lemma AllocSpec(t: Range, n: nat)
    requires WellFormed(t) && n > 0
    ensures Alloc(t, n).None? <==> forall f :: f in FreeLeaves(t) ==> f.1 < n
    ensures Alloc(t, n).Some? ==> AllocatedAt(t, n, Alloc(t, n).value.0, Alloc(t, n).value.1)
  {
    FirstFitLeftmost(t, n);
    if FirstFit(t, n).Some? {
      CarveAt(t, n, FirstFit(t, n).value);
    }
  }

  /** Carving n bytes out of the leftmost large enough free leaf at p. */
  lemma CarveAt(t: Range, n: nat, p: seq<bool>)
    requires WellFormed(t) && n > 0
    requires ValidPath(t, p) && IsFreeLeaf(At(t, p)) && At(t, p).bytes >= n
    requires forall f :: f in FreeLeaves(t) && f.1 >= n ==> At(t, p).offset <= f.0
    ensures AllocatedAt(t, n, ReplaceAt(t, p, Carve(At(t, p), n)), At(t, p).offset)
  {
    var leaf := At(t, p);
    var x := Carve(leaf, n);
    AtInRange(t, p);
    FreeLeafDisjoint(t, p);
    if leaf.bytes > n {
      assert x == Split(leaf.offset, leaf.bytes, Leaf(leaf.offset, n, true),
        Leaf(leaf.offset + n, leaf.bytes - n, false));
    } else {
      assert x == Leaf(leaf.offset, n, true);
    }
    assert Allocations(x) == {(leaf.offset, n)};
    ReplaceFreeLeaf(t, p, x);
    forall a | a in Allocations(t)
      ensures Disjoint(a.0, a.1, leaf.offset, n)
    {
      assert Disjoint(a.0, a.1, leaf.offset, leaf.bytes);
    }
  }

  /** Every allocation adds two nodes when it splits a leaf and none on an
      exact fit. */
  lemma AllocCount(t: Range, n: nat)
    requires WellFormed(t) && n > 0 && Alloc(t, n).Some?
    ensures Count(Alloc(t, n).value.0) ==
      Count(t) + (if At(t, FirstFit(t, n).value).bytes > n then 2 else 0)
  {
    var p := FirstFit(t, n).value;
    AtInRange(t, p);
    ReplaceFreeLeaf(t, p, Carve(At(t, p), n));
  }

  // ---------------------------------------------------------------------
  // The depth-first search of allocate, with its explicit stack of nodes.

  /** The first fit among the subtrees on a stack, popped from the end. */
  ghost function FitInStack(t: Range, n: nat, stack: seq<seq<bool>>): Option<seq<bool>>
    requires forall i :: 0 <= i < |stack| ==> ValidPath(t, stack[i])
  {
    if stack == [] then None
    else
      var top := stack[|stack| - 1];
      match FirstFit(At(t, top), n)
      case Some(q) => Some(top + q)
      case None => FitInStack(t, n, stack[..|stack| - 1])
  }

  ghost function StackSize(t: Range, stack: seq<seq<bool>>): nat
    requires forall i :: 0 <= i < |stack| ==> ValidPath(t, stack[i])
  {
    if stack == [] then 0
    else StackSize(t, stack[..|stack| - 1]) + Count(At(t, stack[|stack| - 1]))
  }

  lemma PushUnfold(t: Range, n: nat, stack: seq<seq<bool>>, p: seq<bool>)
    requires forall i :: 0 <= i < |stack| ==> ValidPath(t, stack[i])
    requires ValidPath(t, p)
    ensures forall i :: 0 <= i < |stack + [p]| ==> ValidPath(t, (stack + [p])[i])
    ensures FitInStack(t, n, stack + [p]) ==
      match FirstFit(At(t, p), n)
      case Some(q) => Some(p + q)
      case None => FitInStack(t, n, stack)
    ensures StackSize(t, stack + [p]) == StackSize(t, stack) + Count(At(t, p))
  {
    assert (stack + [p])[..|stack|] == stack;
  }

  /** Pushing a child of the popped node when it may hold a fit, as
      allocate does, keeps the first fit of the stack. */
  lemma PushChild(t: Range, n: nat, stack: seq<seq<bool>>, top: seq<bool>, d: bool)
    returns (stack2: seq<seq<bool>>)
    requires WellFormed(t)
    requires forall i :: 0 <= i < |stack| ==> ValidPath(t, stack[i])
    requires ValidPath(t, top) && At(t, top).Split?
    ensures forall i :: 0 <= i < |stack2| ==> ValidPath(t, stack2[i])
    ensures ValidPath(t, top + [d])
    ensures var c := if d then At(t, top).right else At(t, top).left;
      At(t, top + [d]) == c &&
      stack2 == (if !IsResident(c) && c.bytes >= n then stack + [top + [d]] else stack) &&
      FitInStack(t, n, stack2) ==
        (match FirstFit(c, n) case Some(q) => Some(top + [d] + q) case None => FitInStack(t, n, stack)) &&
      StackSize(t, stack2) <= StackSize(t, stack) + Count(c)
  {
    AtSnoc(t, top, d);
    var c := if d then At(t, top).right else At(t, top).left;
    AtInRange(t, top);
    if !IsResident(c) && c.bytes >= n {
      stack2 := stack + [top + [d]];
      PushUnfold(t, n, stack, top + [d]);
    } else {
      stack2 := stack;
      NoFitInSmall(c, n);
    }
  }

  /** Popping a split node and pushing its children as allocate does keeps
      the first fit of the stack and shrinks the stack. */
  lemma PopSplit(t: Range, n: nat, rest: seq<seq<bool>>, top: seq<bool>) returns (stack2: seq<seq<bool>>)
    requires WellFormed(t)
    requires forall i :: 0 <= i < |rest| ==> ValidPath(t, rest[i])
    requires ValidPath(t, top) && At(t, top).Split?
    ensures forall i :: 0 <= i < |rest + [top]| ==> ValidPath(t, (rest + [top])[i])
    ensures forall i :: 0 <= i < |stack2| ==> ValidPath(t, stack2[i])
    ensures var c := At(t, top);
      var s1 := if !IsResident(c.right) && c.right.bytes >= n then rest + [top + [true]] else rest;
      stack2 == if !IsResident(c.left) && c.left.bytes >= n then s1 + [top + [false]] else s1
    ensures FitInStack(t, n, stack2) == FitInStack(t, n, rest + [top])
    ensures StackSize(t, stack2) < StackSize(t, rest + [top])
  {
    var c := At(t, top);
    PushUnfold(t, n, rest, top);
    var s1 := PushChild(t, n, rest, top, true);
    stack2 := PushChild(t, n, s1, top, false);
    FitCombine(c, n, top, FitInStack(t, n, rest), FitInStack(t, n, s1), FitInStack(t, n, stack2));
  }

  lemma FitCombine(c: Range, n: nat, top: seq<bool>, f0: Option<seq<bool>>, f1: Option<seq<bool>>, f2: Option<seq<bool>>)
    requires c.Split?
    requires f1 == match FirstFit(c.right, n) case Some(q) => Some(top + [true] + q) case None => f0
    requires f2 == match FirstFit(c.left, n) case Some(q) => Some(top + [false] + q) case None => f1
    ensures f2 == match FirstFit(c, n) case Some(q) => Some(top + q) case None => f0
  {
    match FirstFit(c.left, n)
    case Some(q) =>
      assert top + [false] + q == top + ([false] + q);
    case None =>
      match FirstFit(c.right, n)
      case Some(q) =>
        assert top + [true] + q == top + ([true] + q);
      case None =>
  }

  /** Popping a leaf or a resident node: a free leaf large enough is the
      first fit, anything else is skipped. */
  lemma PopLeaf(t: Range, n: nat, rest: seq<seq<bool>>, top: seq<bool>)
    requires WellFormed(t)
    requires forall i :: 0 <= i < |rest| ==> ValidPath(t, rest[i])
    requires ValidPath(t, top) && (At(t, top).Leaf? || IsResident(At(t, top)))
    ensures forall i :: 0 <= i < |rest + [top]| ==> ValidPath(t, (rest + [top])[i])
    ensures FitInStack(t, n, rest + [top]) ==
      if IsFreeLeaf(At(t, top)) && At(t, top).bytes >= n then Some(top) else FitInStack(t, n, rest)
    ensures StackSize(t, rest) < StackSize(t, rest + [top])
  {
    PushUnfold(t, n, rest, top);
    assert top + [] == top;
  }

  /** The search allocate runs: pop a node; a free leaf large enough is the
      answer; a split node pushes its right and then its left child when
      they are not resident and large enough. */
  method FindFreeLeaf(t: Range, n: nat) returns (found: Option<seq<bool>>)
    requires WellFormed(t)
    ensures found == FirstFit(t, n)
  {
    var stack: seq<seq<bool>> := [[]];
    assert FitInStack(t, n, stack) == FirstFit(t, n) by {
      assert stack[..0] == [];
      assert At(t, []) == t;
      match FirstFit(t, n)
      case Some(q) => assert [] + q == q;
      case None =>
    }
    while stack != []
      invariant forall i :: 0 <= i < |stack| ==> ValidPath(t, stack[i])
      invariant FitInStack(t, n, stack) == FirstFit(t, n)
      decreases StackSize(t, stack)
    {
      var top := stack[|stack| - 1];
      var rest := stack[..|stack| - 1];
      assert stack == rest + [top];
      var cand := At(t, top);
      if !IsResident(cand) && cand.Split? {
        ghost var s2 := PopSplit(t, n, rest, top);
        stack := rest;
        if !IsResident(cand.right) && cand.right.bytes >= n {
          stack := stack + [top + [true]];
        }
        if !IsResident(cand.left) && cand.left.bytes >= n {
          stack := stack + [top + [false]];
        }
        assert stack == s2;
      } else {
        PopLeaf(t, n, rest, top);
        stack := rest;
        if !IsResident(cand) && cand.bytes >= n {
          return Some(top);
        }
      }
    }
    return None;
  }

  // ---------------------------------------------------------------------
  // Deallocation: find the resident leaf, free it, and merge free
  // neighbours on the way back up.

  /** merge() for a freed node that is its parent's left child: with a free
      sibling leaf the parent becomes a free leaf; with a split sibling whose
      left part is a free leaf, that part grows over the freed range. */
  function MergeLeft(o: nat, b: nat, l: Range, r: Range): Range
    requires WellFormed(r) && r.bytes <= b
  {
    if !IsFreeLeaf(l) then Split(o, b, l, r)
    else
      match r
      case Split(_, _, rl, rr) =>
        if IsFreeLeaf(rl) then Split(o, b, Leaf(o, b - rr.bytes, false), rr) else Split(o, b, l, r)
      case Leaf(_, _, res) =>
        if !res then Leaf(o, b, false) else Split(o, b, l, r)
  }

  /** merge() for a freed node that is its parent's right child, the mirror
      image of MergeLeft. */
  function MergeRight(o: nat, b: nat, l: Range, r: Range): Range
    requires WellFormed(l) && l.bytes <= b
  {
    if !IsFreeLeaf(r) then Split(o, b, l, r)
    else
      match l
      case Split(_, _, ll, lr) =>
        if IsFreeLeaf(lr) then Split(o, b, ll, Leaf(lr.offset, b - ll.bytes, false)) else Split(o, b, l, r)
      case Leaf(_, _, res) =>
        if !res then Leaf(o, b, false) else Split(o, b, l, r)
  }

  /** Merging only joins free leaves, so the allocations stay as they are. */
  lemma MergeLeftKeepsAllocations(o: nat, b: nat, l: Range, r: Range)
    requires WellFormed(r) && r.bytes <= b
    ensures Allocations(MergeLeft(o, b, l, r)) == Allocations(l) + Allocations(r)
  {
  }

  lemma MergeRightKeepsAllocations(o: nat, b: nat, l: Range, r: Range)
    requires WellFormed(l) && l.bytes <= b
    ensures Allocations(MergeRight(o, b, l, r)) == Allocations(l) + Allocations(r)
  {
  }

  /** deallocate(offset) on the subtree t: descends to the child whose range
      holds offset, frees the resident leaf found there (not the root) and
      merges on the way back; None when no allocation starts at offset. */
  function Free(t: Range, offset: nat, isRoot: bool): (r: Option<Range>)
    requires WellFormed(t)
    ensures r.Some? ==>
      WellFormed(r.value) && r.value.offset == t.offset && r.value.bytes == t.bytes &&
      Count(r.value) <= Count(t)
  {
    match t
    case Leaf(o, b, res) =>
      if o == offset && res && !isRoot then Some(Leaf(o, b, false)) else None
    case Split(o, b, l, r) =>
      if offset < r.offset then
        match Free(l, offset, false)
        case None => None
        case Some(l2) => Some(MergeLeft(o, b, l2, r))
      else
        match Free(r, offset, false)
        case None => None
        case Some(r2) => Some(MergeRight(o, b, l, r2))
  }

  /** Deallocation succeeds exactly when an allocation starts at offset and
      is not the whole root range; it removes that allocation and no other. */
  lemma {:induction false} FreeSpec(t: Range, offset: nat, isRoot: bool)
    requires WellFormed(t)
    ensures Free(t, offset, isRoot).Some? <==> Allocated(t, offset) && !(isRoot && t.Leaf?)
    ensures Free(t, offset, isRoot).Some? ==>
      Allocations(Free(t, offset, isRoot).value) == set a | a in Allocations(t) && a.0 != offset
  {
    match t
    case Leaf(o, b, res) =>
      if o == offset && res {
        assert (offset, b) in Allocations(t);
      }
    case Split(o, b, l, r) =>
      LeavesInRange(l);
      LeavesInRange(r);
      if offset < r.offset {
        FreeSpec(l, offset, false);
        if Free(l, offset, false).Some? {
          MergeLeftKeepsAllocations(o, b, Free(l, offset, false).value, r);
        }
        if Allocated(t, offset) {
          var bb :| (offset, bb) in Allocations(t);
          assert (offset, bb) in Allocations(l);
        }
      } else {
        FreeSpec(r, offset, false);
        if Free(r, offset, false).Some? {
          MergeRightKeepsAllocations(o, b, l, Free(r, offset, false).value);
        }
        if Allocated(t, offset) {
          var bb :| (offset, bb) in Allocations(t);
          assert (offset, bb) in Allocations(r);
        }
      }
  }

  // ---------------------------------------------------------------------
  // deallocate and merge as written in the source.

  /** The lookup of deallocate as written: equal offset goes left unless
      the node is resident, a smaller offset always goes right. */
  function LookupAsWritten(t: Range, offset: nat): Option<seq<bool>>
  {
    if t.offset == offset then
      if IsResident(t) then Some([])
      else if t.Split? then
        match LookupAsWritten(t.left, offset) case Some(q) => Some([false] + q) case None => None
      else None
    else if t.offset < offset && t.Split? then
      match LookupAsWritten(t.right, offset) case Some(q) => Some([true] + q) case None => None
    else None
  }

  /** The lookup as it should be: descend into the child whose range holds
      the offset. */
  function Lookup(t: Range, offset: nat): (p: Option<seq<bool>>)
    ensures p.Some? ==>
      ValidPath(t, p.value) && IsResident(At(t, p.value)) && At(t, p.value).offset == offset
  {
    match t
    case Leaf(o, _, res) => if o == offset && res then Some([]) else None
    case Split(_, _, l, r) =>
      if offset < r.offset then
        match Lookup(l, offset)
        case Some(q) =>
          assert ([false] + q)[1..] == q;
          Some([false] + q)
        case None => None
      else
        match Lookup(r, offset)
        case Some(q) =>
          assert ([true] + q)[1..] == q;
          Some([true] + q)
        case None => None
  }

  /** The corrected lookup finds every allocation. */
  lemma {:induction false} LookupComplete(t: Range, offset: nat)
    requires WellFormed(t)
    ensures Lookup(t, offset).Some? <==> Allocated(t, offset)
  {
    match t
    case Leaf(o, b, res) =>
      if o == offset && res {
        assert (offset, b) in Allocations(t);
      }
    case Split(_, _, l, r) =>
      LeavesInRange(l);
      LeavesInRange(r);
      LookupComplete(l, offset);
      LookupComplete(r, offset);
      if Allocated(t, offset) {
        var bb :| (offset, bb) in Allocations(t);
        if offset < r.offset {
          assert (offset, bb) in Allocations(l);
        } else {
          assert (offset, bb) in Allocations(r);
        }
      }
  }

  /** Two 10-byte allocations, the first freed, then two 5-byte ones: the
      second 5-byte allocation sits at offset 5 in the left subtree. */
  function LostAllocationTree(): Range
  {
    Split(0, 100,
      Split(0, 10, Leaf(0, 5, true), Leaf(5, 5, true)),
      Split(10, 90, Leaf(10, 10, true), Leaf(20, 80, false)))
  }

  /** The lookup as written cannot find the allocation at offset 5, so
      deallocate(5) ends in its no-entry check. */
  lemma LookupAsWrittenMissesAllocation()
    ensures WellFormed(LostAllocationTree())
    ensures Allocated(LostAllocationTree(), 5)
    ensures LookupAsWritten(LostAllocationTree(), 5).None?
    ensures Lookup(LostAllocationTree(), 5) == Some([false, true])
  {
    var t := LostAllocationTree();
    assert (5, 5) in Allocations(t.left);
    assert Lookup(t.left.right, 5) == Some([]);
    assert [true] + [] == [true];
    assert Lookup(t.left, 5) == Some([true]);
    assert [false] + [true] == [false, true];
  }

  lemma ReachStep1()
    ensures Alloc(Leaf(0, 100, false), 10) ==
      Some((Split(0, 100, Leaf(0, 10, true), Leaf(10, 90, false)), 0))
  {
    assert FirstFit(Leaf(0, 100, false), 10) == Some([]);
  }

  lemma ReachStep2()
    ensures Alloc(Split(0, 100, Leaf(0, 10, true), Leaf(10, 90, false)), 10) ==
      Some((Split(0, 100, Leaf(0, 10, true), Split(10, 90, Leaf(10, 10, true), Leaf(20, 80, false))), 10))
  {
    var t1 := Split(0, 100, Leaf(0, 10, true), Leaf(10, 90, false));
    assert FirstFit(t1.left, 10).None?;
    assert FirstFit(t1.right, 10) == Some([]);
    assert [true] + [] == [true];
    assert FirstFit(t1, 10) == Some([true]);
    assert [true][1..] == [];
    assert At(t1, [true]) == t1.right;
  }

  lemma ReachStep3()
    ensures Free(Split(0, 100, Leaf(0, 10, true), Split(10, 90, Leaf(10, 10, true), Leaf(20, 80, false))), 0, true) ==
      Some(Split(0, 100, Leaf(0, 10, false), Split(10, 90, Leaf(10, 10, true), Leaf(20, 80, false))))
  {
    var t2 := Split(0, 100, Leaf(0, 10, true), Split(10, 90, Leaf(10, 10, true), Leaf(20, 80, false)));
    assert Free(t2.left, 0, false) == Some(Leaf(0, 10, false));
  }

  lemma ReachStep4()
    ensures Alloc(Split(0, 100, Leaf(0, 10, false), Split(10, 90, Leaf(10, 10, true), Leaf(20, 80, false))), 5) ==
      Some((Split(0, 100, Split(0, 10, Leaf(0, 5, true), Leaf(5, 5, false)),
              Split(10, 90, Leaf(10, 10, true), Leaf(20, 80, false))), 0))
  {
    var t3 := Split(0, 100, Leaf(0, 10, false), Split(10, 90, Leaf(10, 10, true), Leaf(20, 80, false)));
    assert FirstFit(t3.left, 5) == Some([]);
    assert [false] + [] == [false];
    assert FirstFit(t3, 5) == Some([false]);
    assert [false][1..] == [];
    assert At(t3, [false]) == t3.left;
  }

  lemma ReachStep5()
    ensures Alloc(Split(0, 100, Split(0, 10, Leaf(0, 5, true), Leaf(5, 5, false)),
              Split(10, 90, Leaf(10, 10, true), Leaf(20, 80, false))), 5) ==
      Some((LostAllocationTree(), 5))
  {
    var t4 := Split(0, 100, Split(0, 10, Leaf(0, 5, true), Leaf(5, 5, false)),
      Split(10, 90, Leaf(10, 10, true), Leaf(20, 80, false)));
    assert FirstFit(t4.left.left, 5).None?;
    assert FirstFit(t4.left.right, 5) == Some([]);
    assert [true] + [] == [true];
    assert FirstFit(t4.left, 5) == Some([true]);
    assert [false] + [true] == [false, true];
    assert FirstFit(t4, 5) == Some([false, true]);
    assert [false, true][1..] == [true];
    assert [true][1..] == [];
    assert At(t4, [false, true]) == t4.left.right;
    assert ReplaceAt(t4.left, [true], Leaf(5, 5, true)) == Split(0, 10, Leaf(0, 5, true), Leaf(5, 5, true));
  }

  /** The tree is reachable from a fresh 100-byte emulator: allocate 10,
      allocate 10, free offset 0, allocate 5, allocate 5. */
  lemma LostAllocationTreeReachable()
    ensures Alloc(Leaf(0, 100, false), 10) ==
      Some((Split(0, 100, Leaf(0, 10, true), Leaf(10, 90, false)), 0))
    ensures Alloc(Split(0, 100, Leaf(0, 10, true), Leaf(10, 90, false)), 10) ==
      Some((Split(0, 100, Leaf(0, 10, true), Split(10, 90, Leaf(10, 10, true), Leaf(20, 80, false))), 10))
    ensures Free(Split(0, 100, Leaf(0, 10, true), Split(10, 90, Leaf(10, 10, true), Leaf(20, 80, false))), 0, true) ==
      Some(Split(0, 100, Leaf(0, 10, false), Split(10, 90, Leaf(10, 10, true), Leaf(20, 80, false))))
    ensures Alloc(Split(0, 100, Leaf(0, 10, false), Split(10, 90, Leaf(10, 10, true), Leaf(20, 80, false))), 5) ==
      Some((Split(0, 100, Split(0, 10, Leaf(0, 5, true), Leaf(5, 5, false)),
              Split(10, 90, Leaf(10, 10, true), Leaf(20, 80, false))), 0))
    ensures Alloc(Split(0, 100, Split(0, 10, Leaf(0, 5, true), Leaf(5, 5, false)),
              Split(10, 90, Leaf(10, 10, true), Leaf(20, 80, false))), 5) ==
      Some((LostAllocationTree(), 5))
  {
    ReachStep1();
    ReachStep2();
    ReachStep3();
    ReachStep4();
    ReachStep5();
  }

  /** The range fields that merge() rewrites on a node it keeps. */
  function WithRange(t: Range, o: nat, b: nat): Range
  {
    match t
    case Leaf(_, _, res) => Leaf(o, b, res)
    case Split(_, _, l, r) => Split(o, b, l, r)
  }

  /** merge() as written for a freed left child: the left part of a split
      sibling is taken over when it is not resident, even when it is itself
      split, and only its own range is rewritten. */
  function MergeLeftAsWritten(o: nat, b: nat, l: Range, r: Range): Range
    requires WellFormed(r) && r.bytes <= b
  {
    if !IsFreeLeaf(l) then Split(o, b, l, r)
    else
      match r
      case Split(_, _, rl, rr) =>
        if !IsResident(rl) then Split(o, b, WithRange(rl, o, b - rr.bytes), rr) else Split(o, b, l, r)
      case Leaf(_, _, res) =>
        if !res then Leaf(o, b, false) else Split(o, b, l, r)
  }

  /** Freeing the allocation at offset 0 of this tree merges the freed leaf
      with a split node as written. */
  function MergeSplitTree(): Range
  {
    Split(0, 100, Leaf(0, 10, true),
      Split(10, 90,
        Split(10, 10, Leaf(10, 5, true), Leaf(15, 5, false)),
        Split(20, 80, Leaf(20, 10, true), Leaf(30, 70, false))))
  }

  /** merge() as written stretches a split node over the freed range without
      moving its children, so the topology breaks (the 10 freed bytes can
      never be handed out again); the corrected merge keeps it. */
  lemma MergeAsWrittenBreaksTopology()
    ensures WellFormed(MergeSplitTree())
    ensures var t := MergeSplitTree();
      !WellFormed(MergeLeftAsWritten(t.offset, t.bytes, Leaf(0, 10, false), t.right))
    ensures var t := MergeSplitTree();
      WellFormed(MergeLeft(t.offset, t.bytes, Leaf(0, 10, false), t.right))
  {
  }

  /** merge() as written for a freed right child, the mirror image of
      MergeLeftAsWritten: the right part of a split sibling is taken over
      when it is not resident, even when it is itself split, and only its
      byte count is rewritten. */
  function MergeRightAsWritten(o: nat, b: nat, l: Range, r: Range): Range
    requires WellFormed(l) && l.bytes <= b
  {
    if !IsFreeLeaf(r) then Split(o, b, l, r)
    else
      match l
      case Split(_, _, ll, lr) =>
        if !IsResident(lr) then Split(o, b, ll, WithRange(lr, lr.offset, b - ll.bytes)) else Split(o, b, l, r)
      case Leaf(_, _, res) =>
        if !res then Leaf(o, b, false) else Split(o, b, l, r)
  }

  /** Allocations of 30 and 70 bytes, the first freed, then two of 10: the
      left half holds a split whose right part is not resident. */
  function StretchTree(): Range
  {
    Split(0, 100,
      Split(0, 30, Leaf(0, 10, true), Split(10, 20, Leaf(10, 10, true), Leaf(20, 10, false))),
      Leaf(30, 70, true))
  }

  lemma StretchStep1()
    ensures Alloc(Leaf(0, 100, false), 30) ==
      Some((Split(0, 100, Leaf(0, 30, true), Leaf(30, 70, false)), 0))
  {
    assert FirstFit(Leaf(0, 100, false), 30) == Some([]);
  }

  lemma StretchStep2()
    ensures Alloc(Split(0, 100, Leaf(0, 30, true), Leaf(30, 70, false)), 70) ==
      Some((Split(0, 100, Leaf(0, 30, true), Leaf(30, 70, true)), 30))
  {
    var t1 := Split(0, 100, Leaf(0, 30, true), Leaf(30, 70, false));
    assert FirstFit(t1.left, 70).None?;
    assert FirstFit(t1.right, 70) == Some([]);
    assert [true] + [] == [true];
    assert FirstFit(t1, 70) == Some([true]);
    assert [true][1..] == [];
    assert At(t1, [true]) == t1.right;
  }

  lemma StretchStep3()
    ensures Free(Split(0, 100, Leaf(0, 30, true), Leaf(30, 70, true)), 0, true) ==
      Some(Split(0, 100, Leaf(0, 30, false), Leaf(30, 70, true)))
  {
    assert Free(Leaf(0, 30, true), 0, false) == Some(Leaf(0, 30, false));
  }

  lemma StretchStep4()
    ensures Alloc(Split(0, 100, Leaf(0, 30, false), Leaf(30, 70, true)), 10) ==
      Some((Split(0, 100, Split(0, 30, Leaf(0, 10, true), Leaf(10, 20, false)), Leaf(30, 70, true)), 0))
  {
    var t3 := Split(0, 100, Leaf(0, 30, false), Leaf(30, 70, true));
    assert FirstFit(t3.left, 10) == Some([]);
    assert [false] + [] == [false];
    assert FirstFit(t3, 10) == Some([false]);
    assert [false][1..] == [];
    assert At(t3, [false]) == t3.left;
  }

  lemma StretchStep5()
    ensures Alloc(Split(0, 100, Split(0, 30, Leaf(0, 10, true), Leaf(10, 20, false)), Leaf(30, 70, true)), 10) ==
      Some((StretchTree(), 10))
  {
    var t4 := Split(0, 100, Split(0, 30, Leaf(0, 10, true), Leaf(10, 20, false)), Leaf(30, 70, true));
    assert FirstFit(t4.left.left, 10).None?;
    assert FirstFit(t4.left.right, 10) == Some([]);
    assert [true] + [] == [true];
    assert FirstFit(t4.left, 10) == Some([true]);
    assert [false] + [true] == [false, true];
    assert FirstFit(t4, 10) == Some([false, true]);
    assert [false, true][1..] == [true];
    assert [true][1..] == [];
    assert At(t4, [false, true]) == t4.left.right;
    assert ReplaceAt(t4.left, [true], Carve(Leaf(10, 20, false), 10)) ==
      Split(0, 30, Leaf(0, 10, true), Split(10, 20, Leaf(10, 10, true), Leaf(20, 10, false)));
  }

  /** The tree is reachable from a fresh 100-byte emulator: allocate 30,
      allocate 70, free offset 0, allocate 10, allocate 10. */
  lemma StretchTreeReachable()
    ensures Alloc(Leaf(0, 100, false), 30) ==
      Some((Split(0, 100, Leaf(0, 30, true), Leaf(30, 70, false)), 0))
    ensures Alloc(Split(0, 100, Leaf(0, 30, true), Leaf(30, 70, false)), 70) ==
      Some((Split(0, 100, Leaf(0, 30, true), Leaf(30, 70, true)), 30))
    ensures Free(Split(0, 100, Leaf(0, 30, true), Leaf(30, 70, true)), 0, true) ==
      Some(Split(0, 100, Leaf(0, 30, false), Leaf(30, 70, true)))
    ensures Alloc(Split(0, 100, Leaf(0, 30, false), Leaf(30, 70, true)), 10) ==
      Some((Split(0, 100, Split(0, 30, Leaf(0, 10, true), Leaf(10, 20, false)), Leaf(30, 70, true)), 0))
    ensures Alloc(Split(0, 100, Split(0, 30, Leaf(0, 10, true), Leaf(10, 20, false)), Leaf(30, 70, true)), 10) ==
      Some((StretchTree(), 10))
  {
    StretchStep1();
    StretchStep2();
    StretchStep3();
    StretchStep4();
    StretchStep5();
  }

  /** Freeing the allocation at offset 30 of StretchTree: the lookup as
      written reaches the resident leaf [30, 70), and merge() as written
      stretches the split [10, 30) to 90 bytes while its children still
      cover 20, so the topology breaks; the corrected merge keeps it and
      Free removes just that allocation. */
  lemma MergeRightAsWrittenBreaksTopology()
    ensures WellFormed(StretchTree())
    ensures LookupAsWritten(StretchTree(), 30) == Some([true])
    ensures var t := StretchTree();
      !WellFormed(MergeRightAsWritten(t.offset, t.bytes, t.left, Leaf(30, 70, false)))
    ensures var t := StretchTree();
      WellFormed(MergeRight(t.offset, t.bytes, t.left, Leaf(30, 70, false)))
    ensures Free(StretchTree(), 30, true) == Some(Split(0, 100, StretchTree().left, Leaf(30, 70, false)))
  {
    var t := StretchTree();
    assert LookupAsWritten(t.right, 30) == Some([]);
    assert [true] + [] == [true];
  }

  // ---------------------------------------------------------------------
  // The emulator object.

  class MallocEmulator {
    var root: Option<Range>
    var remainingBytes: nat
    var numAllocations: nat

    /** The root covers [0, totalBytes) and numAllocations counts its nodes. */
    ghost predicate Valid()
      reads this
    {
      root.Some? ==> WellFormed(root.value) && root.value.offset == 0 && numAllocations == Count(root.value)
    }

    constructor ()
      ensures Valid() && root.None? && remainingBytes == 0 && numAllocations == 0
    {
      root := None;
      remainingBytes := 0;
      numAllocations := 0;
    }

    method Initialize(totalBytes: nat)
      requires root.None?
      modifies this
      ensures Valid()
      ensures root == Some(Leaf(0, totalBytes, false))
      ensures remainingBytes == totalBytes && numAllocations == 1
    {
      root := Some(Leaf(0, totalBytes, false));
      remainingBytes := totalBytes;
      numAllocations := 1;
    }

    /** allocate(bytes): None when no free leaf is large enough. */
    method Allocate(bytes: nat) returns (r: Option<nat>)
      requires Valid() && root.Some? && bytes > 0
      modifies this
      ensures Valid() && remainingBytes == old(remainingBytes)
      ensures Alloc(old(root).value, bytes).None? ==>
        r.None? && root == old(root) && numAllocations == old(numAllocations)
      ensures Alloc(old(root).value, bytes).Some? ==>
        r == Some(Alloc(old(root).value, bytes).value.1) &&
        root == Some(Alloc(old(root).value, bytes).value.0)
    {
      var t := root.value;
      var found := FindFreeLeaf(t, bytes);
      if found.None? {
        return None;
      }
      var p := found.value;
      var node := At(t, p);
      AllocSpec(t, bytes);
      AllocCount(t, bytes);
      root := Some(ReplaceAt(t, p, Carve(node, bytes)));
      if node.bytes > bytes {
        numAllocations := numAllocations + 2;
      }
      return Some(node.offset);
    }

    /** deallocate(offset): false when no allocation starts at offset (or it
        is the whole root range, or nothing was initialised). */
    method Deallocate(offset: nat) returns (ok: bool)
      requires Valid()
      modifies this
      ensures Valid() && remainingBytes == old(remainingBytes)
      ensures ok <==> old(root).Some? && Free(old(root).value, offset, true).Some?
      ensures ok ==> root == Some(Free(old(root).value, offset, true).value)
      ensures !ok ==> root == old(root) && numAllocations == old(numAllocations)
    {
      if root.None? {
        return false;
      }
      var t := Free(root.value, offset, true);
      if t.None? {
        return false;
      }
      root := t;
      numAllocations := Count(t.value);
      return true;
    }

    /** cleanup(): drops the whole tree; the counters are left as they are. */
    method Cleanup()
      modifies this
      ensures root.None? && Valid()
      ensures remainingBytes == old(remainingBytes) && numAllocations == old(numAllocations)
    {
      root := None;
    }
  }
}
