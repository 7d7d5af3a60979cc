// The tile allocator of the irradiance probe atlas
// (render/image_based_lighting.cpp): probes take runs of consecutive tile
// IDs, recorded as inclusive [begin, end] ranges.
module IrradianceTiles {
  import opened Wrappers

  datatype TileRange = TileRange(begin: nat, end: nat)

  /** Tiles [b, e] and the range r share a tile. */
  predicate Overlaps(r: TileRange, b: int, e: int)
  {
    b <= r.end && r.begin <= e
  }

  /** No recorded range touches tiles [b, b+n-1]. */
  predicate Fits(allocs: seq<TileRange>, b: nat, n: nat)
  {
    forall k :: 0 <= k < |allocs| ==> !Overlaps(allocs[k], b, b + n - 1)
  }

  /** The ranges are non-empty, ordered by tile ID and do not touch. */
  predicate SortedDisjoint(allocs: seq<TileRange>)
  {
    (forall k :: 0 <= k < |allocs| ==> allocs[k].begin <= allocs[k].end) &&
    (forall j, k :: 0 <= j < k < |allocs| ==> allocs[j].end < allocs[k].begin)
  }

  // ---------------------------------------------------------------------
  // allocateIrradianceTiles as written: the scan assumes the list is in
  // tile order, but new ranges are appended at the end.

  /** The scan of allocate from index i with candidate start b: an
      overlapping range pushes the candidate past its end, and the first
      range that does not overlap ends the scan. */
  function ScanFrom(allocs: seq<TileRange>, n: nat, i: nat, b: nat): (r: nat)
    requires n > 0 && i <= |allocs|
    ensures r >= b
    decreases |allocs| - i
  {
    if i == |allocs| || !Overlaps(allocs[i], b, b + n - 1) then b
    else ScanFrom(allocs, n, i + 1, allocs[i].end + 1)
  }

  /** allocate as written: the scanned start, if its run ends inside the
      atlas, and the list with the new range appended. */
  function AllocateAsWritten(allocs: seq<TileRange>, n: nat, totalTileCount: nat): Option<(nat, seq<TileRange>)>
    requires n > 0
  {
    var b := ScanFrom(allocs, n, 0, 0);
    if b + n - 1 < totalTileCount then Some((b, allocs + [TileRange(b, b + n - 1)])) else None
  }

  /** A successful allocation as written appends the run [b, b+n-1] it
      returns, behind every range already recorded. */
  lemma AllocateAsWrittenAppends(allocs: seq<TileRange>, n: nat, totalTileCount: nat)
    requires n > 0
    ensures var r := AllocateAsWritten(allocs, n, totalTileCount);
      r.Some? ==> r.value.0 + n - 1 < totalTileCount && r.value.1 == allocs + [TileRange(r.value.0, r.value.0 + n - 1)]
    ensures var r := AllocateAsWritten(allocs, n, totalTileCount);
      r.None? <==> ScanFrom(allocs, n, 0, 0) + n - 1 >= totalTileCount
  {
  }

  /** freeIrradianceTiles on a list: the first equal range is erased. */
  function Remove(allocs: seq<TileRange>, r: TileRange): seq<TileRange>
  {
    if allocs == [] then []
    else if allocs[0] == r then allocs[1..]
    else [allocs[0]] + Remove(allocs[1..], r)
  }

  /** Erasing a present range shortens the list by one; an absent range leaves it as it is. */
  lemma {:induction false} RemoveSpec(allocs: seq<TileRange>, r: TileRange)
    ensures r in allocs ==> |Remove(allocs, r)| == |allocs| - 1
    ensures r !in allocs ==> Remove(allocs, r) == allocs
  {
    if allocs != [] && allocs[0] != r {
      RemoveSpec(allocs[1..], r);
      assert allocs == [allocs[0]] + allocs[1..];
    }
  }

  /** Removing a range takes one copy of it out of the multiset of ranges. */
  lemma {:induction false} RemoveMultiset(allocs: seq<TileRange>, r: TileRange)
    ensures multiset(Remove(allocs, r)) == multiset(allocs) - multiset{r}
  {
    if allocs != [] {
      assert allocs == [allocs[0]] + allocs[1..];
      if allocs[0] != r {
        RemoveMultiset(allocs[1..], r);
      }
    }
  }

  /** Freeing the range an as-written allocation just appended finds it and
      leaves the ranges held before, as a multiset. */
  lemma AllocateAsWrittenThenRemove(allocs: seq<TileRange>, n: nat, totalTileCount: nat)
    requires n > 0
    ensures var r := AllocateAsWritten(allocs, n, totalTileCount);
      r.Some? ==>
        var range := TileRange(r.value.0, r.value.0 + n - 1);
        range in r.value.1 && multiset(Remove(r.value.1, range)) == multiset(allocs)
  {
    var r := AllocateAsWritten(allocs, n, totalTileCount);
    AllocateAsWrittenAppends(allocs, n, totalTileCount);
    if r.Some? {
      var range := TileRange(r.value.0, r.value.0 + n - 1);
      assert r.value.1[|allocs|] == range;
      RemoveMultiset(r.value.1, range);
      assert multiset(r.value.1) == multiset(allocs) + multiset{range};
    }
  }

  /** Allocate 2, allocate 2, free the first run, allocate 1, allocate 1:
      as written both single tiles are tile 0, so two live probes share it. */
  lemma AllocateAsWrittenSharesTile()
    ensures AllocateAsWritten([], 2, 8) == Some((0, [TileRange(0, 1)]))
    ensures AllocateAsWritten([TileRange(0, 1)], 2, 8) == Some((2, [TileRange(0, 1), TileRange(2, 3)]))
    ensures Remove([TileRange(0, 1), TileRange(2, 3)], TileRange(0, 1)) == [TileRange(2, 3)]
    ensures AllocateAsWritten([TileRange(2, 3)], 1, 8) == Some((0, [TileRange(2, 3), TileRange(0, 0)]))
    ensures AllocateAsWritten([TileRange(2, 3), TileRange(0, 0)], 1, 8) ==
      Some((0, [TileRange(2, 3), TileRange(0, 0), TileRange(0, 0)]))
    ensures Overlaps(TileRange(0, 0), 0, 0)
  {
    SharesTileStep1();
    SharesTileStep2();
    SharesTileStep3();
    SharesTileStep4();
  }

  lemma SharesTileStep1()
    ensures AllocateAsWritten([], 2, 8) == Some((0, [TileRange(0, 1)]))
  {
    assert ScanFrom([], 2, 0, 0) == 0;
    assert [] + [TileRange(0, 1)] == [TileRange(0, 1)];
  }

  lemma SharesTileStep2()
    ensures AllocateAsWritten([TileRange(0, 1)], 2, 8) == Some((2, [TileRange(0, 1), TileRange(2, 3)]))
  {
    var a := [TileRange(0, 1)];
    assert ScanFrom(a, 2, 1, 2) == 2;
    assert Overlaps(a[0], 0, 1);
    assert ScanFrom(a, 2, 0, 0) == 2;
    assert a + [TileRange(2, 3)] == [TileRange(0, 1), TileRange(2, 3)];
  }

  lemma SharesTileStep3()
    ensures Remove([TileRange(0, 1), TileRange(2, 3)], TileRange(0, 1)) == [TileRange(2, 3)]
  {
    assert [TileRange(0, 1), TileRange(2, 3)][1..] == [TileRange(2, 3)];
  }

  lemma SharesTileStep4()
    ensures AllocateAsWritten([TileRange(2, 3)], 1, 8) == Some((0, [TileRange(2, 3), TileRange(0, 0)]))
    ensures AllocateAsWritten([TileRange(2, 3), TileRange(0, 0)], 1, 8) ==
      Some((0, [TileRange(2, 3), TileRange(0, 0), TileRange(0, 0)]))
  {
    assert ScanFrom([TileRange(2, 3)], 1, 0, 0) == 0;
    assert [TileRange(2, 3)] + [TileRange(0, 0)] == [TileRange(2, 3), TileRange(0, 0)];
    assert ScanFrom([TileRange(2, 3), TileRange(0, 0)], 1, 0, 0) == 0;
    assert [TileRange(2, 3), TileRange(0, 0)] + [TileRange(0, 0)] ==
      [TileRange(2, 3), TileRange(0, 0), TileRange(0, 0)];
  }

  // ---------------------------------------------------------------------
  // The allocator with the list kept in tile order.

  class LightProbeScene {
    /** Whether the irradiance atlas exists. */
    var hasAtlas: bool
    const totalTileCount: nat
    const tileSize: nat
    const tileCountX: nat
    var tileAllocs: seq<TileRange>

    ghost predicate Valid()
      reads this
    {
      SortedDisjoint(tileAllocs)
    }

    constructor (hasAtlas: bool, tileSize: nat, tileCountX: nat, totalTileCount: nat)
      ensures Valid() && tileAllocs == []
      ensures this.hasAtlas == hasAtlas && this.tileSize == tileSize
      ensures this.tileCountX == tileCountX && this.totalTileCount == totalTileCount
    {
      this.hasAtlas := hasAtlas;
      this.tileSize := tileSize;
      this.tileCountX := tileCountX;
      this.totalTileCount := totalTileCount;
      tileAllocs := [];
    }

    /** allocateIrradianceTiles(n): None without an atlas or when no run of
        n free tiles ends inside the atlas; otherwise the lowest such run is
        recorded, in tile order, and its first tile returned. */
    method AllocateTiles(n: nat) returns (first: Option<nat>)
      requires Valid() && n > 0
      modifies this
      ensures Valid()
      ensures first.None? ==> tileAllocs == old(tileAllocs)
      ensures first.None? && old(hasAtlas) ==>
        forall b: nat :: b + n - 1 < totalTileCount ==> !Fits(tileAllocs, b, n)
      ensures first.Some? ==>
        hasAtlas && first.value + n - 1 < totalTileCount && Fits(old(tileAllocs), first.value, n) &&
        (forall b: nat :: b < first.value ==> !Fits(old(tileAllocs), b, n)) &&
        multiset(tileAllocs) == multiset(old(tileAllocs)) + multiset{TileRange(first.value, first.value + n - 1)}
    {
      if !hasAtlas {
        return None;
      }
      var a := tileAllocs;
      var i, b := FirstFreeRun(a, n);
      if b + n - 1 < totalTileCount {
        var r := TileRange(b, b + n - 1);
        InsertSorted(a, i, r);
        tileAllocs := a[..i] + [r] + a[i..];
        return Some(b);
      }
      forall c: nat | c + n - 1 < totalTileCount
        ensures !Fits(a, c, n)
      {
        assert c < b;
      }
      return None;
    }

    /** allocateIrradianceTiles(n) as written: without an atlas the result is
        None (INVALID) and nothing changes; otherwise the scan loop runs over
        the list in its stored order, and a run that ends inside the atlas is
        appended at the back. Any list is accepted, in tile order or not. */
    method AllocateTilesAsWritten(n: nat) returns (first: Option<nat>)
      requires n > 0
      modifies this
      ensures !old(hasAtlas) ==> first.None? && tileAllocs == old(tileAllocs)
      ensures old(hasAtlas) ==>
        var r := AllocateAsWritten(old(tileAllocs), n, totalTileCount);
        (r.None? ==> first.None? && tileAllocs == old(tileAllocs)) &&
        (r.Some? ==> first == Some(r.value.0) && tileAllocs == r.value.1)
      ensures hasAtlas == old(hasAtlas)
    {
      if !hasAtlas {
        return None;
      }
      var a := tileAllocs;
      var b: nat := 0;
      var i := 0;
      while i < |a| && Overlaps(a[i], b, b + n - 1)
        invariant i <= |a|
        invariant ScanFrom(a, n, i, b) == ScanFrom(a, n, 0, 0)
      {
        b := a[i].end + 1;
        i := i + 1;
      }
      assert b == ScanFrom(a, n, 0, 0);
      if b + n - 1 < totalTileCount {
        tileAllocs := a + [TileRange(b, b + n - 1)];
        return Some(b);
      }
      return None;
    }

    /** freeIrradianceTiles(first, last): erases the first equal range and
        reports whether there was one. Any list is accepted; a list in tile
        order stays in tile order. */
    method FreeTiles(firstTileID: nat, lastTileID: nat) returns (found: bool)
      modifies this
      ensures old(Valid()) ==> Valid()
      ensures found <==> TileRange(firstTileID, lastTileID) in old(tileAllocs)
      ensures tileAllocs == Remove(old(tileAllocs), TileRange(firstTileID, lastTileID))
    {
      var r := TileRange(firstTileID, lastTileID);
      var a := tileAllocs;
      var i := 0;
      while i < |a| && a[i] != r
        invariant i <= |a| && tileAllocs == a
        invariant r !in a[..i]
        invariant Remove(a, r) == a[..i] + Remove(a[i..], r)
      {
        RemoveStep(a, r, i);
        i := i + 1;
      }
      if i == |a| {
        assert a[..i] == a;
        assert a[i..] == [];
        assert Remove(a, r) == a;
        return false;
      }
      assert a[i..][1..] == a[i + 1..];
      assert r in a;
      if SortedDisjoint(a) {
        SortedDisjointRemove(a, i);
      }
      tileAllocs := a[..i] + a[i + 1..];
      return true;
    }

    /** getIrradianceTileTexelOffset(tileID). */
    function TexelOffset(tileID: nat): (nat, nat)
      reads this
      requires tileCountX > 0
    {
      TileTexelOffset(tileID, tileCountX, tileSize)
    }
  }

  /** The scan of allocateIrradianceTiles over a list in tile order: the
      candidate run starts at 0 and jumps past every range it overlaps; the
      first range it does not overlap ends the scan. The result is the
      lowest free run of n tiles, and i the position where it belongs. */
  method FirstFreeRun(a: seq<TileRange>, n: nat) returns (i: nat, b: nat)
    requires SortedDisjoint(a) && n > 0
    ensures i <= |a| && Fits(a, b, n)
    ensures forall c: nat :: c < b ==> !Fits(a, c, n)
    ensures forall k :: 0 <= k < i ==> a[k].end < b
    ensures forall k :: i <= k < |a| ==> b + n - 1 < a[k].begin
  {
    b := 0;
    i := 0;
    while i < |a| && Overlaps(a[i], b, b + n - 1)
      invariant i <= |a|
      invariant forall k :: 0 <= k < i ==> a[k].end < b
      invariant i == 0 ==> b == 0
      invariant i > 0 ==> b == a[i - 1].end + 1
      invariant forall c: nat :: c < b ==> !Fits(a, c, n)
    {
      forall c: nat | c < a[i].end + 1 ensures !Fits(a, c, n) {
        if c >= b {
          assert Overlaps(a[i], c, c + n - 1);
        }
      }
      b := a[i].end + 1;
      i := i + 1;
    }
    if i < |a| {
      assert b <= a[i].end by {
        assert a[i].begin <= a[i].end;
        if i > 0 {
          assert a[i - 1].end < a[i].begin;
        }
      }
      assert b + n - 1 < a[i].begin;
      forall k | i < k < |a| ensures b + n - 1 < a[k].begin {
        assert a[i].end < a[k].begin;
      }
    }
  }

  /** Inserting a run between the ranges before it and after it keeps the
      list in tile order and adds exactly that run. */
  lemma InsertSorted(a: seq<TileRange>, i: nat, r: TileRange)
    requires SortedDisjoint(a) && i <= |a| && r.begin <= r.end
    requires forall k :: 0 <= k < i ==> a[k].end < r.begin
    requires forall k :: i <= k < |a| ==> r.end < a[k].begin
    ensures SortedDisjoint(a[..i] + [r] + a[i..])
    ensures multiset(a[..i] + [r] + a[i..]) == multiset(a) + multiset{r}
  {
    InsertSortedOrder(a, i, r);
    InsertMultiset(a, i, r);
  }

  lemma InsertSortedOrder(a: seq<TileRange>, i: nat, r: TileRange)
    requires SortedDisjoint(a) && i <= |a| && r.begin <= r.end
    requires forall k :: 0 <= k < i ==> a[k].end < r.begin
    requires forall k :: i <= k < |a| ==> r.end < a[k].begin
    ensures SortedDisjoint(a[..i] + [r] + a[i..])
  {
    var out := a[..i] + [r] + a[i..];
    forall k | 0 <= k < |out|
      ensures out[k] == if k < i then a[k] else if k == i then r else a[k - 1]
    {
    }
  }

  lemma InsertMultiset(a: seq<TileRange>, i: nat, r: TileRange)
    requires i <= |a|
    ensures multiset(a[..i] + [r] + a[i..]) == multiset(a) + multiset{r}
  {
    assert a == a[..i] + a[i..];
    calc {
      multiset(a[..i] + [r] + a[i..]);
      multiset(a[..i]) + multiset{r} + multiset(a[i..]);
      multiset(a[..i] + a[i..]) + multiset{r};
    }
  }

  lemma RemoveCons(x: TileRange, rest: seq<TileRange>, r: TileRange)
    requires x != r
    ensures Remove([x] + rest, r) == [x] + Remove(rest, r)
  {
    assert ([x] + rest)[1..] == rest;
  }

  /** Remove passes over an element that is not the range. */
  lemma RemoveStep(allocs: seq<TileRange>, r: TileRange, i: nat)
    requires i < |allocs| && allocs[i] != r
    requires Remove(allocs, r) == allocs[..i] + Remove(allocs[i..], r)
    ensures Remove(allocs, r) == allocs[..i + 1] + Remove(allocs[i + 1..], r)
  {
    var x, rest := allocs[i], allocs[i + 1..];
    assert allocs[i..] == [x] + rest;
    RemoveCons(x, rest, r);
    assert allocs[..i + 1] == allocs[..i] + [x];
    assert allocs[..i] + ([x] + Remove(rest, r)) == (allocs[..i] + [x]) + Remove(rest, r);
  }

  lemma SortedDisjointRemove(allocs: seq<TileRange>, i: nat)
    requires SortedDisjoint(allocs) && i < |allocs|
    ensures SortedDisjoint(allocs[..i] + allocs[i + 1..])
  {
    var out := allocs[..i] + allocs[i + 1..];
    forall k | 0 <= k < |out| ensures out[k] == allocs[if k < i then k else k + 1] { }
  }

  /** Texel origin of a tile in the atlas: tiles sit in rows of countX, each
      occupying tileSize texels plus a one-texel border on either side. */
  function TileTexelOffset(tileID: nat, countX: nat, tileSize: nat): (nat, nat)
    requires countX > 0
  {
    (1 + (tileID % countX) * (2 + tileSize), 1 + (tileID / countX) * (2 + tileSize))
  }

  /** The tile ID can be read back from its texel offset, so different
      tiles never share an origin. */
  lemma TexelOffsetInverse(tileID: nat, countX: nat, tileSize: nat)
    requires countX > 0
    ensures var (x, y) := TileTexelOffset(tileID, countX, tileSize);
      x >= 1 && y >= 1 &&
      (x - 1) / (2 + tileSize) + countX * ((y - 1) / (2 + tileSize)) == tileID
  {
    var p := 2 + tileSize;
    var col := tileID % countX;
    var row := tileID / countX;
    MulDiv(col, p);
    MulDiv(row, p);
    assert tileID == row * countX + col;
  }

  lemma MulDiv(a: nat, p: nat)
    requires p > 0
    ensures (a * p) / p == a
  {
    var q := (a * p) / p;
    var r := (a * p) % p;
    assert a * p == q * p + r;
    var d := a - q;
    assert d * p == r by {
      assert d * p == a * p - q * p;
    }
  }
}
