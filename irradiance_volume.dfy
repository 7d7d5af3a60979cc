/**
 * The probe update schedule of pathos/scene/irradiance_volume_actor.cpp. A
 * volume holds gx·gy·gz probes; each probe takes seven steps (six cube faces
 * captured, then the irradiance baked into its atlas tile) and the volume
 * walks its probes round-robin, a caller-chosen number of steps per call.
 * Rendering is left to the renderer: a step is recorded as the work it
 * orders. Bounds are integer triples.
 */
module IrradianceVolumes {
  import opened Wrappers
  import IrradianceTiles
  import opened Vectors

  /** Steps per probe: faces 0..5, then the bake. */
  const PhasesPerProbe: nat := 7

  /** The work one step orders. */
  datatype Step = CaptureFace(probe: nat, face: nat) | Bake(probe: nat)

  /** Where the schedule stands: the probe being updated and its phase. */
  datatype ProbeCursor = ProbeCursor(index: nat, phase: nat)

  /** Phases 0..5 capture that face of the probe; phase 6 bakes it. */
  function Work(probe: nat, phase: nat): (s: Step)
    ensures phase <= 5 ==> s == CaptureFace(probe, phase)
    ensures phase > 5 ==> s == Bake(probe)
  {
    if phase <= 5 then CaptureFace(probe, phase) else Bake(probe)
  }

  /** One step of the cursor: the phase advances; after the bake the next
      probe starts at phase 0, wrapping to probe 0 after the last one. */
  function Next(c: ProbeCursor, numProbes: nat): (r: ProbeCursor)
  {
    if c.phase + 1 == PhasesPerProbe then
      ProbeCursor(if c.index + 1 >= numProbes then 0 else c.index + 1, 0)
    else ProbeCursor(c.index, c.phase + 1)
  }

  /** The cursor after k steps. */
  function Advance(c: ProbeCursor, numProbes: nat, k: nat): ProbeCursor
  {
    if k == 0 then c else Next(Advance(c, numProbes, k - 1), numProbes)
  }

  /** The work of k steps when each step updates the probe the cursor is on. */
  function Trace(c: ProbeCursor, numProbes: nat, k: nat): (r: seq<Step>)
    ensures |r| == k
  {
    if k == 0 then []
    else
      var at := Advance(c, numProbes, k - 1);
      Trace(c, numProbes, k - 1) + [Work(at.index, at.phase)]
  }

  /** The work of k steps as `updateProbes` orders it: the phase advances,
      but every step names the probe the call started on. */
  function TraceAsWritten(c: ProbeCursor, numProbes: nat, k: nat): (r: seq<Step>)
    ensures |r| == k
  {
    if k == 0 then []
    else TraceAsWritten(c, numProbes, k - 1) + [Work(c.index, Advance(c, numProbes, k - 1).phase)]
  }

  /** A cursor on a probe of the volume, at one of its seven phases. */
  predicate InRange(c: ProbeCursor, numProbes: nat)
  {
    c.index < numProbes && c.phase < PhasesPerProbe
  }

  /** The cursor stays in range, its phase counts steps modulo seven and its
      probe counts completed probes modulo the probe count. */
  lemma {:induction false} AdvanceClosedForm(c: ProbeCursor, numProbes: nat, k: nat)
    requires InRange(c, numProbes)
    ensures InRange(Advance(c, numProbes, k), numProbes)
    ensures Advance(c, numProbes, k).phase == (c.phase + k) % PhasesPerProbe
    ensures Advance(c, numProbes, k).index == (c.index + (c.phase + k) / PhasesPerProbe) % numProbes
  {
    if k > 0 {
      AdvanceClosedForm(c, numProbes, k - 1);
      var a := Advance(c, numProbes, k - 1);
      var s := c.phase + k - 1;
      assert a.phase == s % 7;
      assert a.index == (c.index + s / 7) % numProbes;
      if s % 7 == 6 {
        assert (s + 1) % 7 == 0 && (s + 1) / 7 == s / 7 + 1;
        WrapStep(c.index + s / 7, numProbes);
      } else {
        assert (s + 1) % 7 == s % 7 + 1 && (s + 1) / 7 == s / 7;
      }
    }
  }

  /** Moving to the next probe with the wrap is adding one modulo the count. */
  lemma WrapStep(m: nat, n: nat)
    requires n > 0
    ensures (if m % n + 1 >= n then 0 else m % n + 1) == (m + 1) % n
  {
    var q, r := m / n, m % n;
    if r + 1 < n {
      DivModUnique(m + 1, n, q, r + 1);
    } else {
      assert (q + 1) * n == q * n + n;
      DivModUnique(m + 1, n, q + 1, 0);
    }
  }

  /** Quotient and remainder are the only ones: a = q·n + r with 0 <= r < n. */
  lemma DivModUnique(a: int, n: int, q: int, r: int)
    requires n > 0 && 0 <= r < n && a == q * n + r
    ensures a / n == q && a % n == r
  {
    var q0, r0 := a / n, a % n;
    assert a == q0 * n + r0;
    var d := q - q0;
    assert d * n == r0 - r by {
      assert d * n == q * n - q0 * n;
    }
  }

  /** Below b·c, the quotient by b is below c. */
  lemma DivBelow(a: nat, b: nat, c: nat)
    requires b > 0 && a < b * c
    ensures a / b < c
  {
    var q := a / b;
    assert a == q * b + a % b;
    assert (c - q) * b == c * b - q * b;
    assert (c - q) * b > 0;
  }

  lemma MulLe(a: nat, b: nat, c: nat)
    requires a <= b
    ensures a * c <= b * c
  {
    assert b * c == a * c + (b - a) * c;
  }

  /** Within one probe the cursor only moves its phase. */
  lemma {:induction false} AdvanceWithinProbe(c: ProbeCursor, numProbes: nat, k: nat)
    requires c.phase + k < PhasesPerProbe
    ensures Advance(c, numProbes, k) == ProbeCursor(c.index, c.phase + k)
  {
    if k > 0 {
      AdvanceWithinProbe(c, numProbes, k - 1);
    }
  }

  /** From phase 0, seven steps capture the probe's six faces in order and
      then bake it, and leave the cursor at phase 0 of the next probe. */
  lemma FullProbe(i: nat, numProbes: nat)
    requires i < numProbes
    ensures Trace(ProbeCursor(i, 0), numProbes, 7) ==
      [CaptureFace(i, 0), CaptureFace(i, 1), CaptureFace(i, 2), CaptureFace(i, 3),
       CaptureFace(i, 4), CaptureFace(i, 5), Bake(i)]
    ensures Advance(ProbeCursor(i, 0), numProbes, 7) == ProbeCursor(if i + 1 == numProbes then 0 else i + 1, 0)
  {
    TraceWithinProbe(ProbeCursor(i, 0), numProbes, 7);
    AdvanceWithinProbe(ProbeCursor(i, 0), numProbes, 6);
  }

  /** While the cursor stays on its probe, step j does phase c.phase + j of it. */
  lemma {:induction false} TraceWithinProbe(c: ProbeCursor, numProbes: nat, k: nat)
    requires c.phase + k <= PhasesPerProbe
    ensures forall j :: 0 <= j < k ==> Trace(c, numProbes, k)[j] == Work(c.index, c.phase + j)
  {
    if k > 0 {
      TraceWithinProbe(c, numProbes, k - 1);
      AdvanceWithinProbe(c, numProbes, k - 1);
    }
  }

  /** A 2×2×2 volume (eight probes, the smallest grid initializeVolume
      accepts) and one call of fourteen steps from the start: the cursor ends
      on probe 2, yet the steps as written capture and bake probe 0 twice and
      never touch probe 1; the per-step probe bakes it. */
  lemma SkippedProbeAsWritten()
    ensures Advance(ProbeCursor(0, 0), 8, 14) == ProbeCursor(2, 0)
    ensures forall s :: s in TraceAsWritten(ProbeCursor(0, 0), 8, 14) ==> s.probe == 0
    ensures Bake(1) in Trace(ProbeCursor(0, 0), 8, 14)
  {
    FullProbe(0, 8);
    var mid := ProbeCursor(1, 0);
    assert Advance(ProbeCursor(0, 0), 8, 7) == mid;
    AdvanceShift(ProbeCursor(0, 0), 8, 7, 7);
    FullProbe(1, 8);
    TraceShift(ProbeCursor(0, 0), 8, 7, 7);
    assert Trace(ProbeCursor(0, 0), 8, 14)[13] == Bake(1);
    TraceAsWrittenProbe(ProbeCursor(0, 0), 8, 14);
  }

  /** The header's promise: each probe takes seven steps, so 7·N steps from
      the start of an N-probe volume bake every probe. */
  lemma AllProbesBaked(n: nat)
    requires n > 0
    ensures forall i :: 0 <= i < n ==> Bake(i) in Trace(ProbeCursor(0, 0), n, 7 * n)
    ensures Advance(ProbeCursor(0, 0), n, 7 * n) == ProbeCursor(0, 0)
  {
    AllProbesUpTo(n, n);
  }

  /** After 7·m steps from the start the cursor is at phase 0 of probe m
      (probe 0 once m reaches n), and every probe below m has been baked. */
  lemma {:induction false} AllProbesUpTo(n: nat, m: nat)
    requires 0 < m <= n
    ensures Advance(ProbeCursor(0, 0), n, 7 * m) == ProbeCursor(if m == n then 0 else m, 0)
    ensures forall i :: 0 <= i < m ==> Bake(i) in Trace(ProbeCursor(0, 0), n, 7 * m)
  {
    var c := ProbeCursor(0, 0);
    if m == 1 {
      FullProbe(0, n);
      assert Trace(c, n, 7)[6] == Bake(0);
    } else {
      AllProbesUpTo(n, m - 1);
      FullProbe(m - 1, n);
      AdvanceShift(c, n, 7 * (m - 1), 7);
      TraceShift(c, n, 7 * (m - 1), 7);
      assert 7 * (m - 1) + 7 == 7 * m;
      var t := Trace(c, n, 7 * m);
      assert t == Trace(c, n, 7 * (m - 1)) + Trace(ProbeCursor(m - 1, 0), n, 7);
      assert t[7 * m - 1] == Bake(m - 1);
      forall i | 0 <= i < m
        ensures Bake(i) in t
      {
        if i < m - 1 {
          assert Bake(i) in Trace(c, n, 7 * (m - 1));
        }
      }
    }
  }

  /** Advancing j then k steps is advancing j + k. */
  lemma {:induction false} AdvanceShift(c: ProbeCursor, numProbes: nat, j: nat, k: nat)
    ensures Advance(Advance(c, numProbes, j), numProbes, k) == Advance(c, numProbes, j + k)
  {
    if k > 0 {
      AdvanceShift(c, numProbes, j, k - 1);
    }
  }

  /** The work of j + k steps is that of j steps followed by that of k more. */
  lemma {:induction false} TraceShift(c: ProbeCursor, numProbes: nat, j: nat, k: nat)
    ensures Trace(c, numProbes, j + k) == Trace(c, numProbes, j) + Trace(Advance(c, numProbes, j), numProbes, k)
  {
    if k > 0 {
      TraceShift(c, numProbes, j, k - 1);
      AdvanceShift(c, numProbes, j, k - 1);
    }
  }

  /** Every step as written names the starting probe. */
  lemma {:induction false} TraceAsWrittenProbe(c: ProbeCursor, numProbes: nat, k: nat)
    ensures forall s :: s in TraceAsWritten(c, numProbes, k) ==> s.probe == c.index
  {
    if k > 0 {
      TraceAsWrittenProbe(c, numProbes, k - 1);
    }
  }

  /** The two traces agree while the cursor stays on the starting probe. */
  lemma {:induction false} TracesAgreeWithinProbe(c: ProbeCursor, numProbes: nat, k: nat)
    requires InRange(c, numProbes) && c.phase + k <= PhasesPerProbe
    ensures TraceAsWritten(c, numProbes, k) == Trace(c, numProbes, k)
  {
    if k > 0 {
      TracesAgreeWithinProbe(c, numProbes, k - 1);
      AdvanceWithinProbe(c, numProbes, k - 1);
    }
  }

  /** Probe coordinates from the index: z counts whole xy-layers, then
      within its layer y counts whole rows and x is the rest. */
  function ProbeCoord(probeIndex: nat, gx: nat, gy: nat): (r: (nat, nat, nat))
    requires gx > 0 && gy > 0
  {
    var sizeXY := gx * gy;
    var inLayer := probeIndex % sizeXY;
    (inLayer % gx, inLayer / gx, probeIndex / sizeXY)
  }

  /** The decomposition is the inverse of x + y·gx + z·gx·gy: it stays in the
      grid and rebuilds the index. */
  lemma ProbeCoordSpec(probeIndex: nat, gx: nat, gy: nat, gz: nat)
    requires gx > 0 && gy > 0 && probeIndex < gx * gy * gz
    ensures var (x, y, z) := ProbeCoord(probeIndex, gx, gy);
            x < gx && y < gy && z < gz && x + y * gx + z * (gx * gy) == probeIndex
  {
    var sizeXY := gx * gy;
    var inLayer := probeIndex % sizeXY;
    assert probeIndex == (probeIndex / sizeXY) * sizeXY + inLayer;
    assert inLayer == (inLayer / gx) * gx + inLayer % gx;
    DivBelow(inLayer, gx, gy);
    assert gx * gy * gz == sizeXY * gz;
    DivBelow(probeIndex, sizeXY, gz);
  }

  /** Every grid point is the coordinate of exactly its own index. */
  lemma ProbeCoordOfPoint(x: nat, y: nat, z: nat, gx: nat, gy: nat)
    requires x < gx && y < gy
    ensures ProbeCoord(x + y * gx + z * (gx * gy), gx, gy) == (x, y, z)
  {
    var sizeXY := gx * gy;
    var inLayer := x + y * gx;
    assert inLayer < sizeXY by {
      MulLe(y + 1, gy, gx);
      assert (y + 1) * gx == y * gx + gx;
    }
    DivModUnique(inLayer + z * sizeXY, sizeXY, z, inLayer);
    DivModUnique(inLayer, gx, y, x);
  }

  class IrradianceVolumeActor {
    var volumeInitialized: bool
    var minBounds: Vec3
    var maxBounds: Vec3
    var gridSize: Vec3
    var currentUpdateIndex: nat
    var currentUpdatePhase: nat
    var irradianceTileFirstID: Option<nat>

    function NumProbes(): nat
      reads this
    {
      if gridSize.x > 0 && gridSize.y > 0 && gridSize.z > 0 then gridSize.x * gridSize.y * gridSize.z else 0
    }

    /** An initialized volume has more than one probe per axis and a cursor in
        range; an uninitialized one has the zero grid and the cursor at the start. */
    ghost predicate Valid()
      reads this
    {
      currentUpdatePhase < PhasesPerProbe &&
      (volumeInitialized ==> gridSize.x > 1 && gridSize.y > 1 && gridSize.z > 1 &&
                             currentUpdateIndex < NumProbes()) &&
      (!volumeInitialized ==> gridSize == Vec3(0, 0, 0) && currentUpdateIndex == 0 &&
                              irradianceTileFirstID == None)
    }

    ghost function Cursor(): ProbeCursor
      reads this
    {
      ProbeCursor(currentUpdateIndex, currentUpdatePhase)
    }

    constructor ()
      ensures Valid() && !volumeInitialized && Cursor() == ProbeCursor(0, 0)
      ensures irradianceTileFirstID == None
    {
      volumeInitialized := false;
      minBounds, maxBounds, gridSize := Vec3(0, 0, 0), Vec3(0, 0, 0), Vec3(0, 0, 0);
      currentUpdateIndex, currentUpdatePhase := 0, 0;
      irradianceTileFirstID := None;
    }

    /** `initializeVolume`: once only. The first call CHECKs min < max and a
        grid of more than one probe on every axis, and starts the schedule at
        probe 0, phase 0. */
    method InitializeVolume(inMinBounds: Vec3, inMaxBounds: Vec3, inProbeGrid: Vec3)
      requires Valid()
      requires !volumeInitialized ==>
                 inMinBounds.x < inMaxBounds.x && inMinBounds.y < inMaxBounds.y && inMinBounds.z < inMaxBounds.z &&
                 inProbeGrid.x > 1 && inProbeGrid.y > 1 && inProbeGrid.z > 1
      modifies this
      ensures Valid() && volumeInitialized && irradianceTileFirstID == old(irradianceTileFirstID)
      ensures old(volumeInitialized) ==>
                minBounds == old(minBounds) && maxBounds == old(maxBounds) && gridSize == old(gridSize) &&
                Cursor() == old(Cursor())
      ensures !old(volumeInitialized) ==>
                minBounds == inMinBounds && maxBounds == inMaxBounds && gridSize == inProbeGrid &&
                Cursor() == ProbeCursor(0, 0)
    {
      if volumeInitialized {
        return;
      }
      minBounds := inMinBounds;
      maxBounds := inMaxBounds;
      gridSize := inProbeGrid;
      currentUpdateIndex := 0;
      currentUpdatePhase := 0;
      volumeInitialized := true;
    }

    /** `updateProbes` as written: the atlas tiles are allocated on first
        use by the atlas's own scan, which appends the new range, and a failed
        allocation ends the call; then `numSteps` steps advance the cursor,
        but all of them name the probe of the cursor at entry. */
    method UpdateProbesAsWritten(scene: IrradianceTiles.LightProbeScene, numSteps: int)
      returns (hasTiles: bool, trace: seq<Step>)
      requires Valid() && volumeInitialized
      modifies this, scene
      ensures Valid() && volumeInitialized
      ensures hasTiles <==> irradianceTileFirstID.Some?
      ensures old(irradianceTileFirstID).Some? ==> irradianceTileFirstID == old(irradianceTileFirstID)
      ensures old(irradianceTileFirstID).Some? ==> scene.tileAllocs == old(scene.tileAllocs)
      ensures old(irradianceTileFirstID).None? && old(scene.hasAtlas) ==>
                var r := IrradianceTiles.AllocateAsWritten(old(scene.tileAllocs), NumProbes(), scene.totalTileCount);
                (hasTiles <==> r.Some?) &&
                (hasTiles ==> irradianceTileFirstID == Some(r.value.0) && scene.tileAllocs == r.value.1)
      ensures old(irradianceTileFirstID).None? && !old(scene.hasAtlas) ==> !hasTiles
      ensures !hasTiles ==> scene.tileAllocs == old(scene.tileAllocs)
      ensures !hasTiles ==> trace == [] && Cursor() == old(Cursor())
      ensures hasTiles ==>
                var k := if numSteps < 0 then 0 else numSteps;
                trace == TraceAsWritten(old(Cursor()), NumProbes(), k) &&
                Cursor() == Advance(old(Cursor()), NumProbes(), k)
      ensures gridSize == old(gridSize)
    {
      trace := [];
      hasTiles := AllocateOnFirstUseAsWritten(scene);
      if !hasTiles {
        return;
      }
      var n := NumProbes();
      var probeIndex := currentUpdateIndex;
      ghost var start := Cursor();
      var index, phase := currentUpdateIndex, currentUpdatePhase;
      var i := 0;
      while i < numSteps
        invariant 0 <= i && (numSteps >= 0 ==> i <= numSteps) && (numSteps < 0 ==> i == 0)
        invariant InRange(ProbeCursor(index, phase), n)
        invariant ProbeCursor(index, phase) == Advance(start, n, i)
        invariant trace == TraceAsWritten(start, n, i)
      {
        trace := trace + [Work(probeIndex, phase)];
        phase := phase + 1;
        if phase == 7 {
          index := index + 1;
          phase := 0;
          if index >= n {
            index := 0;
          }
        }
        i := i + 1;
      }
      currentUpdateIndex, currentUpdatePhase := index, phase;
    }

    /** `updateProbes` with each step naming the probe the cursor is on,
        over the corrected atlas, which keeps its ranges in tile order. */
    method UpdateProbes(scene: IrradianceTiles.LightProbeScene, numSteps: int)
      returns (hasTiles: bool, trace: seq<Step>)
      requires Valid() && volumeInitialized && scene.Valid()
      modifies this, scene
      ensures Valid() && scene.Valid() && volumeInitialized
      ensures hasTiles <==> irradianceTileFirstID.Some?
      ensures old(irradianceTileFirstID).Some? ==> irradianceTileFirstID == old(irradianceTileFirstID)
      ensures old(irradianceTileFirstID).Some? ==> scene.tileAllocs == old(scene.tileAllocs)
      ensures old(irradianceTileFirstID).None? && hasTiles ==>
                multiset(scene.tileAllocs) == multiset(old(scene.tileAllocs)) +
                  multiset{IrradianceTiles.TileRange(irradianceTileFirstID.value, irradianceTileFirstID.value + NumProbes() - 1)}
      ensures !hasTiles ==> trace == [] && Cursor() == old(Cursor())
      ensures hasTiles ==>
                var k := if numSteps < 0 then 0 else numSteps;
                trace == Trace(old(Cursor()), NumProbes(), k) &&
                Cursor() == Advance(old(Cursor()), NumProbes(), k)
      ensures gridSize == old(gridSize)
    {
      trace := [];
      hasTiles := AllocateOnFirstUse(scene);
      if !hasTiles {
        return;
      }
      var n := NumProbes();
      ghost var start := Cursor();
      var index, phase := currentUpdateIndex, currentUpdatePhase;
      var i := 0;
      while i < numSteps
        invariant 0 <= i && (numSteps >= 0 ==> i <= numSteps) && (numSteps < 0 ==> i == 0)
        invariant InRange(ProbeCursor(index, phase), n)
        invariant ProbeCursor(index, phase) == Advance(start, n, i)
        invariant trace == Trace(start, n, i)
      {
        trace := trace + [Work(index, phase)];
        phase := phase + 1;
        if phase == 7 {
          index := index + 1;
          phase := 0;
          if index >= n {
            index := 0;
          }
        }
        i := i + 1;
      }
      currentUpdateIndex, currentUpdatePhase := index, phase;
    }

    /** The allocation at the head of `updateProbes` as written: tiles for
        every probe, once, from the atlas's own scan; false when the volume has
        none and the atlas cannot give them. */
    method AllocateOnFirstUseAsWritten(scene: IrradianceTiles.LightProbeScene) returns (hasTiles: bool)
      requires Valid() && volumeInitialized
      modifies this, scene
      ensures Valid() && volumeInitialized
      ensures hasTiles <==> irradianceTileFirstID.Some?
      ensures old(irradianceTileFirstID).Some? ==>
                irradianceTileFirstID == old(irradianceTileFirstID) && scene.tileAllocs == old(scene.tileAllocs)
      ensures old(irradianceTileFirstID).None? && old(scene.hasAtlas) ==>
                var r := IrradianceTiles.AllocateAsWritten(old(scene.tileAllocs), NumProbes(), scene.totalTileCount);
                (hasTiles <==> r.Some?) &&
                (hasTiles ==> irradianceTileFirstID == Some(r.value.0) && scene.tileAllocs == r.value.1)
      ensures old(irradianceTileFirstID).None? && !old(scene.hasAtlas) ==> !hasTiles
      ensures !hasTiles ==> scene.tileAllocs == old(scene.tileAllocs)
      ensures Cursor() == old(Cursor()) && gridSize == old(gridSize)
      ensures minBounds == old(minBounds) && maxBounds == old(maxBounds)
    {
      if irradianceTileFirstID.None? {
        assert gridSize.x * gridSize.y > 0;
        irradianceTileFirstID := scene.AllocateTilesAsWritten(NumProbes());
      }
      hasTiles := irradianceTileFirstID.Some?;
    }

    /** The allocation at the head of `updateProbes` over the corrected atlas:
        tiles for every probe, once; false when the volume has none and the
        atlas cannot give them. */
    method AllocateOnFirstUse(scene: IrradianceTiles.LightProbeScene) returns (hasTiles: bool)
      requires Valid() && volumeInitialized && scene.Valid()
      modifies this, scene
      ensures Valid() && scene.Valid() && volumeInitialized
      ensures hasTiles <==> irradianceTileFirstID.Some?
      ensures old(irradianceTileFirstID).Some? ==>
                irradianceTileFirstID == old(irradianceTileFirstID) && scene.tileAllocs == old(scene.tileAllocs)
      ensures old(irradianceTileFirstID).None? && hasTiles ==>
                multiset(scene.tileAllocs) == multiset(old(scene.tileAllocs)) +
                  multiset{IrradianceTiles.TileRange(irradianceTileFirstID.value, irradianceTileFirstID.value + NumProbes() - 1)}
      ensures Cursor() == old(Cursor()) && gridSize == old(gridSize)
      ensures minBounds == old(minBounds) && maxBounds == old(maxBounds)
    {
      if irradianceTileFirstID.None? {
        assert gridSize.x * gridSize.y > 0;
        irradianceTileFirstID := scene.AllocateTiles(NumProbes());
      }
      hasTiles := irradianceTileFirstID.Some?;
    }

    /** `onDestroy`: a volume holding tiles frees exactly the range it was
        given, [first, first + numProbes - 1]; `found` is the scene's answer. */
    method OnDestroy(scene: IrradianceTiles.LightProbeScene) returns (found: bool)
      requires Valid()
      modifies scene
      ensures old(scene.Valid()) ==> scene.Valid()
      ensures irradianceTileFirstID.None? ==> !found && scene.tileAllocs == old(scene.tileAllocs)
      ensures irradianceTileFirstID.Some? ==>
                var r := IrradianceTiles.TileRange(irradianceTileFirstID.value, irradianceTileFirstID.value + NumProbes() - 1);
                (found <==> r in old(scene.tileAllocs)) &&
                scene.tileAllocs == IrradianceTiles.Remove(old(scene.tileAllocs), r)
    {
      found := false;
      if irradianceTileFirstID.Some? {
        var first := irradianceTileFirstID.value;
        var lastId := first + NumProbes() - 1;
        found := scene.FreeTiles(first, lastId);
      }
    }
  }

  /** Allocating on a first update and destroying the volume gives the tiles
      back: the atlas holds the same ranges as before, whatever their order.
      The range is found exactly when the allocation succeeded; otherwise
      nothing was allocated and nothing is freed. */
  method UpdateThenDestroy(scene: IrradianceTiles.LightProbeScene, grid: Vec3, numSteps: int) returns (found: bool)
    requires grid.x > 1 && grid.y > 1 && grid.z > 1
    modifies scene
    ensures multiset(scene.tileAllocs) == multiset(old(scene.tileAllocs))
    ensures found <==>
      (old(scene.hasAtlas) &&
       IrradianceTiles.AllocateAsWritten(old(scene.tileAllocs), grid.x * grid.y * grid.z, scene.totalTileCount).Some?)
  {
    var volume := new IrradianceVolumeActor();
    volume.InitializeVolume(Vec3(0, 0, 0), Vec3(1, 1, 1), grid);
    ghost var before := scene.tileAllocs;
    ghost var atlas := scene.hasAtlas;
    ghost var n := volume.NumProbes();
    assert n == grid.x * grid.y * grid.z;
    ghost var r := IrradianceTiles.AllocateAsWritten(before, n, scene.totalTileCount);
    IrradianceTiles.AllocateAsWrittenThenRemove(before, n, scene.totalTileCount);
    var hasTiles, trace := volume.UpdateProbesAsWritten(scene, numSteps);
    assert volume.NumProbes() == n;
    assert hasTiles <==> atlas && r.Some?;
    ghost var afterAlloc := scene.tileAllocs;
    found := volume.OnDestroy(scene);
    if hasTiles {
      var range := IrradianceTiles.TileRange(r.value.0, r.value.0 + n - 1);
      assert afterAlloc == r.value.1;
      assert found <==> range in afterAlloc;
      assert scene.tileAllocs == IrradianceTiles.Remove(afterAlloc, range);
    } else {
      assert scene.tileAllocs == before;
    }
  }
}
