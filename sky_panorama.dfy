/**
 * pathos/scene/sky_panorama_component.cpp: the icosphere the panorama sky is
 * drawn on and the component that hands it to the renderer. The icosahedron
 * starts with 12 vertices and 20 triangles; each subdivision gives every
 * triangle three new vertices of its own (the normalised midpoints of its
 * edges) and replaces it by four. Positions are kept symbolic: a base corner,
 * or the midpoint of two positions.
 */
module SkyPanorama {
  import opened Wrappers
  import SceneProxies

  const InitialNumVertices: nat := 12
  const InitialNumTriangles: nat := 20

  /** A vertex position: one of the twelve corners, or the normalised sum of two positions. */
  datatype Position = Corner(n: nat) | Midpoint(a: Position, b: Position)

  /** The base triangles, three corners each, five triangles to a line. */
  const IcosahedronIndices: seq<nat> :=
    [0, 4, 1, 0, 9, 4, 9, 5, 4, 4, 5, 8, 4, 8, 1] +
    [8, 10, 1, 8, 3, 10, 5, 3, 8, 5, 2, 3, 2, 7, 3] +
    [7, 10, 3, 7, 6, 10, 7, 11, 6, 11, 0, 6, 0, 1, 6] +
    [6, 1, 10, 9, 0, 11, 9, 11, 2, 9, 2, 5, 7, 2, 11]

  /** Every index names one of the first n vertices. */
  ghost predicate IndicesBelow(idx: seq<nat>, n: nat)
  {
    forall i :: 0 <= i < |idx| ==> idx[i] < n
  }

  /** The base icosahedron is a proper mesh over its twelve corners, each corner used. */
  lemma IcosahedronSpec()
    ensures |IcosahedronIndices| == 3 * InitialNumTriangles
    ensures IndicesBelow(IcosahedronIndices, InitialNumVertices)
    ensures forall c :: 0 <= c < InitialNumVertices ==> c in IcosahedronIndices
  {
    assert IcosahedronIndices[0] == 0 && IcosahedronIndices[2] == 1 && IcosahedronIndices[25] == 2;
    assert IcosahedronIndices[19] == 3 && IcosahedronIndices[1] == 4 && IcosahedronIndices[7] == 5;
    assert IcosahedronIndices[34] == 6 && IcosahedronIndices[28] == 7 && IcosahedronIndices[11] == 8;
    assert IcosahedronIndices[4] == 9 && IcosahedronIndices[16] == 10 && IcosahedronIndices[37] == 11;
  }

  /** The four triangles that replace (i0, i1, i2), whose edge midpoints are
      p (i0-i1), p+1 (i1-i2) and p+2 (i2-i0): one at each corner and the middle one. */
  function SplitTriangle(i0: nat, i1: nat, i2: nat, p: nat): (r: seq<nat>)
    ensures |r| == 12
  {
    [i0, p, p + 2, i1, p + 1, p, p + 1, i2, p + 2, p, p + 1, p + 2]
  }

  /** The index data after splitting the first t triangles of `idx`, whose
      new vertices are numbered from v on. */
  function Subdivided(idx: seq<nat>, v: nat, t: nat): (r: seq<nat>)
    requires 3 * t <= |idx|
    ensures |r| == 12 * t
  {
    if t == 0 then []
    else Subdivided(idx, v, t - 1) + SplitTriangle(idx[3 * t - 3], idx[3 * t - 2], idx[3 * t - 1], v + 3 * (t - 1))
  }

  /** The three positions created for triangle c. */
  function TriangleMidpoints(pos: seq<Position>, idx: seq<nat>, c: nat): (r: seq<Position>)
    requires 3 * c + 3 <= |idx| && IndicesBelow(idx, |pos|)
    ensures |r| == 3
  {
    var v0, v1, v2 := pos[idx[3 * c]], pos[idx[3 * c + 1]], pos[idx[3 * c + 2]];
    [Midpoint(v0, v1), Midpoint(v1, v2), Midpoint(v2, v0)]
  }

  /** The positions created for the first t triangles, in triangle order. */
  function Midpoints(pos: seq<Position>, idx: seq<nat>, t: nat): (r: seq<Position>)
    requires 3 * t <= |idx| && IndicesBelow(idx, |pos|)
    ensures |r| == 3 * t
  {
    if t == 0 then [] else Midpoints(pos, idx, t - 1) + TriangleMidpoints(pos, idx, t - 1)
  }

  /** One more triangle appends its three edge midpoints, after the copied
      old positions. */
  lemma MidpointsStep(pos: seq<Position>, idx: seq<nat>, c: nat, m01: Position, m12: Position, m20: Position)
    requires 3 * c + 3 <= |idx| && IndicesBelow(idx, |pos|)
    requires m01 == Midpoint(pos[idx[3 * c]], pos[idx[3 * c + 1]])
    requires m12 == Midpoint(pos[idx[3 * c + 1]], pos[idx[3 * c + 2]])
    requires m20 == Midpoint(pos[idx[3 * c + 2]], pos[idx[3 * c]])
    ensures (pos + Midpoints(pos, idx, c)) + [m01, m12, m20] == pos + Midpoints(pos, idx, c + 1)
  {
    assert TriangleMidpoints(pos, idx, c) == [m01, m12, m20];
    assert Midpoints(pos, idx, c + 1) == Midpoints(pos, idx, c) + [m01, m12, m20];
  }

  /** One more triangle appends its four triangles, over its midpoints at p. */
  lemma SubdividedStep(idx: seq<nat>, v: nat, c: nat, p: nat)
    requires 3 * c + 3 <= |idx| && p == v + 3 * c
    ensures Subdivided(idx, v, c) + SplitTriangle(idx[3 * c], idx[3 * c + 1], idx[3 * c + 2], p) ==
            Subdivided(idx, v, c + 1)
  {
    var n := c + 1;
    assert 3 * n - 3 == 3 * c && 3 * n - 2 == 3 * c + 1 && 3 * n - 1 == 3 * c + 2 && n - 1 == c;
    assert Subdivided(idx, v, n) ==
      Subdivided(idx, v, c) + SplitTriangle(idx[3 * n - 3], idx[3 * n - 2], idx[3 * n - 1], v + 3 * (n - 1));
  }

  /** Subdividing a proper mesh over v vertices gives a proper mesh over the
      v + 3t vertices the subdivision creates. */
  lemma {:induction false} SubdividedBound(idx: seq<nat>, v: nat, t: nat)
    requires 3 * t <= |idx| && IndicesBelow(idx, v)
    ensures IndicesBelow(Subdivided(idx, v, t), v + 3 * t)
  {
    if t > 0 {
      SubdividedBound(idx, v, t - 1);
      var pre := Subdivided(idx, v, t - 1);
      var q := SplitTriangle(idx[3 * t - 3], idx[3 * t - 2], idx[3 * t - 1], v + 3 * (t - 1));
      forall i | 0 <= i < |pre + q|
        ensures (pre + q)[i] < v + 3 * t
      {
        if i >= |pre| {
          assert q[i - |pre|] in q;
        }
      }
    }
  }

  /** Slots 12c..12c+11 of the new index data are the four triangles of old triangle c. */
  lemma {:induction false} SubdividedChunks(idx: seq<nat>, v: nat, t: nat)
    requires 3 * t <= |idx|
    ensures forall c :: 0 <= c < t ==>
              Subdivided(idx, v, t)[12 * c..12 * c + 12] == SplitTriangle(idx[3 * c], idx[3 * c + 1], idx[3 * c + 2], v + 3 * c)
  {
    if t > 0 {
      SubdividedChunks(idx, v, t - 1);
      var pre := Subdivided(idx, v, t - 1);
      var q := SplitTriangle(idx[3 * t - 3], idx[3 * t - 2], idx[3 * t - 1], v + 3 * (t - 1));
      forall c | 0 <= c < t
        ensures (pre + q)[12 * c..12 * c + 12] == SplitTriangle(idx[3 * c], idx[3 * c + 1], idx[3 * c + 2], v + 3 * c)
      {
        if c < t - 1 {
          assert (pre + q)[12 * c..12 * c + 12] == pre[12 * c..12 * c + 12];
        } else {
          assert (pre + q)[12 * c..12 * c + 12] == q;
        }
      }
    }
  }

  /** Vertices p, p+1, p+2 created for triangle c are the midpoints of its edges. */
  lemma {:induction false} MidpointsChunks(pos: seq<Position>, idx: seq<nat>, t: nat)
    requires 3 * t <= |idx| && IndicesBelow(idx, |pos|)
    ensures forall c :: 0 <= c < t ==> Midpoints(pos, idx, t)[3 * c..3 * c + 3] == TriangleMidpoints(pos, idx, c)
  {
    if t > 0 {
      MidpointsChunks(pos, idx, t - 1);
      var pre, q := Midpoints(pos, idx, t - 1), TriangleMidpoints(pos, idx, t - 1);
      forall c | 0 <= c < t
        ensures (pre + q)[3 * c..3 * c + 3] == TriangleMidpoints(pos, idx, c)
      {
        if c < t - 1 {
          assert (pre + q)[3 * c..3 * c + 3] == pre[3 * c..3 * c + 3];
        } else {
          assert (pre + q)[3 * c..3 * c + 3] == q;
        }
      }
    }
  }

  function Pow4(n: nat): (r: nat)
    ensures r >= 1
  {
    if n == 0 then 1 else 4 * Pow4(n - 1)
  }

  /** After n subdivisions: 20·4^n triangles and 12 + 20·(4^n - 1) vertices
      (shared edges get a midpoint per triangle, so vertices repeat). */
  lemma SubdivisionCounts(n: nat, v: nat, t: nat)
    requires t == InitialNumTriangles * Pow4(n) && v == InitialNumVertices + InitialNumTriangles * (Pow4(n) - 1)
    ensures 4 * t == InitialNumTriangles * Pow4(n + 1)
    ensures v + 3 * t == InitialNumVertices + InitialNumTriangles * (Pow4(n + 1) - 1)
  {
  }

  /** The positions and indices of a triangle mesh. */
  datatype Mesh = Mesh(positions: seq<Position>, indices: seq<nat>)

  /** The twelve corners `buildGeometry` writes. */
  function BaseCorners(): (r: seq<Position>)
    ensures |r| == InitialNumVertices
  {
    seq(12, (i: int) requires 0 <= i => Corner(i))
  }

  /** One round of subdivision: the old positions followed by every
      triangle's midpoints, and every triangle split in four. */
  function SubdivisionStep(m: Mesh, t: nat): (r: Mesh)
    requires |m.indices| == 3 * t && IndicesBelow(m.indices, |m.positions|)
    ensures |r.positions| == |m.positions| + 3 * t && |r.indices| == 12 * t
    ensures IndicesBelow(r.indices, |r.positions|)
    ensures m.positions <= r.positions
  {
    SubdividedBound(m.indices, |m.positions|, t);
    Mesh(m.positions + Midpoints(m.positions, m.indices, t), Subdivided(m.indices, |m.positions|, t))
  }

  /** The base icosahedron subdivided n times. */
  function SubdividedMesh(n: nat): (m: Mesh)
    ensures |m.indices| == 3 * (InitialNumTriangles * Pow4(n))
    ensures |m.positions| == InitialNumVertices + InitialNumTriangles * (Pow4(n) - 1)
    ensures IndicesBelow(m.indices, |m.positions|)
  {
    if n == 0 then
      IcosahedronSpec();
      Mesh(BaseCorners(), IcosahedronIndices)
    else
      var prev := SubdividedMesh(n - 1);
      var t := InitialNumTriangles * Pow4(n - 1);
      SubdivisionCounts(n - 1, |prev.positions|, t);
      SubdivisionStep(prev, t)
  }

  class IcosahedronGeometry {
    var numVertices: nat
    var numTriangles: nat
    var positionData: array<Position>
    var indexData: array<nat>

    /** One position per vertex, three indices per triangle, every index a vertex. */
    ghost predicate Valid()
      reads this, positionData, indexData
    {
      positionData.Length == numVertices && indexData.Length == 3 * numTriangles &&
      IndicesBelow(indexData[..], numVertices)
    }

    /** `IcosahedronGeometry(subdivisionStep)`: the base mesh subdivided
        `subdivisionStep` times. */
    constructor (subdivisionStep: nat)
      ensures Valid()
      ensures numTriangles == InitialNumTriangles * Pow4(subdivisionStep)
      ensures numVertices == InitialNumVertices + InitialNumTriangles * (Pow4(subdivisionStep) - 1)
      ensures positionData[..] == SubdividedMesh(subdivisionStep).positions
      ensures indexData[..] == SubdividedMesh(subdivisionStep).indices
    {
      numVertices, numTriangles := 0, 0;
      positionData := new Position[0];
      indexData := new nat[0];
      new;
      BuildGeometry();
      var step := 0;
      while step < subdivisionStep
        invariant step <= subdivisionStep && Valid()
        invariant numTriangles == InitialNumTriangles * Pow4(step)
        invariant numVertices == InitialNumVertices + InitialNumTriangles * (Pow4(step) - 1)
        invariant positionData[..] == SubdividedMesh(step).positions
        invariant indexData[..] == SubdividedMesh(step).indices
      {
        SubdivisionCounts(step, numVertices, numTriangles);
        Subdivide();
        step := step + 1;
      }
    }

    /** `buildGeometry`: the twelve corners and the twenty base triangles. */
    method BuildGeometry()
      modifies this
      ensures Valid() && fresh(positionData) && fresh(indexData)
      ensures numVertices == InitialNumVertices && numTriangles == InitialNumTriangles
      ensures positionData[..] == BaseCorners()
      ensures indexData[..] == IcosahedronIndices
    {
      numVertices := InitialNumVertices;
      numTriangles := InitialNumTriangles;
      positionData := new Position[12]((i: int) requires 0 <= i => Corner(i));
      indexData := new nat[60]((i: int) requires 0 <= i < 60 => IcosahedronIndices[i]);
      IcosahedronSpec();
      assert indexData[..] == IcosahedronIndices;
    }

    /** `subdivide`: three new vertices per triangle after the old ones, four
        triangles in place of each old one; the two CHECKs on the final
        cursors hold. */
    method Subdivide()
      requires Valid()
      modifies this
      ensures Valid() && fresh(positionData) && fresh(indexData)
      ensures numVertices == old(numVertices) + 3 * old(numTriangles)
      ensures numTriangles == 4 * old(numTriangles)
      ensures indexData[..] == Subdivided(old(indexData[..]), old(numVertices), old(numTriangles))
      ensures positionData[..] == old(positionData[..]) + Midpoints(old(positionData[..]), old(indexData[..]), old(numTriangles))
    {
      var v, t := numVertices, numTriangles;
      var newNumVertices := v + 3 * t;
      var newNumTriangles := t * 4;
      var newPositions := new Position[newNumVertices];
      var newIndices := new nat[newNumTriangles * 3];
      FillSubdivision(positionData, indexData, t, newPositions, newIndices);
      SubdividedBound(indexData[..], v, t);
      positionData, indexData := newPositions, newIndices;
      numVertices, numTriangles := newNumVertices, newNumTriangles;
    }
  }

  /** The body of `subdivide`: the old positions copied, then for each old
      triangle its three midpoints at cursor p and its four triangles at
      cursor q. The cursors end at the new vertex and index counts, as the
      two CHECKs demand. */
  method FillSubdivision(positions: array<Position>, indices: array<nat>, t: nat,
                         newPositions: array<Position>, newIndices: array<nat>)
    requires indices.Length == 3 * t && IndicesBelow(indices[..], positions.Length)
    requires newPositions.Length == positions.Length + 3 * t && newIndices.Length == 12 * t
    requires newPositions != positions && newIndices != indices
    modifies newPositions, newIndices
    ensures newPositions[..] == positions[..] + Midpoints(positions[..], indices[..], t)
    ensures newIndices[..] == Subdivided(indices[..], positions.Length, t)
  {
    CopyPositions(positions, newPositions);
    SubdivideAll(positions[..], indices[..], t, newPositions, newIndices);
    FilledWhole(positions[..], indices[..], newPositions[..], newIndices[..], t);
  }

  /** The triangle loop of `subdivide`, reading the old positions and
      indices, which it does not change. */
  method SubdivideAll(pos: seq<Position>, idx: seq<nat>, t: nat,
                      newPositions: array<Position>, newIndices: array<nat>)
    requires |idx| == 3 * t && IndicesBelow(idx, |pos|)
    requires newPositions.Length == |pos| + 3 * t && newIndices.Length == 12 * t
    requires newPositions[..|pos|] == pos
    modifies newPositions, newIndices
    ensures Filled(pos, idx, newPositions[..], newIndices[..], t)
  {
    SubdivisionStart(pos, idx, newPositions[..], newIndices[..]);
    for c := 0 to t
      invariant Filled(pos, idx, newPositions[..], newIndices[..], c)
    {
      SubdivideTriangle(pos, idx, t, c, newPositions, newIndices);
    }
  }

  /** Filled for every triangle, the buffers are exactly the subdivision. */
  lemma FilledWhole(pos: seq<Position>, idx: seq<nat>, newPos: seq<Position>, newIdx: seq<nat>, t: nat)
    requires Filled(pos, idx, newPos, newIdx, t)
    requires |newPos| == |pos| + 3 * t && |newIdx| == 12 * t
    ensures newPos == pos + Midpoints(pos, idx, t)
    ensures newIdx == Subdivided(idx, |pos|, t)
  {
    assert newPos[..|pos| + 3 * t] == newPos;
    assert newIdx[..12 * t] == newIdx;
  }

  /** The buffers hold the copied positions and the output of the first c
      triangles: their midpoints after the positions, their splits from index 0. */
  ghost predicate Filled(pos: seq<Position>, idx: seq<nat>, newPos: seq<Position>, newIdx: seq<nat>, c: nat)
  {
    3 * c <= |idx| && IndicesBelow(idx, |pos|) && |pos| + 3 * c <= |newPos| && 12 * c <= |newIdx| &&
    newPos[..|pos| + 3 * c] == pos + Midpoints(pos, idx, c) &&
    newIdx[..12 * c] == Subdivided(idx, |pos|, c)
  }

  /** Before the first triangle, the filled prefixes are the copied positions and no indices. */
  lemma SubdivisionStart(pos: seq<Position>, idx: seq<nat>, newPos: seq<Position>, newIdx: seq<nat>)
    requires IndicesBelow(idx, |pos|) && |pos| <= |newPos| && newPos[..|pos|] == pos
    ensures Filled(pos, idx, newPos, newIdx, 0)
  {
    assert pos + [] == pos;
  }


  /** One pass of the loop of `subdivide`: triangle c's midpoints are stored
      at vertex v + 3c and its four triangles at index 12c. */
  method SubdivideTriangle(pos: seq<Position>, idx: seq<nat>, t: nat, c: nat,
                           newPositions: array<Position>, newIndices: array<nat>)
    requires |idx| == 3 * t && IndicesBelow(idx, |pos|) && c < t
    requires newPositions.Length == |pos| + 3 * t && newIndices.Length == 12 * t
    requires newPositions[..|pos| + 3 * c] == pos + Midpoints(pos, idx, c)
    requires newIndices[..12 * c] == Subdivided(idx, |pos|, c)
    modifies newPositions, newIndices
    ensures newPositions[..|pos| + 3 * c + 3] == pos + Midpoints(pos, idx, c + 1)
    ensures newIndices[..12 * c + 12] == Subdivided(idx, |pos|, c + 1)
  {
    var v, p, q := |pos|, |pos| + 3 * c, 12 * c;
    var i0, i1, i2 := idx[3 * c], idx[3 * c + 1], idx[3 * c + 2];
    var m01, m12, m20 := Midpoint(pos[i0], pos[i1]), Midpoint(pos[i1], pos[i2]), Midpoint(pos[i2], pos[i0]);
    WriteTriple(newPositions, p, m01, m12, m20);
    MidpointsStep(pos, idx, c, m01, m12, m20);
    WriteSplit(newIndices, q, i0, i1, i2, p);
    SubdividedStep(idx, v, c, p);
  }

  /** The `memcpy` of the old positions to the front of the new array. */
  method CopyPositions(from: array<Position>, to: array<Position>)
    requires from.Length <= to.Length && from != to
    modifies to
    ensures to[..from.Length] == from[..]
  {
    for i := 0 to from.Length
      invariant to[..i] == from[..i]
    {
      to[i] := from[i];
    }
  }

  /** The three midpoint stores of one triangle at vertex p. */
  method WriteTriple(a: array<Position>, p: nat, m0: Position, m1: Position, m2: Position)
    requires p + 3 <= a.Length
    modifies a
    ensures a[..p + 3] == old(a[..p]) + [m0, m1, m2]
  {
    a[p] := m0;
    a[p + 1] := m1;
    a[p + 2] := m2;
  }

  /** The twelve index stores of one split triangle at slot q. */
  method WriteSplit(a: array<nat>, q: nat, i0: nat, i1: nat, i2: nat, p: nat)
    requires q + 12 <= a.Length
    modifies a
    ensures a[..q + 12] == old(a[..q]) + SplitTriangle(i0, i1, i2, p)
  {
    var r := SplitTriangle(i0, i1, i2, p);
    for k := 0 to 12
      invariant a[..q + k] == old(a[..q]) + r[..k]
    {
      a[q + k] := r[k];
      assert r[..k + 1] == r[..k] + [r[k]];
    }
  }

  class PanoramaSkyComponent {
    var texture: Option<nat>
    var lightingDirty: bool
    var sphere: IcosahedronGeometry?

    /** The header that gives the flag's initial value is not part of this
        model, so it is a parameter. */
    constructor (lightingDirty: bool)
      ensures texture == None && this.lightingDirty == lightingDirty && sphere == null
    {
      texture := None;
      this.lightingDirty := lightingDirty;
      sphere := null;
    }

    /** `setTexture`: a different texture marks the lighting dirty; the sphere
        (an unsubdivided icosahedron) is created on the first call and kept after. */
    method SetTexture(inTexture: Option<nat>)
      modifies this
      ensures texture == inTexture
      ensures lightingDirty == (old(lightingDirty) || inTexture != old(texture))
      ensures old(sphere) != null ==> sphere == old(sphere)
      ensures old(sphere) == null ==> sphere != null && fresh(sphere) && sphere.Valid() &&
                                      sphere.numVertices == InitialNumVertices && sphere.numTriangles == InitialNumTriangles
    {
      if texture != inTexture {
        texture := inTexture;
        lightingDirty := true;
      }
      if sphere == null {
        sphere := new IcosahedronGeometry(0);
      }
    }

    /** `createRenderProxy`: without valid resources the scene gets no sky.
        Otherwise the proxy is dirty only for a dirty component in the main
        scene, and only the main scene's proxy consumes the flag. */
    method CreateRenderProxy(scene: SceneProxies.SceneProxy, hasValidResources: bool)
      modifies this, scene
      ensures !hasValidResources ==> scene.panoramaSky == None && lightingDirty == old(lightingDirty)
      ensures hasValidResources ==>
                scene.panoramaSky == Some(SceneProxies.PanoramaSkyProxy(sphere, texture,
                  old(lightingDirty) && scene.sceneProxySource == SceneProxies.MainScene))
      ensures hasValidResources && scene.sceneProxySource == SceneProxies.MainScene ==> !lightingDirty
      ensures scene.sceneProxySource != SceneProxies.MainScene ==> lightingDirty == old(lightingDirty)
      ensures texture == old(texture) && sphere == old(sphere)
      ensures scene.staticMeshOpaque == old(scene.staticMeshOpaque) &&
              scene.staticMeshTranslucent == old(scene.staticMeshTranslucent)
      ensures scene.skybox == old(scene.skybox) && scene.cloud == old(scene.cloud)
    {
      if !hasValidResources {
        scene.panoramaSky := None;
        return;
      }
      var mainScene := scene.sceneProxySource == SceneProxies.MainScene;
      var proxy := SceneProxies.PanoramaSkyProxy(sphere, texture, lightingDirty && mainScene);
      if mainScene {
        lightingDirty := false;
      }
      scene.panoramaSky := Some(proxy);
    }

    /** The destructor releases the sphere. */
    method Destroy()
      modifies this
      ensures sphere == null && texture == old(texture) && lightingDirty == old(lightingDirty)
    {
      sphere := null;
    }
  }

  /** A new texture reaches the renderer dirty exactly once: a scene capture
      sees a clean proxy and leaves the flag set, the next main scene sees it
      dirty and clears it, and the main scene after that sees it clean. */
  method DirtyHandshake(sky: PanoramaSkyComponent, tex: nat)
    returns (capture: bool, first: bool, second: bool)
    requires sky.texture != Some(tex)
    modifies sky
    ensures !capture && first && !second
  {
    sky.SetTexture(Some(tex));
    var captureScene := new SceneProxies.SceneProxy(SceneProxies.SceneCapture);
    sky.CreateRenderProxy(captureScene, true);
    capture := captureScene.panoramaSky.value.lightingDirty;
    var mainScene := new SceneProxies.SceneProxy(SceneProxies.MainScene);
    sky.CreateRenderProxy(mainScene, true);
    first := mainScene.panoramaSky.value.lightingDirty;
    var nextScene := new SceneProxies.SceneProxy(SceneProxies.MainScene);
    sky.CreateRenderProxy(nextScene, true);
    second := nextScene.panoramaSky.value.lightingDirty;
  }
}
