/**
 * The integer side of pathos/mesh/geometry_primitive.cpp: the map from
 * primitive options to vertex attributes, and the index buffers of the
 * plane, cube and sphere generators together with the sizes of their
 * attribute buffers. Vertex coordinates, texture coordinates and normals
 * are floating point and only their counts are modelled.
 */
module GeometryPrimitives {

  datatype InitOption = CalculatePosition | CalculateUV | CalculateNormal | CalculateTangentBasis

  datatype VertexAttribute = Position | Uv | Normal | Tangent | Bitangent

  /** `toVertexAttributes`: each calculated quantity becomes an attribute;
      the tangent basis is two attributes. */
  function ToVertexAttributes(options: set<InitOption>): (attributes: set<VertexAttribute>)
  {
    (if CalculatePosition in options then {Position} else {}) +
    (if CalculateUV in options then {Uv} else {}) +
    (if CalculateNormal in options then {Normal} else {}) +
    (if CalculateTangentBasis in options then {Tangent, Bitangent} else {})
  }

  /** Position, UV and normal follow their option one-to-one; tangent and
      bitangent come and go together with the tangent basis option. */
  lemma VertexAttributesSpec(options: set<InitOption>)
    ensures Position in ToVertexAttributes(options) <==> CalculatePosition in options
    ensures Uv in ToVertexAttributes(options) <==> CalculateUV in options
    ensures Normal in ToVertexAttributes(options) <==> CalculateNormal in options
    ensures Tangent in ToVertexAttributes(options) <==> CalculateTangentBasis in options
    ensures Bitangent in ToVertexAttributes(options) <==> Tangent in ToVertexAttributes(options)
    ensures ToVertexAttributes(options) == {} <==> options == {}
  {
    if options != {} {
      var o :| o in options;
      assert o.CalculatePosition? || o.CalculateUV? || o.CalculateNormal? || o.CalculateTangentBasis?;
    }
  }

  /** The two triangles of plane cell (i, j): the row of vertices starts at
      i·(gx+1), and the next row is gx+1 further on. */
  function PlaneQuad(gx: nat, i: nat, j: nat): (q: seq<nat>)
    ensures |q| == 6
  {
    var b := i * (gx + 1) + j;
    [b, b + 1, b + gx + 1, b + 1, b + gx + 2, b + gx + 1]
  }

  /** The indices of the first j cells of row i. */
  function PlaneRow(gx: nat, i: nat, j: nat): (r: seq<nat>)
    ensures |r| == 6 * j
  {
    if j == 0 then [] else PlaneRow(gx, i, j - 1) + PlaneQuad(gx, i, j - 1)
  }

  /** The indices of the first i rows of cells. */
  function PlaneRows(gx: nat, i: nat): (r: seq<nat>)
    ensures |r| == 6 * gx * i
  {
    if i == 0 then [] else PlaneRows(gx, i - 1) + PlaneRow(gx, i - 1, gx)
  }

  /** Cell (i, j) of a grid with gx columns refers to vertices of rows i and i+1 only. */
  lemma PlaneQuadBound(gx: nat, i: nat, j: nat)
    requires j < gx
    ensures forall t :: 0 <= t < 6 ==> i * (gx + 1) <= PlaneQuad(gx, i, j)[t] < (i + 2) * (gx + 1)
  {
  }

  lemma {:induction false} PlaneRowBound(gx: nat, i: nat, j: nat)
    requires j <= gx
    ensures forall x :: x in PlaneRow(gx, i, j) ==> x < (i + 2) * (gx + 1)
  {
    if j > 0 {
      PlaneRowBound(gx, i, j - 1);
      PlaneQuadBound(gx, i, j - 1);
    }
  }

  /** Every index of the first i rows names one of the (gx+1)(i+1) vertices they touch. */
  lemma {:induction false} PlaneRowsBound(gx: nat, i: nat)
    ensures forall x :: x in PlaneRows(gx, i) ==> x < (i + 1) * (gx + 1)
  {
    if i > 0 {
      PlaneRowsBound(gx, i - 1);
      PlaneRowBound(gx, i - 1, gx);
      assert (i - 1 + 1) * (gx + 1) <= (i + 1) * (gx + 1);
    }
  }

  /** The plane's index buffer names only its (gx+1)(gy+1) vertices. */
  lemma PlaneIndicesInRange(gx: nat, gy: nat)
    ensures forall x :: x in PlaneRows(gx, gy) ==> x < (gx + 1) * (gy + 1)
  {
    PlaneRowsBound(gx, gy);
  }

  /** Vertex (row, col) of a grid with gx cells per row: rows hold gx+1 vertices. */
  function GridVertex(gx: nat, row: nat, col: nat): nat
  {
    row * (gx + 1) + col
  }

  /** A cell's two triangles share the diagonal from its top-right to its
      bottom-left corner and together cover its four corners. */
  lemma PlaneQuadTriangles(gx: nat, i: nat, j: nat)
    requires j < gx
    ensures PlaneQuad(gx, i, j) == [GridVertex(gx, i, j), GridVertex(gx, i, j + 1), GridVertex(gx, i + 1, j),
                                    GridVertex(gx, i, j + 1), GridVertex(gx, i + 1, j + 1), GridVertex(gx, i + 1, j)]
  {
    assert (i + 1) * (gx + 1) == i * (gx + 1) + gx + 1;
  }

  /** Slots 6c..6c+5 of a row hold the two triangles of cell c. */
  lemma {:induction false} PlaneRowCells(gx: nat, i: nat, j: nat)
    ensures forall c :: 0 <= c < j ==> PlaneRow(gx, i, j)[6 * c..6 * c + 6] == PlaneQuad(gx, i, c)
  {
    if j > 0 {
      PlaneRowCells(gx, i, j - 1);
      var r, pre, q := PlaneRow(gx, i, j), PlaneRow(gx, i, j - 1), PlaneQuad(gx, i, j - 1);
      assert r == pre + q;
      forall c | 0 <= c < j
        ensures r[6 * c..6 * c + 6] == PlaneQuad(gx, i, c)
      {
        if c < j - 1 {
          assert r[6 * c..6 * c + 6] == pre[6 * c..6 * c + 6];
        } else {
          assert r[6 * c..6 * c + 6] == q;
        }
      }
    }
  }

  /** The counts `PlaneGeometry::generate` sizes its buffers with. */
  datatype BufferSizes = BufferSizes(positions: nat, uvs: nat, normals: nat, indices: nat)

  /** `PlaneGeometry::generate` on the index buffer: position must be
      requested; the buffers hold (gx+1)(gy+1) vertices and the index buffer
      two triangles for each of the gx·gy cells, row by row. */
  method GeneratePlane(gx: nat, gy: nat, options: set<InitOption>) returns (sizes: BufferSizes, indices: array<nat>)
    requires CalculatePosition in options
    ensures sizes.positions == 3 * ((gx + 1) * (gy + 1))
    ensures sizes.uvs == if CalculateUV in options then 2 * ((gx + 1) * (gy + 1)) else 0
    ensures sizes.normals == if CalculateNormal in options then 3 * ((gx + 1) * (gy + 1)) else 0
    ensures sizes.indices == indices.Length == 6 * gx * gy
    ensures indices[..] == PlaneRows(gx, gy)
  {
    var vertices := (gx + 1) * (gy + 1);
    sizes := BufferSizes(3 * vertices,
                         if CalculateUV in options then 2 * vertices else 0,
                         if CalculateNormal in options then 3 * vertices else 0,
                         6 * gx * gy);
    indices := new nat[6 * gx * gy];
    var k := 0;
    for i := 0 to gy
      invariant k == 6 * gx * i <= indices.Length
      invariant indices[..k] == PlaneRows(gx, i)
    {
      RowRoom(6 * gx, i, gy);
      WritePlaneRow(indices, k, gx, i);
      k := k + 6 * gx;
    }
    assert indices[..] == indices[..k];
  }

  /** One more row of w slots fits when fewer than n rows are written. */
  lemma RowRoom(w: nat, i: nat, n: nat)
    requires i < n
    ensures w * (i + 1) == w * i + w <= w * n
  {
  }

  /** The inner loop of `PlaneGeometry::generate`: the gx cells of row i, from slot k on. */
  method WritePlaneRow(a: array<nat>, k: nat, gx: nat, i: nat)
    requires k + 6 * gx <= a.Length
    modifies a
    ensures a[..k + 6 * gx] == old(a[..k]) + PlaneRow(gx, i, gx)
  {
    var baseY := i * (gx + 1);
    for j := 0 to gx
      invariant a[..k + 6 * j] == old(a[..k]) + PlaneRow(gx, i, j)
    {
      WriteQuad(a, k + 6 * j, baseY + j, gx);
      assert PlaneQuad(gx, i, j) == [baseY + j, baseY + j + 1, baseY + j + (gx + 1),
                                      baseY + j + 1, baseY + j + (gx + 1) + 1, baseY + j + (gx + 1)];
    }
  }

  /** The six stores of one plane cell at slot k. */
  method WriteQuad(a: array<nat>, k: nat, b: nat, gx: nat)
    requires k + 6 <= a.Length
    modifies a
    ensures a[..k] == old(a[..k])
    ensures a[..k + 6] == old(a[..k]) + [b, b + 1, b + (gx + 1), b + 1, b + (gx + 1) + 1, b + (gx + 1)]
  {
    a[k] := b;
    a[k + 1] := b + 1;
    a[k + 2] := b + (gx + 1);
    a[k + 3] := b + 1;
    a[k + 4] := b + (gx + 1) + 1;
    a[k + 5] := b + (gx + 1);
  }

  /** The corner table shared by both cube builders: two triangles per face, corners 0..7. */
  const CubeIndices: seq<nat> := [
    0, 2, 1, 0, 3, 2,
    4, 1, 5, 4, 0, 1,
    4, 3, 0, 4, 7, 3,
    3, 6, 2, 3, 7, 6,
    7, 5, 6, 7, 4, 5,
    1, 6, 5, 1, 2, 6]

  /** The smoothed cube: 12 triangles over the 8 shared corners, each corner used. */
  lemma CubeIndicesSpec()
    ensures |CubeIndices| == 36
    ensures forall i :: 0 <= i < 36 ==> CubeIndices[i] < 8
    ensures forall c :: 0 <= c < 8 ==> c in CubeIndices
  {
    assert CubeIndices[0] == 0 && CubeIndices[2] == 1 && CubeIndices[1] == 2 && CubeIndices[4] == 3;
    assert CubeIndices[6] == 4 && CubeIndices[8] == 5 && CubeIndices[19] == 6 && CubeIndices[16] == 7;
  }

  /** `buildGeometry_noSmoothing`: every triangle of the corner table gets
      three vertices of its own, so vertex v sits at corner CubeIndices[v],
      the index buffer is 0..35 in order, and each vertex has three position
      floats, two texture coordinates and three normal floats. */
  method CubeNoSmoothing() returns (corners: seq<nat>, indices: seq<nat>, sizes: BufferSizes)
    ensures corners == CubeIndices
    ensures |indices| == 36 && forall v :: 0 <= v < 36 ==> indices[v] == v
    ensures sizes == BufferSizes(108, 72, 108, 36)
  {
    corners, indices := [], [];
    var positions, uvs, normals := 0, 0, 0;
    var k := 0;
    for t := 0 to 12
      invariant k == 3 * t
      invariant corners == CubeIndices[..k]
      invariant |indices| == k && forall v :: 0 <= v < k ==> indices[v] == v
      invariant positions == 3 * k && uvs == 2 * k && normals == 3 * k
    {
      var triangle := CubeIndices[k..k + 3];
      corners := corners + triangle;
      assert CubeIndices[..k + 3] == CubeIndices[..k] + triangle;
      positions, uvs, normals := positions + 9, uvs + 6, normals + 9;
      indices := indices + [k, k + 1, k + 2];
      k := k + 3;
    }
    assert CubeIndices[..36] == CubeIndices;
    sizes := BufferSizes(positions, uvs, normals, |indices|);
  }

  /** The two triangles of sphere vertex k = i·d + j: with the next vertex of
      the row and the two below; the last column wraps "next" to the next
      row's first vertex and "next above" to the start of row i. */
  function SphereQuad(d: nat, i: nat, j: nat): (q: seq<nat>)
    requires j < d
    ensures |q| == 6
  {
    if j != d - 1 then InnerQuad(d, d * i + j) else SeamQuad(d, d * i + j)
  }

  /** Vertex k and its right neighbour, with the two below them. */
  function InnerQuad(d: nat, k: nat): (q: seq<nat>)
    ensures |q| == 6
  {
    [k, k + d, k + d + 1, k, k + d + 1, k + 1]
  }

  /** The last vertex k of a row: its right neighbour is taken as k+1, the
      first vertex of the next row, and the one above that as k+1-d. */
  function SeamQuad(d: nat, k: nat): (q: seq<nat>)
    requires k + 1 >= d
    ensures |q| == 6
  {
    [k, k + d, k + 1, k, k + 1, k + 1 - d]
  }

  function SphereRow(d: nat, i: nat, j: nat): (r: seq<nat>)
    requires j <= d
    ensures |r| == 6 * j
  {
    if j == 0 then [] else SphereRow(d, i, j - 1) + SphereQuad(d, i, j - 1)
  }

  function SphereRows(d: nat, i: nat): (r: seq<nat>)
    ensures |r| == 6 * d * i
  {
    if i == 0 then [] else SphereRows(d, i - 1) + SphereRow(d, i - 1, d)
  }

  /** The index slots of a d-division sphere: 2·d·(d-1) triangles. */
  function SphereIndexCount(d: nat): nat
  {
    if d == 0 then 0 else 6 * d * (d - 1)
  }

  /** A quad of row i < d-1 stays within rows i and i+1; the last column's
      wrap lands on the first vertex of row i. */
  lemma SphereQuadBound(d: nat, i: nat, j: nat)
    requires j < d
    ensures forall t :: 0 <= t < 6 ==> d * i <= SphereQuad(d, i, j)[t] < (i + 2) * d
    ensures j == d - 1 ==> SphereQuad(d, i, j)[5] == d * i
  {
  }

  lemma {:induction false} SphereRowBound(d: nat, i: nat, j: nat)
    requires j <= d
    ensures forall x :: x in SphereRow(d, i, j) ==> x < (i + 2) * d
  {
    if j > 0 {
      var pre, q := SphereRow(d, i, j - 1), SphereQuad(d, i, j - 1);
      assert SphereRow(d, i, j) == pre + q;
      SphereRowBound(d, i, j - 1);
      SphereQuadBound(d, i, j - 1);
      forall x | x in pre + q ensures x < (i + 2) * d {
        if x !in pre {
          var t :| 0 <= t < 6 && q[t] == x;
        }
      }
    }
  }

  lemma MulSucc(i: nat, d: nat)
    ensures (i + 1) * d == i * d + d
  {
  }

  /** The rows 0..d-2 that write indices name only the d² vertices. */
  lemma {:induction false} SphereRowsBound(d: nat, i: nat)
    ensures forall x :: x in SphereRows(d, i) ==> x < (i + 1) * d
  {
    if i > 0 {
      var pre, row := SphereRows(d, i - 1), SphereRow(d, i - 1, d);
      assert SphereRows(d, i) == pre + row;
      SphereRowsBound(d, i - 1);
      SphereRowBound(d, i - 1, d);
      assert i - 1 + 1 == i && i - 1 + 2 == i + 1;
      MulSucc(i, d);
      forall x | x in pre + row ensures x < (i + 1) * d {
        if x in pre {
          assert x < i * d;
        } else {
          assert x in row;
        }
      }
    }
  }

  /** The sphere's index buffer names only its d² vertices. */
  lemma SphereIndicesInRange(d: nat)
    requires d > 0
    ensures var r := SphereRows(d, d - 1); forall x :: x in r ==> x < d * d
  {
    SphereRowsBound(d, d - 1);
  }

  /** Slots 6j..6j+5 of row i hold the triangles of vertex i·d + j; for the
      last column the sixth index wraps to the row's first vertex. */
  lemma {:induction false} SphereRowCells(d: nat, i: nat, j: nat)
    requires j <= d
    ensures forall c :: 0 <= c < j ==> SphereRow(d, i, j)[6 * c..6 * c + 6] == SphereQuad(d, i, c)
  {
    forall c | 0 <= c < j ensures SphereRow(d, i, j)[6 * c..6 * c + 6] == SphereQuad(d, i, c) {
      SphereRowCell(d, i, j, c);
    }
  }

  lemma {:induction false} SphereRowCell(d: nat, i: nat, j: nat, c: nat)
    requires c < j <= d
    ensures SphereRow(d, i, j)[6 * c..6 * c + 6] == SphereQuad(d, i, c)
  {
    var pre, q := SphereRow(d, i, j - 1), SphereQuad(d, i, j - 1);
    assert SphereRow(d, i, j) == pre + q;
    ChunkOfAppend(pre, q, c);
    if c < j - 1 {
      SphereRowCell(d, i, j - 1, c);
    }
  }

  /** Appending six slots keeps an earlier chunk of six, and the new one is the appended six. */
  lemma ChunkOfAppend(pre: seq<nat>, q: seq<nat>, c: nat)
    requires 6 * c <= |pre| && |q| == 6
    ensures 6 * c < |pre| && 6 * c + 6 <= |pre| ==> (pre + q)[6 * c..6 * c + 6] == pre[6 * c..6 * c + 6]
    ensures 6 * c == |pre| ==> (pre + q)[6 * c..6 * c + 6] == q
  {
  }

  /** `SphereGeometry::generate` on the index buffer: d² vertices, and six
      slots for every vertex outside the last row, which writes none; those
      rows fill the buffer exactly. */
  method GenerateSphere(d: nat, options: set<InitOption>) returns (sizes: BufferSizes, indices: array<nat>)
    ensures sizes.positions == 3 * (d * d)
    ensures sizes.uvs == if CalculateUV in options then 2 * (d * d) else 0
    ensures sizes.normals == if CalculateNormal in options then 3 * (d * d) else 0
    ensures sizes.indices == indices.Length == SphereIndexCount(d)
    ensures d > 0 ==> indices[..] == SphereRows(d, d - 1)
  {
    var vertices := d * d;
    sizes := BufferSizes(3 * vertices,
                         if CalculateUV in options then 2 * vertices else 0,
                         if CalculateNormal in options then 3 * vertices else 0,
                         SphereIndexCount(d));
    indices := new nat[SphereIndexCount(d)];
    if d == 0 {
      return;
    }
    ghost var n := 6 * d * (d - 1);
    assert indices.Length == n;
    for i := 0 to d
      invariant i < d ==> 6 * d * i <= n
      invariant i < d ==> indices[..6 * d * i] == SphereRows(d, i)
      invariant i == d ==> indices[..] == SphereRows(d, d - 1)
    {
      if i != d - 1 {
        RowRoom(6 * d, i, d - 1);
        assert 6 * d * i == 6 * (d * i);
        WriteSphereRow(indices, d, i);
        assert SphereRows(d, i + 1) == SphereRows(d, i) + SphereRow(d, i, d);
      } else {
        assert indices[..] == indices[..n];
      }
    }
  }

  /** The inner loop of `SphereGeometry::generate` for a row i other than the
      last: vertex k = i·d + j writes its six indices at slot 6k. (The source
      runs the loop for the last row too, with every store skipped.) */
  method WriteSphereRow(a: array<nat>, d: nat, i: nat)
    requires i < d - 1 && 6 * (d * i) + 6 * d <= a.Length
    modifies a
    ensures a[..6 * (d * i) + 6 * d] == old(a[..6 * (d * i)]) + SphereRow(d, i, d)
  {
    var k := d * i;
    ghost var first := k;
    ghost var before := a[..6 * first];
    for j := 0 to d
      invariant k == first + j
      invariant a[..6 * k] == before + SphereRow(d, i, j)
    {
      assert 6 * k + 6 <= a.Length;
      WriteSphereQuad(a, 6 * k, SphereQuad(d, i, j));
      SphereRowAppend(before, d, i, j);
      k := k + 1;
    }
  }

  lemma SphereRowAppend(before: seq<nat>, d: nat, i: nat, j: nat)
    requires j < d
    ensures (before + SphereRow(d, i, j)) + SphereQuad(d, i, j) == before + SphereRow(d, i, j + 1)
  {
    assert SphereRow(d, i, j + 1) == SphereRow(d, i, j) + SphereQuad(d, i, j);
  }

  /** The six stores of one sphere vertex's triangles at slot k. */
  method WriteSphereQuad(a: array<nat>, k: nat, q: seq<nat>)
    requires |q| == 6 && k + 6 <= a.Length
    modifies a
    ensures a[..k + 6] == old(a[..k]) + q
  {
    a[k] := q[0];
    a[k + 1] := q[1];
    a[k + 2] := q[2];
    a[k + 3] := q[3];
    a[k + 4] := q[4];
    a[k + 5] := q[5];
    assert a[..k + 6] == a[..k] + q;
  }
}
