/** Three-component vectors. Positions, directions and colours are floats
    in the engine; the model keeps them as integer triples. */
module Vectors {
  datatype Vec3 = Vec3(x: int, y: int, z: int)

  /** The components of each vector in turn, as the engine's flat float
      buffers lay them out for `glUniform3fv`. */
  function Triples(vs: seq<Vec3>): (r: seq<int>)
    ensures |r| == 3 * |vs|
  {
    if vs == [] then []
    else
      var v := vs[|vs| - 1];
      Triples(vs[..|vs| - 1]) + [v.x, v.y, v.z]
  }

  lemma TriplesSnoc(vs: seq<Vec3>, v: Vec3)
    ensures Triples(vs + [v]) == Triples(vs) + [v.x, v.y, v.z]
  {
    assert (vs + [v])[..|vs|] == vs;
  }

  /** Entries 3i, 3i+1 and 3i+2 of the buffer are the components of vector i. */
  lemma {:induction false} TriplesChunk(vs: seq<Vec3>, i: nat)
    requires i < |vs|
    ensures Triples(vs)[3 * i..3 * i + 3] == [vs[i].x, vs[i].y, vs[i].z]
  {
    var pre := vs[..|vs| - 1];
    if i < |vs| - 1 {
      TriplesChunk(pre, i);
      assert pre[i] == vs[i];
      assert Triples(vs)[3 * i..3 * i + 3] == Triples(pre)[3 * i..3 * i + 3];
    }
  }
}
