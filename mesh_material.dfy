/**
 * The legacy mesh material of pathos/mesh/material.cpp: an ordered list of
 * passes with an enabled flag each, the directional and point lights the
 * material is lit by, and the flat light buffers the passes upload. Lights
 * and passes are objects: the light lists hold references, and the
 * duplicate test compares references, as the engine's pointer search does.
 */
module MeshMaterials {
  import opened Vectors
  import Sequences

  class DirectionalLight {
    const direction: Vec3
    const color: Vec3

    constructor (direction: Vec3, color: Vec3)
      ensures this.direction == direction && this.color == color
    {
      this.direction := direction;
      this.color := color;
    }
  }

  class PointLight {
    const position: Vec3
    const color: Vec3

    constructor (position: Vec3, color: Vec3)
      ensures this.position == position && this.color == color
    {
      this.position := position;
      this.color := color;
    }
  }

  /** One pass: the material it belongs to, the geometry it draws and the
      shader code pieces its two compilers have collected. */
  class MeshMaterialPass {
    var material: MeshMaterial?
    var geometry: object?
    var vsCompiler: seq<string>
    var fsCompiler: seq<string>

    constructor ()
      ensures material == null && geometry == null && vsCompiler == [] && fsCompiler == []
    {
      material, geometry := null, null;
      vsCompiler, fsCompiler := [], [];
    }
  }

  /** The shader source lines a pass's own `updateProgram` writes into its
      cleared vertex and fragment compilers. */
  datatype PassProgram = PassProgram(vs: seq<string>, fs: seq<string>)

  /** No reference occurs twice. */
  predicate Distinct<T(==)>(s: seq<T>)
  {
    forall i, j :: 0 <= i < j < |s| ==> s[i] != s[j]
  }

  /** The light list after `addLight`: unchanged when the light is already
      there, otherwise with the light appended. */
  function WithLight<T(==)>(lights: seq<T>, light: T): (r: seq<T>)
  {
    if light in lights then lights else lights + [light]
  }

  /** Adding keeps the list free of duplicates, always ends with the light
      in it, and adds nothing else. */
  lemma WithLightSpec<T>(lights: seq<T>, light: T)
    requires Distinct(lights)
    ensures Distinct(WithLight(lights, light))
    ensures light in WithLight(lights, light)
    ensures forall l :: l in WithLight(lights, light) <==> l in lights || l == light
    ensures |WithLight(lights, light)| == |lights| + (if light in lights then 0 else 1)
  {
    if light !in lights {
      var r := lights + [light];
      forall i, j | 0 <= i < j < |r| ensures r[i] != r[j] {
        if j == |lights| {
          assert r[i] == lights[i];
        }
      }
    }
  }

  /** The directions of the directional lights, in list order. */
  function Directions(lights: seq<DirectionalLight>): seq<Vec3>
  {
    Sequences.Map(lights, (l: DirectionalLight) => l.direction)
  }

  function DirectionalColors(lights: seq<DirectionalLight>): seq<Vec3>
  {
    Sequences.Map(lights, (l: DirectionalLight) => l.color)
  }

  function Positions(lights: seq<PointLight>): seq<Vec3>
  {
    Sequences.Map(lights, (l: PointLight) => l.position)
  }

  function PointColors(lights: seq<PointLight>): seq<Vec3>
  {
    Sequences.Map(lights, (l: PointLight) => l.color)
  }

  /** Each light occupies three consecutive buffer entries holding its
      direction, and three of the colour buffer holding its colour. */
  lemma DirectionalBufferLayout(lights: seq<DirectionalLight>, i: nat)
    requires i < |lights|
    ensures |Triples(Directions(lights))| == |Triples(DirectionalColors(lights))| == 3 * |lights|
    ensures Triples(Directions(lights))[3 * i..3 * i + 3] ==
              [lights[i].direction.x, lights[i].direction.y, lights[i].direction.z]
    ensures Triples(DirectionalColors(lights))[3 * i..3 * i + 3] ==
              [lights[i].color.x, lights[i].color.y, lights[i].color.z]
  {
    TriplesChunk(Directions(lights), i);
    TriplesChunk(DirectionalColors(lights), i);
  }

  /** Likewise for point lights, with the position in place of the direction. */
  lemma PointBufferLayout(lights: seq<PointLight>, i: nat)
    requires i < |lights|
    ensures |Triples(Positions(lights))| == |Triples(PointColors(lights))| == 3 * |lights|
    ensures Triples(Positions(lights))[3 * i..3 * i + 3] ==
              [lights[i].position.x, lights[i].position.y, lights[i].position.z]
    ensures Triples(PointColors(lights))[3 * i..3 * i + 3] ==
              [lights[i].color.x, lights[i].color.y, lights[i].color.z]
  {
    TriplesChunk(Positions(lights), i);
    TriplesChunk(PointColors(lights), i);
  }

  /** One more directional light adds its direction and colour, as three entries each. */
  lemma DirectionalStep(lights: seq<DirectionalLight>, i: nat)
    requires i < |lights|
    ensures Triples(Directions(lights[..i + 1])) ==
              Triples(Directions(lights[..i])) + [lights[i].direction.x, lights[i].direction.y, lights[i].direction.z]
    ensures Triples(DirectionalColors(lights[..i + 1])) ==
              Triples(DirectionalColors(lights[..i])) + [lights[i].color.x, lights[i].color.y, lights[i].color.z]
  {
    assert lights[..i + 1][..i] == lights[..i];
    TriplesSnoc(Directions(lights[..i]), lights[i].direction);
    TriplesSnoc(DirectionalColors(lights[..i]), lights[i].color);
  }

  /** One more point light adds its position and colour, as three entries each. */
  lemma PointStep(lights: seq<PointLight>, i: nat)
    requires i < |lights|
    ensures Triples(Positions(lights[..i + 1])) ==
              Triples(Positions(lights[..i])) + [lights[i].position.x, lights[i].position.y, lights[i].position.z]
    ensures Triples(PointColors(lights[..i + 1])) ==
              Triples(PointColors(lights[..i])) + [lights[i].color.x, lights[i].color.y, lights[i].color.z]
  {
    assert lights[..i + 1][..i] == lights[..i];
    TriplesSnoc(Positions(lights[..i]), lights[i].position);
    TriplesSnoc(PointColors(lights[..i]), lights[i].color);
  }

  /** The loop of `updateDirectionalLightBuffer`: each light's direction and
      colour appended, three entries each. */
  method DirectionalBuffers(lights: seq<DirectionalLight>) returns (dirs: seq<int>, cols: seq<int>)
    ensures dirs == Triples(Directions(lights))
    ensures cols == Triples(DirectionalColors(lights))
  {
    dirs, cols := [], [];
    for i := 0 to |lights|
      invariant dirs == Triples(Directions(lights[..i]))
      invariant cols == Triples(DirectionalColors(lights[..i]))
    {
      DirectionalStep(lights, i);
      dirs := dirs + [lights[i].direction.x, lights[i].direction.y, lights[i].direction.z];
      cols := cols + [lights[i].color.x, lights[i].color.y, lights[i].color.z];
    }
    assert lights[..|lights|] == lights;
  }

  /** The loop of `updatePointLightBuffer`: each light's position and colour
      appended, three entries each. */
  method PointBuffers(lights: seq<PointLight>) returns (positions: seq<int>, cols: seq<int>)
    ensures positions == Triples(Positions(lights))
    ensures cols == Triples(PointColors(lights))
  {
    positions, cols := [], [];
    for i := 0 to |lights|
      invariant positions == Triples(Positions(lights[..i]))
      invariant cols == Triples(PointColors(lights[..i]))
    {
      PointStep(lights, i);
      positions := positions + [lights[i].position.x, lights[i].position.y, lights[i].position.z];
      cols := cols + [lights[i].color.x, lights[i].color.y, lights[i].color.z];
    }
    assert lights[..|lights|] == lights;
  }

  class MeshMaterial {
    var programDirty: bool
    var relatedGeometry: object?
    var directionalLights: seq<DirectionalLight>
    var pointLights: seq<PointLight>
    var passes: seq<MeshMaterialPass>
    var enabled: seq<bool>
    var dirLightDirections: seq<int>
    var dirLightColors: seq<int>
    var pointLightPositions: seq<int>
    var pointLightColors: seq<int>

    /** One flag per pass, and each light at most once. */
    ghost predicate Valid()
      reads this
    {
      |enabled| == |passes| && Distinct(directionalLights) && Distinct(pointLights)
    }

    constructor ()
      ensures Valid() && programDirty && relatedGeometry == null
      ensures passes == [] && enabled == [] && directionalLights == [] && pointLights == []
      ensures dirLightDirections == dirLightColors == pointLightPositions == pointLightColors == []
    {
      programDirty := true;
      relatedGeometry := null;
      directionalLights, pointLights := [], [];
      passes, enabled := [], [];
      dirLightDirections, dirLightColors := [], [];
      pointLightPositions, pointLightColors := [], [];
    }

    function NumPasses(): nat
      reads this
    {
      |passes|
    }

    function IsPassEnabled(index: int): bool
      requires Valid() && 0 <= index < NumPasses()
      reads this
    {
      enabled[index]
    }

    /** `addPass`: the pass goes last, enabled, and now belongs to this material. */
    method AddPass(pass: MeshMaterialPass)
      requires Valid()
      modifies this, pass
      ensures Valid()
      ensures passes == old(passes) + [pass] && enabled == old(enabled) + [true]
      ensures pass.material == this
      ensures directionalLights == old(directionalLights) && pointLights == old(pointLights)
      ensures programDirty == old(programDirty)
    {
      passes := passes + [pass];
      pass.material := this;
      enabled := enabled + [true];
    }

    /** `enablePass`: only that pass's flag changes. */
    method EnablePass(index: int)
      requires Valid() && 0 <= index < NumPasses()
      modifies this
      ensures Valid() && enabled == old(enabled)[index := true] && passes == old(passes)
      ensures directionalLights == old(directionalLights) && pointLights == old(pointLights)
      ensures programDirty == old(programDirty)
    {
      enabled := enabled[index := true];
    }

    /** `disablePass`: only that pass's flag changes. */
    method DisablePass(index: int)
      requires Valid() && 0 <= index < NumPasses()
      modifies this
      ensures Valid() && enabled == old(enabled)[index := false] && passes == old(passes)
      ensures directionalLights == old(directionalLights) && pointLights == old(pointLights)
      ensures programDirty == old(programDirty)
    {
      enabled := enabled[index := false];
    }

    /** `addLight` for a directional light: a light already applied changes
        nothing; a new one is appended and the program marked dirty. */
    method AddDirectionalLight(light: DirectionalLight)
      requires Valid()
      modifies this
      ensures Valid() && directionalLights == WithLight(old(directionalLights), light)
      ensures light in old(directionalLights) ==> programDirty == old(programDirty)
      ensures light !in old(directionalLights) ==> programDirty
      ensures pointLights == old(pointLights) && passes == old(passes) && enabled == old(enabled)
    {
      WithLightSpec(directionalLights, light);
      if light in directionalLights {
        return;
      }
      directionalLights := directionalLights + [light];
      programDirty := true;
    }

    /** `addLight` for a point light, likewise. */
    method AddPointLight(light: PointLight)
      requires Valid()
      modifies this
      ensures Valid() && pointLights == WithLight(old(pointLights), light)
      ensures light in old(pointLights) ==> programDirty == old(programDirty)
      ensures light !in old(pointLights) ==> programDirty
      ensures directionalLights == old(directionalLights) && passes == old(passes) && enabled == old(enabled)
    {
      WithLightSpec(pointLights, light);
      if light in pointLights {
        return;
      }
      pointLights := pointLights + [light];
      programDirty := true;
    }

    /** `updateDirectionalLightBuffer`: both buffers rebuilt from the lights,
        three entries per light. */
    method UpdateDirectionalLightBuffer()
      modifies this
      ensures dirLightDirections == Triples(Directions(directionalLights))
      ensures dirLightColors == Triples(DirectionalColors(directionalLights))
      ensures directionalLights == old(directionalLights) && pointLights == old(pointLights)
      ensures passes == old(passes) && enabled == old(enabled) && programDirty == old(programDirty)
      ensures relatedGeometry == old(relatedGeometry)
      ensures pointLightPositions == old(pointLightPositions) && pointLightColors == old(pointLightColors)
    {
      var dirs, cols := DirectionalBuffers(directionalLights);
      dirLightDirections, dirLightColors := dirs, cols;
    }

    /** `updatePointLightBuffer`: both buffers rebuilt from the lights,
        three entries per light. */
    method UpdatePointLightBuffer()
      modifies this
      ensures pointLightPositions == Triples(Positions(pointLights))
      ensures pointLightColors == Triples(PointColors(pointLights))
      ensures directionalLights == old(directionalLights) && pointLights == old(pointLights)
      ensures passes == old(passes) && enabled == old(enabled) && programDirty == old(programDirty)
      ensures relatedGeometry == old(relatedGeometry)
      ensures dirLightDirections == old(dirLightDirections) && dirLightColors == old(dirLightColors)
    {
      var positions, cols := PointBuffers(pointLights);
      pointLightPositions, pointLightColors := positions, cols;
    }

    /** `updateProgram`: nothing happens unless the program is dirty; then
        every pass has its compilers cleared, is tied to this material and
        regenerates its shader source, which `generated` gives per pass; both
        light buffers are rebuilt and the flag is cleared. */
    method UpdateProgram(generated: map<MeshMaterialPass, PassProgram>)
      requires Valid()
      requires forall p :: p in passes ==> p in generated
      modifies this, passes
      ensures Valid() && !programDirty
      ensures passes == old(passes) && enabled == old(enabled)
      ensures directionalLights == old(directionalLights) && pointLights == old(pointLights)
      ensures relatedGeometry == old(relatedGeometry)
      ensures !old(programDirty) ==>
                dirLightDirections == old(dirLightDirections) && dirLightColors == old(dirLightColors) &&
                pointLightPositions == old(pointLightPositions) && pointLightColors == old(pointLightColors) &&
                forall p :: p in passes ==> unchanged(p)
      ensures old(programDirty) ==>
                (forall p :: p in passes ==>
                   p.material == this && p.geometry == old(p.geometry) &&
                   p.vsCompiler == generated[p].vs && p.fsCompiler == generated[p].fs) &&
                dirLightDirections == Triples(Directions(directionalLights)) &&
                dirLightColors == Triples(DirectionalColors(directionalLights)) &&
                pointLightPositions == Triples(Positions(pointLights)) &&
                pointLightColors == Triples(PointColors(pointLights))
    {
      if !programDirty {
        return;
      }
      RegeneratePasses(passes, generated);
      UpdateDirectionalLightBuffer();
      UpdatePointLightBuffer();
      programDirty := false;
    }

    /** The pass loop of `updateProgram`: each pass clears its compilers,
        takes this material and writes the source `generated` gives it. */
    method RegeneratePasses(ps: seq<MeshMaterialPass>, generated: map<MeshMaterialPass, PassProgram>)
      requires forall p :: p in ps ==> p in generated
      modifies ps
      ensures forall p :: p in ps ==>
                p.material == this && p.geometry == old(p.geometry) &&
                p.vsCompiler == generated[p].vs && p.fsCompiler == generated[p].fs
    {
      for i := 0 to |ps|
        invariant forall p :: p in ps ==> p.geometry == old(p.geometry)
        invariant forall k :: 0 <= k < i ==>
                    ps[k].material == this &&
                    ps[k].vsCompiler == generated[ps[k]].vs && ps[k].fsCompiler == generated[ps[k]].fs
      {
        ps[i].vsCompiler, ps[i].fsCompiler := [], [];
        ps[i].material := this;
        ps[i].vsCompiler, ps[i].fsCompiler := generated[ps[i]].vs, generated[ps[i]].fs;
      }
      assert forall p :: p in ps ==> exists k :: 0 <= k < |ps| && ps[k] == p;
    }

    /** `setGeometry`: the material and every pass now draw `related`. */
    method SetGeometry(related: object?)
      modifies this, passes
      ensures relatedGeometry == related && passes == old(passes)
      ensures forall p :: p in passes ==> p.geometry == related
      ensures enabled == old(enabled) && programDirty == old(programDirty)
      ensures directionalLights == old(directionalLights) && pointLights == old(pointLights)
      ensures dirLightDirections == old(dirLightDirections) && dirLightColors == old(dirLightColors)
      ensures pointLightPositions == old(pointLightPositions) && pointLightColors == old(pointLightColors)
      ensures forall p :: p in passes ==>
                p.material == old(p.material) && p.vsCompiler == old(p.vsCompiler) && p.fsCompiler == old(p.fsCompiler)
    {
      relatedGeometry := related;
      var ps := passes;
      for i := 0 to |ps|
        invariant passes == ps && relatedGeometry == related
        invariant enabled == old(enabled) && programDirty == old(programDirty)
        invariant directionalLights == old(directionalLights) && pointLights == old(pointLights)
        invariant dirLightDirections == old(dirLightDirections) && dirLightColors == old(dirLightColors)
        invariant pointLightPositions == old(pointLightPositions) && pointLightColors == old(pointLightColors)
        invariant forall p :: p in ps ==>
                    p.material == old(p.material) && p.vsCompiler == old(p.vsCompiler) && p.fsCompiler == old(p.fsCompiler)
        invariant forall k :: 0 <= k < i ==> ps[k].geometry == related
      {
        ps[i].geometry := related;
      }
    }
  }
}
