/**
 * The per-frame scene description of pathos/render/scene_proxy.cpp as far as
 * the static mesh lists go: meshes are routed to the opaque or the
 * translucent list by their material's shading model, both lists are then
 * sorted by (program hash, material instance, wireframe) so that draws of
 * one program come together, and destruction empties every list. Proxies
 * are values carrying what the sort and the routing read from their
 * material; light and sky proxies are named by identifiers.
 */
module SceneProxies {
  import opened Wrappers
  import Sorting

  datatype SceneProxySource = MainScene | SceneCapture

  /** Only the translucent shading model matters to the routing. */
  datatype ShadingModel = Translucent | OtherShadingModel(code: nat)

  /** A static mesh proxy with the fields of its material the scene reads. */
  datatype StaticMeshProxy = StaticMeshProxy(
    id: nat,
    hasMaterialShader: bool,
    programHash: nat,
    instanceId: nat,
    wireframe: bool,
    shadingModel: ShadingModel)

  /** What `PanoramaSkyComponent::createRenderProxy` hands the renderer. */
  datatype PanoramaSkyProxy = PanoramaSkyProxy(sphere: object?, texture: Option<nat>, lightingDirty: bool)

  function WireframeKey(p: StaticMeshProxy): nat
  {
    if p.wireframe then 1 else 0
  }

  /** The comparator of `finalize_mainThread`: program hash first, then the
      material instance, then solid before wireframe. */
  predicate ProxyLess(a: StaticMeshProxy, b: StaticMeshProxy)
  {
    if a.programHash != b.programHash then a.programHash < b.programHash
    else if a.instanceId != b.instanceId then a.instanceId < b.instanceId
    else WireframeKey(a) < WireframeKey(b)
  }

  /** `a` may precede `b` in the sorted list: `b` is not less than `a`. */
  predicate ProxyLe(a: StaticMeshProxy, b: StaticMeshProxy)
  {
    !ProxyLess(b, a)
  }

  /** The comparator is a strict weak order, as `std::sort` demands, and
      "not less" is the lexicographic order on the three keys. */
  lemma ComparatorIsStrictWeakOrder()
    ensures forall a :: !ProxyLess(a, a)
    ensures forall a, b, c :: ProxyLess(a, b) && ProxyLess(b, c) ==> ProxyLess(a, c)
    ensures forall a, b :: ProxyLe(a, b) <==>
              (a.programHash < b.programHash ||
               (a.programHash == b.programHash &&
                (a.instanceId < b.instanceId ||
                 (a.instanceId == b.instanceId && WireframeKey(a) <= WireframeKey(b)))))
    ensures Sorting.TotalPreorder(ProxyLe)
  {
  }

  /** The `std::sort` of a mesh list with the proxy comparator. */
  method SortProxies(s: seq<StaticMeshProxy>) returns (r: seq<StaticMeshProxy>)
    ensures Sorting.Sorted(r, ProxyLe) && multiset(r) == multiset(s)
  {
    assert Sorting.TotalPreorder(ProxyLe) by {
      ComparatorIsStrictWeakOrder();
    }
    r := Sorting.SortBy(s, ProxyLe);
  }

  /** In a sorted list the meshes of one program are contiguous: nothing of
      another program sits between two meshes of the same program. */
  lemma SortedGroupsPrograms(s: seq<StaticMeshProxy>, i: nat, j: nat, k: nat)
    requires Sorting.Sorted(s, ProxyLe)
    requires i < j < k < |s| && s[i].programHash == s[k].programHash
    ensures s[j].programHash == s[i].programHash
  {
    assert ProxyLe(s[i], s[j]) && ProxyLe(s[j], s[k]);
  }

  /** Within one program, the meshes of one material instance are contiguous too. */
  lemma SortedGroupsInstances(s: seq<StaticMeshProxy>, i: nat, j: nat, k: nat)
    requires Sorting.Sorted(s, ProxyLe)
    requires i < j < k < |s| && s[i].programHash == s[k].programHash && s[i].instanceId == s[k].instanceId
    ensures s[j].programHash == s[i].programHash && s[j].instanceId == s[i].instanceId
  {
    assert ProxyLe(s[i], s[j]) && ProxyLe(s[j], s[k]);
  }

  /** The meshes of `ps` that `addStaticMeshProxy` puts on the translucent list, in order. */
  function TranslucentOf(ps: seq<StaticMeshProxy>): seq<StaticMeshProxy>
  {
    if ps == [] then []
    else
      var last := ps[|ps| - 1];
      TranslucentOf(ps[..|ps| - 1]) + (if last.hasMaterialShader && last.shadingModel == Translucent then [last] else [])
  }

  /** The meshes of `ps` that go on the opaque list, in order. */
  function OpaqueOf(ps: seq<StaticMeshProxy>): seq<StaticMeshProxy>
  {
    if ps == [] then []
    else
      var last := ps[|ps| - 1];
      OpaqueOf(ps[..|ps| - 1]) + (if last.hasMaterialShader && last.shadingModel != Translucent then [last] else [])
  }

  /** Only meshes with a material shader reach either list: the translucent
      shading model the translucent one, any other model the opaque one. */
  lemma {:induction false} RoutedMeshes(ps: seq<StaticMeshProxy>)
    ensures forall p :: p in TranslucentOf(ps) ==> p in ps && p.hasMaterialShader && p.shadingModel == Translucent
    ensures forall p :: p in OpaqueOf(ps) ==> p in ps && p.hasMaterialShader && p.shadingModel != Translucent
  {
    if ps != [] {
      var init := ps[..|ps| - 1];
      RoutedMeshes(init);
      assert forall p :: p in init ==> p in ps;
    }
  }

  /** The meshes with a material shader, in order. */
  function WithShader(ps: seq<StaticMeshProxy>): (r: seq<StaticMeshProxy>)
  {
    if ps == [] then []
    else
      var last := ps[|ps| - 1];
      WithShader(ps[..|ps| - 1]) + (if last.hasMaterialShader then [last] else [])
  }

  /** The two lists partition the meshes that have a shader; the rest are dropped. */
  lemma {:induction false} RoutingPartitions(ps: seq<StaticMeshProxy>)
    ensures multiset(OpaqueOf(ps)) + multiset(TranslucentOf(ps)) == multiset(WithShader(ps))
    ensures |OpaqueOf(ps)| + |TranslucentOf(ps)| <= |ps|
  {
    if ps != [] {
      RoutingPartitions(ps[..|ps| - 1]);
    }
  }

  class SceneProxy {
    const sceneProxySource: SceneProxySource
    var directionalLights: seq<nat>
    var pointLights: seq<nat>
    var rectLights: seq<nat>
    var shadowMeshes: seq<nat>
    var wireframeShadowMeshes: seq<nat>
    var staticMeshOpaque: seq<StaticMeshProxy>
    var staticMeshTranslucent: seq<StaticMeshProxy>
    var skybox: Option<nat>
    var cloud: Option<nat>
    var panoramaSky: Option<PanoramaSkyProxy>

    constructor (source: SceneProxySource)
      ensures sceneProxySource == source
      ensures directionalLights == pointLights == rectLights == shadowMeshes == wireframeShadowMeshes == []
      ensures staticMeshOpaque == staticMeshTranslucent == []
      ensures skybox == None && cloud == None && panoramaSky == None
    {
      sceneProxySource := source;
      directionalLights, pointLights, rectLights := [], [], [];
      shadowMeshes, wireframeShadowMeshes := [], [];
      staticMeshOpaque, staticMeshTranslucent := [], [];
      skybox, cloud, panoramaSky := None, None, None;
    }

    /** `addStaticMeshProxy`: a mesh whose material has no shader is dropped;
        a translucent one joins the translucent list, any other the opaque list. */
    method AddStaticMeshProxy(p: StaticMeshProxy)
      modifies this
      ensures staticMeshTranslucent == old(staticMeshTranslucent) +
                (if p.hasMaterialShader && p.shadingModel == Translucent then [p] else [])
      ensures staticMeshOpaque == old(staticMeshOpaque) +
                (if p.hasMaterialShader && p.shadingModel != Translucent then [p] else [])
      ensures directionalLights == old(directionalLights) && pointLights == old(pointLights)
      ensures rectLights == old(rectLights) && shadowMeshes == old(shadowMeshes)
      ensures wireframeShadowMeshes == old(wireframeShadowMeshes)
      ensures skybox == old(skybox) && cloud == old(cloud) && panoramaSky == old(panoramaSky)
    {
      if !p.hasMaterialShader {
        return;
      }
      if p.shadingModel == Translucent {
        staticMeshTranslucent := staticMeshTranslucent + [p];
      } else {
        staticMeshOpaque := staticMeshOpaque + [p];
      }
    }

    /** `finalize_mainThread`: both mesh lists become a sorted permutation of themselves. */
    method FinalizeMainThread()
      modifies this
      ensures Sorting.Sorted(staticMeshOpaque, ProxyLe) && multiset(staticMeshOpaque) == multiset(old(staticMeshOpaque))
      ensures Sorting.Sorted(staticMeshTranslucent, ProxyLe) &&
              multiset(staticMeshTranslucent) == multiset(old(staticMeshTranslucent))
      ensures directionalLights == old(directionalLights) && pointLights == old(pointLights)
      ensures rectLights == old(rectLights) && shadowMeshes == old(shadowMeshes)
      ensures wireframeShadowMeshes == old(wireframeShadowMeshes)
      ensures skybox == old(skybox) && cloud == old(cloud) && panoramaSky == old(panoramaSky)
    {
      staticMeshOpaque := SortProxies(staticMeshOpaque);
      staticMeshTranslucent := SortProxies(staticMeshTranslucent);
    }

    /** The destructor: every proxy list emptied, the skybox and cloud cleared. */
    method Destroy()
      modifies this
      ensures directionalLights == pointLights == rectLights == shadowMeshes == wireframeShadowMeshes == []
      ensures staticMeshOpaque == staticMeshTranslucent == []
      ensures skybox == None && cloud == None && panoramaSky == old(panoramaSky)
    {
      directionalLights, pointLights, rectLights := [], [], [];
      shadowMeshes, wireframeShadowMeshes := [], [];
      staticMeshOpaque, staticMeshTranslucent := [], [];
      skybox, cloud := None, None;
    }
  }

  /** Adding meshes one by one routes them by `OpaqueOf`/`TranslucentOf`. */
  method AddAll(scene: SceneProxy, ps: seq<StaticMeshProxy>)
    modifies scene
    ensures scene.staticMeshOpaque == old(scene.staticMeshOpaque) + OpaqueOf(ps)
    ensures scene.staticMeshTranslucent == old(scene.staticMeshTranslucent) + TranslucentOf(ps)
  {
    for i := 0 to |ps|
      invariant scene.staticMeshOpaque == old(scene.staticMeshOpaque) + OpaqueOf(ps[..i])
      invariant scene.staticMeshTranslucent == old(scene.staticMeshTranslucent) + TranslucentOf(ps[..i])
    {
      scene.AddStaticMeshProxy(ps[i]);
      assert ps[..i + 1][..i] == ps[..i];
    }
    assert ps[..|ps|] == ps;
  }

  /** A frame's meshes added to a fresh scene and finalized: the opaque list is
      a sorted permutation of the shaded non-translucent meshes, and likewise
      the translucent list. */
  method BuildFrame(ps: seq<StaticMeshProxy>) returns (opaqueList: seq<StaticMeshProxy>, translucentList: seq<StaticMeshProxy>)
    ensures Sorting.Sorted(opaqueList, ProxyLe) && multiset(opaqueList) == multiset(OpaqueOf(ps))
    ensures Sorting.Sorted(translucentList, ProxyLe) && multiset(translucentList) == multiset(TranslucentOf(ps))
    ensures multiset(opaqueList) + multiset(translucentList) == multiset(WithShader(ps))
  {
    var scene := new SceneProxy(MainScene);
    AddAll(scene, ps);
    scene.FinalizeMainThread();
    opaqueList, translucentList := scene.staticMeshOpaque, scene.staticMeshTranslucent;
    RoutingPartitions(ps);
  }
}
