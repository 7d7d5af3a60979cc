/**
 * Render targets of pathos/render/render_target.cpp: the table from a
 * render target format to its GL internal format, the colour/depth
 * classification, and the 2D and cube targets whose `respecTexture`
 * validates the size, drops the old texture and records the new size,
 * format and mip count. The GL work each call enqueues on the render
 * thread is returned as a list of commands; a render-thread step that
 * creates the textures is a separate method that receives the names.
 */
module RenderTargets {
  import opened Wrappers

  datatype RenderTargetFormat =
    | RGBA16F | RGBA16I | RGBA16UI
    | RGBA32F | RGBA32I | RGBA32UI
    | DEPTH16F | DEPTH24F | DEPTH32F

  /** GL enumerant values, as the OpenGL 4.6 core profile header defines them. */
  const GL_RGBA32F: nat := 0x8814
  const GL_RGBA16F: nat := 0x881A
  const GL_RGBA32UI: nat := 0x8D70
  const GL_RGBA16UI: nat := 0x8D76
  const GL_RGBA32I: nat := 0x8D82
  const GL_RGBA16I: nat := 0x8D88
  const GL_DEPTH_COMPONENT16: nat := 0x81A5
  const GL_DEPTH_COMPONENT24: nat := 0x81A6
  const GL_DEPTH_COMPONENT32F: nat := 0x8CAC

  /** `RENDER_TARGET_FORMAT_TO_GL_FORMAT`. The enumeration is covered, so the
      missing-case branch cannot be reached. */
  function ToGLFormat(f: RenderTargetFormat): nat
  {
    match f
    case RGBA16F => GL_RGBA16F
    case RGBA16I => GL_RGBA16I
    case RGBA16UI => GL_RGBA16UI
    case RGBA32F => GL_RGBA32F
    case RGBA32I => GL_RGBA32I
    case RGBA32UI => GL_RGBA32UI
    case DEPTH16F => GL_DEPTH_COMPONENT16
    case DEPTH24F => GL_DEPTH_COMPONENT24
    case DEPTH32F => GL_DEPTH_COMPONENT32F
  }

  /** The render target format a GL internal format came from, if any. */
  function FromGLFormat(gl: nat): (r: Option<RenderTargetFormat>)
  {
    if gl == GL_RGBA16F then Some(RGBA16F)
    else if gl == GL_RGBA16I then Some(RGBA16I)
    else if gl == GL_RGBA16UI then Some(RGBA16UI)
    else if gl == GL_RGBA32F then Some(RGBA32F)
    else if gl == GL_RGBA32I then Some(RGBA32I)
    else if gl == GL_RGBA32UI then Some(RGBA32UI)
    else if gl == GL_DEPTH_COMPONENT16 then Some(DEPTH16F)
    else if gl == GL_DEPTH_COMPONENT24 then Some(DEPTH24F)
    else if gl == GL_DEPTH_COMPONENT32F then Some(DEPTH32F)
    else None
  }

  /** The table is one-to-one: every format comes back from its GL constant,
      so no two formats share one. */
  lemma GLFormatRoundTrip(f: RenderTargetFormat, g: RenderTargetFormat)
    ensures FromGLFormat(ToGLFormat(f)) == Some(f)
    ensures ToGLFormat(f) == ToGLFormat(g) ==> f == g
  {
  }

  function IsColorFormat(f: RenderTargetFormat): bool
  {
    match f
    case RGBA16F | RGBA16I | RGBA16UI | RGBA32F | RGBA32I | RGBA32UI => true
    case DEPTH16F | DEPTH24F | DEPTH32F => false
  }

  function IsDepthFormat(f: RenderTargetFormat): bool
  {
    match f
    case RGBA16F | RGBA16I | RGBA16UI | RGBA32F | RGBA32I | RGBA32UI => false
    case DEPTH16F | DEPTH24F | DEPTH32F => true
  }

  /** Every format is exactly one of colour and depth, and the depth formats
      are the ones whose GL constant is a depth component. */
  lemma ColorDepthComplement(f: RenderTargetFormat)
    ensures IsColorFormat(f) != IsDepthFormat(f)
    ensures IsDepthFormat(f) <==> ToGLFormat(f) in {GL_DEPTH_COMPONENT16, GL_DEPTH_COMPONENT24, GL_DEPTH_COMPONENT32F}
  {
  }

  /** floor(log2 w) for w >= 1. */
  function Log2Floor(w: nat): (r: nat)
    requires w >= 1
    decreases w
  {
    if w == 1 then 0 else 1 + Log2Floor(w / 2)
  }

  function Pow2(n: nat): (r: nat)
    ensures r >= 1
  {
    if n == 0 then 1 else 2 * Pow2(n - 1)
  }

  /** The full mip chain of a w-wide texture: halving w down to one texel
      takes Log2Floor(w) steps, so 2^Log2Floor(w) <= w < 2^(Log2Floor(w)+1). */
  lemma {:induction false} Log2FloorBounds(w: nat)
    requires w >= 1
    ensures Pow2(Log2Floor(w)) <= w < Pow2(Log2Floor(w) + 1)
    decreases w
  {
    if w > 1 {
      Log2FloorBounds(w / 2);
    }
  }

  /** `numMips`: the whole chain floor(log2 w)+1 when 0 is requested,
      otherwise the request capped at the whole chain. */
  function NumMips(requested: nat, width: nat): (r: nat)
    requires width >= 1
    ensures 1 <= r <= Log2Floor(width) + 1
    ensures requested == 0 ==> r == Log2Floor(width) + 1
    ensures requested != 0 ==> r == if requested < Log2Floor(width) + 1 then requested else Log2Floor(width) + 1
  {
    var fullMips := Log2Floor(width) + 1;
    if requested == 0 then fullMips else if requested < fullMips then requested else fullMips
  }

  /** The GL work a call enqueues on the render thread. */
  datatype TextureCommand =
    | DeleteTextures(names: seq<nat>)
    | CreateTexture2D(glFormat: nat, width: nat, height: nat)
    | CreateTextureCube(glFormat: nat, width: nat, numMips: nat)
    | TextureView(glFormat: nat, layer: nat)

  /** The deletions `destroyResources` queues for a cube and its views: none
      when there is no cube. */
  function DestroyCommands(cube: nat, views: seq<nat>): seq<TextureCommand>
  {
    if cube != 0 then [DeleteTextures([cube]), DeleteTextures(views)] else []
  }

  /** Face views 0 to n-1 of the new cube, one per layer. */
  function FaceViews(glFormat: nat, n: nat): (r: seq<TextureCommand>)
    ensures |r| == n
    ensures forall i :: 0 <= i < n ==> r[i] == TextureView(glFormat, i)
  {
    if n == 0 then [] else FaceViews(glFormat, n - 1) + [TextureView(glFormat, n - 1)]
  }

  /** What the render-thread part of `respecTexture` does: create the cube
      with its storage, then one 2D view per face. */
  function CreateCommands(glFormat: nat, width: nat, numMips: nat): seq<TextureCommand>
  {
    [CreateTextureCube(glFormat, width, numMips)] + FaceViews(glFormat, 6)
  }

  /** The render-thread part of `respecTexture`: the cube with its storage,
      then the loop that makes one 2D view per face. */
  method EnqueueCreation(glFormat: nat, width: nat, numMips: nat) returns (cmds: seq<TextureCommand>)
    ensures cmds == CreateCommands(glFormat, width, numMips)
  {
    cmds := [CreateTextureCube(glFormat, width, numMips)];
    for i := 0 to 6
      invariant cmds == [CreateTextureCube(glFormat, width, numMips)] + FaceViews(glFormat, i)
    {
      cmds := cmds + [TextureView(glFormat, i)];
    }
  }

  class RenderTarget2D {
    var width: nat
    var height: nat
    var format: RenderTargetFormat
    var glTextureObject: nat

    constructor ()
      ensures width == 0 && height == 0 && glTextureObject == 0
    {
      width, height, format, glTextureObject := 0, 0, RGBA16F, 0;
    }

    /** `destroyResource`: a live texture is queued for deletion and the handle zeroed. */
    method DestroyResource() returns (cmds: seq<TextureCommand>)
      modifies this
      ensures glTextureObject == 0
      ensures cmds == if old(glTextureObject) != 0 then [DeleteTextures([old(glTextureObject)])] else []
      ensures width == old(width) && height == old(height) && format == old(format)
    {
      cmds := [];
      if glTextureObject != 0 {
        cmds := [DeleteTextures([glTextureObject])];
        glTextureObject := 0;
      }
    }

    /** `respecTexture`: a zero width or height is rejected with nothing
        changed; otherwise the old texture goes and a new one of the given
        size and format is queued. */
    method RespecTexture(w: nat, h: nat, f: RenderTargetFormat) returns (cmds: seq<TextureCommand>)
      modifies this
      ensures (w == 0 || h == 0) ==>
                (cmds == [] && width == old(width) && height == old(height) && format == old(format) &&
                 glTextureObject == old(glTextureObject))
      ensures w != 0 && h != 0 ==> width == w && height == h && format == f && glTextureObject == 0
      ensures w != 0 && h != 0 ==>
        cmds == (if old(glTextureObject) != 0 then [DeleteTextures([old(glTextureObject)])] else []) +
                [CreateTexture2D(ToGLFormat(f), w, h)]
    {
      if w == 0 || h == 0 {
        return [];
      }
      cmds := DestroyResource();
      width, height, format := w, h, f;
      cmds := cmds + [CreateTexture2D(ToGLFormat(format), w, h)];
    }

    /** The render thread's `createTextures` writing the new name into the handle. */
    method TextureCreated(name: nat)
      modifies this
      ensures glTextureObject == name
      ensures width == old(width) && height == old(height) && format == old(format)
    {
      glTextureObject := name;
    }

    predicate IsTextureValid()
      reads this
    {
      glTextureObject != 0 && width != 0 && height != 0
    }
  }

  class RenderTargetCube {
    var width: nat
    var format: RenderTargetFormat
    var numMips: nat
    var glTextureObject: nat
    const glTextureViews: array<nat>

    ghost predicate Valid()
      reads this
    {
      glTextureViews.Length == 6
    }

    constructor ()
      ensures Valid() && width == 0 && glTextureObject == 0 && fresh(glTextureViews)
      ensures glTextureViews[..] == [0, 0, 0, 0, 0, 0]
    {
      width, format, numMips, glTextureObject := 0, RGBA16F, 0, 0;
      glTextureViews := new nat[6](_ => 0);
    }

    /** The `memset` of the six view handles. */
    method ZeroViews()
      requires Valid()
      modifies glTextureViews
      ensures glTextureViews[..] == [0, 0, 0, 0, 0, 0]
    {
      for i := 0 to 6
        invariant forall j :: 0 <= j < i ==> glTextureViews[j] == 0
      {
        glTextureViews[i] := 0;
      }
      assert glTextureViews[..] == [0, 0, 0, 0, 0, 0];
    }

    /** `destroyResources` as written: the deletion captures the cube name by
        value but the view handles through a pointer to the member array,
        which is zeroed right after the command is enqueued. On the render
        thread the command runs inside the enqueue, before the zeroing; on
        any other thread it runs later and reads six zero names. */
    method DestroyResourcesAsWritten(onRenderThread: bool) returns (cmds: seq<TextureCommand>)
      requires Valid()
      modifies this, glTextureViews
      ensures Valid()
      ensures old(glTextureObject) != 0 && onRenderThread ==>
                cmds == DestroyCommands(old(glTextureObject), old(glTextureViews[..]))
      ensures old(glTextureObject) != 0 && !onRenderThread ==>
                cmds == DestroyCommands(old(glTextureObject), [0, 0, 0, 0, 0, 0])
      ensures old(glTextureObject) != 0 ==> glTextureObject == 0 && glTextureViews[..] == [0, 0, 0, 0, 0, 0]
      ensures old(glTextureObject) == 0 ==> cmds == [] && glTextureObject == 0 && glTextureViews[..] == old(glTextureViews[..])
      ensures width == old(width) && format == old(format) && numMips == old(numMips)
    {
      cmds := [];
      if glTextureObject != 0 {
        var cube := glTextureObject;
        if onRenderThread {
          cmds := [DeleteTextures([cube]), DeleteTextures(glTextureViews[..])];
        }
        glTextureObject := 0;
        ZeroViews();
        if !onRenderThread {
          cmds := [DeleteTextures([cube]), DeleteTextures(glTextureViews[..])];
        }
      }
    }

    /** `destroyResources` with the view names captured by value: the cube
        texture and its six face views are queued for deletion under the
        names they had, and every handle is zeroed. */
    method DestroyResources() returns (cmds: seq<TextureCommand>)
      requires Valid()
      modifies this, glTextureViews
      ensures Valid()
      ensures cmds == DestroyCommands(old(glTextureObject), old(glTextureViews[..]))
      ensures old(glTextureObject) != 0 ==> glTextureObject == 0 && glTextureViews[..] == [0, 0, 0, 0, 0, 0]
      ensures old(glTextureObject) == 0 ==> glTextureObject == 0 && glTextureViews[..] == old(glTextureViews[..])
      ensures width == old(width) && format == old(format) && numMips == old(numMips)
    {
      cmds := [];
      if glTextureObject != 0 {
        cmds := [DeleteTextures([glTextureObject]), DeleteTextures(glTextureViews[..])];
        glTextureObject := 0;
        ZeroViews();
      }
    }

    /** The part of `respecTexture` after the old textures are gone: the new
        size, format and mip count are recorded and the new cube and its six
        face views are queued. */
    method Respecify(w: nat, f: RenderTargetFormat, requestedMips: nat) returns (create: seq<TextureCommand>)
      requires Valid() && w != 0
      modifies this
      ensures Valid()
      ensures width == w && format == f && numMips == NumMips(requestedMips, w)
      ensures glTextureObject == old(glTextureObject)
      ensures create == CreateCommands(ToGLFormat(f), w, NumMips(requestedMips, w))
    {
      width, format := w, f;
      var fullMips := Log2Floor(width) + 1;
      numMips := if requestedMips == 0 then fullMips else if requestedMips < fullMips then requestedMips else fullMips;
      create := EnqueueCreation(ToGLFormat(format), w, numMips);
    }

    /** `respecTexture` as written: a zero width is rejected with nothing
        changed; otherwise `destroyResources` as written runs first, so off
        the render thread the old views are queued for deletion under six
        zero names. Until the render thread names the new textures, the
        handles stay zero. */
    method RespecTextureAsWritten(w: nat, f: RenderTargetFormat, requestedMips: nat, onRenderThread: bool)
      returns (cmds: seq<TextureCommand>)
      requires Valid()
      modifies this, glTextureViews
      ensures Valid()
      ensures w == 0 ==>
                (cmds == [] && width == old(width) && format == old(format) && numMips == old(numMips) &&
                 glTextureObject == old(glTextureObject) && glTextureViews[..] == old(glTextureViews[..]))
      ensures w != 0 ==> width == w && format == f && numMips == NumMips(requestedMips, w) && glTextureObject == 0
      ensures w != 0 ==>
                cmds == DestroyCommands(old(glTextureObject), if onRenderThread then old(glTextureViews[..]) else [0, 0, 0, 0, 0, 0]) +
                        CreateCommands(ToGLFormat(f), w, NumMips(requestedMips, w))
      ensures w != 0 && old(glTextureObject) != 0 ==> glTextureViews[..] == [0, 0, 0, 0, 0, 0]
      ensures w != 0 && old(glTextureObject) == 0 ==> glTextureViews[..] == old(glTextureViews[..])
    {
      if w == 0 {
        return [];
      }
      cmds := DestroyResourcesAsWritten(onRenderThread);
      var create := Respecify(w, f, requestedMips);
      cmds := cmds + create;
    }

    /** `respecTexture` over the corrected `destroyResources`: the old cube
        and views are queued for deletion under the names they had, on any
        thread. */
    method RespecTexture(w: nat, f: RenderTargetFormat, requestedMips: nat) returns (cmds: seq<TextureCommand>)
      requires Valid()
      modifies this, glTextureViews
      ensures Valid()
      ensures w == 0 ==>
                (cmds == [] && width == old(width) && format == old(format) && numMips == old(numMips) &&
                 glTextureObject == old(glTextureObject) && glTextureViews[..] == old(glTextureViews[..]))
      ensures w != 0 ==> width == w && format == f && numMips == NumMips(requestedMips, w) && glTextureObject == 0
      ensures w != 0 ==>
                cmds == DestroyCommands(old(glTextureObject), old(glTextureViews[..])) +
                        CreateCommands(ToGLFormat(f), w, NumMips(requestedMips, w))
      ensures w != 0 && old(glTextureObject) != 0 ==> glTextureViews[..] == [0, 0, 0, 0, 0, 0]
      ensures w != 0 && old(glTextureObject) == 0 ==> glTextureViews[..] == old(glTextureViews[..])
    {
      if w == 0 {
        return [];
      }
      cmds := DestroyResources();
      var create := Respecify(w, f, requestedMips);
      cmds := cmds + create;
    }

    /** The render thread's `createTextures` and `genTextures` writing the cube
        and its six view names into the handles. */
    method TexturesCreated(cube: nat, views: seq<nat>)
      requires Valid() && |views| == 6
      modifies this, glTextureViews
      ensures glTextureObject == cube && glTextureViews[..] == views
      ensures width == old(width) && format == old(format) && numMips == old(numMips)
    {
      glTextureObject := cube;
      for i := 0 to 6
        invariant forall j :: 0 <= j < i ==> glTextureViews[j] == views[j]
        modifies glTextureViews
      {
        glTextureViews[i] := views[i];
      }
    }

    /** `getRenderTargetView`: one view per face; the face index must be below 6. */
    function GetRenderTargetView(faceIndex: nat): (v: RenderTargetView)
      requires faceIndex < 6
      ensures v.OfCube? && v.cube == this && v.layer == faceIndex
    {
      OfCube(this, faceIndex)
    }

    predicate IsTextureValid()
      reads this
    {
      glTextureObject != 0 && width != 0
    }
  }

  /** Whether some queued deletion names texture `name`. */
  predicate Deleted(cmds: seq<TextureCommand>, name: nat)
  {
    exists k :: 0 <= k < |cmds| && cmds[k].DeleteTextures? && name in cmds[k].names
  }

  /** As written, `destroyResources` called off the render thread leaks the
      six face views once the render thread has named them: the deferred
      deletion reads the zeroed handles, so no deletion names any view. */
  method DeferredDestroyLeaksViews(c: RenderTargetCube, cube: nat, views: seq<nat>) returns (cmds: seq<TextureCommand>)
    requires c.Valid() && cube != 0 && |views| == 6
    requires forall i :: 0 <= i < 6 ==> views[i] != 0 && views[i] != cube
    modifies c, c.glTextureViews
    ensures forall i :: 0 <= i < 6 ==> !Deleted(cmds, views[i])
    ensures Deleted(cmds, cube)
  {
    c.TexturesCreated(cube, views);
    cmds := c.DestroyResourcesAsWritten(false);
    assert cmds == [DeleteTextures([cube]), DeleteTextures([0, 0, 0, 0, 0, 0])];
    assert cmds[0].names == [cube];
  }

  /** As written, a respecification made off the render thread leaks the
      face views of the cube it replaces: its deletions name the old cube but
      none of the old views. */
  method DeferredRespecLeaksViews(c: RenderTargetCube, w: nat, f: RenderTargetFormat, cube: nat, views: seq<nat>)
    returns (cmds: seq<TextureCommand>)
    requires c.Valid() && w != 0 && cube != 0 && |views| == 6
    requires forall i :: 0 <= i < 6 ==> views[i] != 0 && views[i] != cube
    modifies c, c.glTextureViews
    ensures forall i :: 0 <= i < 6 ==> !Deleted(cmds, views[i])
    ensures Deleted(cmds, cube)
  {
    c.TexturesCreated(cube, views);
    cmds := c.RespecTextureAsWritten(w, f, 0, false);
    assert cmds[0] == DeleteTextures([cube]) && cmds[1] == DeleteTextures([0, 0, 0, 0, 0, 0]);
    assert forall k :: 2 <= k < |cmds| ==> !cmds[k].DeleteTextures?;
    assert cmds[0].names == [cube];
  }

  /** With the views captured by value, a cube whose textures the render
      thread has named queues the deletion of the cube and of every face view. */
  method DestroyDeletesViews(c: RenderTargetCube, cube: nat, views: seq<nat>) returns (cmds: seq<TextureCommand>)
    requires c.Valid() && cube != 0 && |views| == 6
    modifies c, c.glTextureViews
    ensures forall i :: 0 <= i < 6 ==> Deleted(cmds, views[i])
    ensures Deleted(cmds, cube)
  {
    c.TexturesCreated(cube, views);
    cmds := c.DestroyResources();
    assert cmds == [DeleteTextures([cube]), DeleteTextures(views)];
    assert cmds[0].names == [cube];
    assert forall i :: 0 <= i < 6 ==> views[i] in cmds[1].names;
  }

  /** With the corrected capture, a respecified cube, once the render thread
      has named its textures, is deleted under exactly those names by the
      next respecification on any thread: the second call's commands start
      with the deletion of the first call's cube and views, and queue the new
      cube and its face views after it. */
  method RespecTwice(c: RenderTargetCube, w1: nat, w2: nat, f: RenderTargetFormat, cube: nat, views: seq<nat>)
    returns (first: seq<TextureCommand>, second: seq<TextureCommand>)
    requires c.Valid() && w1 != 0 && w2 != 0 && cube != 0 && |views| == 6
    modifies c, c.glTextureViews
    ensures first == DestroyCommands(old(c.glTextureObject), old(c.glTextureViews[..])) + CreateCommands(ToGLFormat(f), w1, NumMips(0, w1))
    ensures second == [DeleteTextures([cube]), DeleteTextures(views)] + CreateCommands(ToGLFormat(f), w2, NumMips(0, w2))
    ensures c.width == w2 && c.glTextureObject == 0 && c.glTextureViews[..] == [0, 0, 0, 0, 0, 0]
  {
    first := c.RespecTexture(w1, f, 0);
    c.TexturesCreated(cube, views);
    second := c.RespecTexture(w2, f, 0);
  }

  /** A view of a 2D target or of one face of a cube target. */
  datatype RenderTargetView = Of2D(target: RenderTarget2D) | OfCube(cube: RenderTargetCube, layer: nat)

  /** `RenderTargetView::getGLName`: a 2D target's texture, or the face's view texture. */
  function GLName(v: RenderTargetView): (r: nat)
    requires v.OfCube? ==> v.cube.Valid() && v.layer < 6
    reads if v.Of2D? then {v.target} else {v.cube, v.cube.glTextureViews}
    ensures v.Of2D? ==> r == v.target.glTextureObject
    ensures v.OfCube? ==> r == v.cube.glTextureViews[v.layer]
  {
    if v.Of2D? then v.target.glTextureObject else v.cube.glTextureViews[v.layer]
  }

  /** `RenderTargetView::isDepthFormat`: the depth test of the viewed target's format. */
  function ViewIsDepthFormat(v: RenderTargetView): (r: bool)
    reads if v.Of2D? then v.target else v.cube
    ensures r == IsDepthFormat(if v.Of2D? then v.target.format else v.cube.format)
  {
    if v.Of2D? then IsDepthFormat(v.target.format) else IsDepthFormat(v.cube.format)
  }

  /** A cube's face view names the face's texture view, and is a depth view
      exactly when the cube's GL format is a depth component. */
  lemma CubeFaceView(c: RenderTargetCube, i: nat)
    requires c.Valid() && i < 6
    ensures GLName(c.GetRenderTargetView(i)) == c.glTextureViews[i]
    ensures ViewIsDepthFormat(c.GetRenderTargetView(i)) <==>
              ToGLFormat(c.format) in {GL_DEPTH_COMPONENT16, GL_DEPTH_COMPONENT24, GL_DEPTH_COMPONENT32F}
    ensures ViewIsDepthFormat(c.GetRenderTargetView(i)) != IsColorFormat(c.format)
  {
    ColorDepthComplement(c.format);
  }
}
