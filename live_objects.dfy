/**
 * The leak tracker of pathos/rhi/gl_live_objects.cpp: one set of live GL
 * object names per object kind, filled by the create/gen wrappers and
 * emptied by the delete wrappers, and the per-pixel size table used for the
 * texture memory report.
 */
module LiveObjects {

  /** The uncompressed internal formats the size table knows, and any other format code. */
  datatype InternalFormat =
    | RGBA32F | RGBA32UI | RGBA32I
    | RGB32F | RGB32UI | RGB32I
    | RGBA16F | RG32F | RGBA16UI | RG32UI | RGBA16I | RG32I | RGBA16 | RGBA16_SNORM
    | RGB16 | RGB16_SNORM | RGB16F | RGB16UI | RGB16I
    | RG16F | R11F_G11F_B10F | R32F | RGB10_A2UI | RGBA8UI | RG16UI | R32UI | RGBA8I | RG16I
    | R32I | RGB10_A2 | RGBA8 | RG16 | RGBA8_SNORM | RG16_SNORM | SRGB8_ALPHA8 | RGB9_E5
    | RGB8 | RGB8_SNORM | SRGB8 | RGB8UI | RGB8I
    | R16F | RG8UI | R16UI | RG8I | R16I | RG8 | R16 | RG8_SNORM | R16_SNORM
    | R8UI | R8I | R8 | R8_SNORM
    | OtherFormat(code: int)

  /** `getBytesOfInternalformat`: bytes per texel; an unknown format is the
      CHECK_NO_ENTRY case and counts as 0. */
  function BytesOfInternalformat(f: InternalFormat): (r: nat)
    ensures r == 0 <==> f.OtherFormat?
    ensures r in {0, 1, 2, 3, 4, 6, 8, 12, 16}
  {
    match f
    case RGBA32F | RGBA32UI | RGBA32I => 16
    case RGB32F | RGB32UI | RGB32I => 12
    case RGBA16F | RG32F | RGBA16UI | RG32UI | RGBA16I | RG32I | RGBA16 | RGBA16_SNORM => 8
    case RGB16 | RGB16_SNORM | RGB16F | RGB16UI | RGB16I => 6
    case RG16F | R11F_G11F_B10F | R32F | RGB10_A2UI | RGBA8UI | RG16UI | R32UI | RGBA8I | RG16I
      | R32I | RGB10_A2 | RGBA8 | RG16 | RGBA8_SNORM | RG16_SNORM | SRGB8_ALPHA8 | RGB9_E5 => 4
    case RGB8 | RGB8_SNORM | SRGB8 | RGB8UI | RGB8I => 3
    case R16F | RG8UI | R16UI | RG8I | R16I | RG8 | R16 | RG8_SNORM | R16_SNORM => 2
    case R8UI | R8I | R8 | R8_SNORM => 1
    case OtherFormat(_) => 0
  }

  /** The number of channels a format name lists. */
  function Channels(f: InternalFormat): nat
  {
    match f
    case RGBA32F | RGBA32UI | RGBA32I | RGBA16F | RGBA16UI | RGBA16I | RGBA16 | RGBA16_SNORM
      | RGB10_A2UI | RGBA8UI | RGBA8I | RGB10_A2 | RGBA8 | RGBA8_SNORM | SRGB8_ALPHA8 => 4
    case RGB32F | RGB32UI | RGB32I | RGB16 | RGB16_SNORM | RGB16F | RGB16UI | RGB16I
      | R11F_G11F_B10F | RGB8 | RGB8_SNORM | SRGB8 | RGB8UI | RGB8I => 3
    case RG32F | RG32UI | RG32I | RG16F | RG16UI | RG16I | RG16 | RG16_SNORM
      | RG8UI | RG8I | RG8 | RG8_SNORM => 2
    case R32F | R32UI | R32I | R16F | R16UI | R16I | R16 | R16_SNORM
      | R8UI | R8I | R8 | R8_SNORM => 1
    case RGB9_E5 => 4
    case OtherFormat(_) => 0
  }

  /** The width of every channel of a format whose channels are all alike;
      0 for the packed formats and unknown ones. */
  function ChannelBits(f: InternalFormat): nat
  {
    match f
    case RGBA32F | RGBA32UI | RGBA32I | RGB32F | RGB32UI | RGB32I
      | RG32F | RG32UI | RG32I | R32F | R32UI | R32I => 32
    case RGBA16F | RGBA16UI | RGBA16I | RGBA16 | RGBA16_SNORM | RGB16 | RGB16_SNORM | RGB16F | RGB16UI | RGB16I
      | RG16F | RG16UI | RG16I | RG16 | RG16_SNORM | R16F | R16UI | R16I | R16 | R16_SNORM => 16
    case RGBA8UI | RGBA8I | RGBA8 | RGBA8_SNORM | SRGB8_ALPHA8 | RGB8 | RGB8_SNORM | SRGB8 | RGB8UI | RGB8I
      | RG8UI | RG8I | RG8 | RG8_SNORM | R8UI | R8I | R8 | R8_SNORM => 8
    case _ => 0
  }

  predicate Packed(f: InternalFormat)
  {
    f == R11F_G11F_B10F || f == RGB10_A2 || f == RGB10_A2UI || f == RGB9_E5
  }

  function Uniform(n: nat, bits: nat): (r: seq<nat>)
    ensures |r| == n
  {
    if n == 0 then [] else Uniform(n - 1, bits) + [bits]
  }

  /** The bit width of each channel, as the format name spells it: one width
      for every channel, or the listed widths of a packed format (RGB9_E5 has
      a shared 5-bit exponent as its fourth field). */
  function ChannelWidths(f: InternalFormat): seq<nat>
  {
    if f == R11F_G11F_B10F then [11, 11, 10]
    else if f == RGB10_A2 || f == RGB10_A2UI then [10, 10, 10, 2]
    else if f == RGB9_E5 then [9, 9, 9, 5]
    else Uniform(Channels(f), ChannelBits(f))
  }

  function Sum(s: seq<nat>): nat
  {
    if s == [] then 0 else Sum(s[..|s| - 1]) + s[|s| - 1]
  }

  lemma {:induction false} SumUniform(n: nat, bits: nat)
    ensures Sum(Uniform(n, bits)) == n * bits
  {
    if n > 0 {
      var u := Uniform(n, bits);
      assert u[..|u| - 1] == Uniform(n - 1, bits);
      SumUniform(n - 1, bits);
    }
  }

  lemma SumOfFour(a: nat, b: nat, c: nat, d: nat)
    ensures Sum([a, b, c]) == a + b + c
    ensures Sum([a, b, c, d]) == a + b + c + d
  {
    assert [a][..0] == [];
    assert Sum([a]) == a;
    assert [a, b][..1] == [a];
    assert Sum([a, b]) == a + b;
    assert [a, b, c][..2] == [a, b];
    assert Sum([a, b, c]) == a + b + c;
    assert [a, b, c, d][..3] == [a, b, c];
  }

  /** The packed formats fill 32 bits: 11+11+10, 10+10+10+2 and 9+9+9+5. */
  lemma PackedLayout(f: InternalFormat)
    requires Packed(f)
    ensures |ChannelWidths(f)| == Channels(f)
    ensures 8 * BytesOfInternalformat(f) == Sum(ChannelWidths(f)) == 32
  {
    if f == R11F_G11F_B10F {
      SumOfFour(11, 11, 10, 0);
    } else if f == RGB9_E5 {
      SumOfFour(9, 9, 9, 5);
    } else {
      SumOfFour(10, 10, 10, 2);
    }
  }

  /** Every format that is not packed has all its channels of one width
      (an unknown format has none). */
  lemma UniformFormats(f: InternalFormat)
    requires !Packed(f)
    ensures 8 * BytesOfInternalformat(f) == Channels(f) * ChannelBits(f)
  {
  }

  lemma UniformWidths(f: InternalFormat)
    requires !Packed(f)
    ensures |ChannelWidths(f)| == Channels(f)
    ensures Sum(ChannelWidths(f)) == Channels(f) * ChannelBits(f)
  {
    assert ChannelWidths(f) == Uniform(Channels(f), ChannelBits(f));
    SumUniform(Channels(f), ChannelBits(f));
  }

  /** The size table agrees with the formats' bit layouts: every known format
      is a whole number of bytes, exactly the sum of its channel widths. */
  lemma BytesMatchLayout(f: InternalFormat)
    ensures |ChannelWidths(f)| == Channels(f)
    ensures 8 * BytesOfInternalformat(f) == Sum(ChannelWidths(f))
  {
    if Packed(f) {
      PackedLayout(f);
    } else {
      UniformWidths(f);
      UniformFormats(f);
    }
  }

  /** The kinds of GL object the tracker keeps a set for. */
  datatype Kind =
    | VertexArray | Texture | Framebuffer | Sampler | Query
    | TransformFeedback | Buffer | Renderbuffer | ProgramPipeline

  const AllKinds: set<Kind> :=
    {VertexArray, Texture, Framebuffer, Sampler, Query, TransformFeedback, Buffer, Renderbuffer, ProgramPipeline}

  /** The create/gen wrappers, each feeding one set. */
  datatype CreateCall =
    | GenTextures | GenQueries | CreateVertexArrays | CreateTextures | CreateFramebuffers
    | CreateSamplers | CreateQueries | CreateTransformFeedbacks | CreateBuffers
    | CreateRenderbuffers | CreateProgramPipelines

  function CreatedKind(c: CreateCall): Kind
  {
    match c
    case GenTextures | CreateTextures => Texture
    case GenQueries | CreateQueries => Query
    case CreateVertexArrays => VertexArray
    case CreateFramebuffers => Framebuffer
    case CreateSamplers => Sampler
    case CreateTransformFeedbacks => TransformFeedback
    case CreateBuffers => Buffer
    case CreateRenderbuffers => Renderbuffer
    case CreateProgramPipelines => ProgramPipeline
  }

  /** Both texture wrappers feed the texture set and both query wrappers the
      query set; each other wrapper has a set of its own. */
  lemma CreatedKindShared(a: CreateCall, b: CreateCall)
    ensures CreatedKind(a) == CreatedKind(b) <==>
              a == b || {a, b} == {GenTextures, CreateTextures} || {a, b} == {GenQueries, CreateQueries}
  {
  }

  function IdSet(ids: seq<nat>): (s: set<nat>)
    ensures forall x :: x in s <==> exists i :: 0 <= i < |ids| && ids[i] == x
  {
    set i | 0 <= i < |ids| :: ids[i]
  }

  class GLLiveObjects {
    var alive: map<Kind, set<nat>>

    ghost predicate Valid()
      reads this
    {
      alive.Keys == AllKinds
    }

    constructor ()
      ensures Valid() && forall k :: k in AllKinds ==> alive[k] == {}
    {
      alive := map k | k in AllKinds :: {};
    }

    /** A create/gen wrapper: all n names enter the wrapper's set; no other set changes. */
    method Create(call: CreateCall, ids: seq<nat>)
      requires Valid()
      modifies this
      ensures Valid()
      ensures alive == old(alive)[CreatedKind(call) := old(alive)[CreatedKind(call)] + IdSet(ids)]
    {
      var k := CreatedKind(call);
      var s := alive[k];
      for i := 0 to |ids|
        invariant s == old(alive)[k] + IdSet(ids[..i])
      {
        s := s + {ids[i]};
        assert IdSet(ids[..i + 1]) == IdSet(ids[..i]) + {ids[i]} by {
          assert ids[..i + 1] == ids[..i] + [ids[i]];
        }
      }
      assert ids[..|ids|] == ids;
      alive := alive[k := s];
    }

    /** A delete wrapper: all n names leave the kind's set; no other set changes. */
    method Delete(kind: Kind, ids: seq<nat>)
      requires Valid()
      modifies this
      ensures Valid()
      ensures alive == old(alive)[kind := old(alive)[kind] - IdSet(ids)]
    {
      var s := alive[kind];
      for i := 0 to |ids|
        invariant s == old(alive)[kind] - IdSet(ids[..i])
      {
        s := s - {ids[i]};
        assert IdSet(ids[..i + 1]) == IdSet(ids[..i]) + {ids[i]} by {
          assert ids[..i + 1] == ids[..i] + [ids[i]];
        }
      }
      assert ids[..|ids|] == ids;
      alive := alive[kind := s];
    }

    /** `reportLiveObjects`: the leaking total, every set plus the shader programs. */
    function TotalAlive(numPrograms: nat): nat
      reads this
      requires Valid()
    {
      SetsTotal(alive, numPrograms)
    }
  }

  /** The sum `reportLiveObjects` prints, over the sets of every kind. */
  function SetsTotal(alive: map<Kind, set<nat>>, numPrograms: nat): nat
    requires alive.Keys == AllKinds
  {
    |alive[VertexArray]| + |alive[Texture]| + |alive[Framebuffer]| + |alive[Sampler]| + |alive[Query]|
      + |alive[TransformFeedback]| + |alive[Buffer]| + |alive[Renderbuffer]| + |alive[ProgramPipeline]|
      + numPrograms
  }

  /** Replacing one kind's set changes the total by the difference in that set's size. */
  lemma SetsTotalUpdate(alive: map<Kind, set<nat>>, k: Kind, s: set<nat>, numPrograms: nat)
    requires alive.Keys == AllKinds
    ensures SetsTotal(alive[k := s], numPrograms) + |alive[k]| == SetsTotal(alive, numPrograms) + |s|
  {
  }

  /** Creating n distinct names not yet alive raises the leak total by n, and
      deleting them again restores every set. */
  method CreateThenDelete(objs: GLLiveObjects, call: CreateCall, ids: seq<nat>, numPrograms: nat)
    returns (before: nat, during: nat, after: nat)
    requires objs.Valid()
    requires forall i, j :: 0 <= i < j < |ids| ==> ids[i] != ids[j]
    requires forall i :: 0 <= i < |ids| ==> ids[i] !in objs.alive[CreatedKind(call)]
    modifies objs
    ensures during == before + |ids| && after == before
    ensures objs.alive == old(objs.alive)
  {
    var k := CreatedKind(call);
    ghost var start := objs.alive;
    before := objs.TotalAlive(numPrograms);
    objs.Create(call, ids);
    DistinctIdSet(ids);
    assert start[k] !! IdSet(ids);
    SetsTotalUpdate(start, k, start[k] + IdSet(ids), numPrograms);
    during := objs.TotalAlive(numPrograms);
    objs.Delete(k, ids);
    DeleteUndoesCreate(start, k, IdSet(ids));
    after := objs.TotalAlive(numPrograms);
  }

  /** Erasing names that were inserted into a set that lacked them restores the tracker. */
  lemma DeleteUndoesCreate(alive: map<Kind, set<nat>>, k: Kind, ids: set<nat>)
    requires k in alive && alive[k] !! ids
    ensures alive[k := alive[k] + ids][k := alive[k] + ids - ids] == alive
  {
    assert alive[k] + ids - ids == alive[k];
  }

  /** Distinct names make a set of the same size. */
  lemma {:induction false} DistinctIdSet(ids: seq<nat>)
    requires forall i, j :: 0 <= i < j < |ids| ==> ids[i] != ids[j]
    ensures |IdSet(ids)| == |ids|
  {
    if ids != [] {
      var init := ids[..|ids| - 1];
      DistinctIdSet(init);
      assert IdSet(ids) == IdSet(init) + {ids[|ids| - 1]};
      assert ids[|ids| - 1] !in IdSet(init);
    }
  }
}
