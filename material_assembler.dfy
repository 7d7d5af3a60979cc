/**
 * The material shader assembler (pathos/material/material_shader_assembler.cpp):
 * it reads a material file line by line, classifies its constant parameters,
 * finds the marker lines that delimit its code blocks, packs the constants
 * into one uniform block, and decides whether a hot reload may replace a
 * compiled material.  File I/O and the GL program build are not modelled;
 * lines arrive as a sequence of strings.
 */
module MaterialAssembler {
  import opened Wrappers
  import opened StringUtil
  import Sorting

  // ---------------------------------------------------------------------
  // Constant parameter descriptions

  /** The scalar family of a GLSL type. */
  datatype ScalarKind = Float | Int | Uint | Bool

  /** The GLSL type with `n` components of `kind`: float, vec2, ..., bvec4. */
  function TypeName(kind: ScalarKind, n: nat): string
    requires 1 <= n <= 4
  {
    match kind
    case Float => ["float", "vec2", "vec3", "vec4"][n - 1]
    case Int => ["int", "ivec2", "ivec3", "ivec4"][n - 1]
    case Uint => ["uint", "uvec2", "uvec3", "uvec4"][n - 1]
    case Bool => ["bool", "bvec2", "bvec3", "bvec4"][n - 1]
  }

  /** Component count of a declared type; 0 for a type the assembler does not know. */
  function NumElements(t: string): nat
  {
    if t == "float" || t == "int" || t == "uint" || t == "bool" then 1
    else if t == "vec2" || t == "ivec2" || t == "uvec2" || t == "bvec2" then 2
    else if t == "vec3" || t == "ivec3" || t == "uvec3" || t == "bvec3" then 3
    else if t == "vec4" || t == "ivec4" || t == "uvec4" || t == "bvec4" then 4
    else 0
  }

  /** Scalar family of a declared type; Float when it is none of the four. */
  function KindOf(t: string): ScalarKind
  {
    if t == "float" || t == "vec2" || t == "vec3" || t == "vec4" then Float
    else if t == "int" || t == "ivec2" || t == "ivec3" || t == "ivec4" then Int
    else if t == "uint" || t == "uvec2" || t == "uvec3" || t == "uvec4" then Uint
    else if t == "bool" || t == "bvec2" || t == "bvec3" || t == "bvec4" then Bool
    else Float
  }

  datatype ConstantParameterDesc =
    ConstantParameterDesc(lineIx: nat, typeName: string, name: string, numElements: nat, kind: ScalarKind)

  /** A `PARAMETER_CONSTANT(type, name)` line's description; None for a type
      outside the sixteen scalar and vector types, where the source stops. */
  function MakeConstantParameterDesc(lineIx: nat, t: string, name: string): (d: Option<ConstantParameterDesc>)
    ensures d.Some? ==>
      1 <= d.value.numElements <= 4 && t == TypeName(d.value.kind, d.value.numElements) &&
      d.value.lineIx == lineIx && d.value.typeName == t && d.value.name == name
    ensures d.None? ==> forall kind, n :: 1 <= n <= 4 ==> t != TypeName(kind, n)
  {
    var n := NumElements(t);
    if n == 0 then None else Some(ConstantParameterDesc(lineIx, t, name, n, KindOf(t)))
  }

  /** Every one of the sixteen types is recognised with its own kind and size. */
  lemma ClassifyTypeName(kind: ScalarKind, n: nat)
    requires 1 <= n <= 4
    ensures NumElements(TypeName(kind, n)) == n && KindOf(TypeName(kind, n)) == kind
  {
  }

  /** The member declaration a description contributes to the uniform block. */
  function Declaration(d: ConstantParameterDesc): string
  {
    d.typeName + " " + d.name + ";"
  }

  // ---------------------------------------------------------------------
  // Marker lines in a material file

  datatype Keyword =
    | ShadingModelLine | NonTrivialDepth | OutputWorldNormal | SkyboxMaterial
    | TransferDrawId | TransferInstanceId | UseIndirectDraw
    | VpoBegin | VpoEnd | AttrBegin | AttrEnd
    | ForwardShadingBegin | ForwardShadingEnd | EmbedGlslBegin | EmbedGlslEnd

  const ShadingModelKeyword := "#define SHADINGMODEL"

  function KeywordText(k: Keyword): string
  {
    match k
    case ShadingModelLine => ShadingModelKeyword
    case NonTrivialDepth => "#define NONTRIVIALDEPTH"
    case OutputWorldNormal => "#define OUTPUTWORLDNORMAL"
    case SkyboxMaterial => "#define SKYBOXMATERIAL"
    case TransferDrawId => "#define TRANSFER_DRAW_ID"
    case TransferInstanceId => "#define TRANSFER_INSTANCE_ID"
    case UseIndirectDraw => "#define USE_INDIRECT_DRAW"
    case VpoBegin => "VPO_BEGIN"
    case VpoEnd => "VPO_END"
    case AttrBegin => "ATTR_BEGIN"
    case AttrEnd => "ATTR_END"
    case ForwardShadingBegin => "FORWARDSHADING_BEGIN"
    case ForwardShadingEnd => "FORWARDSHADING_END"
    case EmbedGlslBegin => "EMBED_GLSL_BEGIN"
    case EmbedGlslEnd => "EMBED_GLSL_END"
  }

  /** The keywords in the order the scanner tests them. */
  function KeywordOrder(): seq<Keyword> { [
    ShadingModelLine, NonTrivialDepth, OutputWorldNormal, SkyboxMaterial,
    TransferDrawId, TransferInstanceId, UseIndirectDraw,
    VpoBegin, VpoEnd, AttrBegin, AttrEnd,
    ForwardShadingBegin, ForwardShadingEnd, EmbedGlslBegin, EmbedGlslEnd] }

  /** The first keyword of `ks` that `line` starts with. */
  function FirstKeyword(line: string, ks: seq<Keyword>): (r: Option<Keyword>)
    ensures r.Some? ==> r.value in ks && StartsWith(line, KeywordText(r.value))
    decreases |ks|
  {
    if ks == [] then None
    else if StartsWith(line, KeywordText(ks[0])) then Some(ks[0])
    else FirstKeyword(line, ks[1..])
  }

  /** The keyword a line starts with; when several could match, the first in scanning order. */
  function KeywordOf(line: string): Option<Keyword>
  {
    FirstKeyword(line, KeywordOrder())
  }

  /** Keywords whose line index is recorded, as opposed to those that set a flag. */
  predicate IsIndexKeyword(k: Keyword)
  {
    k.ShadingModelLine? || k.VpoBegin? || k.VpoEnd? || k.AttrBegin? || k.AttrEnd? ||
    k.ForwardShadingBegin? || k.ForwardShadingEnd? || k.EmbedGlslBegin? || k.EmbedGlslEnd?
  }

  /** How far from its marker line a recorded index lies: BEGIN markers
      record the line after them, END markers the line before. */
  function Shift(k: Keyword): int
  {
    if k.VpoBegin? || k.AttrBegin? || k.ForwardShadingBegin? || k.EmbedGlslBegin? then 1
    else if k.VpoEnd? || k.AttrEnd? || k.ForwardShadingEnd? || k.EmbedGlslEnd? then -1
    else 0
  }

  /** What the scan has found: the recorded line index of each index keyword
      seen so far, and the flag keywords seen so far. */
  datatype PlaceholderDesc = PlaceholderDesc(indices: map<Keyword, int>, flags: set<Keyword>)

  const NoPlaceholders := PlaceholderDesc(map[], {})

  /** A recorded line index; -1, the initial value of every index field, when none was recorded. */
  function Index(d: PlaceholderDesc, k: Keyword): int
  {
    if k in d.indices then d.indices[k] else -1
  }

  // The fields of the source's description, read off the model.
  function ShadingModelIx(d: PlaceholderDesc): int { Index(d, ShadingModelLine) }
  function VpoBeginIx(d: PlaceholderDesc): int { Index(d, VpoBegin) }
  function VpoEndIx(d: PlaceholderDesc): int { Index(d, VpoEnd) }
  function AttrBeginIx(d: PlaceholderDesc): int { Index(d, AttrBegin) }
  function AttrEndIx(d: PlaceholderDesc): int { Index(d, AttrEnd) }
  function SceneColorBeginIx(d: PlaceholderDesc): int { Index(d, ForwardShadingBegin) }
  function SceneColorEndIx(d: PlaceholderDesc): int { Index(d, ForwardShadingEnd) }
  function EmbedGlslBeginIx(d: PlaceholderDesc): int { Index(d, EmbedGlslBegin) }
  function EmbedGlslEndIx(d: PlaceholderDesc): int { Index(d, EmbedGlslEnd) }
  predicate TrivialDepthOnlyPass(d: PlaceholderDesc) { NonTrivialDepth !in d.flags }

  /** The description after a line with keyword `k` at index `ix`. */
  function Record(d: PlaceholderDesc, k: Keyword, ix: nat): PlaceholderDesc
  {
    if IsIndexKeyword(k) then d.(indices := d.indices[k := ix + Shift(k)])
    else d.(flags := d.flags + {k})
  }

  /** The description after a line whose keyword is `kw`, at index `ix`. */
  function ScanStep(d: PlaceholderDesc, ix: nat, kw: Option<Keyword>): PlaceholderDesc
  {
    match kw
    case None => d
    case Some(k) => Record(d, k, ix)
  }

  /** The keyword of each line, in order. */
  function LineKeywords(lines: seq<string>): (kws: seq<Option<Keyword>>)
    ensures |kws| == |lines|
  {
    seq(|lines|, i requires 0 <= i < |lines| => KeywordOf(lines[i]))
  }

  /** The description after lines whose keywords are `kws`, read in order. */
  function ScanKeywords(kws: seq<Option<Keyword>>): PlaceholderDesc
    decreases |kws|
  {
    if kws == [] then NoPlaceholders
    else ScanStep(ScanKeywords(kws[..|kws| - 1]), |kws| - 1, kws[|kws| - 1])
  }

  /** The description after reading every line in order. */
  function ScanLines(lines: seq<string>): PlaceholderDesc
  {
    ScanKeywords(LineKeywords(lines))
  }

  /** The scanner's closing check: a shading model line and ordered VPO and ATTR blocks. */
  predicate WellDefined(d: PlaceholderDesc)
  {
    ShadingModelIx(d) != -1
    && VpoBeginIx(d) != -1 && VpoEndIx(d) != -1 && VpoBeginIx(d) < VpoEndIx(d)
    && AttrBeginIx(d) != -1 && AttrEndIx(d) != -1 && AttrBeginIx(d) < AttrEndIx(d)
    && SceneColorBeginIx(d) <= SceneColorEndIx(d)
    && EmbedGlslBeginIx(d) <= EmbedGlslEndIx(d)
  }

  /** Reading one more line applies its keyword to the description. */
  lemma ScanPrefixStep(lines: seq<string>, ix: nat)
    requires ix < |lines|
    ensures ScanKeywords(LineKeywords(lines)[..ix + 1]) ==
              ScanStep(ScanKeywords(LineKeywords(lines)[..ix]), ix, KeywordOf(lines[ix]))
  {
    var kws := LineKeywords(lines);
    assert kws[..ix + 1][..ix] == kws[..ix];
  }

  /** scanPlaceholders: None where the closing check stops the assembler. */
  method ScanPlaceholders(lines: seq<string>) returns (r: Option<PlaceholderDesc>)
    ensures r.Some? <==> WellDefined(ScanLines(lines))
    ensures r.Some? ==> r.value == ScanLines(lines)
  {
    var d := NoPlaceholders;
    var ix := 0;
    while ix < |lines|
      invariant ix <= |lines|
      invariant d == ScanKeywords(LineKeywords(lines)[..ix])
    {
      var kw := KeywordOf(lines[ix]);
      ScanPrefixStep(lines, ix);
      match kw {
        case None =>
        case Some(k) =>
          if IsIndexKeyword(k) {
            d := d.(indices := d.indices[k := ix + Shift(k)]);
          } else {
            d := d.(flags := d.flags + {k});
          }
      }
      ix := ix + 1;
    }
    assert LineKeywords(lines)[..|lines|] == LineKeywords(lines);
    if !WellDefined(d) {
      return None;
    }
    return Some(d);
  }

  /** No line carries keyword `k`. */
  ghost predicate Absent(kws: seq<Option<Keyword>>, k: Keyword)
  {
    forall j :: 0 <= j < |kws| ==> kws[j] != Some(k)
  }

  /** Line `i` is the last line that carries keyword `k`. */
  ghost predicate LastWith(kws: seq<Option<Keyword>>, k: Keyword, i: int)
  {
    0 <= i < |kws| && kws[i] == Some(k) && forall j :: i < j < |kws| ==> kws[j] != Some(k)
  }

  /** A recorded index comes from the LAST line with its marker, shifted by
      one for BEGIN/END markers, and stays -1 when no line has the marker. */
  lemma {:induction false} ScanIndexSpec(kws: seq<Option<Keyword>>, k: Keyword)
    requires IsIndexKeyword(k)
    ensures Absent(kws, k) ==> Index(ScanKeywords(kws), k) == -1
    ensures forall i :: LastWith(kws, k, i) ==> Index(ScanKeywords(kws), k) == i + Shift(k)
    decreases |kws|
  {
    if kws != [] {
      var init := kws[..|kws| - 1];
      var last := |kws| - 1;
      ScanIndexSpec(init, k);
      if kws[last] != Some(k) {
        forall i | LastWith(kws, k, i) ensures LastWith(init, k, i) {
        }
      }
    }
  }

  /** A flag is raised exactly when some line carries its marker. */
  lemma {:induction false} ScanFlagSpec(kws: seq<Option<Keyword>>, k: Keyword)
    requires !IsIndexKeyword(k)
    ensures k in ScanKeywords(kws).flags <==> !Absent(kws, k)
    decreases |kws|
  {
    if kws != [] {
      var init := kws[..|kws| - 1];
      ScanFlagSpec(init, k);
      if !Absent(init, k) {
        var j :| 0 <= j < |init| && init[j] == Some(k);
        assert kws[j] == init[j];
      }
    }
  }

  /** No flag keyword ever lands among the indices, nor an index keyword among the flags. */
  lemma {:induction false} ScanSeparates(kws: seq<Option<Keyword>>)
    ensures forall k :: k in ScanKeywords(kws).indices ==> IsIndexKeyword(k)
    ensures forall k :: k in ScanKeywords(kws).flags ==> !IsIndexKeyword(k)
    decreases |kws|
  {
    if kws != [] {
      ScanSeparates(kws[..|kws| - 1]);
    }
  }

  // ---------------------------------------------------------------------
  // Shading model

  datatype ShadingModel = Unlit | DefaultLit | Translucent

  function ModelName(m: ShadingModel): string
  {
    match m
    case Unlit => "MATERIAL_SHADINGMODEL_UNLIT"
    case DefaultLit => "MATERIAL_SHADINGMODEL_DEFAULTLIT"
    case Translucent => "MATERIAL_SHADINGMODEL_TRANSLUCENT"
  }

  /** The word `#define SHADINGMODEL %s` reads into its 64-byte buffer; None
      when the prefix does not match, no word follows, or it does not fit. */
  function ShadingModelWord(line: string): (w: Option<string>)
    ensures w.Some? ==> 0 < |w.value| < 64
  {
    if !StartsWith(line, ShadingModelKeyword) then None
    else
      var rest := line[|ShadingModelKeyword|..];
      var word := Token(TrimStart(rest));
      if word == [] || |word| >= 64 then None else Some(word)
  }

  /** parseShadingModel: one of the three model names, None for anything else. */
  function ParseShadingModel(line: string): (m: Option<ShadingModel>)
    ensures m.Some? ==> ShadingModelWord(line) == Some(ModelName(m.value))
    ensures m.None? ==> forall x :: ShadingModelWord(line) != Some(ModelName(x))
  {
    match ShadingModelWord(line)
    case None => None
    case Some(w) =>
      if w == ModelName(Unlit) then Some(Unlit)
      else if w == ModelName(DefaultLit) then Some(DefaultLit)
      else if w == ModelName(Translucent) then Some(Translucent)
      else None
  }

  /** The word after the keyword and one space is read back whole. */
  lemma WordRoundTrip(name: string, rest: string)
    requires 0 < |name| < 64
    requires forall k :: 0 <= k < |name| ==> !IsSpace(name[k])
    requires rest == [] || IsSpace(rest[0])
    ensures ShadingModelWord(ShadingModelKeyword + " " + name + rest) == Some(name)
  {
    var after := " " + name + rest;
    var line := ShadingModelKeyword + " " + name + rest;
    assert line == ShadingModelKeyword + after;
    StartsWithConcat(ShadingModelKeyword, after);
    assert line[|ShadingModelKeyword|..] == after;
    assert after[1..] == name + rest;
    assert TrimStart(after) == TrimStart(name + rest);
    assert TrimStart(name + rest) == name + rest by {
      assert (name + rest)[0] == name[0];
    }
    TokenOf(name, rest);
  }

  /** Model names are single words. */
  lemma ModelNameWord(m: ShadingModel)
    ensures forall k :: 0 <= k < |ModelName(m)| ==> !IsSpace(ModelName(m)[k])
  {
    var name := ModelName(m);
    forall k | 0 <= k < |name| ensures !IsSpace(name[k]) {
      match m
      case Unlit => assert name[k] in "ABCDEFGHIJKLMNOPQRSTUVWXYZ_";
      case DefaultLit => assert name[k] in "ABCDEFGHIJKLMNOPQRSTUVWXYZ_";
      case Translucent => assert name[k] in "ABCDEFGHIJKLMNOPQRSTUVWXYZ_";
    }
  }

  /** A line written as `#define SHADINGMODEL <name>` parses back to that model. */
  lemma ShadingModelRoundTrip(m: ShadingModel, rest: string)
    requires rest == [] || IsSpace(rest[0])
    ensures ParseShadingModel(ShadingModelKeyword + " " + ModelName(m) + rest) == Some(m)
  {
    ModelNameWord(m);
    WordRoundTrip(ModelName(m), rest);
  }

  // ---------------------------------------------------------------------
  // Uniform block packing

  /** What the material keeps for each constant: its block offset in bytes. */
  datatype ConstantParameter = ConstantParameter(name: string, kind: ScalarKind, numElements: nat, offset: nat)

  /** The sort order of the block: more components first. */
  predicate MoreElements(a: ConstantParameterDesc, b: ConstantParameterDesc)
  {
    a.numElements >= b.numElements
  }

  lemma MoreElementsPreorder()
    ensures Sorting.TotalPreorder(MoreElements)
  {
  }

  /** Bytes a member occupies: a scalar 4, any vector a full 16-byte slot. */
  function Stride(n: nat): nat
  {
    if n == 1 then 4 else 16
  }

  /** 4-byte elements a member occupies. */
  function Elements(n: nat): nat
  {
    if n == 1 then 1 else 4
  }

  /** Elements of trailing padding the block gets for its scalar count. */
  function Padding(numScalars: nat): nat
  {
    if numScalars == 1 then 3 else if numScalars == 2 then 2 else if numScalars == 3 then 1 else 0
  }

  /** Running byte offset after the members in `s`. */
  function BytesBefore(s: seq<ConstantParameterDesc>): nat
    decreases |s|
  {
    if s == [] then 0 else BytesBefore(s[..|s| - 1]) + Stride(s[|s| - 1].numElements)
  }

  /** Elements the members of `s` occupy. */
  function ElementsOf(s: seq<ConstantParameterDesc>): nat
    decreases |s|
  {
    if s == [] then 0 else ElementsOf(s[..|s| - 1]) + Elements(s[|s| - 1].numElements)
  }

  /** How many members of `s` are scalars. */
  function Scalars(s: seq<ConstantParameterDesc>): nat
    decreases |s|
  {
    if s == [] then 0 else Scalars(s[..|s| - 1]) + (if s[|s| - 1].numElements == 1 then 1 else 0)
  }

  /** How many members of `s` get a padding member of their own (vec2 and vec3). */
  function PaddedMembers(s: seq<ConstantParameterDesc>): nat
    decreases |s|
  {
    if s == [] then 0
    else PaddedMembers(s[..|s| - 1]) + (if s[|s| - 1].numElements == 2 || s[|s| - 1].numElements == 3 then 1 else 0)
  }

  /** The parameter records of `s` in order, each at the running offset. */
  function Layout(s: seq<ConstantParameterDesc>): (ps: seq<ConstantParameter>)
    ensures |ps| == |s|
    decreases |s|
  {
    if s == [] then []
    else
      var init, d := s[..|s| - 1], s[|s| - 1];
      Layout(init) + [ConstantParameter(d.name, d.kind, d.numElements, BytesBefore(init))]
  }

  /** Each member keeps its name, kind and size and sits at the bytes taken by the members before it. */
  lemma {:induction false} LayoutSpec(s: seq<ConstantParameterDesc>)
    ensures forall i :: 0 <= i < |s| ==>
      Layout(s)[i] == ConstantParameter(s[i].name, s[i].kind, s[i].numElements, BytesBefore(s[..i]))
    decreases |s|
  {
    if s != [] {
      var init := s[..|s| - 1];
      LayoutSpec(init);
      forall i | 0 <= i < |init| ensures init[..i] == s[..i] {
      }
    }
  }

  const UboHeader := "layout (std140, binding = UBO_BINDING_MATERIAL) uniform UBO_Material {\n"

  /** The text after one member's declaration; `id` numbers the padding member. */
  function MemberSuffix(n: nat, id: nat): string
  {
    if n == 3 then "\t\tfloat _unused" + DecimalString(id) + ";\n"
    else if n == 2 then "\t\tvec2 _unused" + DecimalString(id) + ";\n"
    else "\n"
  }

  /** The member lines of the block for `s`, in order. */
  function MemberText(s: seq<ConstantParameterDesc>): string
    decreases |s|
  {
    if s == [] then ""
    else
      var init := s[..|s| - 1];
      MemberText(init) + "\t" + Declaration(s[|s| - 1]) + MemberSuffix(s[|s| - 1].numElements, PaddedMembers(init))
  }

  /** The padding member that closes the scalar run. */
  function TailPadding(numScalars: nat, id: nat): string
  {
    if numScalars == 1 then "\tvec3 _unused" + DecimalString(id) + ";\n"
    else if numScalars == 2 then "\tvec2 _unused" + DecimalString(id) + ";\n"
    else if numScalars == 3 then "\tfloat _unused" + DecimalString(id) + ";\n"
    else ""
  }

  function UboFooter(totalElements: nat): string
  {
    "} uboMaterial; // Total " + DecimalString(4 * totalElements) + " bytes\n"
  }

  /** Whether every description has one of the four sizes. */
  predicate KnownSizes(descs: seq<ConstantParameterDesc>)
  {
    forall i :: 0 <= i < |descs| ==> 1 <= descs[i].numElements <= 4
  }

  /** Every size is still known after the descriptions are reordered. */
  lemma KnownSizesPermutation(a: seq<ConstantParameterDesc>, b: seq<ConstantParameterDesc>)
    requires KnownSizes(a) && multiset(a) == multiset(b)
    ensures KnownSizes(b)
  {
    forall i | 0 <= i < |b| ensures 1 <= b[i].numElements <= 4 {
      assert b[i] in multiset(a);
      var j :| 0 <= j < |a| && a[j] == b[i];
    }
  }

  /** One more member: how each running quantity of the block grows. */
  lemma MemberStep(s: seq<ConstantParameterDesc>, i: nat)
    requires i < |s|
    ensures MemberText(s[..i + 1]) ==
              MemberText(s[..i]) + "\t" + Declaration(s[i]) + MemberSuffix(s[i].numElements, PaddedMembers(s[..i]))
    ensures BytesBefore(s[..i + 1]) == BytesBefore(s[..i]) + Stride(s[i].numElements)
    ensures ElementsOf(s[..i + 1]) == ElementsOf(s[..i]) + Elements(s[i].numElements)
    ensures Scalars(s[..i + 1]) == Scalars(s[..i]) + (if s[i].numElements == 1 then 1 else 0)
    ensures PaddedMembers(s[..i + 1]) ==
              PaddedMembers(s[..i]) + (if s[i].numElements == 2 || s[i].numElements == 3 then 1 else 0)
    ensures Layout(s[..i + 1]) ==
              Layout(s[..i]) + [ConstantParameter(s[i].name, s[i].kind, s[i].numElements, BytesBefore(s[..i]))]
  {
    assert s[..i + 1][..i] == s[..i];
  }

  /** One pass of the member loop: the member's declaration line, its
      parameter record at the current offset, and the running counts. */
  method EmitMember(desc: ConstantParameterDesc, text: string, paddingId: nat, numScalars: nat,
                    totalElements: nat, offset: nat, params: seq<ConstantParameter>)
    returns (text': string, paddingId': nat, numScalars': nat, totalElements': nat, offset': nat,
             params': seq<ConstantParameter>)
    ensures text' == text + "\t" + Declaration(desc) + MemberSuffix(desc.numElements, paddingId)
    ensures params' == params + [ConstantParameter(desc.name, desc.kind, desc.numElements, offset)]
    ensures offset' == offset + Stride(desc.numElements)
    ensures totalElements' == totalElements + Elements(desc.numElements)
    ensures numScalars' == numScalars + (if desc.numElements == 1 then 1 else 0)
    ensures paddingId' == paddingId + (if desc.numElements == 2 || desc.numElements == 3 then 1 else 0)
  {
    // the declaration, then a newline or the padding member of a vec2/vec3
    text' := text + "\t" + Declaration(desc) + MemberSuffix(desc.numElements, paddingId);
    params' := params + [ConstantParameter(desc.name, desc.kind, desc.numElements, offset)];
    if desc.numElements == 1 {
      totalElements', offset' := totalElements + 1, offset + 4;
    } else {
      totalElements', offset' := totalElements + 4, offset + 16;
    }
    paddingId' := paddingId;
    if desc.numElements == 2 || desc.numElements == 3 {
      paddingId' := paddingId + 1;
    }
    numScalars' := numScalars + (if desc.numElements == 1 then 1 else 0);
  }

  /** The member loop of assembleUniformBuffer over already sorted descriptions. */
  method EmitMembers(sorted: seq<ConstantParameterDesc>)
    returns (text: string, paddingId: nat, numScalars: nat, totalElements: nat, params: seq<ConstantParameter>)
    requires KnownSizes(sorted)
    ensures text == MemberText(sorted) && paddingId == PaddedMembers(sorted)
    ensures numScalars == Scalars(sorted) && totalElements == ElementsOf(sorted)
    ensures params == Layout(sorted)
  {
    text, paddingId, numScalars, totalElements, params := "", 0, 0, 0, [];
    var offset := 0;
    var i := 0;
    while i < |sorted|
      invariant i <= |sorted|
      invariant text == MemberText(sorted[..i])
      invariant paddingId == PaddedMembers(sorted[..i])
      invariant numScalars == Scalars(sorted[..i])
      invariant totalElements == ElementsOf(sorted[..i])
      invariant offset == BytesBefore(sorted[..i])
      invariant params == Layout(sorted[..i])
    {
      MemberStep(sorted, i);
      text, paddingId, numScalars, totalElements, offset, params :=
        EmitMember(sorted[i], text, paddingId, numScalars, totalElements, offset, params);
      i := i + 1;
    }
    assert sorted[..i] == sorted;
  }

  /** assembleUniformBuffer: sorts the descriptions (in place in the source),
      lays them out in that order and writes the block declaration. */
  method AssembleUniformBuffer(descs: seq<ConstantParameterDesc>)
    returns (sorted: seq<ConstantParameterDesc>, ubo: string, totalElements: nat, params: seq<ConstantParameter>)
    requires KnownSizes(descs)
    ensures Sorting.Sorted(sorted, MoreElements) && multiset(sorted) == multiset(descs)
    ensures descs == [] ==> ubo == "" && totalElements == 0 && params == []
    ensures descs != [] ==>
      ubo == UboHeader + MemberText(sorted)
             + TailPadding(Scalars(sorted), PaddedMembers(sorted)) + UboFooter(totalElements)
    ensures totalElements == ElementsOf(sorted) + Padding(Scalars(sorted))
    ensures |params| == |sorted|
    ensures forall i :: 0 <= i < |params| ==>
      params[i] == ConstantParameter(sorted[i].name, sorted[i].kind, sorted[i].numElements, BytesBefore(sorted[..i]))
  {
    MoreElementsPreorder();
    sorted := Sorting.SortBy(descs, MoreElements);
    assert |sorted| == |multiset(sorted)| == |descs|;
    ubo := "";
    totalElements := 0;
    params := [];
    if |sorted| != 0 {
      KnownSizesPermutation(descs, sorted);
      var text, paddingId, numScalars;
      text, paddingId, numScalars, totalElements, params := EmitMembers(sorted);
      LayoutSpec(sorted);
      ubo := UboHeader + text;
      ubo := ubo + TailPadding(numScalars, paddingId);
      totalElements := totalElements + Padding(numScalars);
      ubo := ubo + UboFooter(totalElements);
    }
  }

  /** The running offset in bytes is always four times the elements used. */
  lemma {:induction false} BytesAreElements(s: seq<ConstantParameterDesc>)
    ensures BytesBefore(s) == 4 * ElementsOf(s)
    decreases |s|
  {
    if s != [] {
      BytesAreElements(s[..|s| - 1]);
    }
  }

  /** Only vectors before `p`: each took a whole 16-byte slot. */
  lemma {:induction false} VectorRun(p: seq<ConstantParameterDesc>)
    requires forall j :: 0 <= j < |p| ==> p[j].numElements != 1
    ensures BytesBefore(p) == 16 * |p|
    decreases |p|
  {
    if p != [] {
      VectorRun(p[..|p| - 1]);
    }
  }

  /** In the sorted block every vector comes before every scalar, so the
      i-th member, when it is a vector, starts at byte 16 * i. */
  lemma VectorOffsets(s: seq<ConstantParameterDesc>, i: nat)
    requires Sorting.Sorted(s, MoreElements)
    requires i < |s| && s[i].numElements >= 2
    ensures BytesBefore(s[..i]) == 16 * i
  {
    var p := s[..i];
    forall j | 0 <= j < |p| ensures p[j].numElements != 1 {
      assert MoreElements(s[j], s[i]);
    }
    VectorRun(p);
  }

  /** With known sizes, every non-scalar takes four elements. */
  lemma {:induction false} ElementsCount(s: seq<ConstantParameterDesc>)
    requires KnownSizes(s)
    ensures Scalars(s) <= |s|
    ensures ElementsOf(s) == 4 * (|s| - Scalars(s)) + Scalars(s)
    decreases |s|
  {
    if s != [] {
      ElementsCount(s[..|s| - 1]);
    }
  }

  /** The block's element total: four per vector, one per scalar, plus the
      closing padding, which rounds it up to whole vec4s when there are at
      most four scalars; with more scalars no padding is added at all. */
  lemma BlockTotal(s: seq<ConstantParameterDesc>)
    requires KnownSizes(s)
    ensures var sc := Scalars(s);
      ElementsOf(s) + Padding(sc) == 4 * (|s| - sc) + sc + Padding(sc) &&
      (sc <= 4 ==> (ElementsOf(s) + Padding(sc)) % 4 == 0) &&
      (sc >= 4 ==> Padding(sc) == 0)
  {
    ElementsCount(s);
  }

  // ---------------------------------------------------------------------
  // Texture parameters

  datatype TextureParameterDesc = TextureParameterDesc(lineIx: nat, binding: nat, samplerType: string, name: string)

  /** What the material keeps for each texture. */
  datatype TextureParameter = TextureParameter(name: string, binding: nat)

  /** The sampler declaration of one texture parameter. */
  function TextureDeclaration(d: TextureParameterDesc): string
  {
    "layout (binding = " + DecimalString(d.binding) + ") uniform " + d.samplerType + " " + d.name + ";"
  }

  function TextureDeclarations(descs: seq<TextureParameterDesc>): (ls: seq<string>)
    ensures |ls| == |descs|
  {
    seq(|descs|, i requires 0 <= i < |descs| => TextureDeclaration(descs[i]))
  }

  /** assembleTextureParameters: one declaration line per texture, in input order. */
  method AssembleTextureParameters(descs: seq<TextureParameterDesc>)
    returns (text: string, params: seq<TextureParameter>)
    ensures text == Unlines(TextureDeclarations(descs))
    ensures |params| == |descs|
    ensures forall i :: 0 <= i < |descs| ==> params[i] == TextureParameter(descs[i].name, descs[i].binding)
  {
    text := "";
    params := [];
    var i := 0;
    while i < |descs|
      invariant i <= |descs|
      invariant text == Unlines(TextureDeclarations(descs)[..i])
      invariant |params| == i
      invariant forall j :: 0 <= j < i ==> params[j] == TextureParameter(descs[j].name, descs[j].binding)
    {
      assert TextureDeclarations(descs)[..i + 1][..i] == TextureDeclarations(descs)[..i];
      text := text + TextureDeclaration(descs[i]) + "\n";
      params := params + [TextureParameter(descs[i].name, descs[i].binding)];
      i := i + 1;
    }
    assert TextureDeclarations(descs)[..i] == TextureDeclarations(descs);
  }

  /** Names and sampler types without newlines give one text line per texture. */
  lemma TextureLines(descs: seq<TextureParameterDesc>)
    requires forall i :: 0 <= i < |descs| ==> '\n' !in descs[i].samplerType && '\n' !in descs[i].name
    ensures Split(Unlines(TextureDeclarations(descs)), '\n') == TextureDeclarations(descs) + [""]
  {
    var ls := TextureDeclarations(descs);
    forall i | 0 <= i < |ls| ensures '\n' !in ls[i] {
      var d := descs[i];
      var digits := DecimalString(d.binding);
      assert forall k :: 0 <= k < |digits| ==> digits[k] != '\n';
      assert ls[i] == "layout (binding = " + digits + ") uniform " + d.samplerType + " " + d.name + ";";
    }
    UnlinesSplit(ls);
  }

  // ---------------------------------------------------------------------
  // Hot reload

  /** The order `std::sort` gives unsigned integers. */
  predicate NatLe(a: nat, b: nat)
  {
    a <= b
  }

  lemma NatLeTotalOrder()
    ensures Sorting.TotalOrder(NatLe)
  {
  }

  function Bindings(ps: seq<TextureParameter>): (bs: seq<nat>)
    ensures |bs| == |ps|
  {
    seq(|ps|, i requires 0 <= i < |ps| => ps[i].binding)
  }

  /** The texture check of a hot reload: the binding lists are compared
      after sorting, so the check fails exactly when they are not
      permutations of each other. */
  method TextureBindingsChanged(current: seq<TextureParameter>, reloaded: seq<TextureParameter>)
    returns (changed: bool)
    ensures changed <==> multiset(Bindings(current)) != multiset(Bindings(reloaded))
  {
    changed := |current| != |reloaded|;
    if changed {
      assert |multiset(Bindings(current))| != |multiset(Bindings(reloaded))|;
      return;
    }
    var n := |current|;
    var a: seq<nat> := [];
    var b: seq<nat> := [];
    var i := 0;
    while i < n
      invariant i <= n
      invariant a == Bindings(current)[..i] && b == Bindings(reloaded)[..i]
    {
      a := a + [current[i].binding];
      b := b + [reloaded[i].binding];
      i := i + 1;
    }
    assert a == Bindings(current) && b == Bindings(reloaded);
    NatLeTotalOrder();
    Sorting.SortedEqualIffPermutation(a, b, NatLe);
    a := Sorting.SortBy(a, NatLe);
    b := Sorting.SortBy(b, NatLe);
    changed := a != b;
  }

  /** Whether a hot reload is refused: the uniform block changed size, or the
      texture bindings are not the same set with the same multiplicities. */
  method RejectHotReload(uboTotalBytes: nat, current: seq<TextureParameter>,
                         uboTotalElements: nat, reloaded: seq<TextureParameter>)
    returns (reject: bool)
    ensures reject <==>
      uboTotalElements * 4 != uboTotalBytes ||
      multiset(Bindings(current)) != multiset(Bindings(reloaded))
  {
    if uboTotalElements * 4 != uboTotalBytes {
      return true;
    }
    reject := TextureBindingsChanged(current, reloaded);
  }

  // ---------------------------------------------------------------------
  // Newline splitting

  /** Every line split at its newlines, the pieces kept in order. */
  function SplitAll(lines: seq<string>): seq<string>
    decreases |lines|
  {
    if lines == [] then [] else SplitAll(lines[..|lines| - 1]) + Split(lines[|lines| - 1], '\n')
  }

  /** A text whose first separator is at k splits into the piece before it and the split of the rest. */
  lemma SplitAtFirst(rest: string, c: char, k: nat)
    requires FindChar(rest, c) == Some(k)
    ensures Split(rest, c) == [rest[..k]] + Split(rest[k + 1..], c)
  {
    assert rest == rest[..k] + [c] + rest[k + 1..];
    SplitFirst(rest[..k], c, rest[k + 1..]);
  }

  lemma SliceOfSuffix(line: string, offset: nat, k: nat)
    requires offset + k < |line|
    ensures line[offset..][..k] == line[offset..offset + k]
    ensures line[offset..][k + 1..] == line[offset + k + 1..]
  {
  }

  /** One pass of the inner loop of splitNewlines: `find_first_of` from
      `offset`, then the `substr` up to the newline, or to the end of the
      line when there is none. */
  method NextPiece(line: string, offset: nat, c: char) returns (piece: string, next: Option<nat>)
    requires offset <= |line|
    ensures next.Some? ==> offset < next.value <= |line|
    ensures next.None? ==> [piece] == Split(line[offset..], c)
    ensures next.Some? ==> [piece] + Split(line[next.value..], c) == Split(line[offset..], c)
  {
    var found := FindChar(line[offset..], c);
    if found.None? {
      piece, next := line[offset..], None;
      SplitPlain(line[offset..], c);
    } else {
      var k := found.value;
      piece, next := line[offset..offset + k], Some(offset + k + 1);
      SplitAtFirst(line[offset..], c, k);
      SliceOfSuffix(line, offset, k);
    }
  }

  /** The inner loop of splitNewlines: the pieces of one line, cut at each separator. */
  method SplitLine(line: string, c: char) returns (pieces: seq<string>)
    ensures pieces == Split(line, c)
  {
    pieces := [];
    var offset := 0;
    while true
      invariant offset <= |line|
      invariant pieces + Split(line[offset..], c) == Split(line, c)
      decreases |line| - offset
    {
      var piece, next := NextPiece(line, offset, c);
      if next.None? {
        pieces := pieces + [piece];
        return;
      }
      var rest := Split(line[next.value..], c);
      assert (pieces + [piece]) + rest == pieces + ([piece] + rest);
      pieces := pieces + [piece];
      offset := next.value;
    }
  }

  /** splitNewlines: replaces the lines by their newline-free pieces. */
  method SplitNewlines(lines: seq<string>) returns (out: seq<string>)
    ensures out == SplitAll(lines)
  {
    out := [];
    var i := 0;
    while i < |lines|
      invariant i <= |lines|
      invariant out == SplitAll(lines[..i])
    {
      assert lines[..i + 1][..i] == lines[..i];
      var pieces := SplitLine(lines[i], '\n');
      out := out + pieces;
      i := i + 1;
    }
    assert lines[..i] == lines;
  }

  /** Split lines hold no newline. */
  lemma {:induction false} SplitAllNoNewline(lines: seq<string>)
    ensures forall i :: 0 <= i < |SplitAll(lines)| ==> '\n' !in SplitAll(lines)[i]
    decreases |lines|
  {
    if lines != [] {
      var init, last := lines[..|lines| - 1], lines[|lines| - 1];
      SplitAllNoNewline(init);
      SplitPiecesFree(last, '\n');
      var a, b := SplitAll(init), Split(last, '\n');
      forall i | 0 <= i < |a + b| ensures '\n' !in (a + b)[i] {
        if i >= |a| {
          assert (a + b)[i] == b[i - |a|];
        }
      }
    }
  }

  /** Joining two non-empty runs of lines with newlines. */
  lemma {:induction false} JoinAppend(a: seq<string>, b: seq<string>)
    requires a != [] && b != []
    ensures Join(a + b, '\n') == Join(a, '\n') + "\n" + Join(b, '\n')
    decreases |b|
  {
    if |b| == 1 {
      assert (a + b)[..|a + b| - 1] == a;
    } else {
      var b0 := b[..|b| - 1];
      JoinAppend(a, b0);
      assert (a + b)[..|a + b| - 1] == a + b0;
    }
  }

  /** Splitting changes where lines break, not the text: joined with
      newlines, the pieces read exactly as the original lines do. */
  lemma {:induction false} SplitAllPreservesText(lines: seq<string>)
    ensures Join(SplitAll(lines), '\n') == Join(lines, '\n')
    ensures lines != [] ==> SplitAll(lines) != []
    decreases |lines|
  {
    if lines != [] {
      var init, last := lines[..|lines| - 1], lines[|lines| - 1];
      SplitAllPreservesText(init);
      JoinSplit(last, '\n');
      if init == [] {
        assert SplitAll(lines) == Split(last, '\n');
      } else {
        JoinAppend(SplitAll(init), Split(last, '\n'));
      }
    }
  }

  /** Lines that already hold no newline are left as they are, so splitting twice is splitting once. */
  lemma {:induction false} SplitAllPlain(lines: seq<string>)
    requires forall i :: 0 <= i < |lines| ==> '\n' !in lines[i]
    ensures SplitAll(lines) == lines
    decreases |lines|
  {
    if lines != [] {
      SplitAllPlain(lines[..|lines| - 1]);
      SplitPlain(lines[|lines| - 1], '\n');
    }
  }

  lemma SplitAllIdempotent(lines: seq<string>)
    ensures SplitAll(SplitAll(lines)) == SplitAll(lines)
  {
    SplitAllNoNewline(lines);
    SplitAllPlain(SplitAll(lines));
  }
}
