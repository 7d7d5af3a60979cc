/**
 * `MaterialTemplate` of pathos/material/material_shader_assembler.h: the
 * lines of the `_template.glsl` shader and, for each `$NEED` placeholder,
 * the index of the line that holds it (-1 while unknown).
 */
module MaterialTemplates {
  import opened Wrappers
  import opened StringUtil

  /** The placeholders a template can name after `$NEED`. */
  datatype Placeholder =
    | ShaderStage | ShadingModel | OutputWorldNormal | SkyboxMaterial
    | TransferDrawId | TransferInstanceId | IndirectDrawMode | Ubo
    | TextureParams | GetVpo | GetMaterialAttrs | GetSceneColor | EmbedGlsl

  const NeedHeader := "$NEED"

  /** The word that follows `$NEED ` on a placeholder line. */
  function NeedName(p: Placeholder): string
  {
    match p
    case ShaderStage => "SHADERSTAGE"
    case ShadingModel => "SHADINGMODEL"
    case OutputWorldNormal => "OUTPUTWORLDNORMAL"
    case SkyboxMaterial => "SKYBOXMATERIAL"
    case TransferDrawId => "TRANSFER_DRAW_ID"
    case TransferInstanceId => "TRANSFER_INSTANCE_ID"
    case IndirectDrawMode => "INDIRECT_DRAW_MODE"
    case Ubo => "UBO_Material"
    case TextureParams => "TEXTURE_PARAMETERS"
    case GetVpo => "getVertexPositionOffset"
    case GetMaterialAttrs => "getMaterialAttributes"
    case GetSceneColor => "getSceneColor"
    case EmbedGlsl => "embedGlsl"
  }

  /** The order of the lookup table in updatePlaceholderIx. */
  function TargetOrder(): seq<Placeholder>
  {
    [ShaderStage, ShadingModel, OutputWorldNormal, SkyboxMaterial, TransferDrawId,
     TransferInstanceId, IndirectDrawMode, Ubo, TextureParams, GetVpo,
     GetMaterialAttrs, GetSceneColor, EmbedGlsl]
  }

  /** The first placeholder of `ps` named `header`. */
  function FirstNamed(header: string, ps: seq<Placeholder>): (r: Option<Placeholder>)
    ensures r.Some? ==> r.value in ps && NeedName(r.value) == header
    ensures r.None? ==> forall p :: p in ps ==> NeedName(p) != header
    decreases |ps|
  {
    if ps == [] then None
    else if NeedName(ps[0]) == header then Some(ps[0])
    else FirstNamed(header, ps[1..])
  }

  function PlaceholderOf(header: string): Option<Placeholder>
  {
    FirstNamed(header, TargetOrder())
  }

  lemma InTargets(p: Placeholder)
    ensures p in TargetOrder()
  {
    var t := TargetOrder();
    match p
    case ShaderStage => assert t[0] == p;
    case ShadingModel => assert t[1] == p;
    case OutputWorldNormal => assert t[2] == p;
    case SkyboxMaterial => assert t[3] == p;
    case TransferDrawId => assert t[4] == p;
    case TransferInstanceId => assert t[5] == p;
    case IndirectDrawMode => assert t[6] == p;
    case Ubo => assert t[7] == p;
    case TextureParams => assert t[8] == p;
    case GetVpo => assert t[9] == p;
    case GetMaterialAttrs => assert t[10] == p;
    case GetSceneColor => assert t[11] == p;
    case EmbedGlsl => assert t[12] == p;
  }

  /** Each placeholder is found by its own name, so no two share one. */
  lemma PlaceholderOfName(p: Placeholder)
    ensures PlaceholderOf(NeedName(p)) == Some(p)
  {
    InTargets(p);
    var r := PlaceholderOf(NeedName(p));
    NamesDistinct(r.value, p);
  }

  lemma NamesDistinct(p: Placeholder, q: Placeholder)
    requires NeedName(p) == NeedName(q)
    ensures p == q
  {
    var a, b := NeedName(p), NeedName(q);
    assert |a| == |b| && a[0] == b[0] && a[|a| - 1] == b[|b| - 1] && a[3] == b[3];
  }

  /** A line is a placeholder line for `p`: `$NEED`, one separator character, then the name. */
  predicate NeedLine(line: string, p: Placeholder)
  {
    StartsWith(line, NeedHeader) && |line| > |NeedHeader| && line[|NeedHeader| + 1..] == NeedName(p)
  }

  /** A line that is `$NEED` and nothing else, where taking the name past the header goes out of range. */
  predicate BareHeader(line: string)
  {
    StartsWith(line, NeedHeader) && |line| <= |NeedHeader|
  }

  lemma BareHeaderIsHeader(line: string)
    ensures BareHeader(line) <==> line == NeedHeader
  {
    if line == NeedHeader {
      StartsWithConcat(NeedHeader, "");
      assert NeedHeader + "" == line;
    }
    if BareHeader(line) {
      assert MatchAt(line, NeedHeader, 0);
      assert line == line[..|NeedHeader|];
    }
  }

  /** The placeholder index map after one line. */
  function LocateLine(m: map<Placeholder, int>, ix: int, line: string): map<Placeholder, int>
  {
    if StartsWith(line, NeedHeader) && |line| > |NeedHeader| then
      match PlaceholderOf(line[|NeedHeader| + 1..])
      case Some(p) => m[p := ix]
      case None => m
    else m
  }

  /** The placeholder index map after scanning `lines` from the start. */
  function Locate(m: map<Placeholder, int>, lines: seq<string>): map<Placeholder, int>
    decreases |lines|
  {
    if lines == [] then m else LocateLine(Locate(m, lines[..|lines| - 1]), |lines| - 1, lines[|lines| - 1])
  }

  /** No line after `i` names `p`. */
  ghost predicate LastNaming(lines: seq<string>, i: nat, p: Placeholder)
  {
    forall j :: i < j < |lines| ==> !NeedLine(lines[j], p)
  }

  /** One line moves `p` to that line exactly when it names `p`. */
  lemma LocateLineSpec(m: map<Placeholder, int>, ix: int, line: string, p: Placeholder)
    requires p in m
    ensures p in LocateLine(m, ix, line)
    ensures LocateLine(m, ix, line)[p] == if NeedLine(line, p) then ix else m[p]
  {
    if NeedLine(line, p) {
      PlaceholderOfName(p);
    }
  }

  /** Each placeholder ends up at the last line naming it, or keeps its old index. */
  lemma {:induction false} LocateSpec(m: map<Placeholder, int>, lines: seq<string>, p: Placeholder)
    requires p in m
    ensures p in Locate(m, lines)
    ensures (forall i :: 0 <= i < |lines| ==> !NeedLine(lines[i], p)) ==> Locate(m, lines)[p] == m[p]
    ensures forall i :: 0 <= i < |lines| && NeedLine(lines[i], p) && LastNaming(lines, i, p) ==> Locate(m, lines)[p] == i
    decreases |lines|
  {
    if lines != [] {
      var init, last := lines[..|lines| - 1], lines[|lines| - 1];
      LocateSpec(m, init, p);
      LocateLineSpec(Locate(m, init), |lines| - 1, last, p);
      forall i | 0 <= i < |lines| && NeedLine(lines[i], p) && LastNaming(lines, i, p)
        ensures Locate(m, lines)[p] == i
      {
        if i < |init| {
          assert init[i] == lines[i];
          assert LastNaming(init, i, p);
        }
      }
    }
  }

  /** Every placeholder but getSceneColor must be present; getSceneColor is for forward shading only. */
  predicate Required(p: Placeholder)
  {
    p != GetSceneColor
  }

  predicate Total(m: map<Placeholder, int>)
  {
    forall p: Placeholder :: p in m
  }

  /** The conjunction of checkPlaceholders, in its own order. */
  predicate AllListed(m: map<Placeholder, int>)
    requires Total(m)
  {
    m[ShaderStage] != -1 && m[ShadingModel] != -1 && m[OutputWorldNormal] != -1 &&
    m[SkyboxMaterial] != -1 && m[TransferDrawId] != -1 && m[TransferInstanceId] != -1 &&
    m[IndirectDrawMode] != -1 && m[Ubo] != -1 && m[TextureParams] != -1 &&
    m[GetVpo] != -1 && m[EmbedGlsl] != -1 && m[GetMaterialAttrs] != -1
  }

  lemma AllListedRequired(m: map<Placeholder, int>)
    requires Total(m)
    ensures AllListed(m) <==> forall p :: Required(p) ==> m[p] != -1
  {
    if AllListed(m) {
      forall p | Required(p) ensures m[p] != -1 {
        match p
        case ShaderStage =>
        case ShadingModel =>
        case OutputWorldNormal =>
        case SkyboxMaterial =>
        case TransferDrawId =>
        case TransferInstanceId =>
        case IndirectDrawMode =>
        case Ubo =>
        case TextureParams =>
        case GetVpo =>
        case GetMaterialAttrs =>
        case EmbedGlsl =>
      }
    }
  }

  /** checkPlaceholders, over an index map with every placeholder in it. */
  function CheckPlaceholders(m: map<Placeholder, int>): (r: bool)
    requires Total(m)
    ensures r <==> forall p :: Required(p) ==> m[p] != -1
  {
    AllListedRequired(m);
    AllListed(m)
  }

  /** The map with every placeholder at -1. */
  const Unset: map<Placeholder, int> :=
    map[ShaderStage := -1, ShadingModel := -1, OutputWorldNormal := -1,
      SkyboxMaterial := -1, TransferDrawId := -1, TransferInstanceId := -1,
      IndirectDrawMode := -1, Ubo := -1, TextureParams := -1, GetVpo := -1,
      GetMaterialAttrs := -1, GetSceneColor := -1, EmbedGlsl := -1]

  lemma UnsetTotal()
    ensures Total(Unset) && forall p :: Unset[p] == -1
  {
    forall p ensures p in Unset && Unset[p] == -1 {
      match p
      case ShaderStage =>
      case ShadingModel =>
      case OutputWorldNormal =>
      case SkyboxMaterial =>
      case TransferDrawId =>
      case TransferInstanceId =>
      case IndirectDrawMode =>
      case Ubo =>
      case TextureParams =>
      case GetVpo =>
      case GetMaterialAttrs =>
      case GetSceneColor =>
      case EmbedGlsl =>
    }
  }

  /** The line as fixupNewlines leaves it: a newline added unless it already ends in one. */
  function FixupLine(line: string): (r: string)
  {
    if |line| == 0 || line[|line| - 1] != '\n' then line + "\n" else line
  }

  /** A fixed-up line is non-empty, ends in a newline, and is the old line or it plus a newline. */
  lemma FixupLineSpec(line: string)
    ensures var r := FixupLine(line);
      |r| > 0 && r[|r| - 1] == '\n' &&
      (r == line || r == line + "\n") &&
      (|line| > 0 && line[|line| - 1] == '\n' ==> r == line)
  {
  }

  /** Fixing up a line twice is fixing it up once. */
  lemma FixupLineIdempotent(line: string)
    ensures FixupLine(FixupLine(line)) == FixupLine(line)
  {
    var r := FixupLine(line);
    assert r[|r| - 1] == '\n';
  }

  /** Scanning one more line applies LocateLine to the map so far. */
  lemma LocateSnoc(start: map<Placeholder, int>, lines: seq<string>, ix: nat)
    requires ix < |lines|
    ensures Locate(start, lines[..ix + 1]) == LocateLine(Locate(start, lines[..ix]), ix, lines[ix])
  {
    assert lines[..ix + 1][..ix] == lines[..ix];
  }

  /** One pass of the line loop of updatePlaceholderIx: a bare `$NEED` line
      throws, any other line updates the index map as LocateLine says. */
  method ScanNeedLine(m: map<Placeholder, int>, ix: nat, line: string)
    returns (bare: bool, m': map<Placeholder, int>)
    requires Total(m)
    ensures bare <==> line == NeedHeader
    ensures !bare ==> m' == LocateLine(m, ix, line) && Total(m')
  {
    BareHeaderIsHeader(line);
    m' := m;
    if StartsWith(line, NeedHeader) {
      if |line| < |NeedHeader| + 1 {
        return true, m';
      }
      var p := MaterialTemplate.FindPlaceholder(line[|NeedHeader| + 1..]);
      if p.Some? {
        m' := m[p.value := ix];
      }
    }
    bare := false;
  }

  /** The line loop of updatePlaceholderIx, from the index map `start`: it
      stops at the first bare `$NEED` line, and otherwise records every named
      placeholder's line. */
  method ScanNeedLines(lines: seq<string>, start: map<Placeholder, int>)
    returns (thrownAt: Option<nat>, m: map<Placeholder, int>)
    requires Total(start)
    ensures Total(m)
    ensures thrownAt.None? ==> NeedHeader !in lines && m == Locate(start, lines)
    ensures thrownAt.Some? ==>
      thrownAt.value < |lines| && lines[thrownAt.value] == NeedHeader &&
      NeedHeader !in lines[..thrownAt.value] && m == Locate(start, lines[..thrownAt.value])
  {
    m := start;
    var ix := 0;
    while ix < |lines|
      invariant ix <= |lines| && Total(m)
      invariant NeedHeader !in lines[..ix]
      invariant m == Locate(start, lines[..ix])
    {
      var bare, m' := ScanNeedLine(m, ix, lines[ix]);
      if bare {
        return Some(ix), m;
      }
      LocateSnoc(start, lines, ix);
      assert lines[..ix + 1] == lines[..ix] + [lines[ix]];
      m := m';
      ix := ix + 1;
    }
    assert lines[..ix] == lines;
    thrownAt := None;
  }

  class MaterialTemplate {
    /** The line index of each placeholder; -1 while unknown. */
    var lineIx: map<Placeholder, int>
    /** Source code of the template, one entry per line. */
    var sourceLines: seq<string>

    ghost predicate Valid()
      reads this
    {
      Total(lineIx)
    }

    /** A template holding `lines`, with no placeholder located yet. */
    constructor (lines: seq<string>)
      ensures Valid() && lineIx == Unset && sourceLines == lines
    {
      UnsetTotal();
      lineIx := Unset;
      sourceLines := lines;
    }

    /** checkPlaceholders */
    function Complete(): (r: bool)
      requires Valid()
      reads this
      ensures r <==> forall p :: Required(p) ==> lineIx[p] != -1
    {
      CheckPlaceholders(lineIx)
    }

    /** The table lookup inside updatePlaceholderIx: the first entry whose name is `header`. */
    static method FindPlaceholder(header: string) returns (r: Option<Placeholder>)
      ensures r == PlaceholderOf(header)
    {
      var targets := TargetOrder();
      var i := 0;
      while i < |targets|
        invariant i <= |targets|
        invariant FirstNamed(header, targets) == FirstNamed(header, targets[i..])
      {
        if NeedName(targets[i]) == header {
          return Some(targets[i]);
        }
        assert targets[i..][1..] == targets[i + 1..];
        i := i + 1;
      }
      return None;
    }

    /**
     * updatePlaceholderIx: records, for each `$NEED <name>` line, its
     * index under that placeholder. A line that is `$NEED` alone makes
     * taking the name go out of range, which ends the scan with `thrownAt`
     * naming that line; otherwise `complete` is the result of the final
     * checkPlaceholders.
     */
    method UpdatePlaceholderIx() returns (thrownAt: Option<nat>, complete: bool)
      requires Valid()
      modifies this
      ensures Valid() && sourceLines == old(sourceLines)
      ensures thrownAt.None? ==>
        NeedHeader !in sourceLines &&
        lineIx == Locate(old(lineIx), sourceLines) &&
        complete == CheckPlaceholders(lineIx)
      ensures thrownAt.Some? ==>
        thrownAt.value < |sourceLines| && sourceLines[thrownAt.value] == NeedHeader &&
        NeedHeader !in sourceLines[..thrownAt.value] &&
        lineIx == Locate(old(lineIx), sourceLines[..thrownAt.value]) && !complete
    {
      var m;
      thrownAt, m := ScanNeedLines(sourceLines, lineIx);
      lineIx := m;
      complete := thrownAt.None? && CheckPlaceholders(m);
    }

    /** fixupNewlines */
    method FixupNewlines()
      modifies this
      ensures lineIx == old(lineIx)
      ensures |sourceLines| == |old(sourceLines)|
      ensures forall i :: 0 <= i < |sourceLines| ==> sourceLines[i] == FixupLine(old(sourceLines)[i])
    {
      var i := 0;
      while i < |sourceLines|
        invariant i <= |sourceLines| && |sourceLines| == |old(sourceLines)| && lineIx == old(lineIx)
        invariant forall j :: 0 <= j < i ==> sourceLines[j] == FixupLine(old(sourceLines)[j])
        invariant forall j :: i <= j < |sourceLines| ==> sourceLines[j] == old(sourceLines)[j]
      {
        var line := sourceLines[i];
        if |line| == 0 || line[|line| - 1] != '\n' {
          sourceLines := sourceLines[i := line + "\n"];
        }
        i := i + 1;
      }
    }

    /** Every replace* member: the line at the placeholder's index becomes `text`. */
    method Replace(p: Placeholder, text: string)
      requires Valid() && 0 <= lineIx[p] < |sourceLines|
      modifies this
      ensures Valid() && lineIx == old(lineIx)
      ensures sourceLines == old(sourceLines)[old(lineIx)[p] := text]
    {
      sourceLines := sourceLines[lineIx[p] := text];
    }

    /** makeClone: a copy with the same lines and indices. */
    method MakeClone() returns (c: MaterialTemplate)
      ensures fresh(c)
      ensures c.lineIx == lineIx && c.sourceLines == sourceLines
    {
      c := new MaterialTemplate(sourceLines);
      c.lineIx := lineIx;
    }
  }

  /** After fixupNewlines every line is non-empty and ends in a newline, and
      a second call changes nothing. */
  method FixupTwice(t: MaterialTemplate)
    modifies t
    ensures |t.sourceLines| == |old(t.sourceLines)|
    ensures forall i :: 0 <= i < |t.sourceLines| ==>
      |t.sourceLines[i]| > 0 && t.sourceLines[i][|t.sourceLines[i]| - 1] == '\n'
    ensures forall i :: 0 <= i < |t.sourceLines| ==> t.sourceLines[i] == FixupLine(old(t.sourceLines)[i])
  {
    t.FixupNewlines();
    ghost var once := t.sourceLines;
    forall i | 0 <= i < |once| ensures |once[i]| > 0 && once[i][|once[i]| - 1] == '\n' {
      FixupLineSpec(old(t.sourceLines)[i]);
    }
    t.FixupNewlines();
    forall i | 0 <= i < |t.sourceLines| ensures t.sourceLines[i] == once[i] {
      FixupLineIdempotent(old(t.sourceLines)[i]);
    }
  }

  /** The clone is independent: replacing a line in it leaves the original as it was. */
  method CloneIndependent(t: MaterialTemplate, p: Placeholder, text: string) returns (c: MaterialTemplate)
    requires t.Valid() && 0 <= t.lineIx[p] < |t.sourceLines|
    ensures t.sourceLines == old(t.sourceLines) && t.lineIx == old(t.lineIx)
    ensures c != t && c.sourceLines == old(t.sourceLines)[old(t.lineIx[p]) := text]
  {
    c := t.MakeClone();
    c.Replace(p, text);
  }
}
