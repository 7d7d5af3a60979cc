/**
 * The shader source builders of pathos/render/shader.cpp. Each builder
 * collects (type, name) declarations and main-body code and prints a GLSL
 * shader from them. A declaration whose name is already present is
 * dropped when the type agrees and is an error (a thrown exception) when
 * it does not.
 */
module ShaderSources {
  import opened Wrappers
  import opened StringUtil
  import Sorting
  import Sequences

  /** A declared variable: a (type, name) pair. */
  datatype ShaderVar = ShaderVar(typ: string, name: string)

  const GlVertexShader: nat := 0x8B31
  const GlFragmentShader: nat := 0x8B30
  const GlGeometryShader: nat := 0x8DD9

  // ---------------------------------------------------------------------
  // Declarations

  /** Index of the first variable named `name`. */
  function FirstNamed(vars: seq<ShaderVar>, name: string): Option<nat>
  {
    Sequences.FirstIndex(vars, (v: ShaderVar) => v.name == name)
  }

  /** The list after declaring `v`: unchanged when its name is taken with the
      same type, None (the exception) when taken with another type, and `v`
      appended when the name is new. */
  function Declared(vars: seq<ShaderVar>, v: ShaderVar): Option<seq<ShaderVar>>
  {
    match FirstNamed(vars, v.name)
    case None => Some(vars + [v])
    case Some(i) => if vars[i].typ == v.typ then Some(vars) else None
  }

  ghost predicate UniqueNames(vars: seq<ShaderVar>)
  {
    forall i, j :: 0 <= i < j < |vars| ==> vars[i].name != vars[j].name
  }

  /** Declarations keep names unique; a declaration fails exactly when the
      name is taken with another type, and otherwise leaves `v` declared. */
  lemma DeclaredSpec(vars: seq<ShaderVar>, v: ShaderVar)
    requires UniqueNames(vars)
    ensures Declared(vars, v).None? <==> exists i :: 0 <= i < |vars| && vars[i].name == v.name && vars[i].typ != v.typ
    ensures Declared(vars, v).Some? ==>
      var w := Declared(vars, v).value;
      UniqueNames(w) && v in w && (w == vars || w == vars + [v])
  {
    var f := FirstNamed(vars, v.name);
    if f.Some? {
      var i := f.value;
      if vars[i].typ == v.typ {
        assert vars[i] == v;
      }
      forall k | 0 <= k < |vars| && vars[k].name == v.name ensures k == i {
      }
    } else {
      var w := vars + [v];
      assert w[|vars|] == v;
    }
  }

  /** Declaring the same variable again changes nothing. */
  lemma DeclaredIdempotent(vars: seq<ShaderVar>, v: ShaderVar)
    requires Declared(vars, v).Some?
    ensures Declared(Declared(vars, v).value, v) == Declared(vars, v)
  {
    var w := Declared(vars, v).value;
    var f := FirstNamed(vars, v.name);
    if f.None? {
      var g := FirstNamed(w, v.name);
      assert w[|vars|] == v;
      assert g.Some? && g.value == |vars|;
    } else {
      assert FirstNamed(w, v.name) == f;
    }
  }

  /** The duplicate check of outVar, inVar and uniform. */
  method Declare(vars: seq<ShaderVar>, v: ShaderVar) returns (r: Option<seq<ShaderVar>>)
    ensures r == Declared(vars, v)
  {
    var i := 0;
    while i < |vars|
      invariant i <= |vars|
      invariant forall j :: 0 <= j < i ==> vars[j].name != v.name
    {
      if vars[i].name == v.name {
        assert FirstNamed(vars, v.name) == Some(i);
        if vars[i].typ == v.typ {
          return Some(vars);
        }
        return None;
      }
      i := i + 1;
    }
    return Some(vars + [v]);
  }

  // ---------------------------------------------------------------------
  // Printing

  /** Variables are sorted by name, with the comparison `std::string` uses. */
  predicate NameLe(a: ShaderVar, b: ShaderVar)
  {
    LexLe(a.name, b.name)
  }

  lemma NameLePreorder()
    ensures Sorting.TotalPreorder(NameLe)
  {
    forall a, b ensures NameLe(a, b) || NameLe(b, a) {
      LexTotal(a.name, b.name);
    }
    forall a, b, c | NameLe(a, b) && NameLe(b, c) ensures NameLe(a, c) {
      LexTrans(a.name, b.name, c.name);
    }
  }

  /** The declaration lines of `vars`, each `prefix + type + " " + name + ";"`. */
  function Decls(prefix: string, vars: seq<ShaderVar>): (ls: seq<string>)
    ensures |ls| == |vars|
  {
    seq(|vars|, i requires 0 <= i < |vars| => prefix + vars[i].typ + " " + vars[i].name + ";")
  }

  /** The loops that print one declaration per line. */
  method EmitVars(prefix: string, vars: seq<ShaderVar>) returns (text: string)
    ensures text == Unlines(Decls(prefix, vars))
  {
    text := "";
    var i := 0;
    while i < |vars|
      invariant i <= |vars|
      invariant text == Unlines(Decls(prefix, vars)[..i])
    {
      assert Decls(prefix, vars)[..i + 1][..i] == Decls(prefix, vars)[..i];
      var line := prefix + vars[i].typ + " " + vars[i].name + ";";
      text := text + line + "\n";
      i := i + 1;
    }
    assert Decls(prefix, vars)[..i] == Decls(prefix, vars);
  }

  /** Without newlines in the pieces, the printed block has one line per variable, in order. */
  lemma DeclsLines(prefix: string, vars: seq<ShaderVar>)
    requires '\n' !in prefix
    requires forall i :: 0 <= i < |vars| ==> '\n' !in vars[i].typ && '\n' !in vars[i].name
    ensures Split(Unlines(Decls(prefix, vars)), '\n') == Decls(prefix, vars) + [""]
  {
    UnlinesSplit(Decls(prefix, vars));
  }

  /** A block `open`, one line per variable, `close`, printed only when there are variables. */
  function Block(open: string, vars: seq<ShaderVar>, close: string): (r: string)
    ensures r == "" <==> vars == []
  {
    if vars == [] then "" else open + Unlines(Decls("  ", vars)) + close
  }

  /** A piece of output printed only under condition `c`. */
  function Opt(c: bool, s: string): string
  {
    if c then s else ""
  }

  /** `mainCode`: the line indented by two spaces, then a newline. */
  function MainLine(code: string): string
  {
    "  " + code + "\n"
  }

  // ---------------------------------------------------------------------
  // Vertex shaders

  /** The out variables `getCode` adds before printing: normal, uv and position, each on request. */
  function AutoOutVars(vars: seq<ShaderVar>, useNormal: bool, useUV: bool, transferPosition: bool): Option<seq<ShaderVar>>
  {
    var a := if useNormal then Declared(vars, ShaderVar("vec3", "normal")) else Some(vars);
    if a.None? then None else
    var b := if useUV then Declared(a.value, ShaderVar("vec2", "uv")) else a;
    if b.None? then None else
    if transferPosition then Declared(b.value, ShaderVar("vec3", "position")) else b
  }

  /** The out variables the three declarations leave behind: those declared
      before the first one that throws, or all of them. */
  function AutoOutVarsState(vars: seq<ShaderVar>, useNormal: bool, useUV: bool, transferPosition: bool): seq<ShaderVar>
  {
    var a := if useNormal then Declared(vars, ShaderVar("vec3", "normal")) else Some(vars);
    if a.None? then vars else
    var b := if useUV then Declared(a.value, ShaderVar("vec2", "uv")) else a;
    if b.None? then a.value else
    var c := if transferPosition then Declared(b.value, ShaderVar("vec3", "position")) else b;
    if c.None? then b.value else c.value
  }

  /** Without a throw the state left behind is the declared list; with one,
      it still extends the old list by the varyings declared before the throw. */
  lemma AutoOutVarsStateAgrees(vars: seq<ShaderVar>, useNormal: bool, useUV: bool, transferPosition: bool)
    requires UniqueNames(vars)
    ensures var auto := AutoOutVars(vars, useNormal, useUV, transferPosition);
      auto.Some? ==> AutoOutVarsState(vars, useNormal, useUV, transferPosition) == auto.value
    ensures var w := AutoOutVarsState(vars, useNormal, useUV, transferPosition);
      UniqueNames(w) && |vars| <= |w| && w[..|vars|] == vars
  {
    var n, u, q := ShaderVar("vec3", "normal"), ShaderVar("vec2", "uv"), ShaderVar("vec3", "position");
    var a := if useNormal then Declared(vars, n) else Some(vars);
    if useNormal { DeclaredExtends(vars, n); }
    if a.Some? {
      var b := if useUV then Declared(a.value, u) else a;
      if useUV { DeclaredExtends(a.value, u); }
      if b.Some? {
        if transferPosition { DeclaredExtends(b.value, q); }
        var c := if transferPosition then Declared(b.value, q) else b;
        var w := if c.None? then b.value else c.value;
        PrefixTrans(vars, a.value, b.value);
        PrefixTrans(vars, b.value, w);
      }
    }
  }

  /** A successful declaration keeps names unique and extends the list. */
  lemma DeclaredExtends(vars: seq<ShaderVar>, v: ShaderVar)
    requires UniqueNames(vars)
    ensures Declared(vars, v).Some? ==>
      var w := Declared(vars, v).value;
      UniqueNames(w) && |vars| <= |w| && w[..|vars|] == vars
  {
    DeclaredSpec(vars, v);
  }

  /** A prefix of a prefix is a prefix. */
  lemma PrefixTrans(a: seq<ShaderVar>, b: seq<ShaderVar>, c: seq<ShaderVar>)
    requires |a| <= |b| <= |c| && b[..|a|] == a && c[..|b|] == b
    ensures c[..|a|] == a
  {
    assert c[..|a|] == c[..|b|][..|a|];
  }

  /** A requested varying is always declared, so the VS_OUT block is printed
      exactly when there is an out variable. */
  lemma AutoOutVarsBlock(vars: seq<ShaderVar>, useNormal: bool, useUV: bool, transferPosition: bool)
    requires UniqueNames(vars)
    requires AutoOutVars(vars, useNormal, useUV, transferPosition).Some?
    ensures var w := AutoOutVars(vars, useNormal, useUV, transferPosition).value;
      UniqueNames(w) &&
      ((useNormal || useUV || |vars| > 0) ==> |w| > 0) &&
      (useNormal ==> ShaderVar("vec3", "normal") in w) &&
      (useUV ==> ShaderVar("vec2", "uv") in w) &&
      (transferPosition ==> ShaderVar("vec3", "position") in w) &&
      forall x :: x in vars ==> x in w
  {
    var n, u, p := ShaderVar("vec3", "normal"), ShaderVar("vec2", "uv"), ShaderVar("vec3", "position");
    var a := if useNormal then Declared(vars, n) else Some(vars);
    if useNormal { DeclaredSpec(vars, n); }
    var b := if useUV then Declared(a.value, u) else a;
    if useUV { DeclaredSpec(a.value, u); }
    if transferPosition { DeclaredSpec(b.value, p); }
  }

  /** The declarations `getCode` makes before printing, in its order. */
  method DeclareAutoOutVars(vars: seq<ShaderVar>, useNormal: bool, useUV: bool, transferPosition: bool)
    returns (r: Option<seq<ShaderVar>>, w: seq<ShaderVar>)
    ensures r == AutoOutVars(vars, useNormal, useUV, transferPosition)
    ensures w == AutoOutVarsState(vars, useNormal, useUV, transferPosition)
  {
    w := vars;
    if useNormal {
      var d := Declare(w, ShaderVar("vec3", "normal"));
      if d.None? {
        return None, w;
      }
      w := d.value;
    }
    if useUV {
      var d := Declare(w, ShaderVar("vec2", "uv"));
      if d.None? {
        return None, w;
      }
      w := d.value;
    }
    if transferPosition {
      var d := Declare(w, ShaderVar("vec3", "position"));
      if d.None? {
        return None, w;
      }
      w := d.value;
    }
    return Some(w), w;
  }

  /** `layout (location = L) in T N;` */
  function InputLine(location: nat, typ: string, name: string): string
  {
    "layout (location = " + DecimalString(location) + ") in " + typ + " " + name + ";\n"
  }

  const TransformUniforms := "uniform mat4 modelTransform;\nuniform mat4 mvpTransform;\n"
  const NormalOut := "  vs_out.normal = normalize((modelTransform * vec4(normal, 0.0)).xyz);\n"
  const UvOut := "  vs_out.uv = uv;\n"
  const ClipPosition := "  gl_Position = mvpTransform * vec4(position, 1.0);\n"
  const WorldPositionOut := "  vs_out.position = vec3(modelTransform * vec4(position, 1));\n"

  /** The VS_OUT interface block around the out variables. */
  function OutBlock(vars: seq<ShaderVar>): string
  {
    "out VS_OUT {\n" + Unlines(Decls("  ", vars)) + "} vs_out;\n"
  }

  class VertexShaderSource {
    const shaderType: nat
    var positionLocation: nat
    var uvLocation: nat
    var normalLocation: nat
    var tangentLocation: nat
    var bitangentLocation: nat
    var usePosition: bool
    var useUV: bool
    var useNormal: bool
    var useTangent: bool
    var useBitangent: bool
    var transferPosition: bool
    var uniforms: seq<ShaderVar>
    var outVars: seq<ShaderVar>
    var maincode: string

    /** The state `clear` sets up. */
    ghost predicate Cleared()
      reads this
    {
      usePosition && !useNormal && !useUV && !useTangent && !useBitangent &&
      positionLocation == 0 && uvLocation == 1 && normalLocation == 2 &&
      tangentLocation == 3 && bitangentLocation == 4 && maincode == ""
    }

    constructor ()
      ensures Cleared() && !transferPosition && uniforms == [] && outVars == []
      ensures shaderType == GlVertexShader
    {
      shaderType := GlVertexShader;
      transferPosition := false;
      uniforms := [];
      outVars := [];
      new;
      Clear();
    }

    /** `clear` resets flags, locations and the main code, and keeps the
        declared uniforms and out variables and `transferPosition`. */
    method Clear()
      modifies this
      ensures Cleared()
      ensures uniforms == old(uniforms) && outVars == old(outVars)
      ensures transferPosition == old(transferPosition)
    {
      usePosition := true;
      useNormal, useUV, useTangent, useBitangent := false, false, false, false;
      positionLocation, uvLocation, normalLocation := 0, 1, 2;
      tangentLocation, bitangentLocation := 3, 4;
      maincode := "";
    }

    /** `outVar`: false where the source throws. */
    method OutVar(typ: string, name: string) returns (ok: bool)
      modifies this
      ensures var r := Declared(old(outVars), ShaderVar(typ, name));
        ok == r.Some? && outVars == (if ok then r.value else old(outVars))
      ensures uniforms == old(uniforms) && maincode == old(maincode)
    {
      var r := Declare(outVars, ShaderVar(typ, name));
      ok := r.Some?;
      if ok {
        outVars := r.value;
      }
    }

    /** `uniform`: false where the source throws. */
    method Uniform(typ: string, name: string) returns (ok: bool)
      modifies this
      ensures var r := Declared(old(uniforms), ShaderVar(typ, name));
        ok == r.Some? && uniforms == (if ok then r.value else old(uniforms))
      ensures outVars == old(outVars) && maincode == old(maincode)
    {
      var r := Declare(uniforms, ShaderVar(typ, name));
      ok := r.Some?;
      if ok {
        uniforms := r.value;
      }
    }

    /** `uniformMat4` appends without looking for the name. */
    method UniformMat4(name: string)
      modifies this
      ensures uniforms == old(uniforms) + [ShaderVar("mat4", name)]
      ensures outVars == old(outVars) && maincode == old(maincode)
    {
      uniforms := uniforms + [ShaderVar("mat4", name)];
    }

    method MainCode(code: string)
      modifies this
      ensures maincode == old(maincode) + MainLine(code)
      ensures uniforms == old(uniforms) && outVars == old(outVars)
    {
      maincode := maincode + "  " + code + "\n";
    }

    /** The version line and the enabled vertex attributes. */
    function Inputs(): string
      reads this
    {
      "#version 430 core\n" +
      Opt(usePosition, InputLine(positionLocation, "vec3", "position")) +
      Opt(useNormal, InputLine(normalLocation, "vec3", "normal")) +
      Opt(useUV, InputLine(uvLocation, "vec2", "uv")) +
      Opt(useTangent, InputLine(tangentLocation, "vec3", "tangent")) +
      Opt(useBitangent, InputLine(bitangentLocation, "vec3", "bitangent"))
    }

    /** The VS_OUT block (when anything is passed on) and the uniforms. */
    function Globals(): string
      reads this
    {
      Opt(useNormal || useUV || |outVars| > 0, OutBlock(outVars)) +
      TransformUniforms +
      Unlines(Decls("uniform ", uniforms))
    }

    /** `main`: the user code, then the generated varying and position assignments. */
    function MainBody(): string
      reads this
    {
      "void main() {\n" +
      maincode +
      Opt(useNormal, NormalOut) +
      Opt(useUV, UvOut) +
      ClipPosition +
      Opt(transferPosition, WorldPositionOut) +
      "}\n"
    }

    /** The printed shader for the current fields. */
    function Text(): string
      reads this
    {
      Inputs() + Globals() + MainBody()
    }

    /** The version line and the attribute inputs, appended one by one. */
    method PrintInputs() returns (src: string)
      ensures src == Inputs()
    {
      src := "#version 430 core\n";
      if usePosition {
        var line := InputLine(positionLocation, "vec3", "position");
        src := src + line;
      }
      assert src == "#version 430 core\n" + Opt(usePosition, InputLine(positionLocation, "vec3", "position"));
      if useNormal {
        var line := InputLine(normalLocation, "vec3", "normal");
        src := src + line;
      }
      assert src == "#version 430 core\n" + Opt(usePosition, InputLine(positionLocation, "vec3", "position")) +
        Opt(useNormal, InputLine(normalLocation, "vec3", "normal"));
      if useUV {
        var line := InputLine(uvLocation, "vec2", "uv");
        src := src + line;
      }
      assert src == "#version 430 core\n" + Opt(usePosition, InputLine(positionLocation, "vec3", "position")) +
        Opt(useNormal, InputLine(normalLocation, "vec3", "normal")) +
        Opt(useUV, InputLine(uvLocation, "vec2", "uv"));
      if useTangent {
        var line := InputLine(tangentLocation, "vec3", "tangent");
        src := src + line;
      }
      assert src == "#version 430 core\n" + Opt(usePosition, InputLine(positionLocation, "vec3", "position")) +
        Opt(useNormal, InputLine(normalLocation, "vec3", "normal")) +
        Opt(useUV, InputLine(uvLocation, "vec2", "uv")) +
        Opt(useTangent, InputLine(tangentLocation, "vec3", "tangent"));
      if useBitangent {
        var line := InputLine(bitangentLocation, "vec3", "bitangent");
        src := src + line;
      }
    }

    /** The out block and the uniforms, appended one by one. */
    method PrintGlobals() returns (src: string)
      ensures src == Globals()
    {
      src := "";
      if useNormal || useUV || |outVars| > 0 {
        var block := EmitVars("  ", outVars);
        src := "out VS_OUT {\n" + block + "} vs_out;\n";
      }
      assert src == Opt(useNormal || useUV || |outVars| > 0, OutBlock(outVars));
      src := src + TransformUniforms;
      var us := EmitVars("uniform ", uniforms);
      src := src + us;
    }

    /** `main`, appended one by one. */
    method PrintMain() returns (src: string)
      ensures src == MainBody()
    {
      src := "void main() {\n";
      src := src + maincode;
      if useNormal {
        src := src + NormalOut;
      }
      assert src == "void main() {\n" + maincode + Opt(useNormal, NormalOut);
      if useUV {
        src := src + UvOut;
      }
      assert src == "void main() {\n" + maincode + Opt(useNormal, NormalOut) + Opt(useUV, UvOut);
      src := src + ClipPosition;
      if transferPosition {
        src := src + WorldPositionOut;
      }
      src := src + "}\n";
    }

    /** The whole shader text as `getCode` appends it. */
    method Print() returns (src: string)
      ensures src == Text()
    {
      src := PrintInputs();
      var globals := PrintGlobals();
      src := src + globals;
      var main := PrintMain();
      src := src + main;
    }

    /** `getCode`: declares the requested varyings, sorts the out variables
        by name in place and prints. None where declaring a varying throws;
        the varyings declared before the throw stay in the out variables. */
    method GetCode() returns (code: Option<string>)
      modifies this
      ensures var auto := AutoOutVars(old(outVars), old(useNormal), old(useUV), old(transferPosition));
        code.None? <==> auto.None?
      ensures code.None? ==> outVars == AutoOutVarsState(old(outVars), old(useNormal), old(useUV), old(transferPosition))
      ensures var auto := AutoOutVars(old(outVars), old(useNormal), old(useUV), old(transferPosition));
        code.Some? ==>
          Sorting.Sorted(outVars, NameLe) && multiset(outVars) == multiset(auto.value) &&
          code.value == Text()
      ensures uniforms == old(uniforms) && maincode == old(maincode)
      ensures useNormal == old(useNormal) && useUV == old(useUV) && transferPosition == old(transferPosition)
    {
      var auto, left := DeclareAutoOutVars(outVars, useNormal, useUV, transferPosition);
      if auto.None? {
        outVars := left;
        return None;
      }
      var vars := auto.value;
      NameLePreorder();
      outVars := Sorting.SortBy(vars, NameLe);
      var src := Print();
      code := Some(src);
    }
  }

  // ---------------------------------------------------------------------
  // Fragment shaders

  datatype SamplerKind = Sampler2D | SamplerCube | Sampler2DShadow | SamplerCubeShadow

  /** The uniform type each `textureSampler*` member declares. */
  function SamplerType(k: SamplerKind): string
  {
    match k
    case Sampler2D => "sampler2D"
    case SamplerCube => "samplerCube"
    case Sampler2DShadow => "sampler2DShadow"
    case SamplerCubeShadow => "samplerCubeShadow"
  }

  /** `uniform vec3 name[n];` */
  function ArrayUniform(name: string, n: nat): (r: string)
    ensures |r| > 0
  {
    "uniform vec3 " + name + "[" + DecimalString(n) + "];\n"
  }

  /** The light arrays, printed only for a positive count. */
  function LightLines(numDirLights: nat, numPointLights: nat): (r: string)
  {
    Opt(numDirLights > 0, ArrayUniform("dirLightDirs", numDirLights)) +
    Opt(numDirLights > 0, ArrayUniform("dirLightColors", numDirLights)) +
    Opt(numPointLights > 0, ArrayUniform("pointLightPos", numPointLights)) +
    Opt(numPointLights > 0, ArrayUniform("pointLightColors", numPointLights))
  }

  /** The light arrays, appended one by one. */
  method PrintLights(numDirLights: nat, numPointLights: nat) returns (lights: string)
    ensures lights == LightLines(numDirLights, numPointLights)
  {
    lights := "";
    if numDirLights > 0 {
      var dirs := ArrayUniform("dirLightDirs", numDirLights);
      lights := lights + dirs;
      var colors := ArrayUniform("dirLightColors", numDirLights);
      lights := lights + colors;
    }
    assert lights == Opt(numDirLights > 0, ArrayUniform("dirLightDirs", numDirLights)) +
      Opt(numDirLights > 0, ArrayUniform("dirLightColors", numDirLights));
    if numPointLights > 0 {
      var pos := ArrayUniform("pointLightPos", numPointLights);
      lights := lights + pos;
      var colors := ArrayUniform("pointLightColors", numPointLights);
      lights := lights + colors;
    }
  }

  /** No light arrays are printed exactly when both counts are zero. */
  lemma LightLinesEmpty(numDirLights: nat, numPointLights: nat)
    ensures LightLines(numDirLights, numPointLights) == "" <==> numDirLights == 0 && numPointLights == 0
  {
  }

  class FragmentShaderSource {
    const shaderType: nat
    var uniforms: seq<ShaderVar>
    var inVars: seq<ShaderVar>
    var outVars: seq<ShaderVar>
    var numDirLights: nat
    var numPointLights: nat
    var interfaceBlock: string
    var maincode: string

    ghost predicate Cleared()
      reads this
    {
      uniforms == [] && inVars == [] && outVars == [] &&
      numDirLights == 0 && numPointLights == 0 &&
      interfaceBlock == "VS_OUT" && maincode == ""
    }

    constructor ()
      ensures Cleared() && shaderType == GlFragmentShader
    {
      shaderType := GlFragmentShader;
      new;
      Clear();
    }

    /** `clear` empties all three lists, resets the light counts, the block name and the main code. */
    method Clear()
      modifies this
      ensures Cleared()
    {
      uniforms, inVars, outVars := [], [], [];
      numDirLights, numPointLights := 0, 0;
      interfaceBlock := "VS_OUT";
      maincode := "";
    }

    method Uniform(typ: string, name: string) returns (ok: bool)
      modifies this
      ensures var r := Declared(old(uniforms), ShaderVar(typ, name));
        ok == r.Some? && uniforms == (if ok then r.value else old(uniforms))
      ensures inVars == old(inVars) && outVars == old(outVars)
    {
      var r := Declare(uniforms, ShaderVar(typ, name));
      ok := r.Some?;
      if ok {
        uniforms := r.value;
      }
    }

    method InVar(typ: string, name: string) returns (ok: bool)
      modifies this
      ensures var r := Declared(old(inVars), ShaderVar(typ, name));
        ok == r.Some? && inVars == (if ok then r.value else old(inVars))
      ensures uniforms == old(uniforms) && outVars == old(outVars)
    {
      var r := Declare(inVars, ShaderVar(typ, name));
      ok := r.Some?;
      if ok {
        inVars := r.value;
      }
    }

    method OutVar(typ: string, name: string) returns (ok: bool)
      modifies this
      ensures var r := Declared(old(outVars), ShaderVar(typ, name));
        ok == r.Some? && outVars == (if ok then r.value else old(outVars))
      ensures uniforms == old(uniforms) && inVars == old(inVars)
    {
      var r := Declare(outVars, ShaderVar(typ, name));
      ok := r.Some?;
      if ok {
        outVars := r.value;
      }
    }

    /** `textureSampler`, `textureSamplerCube`, `textureSamplerShadow` and
        `textureSamplerCubeShadow`: a uniform of the sampler's type. */
    method TextureSampler(kind: SamplerKind, name: string) returns (ok: bool)
      modifies this
      ensures var r := Declared(old(uniforms), ShaderVar(SamplerType(kind), name));
        ok == r.Some? && uniforms == (if ok then r.value else old(uniforms))
      ensures inVars == old(inVars) && outVars == old(outVars)
    {
      ok := Uniform(SamplerType(kind), name);
    }

    method InterfaceBlockName(name: string)
      modifies this
      ensures interfaceBlock == name
      ensures uniforms == old(uniforms) && inVars == old(inVars) && outVars == old(outVars)
    {
      interfaceBlock := name;
    }

    method MainCode(code: string)
      modifies this
      ensures maincode == old(maincode) + MainLine(code)
      ensures uniforms == old(uniforms) && inVars == old(inVars) && outVars == old(outVars)
    {
      maincode := maincode + "  " + code + "\n";
    }

    method DirectionalLights(num: nat)
      modifies this
      ensures numDirLights == num && numPointLights == old(numPointLights)
    {
      numDirLights := num;
    }

    method PointLights(num: nat)
      modifies this
      ensures numPointLights == num && numDirLights == old(numDirLights)
    {
      numPointLights := num;
    }

    function Text(): string
      reads this
    {
      "#version 430 core\n" +
      Unlines(Decls("uniform ", uniforms)) +
      LightLines(numDirLights, numPointLights) +
      Block("in " + interfaceBlock + " {\n", inVars, "} fs_in;\n") +
      Unlines(Decls("out ", outVars)) +
      "void main() {\n" + maincode + "}\n"
    }

    /** `getCode`: sorts the in variables by name in place, then prints. */
    method GetCode() returns (code: string)
      modifies this
      ensures Sorting.Sorted(inVars, NameLe) && multiset(inVars) == multiset(old(inVars))
      ensures uniforms == old(uniforms) && outVars == old(outVars) && maincode == old(maincode)
      ensures numDirLights == old(numDirLights) && numPointLights == old(numPointLights)
      ensures interfaceBlock == old(interfaceBlock)
      ensures code == Text()
    {
      NameLePreorder();
      inVars := Sorting.SortBy(inVars, NameLe);
      code := Print();
    }

    /** The shader text as `getCode` assembles it. */
    method Print() returns (code: string)
      ensures code == Text()
    {
      var us := EmitVars("uniform ", uniforms);
      var lights := PrintLights(numDirLights, numPointLights);
      var ins := "";
      if |inVars| > 0 {
        var block := EmitVars("  ", inVars);
        var open := "in " + interfaceBlock + " {\n";
        ins := open + block + "} fs_in;\n";
      }
      var outs := EmitVars("out ", outVars);
      code := "#version 430 core\n" + us + lights + ins + outs + "void main() {\n" + maincode + "}\n";
    }
  }

  // ---------------------------------------------------------------------
  // Geometry shaders

  /** The version line and the two layout lines of a geometry shader. */
  function GeometryHeader(inPrim: string, outPrim: string, maxV: nat): string
  {
    "#version 430 core\n" + "layout (" + inPrim + ") in;\n" +
    "layout (" + outPrim + ", max_vertices = " + DecimalString(maxV) + ") out;\n"
  }

  class GeometryShaderSource {
    /** Left unset by the default constructor as written, so a parameter there. */
    var shaderType: nat
    var uniforms: seq<ShaderVar>
    var inVars: seq<ShaderVar>
    var outVars: seq<ShaderVar>
    var inPrimitive: string
    var outPrimitive: string
    var maxVertices: nat
    var maincode: string

    /** `GeometryShaderSource(inPrim, outPrim, maxV)` */
    constructor (inPrim: string, outPrim: string, maxV: nat)
      ensures shaderType == GlGeometryShader
      ensures inPrimitive == inPrim && outPrimitive == outPrim && maxVertices == maxV
      ensures uniforms == [] && inVars == [] && outVars == [] && maincode == ""
    {
      shaderType := GlGeometryShader;
      inPrimitive, outPrimitive, maxVertices := inPrim, outPrim, maxV;
      uniforms, inVars, outVars, maincode := [], [], [], "";
    }

    /** The default constructor as written: its body builds a temporary with
        the intended arguments and discards it, so this object keeps empty
        strings and lists and indeterminate numbers (`garbageType`, `garbageMax`). */
    constructor DefaultAsWritten(garbageType: nat, garbageMax: nat)
      ensures shaderType == garbageType && maxVertices == garbageMax
      ensures inPrimitive == "" && outPrimitive == ""
      ensures uniforms == [] && inVars == [] && outVars == [] && maincode == ""
    {
      shaderType := garbageType;
      inPrimitive, outPrimitive, maxVertices := "", "", garbageMax;
      uniforms, inVars, outVars, maincode := [], [], [], "";
    }

    /** The default constructor as intended: delegating to the three-argument one. */
    constructor Default()
      ensures shaderType == GlGeometryShader
      ensures inPrimitive == "triangles" && outPrimitive == "triangle_strip" && maxVertices == 3
      ensures uniforms == [] && inVars == [] && outVars == [] && maincode == ""
    {
      shaderType := GlGeometryShader;
      inPrimitive, outPrimitive, maxVertices := "triangles", "triangle_strip", 3;
      uniforms, inVars, outVars, maincode := [], [], [], "";
    }

    method Uniform(typ: string, name: string) returns (ok: bool)
      modifies this
      ensures var r := Declared(old(uniforms), ShaderVar(typ, name));
        ok == r.Some? && uniforms == (if ok then r.value else old(uniforms))
      ensures inVars == old(inVars) && outVars == old(outVars)
    {
      var r := Declare(uniforms, ShaderVar(typ, name));
      ok := r.Some?;
      if ok {
        uniforms := r.value;
      }
    }

    method InVar(typ: string, name: string) returns (ok: bool)
      modifies this
      ensures var r := Declared(old(inVars), ShaderVar(typ, name));
        ok == r.Some? && inVars == (if ok then r.value else old(inVars))
      ensures uniforms == old(uniforms) && outVars == old(outVars)
    {
      var r := Declare(inVars, ShaderVar(typ, name));
      ok := r.Some?;
      if ok {
        inVars := r.value;
      }
    }

    method OutVar(typ: string, name: string) returns (ok: bool)
      modifies this
      ensures var r := Declared(old(outVars), ShaderVar(typ, name));
        ok == r.Some? && outVars == (if ok then r.value else old(outVars))
      ensures uniforms == old(uniforms) && inVars == old(inVars)
    {
      var r := Declare(outVars, ShaderVar(typ, name));
      ok := r.Some?;
      if ok {
        outVars := r.value;
      }
    }

    method MainCode(code: string)
      modifies this
      ensures maincode == old(maincode) + MainLine(code)
      ensures uniforms == old(uniforms) && inVars == old(inVars) && outVars == old(outVars)
    {
      maincode := maincode + "  " + code + "\n";
    }

    function Text(): string
      reads this
    {
      GeometryHeader(inPrimitive, outPrimitive, maxVertices) +
      Unlines(Decls("uniform ", uniforms)) +
      Block("in VS_OUT {\n", inVars, "} gs_in[];\n") +
      Block("out GS_OUT {\n", outVars, "} gs_out;\n") +
      "void main() {\n" + maincode + "}\n"
    }

    /** `getCode`: sorts the in variables by name in place, then prints. */
    method GetCode() returns (code: string)
      modifies this
      ensures Sorting.Sorted(inVars, NameLe) && multiset(inVars) == multiset(old(inVars))
      ensures uniforms == old(uniforms) && outVars == old(outVars) && maincode == old(maincode)
      ensures inPrimitive == old(inPrimitive) && outPrimitive == old(outPrimitive)
      ensures maxVertices == old(maxVertices)
      ensures code == Text()
    {
      var src := "#version 430 core\n" + "layout (" + inPrimitive + ") in;\n" +
        "layout (" + outPrimitive + ", max_vertices = " + DecimalString(maxVertices) + ") out;\n";
      NameLePreorder();
      inVars := Sorting.SortBy(inVars, NameLe);
      var us := EmitVars("uniform ", uniforms);
      src := src + us;
      var ins := "";
      if |inVars| > 0 {
        var block := EmitVars("  ", inVars);
        ins := "in VS_OUT {\n" + block + "} gs_in[];\n";
      }
      src := src + ins;
      var outs := "";
      if |outVars| > 0 {
        var block := EmitVars("  ", outVars);
        outs := "out GS_OUT {\n" + block + "} gs_out;\n";
      }
      src := src + outs;
      code := src + "void main() {\n" + maincode + "}\n";
    }
  }

  /** A default-constructed geometry shader as written prints empty
      primitive names and whatever number the memory held. */
  method DefaultGeometryAsWritten(garbageType: nat, garbageMax: nat) returns (code: string)
    ensures code == GeometryHeader("", "", garbageMax) + "void main() {\n" + "}\n"
  {
    var g := new GeometryShaderSource.DefaultAsWritten(garbageType, garbageMax);
    code := g.GetCode();
  }

  /** The intended default: triangles in, triangle strips of at most 3 vertices out. */
  method DefaultGeometry() returns (code: string)
    ensures code == GeometryHeader("triangles", "triangle_strip", 3) + "void main() {\n" + "}\n"
  {
    var g := new GeometryShaderSource.Default();
    code := g.GetCode();
  }
}
