/**
 * The GL prototype scraper and code generator (tools/parse_glcorearb.rs).
 *
 * The tool reads glcorearb.h line by line, parses every line that lies inside a
 * `#ifdef GL_GLEXT_PROTOTYPES` ... `#endif` region as a GL function prototype,
 * and emits, per prototype, a render-packet struct and a recording function, plus
 * one union of all packets.  A Rust panic (`unwrap` of nothing, an out-of-range
 * slice) is modelled as `None`.
 */
module GlPrototypes {
  import opened Wrappers
  import opened StringUtil

  const BeginMarker: string := "#ifdef GL_GLEXT_PROTOTYPES"
  const EndMarker: string := "#endif"

  /** One parsed prototype. */
  datatype FnInfo = FnInfo(
    returnType: string,
    glFuncName: string,
    funcName: string,
    params: seq<string>,
    paramNames: seq<string>)

  // ---------------------------------------------------------------------------
  // The region scan in `main`

  /** The `is_parsing_api` flag after reading `line` with flag `parsing`. */
  function Step(parsing: bool, line: string): bool
  {
    if !parsing then line == BeginMarker else line != EndMarker
  }

  /** The `is_parsing_api` flag after reading all of `lines`. */
  function FlagAfter(lines: seq<string>): bool
    decreases |lines|
  {
    if lines == [] then false else Step(FlagAfter(lines[..|lines| - 1]), lines[|lines| - 1])
  }

  /** The lines handed to `parse_api`, in input order. */
  function ApiLines(lines: seq<string>): seq<string>
    decreases |lines|
  {
    if lines == [] then []
    else
      var init, line := lines[..|lines| - 1], lines[|lines| - 1];
      ApiLines(init) + (if FlagAfter(init) && line != EndMarker then [line] else [])
  }

  /** The scan is inside a region exactly when some begin marker has been read and no end marker after it. */
  lemma {:induction false} FlagAfterIff(lines: seq<string>)
    ensures FlagAfter(lines) <==>
      exists j :: 0 <= j < |lines| && lines[j] == BeginMarker && forall k :: j < k < |lines| ==> lines[k] != EndMarker
    decreases |lines|
  {
    if lines != [] {
      var init, x := lines[..|lines| - 1], lines[|lines| - 1];
      FlagAfterIff(init);
      assert forall j :: 0 <= j < |init| ==> init[j] == lines[j];
      if x == BeginMarker {
        assert lines[|lines| - 1] == BeginMarker;
      } else if x == EndMarker {
        assert FlagAfter(lines) == false;
      } else {
        assert FlagAfter(lines) == FlagAfter(init);
        if FlagAfter(init) {
          var j :| 0 <= j < |init| && init[j] == BeginMarker && forall k :: j < k < |init| ==> init[k] != EndMarker;
          assert lines[j] == BeginMarker && forall k :: j < k < |lines| ==> lines[k] != EndMarker;
        }
      }
    }
  }

  /** An end marker is never parsed as a prototype. */
  lemma {:induction false} EndMarkerNeverParsed(lines: seq<string>)
    ensures EndMarker !in ApiLines(lines)
    decreases |lines|
  {
    if lines != [] {
      EndMarkerNeverParsed(lines[..|lines| - 1]);
    }
  }

  /** A begin marker read outside a region is never parsed: it only opens the region. */
  lemma OpeningMarkerNotParsed(lines: seq<string>, i: nat)
    requires i < |lines| && lines[i] == BeginMarker && !FlagAfter(lines[..i])
    ensures ApiLines(lines[..i + 1]) == ApiLines(lines[..i])
    ensures FlagAfter(lines[..i + 1])
  {
    assert lines[..i + 1][..i] == lines[..i];
  }

  /** Once a region is closed, the rest of the file is scanned afresh: regions are handled one after another, in order. */
  lemma {:induction false} ApiLinesConcat(a: seq<string>, b: seq<string>)
    requires !FlagAfter(a)
    ensures ApiLines(a + b) == ApiLines(a) + ApiLines(b)
    ensures FlagAfter(a + b) == FlagAfter(b)
    decreases |b|
  {
    if b == [] {
      assert a + b == a;
    } else {
      var b0 := b[..|b| - 1];
      ApiLinesConcat(a, b0);
      assert (a + b)[..|a + b| - 1] == a + b0;
      assert (a + b)[|a + b| - 1] == b[|b| - 1];
    }
  }

  lemma {:induction false} ApiLinesPrefix(lines: seq<string>, i: nat)
    requires i <= |lines|
    ensures ApiLines(lines[..i]) <= ApiLines(lines)
    decreases |lines| - i
  {
    if i < |lines| {
      ApiLinesPrefix(lines, i + 1);
      assert lines[..i + 1][..i] == lines[..i];
    } else {
      assert lines[..i] == lines;
    }
  }

  // ---------------------------------------------------------------------------
  // parse_api

  function ToLower(ch: char): char
  {
    if 'A' <= ch <= 'Z' then (ch as int + 32) as char else ch
  }

  function ToUpper(ch: char): char
  {
    if 'a' <= ch <= 'z' then (ch as int - 32) as char else ch
  }

  /** The declared name of one parameter: the text after its last space, then after its last '*'. */
  function ParamName(param: string): (name: string)
    requires ' ' in param
    ensures ' ' !in name && '*' !in name
    ensures |name| < |param| && name == param[|param| - |name|..]
    ensures param[|param| - |name| - 1] == ' ' || param[|param| - |name| - 1] == '*'
  {
    var i := RFind(param, ' ').value;
    var afterSpace := param[i + 1..];
    match RFind(afterSpace, '*')
    case Some(j) => afterSpace[j + 1..]
    case None => afterSpace
  }

  /** Names of the parameters that have one (a parameter without a space, such as `void`, has none), in order. */
  function ParamNames(params: seq<string>): (names: seq<string>)
    ensures |names| <= |params|
    decreases |params|
  {
    if params == [] then []
    else
      var init, p := params[..|params| - 1], params[|params| - 1];
      ParamNames(init) + (if ' ' in p then [ParamName(p)] else [])
  }

  /** Every extracted name is free of spaces and stars. */
  lemma {:induction false} ParamNamesSpec(params: seq<string>)
    ensures forall i :: 0 <= i < |ParamNames(params)| ==> ' ' !in ParamNames(params)[i] && '*' !in ParamNames(params)[i]
    decreases |params|
  {
    if params != [] {
      var init, p := params[..|params| - 1], params[|params| - 1];
      ParamNamesSpec(init);
      var names0 := ParamNames(init);
      var names := ParamNames(params);
      forall i | 0 <= i < |names| ensures ' ' !in names[i] && '*' !in names[i] {
        if i < |names0| {
          assert names[i] == names0[i];
        } else {
          assert ' ' in p;
          var nm := ParamName(p);
          assert names[i] == nm;
        }
      }
    }
  }

  /** The parameters that contain a space, in order. */
  function NamedParams(params: seq<string>): (named: seq<string>)
    ensures forall x :: x in named <==> x in params && ' ' in x
    decreases |params|
  {
    if params == [] then []
    else
      var init, p := params[..|params| - 1], params[|params| - 1];
      assert params == init + [p];
      NamedParams(init) + (if ' ' in p then [p] else [])
  }

  /** The names are the declared names of exactly the parameters that contain
      a space, one each and in order. */
  lemma {:induction false} ParamNamesOrder(params: seq<string>)
    ensures |ParamNames(params)| == |NamedParams(params)|
    ensures forall i :: 0 <= i < |ParamNames(params)| ==>
              ' ' in NamedParams(params)[i] && ParamNames(params)[i] == ParamName(NamedParams(params)[i])
    decreases |params|
  {
    if params != [] {
      var init, p := params[..|params| - 1], params[|params| - 1];
      ParamNamesOrder(init);
    }
  }

  function TrimAll(raw: seq<string>): (params: seq<string>)
  {
    seq(|raw|, i requires 0 <= i < |raw| => Trim(raw[i]))
  }

  /** `parse_api`: `None` where the Rust code panics. */
  function ParseApi(line: string): Option<FnInfo>
  {
    var tokens := Split(line, ' ');
    if |tokens| < 3 then None
    else
      var returnType := tokens[1] + (if '*' in tokens[2] then "*" else "");
      match Find(line, "gl")
      case None => None
      case Some(b) =>
        var glFunc := line[b..];
        match (Find(glFunc, "("), Find(glFunc, ")"))
        case (Some(pb), Some(pe)) =>
          if pb < 4 || pe <= pb then None
          else
            var glFuncName := glFunc[..pb - 1];
            var funcName := [ToLower(glFuncName[2])] + glFuncName[3..];
            var params := TrimAll(Split(glFunc[pb + 1..pe], ','));
            Some(FnInfo(returnType, glFuncName, funcName, params, ParamNames(params)))
        case _ => None
  }

  /** The return type is the second space-separated token, with "*" appended iff the third token holds a '*'. */
  lemma ReturnTypeFromTokens(first: string, ret: string, apientry: string, rest: string)
    requires ' ' !in first && ' ' !in ret && ' ' !in apientry
    requires ParseApi(first + " " + ret + " " + apientry + " " + rest).Some?
    ensures ParseApi(first + " " + ret + " " + apientry + " " + rest).value.returnType
      == ret + (if '*' in apientry then "*" else "")
  {
    var line := first + " " + ret + " " + apientry + " " + rest;
    assert line == first + [' '] + (ret + [' '] + (apientry + [' '] + rest));
    SplitFirst(first, ' ', ret + [' '] + (apientry + [' '] + rest));
    SplitFirst(ret, ' ', apientry + [' '] + rest);
    SplitFirst(apientry, ' ', rest);
  }

  /** The native name runs from the first "gl" up to, but excluding, the character before the first '(' after it. */
  lemma NativeName(line: string, b: nat, pb: nat)
    requires MatchAt(line, "gl", b) && forall j :: 0 <= j < b ==> !MatchAt(line, "gl", j)
    requires b + pb < |line| && line[b + pb] == '(' && '(' !in line[b..b + pb]
    requires ParseApi(line).Some?
    ensures pb >= 4 && ParseApi(line).value.glFuncName == line[b..b + pb - 1]
  {
    NativeNameBounds(line, b, pb);
  }

  /** Where the two searches of parse_api land on such a line. */
  lemma NativeNameBounds(line: string, b: nat, pb: nat)
    requires MatchAt(line, "gl", b) && forall j :: 0 <= j < b ==> !MatchAt(line, "gl", j)
    requires b + pb < |line| && line[b + pb] == '(' && '(' !in line[b..b + pb]
    ensures Find(line, "gl") == Some(b) && Find(line[b..], "(") == Some(pb)
  {
    var glFunc := line[b..];
    FindFirst(line, "gl", b);
    assert "("[0] == '(';
    assert MatchAt(glFunc, "(", pb) by { assert glFunc[pb] == '('; }
    forall j | 0 <= j < pb ensures !MatchAt(glFunc, "(", j) {
      assert glFunc[j] == line[b..b + pb][j];
    }
    FindFirst(glFunc, "(", pb);
  }

  /** The wrapper name is the native name without "gl" and with its first letter lowered; an upper-case letter there is recovered exactly. */
  lemma WrapperName(line: string)
    requires ParseApi(line).Some?
    ensures var f := ParseApi(line).value;
      |f.glFuncName| >= 3 && f.glFuncName[..2] == "gl" &&
      |f.funcName| == |f.glFuncName| - 2 && f.funcName[1..] == f.glFuncName[3..] &&
      ('A' <= f.glFuncName[2] <= 'Z' ==> "gl" + [ToUpper(f.funcName[0])] + f.funcName[1..] == f.glFuncName)
  {
    var b := Find(line, "gl").value;
    FindSpec(line, "gl");
    assert MatchAt(line, "gl", b);
    assert "gl"[0] == 'g' && "gl"[1] == 'l';
    assert line[b + 0] == 'g' && line[b + 1] == 'l';
    var glFunc := line[b..];
    assert glFunc[0] == 'g' && glFunc[1] == 'l';
    var f := ParseApi(line).value;
    assert f.glFuncName[..2] == "gl";
    if 'A' <= f.glFuncName[2] <= 'Z' {
      assert f.glFuncName == f.glFuncName[..2] + [f.glFuncName[2]] + f.glFuncName[3..];
    }
  }

  /** The text between the parentheses, once the prototype is located. */
  function ParenText(line: string): string
  {
    match Find(line, "gl")
    case None => ""
    case Some(b) =>
      var glFunc := line[b..];
      match (Find(glFunc, "("), Find(glFunc, ")"))
      case (Some(pb), Some(pe)) => if pe <= pb then "" else glFunc[pb + 1..pe]
      case _ => ""
  }

  /** The parameters are the comma-separated pieces between the parentheses, in order, each trimmed; joining the raw pieces gives the text back. */
  lemma ParamsBetweenParens(line: string)
    requires ParseApi(line).Some?
    ensures var raw := Split(ParenText(line), ',');
      Join(raw, ',') == ParenText(line) &&
      (forall i :: 0 <= i < |raw| ==> ',' !in raw[i]) &&
      ParseApi(line).value.params == TrimAll(raw)
  {
    JoinSplit(ParenText(line), ',');
    SplitPiecesFree(ParenText(line), ',');
  }

  /** Each parameter is trimmed, and each name is free of spaces and stars. */
  lemma ParamsTrimmed(raw: seq<string>)
    ensures var params := TrimAll(raw);
      |params| == |raw| &&
      (forall i :: 0 <= i < |params| ==> params[i] == [] || (!IsSpace(params[i][0]) && !IsSpace(params[i][|params[i]| - 1]))) &&
      var names := ParamNames(params);
      |names| <= |params| && forall i :: 0 <= i < |names| ==> ' ' !in names[i] && '*' !in names[i]
  {
    var params := TrimAll(raw);
    forall i | 0 <= i < |params|
      ensures params[i] == [] || (!IsSpace(params[i][0]) && !IsSpace(params[i][|params[i]| - 1]))
    {
      TrimSpec(raw[i]);
    }
    ParamNamesSpec(params);
  }

  /** A parser mapped over lines; one failure aborts the whole run. */
  function CollectAll(parse: string -> Option<FnInfo>, lines: seq<string>): (r: Option<seq<FnInfo>>)
    ensures r.Some? ==> |r.value| == |lines|
    decreases |lines|
  {
    if lines == [] then Some([])
    else
      var init := lines[..|lines| - 1];
      match (CollectAll(parse, init), parse(lines[|lines| - 1]))
      case (Some(fs), Some(f)) => Some(fs + [f])
      case _ => None
  }

  /** When every line parses, the records are the lines' parses, in order. */
  lemma {:induction false} CollectAllSome(parse: string -> Option<FnInfo>, lines: seq<string>)
    requires CollectAll(parse, lines).Some?
    ensures forall i :: 0 <= i < |lines| ==> parse(lines[i]) == Some(CollectAll(parse, lines).value[i])
    decreases |lines|
  {
    if lines != [] {
      var init := lines[..|lines| - 1];
      CollectAllSome(parse, init);
      forall i | 0 <= i < |init|
        ensures parse(lines[i]) == Some(CollectAll(parse, lines).value[i])
      {
        assert init[i] == lines[i];
      }
    }
  }

  /** One line that fails aborts the whole run. */
  lemma {:induction false} CollectAllNoneAt(parse: string -> Option<FnInfo>, lines: seq<string>, k: nat)
    requires k < |lines| && parse(lines[k]).None?
    ensures CollectAll(parse, lines).None?
    decreases |lines|
  {
    if k < |lines| - 1 {
      var init := lines[..|lines| - 1];
      assert init[k] == lines[k];
      CollectAllNoneAt(parse, init, k);
    }
  }

  /** A run that aborts has a line that fails. */
  lemma {:induction false} CollectAllNoneWitness(parse: string -> Option<FnInfo>, lines: seq<string>) returns (k: nat)
    requires CollectAll(parse, lines).None?
    ensures k < |lines| && parse(lines[k]).None?
    decreases |lines|
  {
    var init := lines[..|lines| - 1];
    if CollectAll(parse, init).None? {
      k := CollectAllNoneWitness(parse, init);
      assert init[k] == lines[k];
    } else {
      k := |lines| - 1;
    }
  }

  lemma CollectAllSnoc(parse: string -> Option<FnInfo>, ls: seq<string>, l: string, fs: seq<FnInfo>, f: FnInfo)
    requires CollectAll(parse, ls) == Some(fs) && parse(l) == Some(f)
    ensures CollectAll(parse, ls + [l]) == Some(fs + [f])
  {
    assert (ls + [l])[..|ls|] == ls;
  }

  /** `ParseApi` mapped over the region lines; one panic aborts the whole run. */
  function ParseAll(lines: seq<string>): Option<seq<FnInfo>>
  {
    CollectAll(ParseApi, lines)
  }

  /** All lines parse exactly when no single line panics; then the records are the lines' parses, in order. */
  lemma ParseAllSpec(lines: seq<string>)
    ensures var r := ParseAll(lines);
      (r.Some? ==> |r.value| == |lines| && forall i :: 0 <= i < |lines| ==> ParseApi(lines[i]) == Some(r.value[i])) &&
      (r.None? <==> exists i :: 0 <= i < |lines| && ParseApi(lines[i]).None?)
  {
    if ParseAll(lines).Some? {
      CollectAllSome(ParseApi, lines);
    } else {
      var k := CollectAllNoneWitness(ParseApi, lines);
    }
  }

  lemma ScanStep(lines: seq<string>, i: nat)
    requires i < |lines|
    ensures FlagAfter(lines[..i + 1]) == Step(FlagAfter(lines[..i]), lines[i])
    ensures ApiLines(lines[..i + 1]) ==
      ApiLines(lines[..i]) + (if FlagAfter(lines[..i]) && lines[i] != EndMarker then [lines[i]] else [])
  {
    assert lines[..i + 1][..i] == lines[..i];
  }

  /** A line met while parsing that is not the end marker is one of the region lines. */
  lemma ApiLineAt(lines: seq<string>, i: nat) returns (k: nat)
    requires i < |lines| && FlagAfter(lines[..i]) && lines[i] != EndMarker
    ensures k < |ApiLines(lines)| && ApiLines(lines)[k] == lines[i]
  {
    ScanStep(lines, i);
    ApiLinesPrefix(lines, i + 1);
    k := |ApiLines(lines[..i])|;
  }

  lemma ParseFailsAt(lines: seq<string>, i: nat)
    requires i < |lines| && FlagAfter(lines[..i]) && lines[i] != EndMarker && ParseApi(lines[i]).None?
    ensures ParseAll(ApiLines(lines)).None?
  {
    var k := ApiLineAt(lines, i);
    CollectAllNoneAt(ParseApi, ApiLines(lines), k);
  }

  /** The loop in `main`: scan the header and parse each prototype line of each region, in order. */
  method ParseHeader(lines: seq<string>) returns (db: Option<seq<FnInfo>>)
    ensures db == ParseAll(ApiLines(lines))
  {
    var parsing := false;
    var acc: seq<FnInfo> := [];
    var i := 0;
    while i < |lines|
      invariant 0 <= i <= |lines|
      invariant parsing == FlagAfter(lines[..i])
      invariant ParseAll(ApiLines(lines[..i])) == Some(acc)
    {
      var line := lines[i];
      ScanStep(lines, i);
      ghost var before := ApiLines(lines[..i]);
      if !parsing {
        assert ApiLines(lines[..i + 1]) == before + [] == before;
        if line == BeginMarker {
          parsing := true;
        }
      } else {
        if line == EndMarker {
          assert ApiLines(lines[..i + 1]) == before + [] == before;
          parsing := false;
        } else {
          var r := ParseApi(line);
          if r.None? {
            ParseFailsAt(lines, i);
            return None;
          }
          CollectAllSnoc(ParseApi, ApiLines(lines[..i]), line, acc, r.value);
          acc := acc + [r.value];
        }
      }
      i := i + 1;
    }
    assert lines[..i] == lines;
    db := Some(acc);
  }

  // ---------------------------------------------------------------------------
  // The emitters

  /** Fields of a packet struct: one line per parameter that is not exactly "void". */
  function FieldLines(params: seq<string>): seq<string>
    decreases |params|
  {
    if params == [] then []
    else
      var init, p := params[..|params| - 1], params[|params| - 1];
      FieldLines(init) + (if p != "void" then ["\t" + p + ";"] else [])
  }

  /** A field line is emitted for a parameter exactly when that parameter is not "void". */
  lemma {:induction false} FieldLinesSpec(params: seq<string>)
    ensures forall l :: l in FieldLines(params) <==> exists p :: p in params && p != "void" && l == "\t" + p + ";"
    decreases |params|
  {
    if params != [] {
      var init, p := params[..|params| - 1], params[|params| - 1];
      FieldLinesSpec(init);
      assert params == init + [p];
      assert forall q :: q in params <==> q in init || q == p;
    }
  }

  /** Items one per line behind `indent`, with a comma after every item but the last. */
  function CommaLines(indent: string, items: seq<string>): (lines: seq<string>)
    ensures |lines| == |items|
    ensures forall i :: 0 <= i < |items| ==> |lines[i]| == |indent| + |items[i]| + (if i < |items| - 1 then 1 else 0)
    ensures forall i :: 0 <= i < |items| ==> lines[i][..|indent| + |items[i]|] == indent + items[i]
  {
    seq(|items|, i requires 0 <= i < |items| => indent + items[i] + (if i < |items| - 1 then "," else ""))
  }

  /** Arguments of the native call inside `execute`: `params->name` per name. */
  function ArgLines(names: seq<string>): seq<string>
  {
    CommaLines("\t\t\t", seq(|names|, i requires 0 <= i < |names| => "params->" + names[i]))
  }

  /** Parameters of the recording function, one per line. */
  function ParamLines(params: seq<string>): seq<string>
  {
    CommaLines("\t", params)
  }

  /** Assignments in the recording function: one `packet->n = n;` per name. */
  function AssignLines(names: seq<string>): (lines: seq<string>)
    ensures |lines| == |names|
  {
    seq(|names|, i requires 0 <= i < |names| => "\tpacket->" + names[i] + " = " + names[i] + ";")
  }

  /** Members of the packet union: one per parsed prototype. */
  function UnionLines(db: seq<FnInfo>): (lines: seq<string>)
    ensures |lines| == |db|
  {
    seq(|db|, i requires 0 <= i < |db| => "\tRenderCommand_" + db[i].funcName + " " + db[i].funcName + ";")
  }

  lemma UnlinesStep(lines: seq<string>, i: nat)
    requires i < |lines|
    ensures Unlines(lines[..i + 1]) == Unlines(lines[..i]) + lines[i] + "\n"
  {
    assert lines[..i + 1][..i] == lines[..i];
  }

  /** One more parameter adds its field line to the text, unless it is "void". */
  lemma FieldTextStep(params: seq<string>, i: nat)
    requires i < |params|
    ensures Unlines(FieldLines(params[..i + 1])) ==
      Unlines(FieldLines(params[..i])) + (if params[i] != "void" then "\t" + params[i] + ";" + "\n" else "")
  {
    assert params[..i + 1][..i] == params[..i];
    var prev := FieldLines(params[..i]);
    if params[i] != "void" {
      assert (prev + ["\t" + params[i] + ";"])[..|prev|] == prev;
    } else {
      assert prev + [] == prev;
    }
  }

  /** The `var_decls` loop. */
  method EmitVarDecls(params: seq<string>) returns (s: string)
    ensures s == Unlines(FieldLines(params))
  {
    s := "";
    var i := 0;
    while i < |params|
      invariant 0 <= i <= |params|
      invariant s == Unlines(FieldLines(params[..i]))
    {
      FieldTextStep(params, i);
      if params[i] != "void" {
        var field := "\t" + params[i] + ";" + "\n";
        s := s + field;
      }
      i := i + 1;
    }
    assert params[..i] == params;
  }

  /** One more name adds its argument line: a comma and newline after it, or only a newline after the last. */
  lemma ArgTextStep(names: seq<string>, i: nat)
    requires i < |names|
    ensures i != |names| - 1 ==>
      Unlines(ArgLines(names)[..i + 1]) == Unlines(ArgLines(names)[..i]) + ("\t\t\t" + ("params->" + names[i]) + ",\n")
    ensures i == |names| - 1 ==>
      Unlines(ArgLines(names)[..i + 1]) == Unlines(ArgLines(names)[..i]) + ("\t\t\t" + ("params->" + names[i]) + "\n")
  {
    var lines := ArgLines(names);
    UnlinesStep(lines, i);
    if i != |names| - 1 {
      assert lines[i] + "\n" == "\t\t\t" + ("params->" + names[i]) + ",\n";
    } else {
      assert lines[i] + "\n" == "\t\t\t" + ("params->" + names[i]) + "\n";
    }
  }

  /** The `gl_call_arguments` loop. */
  method EmitCallArguments(names: seq<string>) returns (s: string)
    ensures s == Unlines(ArgLines(names))
  {
    s := "";
    var i := 0;
    while i < |names|
      invariant 0 <= i <= |names|
      invariant s == Unlines(ArgLines(names)[..i])
    {
      ArgTextStep(names, i);
      var arg := "\t\t\t" + ("params->" + names[i]);
      if i != |names| - 1 {
        arg := arg + ",\n";
      } else {
        arg := arg + "\n";
      }
      s := s + arg;
      i := i + 1;
    }
    assert ArgLines(names)[..i] == ArgLines(names);
  }

  /** The `fn_args` loop: no newline after the last parameter. */
  method EmitFnArgs(params: seq<string>) returns (s: string)
    ensures s == Join(ParamLines(params), '\n')
  {
    ghost var lines := ParamLines(params);
    s := "";
    var i := 0;
    while i < |params|
      invariant 0 <= i <= |params|
      invariant i < |params| || i == 0 ==> s == Unlines(lines[..i])
      invariant i == |params| && i > 0 ==> s == Unlines(lines[..i - 1]) + lines[i - 1]
    {
      UnlinesStep(lines, i);
      var arg := "\t" + params[i];
      if i != |params| - 1 {
        arg := arg + ",\n";
        assert arg == lines[i] + "\n";
      } else {
        assert arg == lines[i];
      }
      s := s + arg;
      i := i + 1;
    }
    if i > 0 {
      assert lines == lines[..i - 1] + [lines[i - 1]];
      JoinAfterUnlines(lines[..i - 1], lines[i - 1]);
    } else {
      assert lines == [];
    }
  }

  /** The `assign_args` loop. */
  method EmitAssignArgs(names: seq<string>) returns (s: string)
    ensures s == Unlines(AssignLines(names))
  {
    s := "";
    var i := 0;
    while i < |names|
      invariant 0 <= i <= |names|
      invariant s == Unlines(AssignLines(names)[..i])
    {
      UnlinesStep(AssignLines(names), i);
      var assign := "\tpacket->" + names[i] + " = " + names[i] + ";\n";
      assert assign == AssignLines(names)[i] + "\n";
      s := s + assign;
      i := i + 1;
    }
    assert AssignLines(names)[..i] == AssignLines(names);
  }

  /** The `union_members` loop. */
  method EmitUnionMembers(db: seq<FnInfo>) returns (s: string)
    ensures s == Unlines(UnionLines(db))
  {
    s := "";
    var i := 0;
    while i < |db|
      invariant 0 <= i <= |db|
      invariant s == Unlines(UnionLines(db)[..i])
    {
      UnlinesStep(UnionLines(db), i);
      var member := "\tRenderCommand_" + db[i].funcName + " " + db[i].funcName + ";\n";
      assert member == UnionLines(db)[i] + "\n";
      s := s + member;
      i := i + 1;
    }
    assert UnionLines(db)[..i] == UnionLines(db);
  }

  /** The text of one render packet. */
  function PacketStruct(f: FnInfo): string
  {
    "struct RenderCommand_" + f.funcName + " : public RenderCommandBase {\n"
      + Unlines(FieldLines(f.params)) + "\n"
      + "\tstatic void APIENTRY execute(const RenderCommand_" + f.funcName + "* __restrict params) {\n"
      + "\t\t" + f.glFuncName + "(\n"
      + Unlines(ArgLines(f.paramNames)) + "\t\t);\n"
      + "\t}\n"
      + "};\n"
  }

  /** The text of the packet union. */
  function PacketUnion(db: seq<FnInfo>): string
  {
    "union RenderCommandPacketUnion {\npublic:\n\tPFN_EXECUTE execute;\nprivate:\n"
      + Unlines(UnionLines(db)) + "\n"
      + "};\n"
  }

  /** The text of one recording function. */
  function RecordFunction(f: FnInfo): string
  {
    f.returnType + " " + f.funcName + "(\n" + Join(ParamLines(f.params), '\n') + ")\n"
      + "{\n"
      + "\tRenderCommand_" + f.funcName + "* __restrict packet = (RenderCommand_" + f.funcName + "*)getNextPacket();\n"
      + "\tpacket->pfn_execute = PFN_EXECUTE(RenderCommand_" + f.funcName + "::execute);\n"
      + Unlines(AssignLines(f.paramNames)) + "}\n"
  }

  /** The packet struct declares exactly the non-void parameters, one per line, and its call passes every parameter name in order. */
  lemma PacketFields(f: FnInfo)
    requires forall i :: 0 <= i < |f.params| ==> '\n' !in f.params[i]
    requires forall i :: 0 <= i < |f.paramNames| ==> '\n' !in f.paramNames[i]
    ensures Split(Unlines(FieldLines(f.params)), '\n') == FieldLines(f.params) + [""]
    ensures Split(Unlines(ArgLines(f.paramNames)), '\n') == ArgLines(f.paramNames) + [""]
  {
    var fl := FieldLines(f.params);
    FieldLinesSpec(f.params);
    forall i | 0 <= i < |fl| ensures '\n' !in fl[i] {
      assert fl[i] in fl;
      var p :| p in f.params && p != "void" && fl[i] == "\t" + p + ";";
      assert fl[i] == ['\t'] + p + [';'];
    }
    UnlinesSplit(fl);
    var al := ArgLines(f.paramNames);
    forall i | 0 <= i < |al| ensures '\n' !in al[i] {
      assert '\n' !in f.paramNames[i];
    }
    UnlinesSplit(al);
  }

  /** The union lists one member per parsed prototype, in order. */
  lemma UnionMembersInOrder(db: seq<FnInfo>)
    requires forall i :: 0 <= i < |db| ==> '\n' !in db[i].funcName
    ensures var lines := Split(Unlines(UnionLines(db)), '\n');
      |lines| == |db| + 1 &&
      forall i :: 0 <= i < |db| ==> lines[i] == "\tRenderCommand_" + db[i].funcName + " " + db[i].funcName + ";"
  {
    var ul := UnionLines(db);
    forall i | 0 <= i < |ul| ensures '\n' !in ul[i] {
      assert '\n' !in db[i].funcName;
    }
    UnlinesSplit(ul);
  }

  /** The render packets file: every packet in order, then the union. */
  method EmitRenderPackets(db: seq<FnInfo>) returns (text: string)
    ensures text == PacketsText(db) + PacketUnion(db)
  {
    text := "";
    var i := 0;
    while i < |db|
      invariant 0 <= i <= |db|
      invariant text == ConcatMap(PacketStruct, db[..i])
    {
      var packet := EmitPacket(db[i]);
      ConcatMapSnoc(PacketStruct, db, i);
      text := text + packet;
      i := i + 1;
    }
    assert db[..i] == db;
    var union := EmitUnion(db);
    text := text + union;
  }

  /** One packet struct: its fields, then `execute` calling the native function. */
  method EmitPacket(f: FnInfo) returns (packet: string)
    ensures packet == PacketStruct(f)
  {
    var varDecls := EmitVarDecls(f.params);
    var args := EmitCallArguments(f.paramNames);
    packet := "struct RenderCommand_" + f.funcName + " : public RenderCommandBase {\n"
      + varDecls + "\n"
      + "\tstatic void APIENTRY execute(const RenderCommand_" + f.funcName + "* __restrict params) {\n"
      + "\t\t" + f.glFuncName + "(\n"
      + args + "\t\t);\n"
      + "\t}\n"
      + "};\n";
  }

  /** The packet union, one member per packet. */
  method EmitUnion(db: seq<FnInfo>) returns (union: string)
    ensures union == PacketUnion(db)
  {
    var members := EmitUnionMembers(db);
    union := "union RenderCommandPacketUnion {\npublic:\n\tPFN_EXECUTE execute;\nprivate:\n"
      + members + "\n"
      + "};\n";
  }

  /** The texts of the items, one after another. */
  function ConcatMap<T>(text: T -> string, s: seq<T>): string
    decreases |s|
  {
    if s == [] then "" else ConcatMap(text, s[..|s| - 1]) + text(s[|s| - 1])
  }

  lemma ConcatMapSnoc<T>(text: T -> string, s: seq<T>, i: nat)
    requires i < |s|
    ensures ConcatMap(text, s[..i + 1]) == ConcatMap(text, s[..i]) + text(s[i])
  {
    assert s[..i + 1][..i] == s[..i];
  }

  function PacketsText(db: seq<FnInfo>): string
  {
    ConcatMap(PacketStruct, db)
  }

  function RecordsText(db: seq<FnInfo>): string
  {
    ConcatMap(RecordFunction, db)
  }

  /** The command list file: one recording function per prototype, in order. */
  method EmitCommandList(db: seq<FnInfo>) returns (text: string)
    ensures text == RecordsText(db)
  {
    text := "";
    var i := 0;
    while i < |db|
      invariant 0 <= i <= |db|
      invariant text == ConcatMap(RecordFunction, db[..i])
    {
      var record := EmitRecord(db[i]);
      ConcatMapSnoc(RecordFunction, db, i);
      text := text + record;
      i := i + 1;
    }
    assert db[..i] == db;
  }

  /** One recording function: it takes the next packet, sets its `execute`
      and stores every argument. */
  method EmitRecord(f: FnInfo) returns (record: string)
    ensures record == RecordFunction(f)
  {
    var fnArgs := EmitFnArgs(f.params);
    var assignArgs := EmitAssignArgs(f.paramNames);
    record := f.returnType + " " + f.funcName + "(\n" + fnArgs + ")\n"
      + "{\n"
      + "\tRenderCommand_" + f.funcName + "* __restrict packet = (RenderCommand_" + f.funcName + "*)getNextPacket();\n"
      + "\tpacket->pfn_execute = PFN_EXECUTE(RenderCommand_" + f.funcName + "::execute);\n"
      + assignArgs + "}\n";
  }
}
