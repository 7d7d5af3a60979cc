/**
 * The debug console of pathos/console.cpp: the input line edited key by
 * key, the window of at most MAX_LINES text labels stacked LINE_GAP pixels
 * apart, and the evaluation of a submitted line, first as a registered
 * engine command and then as a console variable looked up by name without
 * regard to case. Labels are values here; their vertical position is kept
 * in whole pixels, which the source's float arithmetic represents exactly
 * at these magnitudes.
 */
module Console {
  import opened Wrappers
  import StringUtil

  const LineGap: int := 20
  const MaxLines: nat := 18

  /** An exec procedure registered with the engine, named by an identifier. */
  type Handler = nat

  /** A text line of the console window and its vertical position. */
  datatype Label = Label(text: string, y: int)

  /** What evaluating a line does: run an engine exec procedure on the whole
      line, print a console variable, hand it the text after the first
      space, or nothing. */
  datatype Outcome =
    | Executed(handler: Handler, command: string)
    | PrintCvar(cvar: nat)
    | ParseCvar(cvar: nat, msg: string)
    | NoAction

  /** The command name: the text before the first space, or all of it. */
  function Header(command: string): (h: string)
    ensures ' ' !in h
    ensures h <= command
    ensures ' ' in command ==> command[|h|] == ' '
    ensures ' ' !in command ==> h == command
  {
    match StringUtil.FindChar(command, ' ')
    case None => command
    case Some(i) => command[..i]
  }

  /** The exec procedure `Engine::execute` runs for `command`, if any. */
  function ExecTarget(execMap: map<string, Handler>, command: string): Option<Handler>
  {
    var h := Header(command);
    if h in execMap then Some(execMap[h]) else None
  }

  /** A command is executed exactly when its header is registered, whatever follows the first space. */
  lemma ExecTargetSpec(execMap: map<string, Handler>, name: string, rest: string)
    requires ' ' !in name
    ensures ExecTarget(execMap, name).Some? <==> name in execMap
    ensures ExecTarget(execMap, name + " " + rest) == ExecTarget(execMap, name)
  {
    var c := name + " " + rest;
    assert c[|name|] == ' ';
    assert ' ' in c;
    var h := Header(c);
    assert name <= c;
    assert h == name;
  }

  /** ASCII lower-case, the folding `_strcmpi` compares under. */
  function Lower(c: char): char
  {
    if 'A' <= c <= 'Z' then (c as int + 32) as char else c
  }

  predicate EqualsIgnoreCase(a: string, b: string)
  {
    |a| == |b| && forall i :: 0 <= i < |a| ==> Lower(a[i]) == Lower(b[i])
  }

  function LowerString(s: string): (r: string)
    ensures |r| == |s| && forall i :: 0 <= i < |s| ==> r[i] == Lower(s[i])
  {
    seq(|s|, i requires 0 <= i < |s| => Lower(s[i]))
  }

  /** The first registered console variable whose name matches `name` ignoring case. */
  function FirstCvar(registry: seq<string>, name: string): (r: Option<nat>)
    ensures r.Some? ==> r.value < |registry| && EqualsIgnoreCase(registry[r.value], name)
    ensures r.Some? ==> forall j :: 0 <= j < r.value ==> !EqualsIgnoreCase(registry[j], name)
    ensures r.None? <==> forall j :: 0 <= j < |registry| ==> !EqualsIgnoreCase(registry[j], name)
    decreases |registry|
  {
    if registry == [] then None
    else if EqualsIgnoreCase(registry[0], name) then Some(0)
    else match FirstCvar(registry[1..], name)
      case None => None
      case Some(k) => Some(k + 1)
  }

  /** `ConsoleVariableManager::find`: the scan of the registry in registration order. */
  method FindCvar(registry: seq<string>, name: string) returns (r: Option<nat>)
    ensures r == FirstCvar(registry, name)
  {
    for i := 0 to |registry|
      invariant forall j :: 0 <= j < i ==> !EqualsIgnoreCase(registry[j], name)
    {
      if EqualsIgnoreCase(registry[i], name) {
        return Some(i);
      }
    }
    return None;
  }

  /** Lookup ignores case: a name and its lower-case form find the same variable. */
  lemma {:induction false} FirstCvarFoldsCase(registry: seq<string>, name: string)
    ensures FirstCvar(registry, LowerString(name)) == FirstCvar(registry, name)
    decreases |registry|
  {
    if registry != [] {
      assert EqualsIgnoreCase(registry[0], LowerString(name)) == EqualsIgnoreCase(registry[0], name) by {
        forall i | 0 <= i < |name|
          ensures Lower(LowerString(name)[i]) == Lower(name[i])
        {
        }
      }
      FirstCvarFoldsCase(registry[1..], name);
    }
  }

  /** `evaluate`: an engine exec procedure wins; otherwise a console variable
      named by the header prints itself when the line is only its name and
      parses the text after the first space otherwise. */
  function Evaluation(execMap: map<string, Handler>, registry: seq<string>, command: string): Outcome
  {
    match ExecTarget(execMap, command)
    case Some(h) => Executed(h, command)
    case None =>
      match FirstCvar(registry, Header(command))
      case None => NoAction
      case Some(v) =>
        if ' ' in command then ParseCvar(v, command[|Header(command)| + 1..]) else PrintCvar(v)
  }

  method Evaluate(execMap: map<string, Handler>, registry: seq<string>, command: string) returns (o: Outcome)
    ensures o == Evaluation(execMap, registry, command)
  {
    var header := Header(command);
    if header in execMap {
      return Executed(execMap[header], command);
    }
    var cvar := FindCvar(registry, header);
    match cvar {
      case None => o := NoAction;
      case Some(v) =>
        var ix := StringUtil.FindChar(command, ' ');
        if ix.None? {
          o := PrintCvar(v);
        } else {
          o := ParseCvar(v, command[ix.value + 1..]);
        }
    }
  }

  /** Exec procedures take precedence: a line naming both an exec and a
      console variable runs the exec; a line naming neither does nothing,
      and a console variable named with a value gets exactly the value. */
  lemma EvaluationSpec(execMap: map<string, Handler>, registry: seq<string>, name: string, value: string)
    requires ' ' !in name
    ensures name in execMap ==> Evaluation(execMap, registry, name + " " + value) == Executed(execMap[name], name + " " + value)
    ensures name !in execMap && FirstCvar(registry, name).None? ==> Evaluation(execMap, registry, name + " " + value) == NoAction
    ensures name !in execMap && FirstCvar(registry, name).Some? ==>
              Evaluation(execMap, registry, name + " " + value) == ParseCvar(FirstCvar(registry, name).value, value)
    ensures name !in execMap && FirstCvar(registry, name).Some? ==>
              Evaluation(execMap, registry, name) == PrintCvar(FirstCvar(registry, name).value)
  {
    var c := name + " " + value;
    ExecTargetSpec(execMap, name, value);
    assert c[|name|] == ' ';
    assert Header(name) == name;
    var h := Header(c);
    assert name <= c;
    assert h == name;
    assert c[|name| + 1..] == value;
  }

  /** The text a `const wchar_t*` holds when it points at the wide string
      `s`: the characters before the first NUL, where `wcslen`, `new Label`
      and a -1 length in WideCharToMultiByte all stop. */
  function CString(s: string): (r: string)
    ensures r <= s && '\0' !in r
    ensures |r| < |s| ==> s[|r|] == '\0'
  {
    if s == [] || s[0] == '\0' then [] else [s[0]] + CString(s[1..])
  }

  /** A string with no NUL reads back whole; after a NUL nothing more is read. */
  lemma {:induction false} CStringStopsAtNul(a: string, b: string)
    requires '\0' !in a
    ensures CString(a) == a
    ensures CString(a + ['\0'] + b) == a
  {
    if a != [] {
      assert (a + ['\0'] + b)[1..] == a[1..] + ['\0'] + b;
      CStringStopsAtNul(a[1..], b);
    } else {
      assert (a + ['\0'] + b)[0] == '\0';
    }
  }

  /** The labels after `addLine` of a non-empty text: the new label goes one
      gap below the last, and past MAX_LINES the oldest is dropped and every
      remaining label moves up one gap. */
  function AddedLines(lines: seq<Label>, text: string): seq<Label>
  {
    var grown := lines + [Label(text, (|lines| + 1) * LineGap)];
    if |grown| > MaxLines then Shifted(grown[1..]) else grown
  }

  function Shifted(lines: seq<Label>): (r: seq<Label>)
    ensures |r| == |lines|
    ensures forall i :: 0 <= i < |r| ==> r[i] == lines[i].(y := lines[i].y - LineGap)
  {
    seq(|lines|, i requires 0 <= i < |lines| => lines[i].(y := lines[i].y - LineGap))
  }

  function Texts(lines: seq<Label>): (r: seq<string>)
    ensures |r| == |lines| && forall i :: 0 <= i < |lines| ==> r[i] == lines[i].text
  {
    seq(|lines|, i requires 0 <= i < |lines| => lines[i].text)
  }

  /** The window layout: at most MAX_LINES labels, label i at (i+1)·LINE_GAP. */
  predicate Stacked(lines: seq<Label>)
  {
    |lines| <= MaxLines && forall i :: 0 <= i < |lines| ==> lines[i].y == (i + 1) * LineGap
  }

  /** `addLine` keeps the layout and the window shows the last MAX_LINES texts, newest last. */
  lemma AddedLinesSpec(lines: seq<Label>, text: string)
    requires Stacked(lines)
    ensures Stacked(AddedLines(lines, text))
    ensures |Texts(lines) + [text]| > MaxLines ==>
      Texts(AddedLines(lines, text)) == (Texts(lines) + [text])[|lines| + 1 - MaxLines..]
    ensures |Texts(lines) + [text]| <= MaxLines ==> Texts(AddedLines(lines, text)) == Texts(lines) + [text]
  {
    AddedLinesStacked(lines, text);
    var grown := lines + [Label(text, (|lines| + 1) * LineGap)];
    var all := Texts(lines) + [text];
    assert Texts(grown) == all;
    if |grown| > MaxLines {
      assert Texts(Shifted(grown[1..])) == all[|all| - MaxLines..];
    }
  }

  /** `addLine` keeps the layout, and the newest label holds the added text. */
  lemma AddedLinesStacked(lines: seq<Label>, text: string)
    requires Stacked(lines)
    ensures Stacked(AddedLines(lines, text))
    ensures AddedLines(lines, text)[|AddedLines(lines, text)| - 1].text == text
  {
    var grown := lines + [Label(text, (|lines| + 1) * LineGap)];
    if |grown| > MaxLines {
      var r := Shifted(grown[1..]);
      forall i | 0 <= i < |r|
        ensures r[i].y == (i + 1) * LineGap
      {
        assert r[i].y == grown[i + 1].y - LineGap;
      }
    }
  }

  /** The input after `onKeyPress`: backspace drops the last character, enter
      empties it, and any other code is appended. */
  function KeyInput(input: string, ascii: nat): (r: string)
    requires ascii < 256
    ensures ascii == 8 ==> |r| == if input == [] then 0 else |input| - 1
    ensures ascii == 8 ==> r <= input
    ensures ascii == 13 ==> r == []
    ensures ascii != 8 && ascii != 13 ==> |r| == |input| + 1 && r[..|input|] == input && r[|input|] == ascii as char
  {
    if ascii == 8 then (if input == [] then [] else input[..|input| - 1])
    else if ascii == 13 then []
    else input + [ascii as char]
  }

  /** Typing a character and then backspace gives the input back. */
  lemma TypeThenBackspace(input: string, ascii: nat)
    requires ascii < 256 && ascii != 8 && ascii != 13
    ensures KeyInput(KeyInput(input, ascii), 8) == input
  {
    var typed := KeyInput(input, ascii);
    assert typed[..|typed| - 1] == input;
  }

  /** The lines after `onKeyPress`: only enter adds one, when the input read
      as a C string is not empty. */
  function KeyLines(lines: seq<Label>, input: string, ascii: nat): seq<Label>
  {
    if ascii == 13 && CString(input) != [] then AddedLines(lines, CString(input)) else lines
  }

  /** What `onKeyPress` evaluates: the submitted input, or nothing. */
  function KeyOutcome(execMap: map<string, Handler>, registry: seq<string>, input: string, ascii: nat): Outcome
  {
    if ascii == 13 && CString(input) != [] then Evaluation(execMap, registry, CString(input)) else NoAction
  }

  /** The loop of `addLine` that moves every kept label up by one line gap. */
  method ShiftUp(ls: seq<Label>) returns (shifted: seq<Label>)
    ensures shifted == Shifted(ls)
  {
    shifted := [];
    for i := 0 to |ls|
      invariant shifted == Shifted(ls[..i])
    {
      shifted := shifted + [ls[i].(y := ls[i].y - LineGap)];
    }
    assert ls[..|ls|] == ls;
  }

  class ConsoleWindow {
    var visible: bool
    var input: string
    var lines: seq<Label>

    ghost predicate Valid()
      reads this
    {
      Stacked(lines)
    }

    constructor ()
      ensures visible && input == [] && lines == [] && Valid()
    {
      visible := true;
      input := [];
      lines := [];
    }

    method Toggle()
      modifies this
      ensures visible == !old(visible)
      ensures input == old(input) && lines == old(lines)
    {
      visible := !visible;
    }

    function IsVisible(): bool
      reads this
    {
      visible
    }

    /** The text the input label shows. */
    function Prompt(): (r: string)
      reads this
      ensures |r| == |input| + 2 && r[..2] == "> " && r[2..] == input
    {
      "> " + input
    }

    /** `addLine`, on the wide string `text` points at: the text is read up
        to its first NUL. Empty text adds nothing and is not evaluated;
        otherwise the label is added and the text evaluated. The label
        returned is the new one, at its final position. */
    method AddLine(text: string, execMap: map<string, Handler>, registry: seq<string>)
      returns (shown: Option<Label>, o: Outcome)
      requires Valid()
      modifies this
      ensures Valid()
      ensures CString(text) == [] ==> shown.None? && o == NoAction && lines == old(lines)
      ensures CString(text) != [] ==> lines == AddedLines(old(lines), CString(text)) && shown == Some(lines[|lines| - 1])
      ensures CString(text) != [] ==> o == Evaluation(execMap, registry, CString(text))
      ensures shown.Some? ==> shown.value.text == CString(text)
      ensures visible == old(visible) && input == old(input)
    {
      var s := CString(text);
      if |s| == 0 {
        return None, NoAction;
      }
      AddedLinesStacked(lines, s);
      var ls := lines + [Label(s, (|lines| + 1) * LineGap)];
      if |ls| > MaxLines {
        ls := ShiftUp(ls[1..]);
      }
      lines := ls;
      shown := Some(lines[|lines| - 1]);
      o := Evaluate(execMap, registry, s);
    }

    /** `onKeyPress`: backspace (8) drops the last input character if there
        is one, enter (13) submits the input through `addLine` and empties
        it, and any other code is appended, 0 included, so a NUL typed into
        the input hides what follows it from `addLine`. */
    method OnKeyPress(ascii: nat, execMap: map<string, Handler>, registry: seq<string>) returns (o: Outcome)
      requires ascii < 256 && Valid()
      modifies this
      ensures Valid() && visible == old(visible)
      ensures input == KeyInput(old(input), ascii) && lines == KeyLines(old(lines), old(input), ascii)
      ensures o == KeyOutcome(execMap, registry, old(input), ascii)
      ensures ascii == 8 ==> input == (if old(input) == [] then [] else old(input)[..|old(input)| - 1])
      ensures ascii == 13 ==>
                input == [] &&
                lines == (if CString(old(input)) == [] then old(lines) else AddedLines(old(lines), CString(old(input))))
      ensures ascii == 13 && CString(old(input)) != [] ==> o == Evaluation(execMap, registry, CString(old(input)))
      ensures ascii != 8 && ascii != 13 ==> input == old(input) + [ascii as char]
      ensures ascii != 13 ==> lines == old(lines) && o == NoAction
    {
      o := NoAction;
      if ascii == 8 {
        if |input| > 0 {
          input := input[..|input| - 1];
        }
      } else if ascii == 13 {
        var added;
        added, o := AddLine(input, execMap, registry);
        input := [];
      } else {
        input := input + [ascii as char];
      }
    }
  }
}
