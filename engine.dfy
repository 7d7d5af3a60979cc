/**
 * The command and keyboard dispatch of pathos/engine.cpp: the map from an
 * exec command name to its procedure, the 256-entry key state map behind
 * the key-press callback, and the routing of a key between the console and
 * the application. Application callbacks are reported as results rather
 * than called.
 */
module Engines {
  import opened Wrappers
  import Console

  const Backtick: nat := 0x60
  const Banner: string := "Built-in debug console. Press ` to toggle."

  /** Where `onGlutKeyDown` sends a key after the key-press check. */
  datatype KeyRoute = ToggledConsole | ToConsole(outcome: Console.Outcome) | ToApplication

  class Engine {
    var execMap: map<string, Console.Handler>
    const keymap: array<bool>
    const console: Console.ConsoleWindow

    ghost predicate Valid()
      reads this, console
    {
      keymap.Length == 256 && console.Valid()
    }

    /** The banner has no NUL, so `addLine` shows it whole. */
    static lemma BannerIsCString()
      ensures Console.CString(Banner) == Banner
    {
      assert forall i :: 0 <= i < |Banner| ==> Banner[i] != '\0';
      Console.CStringStopsAtNul(Banner, "");
    }

    /** Construction and `initializeConsole`: the console is created visible
        and shows the banner line; nothing is registered yet. */
    constructor ()
      ensures Valid() && execMap == map[] && fresh(keymap) && fresh(console)
      ensures forall c :: 0 <= c < 256 ==> !keymap[c]
      ensures console.visible && console.input == []
      ensures console.lines == [Console.Label(Banner, Console.LineGap)]
    {
      execMap := map[];
      keymap := new bool[256](_ => false);
      var c := new Console.ConsoleWindow();
      ShowBanner(c);
      console := c;
    }

    /** `initializeConsole`'s `addLine` of the banner on a new console. */
    static method ShowBanner(c: Console.ConsoleWindow)
      requires c.Valid() && c.lines == []
      modifies c
      ensures c.Valid() && c.visible == old(c.visible) && c.input == old(c.input)
      ensures c.lines == [Console.Label(Banner, Console.LineGap)]
    {
      BannerIsCString();
      assert Console.AddedLines([], Banner) == [Console.Label(Banner, Console.LineGap)];
      var shown, o := c.AddLine(Banner, map[], []);
    }

    /** `registerExec`: a name already registered keeps its first procedure. */
    method RegisterExec(command: string, proc: Console.Handler)
      modifies this
      ensures command in old(execMap) ==> execMap == old(execMap)
      ensures command !in old(execMap) ==> execMap == old(execMap)[command := proc]
    {
      if command in execMap {
        return;
      }
      execMap := execMap[command := proc];
    }

    /** `execute`: the procedure registered under the command's header runs
        with the whole command; the result says whether one was found. */
    method Execute(command: string) returns (run: Option<Console.Handler>)
      ensures run == Console.ExecTarget(execMap, command)
      ensures run.Some? <==> Console.Header(command) in execMap
    {
      var header := Console.Header(command);
      if header in execMap {
        return Some(execMap[header]);
      }
      return None;
    }

    /** `onGlutKeyDown`: the key-press callback fires only when the key was
        up; the backtick toggles the console, a visible console takes every
        other key, and otherwise the key goes to the application. */
    method OnKeyDown(ascii: nat, registry: seq<string>) returns (pressed: bool, route: KeyRoute)
      requires ascii < 256 && Valid()
      modifies keymap, console
      ensures Valid()
      ensures pressed <==> !old(keymap[ascii])
      ensures keymap[..] == old(keymap[..])[ascii := true]
      ensures ascii == Backtick ==>
                route == ToggledConsole && console.visible == !old(console.visible) &&
                console.input == old(console.input) && console.lines == old(console.lines)
      ensures ascii != Backtick && old(console.visible) ==>
                route == ToConsole(Console.KeyOutcome(execMap, registry, old(console.input), ascii)) &&
                console.visible &&
                console.input == Console.KeyInput(old(console.input), ascii) &&
                console.lines == Console.KeyLines(old(console.lines), old(console.input), ascii)
      ensures ascii != Backtick && !old(console.visible) ==>
                route == ToApplication && console.visible == old(console.visible) &&
                console.input == old(console.input) && console.lines == old(console.lines)
    {
      pressed := false;
      if !keymap[ascii] {
        keymap[ascii] := true;
        pressed := true;
      }
      if ascii == Backtick {
        console.Toggle();
        route := ToggledConsole;
      } else if console.IsVisible() {
        var o := console.OnKeyPress(ascii, execMap, registry);
        route := ToConsole(o);
      } else {
        route := ToApplication;
      }
    }

    /** `onGlutKeyUp`: the key is up again and always goes to the
        application's key-up callback, whatever the console shows. */
    method OnKeyUp(ascii: nat) returns (route: KeyRoute)
      requires ascii < 256 && Valid()
      modifies keymap
      ensures keymap[..] == old(keymap[..])[ascii := false]
      ensures route == ToApplication
    {
      keymap[ascii] := false;
      route := ToApplication;
    }
  }

  /** Holding a key down fires the key-press callback once: a second key-down
      without a key-up in between reports no press, and a key-up re-arms it. */
  method HoldAndRelease(e: Engine, ascii: nat, registry: seq<string>) returns (first: bool, second: bool, third: bool)
    requires ascii < 256 && ascii != Backtick && e.Valid()
    modifies e.keymap, e.console
    ensures second == false && third == true
    ensures first <==> !old(e.keymap[ascii])
  {
    var r;
    first, r := e.OnKeyDown(ascii, registry);
    second, r := e.OnKeyDown(ascii, registry);
    r := e.OnKeyUp(ascii);
    third, r := e.OnKeyDown(ascii, registry);
  }
}
