/**
 * The recorded render command list of pathos/rhi/render_command_list.cpp.
 * Packets come from a fixed-size stack allocator, so a list holds at most
 * `capacity` packets; execution runs them in recording order, and a flush
 * executes, clears the list and frees the memory registered for deferred
 * cleanup. A packet is a value naming what it does; memory blocks are
 * named by identifiers.
 */
module RenderCommandLists {

  /** A recorded packet: an ordinary GL command, or the packet `registerHook`
      records to run a hook on the secondary list and flush that list. */
  datatype Command = GlCommand(op: nat) | HookCommand(hook: nat)

  class RenderCommandList {
    var commands: seq<Command>
    /** How many packets the command allocator's memory holds. */
    const capacity: nat
    var flushDepth: nat
    var hookCommandList: RenderCommandList?
    var deferredCleanups: seq<nat>

    ghost predicate Valid()
      reads this
    {
      |commands| <= capacity
    }

    constructor (capacity: nat)
      ensures this.capacity == capacity && commands == [] && flushDepth == 0
      ensures hookCommandList == null && deferredCleanups == [] && Valid()
    {
      this.capacity := capacity;
      commands := [];
      flushDepth := 0;
      hookCommandList := null;
      deferredCleanups := [];
    }

    /** `setHookCommandList`: only once, and never to the list itself, whose
        hook packet would otherwise flush the list from inside its own flush. */
    method SetHookCommandList(secondary: RenderCommandList)
      requires hookCommandList == null && secondary != this
      modifies this
      ensures hookCommandList == secondary
      ensures commands == old(commands) && deferredCleanups == old(deferredCleanups) && flushDepth == old(flushDepth)
    {
      hookCommandList := secondary;
    }

    /** `getNextPacket`: appends one packet; false is the exhausted allocator
        that the CHECKF reports, with nothing appended. */
    method GetNextPacket(c: Command) returns (ok: bool)
      requires Valid()
      modifies this
      ensures Valid()
      ensures ok <==> |old(commands)| < capacity
      ensures commands == if ok then old(commands) + [c] else old(commands)
      ensures hookCommandList == old(hookCommandList) && deferredCleanups == old(deferredCleanups)
      ensures flushDepth == old(flushDepth)
    {
      if |commands| == capacity {
        return false;
      }
      commands := commands + [c];
      return true;
    }

    /** `registerHook`: records a hook packet; the list must have a secondary list. */
    method RegisterHook(hook: nat) returns (ok: bool)
      requires Valid() && hookCommandList != null
      modifies this
      ensures Valid()
      ensures ok <==> |old(commands)| < capacity
      ensures commands == if ok then old(commands) + [HookCommand(hook)] else old(commands)
      ensures hookCommandList == old(hookCommandList) && deferredCleanups == old(deferredCleanups)
      ensures flushDepth == old(flushDepth)
    {
      ok := GetNextPacket(HookCommand(hook));
    }

    method RegisterDeferredCleanup(memory: nat)
      modifies this
      ensures deferredCleanups == old(deferredCleanups) + [memory]
      ensures commands == old(commands) && hookCommandList == old(hookCommandList) && flushDepth == old(flushDepth)
    {
      deferredCleanups := deferredCleanups + [memory];
    }

    /** `executeAllCommands`: the packets run in recording order, each once. */
    method ExecuteAllCommands() returns (trace: seq<Command>)
      ensures trace == commands
    {
      trace := [];
      var p := 0;
      while p < |commands|
        invariant p <= |commands| && trace == commands[..p]
      {
        trace := trace + [commands[p]];
        p := p + 1;
      }
    }

    method ClearAllCommands()
      modifies this
      ensures commands == [] && deferredCleanups == old(deferredCleanups)
      ensures hookCommandList == old(hookCommandList) && flushDepth == old(flushDepth)
    {
      commands := [];
    }

    /** `performDeferredCleanup`: every registered block is freed, in registration order. */
    method PerformDeferredCleanup() returns (freed: seq<nat>)
      modifies this
      ensures freed == old(deferredCleanups) && deferredCleanups == []
      ensures commands == old(commands) && hookCommandList == old(hookCommandList) && flushDepth == old(flushDepth)
    {
      freed := [];
      for i := 0 to |deferredCleanups|
        invariant freed == deferredCleanups[..i]
      {
        freed := freed + [deferredCleanups[i]];
      }
      assert deferredCleanups[..|deferredCleanups|] == deferredCleanups;
      deferredCleanups := [];
    }

    /** `flushAllCommands`: at depth one, execute, clear, then free the deferred
        memory; a nested flush is the CHECKF failure and does nothing. The depth
        is restored either way. */
    method FlushAllCommands() returns (nested: bool, executed: seq<Command>, freed: seq<nat>)
      requires Valid()
      modifies this
      ensures Valid()
      ensures nested <==> old(flushDepth) > 0
      ensures !nested ==> executed == old(commands) && freed == old(deferredCleanups)
      ensures !nested ==> commands == [] && deferredCleanups == []
      ensures nested ==> executed == [] && freed == [] && commands == old(commands) && deferredCleanups == old(deferredCleanups)
      ensures flushDepth == old(flushDepth) && hookCommandList == old(hookCommandList)
    {
      flushDepth := flushDepth + 1;
      executed, freed := [], [];
      if flushDepth == 1 {
        executed := ExecuteAllCommands();
        ClearAllCommands();
        freed := PerformDeferredCleanup();
        nested := false;
      } else {
        nested := true;
      }
      flushDepth := flushDepth - 1;
    }

    function GetNumCommands(): (n: nat)
      reads this
      ensures n == |commands|
    {
      |commands|
    }

    predicate IsEmpty()
      reads this
    {
      |commands| == 0
    }
  }

  /** Recording packets into an empty list with room for them counts them all;
      flushing then executes exactly those packets in order and leaves the list
      empty. */
  method RecordAndFlush(cs: seq<Command>) returns (recorded: nat, executed: seq<Command>, empty: bool)
    ensures recorded == |cs| && executed == cs && empty
  {
    var list := new RenderCommandList(|cs|);
    for i := 0 to |cs|
      invariant list.Valid() && list.commands == cs[..i] && list.flushDepth == 0
    {
      var ok := list.GetNextPacket(cs[i]);
      assert cs[..i + 1] == cs[..i] + [cs[i]];
    }
    assert cs[..|cs|] == cs;
    recorded := list.GetNumCommands();
    var nested, freed;
    nested, executed, freed := list.FlushAllCommands();
    empty := list.IsEmpty();
  }
}
