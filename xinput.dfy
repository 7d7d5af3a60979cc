/**
 * The digital-button half of pathos/input/xinput_manager.cpp. Each frame
 * the manager polls the four gamepad slots; for a slot whose packet number
 * changed it records which of the 14 digital buttons are held, which went
 * down since the previous packet and which came up. A poll result stands
 * for the XInputGetState call.
 */
module XInput {
  import opened InputConstants
  import InputManagers

  const MaxUsers: nat := 4
  const NumPadButtons: nat := 14

  /** The XINPUT_GAMEPAD_* masks, in the order the manager scans them. */
  const Bitmasks: seq<bv32> := [
    0x0001, 0x0002, 0x0004, 0x0008,
    0x0010, 0x0020,
    0x0040, 0x0080, 0x0100, 0x0200,
    0x1000, 0x2000, 0x4000, 0x8000]

  /** The key reported for each mask. The two stick clicks are reported as LT
      and RT and the shoulders as LB and RB. */
  const PadKeys: seq<InputConstant> := [
    XboxOne(DpadUp), XboxOne(DpadDown), XboxOne(DpadLeft), XboxOne(DpadRight),
    XboxOne(Start), XboxOne(Back),
    XboxOne(LT), XboxOne(RT), XboxOne(LB), XboxOne(RB),
    XboxOne(XboxA), XboxOne(XboxB), XboxOne(XboxX), XboxOne(XboxY)]

  /** The scan position of a reported key. */
  function PadIndex(k: InputConstant): nat
  {
    match k
    case XboxOne(b) =>
      (match b
       case DpadUp => 0 case DpadDown => 1 case DpadLeft => 2 case DpadRight => 3
       case Start => 4 case Back => 5 case LT => 6 case RT => 7 case LB => 8 case RB => 9
       case XboxA => 10 case XboxB => 11 case XboxX => 12 case XboxY => 13
       case _ => 14)
    case _ => 14
  }

  /** Each mask's key leads back to its position, so distinct masks report distinct keys. */
  lemma PadKeysDistinct(i: nat, j: nat)
    requires i < NumPadButtons && j < NumPadButtons && i != j
    ensures PadKeys[i] != PadKeys[j]
  {
    PadIndexOfKey(i);
    PadIndexOfKey(j);
  }

  lemma PadIndexOfKey(i: nat)
    requires i < NumPadButtons
    ensures PadIndex(PadKeys[i]) == i
  {
    if i < 7 {
      if i == 0 {} else if i == 1 {} else if i == 2 {} else if i == 3 {}
      else if i == 4 {} else if i == 5 {} else {}
    } else {
      if i == 7 {} else if i == 8 {} else if i == 9 {} else if i == 10 {}
      else if i == 11 {} else if i == 12 {} else {}
    }
  }

  /** One slot's state, the `XInputState` record without its analog fields. */
  datatype PadState = PadState(
    connected: bool,
    packetNumber: bv32,
    buttonState: bv32,
    buttonStatePrev: bv32,
    activeKeys: seq<InputConstant>,
    buttonsPressed: seq<InputConstant>,
    buttonsReleased: seq<InputConstant>)

  /** The state of a slot with no pad: the `XInputState` constructor. */
  const DefaultState := PadState(false, 0xffff_ffff, 0, 0, [], [], [])

  /** What polling one slot returned. */
  datatype Poll =
    | Connected(packetNumber: bv32, buttons: bv32)
    | DeviceNotConnected
    | PollError

  predicate Held(state: bv32, i: nat)
    requires i < NumPadButtons
  {
    state & Bitmasks[i] != 0
  }

  /** The keys of the first `n` masks that are held in `now`. */
  function HeldKeys(now: bv32, n: nat): seq<InputConstant>
    requires n <= NumPadButtons
  {
    if n == 0 then [] else HeldKeys(now, n - 1) + (if Held(now, n - 1) then [PadKeys[n - 1]] else [])
  }

  /** The keys of the first `n` masks held in `now` and not in `prev`. */
  function PressedKeys(prev: bv32, now: bv32, n: nat): seq<InputConstant>
    requires n <= NumPadButtons
  {
    if n == 0 then []
    else PressedKeys(prev, now, n - 1) + (if Held(now, n - 1) && !Held(prev, n - 1) then [PadKeys[n - 1]] else [])
  }

  /** The keys of the first `n` masks held in `prev` and not in `now`. */
  function ReleasedKeys(prev: bv32, now: bv32, n: nat): seq<InputConstant>
    requires n <= NumPadButtons
  {
    if n == 0 then []
    else ReleasedKeys(prev, now, n - 1) + (if !Held(now, n - 1) && Held(prev, n - 1) then [PadKeys[n - 1]] else [])
  }

  /** A button's key is reported pressed exactly when its bit is set now and
      was clear before, and released exactly when it was set and is clear now. */
  lemma PressedReleasedSpec(prev: bv32, now: bv32, n: nat, i: nat)
    requires n <= NumPadButtons && i < NumPadButtons
    ensures PadKeys[i] in PressedKeys(prev, now, n) <==> i < n && Held(now, i) && !Held(prev, i)
    ensures PadKeys[i] in ReleasedKeys(prev, now, n) <==> i < n && !Held(now, i) && Held(prev, i)
    ensures PadKeys[i] in HeldKeys(now, n) <==> i < n && Held(now, i)
  {
    PressedSpec(prev, now, n, i);
    ReleasedSpec(prev, now, n, i);
    HeldSpec(now, n, i);
  }

  lemma InOptionalSnoc(s: seq<InputConstant>, b: bool, k: InputConstant, x: InputConstant)
    ensures x in s + (if b then [k] else []) <==> x in s || (b && x == k)
  {
  }

  lemma {:induction false} PressedSpec(prev: bv32, now: bv32, n: nat, i: nat)
    requires n <= NumPadButtons && i < NumPadButtons
    ensures PadKeys[i] in PressedKeys(prev, now, n) <==> i < n && Held(now, i) && !Held(prev, i)
  {
    if n > 0 {
      PressedSpec(prev, now, n - 1, i);
      InOptionalSnoc(PressedKeys(prev, now, n - 1), Held(now, n - 1) && !Held(prev, n - 1), PadKeys[n - 1], PadKeys[i]);
      if i != n - 1 {
        PadKeysDistinct(i, n - 1);
      }
    }
  }

  lemma {:induction false} ReleasedSpec(prev: bv32, now: bv32, n: nat, i: nat)
    requires n <= NumPadButtons && i < NumPadButtons
    ensures PadKeys[i] in ReleasedKeys(prev, now, n) <==> i < n && !Held(now, i) && Held(prev, i)
  {
    if n > 0 {
      ReleasedSpec(prev, now, n - 1, i);
      InOptionalSnoc(ReleasedKeys(prev, now, n - 1), !Held(now, n - 1) && Held(prev, n - 1), PadKeys[n - 1], PadKeys[i]);
      if i != n - 1 {
        PadKeysDistinct(i, n - 1);
      }
    }
  }

  lemma {:induction false} HeldSpec(now: bv32, n: nat, i: nat)
    requires n <= NumPadButtons && i < NumPadButtons
    ensures PadKeys[i] in HeldKeys(now, n) <==> i < n && Held(now, i)
  {
    if n > 0 {
      HeldSpec(now, n - 1, i);
      InOptionalSnoc(HeldKeys(now, n - 1), Held(now, n - 1), PadKeys[n - 1], PadKeys[i]);
      if i != n - 1 {
        PadKeysDistinct(i, n - 1);
      }
    }
  }

  /** No key is both pressed and released in one packet, every pressed key is
      held, and the lists fit the record's 16-entry arrays. */
  lemma {:induction false} PressedReleasedDisjoint(prev: bv32, now: bv32, n: nat)
    requires n <= NumPadButtons
    ensures forall k :: k in PressedKeys(prev, now, n) ==> k !in ReleasedKeys(prev, now, n) && k in HeldKeys(now, n)
    ensures |PressedKeys(prev, now, n)| + |ReleasedKeys(prev, now, n)| <= n
    ensures |HeldKeys(now, n)| <= n
  {
    if n > 0 {
      PressedReleasedDisjoint(prev, now, n - 1);
      var k := PadKeys[n - 1];
      var held, down, up := Held(now, n - 1), Held(now, n - 1) && !Held(prev, n - 1), !Held(now, n - 1) && Held(prev, n - 1);
      forall x | x in PressedKeys(prev, now, n)
        ensures x !in ReleasedKeys(prev, now, n) && x in HeldKeys(now, n)
      {
        InOptionalSnoc(PressedKeys(prev, now, n - 1), down, k, x);
        InOptionalSnoc(ReleasedKeys(prev, now, n - 1), up, k, x);
        InOptionalSnoc(HeldKeys(now, n - 1), held, k, x);
        if x == k {
          PressedSpec(prev, now, n - 1, n - 1);
          ReleasedSpec(prev, now, n - 1, n - 1);
        }
      }
    }
  }

  /** The same packet twice reports nothing new: no key is pressed or released. */
  lemma {:induction false} SameStateNoEdges(s: bv32, n: nat)
    requires n <= NumPadButtons
    ensures PressedKeys(s, s, n) == [] && ReleasedKeys(s, s, n) == []
  {
    if n > 0 {
      SameStateNoEdges(s, n - 1);
    }
  }

  /** The button scan of `update`: the counts restart at 0, and each mask in
      turn is recorded as held and as pressed or released. */
  method ScanButtons(prev: bv32, now: bv32) returns (active: seq<InputConstant>, pressed: seq<InputConstant>, released: seq<InputConstant>)
    ensures active == HeldKeys(now, NumPadButtons)
    ensures pressed == PressedKeys(prev, now, NumPadButtons)
    ensures released == ReleasedKeys(prev, now, NumPadButtons)
  {
    active, pressed, released := [], [], [];
    for i := 0 to NumPadButtons
      invariant active == HeldKeys(now, i)
      invariant pressed == PressedKeys(prev, now, i)
      invariant released == ReleasedKeys(prev, now, i)
    {
      var key := PadKeys[i];
      if Held(now, i) {
        active := active + [key];
        if !Held(prev, i) {
          pressed := pressed + [key];
        }
      } else {
        if Held(prev, i) {
          released := released + [key];
        }
      }
    }
  }

  /** A slot after one poll: a missing pad resets the slot; a pad is marked
      connected, and only a new packet number replaces the button record. */
  function PollStep(s: PadState, p: Poll): PadState
    requires !p.PollError?
  {
    match p
    case DeviceNotConnected => DefaultState
    case Connected(packet, buttons) =>
      if packet == s.packetNumber then s.(connected := true)
      else
        s.(connected := true, packetNumber := packet, buttonStatePrev := s.buttonState, buttonState := buttons,
           activeKeys := HeldKeys(buttons, NumPadButtons),
           buttonsPressed := PressedKeys(s.buttonState, buttons, NumPadButtons),
           buttonsReleased := ReleasedKeys(s.buttonState, buttons, NumPadButtons))
  }

  /** One slot's poll: the body of `update`'s loop for a successful poll. */
  method PollSlot(s: PadState, p: Poll) returns (r: PadState)
    requires !p.PollError?
    ensures r == PollStep(s, p)
  {
    match p
    case Connected(packet, buttons) =>
      r := s.(connected := true);
      if packet != r.packetNumber {
        var active, pressed, released := ScanButtons(r.buttonState, buttons);
        r := r.(packetNumber := packet, buttonStatePrev := r.buttonState, buttonState := buttons,
          activeKeys := active, buttonsPressed := pressed, buttonsReleased := released);
      }
    case DeviceNotConnected =>
      r := DefaultState;
  }

  /** The slot loop of `update`, stopping at the first poll error. */
  method PollSlots(states: array<PadState>, polls: seq<Poll>) returns (ok: bool)
    requires states.Length == MaxUsers && |polls| == MaxUsers
    modifies states
    ensures ok <==> forall u :: 0 <= u < MaxUsers ==> !polls[u].PollError?
    ensures ok ==> forall u :: 0 <= u < MaxUsers ==> states[u] == PollStep(old(states[u]), polls[u])
  {
    for u := 0 to MaxUsers
      invariant forall v :: 0 <= v < u ==> !polls[v].PollError? && states[v] == PollStep(old(states[v]), polls[v])
      invariant forall v :: u <= v < MaxUsers ==> states[v] == old(states[v])
    {
      if polls[u].PollError? {
        return false;
      }
      states[u] := PollSlot(states[u], polls[u]);
    }
    return true;
  }

  class XInputManager {
    const states: array<PadState>

    ghost predicate Valid()
      reads this
    {
      states.Length == MaxUsers
    }

    constructor ()
      ensures Valid() && fresh(states)
      ensures forall u :: 0 <= u < MaxUsers ==> states[u] == DefaultState
    {
      states := new PadState[MaxUsers](_ => DefaultState);
    }

    /** `update`: polls the slots in order. False where a poll reports an
        error other than a missing device (the CHECK_NO_ENTRY); the slots
        before it are already updated. */
    method Update(polls: seq<Poll>) returns (ok: bool)
      requires Valid() && |polls| == MaxUsers
      modifies states
      ensures ok <==> forall u :: 0 <= u < MaxUsers ==> !polls[u].PollError?
      ensures ok ==> forall u :: 0 <= u < MaxUsers ==> states[u] == PollStep(old(states[u]), polls[u])
    {
      ok := PollSlots(states, polls);
    }

    /** `isConnected`: false for any index past the last slot. */
    predicate IsConnected(userIndex: nat)
      requires Valid()
      reads this, states
    {
      userIndex < MaxUsers && states[userIndex].connected
    }

    /** `getPressed`: for a connected pad the output becomes exactly the
        recorded pressed keys; otherwise it is left as it was. */
    method GetPressed(userIndex: nat, outButtons: seq<InputConstant>) returns (r: seq<InputConstant>)
      requires Valid()
      ensures IsConnected(userIndex) ==> r == states[userIndex].buttonsPressed
      ensures !IsConnected(userIndex) ==> r == outButtons
    {
      r := outButtons;
      if IsConnected(userIndex) {
        var recorded := states[userIndex].buttonsPressed;
        r := CopyButtons(recorded);
      }
    }

    /** `getReleased`, the same for the released keys. */
    method GetReleased(userIndex: nat, outButtons: seq<InputConstant>) returns (r: seq<InputConstant>)
      requires Valid()
      ensures IsConnected(userIndex) ==> r == states[userIndex].buttonsReleased
      ensures !IsConnected(userIndex) ==> r == outButtons
    {
      r := outButtons;
      if IsConnected(userIndex) {
        var recorded := states[userIndex].buttonsReleased;
        r := CopyButtons(recorded);
      }
    }

    /** `appendActiveKeys`: a connected pad's held keys, each with value 1,
        follow the keys already in the list. */
    method AppendActiveKeys(userIndex: nat, outKeys: seq<InputManagers.ActiveKey>) returns (r: seq<InputManagers.ActiveKey>)
      requires Valid()
      ensures |r| == |outKeys| + (if IsConnected(userIndex) then |states[userIndex].activeKeys| else 0)
      ensures r[..|outKeys|] == outKeys
      ensures IsConnected(userIndex) ==> forall i :: 0 <= i < |states[userIndex].activeKeys| ==>
        r[|outKeys| + i] == InputManagers.ActiveKey(states[userIndex].activeKeys[i], 1.0)
    {
      r := outKeys;
      if IsConnected(userIndex) {
        var keys := states[userIndex].activeKeys;
        for i := 0 to |keys|
          invariant |r| == |outKeys| + i && r[..|outKeys|] == outKeys
          invariant forall j :: 0 <= j < i ==> r[|outKeys| + j] == InputManagers.ActiveKey(keys[j], 1.0)
        {
          r := r + [InputManagers.ActiveKey(keys[i], 1.0)];
        }
      }
    }
  }

  /** The `resize` and element loop that copy a recorded list out. */
  method CopyButtons(recorded: seq<InputConstant>) returns (r: seq<InputConstant>)
    ensures r == recorded
  {
    r := [];
    for i := 0 to |recorded|
      invariant r == recorded[..i]
    {
      r := r + [recorded[i]];
      assert recorded[..i + 1] == recorded[..i] + [recorded[i]];
    }
    assert recorded[..|recorded|] == recorded;
  }
}
