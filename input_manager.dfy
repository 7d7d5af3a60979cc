/**
 * The keyboard side of pathos/input/input_manager.cpp. Named events are
 * bound to lists of keys; a key transition looks up every binding that
 * holds the key and calls the handler registered for the binding's event.
 * An event name is represented by its CRC32 hash, a handler by an
 * identifier, and calling handlers by returning their identifiers in call
 * order. A failed CHECK is the result None.
 */
module InputManagers {
  import opened Wrappers
  import opened InputConstants
  import Sequences

  type Handler = nat

  /** A button binding: the keys that trigger it and its event's hash. */
  datatype ButtonBinding = ButtonBinding(keys: seq<InputConstant>, eventHash: nat)

  /** An axis binding: keys with one multiplier each, and its event's hash. */
  datatype AxisBinding = AxisBinding(keys: seq<InputConstant>, multipliers: seq<real>, eventHash: nat)

  /** A key that is down this frame, with its analog value. */
  datatype ActiveKey = ActiveKey(key: InputConstant, value: real)

  // ---------------------------------------------------------------------
  // Dispatch

  /** The event hashes of the bindings that contain `ic`, in binding order. */
  function MatchingEvents(bindings: seq<ButtonBinding>, ic: InputConstant): (r: seq<nat>)
    ensures |r| <= |bindings|
  {
    if bindings == [] then []
    else
      var last := bindings[|bindings| - 1];
      MatchingEvents(bindings[..|bindings| - 1], ic) + (if ic in last.keys then [last.eventHash] else [])
  }

  /** An event is matched exactly when some binding holding the key carries it. */
  lemma {:induction false} MatchingEventsSpec(bindings: seq<ButtonBinding>, ic: InputConstant, e: nat)
    ensures e in MatchingEvents(bindings, ic) <==> exists b :: b in bindings && ic in b.keys && b.eventHash == e
    decreases |bindings|
  {
    if bindings != [] {
      var init := bindings[..|bindings| - 1];
      var last := bindings[|bindings| - 1];
      MatchingEventsSpec(init, ic, e);
      assert bindings == init + [last];
      if e in MatchingEvents(bindings, ic) && e !in MatchingEvents(init, ic) {
        assert ic in last.keys && last.eventHash == e;
      }
    }
  }

  /** The handlers called for `events` in order; None when one of the events
      has no handler (the CHECK before each call). */
  function Handlers(events: seq<nat>, mapping: map<nat, Handler>): (r: Option<seq<Handler>>)
    ensures r.Some? ==> |r.value| == |events|
    ensures r.Some? ==> forall i :: 0 <= i < |events| ==> events[i] in mapping && r.value[i] == mapping[events[i]]
    ensures r.None? ==> exists i :: 0 <= i < |events| && events[i] !in mapping
  {
    if events == [] then Some([])
    else
      var init := Handlers(events[..|events| - 1], mapping);
      var e := events[|events| - 1];
      if init.None? || e !in mapping then None else Some(init.value + [mapping[e]])
  }

  /** The bindings' loop: collects the events of the bindings that contain `ic`. */
  method CollectEvents(bindings: seq<ButtonBinding>, ic: InputConstant) returns (events: seq<nat>)
    ensures events == MatchingEvents(bindings, ic)
  {
    events := [];
    for i := 0 to |bindings|
      invariant events == MatchingEvents(bindings[..i], ic)
    {
      if ic in bindings[i].keys {
        events := events + [bindings[i].eventHash];
      }
      assert bindings[..i + 1][..i] == bindings[..i];
    }
    assert bindings[..|bindings|] == bindings;
  }

  /** The events' loop: looks each event up and calls its handler. */
  method FireHandlers(events: seq<nat>, mapping: map<nat, Handler>) returns (fired: Option<seq<Handler>>)
    ensures fired == Handlers(events, mapping)
  {
    var called: seq<Handler> := [];
    for i := 0 to |events|
      invariant Handlers(events[..i], mapping) == Some(called)
    {
      assert events[..i + 1][..i] == events[..i];
      if events[i] !in mapping {
        assert Handlers(events, mapping).None?;
        return None;
      }
      called := called + [mapping[events[i]]];
    }
    assert events[..|events|] == events;
    fired := Some(called);
  }

  /** Every binding's event has a handler. */
  ghost predicate Covered(bindings: seq<ButtonBinding>, mapping: map<nat, Handler>)
  {
    forall b :: b in bindings ==> b.eventHash in mapping
  }

  /** While every binding's event has a handler, dispatch never fails its CHECK. */
  lemma CoveredDispatches(bindings: seq<ButtonBinding>, mapping: map<nat, Handler>, ic: InputConstant)
    requires Covered(bindings, mapping)
    ensures Handlers(MatchingEvents(bindings, ic), mapping).Some?
  {
    var events := MatchingEvents(bindings, ic);
    if Handlers(events, mapping).None? {
      var i :| 0 <= i < |events| && events[i] !in mapping;
      MatchingEventsSpec(bindings, ic, events[i]);
    }
  }

  /** The bindings left when those of event `hash` are taken out. */
  function WithoutButtonEvent(bindings: seq<ButtonBinding>, hash: nat): seq<ButtonBinding>
  {
    Sequences.Filter(bindings, (b: ButtonBinding) => b.eventHash != hash)
  }

  function WithoutAxisEvent(bindings: seq<AxisBinding>, hash: nat): seq<AxisBinding>
  {
    Sequences.Filter(bindings, (b: AxisBinding) => b.eventHash != hash)
  }

  /** As written, unbinding erases only the handler: a later press of a key
      still bound under that event fails the CHECK before the call. */
  lemma UnbindAsWrittenFailsCheck(bindings: seq<ButtonBinding>, mapping: map<nat, Handler>, b: ButtonBinding, ic: InputConstant)
    requires b in bindings && ic in b.keys
    ensures Handlers(MatchingEvents(bindings, ic), mapping - {b.eventHash}).None?
  {
    var events := MatchingEvents(bindings, ic);
    MatchingEventsSpec(bindings, ic, b.eventHash);
    var i :| 0 <= i < |events| && events[i] == b.eventHash;
  }

  // ---------------------------------------------------------------------
  // Axes

  /** Upper-case letters are folded to lower case before any lookup. */
  function FoldCase(ascii: nat): (r: nat)
    ensures ascii < 256 ==> r < 256
    ensures 65 <= ascii <= 90 ==> r == ascii + 32
    ensures !(65 <= ascii <= 90) ==> r == ascii
  {
    if 65 <= ascii <= 90 then 97 + (ascii - 65) else ascii
  }

  /** Folding keeps the key: a letter's two cases press the same key. */
  lemma FoldCaseKeepsKey(ascii: nat)
    requires ascii < 256
    ensures AsciiToInputConstants(FoldCase(ascii)) == AsciiToInputConstants(ascii)
    ensures FoldCase(FoldCase(ascii)) == FoldCase(ascii)
  {
  }

  /** The keys held down in `asciiMap`, in code order, each with value 1. */
  function AsciiActive(down: seq<bool>): seq<ActiveKey>
    requires |down| <= 256
  {
    if down == [] then []
    else
      var c := |down| - 1;
      var ic := AsciiToInputConstants(c);
      AsciiActive(down[..c]) + (if down[c] && ic != Undefined then [ActiveKey(ic, 1.0)] else [])
  }

  function ModifierKeys(shift: bool, ctrl: bool, alt: bool): seq<ActiveKey>
  {
    (if shift then [ActiveKey(Shift, 1.0)] else []) +
    (if ctrl then [ActiveKey(Ctrl, 1.0)] else []) +
    (if alt then [ActiveKey(Alt, 1.0)] else [])
  }

  /** The active-key list `updateAxisValue` builds: gamepad keys, then keys
      held on the keyboard, then the modifiers. */
  function ActiveKeys(gamepad: seq<ActiveKey>, down: seq<bool>, shift: bool, ctrl: bool, alt: bool): seq<ActiveKey>
    requires |down| <= 256
  {
    gamepad + AsciiActive(down) + ModifierKeys(shift, ctrl, alt)
  }

  /** Index of the first active entry for `key`. */
  function FindKey(active: seq<ActiveKey>, key: InputConstant): Option<nat>
  {
    Sequences.FirstIndex(active, (a: ActiveKey) => a.key == key)
  }

  ghost predicate AxisBindingOk(b: AxisBinding)
  {
    |b.multipliers| >= |b.keys|
  }

  /** The axis value from the binding's keys at index `i` on: the first key
      that is active decides, and with none the value is 0. */
  function AxisValueFrom(b: AxisBinding, active: seq<ActiveKey>, i: nat): real
    requires AxisBindingOk(b) && i <= |b.keys|
    decreases |b.keys| - i
  {
    if i == |b.keys| then 0.0
    else match FindKey(active, b.keys[i])
      case Some(j) => active[j].value * b.multipliers[i]
      case None => AxisValueFrom(b, active, i + 1)
  }

  /** An axis none of whose keys from index `i` on is active is 0. */
  lemma {:induction false} AxisValueNoKey(b: AxisBinding, active: seq<ActiveKey>, i: nat)
    requires AxisBindingOk(b) && i <= |b.keys|
    requires forall m :: i <= m < |b.keys| ==> FindKey(active, b.keys[m]).None?
    ensures AxisValueFrom(b, active, i) == 0.0
    decreases |b.keys| - i
  {
    if i < |b.keys| {
      AxisValueNoKey(b, active, i + 1);
    }
  }

  /** The first active key `k` in binding order sets the axis, from the first
      active entry for it; the keys after it are ignored. */
  lemma {:induction false} AxisValueFirstKey(b: AxisBinding, active: seq<ActiveKey>, i: nat, k: nat)
    requires AxisBindingOk(b) && i <= k < |b.keys|
    requires FindKey(active, b.keys[k]).Some?
    requires forall m :: i <= m < k ==> FindKey(active, b.keys[m]).None?
    ensures AxisValueFrom(b, active, i) == active[FindKey(active, b.keys[k]).value].value * b.multipliers[k]
    decreases k - i
  {
    if i < k {
      AxisValueFirstKey(b, active, i + 1, k);
    }
  }

  /** The axis map after each binding in turn sets its event's value. */
  function AxisMappingAfter(m: map<nat, real>, bindings: seq<AxisBinding>, active: seq<ActiveKey>): map<nat, real>
    requires forall b :: b in bindings ==> AxisBindingOk(b)
  {
    if bindings == [] then m
    else
      var last := bindings[|bindings| - 1];
      AxisMappingAfter(m, bindings[..|bindings| - 1], active)[last.eventHash := AxisValueFrom(last, active, 0)]
  }

  /** Every bound event ends up in the axis map, whatever the map held before. */
  lemma {:induction false} AxisMappingAfterKeys(m: map<nat, real>, bindings: seq<AxisBinding>, active: seq<ActiveKey>)
    requires forall b :: b in bindings ==> AxisBindingOk(b)
    ensures AxisMappingAfter(m, bindings, active).Keys == m.Keys + set b | b in bindings :: b.eventHash
    decreases |bindings|
  {
    if bindings != [] {
      var init := bindings[..|bindings| - 1];
      AxisMappingAfterKeys(m, init, active);
      assert bindings == init + [bindings[|bindings| - 1]];
      assert (set b | b in bindings :: b.eventHash) == (set b | b in init :: b.eventHash) + {bindings[|bindings| - 1].eventHash};
    }
  }

  /** As written, unbinding an axis erases only its map entry, and the next
      `updateAxisValue` puts the entry back. */
  lemma UnbindAxisAsWrittenRestored(m: map<nat, real>, bindings: seq<AxisBinding>, active: seq<ActiveKey>, b: AxisBinding)
    requires forall x :: x in bindings ==> AxisBindingOk(x)
    requires b in bindings
    ensures b.eventHash in AxisMappingAfter(m - {b.eventHash}, bindings, active)
  {
    AxisMappingAfterKeys(m - {b.eventHash}, bindings, active);
  }

  /** The bindings' loop of `updateAxisValue`: each axis is reset to 0 and
      then set by the first of its keys found among the active keys. */
  method AssignAxes(m: map<nat, real>, bindings: seq<AxisBinding>, activeKeys: seq<ActiveKey>) returns (mapping: map<nat, real>)
    requires forall b :: b in bindings ==> AxisBindingOk(b)
    ensures mapping == AxisMappingAfter(m, bindings, activeKeys)
  {
    mapping := m;
    for k := 0 to |bindings|
      invariant mapping == AxisMappingAfter(m, bindings[..k], activeKeys)
    {
      assert bindings[..k + 1][..k] == bindings[..k];
      var binding := bindings[k];
      assert binding in bindings;
      ghost var before := mapping;
      mapping := mapping[binding.eventHash := 0.0];
      var i := 0;
      while i < |binding.keys|
        invariant 0 <= i <= |binding.keys|
        invariant AxisValueFrom(binding, activeKeys, 0) == AxisValueFrom(binding, activeKeys, i)
        invariant mapping == before[binding.eventHash := 0.0]
      {
        var found := FindActive(activeKeys, binding.keys[i]);
        if found.Some? {
          assert AxisValueFrom(binding, activeKeys, i) == activeKeys[found.value].value * binding.multipliers[i];
          mapping := mapping[binding.eventHash := activeKeys[found.value].value * binding.multipliers[i]];
          assert mapping == before[binding.eventHash := AxisValueFrom(binding, activeKeys, 0)];
          break;
        }
        i := i + 1;
      }
      assert mapping == before[binding.eventHash := AxisValueFrom(binding, activeKeys, 0)];
    }
    assert bindings[..|bindings|] == bindings;
  }

  /** Index of the first active entry for `key`: the `find_if` over the list. */
  method FindActive(active: seq<ActiveKey>, key: InputConstant) returns (r: Option<nat>)
    ensures r == FindKey(active, key)
  {
    var j := 0;
    while j < |active|
      invariant 0 <= j <= |active|
      invariant forall m :: 0 <= m < j ==> active[m].key != key
    {
      if active[j].key == key {
        FindKeyFirst(active, key, j);
        return Some(j);
      }
      j := j + 1;
    }
    FindKeyFirst(active, key, |active|);
    return None;
  }

  /** FindKey is the first index that holds `key`. */
  lemma FindKeyFirst(active: seq<ActiveKey>, key: InputConstant, j: nat)
    requires j <= |active|
    requires forall m :: 0 <= m < j ==> active[m].key != key
    requires j < |active| ==> active[j].key == key
    ensures FindKey(active, key) == if j < |active| then Some(j) else None
  {
    var r := FindKey(active, key);
    if r.Some? {
      assert r.value >= j;
    }
  }

  // ---------------------------------------------------------------------
  // The manager

  class InputManager {
    const asciiMap: array<bool>
    var isShiftActive: bool
    var isCtrlActive: bool
    var isAltActive: bool
    var buttonPressedBindings: seq<ButtonBinding>
    var buttonReleasedBindings: seq<ButtonBinding>
    var axisBindings: seq<AxisBinding>
    var buttonPressedMapping: map<nat, Handler>
    var buttonReleasedMapping: map<nat, Handler>
    var axisMapping: map<nat, real>

    ghost predicate Valid()
      reads this
    {
      asciiMap.Length == 256 && forall b :: b in axisBindings ==> AxisBindingOk(b)
    }

    /** Every binding's event is mapped: the state the CHECKs in dispatch rely on. */
    ghost predicate Consistent()
      reads this
    {
      Covered(buttonPressedBindings, buttonPressedMapping) &&
      Covered(buttonReleasedBindings, buttonReleasedMapping) &&
      forall b :: b in axisBindings ==> b.eventHash in axisMapping
    }

    constructor ()
      ensures Valid() && Consistent() && fresh(asciiMap)
      ensures forall c :: 0 <= c < 256 ==> !asciiMap[c]
      ensures !isShiftActive && !isCtrlActive && !isAltActive
      ensures buttonPressedBindings == [] && buttonReleasedBindings == [] && axisBindings == []
      ensures buttonPressedMapping == map[] && buttonReleasedMapping == map[] && axisMapping == map[]
    {
      asciiMap := new bool[256](_ => false);
      isShiftActive, isCtrlActive, isAltActive := false, false, false;
      buttonPressedBindings, buttonReleasedBindings, axisBindings := [], [], [];
      buttonPressedMapping, buttonReleasedMapping, axisMapping := map[], map[], map[];
    }

    /** `hasButtonPressed`: whether a pressed handler is mapped for the event. */
    predicate HasButtonPressed(hash: nat): (b: bool)
      reads this
      ensures b <==> hash in buttonPressedMapping
    {
      hash in buttonPressedMapping
    }

    /** `hasButtonReleased`: whether a released handler is mapped for the event. */
    predicate HasButtonReleased(hash: nat): (b: bool)
      reads this
      ensures b <==> hash in buttonReleasedMapping
    {
      hash in buttonReleasedMapping
    }

    /** `hasAxis`: whether the event has an axis value. */
    predicate HasAxis(hash: nat): (b: bool)
      reads this
      ensures b <==> hash in axisMapping
    {
      hash in axisMapping
    }

    /** `bindButtonPressed`: refused when the event is already mapped; otherwise
        the binding is stored under the event and the handler registered. */
    method BindButtonPressed(hash: nat, keys: seq<InputConstant>, handler: Handler) returns (ok: bool)
      requires Valid()
      modifies this
      ensures Valid()
      ensures ok <==> !old(HasButtonPressed(hash))
      ensures HasButtonPressed(hash)
      ensures ok ==> (buttonPressedBindings == old(buttonPressedBindings) + [ButtonBinding(keys, hash)] &&
        buttonPressedMapping == old(buttonPressedMapping)[hash := handler])
      ensures !ok ==> buttonPressedBindings == old(buttonPressedBindings) && buttonPressedMapping == old(buttonPressedMapping)
      ensures old(Consistent()) ==> Consistent()
      ensures buttonReleasedBindings == old(buttonReleasedBindings) && buttonReleasedMapping == old(buttonReleasedMapping)
      ensures axisBindings == old(axisBindings) && axisMapping == old(axisMapping)
    {
      ok := hash !in buttonPressedMapping;
      if ok {
        buttonPressedBindings := buttonPressedBindings + [ButtonBinding(keys, hash)];
        buttonPressedMapping := buttonPressedMapping[hash := handler];
      }
    }

    method BindButtonReleased(hash: nat, keys: seq<InputConstant>, handler: Handler) returns (ok: bool)
      requires Valid()
      modifies this
      ensures Valid()
      ensures ok <==> !old(HasButtonReleased(hash))
      ensures HasButtonReleased(hash)
      ensures ok ==> (buttonReleasedBindings == old(buttonReleasedBindings) + [ButtonBinding(keys, hash)] &&
        buttonReleasedMapping == old(buttonReleasedMapping)[hash := handler])
      ensures !ok ==> buttonReleasedBindings == old(buttonReleasedBindings) && buttonReleasedMapping == old(buttonReleasedMapping)
      ensures old(Consistent()) ==> Consistent()
      ensures buttonPressedBindings == old(buttonPressedBindings) && buttonPressedMapping == old(buttonPressedMapping)
      ensures axisBindings == old(axisBindings) && axisMapping == old(axisMapping)
    {
      ok := hash !in buttonReleasedMapping;
      if ok {
        buttonReleasedBindings := buttonReleasedBindings + [ButtonBinding(keys, hash)];
        buttonReleasedMapping := buttonReleasedMapping[hash := handler];
      }
    }

    /** `bindAxis`: like the button bindings; a new axis starts at 0. */
    method BindAxis(hash: nat, keys: seq<InputConstant>, multipliers: seq<real>) returns (ok: bool)
      requires Valid()
      requires |multipliers| >= |keys|
      modifies this
      ensures Valid()
      ensures ok <==> !old(HasAxis(hash))
      ensures HasAxis(hash)
      ensures ok ==> (axisBindings == old(axisBindings) + [AxisBinding(keys, multipliers, hash)] &&
        axisMapping == old(axisMapping)[hash := 0.0])
      ensures !ok ==> axisBindings == old(axisBindings) && axisMapping == old(axisMapping)
      ensures old(Consistent()) ==> Consistent()
      ensures buttonPressedBindings == old(buttonPressedBindings) && buttonPressedMapping == old(buttonPressedMapping)
      ensures buttonReleasedBindings == old(buttonReleasedBindings) && buttonReleasedMapping == old(buttonReleasedMapping)
    {
      ok := hash !in axisMapping;
      if ok {
        axisBindings := axisBindings + [AxisBinding(keys, multipliers, hash)];
        axisMapping := axisMapping[hash := 0.0];
      }
    }

    /** `unbindButtonPressed` as written: true iff a handler was erased; the
        bindings are left in place. */
    method UnbindButtonPressedAsWritten(hash: nat) returns (removed: bool)
      modifies this
      ensures removed <==> old(HasButtonPressed(hash))
      ensures !HasButtonPressed(hash)
      ensures buttonPressedMapping == old(buttonPressedMapping) - {hash}
      ensures buttonPressedBindings == old(buttonPressedBindings)
      ensures buttonReleasedBindings == old(buttonReleasedBindings) && buttonReleasedMapping == old(buttonReleasedMapping)
      ensures axisBindings == old(axisBindings) && axisMapping == old(axisMapping)
    {
      removed := hash in buttonPressedMapping;
      buttonPressedMapping := buttonPressedMapping - {hash};
    }

    method UnbindButtonReleasedAsWritten(hash: nat) returns (removed: bool)
      modifies this
      ensures removed <==> old(HasButtonReleased(hash))
      ensures !HasButtonReleased(hash)
      ensures buttonReleasedMapping == old(buttonReleasedMapping) - {hash}
      ensures buttonReleasedBindings == old(buttonReleasedBindings)
      ensures buttonPressedBindings == old(buttonPressedBindings) && buttonPressedMapping == old(buttonPressedMapping)
      ensures axisBindings == old(axisBindings) && axisMapping == old(axisMapping)
    {
      removed := hash in buttonReleasedMapping;
      buttonReleasedMapping := buttonReleasedMapping - {hash};
    }

    method UnbindAxisAsWritten(hash: nat) returns (removed: bool)
      modifies this
      ensures removed <==> old(HasAxis(hash))
      ensures !HasAxis(hash)
      ensures axisMapping == old(axisMapping) - {hash}
      ensures axisBindings == old(axisBindings)
      ensures buttonPressedBindings == old(buttonPressedBindings) && buttonPressedMapping == old(buttonPressedMapping)
      ensures buttonReleasedBindings == old(buttonReleasedBindings) && buttonReleasedMapping == old(buttonReleasedMapping)
    {
      removed := hash in axisMapping;
      axisMapping := axisMapping - {hash};
    }

    /** `unbindButtonPressed` with its bindings removed too, which keeps every
        binding mapped. */
    method UnbindButtonPressed(hash: nat) returns (removed: bool)
      requires Valid()
      modifies this
      ensures Valid()
      ensures removed <==> old(HasButtonPressed(hash))
      ensures !HasButtonPressed(hash)
      ensures buttonPressedMapping == old(buttonPressedMapping) - {hash}
      ensures buttonPressedBindings == WithoutButtonEvent(old(buttonPressedBindings), hash)
      ensures old(Consistent()) ==> Consistent()
      ensures buttonReleasedBindings == old(buttonReleasedBindings) && buttonReleasedMapping == old(buttonReleasedMapping)
      ensures axisBindings == old(axisBindings) && axisMapping == old(axisMapping)
    {
      removed := hash in buttonPressedMapping;
      buttonPressedMapping := buttonPressedMapping - {hash};
      buttonPressedBindings := WithoutButtonEvent(buttonPressedBindings, hash);
    }

    method UnbindButtonReleased(hash: nat) returns (removed: bool)
      requires Valid()
      modifies this
      ensures Valid()
      ensures removed <==> old(HasButtonReleased(hash))
      ensures !HasButtonReleased(hash)
      ensures buttonReleasedMapping == old(buttonReleasedMapping) - {hash}
      ensures buttonReleasedBindings == WithoutButtonEvent(old(buttonReleasedBindings), hash)
      ensures old(Consistent()) ==> Consistent()
      ensures buttonPressedBindings == old(buttonPressedBindings) && buttonPressedMapping == old(buttonPressedMapping)
      ensures axisBindings == old(axisBindings) && axisMapping == old(axisMapping)
    {
      removed := hash in buttonReleasedMapping;
      buttonReleasedMapping := buttonReleasedMapping - {hash};
      buttonReleasedBindings := WithoutButtonEvent(buttonReleasedBindings, hash);
    }

    method UnbindAxis(hash: nat) returns (removed: bool)
      requires Valid()
      modifies this
      ensures Valid()
      ensures removed <==> old(HasAxis(hash))
      ensures !HasAxis(hash)
      ensures axisMapping == old(axisMapping) - {hash}
      ensures axisBindings == WithoutAxisEvent(old(axisBindings), hash)
      ensures old(Consistent()) ==> Consistent()
      ensures buttonPressedBindings == old(buttonPressedBindings) && buttonPressedMapping == old(buttonPressedMapping)
      ensures buttonReleasedBindings == old(buttonReleasedBindings) && buttonReleasedMapping == old(buttonReleasedMapping)
    {
      removed := hash in axisMapping;
      axisMapping := axisMapping - {hash};
      axisBindings := WithoutAxisEvent(axisBindings, hash);
    }

    /** `processRawKeyDown`: only a key that was up goes down and calls the
        pressed handlers of the bindings holding it. */
    method ProcessRawKeyDown(ascii: nat) returns (fired: Option<seq<Handler>>)
      requires Valid() && ascii < 256
      modifies asciiMap
      ensures asciiMap[..] == old(asciiMap[..])[FoldCase(ascii) := true]
      ensures old(asciiMap[FoldCase(ascii)]) ==> fired == Some([])
      ensures !old(asciiMap[FoldCase(ascii)]) ==>
        fired == Handlers(RawEvents(buttonPressedBindings, FoldCase(ascii)), buttonPressedMapping)
      ensures Consistent() ==> fired.Some?
    {
      var a := FoldCase(ascii);
      fired := Some([]);
      if asciiMap[a] == false {
        asciiMap[a] := true;
        var ic := AsciiToInputConstants(a);
        var events: seq<nat> := [];
        if ic != Undefined {
          events := CollectEvents(buttonPressedBindings, ic);
        }
        fired := FireHandlers(events, buttonPressedMapping);
        if Consistent() && ic != Undefined {
          CoveredDispatches(buttonPressedBindings, buttonPressedMapping, ic);
        }
      }
    }

    /** `processRawKeyUp`: the key is up afterwards in every case, and the
        released handlers of the bindings holding it are called. */
    method ProcessRawKeyUp(ascii: nat) returns (fired: Option<seq<Handler>>)
      requires Valid() && ascii < 256
      modifies asciiMap
      ensures asciiMap[..] == old(asciiMap[..])[FoldCase(ascii) := false]
      ensures fired == Handlers(RawEvents(buttonReleasedBindings, FoldCase(ascii)), buttonReleasedMapping)
      ensures Consistent() ==> fired.Some?
    {
      var a := FoldCase(ascii);
      asciiMap[a] := false;
      var ic := AsciiToInputConstants(a);
      var events: seq<nat> := [];
      if ic != Undefined {
        events := CollectEvents(buttonReleasedBindings, ic);
      }
      fired := FireHandlers(events, buttonReleasedMapping);
      if Consistent() && ic != Undefined {
        CoveredDispatches(buttonReleasedBindings, buttonReleasedMapping, ic);
      }
    }

    /** `processSpecialKeyDown`: SHIFT, CTRL and ALT raise their flag; any key
        calls the pressed handlers of the bindings holding it. */
    method ProcessSpecialKeyDown(specialKey: InputConstant) returns (fired: Option<seq<Handler>>)
      modifies this
      ensures isShiftActive == (specialKey == Shift || old(isShiftActive))
      ensures isCtrlActive == (specialKey == Ctrl || old(isCtrlActive))
      ensures isAltActive == (specialKey == Alt || old(isAltActive))
      ensures fired == Handlers(MatchingEvents(buttonPressedBindings, specialKey), buttonPressedMapping)
      ensures Consistent() ==> fired.Some?
      ensures buttonPressedBindings == old(buttonPressedBindings) && buttonPressedMapping == old(buttonPressedMapping)
      ensures buttonReleasedBindings == old(buttonReleasedBindings) && buttonReleasedMapping == old(buttonReleasedMapping)
      ensures axisBindings == old(axisBindings) && axisMapping == old(axisMapping)
    {
      if specialKey == Shift {
        isShiftActive := true;
      } else if specialKey == Ctrl {
        isCtrlActive := true;
      } else if specialKey == Alt {
        isAltActive := true;
      }
      var events := CollectEvents(buttonPressedBindings, specialKey);
      fired := FireHandlers(events, buttonPressedMapping);
      if Consistent() {
        CoveredDispatches(buttonPressedBindings, buttonPressedMapping, specialKey);
      }
    }

    /** `processSpecialKeyUp`: SHIFT, CTRL and ALT clear their flag. */
    method ProcessSpecialKeyUp(specialKey: InputConstant) returns (fired: Option<seq<Handler>>)
      modifies this
      ensures isShiftActive == (specialKey != Shift && old(isShiftActive))
      ensures isCtrlActive == (specialKey != Ctrl && old(isCtrlActive))
      ensures isAltActive == (specialKey != Alt && old(isAltActive))
      ensures fired == Handlers(MatchingEvents(buttonReleasedBindings, specialKey), buttonReleasedMapping)
      ensures Consistent() ==> fired.Some?
      ensures buttonPressedBindings == old(buttonPressedBindings) && buttonPressedMapping == old(buttonPressedMapping)
      ensures buttonReleasedBindings == old(buttonReleasedBindings) && buttonReleasedMapping == old(buttonReleasedMapping)
      ensures axisBindings == old(axisBindings) && axisMapping == old(axisMapping)
    {
      if specialKey == Shift {
        isShiftActive := false;
      } else if specialKey == Ctrl {
        isCtrlActive := false;
      } else if specialKey == Alt {
        isAltActive := false;
      }
      var events := CollectEvents(buttonReleasedBindings, specialKey);
      fired := FireHandlers(events, buttonReleasedMapping);
      if Consistent() {
        CoveredDispatches(buttonReleasedBindings, buttonReleasedMapping, specialKey);
      }
    }

    /** `processButtonDown`: a gamepad button calls the pressed handlers. */
    method ProcessButtonDown(input: InputConstant) returns (fired: Option<seq<Handler>>)
      ensures fired == Handlers(MatchingEvents(buttonPressedBindings, input), buttonPressedMapping)
    {
      var events := CollectEvents(buttonPressedBindings, input);
      fired := FireHandlers(events, buttonPressedMapping);
    }

    method ProcessButtonUp(input: InputConstant) returns (fired: Option<seq<Handler>>)
      ensures fired == Handlers(MatchingEvents(buttonReleasedBindings, input), buttonReleasedMapping)
    {
      var events := CollectEvents(buttonReleasedBindings, input);
      fired := FireHandlers(events, buttonReleasedMapping);
    }

    /** `updateAxisValue`: every bound axis is set from the first of its keys
        that is active, or 0. `gamepad` is the user's active gamepad keys. */
    method UpdateAxisValue(gamepad: seq<ActiveKey>)
      requires Valid()
      modifies this
      ensures Valid()
      ensures axisMapping == AxisMappingAfter(old(axisMapping), axisBindings,
        ActiveKeys(gamepad, asciiMap[..], isShiftActive, isCtrlActive, isAltActive))
      ensures old(Consistent()) ==> Consistent()
      ensures axisBindings == old(axisBindings)
      ensures isShiftActive == old(isShiftActive) && isCtrlActive == old(isCtrlActive) && isAltActive == old(isAltActive)
      ensures buttonPressedBindings == old(buttonPressedBindings) && buttonPressedMapping == old(buttonPressedMapping)
      ensures buttonReleasedBindings == old(buttonReleasedBindings) && buttonReleasedMapping == old(buttonReleasedMapping)
    {
      var activeKeys := gamepad;
      assert asciiMap.Length == 256;
      for c := 0 to 256
        invariant activeKeys == gamepad + AsciiActive(asciiMap[..c])
      {
        assert asciiMap[..c + 1][..c] == asciiMap[..c];
        if asciiMap[c] {
          var ic := AsciiToInputConstants(c);
          if ic != Undefined {
            activeKeys := activeKeys + [ActiveKey(ic, 1.0)];
          }
        }
      }
      assert asciiMap[..256] == asciiMap[..];
      var modifiers: seq<ActiveKey> := [];
      if isShiftActive {
        modifiers := modifiers + [ActiveKey(Shift, 1.0)];
      }
      if isCtrlActive {
        modifiers := modifiers + [ActiveKey(Ctrl, 1.0)];
      }
      if isAltActive {
        modifiers := modifiers + [ActiveKey(Alt, 1.0)];
      }
      activeKeys := activeKeys + modifiers;
      assert activeKeys == ActiveKeys(gamepad, asciiMap[..], isShiftActive, isCtrlActive, isAltActive);
      axisMapping := AssignAxes(axisMapping, axisBindings, activeKeys);
      if old(Consistent()) {
        AxisMappingAfterKeys(old(axisMapping), axisBindings, activeKeys);
      }
    }
  }

  /** The events a raw key reaches: none for a code the table leaves UNDEFINED. */
  function RawEvents(bindings: seq<ButtonBinding>, a: nat): seq<nat>
    requires a < 256
  {
    var ic := AsciiToInputConstants(a);
    if ic == Undefined then [] else MatchingEvents(bindings, ic)
  }
}
