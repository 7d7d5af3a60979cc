/**
 * The engine's input identifiers (pathos/input/input_constants.h): one
 * enumeration for keyboard keys, modifiers, arrows and gamepad buttons, the
 * 256-entry table from an ASCII code to a key, and two classifying
 * predicates.
 */
module InputConstants {

  type LetterIndex = i: nat | i < 26
  type DigitIndex = i: nat | i < 10

  datatype XboxButton =
    | XboxA | XboxB | XboxX | XboxY
    | DpadUp | DpadDown | DpadLeft | DpadRight
    | Start | Back | LB | LT | RB | RT | L3 | R3

  /** One enumerator of `InputConstants`. The 26 letter keys and the ten
      digit keys are indexed; every other enumerator has its own constructor. */
  datatype InputConstant =
    | Undefined
    | KeyboardLetter(letter: LetterIndex)
    | KeyboardDigit(digit: DigitIndex)
    | Backtick
    | Shift | Ctrl | Alt
    | ArrowLeft | ArrowRight | ArrowUp | ArrowDown
    | XboxOne(button: XboxButton)

  function XboxOrdinal(b: XboxButton): (r: nat)
    ensures r < 16
  {
    match b
    case XboxA => 0 case XboxB => 1 case XboxX => 2 case XboxY => 3
    case DpadUp => 4 case DpadDown => 5 case DpadLeft => 6 case DpadRight => 7
    case Start => 8 case Back => 9 case LB => 10 case LT => 11
    case RB => 12 case RT => 13 case L3 => 14 case R3 => 15
  }

  /** The enumerator's value in declaration order: UNDEFINED is 0, KEYBOARD_A..Z
      are 1..26, KEYBOARD_0..9 are 27..36, and XBOXONE_R3 is the last, 60. */
  function Ordinal(k: InputConstant): (r: nat)
    ensures r <= 60
  {
    match k
    case Undefined => 0
    case KeyboardLetter(i) => 1 + i
    case KeyboardDigit(d) => 27 + d
    case Backtick => 37
    case Shift => 38
    case Ctrl => 39
    case Alt => 40
    case ArrowLeft => 41
    case ArrowRight => 42
    case ArrowUp => 43
    case ArrowDown => 44
    case XboxOne(b) => 45 + XboxOrdinal(b)
  }

  lemma XboxOrdinalInjective(a: XboxButton, b: XboxButton)
    ensures XboxOrdinal(a) == XboxOrdinal(b) ==> a == b
  {
  }

  /** Distinct enumerators have distinct values, so the datatype is the enumeration. */
  lemma OrdinalInjective(a: InputConstant, b: InputConstant)
    ensures Ordinal(a) == Ordinal(b) ==> a == b
  {
    if a.XboxOne? && b.XboxOne? {
      XboxOrdinalInjective(a.button, b.button);
    }
  }

  /** `asciiToInputConstants[c]`: digits and letters of either case name their
      key; every other code is UNDEFINED (the backtick included). */
  function AsciiToInputConstants(c: nat): (k: InputConstant)
    requires c < 256
  {
    if 48 <= c <= 57 then KeyboardDigit(c - 48)
    else if 65 <= c <= 90 then KeyboardLetter(c - 65)
    else if 97 <= c <= 122 then KeyboardLetter(c - 97)
    else Undefined
  }

  /** The upper-case ASCII code of a letter or digit key: the table's inverse. */
  function KeyCode(k: InputConstant): (c: nat)
    requires k.KeyboardLetter? || k.KeyboardDigit?
    ensures c < 256
  {
    if k.KeyboardLetter? then 65 + k.letter else 48 + k.digit
  }

  /** The table sends the codes 48..57 to KEYBOARD_0..KEYBOARD_9 in order. */
  lemma DigitsInOrder(d: DigitIndex)
    ensures AsciiToInputConstants(48 + d) == KeyboardDigit(d)
    ensures Ordinal(AsciiToInputConstants(48 + d)) == Ordinal(KeyboardDigit(0)) + d
  {
  }

  /** An upper-case letter and its lower-case form name the same key, KEYBOARD_A..Z in order. */
  lemma LettersFoldCase(i: LetterIndex)
    ensures AsciiToInputConstants(65 + i) == AsciiToInputConstants(97 + i) == KeyboardLetter(i)
  {
  }

  /** Every code outside the digits and the two letter ranges is UNDEFINED, and
      every code inside them names a key. */
  lemma OthersUndefined(c: nat)
    requires c < 256
    ensures AsciiToInputConstants(c) == Undefined <==> !(48 <= c <= 57 || 65 <= c <= 90 || 97 <= c <= 122)
  {
  }

  /** Round trip: every key the table produces comes back from its upper-case
      code, and a code maps to a key only through the case fold of `KeyCode`. */
  lemma KeyCodeRoundTrip(c: nat, k: InputConstant)
    requires c < 256
    requires k.KeyboardLetter? || k.KeyboardDigit?
    ensures AsciiToInputConstants(KeyCode(k)) == k
    ensures AsciiToInputConstants(c) == k <==> c == KeyCode(k) || (k.KeyboardLetter? && c == KeyCode(k) + 32)
  {
  }

  /** Only letters, digits and UNDEFINED come out of the table. */
  lemma TableRange(c: nat)
    requires c < 256
    ensures var k := AsciiToInputConstants(c); k.Undefined? || k.KeyboardLetter? || k.KeyboardDigit?
  {
  }

  predicate IsModifierKey(key: InputConstant)
  {
    key == Ctrl || key == Shift || key == Alt
  }

  predicate IsArrowKey(key: InputConstant)
  {
    key == ArrowLeft || key == ArrowRight || key == ArrowUp || key == ArrowDown
  }

  /** Exactly three keys are modifiers and exactly four are arrows, and no key is both. */
  lemma KeyClasses(key: InputConstant)
    ensures IsModifierKey(key) <==> Ordinal(key) in {38, 39, 40}
    ensures IsArrowKey(key) <==> 41 <= Ordinal(key) <= 44
    ensures !(IsModifierKey(key) && IsArrowKey(key))
  {
    if key.XboxOne? {
      assert Ordinal(key) >= 45;
    }
  }
}
