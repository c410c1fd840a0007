/**
 * The vocabulary of the sokol_app platform layer that the GUI adapter
 * reads: key codes, event kinds, modifier bits and the event record.
 * Values are those of sokol_app.h.
 */
module Sapp {

  import opened KeyLabels

  /** `SAPP_KEYCODE_F1` .. `SAPP_KEYCODE_F25`. */
  type FunctionKeyNumber = n: int | 1 <= n <= 25 witness 1

  /** `sapp_keycode`: digits, letters, function keys and keypad digits
      carry their number or letter. */
  datatype Keycode =
    | Invalid
    | Space | Apostrophe | Comma | Minus | Period | Slash
    | Digit(digit: Decimal)
    | Semicolon | Equal
    | Letter(letter: Upper)
    | LeftBracket | Backslash | RightBracket | GraveAccent | World1 | World2
    | Escape | Enter | Tab | Backspace | Insert | Delete
    | Right | Left | Down | Up | PageUp | PageDown | Home | End
    | CapsLock | ScrollLock | NumLock | PrintScreen | Pause
    | F(number: FunctionKeyNumber)
    | Keypad(keypadDigit: Decimal)
    | KpDecimal | KpDivide | KpMultiply | KpSubtract | KpAdd | KpEnter | KpEqual
    | LeftShift | LeftControl | LeftAlt | LeftSuper
    | RightShift | RightControl | RightAlt | RightSuper
    | Menu

  /** `sapp_event_type`. */
  datatype EventType =
    | InvalidEvent | KeyDown | KeyUp | Char
    | MouseDown | MouseUp | MouseScroll | MouseMove | MouseEnter | MouseLeave
    | TouchesBegan | TouchesMoved | TouchesEnded | TouchesCancelled
    | Resized | Iconified | Restored | Focused | Unfocused | Suspended | Resumed
    | QuitRequested | ClipboardPasted | FilesDropped

  /** `SAPP_MODIFIER_*` bits of `sapp_event::modifiers`. */
  const ModifierShift: bv32 := 0x1
  const ModifierCtrl: bv32 := 0x2
  const ModifierAlt: bv32 := 0x4
  const ModifierSuper: bv32 := 0x8
  const ModifierLeftMouse: bv32 := 0x100
  const ModifierRightMouse: bv32 := 0x200
  const ModifierMiddleMouse: bv32 := 0x400

  /** Every bit the platform layer can set in `modifiers`. */
  const ModifierMask: bv32 := ModifierShift | ModifierCtrl | ModifierAlt | ModifierSuper
                              | ModifierLeftMouse | ModifierRightMouse | ModifierMiddleMouse

  /** `SAPP_MAX_MOUSEBUTTONS`. */
  const MaxMouseButtons: nat := 3

  /** The fields of `sapp_event` the adapter reads. Pointer positions and
      scroll amounts are kept as reals and are only passed through. */
  datatype Event = Event(
    kind: EventType,
    keyCode: Keycode,
    charCode: nat,
    modifiers: bv32,
    mouseButton: nat,
    mouseX: real,
    mouseY: real,
    scrollX: real,
    scrollY: real)
}
