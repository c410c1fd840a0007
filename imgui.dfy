/**
 * The vocabulary of Dear ImGui that the adapter writes: named keys, the
 * modifier pseudo-keys and the input events queued on `ImGuiIO`.
 */
module ImGui {

  import opened KeyLabels

  /** `ImGuiKey_F1` .. `ImGuiKey_F24`. */
  type FunctionKeyNumber = n: int | 1 <= n <= 24 witness 1

  /** `ImGuiKey`: the keyboard keys, followed by the modifier pseudo-keys
      `ImGuiMod_Ctrl`, `ImGuiMod_Shift`, `ImGuiMod_Alt`, `ImGuiMod_Super`.
      Gamepad and mouse keys are not listed: the adapter never produces
      them. */
  datatype Key =
    | None
    | Tab | LeftArrow | RightArrow | UpArrow | DownArrow | PageUp | PageDown | Home | End
    | Insert | Delete | Backspace | Space | Enter | Escape
    | LeftCtrl | LeftShift | LeftAlt | LeftSuper | RightCtrl | RightShift | RightAlt | RightSuper
    | Menu
    | Digit(digit: Decimal)
    | Letter(letter: Upper)
    | F(number: FunctionKeyNumber)
    | Apostrophe | Comma | Minus | Period | Slash | Semicolon | Equal
    | LeftBracket | Backslash | RightBracket | GraveAccent
    | CapsLock | ScrollLock | NumLock | PrintScreen | Pause
    | Keypad(keypadDigit: Decimal)
    | KeypadDecimal | KeypadDivide | KeypadMultiply | KeypadSubtract | KeypadAdd
    | KeypadEnter | KeypadEqual
    | ModCtrl | ModShift | ModAlt | ModSuper

  /** The integer values of the modifier pseudo-keys (`ImGuiMod_Ctrl` is
      `1 << 12`, up to `ImGuiMod_Super`, `1 << 15`). */
  const ModCtrlValue: bv32 := 0x1000
  const ModShiftValue: bv32 := 0x2000
  const ModAltValue: bv32 := 0x4000
  const ModSuperValue: bv32 := 0x8000

  datatype MouseSource = Mouse | TouchScreen | Pen

  /** One call on `ImGuiIO` that queues an input event. A pointer position
      is kept as the platform's coordinates together with the scale they
      are divided by. */
  datatype GuiEvent =
    | KeyEvent(key: Key, down: bool)
    | FocusEvent(focused: bool)
    | MouseSourceEvent(source: MouseSource)
    | MousePosEvent(x: real, y: real, scale: real)
    | MouseButtonEvent(button: nat, pressed: bool)
    | MouseWheelEvent(wheelX: real, wheelY: real)
    | InputCharacter(code: nat)

  /** `ImGuiIO`: the input queue the adapter appends to. */
  class IO {
    var queue: seq<GuiEvent>

    constructor ()
      ensures queue == []
    {
      queue := [];
    }

    method AddKeyEvent(key: Key, down: bool)
      modifies this
      ensures queue == old(queue) + [KeyEvent(key, down)]
    {
      queue := queue + [KeyEvent(key, down)];
    }

    method AddFocusEvent(focused: bool)
      modifies this
      ensures queue == old(queue) + [FocusEvent(focused)]
    {
      queue := queue + [FocusEvent(focused)];
    }

    method AddMouseSourceEvent(source: MouseSource)
      modifies this
      ensures queue == old(queue) + [MouseSourceEvent(source)]
    {
      queue := queue + [MouseSourceEvent(source)];
    }

    method AddMousePosEvent(x: real, y: real, scale: real)
      modifies this
      ensures queue == old(queue) + [MousePosEvent(x, y, scale)]
    {
      queue := queue + [MousePosEvent(x, y, scale)];
    }

    method AddMouseButtonEvent(button: nat, pressed: bool)
      modifies this
      ensures queue == old(queue) + [MouseButtonEvent(button, pressed)]
    {
      queue := queue + [MouseButtonEvent(button, pressed)];
    }

    method AddMouseWheelEvent(wheelX: real, wheelY: real)
      modifies this
      ensures queue == old(queue) + [MouseWheelEvent(wheelX, wheelY)]
    {
      queue := queue + [MouseWheelEvent(wheelX, wheelY)];
    }

    method AddInputCharacter(code: nat)
      modifies this
      ensures queue == old(queue) + [InputCharacter(code)]
    {
      queue := queue + [InputCharacter(code)];
    }
  }
}
