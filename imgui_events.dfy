/**
 * `DemoImgui::event`: the adapter from platform input events to GUI input
 * events. `Translate` is what one platform event turns into (the GUI
 * events queued, in order, and whether the event is withheld from the
 * browser); the method `GuiAdapter.Event` queues them call by call.
 */
module ImguiEvents {
  import Sapp
  import ImGui
  import opened Revisions
  import opened Wrappers

  /** The build target: `__APPLE__` selects Super as the copy/paste
      modifier, `__EMSCRIPTEN__` the release of every mouse button when the
      pointer enters or leaves the page. */
  datatype Platform = Platform(apple: bool, emscripten: bool)

  /** `CopyPasteModifier`: a GUI modifier pseudo-key. */
  function CopyPasteKey(p: Platform): ImGui.Key {
    if p.apple then ImGui.ModSuper else ImGui.ModCtrl
  }

  /** The integer value of `CopyPasteModifier`. */
  function CopyPasteKeyValue(p: Platform): bv32 {
    if p.apple then ImGui.ModSuperValue else ImGui.ModCtrlValue
  }

  /** `CopyPasteModifierSokol`: the matching platform modifier bit. */
  function CopyPasteModifierSokol(p: Platform): bv32 {
    if p.apple then Sapp.ModifierSuper else Sapp.ModifierCtrl
  }

  // ---------------------------------------------------------------------
  // Key codes

  /** `mapKeyCode`: the GUI key for a platform key code. As written, the
      period key is reported as the apostrophe key. */
  function MapKeyCode(k: Sapp.Keycode, rev: Revision): ImGui.Key {
    match k
    case Space => ImGui.Space
    case Apostrophe => ImGui.Apostrophe
    case Comma => ImGui.Comma
    case Minus => ImGui.Minus
    case Period => if rev == AsWritten then ImGui.Apostrophe else ImGui.Period
    case Slash => ImGui.Slash
    case Digit(d) => ImGui.Digit(d)
    case Semicolon => ImGui.Semicolon
    case Equal => ImGui.Equal
    case Letter(c) => ImGui.Letter(c)
    case LeftBracket => ImGui.LeftBracket
    case Backslash => ImGui.Backslash
    case RightBracket => ImGui.RightBracket
    case GraveAccent => ImGui.GraveAccent
    case Escape => ImGui.Escape
    case Enter => ImGui.Enter
    case Tab => ImGui.Tab
    case Backspace => ImGui.Backspace
    case Insert => ImGui.Insert
    case Delete => ImGui.Delete
    case Right => ImGui.RightArrow
    case Left => ImGui.LeftArrow
    case Down => ImGui.DownArrow
    case Up => ImGui.UpArrow
    case PageUp => ImGui.PageUp
    case PageDown => ImGui.PageDown
    case Home => ImGui.Home
    case End => ImGui.End
    case CapsLock => ImGui.CapsLock
    case ScrollLock => ImGui.ScrollLock
    case NumLock => ImGui.NumLock
    case PrintScreen => ImGui.PrintScreen
    case Pause => ImGui.Pause
    case F(n) => if n <= 12 then ImGui.F(n) else ImGui.None
    case Keypad(d) => ImGui.Keypad(d)
    case KpDecimal => ImGui.KeypadDecimal
    case KpDivide => ImGui.KeypadDivide
    case KpMultiply => ImGui.KeypadMultiply
    case KpSubtract => ImGui.KeypadSubtract
    case KpAdd => ImGui.KeypadAdd
    case KpEnter => ImGui.KeypadEnter
    case KpEqual => ImGui.KeypadEqual
    case LeftShift => ImGui.LeftShift
    case LeftControl => ImGui.LeftCtrl
    case LeftAlt => ImGui.LeftAlt
    case LeftSuper => ImGui.LeftSuper
    case RightShift => ImGui.RightShift
    case RightControl => ImGui.RightCtrl
    case RightAlt => ImGui.RightAlt
    case RightSuper => ImGui.RightSuper
    case Menu => ImGui.Menu
    case _ => ImGui.None
  }

  /** The lookup is total: it answers `ImGuiKey_None` exactly for the
      invalid key, the two "world" keys and F13 to F25. */
  lemma MapKeyCodeTotal(k: Sapp.Keycode, rev: Revision)
    ensures MapKeyCode(k, rev) == ImGui.None <==>
              k == Sapp.Invalid || k == Sapp.World1 || k == Sapp.World2 || (k.F? && k.number > 12)
  {
  }

  /** Digits, letters, keypad digits and F1 to F12 keep their name, and no
      key is reported as a modifier pseudo-key. */
  lemma MapKeyCodeSameName(k: Sapp.Keycode, rev: Revision)
    ensures var r := MapKeyCode(k, rev);
            && !(r.ModCtrl? || r.ModShift? || r.ModAlt? || r.ModSuper?)
            && (k.Digit? ==> r == ImGui.Digit(k.digit))
            && (k.Letter? ==> r == ImGui.Letter(k.letter))
            && (k.Keypad? ==> r == ImGui.Keypad(k.keypadDigit))
            && (k.F? && k.number <= 12 ==> r == ImGui.F(k.number))
  {
  }

  /** The platform key code a GUI key stands for, read back from the
      table the intended `mapKeyCode` implements. */
  function UnmapKey(key: ImGui.Key): Option<Sapp.Keycode> {
    match key
    case Space => Some(Sapp.Space)
    case Apostrophe => Some(Sapp.Apostrophe)
    case Comma => Some(Sapp.Comma)
    case Minus => Some(Sapp.Minus)
    case Period => Some(Sapp.Period)
    case Slash => Some(Sapp.Slash)
    case Digit(d) => Some(Sapp.Digit(d))
    case Semicolon => Some(Sapp.Semicolon)
    case Equal => Some(Sapp.Equal)
    case Letter(c) => Some(Sapp.Letter(c))
    case LeftBracket => Some(Sapp.LeftBracket)
    case Backslash => Some(Sapp.Backslash)
    case RightBracket => Some(Sapp.RightBracket)
    case GraveAccent => Some(Sapp.GraveAccent)
    case Escape => Some(Sapp.Escape)
    case Enter => Some(Sapp.Enter)
    case Tab => Some(Sapp.Tab)
    case Backspace => Some(Sapp.Backspace)
    case Insert => Some(Sapp.Insert)
    case Delete => Some(Sapp.Delete)
    case RightArrow => Some(Sapp.Right)
    case LeftArrow => Some(Sapp.Left)
    case DownArrow => Some(Sapp.Down)
    case UpArrow => Some(Sapp.Up)
    case PageUp => Some(Sapp.PageUp)
    case PageDown => Some(Sapp.PageDown)
    case Home => Some(Sapp.Home)
    case End => Some(Sapp.End)
    case CapsLock => Some(Sapp.CapsLock)
    case ScrollLock => Some(Sapp.ScrollLock)
    case NumLock => Some(Sapp.NumLock)
    case PrintScreen => Some(Sapp.PrintScreen)
    case Pause => Some(Sapp.Pause)
    case F(n) => if n <= 12 then Some(Sapp.F(n)) else Nothing
    case Keypad(d) => Some(Sapp.Keypad(d))
    case KeypadDecimal => Some(Sapp.KpDecimal)
    case KeypadDivide => Some(Sapp.KpDivide)
    case KeypadMultiply => Some(Sapp.KpMultiply)
    case KeypadSubtract => Some(Sapp.KpSubtract)
    case KeypadAdd => Some(Sapp.KpAdd)
    case KeypadEnter => Some(Sapp.KpEnter)
    case KeypadEqual => Some(Sapp.KpEqual)
    case LeftShift => Some(Sapp.LeftShift)
    case LeftCtrl => Some(Sapp.LeftControl)
    case LeftAlt => Some(Sapp.LeftAlt)
    case LeftSuper => Some(Sapp.LeftSuper)
    case RightShift => Some(Sapp.RightShift)
    case RightCtrl => Some(Sapp.RightControl)
    case RightAlt => Some(Sapp.RightAlt)
    case RightSuper => Some(Sapp.RightSuper)
    case Menu => Some(Sapp.Menu)
    case _ => Nothing
  }

  /** As written, two different keys are reported as the same GUI key. */
  lemma PeriodReportedAsApostrophe()
    ensures MapKeyCode(Sapp.Period, AsWritten) == MapKeyCode(Sapp.Apostrophe, AsWritten) == ImGui.Apostrophe
  {
  }

  /** The round trip for the printable keys. */
  lemma RoundTripPrintable(k: Sapp.Keycode)
    requires k.Space? || k.Apostrophe? || k.Comma? || k.Minus? || k.Period? || k.Slash? || k.Digit? ||
             k.Semicolon? || k.Equal? || k.Letter? || k.LeftBracket? || k.Backslash? || k.RightBracket? ||
             k.GraveAccent?
    ensures UnmapKey(MapKeyCode(k, Corrected)) == Some(k)
  {
  }

  /** The round trip for the editing, navigation and lock keys. */
  lemma RoundTripNavigation(k: Sapp.Keycode)
    requires k.Escape? || k.Enter? || k.Tab? || k.Backspace? || k.Insert? || k.Delete? || k.Right? || k.Left? ||
             k.Down? || k.Up? || k.PageUp? || k.PageDown? || k.Home? || k.End? || k.CapsLock? ||
             k.ScrollLock? || k.NumLock? || k.PrintScreen? || k.Pause?
    ensures UnmapKey(MapKeyCode(k, Corrected)) == Some(k)
  {
  }

  /** The round trip for F1 to F12 and the keypad keys. */
  lemma RoundTripKeypad(k: Sapp.Keycode)
    requires (k.F? && k.number <= 12) || k.Keypad? || k.KpDecimal? || k.KpDivide? || k.KpMultiply? ||
             k.KpSubtract? || k.KpAdd? || k.KpEnter? || k.KpEqual?
    ensures UnmapKey(MapKeyCode(k, Corrected)) == Some(k)
  {
  }

  /** The round trip for the left-hand modifier keys. */
  lemma RoundTripLeftModifier(k: Sapp.Keycode)
    requires k.LeftShift? || k.LeftControl? || k.LeftAlt? || k.LeftSuper?
    ensures UnmapKey(MapKeyCode(k, Corrected)) == Some(k)
  {
  }

  /** The round trip for the right-hand modifier keys and the menu key. */
  lemma RoundTripRightModifier(k: Sapp.Keycode)
    requires k.RightShift? || k.RightControl? || k.RightAlt? || k.RightSuper? || k.Menu?
    ensures UnmapKey(MapKeyCode(k, Corrected)) == Some(k)
  {
  }

  /** Corrected, every key the table maps can be read back from its GUI
      key. */
  lemma MapKeyCodeRoundTrip(k: Sapp.Keycode)
    requires MapKeyCode(k, Corrected) != ImGui.None
    ensures UnmapKey(MapKeyCode(k, Corrected)) == Some(k)
  {
    if k.Space? || k.Apostrophe? || k.Comma? || k.Minus? || k.Period? || k.Slash? || k.Digit? ||
        k.Semicolon? || k.Equal? || k.Letter? || k.LeftBracket? || k.Backslash? || k.RightBracket? ||
        k.GraveAccent? {
      RoundTripPrintable(k);
    } else if k.Escape? || k.Enter? || k.Tab? || k.Backspace? || k.Insert? || k.Delete? || k.Right? || k.Left? ||
        k.Down? || k.Up? || k.PageUp? || k.PageDown? || k.Home? || k.End? || k.CapsLock? ||
        k.ScrollLock? || k.NumLock? || k.PrintScreen? || k.Pause? {
      RoundTripNavigation(k);
    } else if (k.F? && k.number <= 12) || k.Keypad? || k.KpDecimal? || k.KpDivide? || k.KpMultiply? ||
        k.KpSubtract? || k.KpAdd? || k.KpEnter? || k.KpEqual? {
      RoundTripKeypad(k);
    } else if k.LeftShift? || k.LeftControl? || k.LeftAlt? || k.LeftSuper? {
      RoundTripLeftModifier(k);
    } else {
      MapKeyCodeTotal(k, Corrected);
      RoundTripRightModifier(k);
    }
  }

  /** Corrected, no two keys share a GUI key. */
  lemma MapKeyCodeInjective(a: Sapp.Keycode, b: Sapp.Keycode)
    requires MapKeyCode(a, Corrected) == MapKeyCode(b, Corrected) != ImGui.None
    ensures a == b
  {
    MapKeyCodeRoundTrip(a);
    MapKeyCodeRoundTrip(b);
  }

  // ---------------------------------------------------------------------
  // Modifiers

  /** The modifier bits `updateModifiers` reports. */
  const KeyboardModifiers: bv32 := Sapp.ModifierCtrl | Sapp.ModifierShift | Sapp.ModifierAlt | Sapp.ModifierSuper

  /** `updateModifiers`: one key event per modifier pseudo-key, in the
      order Ctrl, Shift, Alt, Super, pressed when its bit is set. */
  function ModifierEvents(mods: bv32): (r: seq<ImGui.GuiEvent>)
    ensures |r| == 4
    ensures forall e <- r :: e.KeyEvent? && (e.key.ModCtrl? || e.key.ModShift? || e.key.ModAlt? || e.key.ModSuper?)
  {
    [ ImGui.KeyEvent(ImGui.ModCtrl, mods & Sapp.ModifierCtrl != 0),
      ImGui.KeyEvent(ImGui.ModShift, mods & Sapp.ModifierShift != 0),
      ImGui.KeyEvent(ImGui.ModAlt, mods & Sapp.ModifierAlt != 0),
      ImGui.KeyEvent(ImGui.ModSuper, mods & Sapp.ModifierSuper != 0) ]
  }

  /** The platform bit a modifier pseudo-key stands for (0 for other keys). */
  function ModifierBit(key: ImGui.Key): bv32 {
    match key
    case ModCtrl => Sapp.ModifierCtrl
    case ModShift => Sapp.ModifierShift
    case ModAlt => Sapp.ModifierAlt
    case ModSuper => Sapp.ModifierSuper
    case _ => 0
  }

  /** One of the four modifier pseudo-keys. */
  predicate IsModifierKey(key: ImGui.Key) {
    key.ModCtrl? || key.ModShift? || key.ModAlt? || key.ModSuper?
  }

  /** The keys the GUI holds down after one event. */
  function ApplyKey(held: set<ImGui.Key>, e: ImGui.GuiEvent): set<ImGui.Key> {
    if !e.KeyEvent? then held
    else if e.down then held + {e.key}
    else held - {e.key}
  }

  /** The keys the GUI holds down after reading `events` in order. */
  function HeldKeys(held: set<ImGui.Key>, events: seq<ImGui.GuiEvent>): set<ImGui.Key>
    decreases |events|
  {
    if events == [] then held else HeldKeys(ApplyKey(held, events[0]), events[1..])
  }

  /** A key event decides whether its own key is held afterwards, and
      leaves every other key as it was. */
  lemma ApplyKeyEffect(held: set<ImGui.Key>, e: ImGui.GuiEvent, key: ImGui.Key)
    requires e.KeyEvent?
    ensures key in ApplyKey(held, e) <==> if key == e.key then e.down else key in held
  {
  }

  /** Reading the four modifier events applies them one after the other. */
  lemma HeldAfterModifierEvents(held: set<ImGui.Key>, mods: bv32)
    ensures var es := ModifierEvents(mods);
            HeldKeys(held, es) == ApplyKey(ApplyKey(ApplyKey(ApplyKey(held, es[0]), es[1]), es[2]), es[3])
  {
    var es := ModifierEvents(mods);
    var h1 := ApplyKey(held, es[0]);
    var h2 := ApplyKey(h1, es[1]);
    var h3 := ApplyKey(h2, es[2]);
    var h4 := ApplyKey(h3, es[3]);
    assert HeldKeys(h4, es[1..][1..][1..][1..]) == h4;
    assert HeldKeys(h3, es[1..][1..][1..]) == h4;
    assert HeldKeys(h2, es[1..][1..]) == h4;
    assert HeldKeys(h1, es[1..]) == h4;
  }

  /** Whatever the GUI believed before, after `updateModifiers` it holds
      each modifier pseudo-key exactly when the platform event has the
      matching modifier bit set. */
  lemma ModifierEventsSynchronise(held: set<ImGui.Key>, mods: bv32)
    ensures var h := HeldKeys(held, ModifierEvents(mods));
            && (ImGui.ModCtrl in h <==> mods & Sapp.ModifierCtrl != 0)
            && (ImGui.ModShift in h <==> mods & Sapp.ModifierShift != 0)
            && (ImGui.ModAlt in h <==> mods & Sapp.ModifierAlt != 0)
            && (ImGui.ModSuper in h <==> mods & Sapp.ModifierSuper != 0)
  {
    HeldAfterModifierEvents(held, mods);
    SynchroniseKey(held, mods, ImGui.ModCtrl);
    SynchroniseKey(held, mods, ImGui.ModShift);
    SynchroniseKey(held, mods, ImGui.ModAlt);
    SynchroniseKey(held, mods, ImGui.ModSuper);
  }

  /** After the four modifier events a key is held as its own event says;
      any other key as it was before. */
  lemma SynchroniseKey(held: set<ImGui.Key>, mods: bv32, key: ImGui.Key)
    ensures var es := ModifierEvents(mods);
            var h4 := ApplyKey(ApplyKey(ApplyKey(ApplyKey(held, es[0]), es[1]), es[2]), es[3]);
            key in h4 <==> if key == ImGui.ModSuper then es[3].down
                           else if key == ImGui.ModAlt then es[2].down
                           else if key == ImGui.ModShift then es[1].down
                           else if key == ImGui.ModCtrl then es[0].down
                           else key in held
  {
    var es := ModifierEvents(mods);
    var h1 := ApplyKey(held, es[0]);
    var h2 := ApplyKey(h1, es[1]);
    var h3 := ApplyKey(h2, es[2]);
    ApplyKeyEffect(held, es[0], key);
    ApplyKeyEffect(h1, es[1], key);
    ApplyKeyEffect(h2, es[2], key);
    ApplyKeyEffect(h3, es[3], key);
  }

  // ---------------------------------------------------------------------
  // Event translation

  /** The adapter's answer to one platform event: the GUI events it
      queues, in order, and whether it withholds the event from the browser
      (`sapp_consume_event`). */
  datatype Translation = Translation(events: seq<ImGui.GuiEvent>, consumed: bool)

  /** The character filter of the CHAR case. */
  predicate CharPasses(ev: Sapp.Event) {
    ev.charCode >= 32 && ev.charCode != 127
    && ev.modifiers & (Sapp.ModifierAlt | Sapp.ModifierCtrl | Sapp.ModifierSuper) == 0
  }

  /** Copy or cut: X or C with the copy/paste modifier held. */
  predicate IsCopyOrCut(ev: Sapp.Event, p: Platform) {
    ev.modifiers & CopyPasteModifierSokol(p) != 0
    && (ev.keyCode == Sapp.Letter('X') || ev.keyCode == Sapp.Letter('C'))
  }

  /** The paste intercept of the KEY_UP case. As written the modifier word
      is tested against the GUI pseudo-key's value; intended is the
      platform's copy/paste bit. */
  predicate PasteIntercepted(ev: Sapp.Event, p: Platform, rev: Revision) {
    var mask := if rev == AsWritten then CopyPasteKeyValue(p) else CopyPasteModifierSokol(p);
    ev.modifiers & mask != 0 && ev.keyCode == Sapp.Letter('V')
  }

  /** The simulated paste of the CLIPBOARD_PASTED case. */
  function PasteSequence(p: Platform): seq<ImGui.GuiEvent> {
    [ ImGui.KeyEvent(CopyPasteKey(p), true), ImGui.KeyEvent(ImGui.Letter('V'), true),
      ImGui.KeyEvent(ImGui.Letter('V'), false), ImGui.KeyEvent(CopyPasteKey(p), false) ]
  }

  /** Releases of mouse buttons 0 .. n-1, in that order. */
  function ButtonReleases(n: nat): (r: seq<ImGui.GuiEvent>)
    ensures |r| == n
    ensures forall i :: 0 <= i < n ==> r[i] == ImGui.MouseButtonEvent(i, false)
  {
    if n == 0 then [] else ButtonReleases(n - 1) + [ImGui.MouseButtonEvent(n - 1, false)]
  }

  /** The pointer position in GUI coordinates (the platform's divided by
      the display scale). */
  function Pointer(ev: Sapp.Event, dpi: real): seq<ImGui.GuiEvent> {
    [ImGui.MouseSourceEvent(ImGui.Mouse), ImGui.MousePosEvent(ev.mouseX, ev.mouseY, dpi)]
  }

  /** `DemoImgui::event`, case by case. */
  function Translate(ev: Sapp.Event, p: Platform, dpi: real, rev: Revision): Translation {
    var mods := ModifierEvents(ev.modifiers);
    match ev.kind
    case Focused => Translation([ImGui.FocusEvent(true)], false)
    case Unfocused => Translation([ImGui.FocusEvent(false)], false)
    case MouseDown => Translation(mods + Pointer(ev, dpi) + [ImGui.MouseButtonEvent(ev.mouseButton, true)], false)
    case MouseUp => Translation(mods + Pointer(ev, dpi) + [ImGui.MouseButtonEvent(ev.mouseButton, false)], false)
    case MouseMove => Translation(Pointer(ev, dpi), false)
    case MouseEnter =>
      Translation([ImGui.MouseSourceEvent(ImGui.Mouse)] + (if p.emscripten then ButtonReleases(Sapp.MaxMouseButtons) else []), false)
    case MouseLeave =>
      Translation([ImGui.MouseSourceEvent(ImGui.Mouse)] + (if p.emscripten then ButtonReleases(Sapp.MaxMouseButtons) else []), false)
    case MouseScroll => Translation([ImGui.MouseSourceEvent(ImGui.Mouse), ImGui.MouseWheelEvent(ev.scrollX, ev.scrollY)], false)
    case KeyDown => Translation(mods + [ImGui.KeyEvent(MapKeyCode(ev.keyCode, rev), true)], IsCopyOrCut(ev, p))
    case KeyUp =>
      if PasteIntercepted(ev, p, rev) then Translation(mods, false)
      else Translation(mods + [ImGui.KeyEvent(MapKeyCode(ev.keyCode, rev), false)], IsCopyOrCut(ev, p))
    case Char => Translation(mods + (if CharPasses(ev) then [ImGui.InputCharacter(ev.charCode)] else []), false)
    case ClipboardPasted => Translation(PasteSequence(p), false)
    case _ => Translation([], false)
  }

  // ---------------------------------------------------------------------
  // What the translation promises

  /** The combined mask of the CHAR filter is the three modifier bits
      tested one by one. */
  lemma CharMaskBits(m: bv32)
    ensures m & (Sapp.ModifierAlt | Sapp.ModifierCtrl | Sapp.ModifierSuper) == 0 <==>
              m & Sapp.ModifierAlt == 0 && m & Sapp.ModifierCtrl == 0 && m & Sapp.ModifierSuper == 0
  {
  }

  /** Only a CHAR event can put a character on the queue. */
  lemma NoCharacterOutsideChar(ev: Sapp.Event, p: Platform, dpi: real, rev: Revision, c: nat)
    requires ev.kind != Sapp.Char
    ensures ImGui.InputCharacter(c) !in Translate(ev, p, dpi, rev).events
  {
    var mods := ModifierEvents(ev.modifiers);
    assert ImGui.InputCharacter(c) !in mods;
    if ev.kind == Sapp.ClipboardPasted {
      assert ImGui.InputCharacter(c) !in PasteSequence(p);
    } else if ev.kind == Sapp.MouseEnter || ev.kind == Sapp.MouseLeave {
      assert ImGui.InputCharacter(c) !in ButtonReleases(Sapp.MaxMouseButtons);
    }
  }

  /** A CHAR event queues its own code exactly when the filter lets it
      through. */
  lemma CharEventCharacter(ev: Sapp.Event, p: Platform, dpi: real, rev: Revision, c: nat)
    requires ev.kind == Sapp.Char
    ensures ImGui.InputCharacter(c) in Translate(ev, p, dpi, rev).events <==> CharPasses(ev) && c == ev.charCode
  {
    var mods := ModifierEvents(ev.modifiers);
    assert ImGui.InputCharacter(c) !in mods;
    if CharPasses(ev) {
      assert Translate(ev, p, dpi, rev).events == mods + [ImGui.InputCharacter(ev.charCode)];
    } else {
      assert Translate(ev, p, dpi, rev).events == mods + [];
    }
  }

  /** A character reaches the GUI exactly when it is a CHAR event's own
      code, printable (not below 32, not DEL) and typed with none of Alt,
      Ctrl and Super held. */
  lemma CharForwarding(ev: Sapp.Event, p: Platform, dpi: real, rev: Revision, c: nat)
    ensures ImGui.InputCharacter(c) in Translate(ev, p, dpi, rev).events <==>
              && ev.kind == Sapp.Char && c == ev.charCode && c >= 32 && c != 127
              && ev.modifiers & Sapp.ModifierAlt == 0
              && ev.modifiers & Sapp.ModifierCtrl == 0
              && ev.modifiers & Sapp.ModifierSuper == 0
  {
    CharMaskBits(ev.modifiers);
    if ev.kind == Sapp.Char {
      CharEventCharacter(ev, p, dpi, rev, c);
    } else {
      NoCharacterOutsideChar(ev, p, dpi, rev, c);
    }
  }

  /** A pasted clipboard reaches the GUI as the copy/paste modifier held
      around one press and release of V, leaving no key held. */
  lemma PasteIsModifierV(p: Platform, ev: Sapp.Event, dpi: real, rev: Revision)
    requires ev.kind == Sapp.ClipboardPasted
    ensures var es := Translate(ev, p, dpi, rev).events;
            && es == [ ImGui.KeyEvent(CopyPasteKey(p), true), ImGui.KeyEvent(ImGui.Letter('V'), true),
                       ImGui.KeyEvent(ImGui.Letter('V'), false), ImGui.KeyEvent(CopyPasteKey(p), false) ]
            && HeldKeys({}, es) == {}
            && ModifierBit(CopyPasteKey(p)) == CopyPasteModifierSokol(p)
  {
    var es := PasteSequence(p);
    assert Translate(ev, p, dpi, rev).events == es;
    var m, v := CopyPasteKey(p), ImGui.Letter('V');
    assert HeldKeys({}, es[1..][1..][1..][1..]) == {};
    assert HeldKeys({m}, es[1..][1..][1..]) == {};
    assert ApplyKey({m, v}, es[2]) == {m};
    assert HeldKeys({m, v}, es[1..][1..]) == {};
    assert HeldKeys({m}, es[1..]) == {};
  }

  /** Corrected, releasing V with the copy/paste modifier held reaches the
      GUI as the modifier updates alone: no key event for V, and the event
      is not withheld. */
  lemma PasteKeyReleaseIntercepted(ev: Sapp.Event, p: Platform, dpi: real)
    requires ev.kind == Sapp.KeyUp && ev.keyCode == Sapp.Letter('V')
    requires ev.modifiers & CopyPasteModifierSokol(p) != 0
    ensures Translate(ev, p, dpi, Corrected) == Translation(ModifierEvents(ev.modifiers), false)
    ensures forall down: bool :: ImGui.KeyEvent(ImGui.Letter('V'), down) !in Translate(ev, p, dpi, Corrected).events
  {
    var es := ModifierEvents(ev.modifiers);
    forall down: bool ensures ImGui.KeyEvent(ImGui.Letter('V'), down) !in es {
    }
  }

  /** As written, the intercept never fires for a modifier word the
      platform can produce: the pseudo-key values lie outside every
      platform modifier bit, so the release of V is queued after a
      paste. */
  lemma PasteInterceptNeverFires(ev: Sapp.Event, p: Platform, dpi: real)
    requires ev.kind == Sapp.KeyUp && ev.keyCode == Sapp.Letter('V')
    requires ev.modifiers & !Sapp.ModifierMask == 0
    ensures !PasteIntercepted(ev, p, AsWritten)
    ensures ImGui.KeyEvent(ImGui.Letter('V'), false) in Translate(ev, p, dpi, AsWritten).events
  {
    assert ev.modifiers & CopyPasteKeyValue(p) == 0;
    var t := Translate(ev, p, dpi, AsWritten);
    assert t.events[4] == ImGui.KeyEvent(ImGui.Letter('V'), false);
  }

  /** Only copy and cut are withheld from the browser: a key press or
      release of X or C with the copy/paste modifier held, and every such
      key press. */
  lemma ConsumedOnlyCopyOrCut(ev: Sapp.Event, p: Platform, dpi: real, rev: Revision)
    ensures Translate(ev, p, dpi, rev).consumed ==>
              (ev.kind == Sapp.KeyDown || ev.kind == Sapp.KeyUp) && IsCopyOrCut(ev, p)
    ensures ev.kind == Sapp.KeyDown && IsCopyOrCut(ev, p) ==> Translate(ev, p, dpi, rev).consumed
  {
    var t := Translate(ev, p, dpi, rev);
    if ev.kind == Sapp.KeyDown {
      assert t.consumed == IsCopyOrCut(ev, p);
    } else if ev.kind == Sapp.KeyUp {
      assert t.consumed ==> IsCopyOrCut(ev, p);
    } else {
      assert !t.consumed;
    }
  }

  /** A key event for a real key comes only from a key press, a key
      release or a paste; every other event reports at most the modifier
      pseudo-keys. */
  lemma KeyEventsFromKeysOnly(ev: Sapp.Event, p: Platform, dpi: real, rev: Revision)
    ensures forall e <- Translate(ev, p, dpi, rev).events ::
              e.KeyEvent? && !IsModifierKey(e.key) ==>
                ev.kind in {Sapp.KeyDown, Sapp.KeyUp, Sapp.ClipboardPasted}
  {
    if ev.kind !in {Sapp.KeyDown, Sapp.KeyUp, Sapp.ClipboardPasted} {
      var es := Translate(ev, p, dpi, rev).events;
      var mods := ModifierEvents(ev.modifiers);
      assert forall e <- mods :: IsModifierKey(e.key);
      assert forall e <- Pointer(ev, dpi) :: !e.KeyEvent?;
      assert forall e <- ButtonReleases(Sapp.MaxMouseButtons) :: !e.KeyEvent?;
      assert forall e <- es :: e in mods || !e.KeyEvent?;
    }
  }

  /** On the web, the pointer entering or leaving the page releases every
      mouse button; natively it releases none. */
  lemma PointerCrossingReleasesButtons(ev: Sapp.Event, p: Platform, dpi: real, rev: Revision)
    requires ev.kind == Sapp.MouseEnter || ev.kind == Sapp.MouseLeave
    ensures forall b: nat :: ImGui.MouseButtonEvent(b, false) in Translate(ev, p, dpi, rev).events
              <==> p.emscripten && b < Sapp.MaxMouseButtons
  {
    var bs := ButtonReleases(Sapp.MaxMouseButtons);
    forall b: nat
      ensures ImGui.MouseButtonEvent(b, false) in Translate(ev, p, dpi, rev).events
              <==> p.emscripten && b < Sapp.MaxMouseButtons
    {
      if p.emscripten && b < Sapp.MaxMouseButtons {
        assert Translate(ev, p, dpi, rev).events[b + 1] == ImGui.MouseButtonEvent(b, false);
      }
    }
  }

  // ---------------------------------------------------------------------
  // The adapter as written, call by call

  class GuiAdapter {
    const platform: Platform

    constructor (p: Platform)
      ensures platform == p
    {
      platform := p;
    }

    /** `updateModifiers`. */
    method UpdateModifiers(io: ImGui.IO, mods: bv32)
      modifies io
      ensures io.queue == old(io.queue) + ModifierEvents(mods)
    {
      io.AddKeyEvent(ImGui.ModCtrl, mods & Sapp.ModifierCtrl != 0);
      io.AddKeyEvent(ImGui.ModShift, mods & Sapp.ModifierShift != 0);
      io.AddKeyEvent(ImGui.ModAlt, mods & Sapp.ModifierAlt != 0);
      io.AddKeyEvent(ImGui.ModSuper, mods & Sapp.ModifierSuper != 0);
    }

    /** `DemoImgui::event`: queue the GUI events for `ev` on `io`; returns
        whether `sapp_consume_event` was called. `dpi` is
        `sapp_dpi_scale()`. */
    method Event(io: ImGui.IO, ev: Sapp.Event, dpi: real) returns (consumed: bool)
      modifies io
      ensures io.queue == old(io.queue) + Translate(ev, platform, dpi, AsWritten).events
      ensures consumed == Translate(ev, platform, dpi, AsWritten).consumed
    {
      consumed := false;
      match ev.kind {
        case Focused =>
          io.AddFocusEvent(true);
        case Unfocused =>
          io.AddFocusEvent(false);
        case MouseDown =>
          MouseButton(io, ev, dpi, true);
        case MouseUp =>
          MouseButton(io, ev, dpi, false);
        case MouseMove =>
          MouseMove(io, ev, dpi);
        case MouseEnter =>
          ReleaseButtons(io);
        case MouseLeave =>
          ReleaseButtons(io);
        case MouseScroll =>
          MouseScroll(io, ev);
        case KeyDown =>
          consumed := KeyDown(io, ev);
        case KeyUp =>
          consumed := KeyUp(io, ev);
        case Char =>
          CharInput(io, ev);
        case ClipboardPasted =>
          ClipboardPasted(io);
        case _ =>
      }
    }

    /** The MOUSE_MOVE case. */
    method MouseMove(io: ImGui.IO, ev: Sapp.Event, dpi: real)
      modifies io
      ensures io.queue == old(io.queue) + Pointer(ev, dpi)
    {
      io.AddMouseSourceEvent(ImGui.Mouse);
      io.AddMousePosEvent(ev.mouseX, ev.mouseY, dpi);
    }

    /** The MOUSE_SCROLL case. */
    method MouseScroll(io: ImGui.IO, ev: Sapp.Event)
      modifies io
      ensures io.queue == old(io.queue) + [ImGui.MouseSourceEvent(ImGui.Mouse), ImGui.MouseWheelEvent(ev.scrollX, ev.scrollY)]
    {
      io.AddMouseSourceEvent(ImGui.Mouse);
      io.AddMouseWheelEvent(ev.scrollX, ev.scrollY);
    }

    /** The CLIPBOARD_PASTED case: replay the paste shortcut. */
    method ClipboardPasted(io: ImGui.IO)
      modifies io
      ensures io.queue == old(io.queue) + PasteSequence(platform)
    {
      io.AddKeyEvent(CopyPasteKey(platform), true);
      io.AddKeyEvent(ImGui.Letter('V'), true);
      io.AddKeyEvent(ImGui.Letter('V'), false);
      io.AddKeyEvent(CopyPasteKey(platform), false);
    }

    /** The MOUSE_DOWN and MOUSE_UP cases. */
    method MouseButton(io: ImGui.IO, ev: Sapp.Event, dpi: real, pressed: bool)
      modifies io
      ensures io.queue == old(io.queue) + ModifierEvents(ev.modifiers) + Pointer(ev, dpi)
                          + [ImGui.MouseButtonEvent(ev.mouseButton, pressed)]
    {
      UpdateModifiers(io, ev.modifiers);
      io.AddMouseSourceEvent(ImGui.Mouse);
      io.AddMousePosEvent(ev.mouseX, ev.mouseY, dpi);
      io.AddMouseButtonEvent(ev.mouseButton, pressed);
    }

    /** The KEY_DOWN case. */
    method KeyDown(io: ImGui.IO, ev: Sapp.Event) returns (consumed: bool)
      modifies io
      ensures io.queue == old(io.queue) + ModifierEvents(ev.modifiers)
                          + [ImGui.KeyEvent(MapKeyCode(ev.keyCode, AsWritten), true)]
      ensures consumed == IsCopyOrCut(ev, platform)
    {
      UpdateModifiers(io, ev.modifiers);
      consumed := false;
      if ev.modifiers & CopyPasteModifierSokol(platform) != 0
         && (ev.keyCode == Sapp.Letter('X') || ev.keyCode == Sapp.Letter('C')) {
        consumed := true;
      }
      io.AddKeyEvent(MapKeyCode(ev.keyCode, AsWritten), true);
    }

    /** The KEY_UP case, with the paste intercept as written. */
    method KeyUp(io: ImGui.IO, ev: Sapp.Event) returns (consumed: bool)
      modifies io
      ensures io.queue == old(io.queue) + ModifierEvents(ev.modifiers)
                          + (if PasteIntercepted(ev, platform, AsWritten) then []
                             else [ImGui.KeyEvent(MapKeyCode(ev.keyCode, AsWritten), false)])
      ensures consumed == (!PasteIntercepted(ev, platform, AsWritten) && IsCopyOrCut(ev, platform))
    {
      UpdateModifiers(io, ev.modifiers);
      consumed := false;
      if ev.modifiers & CopyPasteKeyValue(platform) != 0 && ev.keyCode == Sapp.Letter('V') {
        return;
      }
      if ev.modifiers & CopyPasteModifierSokol(platform) != 0
         && (ev.keyCode == Sapp.Letter('X') || ev.keyCode == Sapp.Letter('C')) {
        consumed := true;
      }
      io.AddKeyEvent(MapKeyCode(ev.keyCode, AsWritten), false);
    }

    /** The CHAR case. */
    method CharInput(io: ImGui.IO, ev: Sapp.Event)
      modifies io
      ensures io.queue == old(io.queue) + ModifierEvents(ev.modifiers)
                          + (if CharPasses(ev) then [ImGui.InputCharacter(ev.charCode)] else [])
    {
      UpdateModifiers(io, ev.modifiers);
      if ev.charCode >= 32 && ev.charCode != 127
         && ev.modifiers & (Sapp.ModifierAlt | Sapp.ModifierCtrl | Sapp.ModifierSuper) == 0 {
        io.AddInputCharacter(ev.charCode);
      }
    }

    /** The MOUSE_ENTER / MOUSE_LEAVE case: report the mouse as the source
        and, on the web, release buttons 0 .. `SAPP_MAX_MOUSEBUTTONS`-1. */
    method ReleaseButtons(io: ImGui.IO)
      modifies io
      ensures io.queue == old(io.queue) + [ImGui.MouseSourceEvent(ImGui.Mouse)]
                          + (if platform.emscripten then ButtonReleases(Sapp.MaxMouseButtons) else [])
    {
      io.AddMouseSourceEvent(ImGui.Mouse);
      if platform.emscripten {
        var i := 0;
        while i < Sapp.MaxMouseButtons
          invariant 0 <= i <= Sapp.MaxMouseButtons
          invariant io.queue == old(io.queue) + [ImGui.MouseSourceEvent(ImGui.Mouse)] + ButtonReleases(i)
        {
          io.AddMouseButtonEvent(i, false);
          i := i + 1;
        }
      }
    }
  }
}
