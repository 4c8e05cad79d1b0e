/** Keycodes and layer numbers of the arinl userspace for the GMMK Pro.

    A QMK keycode is a 16-bit number; here it is a datatype whose cases are
    the kinds of keycode the keymap tables and the key dispatcher distinguish.
 */
module Keycodes {

  /** Layer numbers, in the order of enum custom_user_layers. */
  const BASE: nat := 0
  const FN1: nat := 1
  const FN2: nat := 2
  const FN3: nat := 3
  const FN4: nat := 4

  /** The QMK keycodes the keymap tables and the macros use (KC_*, QK_*, RGB_*). */
  datatype QmkKey =
    // function row
    | Escape | F1 | F2 | F3 | F4 | F5 | F6 | F7 | F8 | F9 | F10 | F11 | F12 | Delete | Mute
    // number row
    | Grave | Digit1 | Digit2 | Digit3 | Digit4 | Digit5 | Digit6 | Digit7 | Digit8 | Digit9 | Digit0
    | Minus | Equal | Backspace | Home
    // letter rows
    | Tab | Q | W | E | R | T | Y | U | I | O | P | LeftBracket | RightBracket | Backslash | PageUp
    | CapsLock | A | S | D | F | G | H | J | K | L | Semicolon | Quote | Enter | PageDown
    | LeftShift | Z | X | C | V | B | N | M | Comma | Dot | Slash | RightShift | ArrowUp | End
    | LeftCtrl | LeftGui | LeftAlt | Space | RightAlt | RightCtrl | ArrowLeft | ArrowDown | ArrowRight
    // media, system and lighting keys of _FN1
    | EepromClear | MediaPrev | MediaPlay | MediaNext | Pause | ScrollLock | PrintScreen | Insert
    | SystemSleep | Bootloader | RgbToggle | NumLock | RgbModeNext | RgbModePrev | RgbSpeedDown | RgbSpeedUp
    // keypad keys of _FN2
    | Keypad0 | Keypad1 | Keypad2 | Keypad3 | Keypad4 | Keypad5 | Keypad6 | Keypad7 | Keypad8 | Keypad9
    | KeypadMinus | KeypadPlus

  /** The user keycodes of enum custom_user_keycodes, numbered from SAFE_RANGE on. */
  datatype UserKey =
    | EncoderFunction // ENCFUNC
    | WinLock         // KC_WINLCK: toggles the Win key on and off
    | TimeoutUp       // RGB_TOI: idle timeout one minute longer
    | TimeoutDown     // RGB_TOD: idle timeout one minute shorter
    | NightMode       // RGB_NITE: all RGB off except the indicators
    | Macro1          // KC_MCRO1
    | Macro2          // KC_MCRO2
    | Macro3          // KC_MCRO3
    | Macro4          // KC_MCRO4

  datatype Keycode =
    | Basic(key: QmkKey)
    | User(custom: UserKey)
    | Transparent              // _______ (KC_TRNS): fall through to the layer below
    | Momentary(layer: nat)    // MO(layer)
    | WithLeftGui(base: QmkKey) // LGUI(kc), as in LOCKPC

  /** The macro keys, which the dispatcher treats alike. */
  predicate IsMacro(u: UserKey) {
    u == Macro1 || u == Macro2 || u == Macro3 || u == Macro4
  }

  /** The plain key a macro key types when no direction is held. */
  function Fallback(u: UserKey): QmkKey
    requires IsMacro(u)
  {
    match u
    case Macro1 => Comma
    case Macro2 => N
    case Macro3 => M
    case Macro4 => U
  }
}
