/**
 * The key space of the input-injection library that shortcut macros drive.
 * Only the targets that the key conversion table produces are listed; each is
 * represented by a number of its own, so that equality is all that matters.
 */
module Rdev {

  newtype RdevKey = t: int | 0 <= t < 73

  const KeyA: RdevKey := 0
  const KeyB: RdevKey := 1
  const KeyC: RdevKey := 2
  const KeyD: RdevKey := 3
  const KeyE: RdevKey := 4
  const KeyF: RdevKey := 5
  const KeyG: RdevKey := 6
  const KeyH: RdevKey := 7
  const KeyI: RdevKey := 8
  const KeyJ: RdevKey := 9
  const KeyK: RdevKey := 10
  const KeyL: RdevKey := 11
  const KeyM: RdevKey := 12
  const KeyN: RdevKey := 13
  const KeyO: RdevKey := 14
  const KeyP: RdevKey := 15
  const KeyQ: RdevKey := 16
  const KeyR: RdevKey := 17
  const KeyS: RdevKey := 18
  const KeyT: RdevKey := 19
  const KeyU: RdevKey := 20
  const KeyV: RdevKey := 21
  const KeyW: RdevKey := 22
  const KeyX: RdevKey := 23
  const KeyY: RdevKey := 24
  const KeyZ: RdevKey := 25
  const Num1: RdevKey := 26
  const Num2: RdevKey := 27
  const Num3: RdevKey := 28
  const Num4: RdevKey := 29
  const Num5: RdevKey := 30
  const Num6: RdevKey := 31
  const Num7: RdevKey := 32
  const Num8: RdevKey := 33
  const Num9: RdevKey := 34
  const Num0: RdevKey := 35
  const Return: RdevKey := 36
  const Escape: RdevKey := 37
  const Backspace: RdevKey := 38
  const Tab: RdevKey := 39
  const Space: RdevKey := 40
  const Minus: RdevKey := 41
  const Equal: RdevKey := 42
  const LeftBracket: RdevKey := 43
  const RightBracket: RdevKey := 44
  const BackSlash: RdevKey := 45
  const BackQuote: RdevKey := 46
  const SemiColon: RdevKey := 47
  const Quote: RdevKey := 48
  const IntlBackslash: RdevKey := 49
  const Comma: RdevKey := 50
  const Dot: RdevKey := 51
  const Slash: RdevKey := 52
  const CapsLock: RdevKey := 53
  const F1: RdevKey := 54
  const F2: RdevKey := 55
  const F3: RdevKey := 56
  const F4: RdevKey := 57
  const F5: RdevKey := 58
  const F6: RdevKey := 59
  const F7: RdevKey := 60
  const F8: RdevKey := 61
  const F9: RdevKey := 62
  const F10: RdevKey := 63
  const F11: RdevKey := 64
  const F12: RdevKey := 65
  const ShiftLeft: RdevKey := 66
  const ShiftRight: RdevKey := 67
  const ControlLeft: RdevKey := 68
  const ControlRight: RdevKey := 69
  const Alt: RdevKey := 70
  const Delete: RdevKey := 71
  const PrintScreen: RdevKey := 72
}
