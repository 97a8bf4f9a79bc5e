/**
 * Key codes (src/keyboard.rs): the logical key enumeration, the usage-code
 * table of the Keyboard/Keypad usage page (page 0x07, section 10 of the USB HID
 * Usage Tables 1.12), the modifier-bit table, and the conversion to the key
 * space of the input-injection library.
 */
module Keys {

  import opened Wrappers
  import Rdev

  /** One byte of a report. */
  type Byte = x: int | 0 <= x < 256

  /**
   * A logical key, represented by its `u8` discriminant: the enumeration is
   * declared `#[repr(u8)]`, so its variants are the numbers 0..79 in
   * declaration order. `Unknown` (0) is the sentinel for "no key".
   */
  newtype Key = k: int | 0 <= k < 80

  const Unknown: Key := 0
  const A: Key := 1
  const B: Key := 2
  const C: Key := 3
  const D: Key := 4
  const E: Key := 5
  const F: Key := 6
  const G: Key := 7
  const H: Key := 8
  const I: Key := 9
  const J: Key := 10
  const K: Key := 11
  const L: Key := 12
  const M: Key := 13
  const N: Key := 14
  const O: Key := 15
  const P: Key := 16
  const Q: Key := 17
  const R: Key := 18
  const S: Key := 19
  const T: Key := 20
  const U: Key := 21
  const V: Key := 22
  const W: Key := 23
  const X: Key := 24
  const Y: Key := 25
  const Z: Key := 26
  const Num1: Key := 27
  const Num2: Key := 28
  const Num3: Key := 29
  const Num4: Key := 30
  const Num5: Key := 31
  const Num6: Key := 32
  const Num7: Key := 33
  const Num8: Key := 34
  const Num9: Key := 35
  const Num0: Key := 36
  const Enter: Key := 37
  const Esc: Key := 38
  const Backspace: Key := 39
  const Tab: Key := 40
  const Space: Key := 41
  const Minus: Key := 42
  const Equal: Key := 43
  const LeftBrace: Key := 44
  const Rightbrace: Key := 45
  const Backslash: Key := 46
  const Hashtilde: Key := 47
  const Semicolon: Key := 48
  const Apostrophe: Key := 49
  const Grave: Key := 50
  const Comma: Key := 51
  const Dot: Key := 52
  const Slash: Key := 53
  const Capslock: Key := 54
  const F1: Key := 55
  const F2: Key := 56
  const F3: Key := 57
  const F4: Key := 58
  const F5: Key := 59
  const F6: Key := 60
  const F7: Key := 61
  const F8: Key := 62
  const F9: Key := 63
  const F10: Key := 64
  const F11: Key := 65
  const F12: Key := 66
  const ShiftLeft: Key := 67
  const ShiftRight: Key := 68
  const ControlLeft: Key := 69
  const ControlRight: Key := 70
  const Alt: Key := 71
  const AltLeft: Key := 72
  const AltRight: Key := 73
  const Intlbackslash: Key := 74
  const Home: Key := 75
  const Insert: Key := 76
  const Delete: Key := 77
  const End: Key := 78
  const PrintScreen: Key := 79

  /**
   * The usage-code table: byte to key, `None` for every byte the table leaves out.
   */
  function TryKeyFrom(v: Byte): (r: Option<Key>)
    ensures r != Some(Unknown)
    ensures r.Some? <==> (0x04 <= v <= 0x46 || v == 0x49 || v == 0x4A || v == 0x4C || v == 0x4D)
  {
    match v
    case 0x04 => Some(A)
    case 0x05 => Some(B)
    case 0x06 => Some(C)
    case 0x07 => Some(D)
    case 0x08 => Some(E)
    case 0x09 => Some(F)
    case 0x0a => Some(G)
    case 0x0b => Some(H)
    case 0x0c => Some(I)
    case 0x0d => Some(J)
    case 0x0e => Some(K)
    case 0x0f => Some(L)
    case 0x10 => Some(M)
    case 0x11 => Some(N)
    case 0x12 => Some(O)
    case 0x13 => Some(P)
    case 0x14 => Some(Q)
    case 0x15 => Some(R)
    case 0x16 => Some(S)
    case 0x17 => Some(T)
    case 0x18 => Some(U)
    case 0x19 => Some(V)
    case 0x1a => Some(W)
    case 0x1b => Some(X)
    case 0x1c => Some(Y)
    case 0x1d => Some(Z)
    case 0x1e => Some(Num1)
    case 0x1f => Some(Num2)
    case 0x20 => Some(Num3)
    case 0x21 => Some(Num4)
    case 0x22 => Some(Num5)
    case 0x23 => Some(Num6)
    case 0x24 => Some(Num7)
    case 0x25 => Some(Num8)
    case 0x26 => Some(Num9)
    case 0x27 => Some(Num0)
    case 0x28 => Some(Enter)
    case 0x29 => Some(Esc)
    case 0x2a => Some(Backspace)
    case 0x2b => Some(Tab)
    case 0x2c => Some(Space)
    case 0x2d => Some(Minus)
    case 0x2e => Some(Equal)
    case 0x2f => Some(LeftBrace)
    case 0x30 => Some(Rightbrace)
    case 0x31 => Some(Backslash)
    case 0x32 => Some(Hashtilde)
    case 0x33 => Some(Semicolon)
    case 0x34 => Some(Apostrophe)
    case 0x35 => Some(Grave)
    case 0x36 => Some(Comma)
    case 0x37 => Some(Dot)
    case 0x38 => Some(Slash)
    case 0x39 => Some(Capslock)
    case 0x3a => Some(F1)
    case 0x3b => Some(F2)
    case 0x3c => Some(F3)
    case 0x3d => Some(F4)
    case 0x3e => Some(F5)
    case 0x3f => Some(F6)
    case 0x40 => Some(F7)
    case 0x41 => Some(F8)
    case 0x42 => Some(F9)
    case 0x43 => Some(F10)
    case 0x44 => Some(F11)
    case 0x45 => Some(F12)
    case 0x4A => Some(Home)
    case 0x49 => Some(Insert)
    case 0x4C => Some(Delete)
    case 0x4D => Some(End)
    case 0x46 => Some(PrintScreen)
    case _ => None
  }

  /**
   * The usage code of a key, stated independently of the table: A .. F12 are
   * the codes 0x04 .. 0x45 in declaration order, and five navigation keys have
   * codes of their own.
   */
  function UsageOf(k: Key): Option<Byte>
  {
    if A <= k <= F12 then Some(k as int + 3)
    else if k == PrintScreen then Some(0x46)
    else if k == Insert then Some(0x49)
    else if k == Home then Some(0x4A)
    else if k == Delete then Some(0x4C)
    else if k == End then Some(0x4D)
    else None
  }

  /** The table and `UsageOf` are inverse: a code decodes to a key exactly when it is that key's usage code. */
  lemma UsageCodeInverse(v: Byte, k: Key)
    ensures TryKeyFrom(v) == Some(k) <==> UsageOf(k) == Some(v)
  {
    DecodedKeyHasUsage(v);
    UsageDecodesToKey(k);
  }

  lemma DecodedKeyHasUsage(v: Byte)
    ensures TryKeyFrom(v).Some? ==> UsageOf(TryKeyFrom(v).value) == Some(v)
  {
    if 0x04 <= v <= 0x45 {
      ContiguousUsage(v);
    }
  }

  lemma UsageDecodesToKey(k: Key)
    ensures UsageOf(k).Some? ==> TryKeyFrom(UsageOf(k).value) == Some(k)
  {
    if A <= k <= F12 {
      ContiguousUsage(UsageOf(k).value);
    }
  }

  /** No two usage codes decode to the same key. */
  lemma TryKeyFromInjective(v: Byte, w: Byte)
    requires TryKeyFrom(v).Some? && TryKeyFrom(v) == TryKeyFrom(w)
    ensures v == w
  {
    UsageCodeInverse(v, TryKeyFrom(v).value);
    UsageCodeInverse(w, TryKeyFrom(v).value);
  }

  /** Codes 0x04 .. 0x45 decode to the key declared at position code - 3 (A .. F12). */
  lemma ContiguousUsage(v: Byte)
    requires 0x04 <= v <= 0x45
    ensures TryKeyFrom(v) == Some((v - 3) as Key)
  {
  }

  /** The keys that stand for a modifier bit. */
  predicate IsModifier(k: Key)
  {
    k in {ShiftLeft, ShiftRight, ControlLeft, ControlRight, AltLeft, AltRight}
  }

  /** Modifier bit to key: six single bits are known (the meta bits 0x08 and 0x80 are not). */
  function TryModFrom(v: Byte): (r: Option<Key>)
    ensures r.Some? <==> v in {0x01, 0x02, 0x04, 0x10, 0x20, 0x40}
    ensures r.Some? ==> IsModifier(r.value)
  {
    match v
    case 0x02 => Some(ShiftLeft)
    case 0x20 => Some(ShiftRight)
    case 0x01 => Some(ControlLeft)
    case 0x10 => Some(ControlRight)
    case 0x04 => Some(AltLeft)
    case 0x40 => Some(AltRight)
    case _ => None
  }

  /** No two modifier bits decode to the same key. */
  lemma TryModFromInjective(v: Byte, w: Byte)
    requires TryModFrom(v).Some? && TryModFrom(v) == TryModFrom(w)
    ensures v == w
  {
  }

  /** Key to injection target; Unknown, Home, Insert and End have none. */
  function TryIntoRdev(k: Key): (r: Option<Rdev.RdevKey>)
    ensures r.None? <==> k in {Unknown, Home, Insert, End}
  {
    if k == A then Some(Rdev.KeyA)
    else if k == B then Some(Rdev.KeyB)
    else if k == C then Some(Rdev.KeyC)
    else if k == D then Some(Rdev.KeyD)
    else if k == E then Some(Rdev.KeyE)
    else if k == F then Some(Rdev.KeyF)
    else if k == G then Some(Rdev.KeyG)
    else if k == H then Some(Rdev.KeyH)
    else if k == I then Some(Rdev.KeyI)
    else if k == J then Some(Rdev.KeyJ)
    else if k == K then Some(Rdev.KeyK)
    else if k == L then Some(Rdev.KeyL)
    else if k == M then Some(Rdev.KeyM)
    else if k == N then Some(Rdev.KeyN)
    else if k == O then Some(Rdev.KeyO)
    else if k == P then Some(Rdev.KeyP)
    else if k == Q then Some(Rdev.KeyQ)
    else if k == R then Some(Rdev.KeyR)
    else if k == S then Some(Rdev.KeyS)
    else if k == T then Some(Rdev.KeyT)
    else if k == U then Some(Rdev.KeyU)
    else if k == V then Some(Rdev.KeyV)
    else if k == W then Some(Rdev.KeyW)
    else if k == X then Some(Rdev.KeyX)
    else if k == Y then Some(Rdev.KeyY)
    else if k == Z then Some(Rdev.KeyZ)
    else if k == Num1 then Some(Rdev.Num1)
    else if k == Num2 then Some(Rdev.Num2)
    else if k == Num3 then Some(Rdev.Num3)
    else if k == Num4 then Some(Rdev.Num4)
    else if k == Num5 then Some(Rdev.Num5)
    else if k == Num6 then Some(Rdev.Num6)
    else if k == Num7 then Some(Rdev.Num7)
    else if k == Num8 then Some(Rdev.Num8)
    else if k == Num9 then Some(Rdev.Num9)
    else if k == Num0 then Some(Rdev.Num0)
    else if k == Enter then Some(Rdev.Return)
    else if k == Esc then Some(Rdev.Escape)
    else if k == Backspace then Some(Rdev.Backspace)
    else if k == Tab then Some(Rdev.Tab)
    else if k == Space then Some(Rdev.Space)
    else if k == Minus then Some(Rdev.Minus)
    else if k == Equal then Some(Rdev.Equal)
    else if k == LeftBrace then Some(Rdev.LeftBracket)
    else if k == Rightbrace then Some(Rdev.RightBracket)
    else if k == Backslash then Some(Rdev.BackSlash)
    else if k == Hashtilde then Some(Rdev.BackQuote)
    else if k == Semicolon then Some(Rdev.SemiColon)
    else if k == Apostrophe then Some(Rdev.Quote)
    else if k == Grave then Some(Rdev.IntlBackslash)
    else if k == Intlbackslash then Some(Rdev.IntlBackslash)
    else if k == Comma then Some(Rdev.Comma)
    else if k == Dot then Some(Rdev.Dot)
    else if k == Slash then Some(Rdev.Slash)
    else if k == Capslock then Some(Rdev.CapsLock)
    else if k == F1 then Some(Rdev.F1)
    else if k == F2 then Some(Rdev.F2)
    else if k == F3 then Some(Rdev.F3)
    else if k == F4 then Some(Rdev.F4)
    else if k == F5 then Some(Rdev.F5)
    else if k == F6 then Some(Rdev.F6)
    else if k == F7 then Some(Rdev.F7)
    else if k == F8 then Some(Rdev.F8)
    else if k == F9 then Some(Rdev.F9)
    else if k == F10 then Some(Rdev.F10)
    else if k == F11 then Some(Rdev.F11)
    else if k == F12 then Some(Rdev.F12)
    else if k == ShiftLeft then Some(Rdev.ShiftLeft)
    else if k == ShiftRight then Some(Rdev.ShiftRight)
    else if k == ControlLeft then Some(Rdev.ControlLeft)
    else if k == ControlRight then Some(Rdev.ControlRight)
    else if k == AltLeft then Some(Rdev.Alt)
    else if k == AltRight then Some(Rdev.Alt)
    else if k == Alt then Some(Rdev.Alt)
    else if k == Delete then Some(Rdev.Delete)
    else if k == PrintScreen then Some(Rdev.PrintScreen)
    else None
  }

  /** The three Alt keys collapse to Alt, Intlbackslash to Grave; other keys stay. */
  function Canonical(k: Key): Key
  {
    if k == AltLeft || k == AltRight then Alt
    else if k == Intlbackslash then Grave
    else k
  }

  /** The canonical key behind an injection target. */
  function KeyOfRdev(t: Rdev.RdevKey): Key
  {
    if t == Rdev.KeyA then A
    else if t == Rdev.KeyB then B
    else if t == Rdev.KeyC then C
    else if t == Rdev.KeyD then D
    else if t == Rdev.KeyE then E
    else if t == Rdev.KeyF then F
    else if t == Rdev.KeyG then G
    else if t == Rdev.KeyH then H
    else if t == Rdev.KeyI then I
    else if t == Rdev.KeyJ then J
    else if t == Rdev.KeyK then K
    else if t == Rdev.KeyL then L
    else if t == Rdev.KeyM then M
    else if t == Rdev.KeyN then N
    else if t == Rdev.KeyO then O
    else if t == Rdev.KeyP then P
    else if t == Rdev.KeyQ then Q
    else if t == Rdev.KeyR then R
    else if t == Rdev.KeyS then S
    else if t == Rdev.KeyT then T
    else if t == Rdev.KeyU then U
    else if t == Rdev.KeyV then V
    else if t == Rdev.KeyW then W
    else if t == Rdev.KeyX then X
    else if t == Rdev.KeyY then Y
    else if t == Rdev.KeyZ then Z
    else if t == Rdev.Num1 then Num1
    else if t == Rdev.Num2 then Num2
    else if t == Rdev.Num3 then Num3
    else if t == Rdev.Num4 then Num4
    else if t == Rdev.Num5 then Num5
    else if t == Rdev.Num6 then Num6
    else if t == Rdev.Num7 then Num7
    else if t == Rdev.Num8 then Num8
    else if t == Rdev.Num9 then Num9
    else if t == Rdev.Num0 then Num0
    else if t == Rdev.Return then Enter
    else if t == Rdev.Escape then Esc
    else if t == Rdev.Backspace then Backspace
    else if t == Rdev.Tab then Tab
    else if t == Rdev.Space then Space
    else if t == Rdev.Minus then Minus
    else if t == Rdev.Equal then Equal
    else if t == Rdev.LeftBracket then LeftBrace
    else if t == Rdev.RightBracket then Rightbrace
    else if t == Rdev.BackSlash then Backslash
    else if t == Rdev.BackQuote then Hashtilde
    else if t == Rdev.SemiColon then Semicolon
    else if t == Rdev.Quote then Apostrophe
    else if t == Rdev.IntlBackslash then Grave
    else if t == Rdev.Comma then Comma
    else if t == Rdev.Dot then Dot
    else if t == Rdev.Slash then Slash
    else if t == Rdev.CapsLock then Capslock
    else if t == Rdev.F1 then F1
    else if t == Rdev.F2 then F2
    else if t == Rdev.F3 then F3
    else if t == Rdev.F4 then F4
    else if t == Rdev.F5 then F5
    else if t == Rdev.F6 then F6
    else if t == Rdev.F7 then F7
    else if t == Rdev.F8 then F8
    else if t == Rdev.F9 then F9
    else if t == Rdev.F10 then F10
    else if t == Rdev.F11 then F11
    else if t == Rdev.F12 then F12
    else if t == Rdev.ShiftLeft then ShiftLeft
    else if t == Rdev.ShiftRight then ShiftRight
    else if t == Rdev.ControlLeft then ControlLeft
    else if t == Rdev.ControlRight then ControlRight
    else if t == Rdev.Alt then Alt
    else if t == Rdev.Delete then Delete
    else PrintScreen
  }

  /** The inverse table names every convertible key again, up to the two aliasings; proved a block of keys at a time. */
  lemma IntoRdevInverse(k: Key)
    requires TryIntoRdev(k).Some?
    ensures KeyOfRdev(TryIntoRdev(k).value) == Canonical(k)
  {
    if k < 16 {
      IntoRdevInverse0To15(k);
    } else if k < 32 {
      IntoRdevInverse16To31(k);
    } else if k < 48 {
      IntoRdevInverse32To47(k);
    } else if k < 56 {
      IntoRdevInverse48To55(k);
    } else if k < 64 {
      IntoRdevInverse56To63(k);
    } else if k < 68 {
      IntoRdevInverse64To67(k);
    } else if k < 72 {
      IntoRdevInverse68To71(k);
    } else if k < 76 {
      IntoRdevInverse72To75(k);
    } else {
      IntoRdevInverse76To79(k);
    }
  }

  lemma IntoRdevInverse0To15(k: Key)
    requires 0 <= k < 16 && TryIntoRdev(k).Some?
    ensures KeyOfRdev(TryIntoRdev(k).value) == Canonical(k)
  {
  }

  lemma IntoRdevInverse16To31(k: Key)
    requires 16 <= k < 32 && TryIntoRdev(k).Some?
    ensures KeyOfRdev(TryIntoRdev(k).value) == Canonical(k)
  {
  }

  lemma IntoRdevInverse32To47(k: Key)
    requires 32 <= k < 48 && TryIntoRdev(k).Some?
    ensures KeyOfRdev(TryIntoRdev(k).value) == Canonical(k)
  {
  }

  lemma IntoRdevInverse48To55(k: Key)
    requires 48 <= k < 56 && TryIntoRdev(k).Some?
    ensures KeyOfRdev(TryIntoRdev(k).value) == Canonical(k)
  {
  }

  lemma IntoRdevInverse56To63(k: Key)
    requires 56 <= k < 64 && TryIntoRdev(k).Some?
    ensures KeyOfRdev(TryIntoRdev(k).value) == Canonical(k)
  {
  }

  lemma IntoRdevInverse64To67(k: Key)
    requires 64 <= k < 68 && TryIntoRdev(k).Some?
    ensures KeyOfRdev(TryIntoRdev(k).value) == Canonical(k)
  {
  }

  lemma IntoRdevInverse68To71(k: Key)
    requires 68 <= k < 72 && TryIntoRdev(k).Some?
    ensures KeyOfRdev(TryIntoRdev(k).value) == Canonical(k)
  {
  }

  lemma IntoRdevInverse72To75(k: Key)
    requires 72 <= k < 76 && TryIntoRdev(k).Some?
    ensures KeyOfRdev(TryIntoRdev(k).value) == Canonical(k)
  {
  }

  lemma IntoRdevInverse76To79(k: Key)
    requires 76 <= k && TryIntoRdev(k).Some?
    ensures KeyOfRdev(TryIntoRdev(k).value) == Canonical(k)
  {
  }

  /**
   * The conversion is injective except that Alt, AltLeft and AltRight share a
   * target, and Grave and Intlbackslash share one.
   */
  lemma IntoRdevCollision(a: Key, b: Key)
    requires TryIntoRdev(a).Some? && TryIntoRdev(a) == TryIntoRdev(b) && a != b
    ensures (a in {Alt, AltLeft, AltRight} && b in {Alt, AltLeft, AltRight})
         || (a in {Grave, Intlbackslash} && b in {Grave, Intlbackslash})
  {
    IntoRdevInverse(a);
    IntoRdevInverse(b);
  }

  /** Those collisions do happen. */
  lemma IntoRdevNotInjective()
    ensures TryIntoRdev(Alt) == TryIntoRdev(AltLeft) == TryIntoRdev(AltRight)
    ensures TryIntoRdev(Grave) == TryIntoRdev(Intlbackslash)
  {
  }
}
