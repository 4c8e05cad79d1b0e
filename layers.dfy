/** The five layers of the GMMK Pro keymap (keymaps[][MATRIX_ROWS][MATRIX_COLS]).

    A layer is written as the LAYOUT macro lists it: six rows of 15, 15, 15, 14, 14
    and 10 keys, from the top row down. How QMK looks a key up through the active
    layers and their transparent keys is the framework's business and not part of
    this model; what is modelled is the data and how the overlay layers relate to
    the base layer.
 */
module Layers {
  import opened Keycodes

  type Layer = seq<seq<Keycode>>

  /** The number of keys in each row of LAYOUT. */
  const RowWidths: seq<nat> := [15, 15, 15, 14, 14, 10]

  predicate HasLayoutShape(l: Layer) {
    |l| == |RowWidths| && forall r :: 0 <= r < |l| ==> |l[r]| == RowWidths[r]
  }

  /** _BASE: the ANSI layout, with MO(_FN1) on the Fn key. */
  const BaseLayer: Layer := [
    [ Basic(Escape), Basic(F1), Basic(F2), Basic(F3), Basic(F4), Basic(F5),
      Basic(F6), Basic(F7), Basic(F8), Basic(F9), Basic(F10), Basic(F11),
      Basic(F12), Basic(Delete), Basic(Mute) ],
    [ Basic(Grave), Basic(Digit1), Basic(Digit2), Basic(Digit3), Basic(Digit4), Basic(Digit5),
      Basic(Digit6), Basic(Digit7), Basic(Digit8), Basic(Digit9), Basic(Digit0), Basic(Minus),
      Basic(Equal), Basic(Backspace), Basic(Home) ],
    [ Basic(Tab), Basic(Q), Basic(W), Basic(E), Basic(R), Basic(T),
      Basic(Y), Basic(U), Basic(I), Basic(O), Basic(P), Basic(LeftBracket),
      Basic(RightBracket), Basic(Backslash), Basic(PageUp) ],
    [ Basic(CapsLock), Basic(A), Basic(S), Basic(D), Basic(F), Basic(G),
      Basic(H), Basic(J), Basic(K), Basic(L), Basic(Semicolon), Basic(Quote),
      Basic(Enter), Basic(PageDown) ],
    [ Basic(LeftShift), Basic(Z), Basic(X), Basic(C), Basic(V), Basic(B),
      Basic(N), Basic(M), Basic(Comma), Basic(Dot), Basic(Slash), Basic(RightShift),
      Basic(ArrowUp), Basic(End) ],
    [ Basic(LeftCtrl), Basic(LeftGui), Basic(LeftAlt), Basic(Space), Basic(RightAlt), Momentary(FN1),
      Basic(RightCtrl), Basic(ArrowLeft), Basic(ArrowDown), Basic(ArrowRight) ]
  ]

  /** _FN1: media, system and lighting keys. */
  const Fn1Layer: Layer := [
    [ Basic(EepromClear), Transparent, Transparent, Transparent, Transparent, Transparent,
      Basic(MediaPrev), Basic(MediaPlay), Basic(MediaNext), Transparent, Basic(Pause), Basic(ScrollLock),
      Basic(PrintScreen), Basic(Insert), Basic(SystemSleep) ],
    [ Transparent, Transparent, Transparent, Transparent, Transparent, Transparent,
      Transparent, Transparent, Transparent, Transparent, Transparent, Transparent,
      Transparent, Transparent, Transparent ],
    [ Transparent, Transparent, Transparent, Transparent, Transparent, Transparent,
      Transparent, Transparent, Transparent, Transparent, Transparent, Transparent,
      Transparent, Basic(Bootloader), Transparent ],
    [ Transparent, Transparent, Transparent, Transparent, Transparent, Transparent,
      Transparent, Transparent, Transparent, WithLeftGui(L), Transparent, Transparent,
      Transparent, Transparent ],
    [ Transparent, User(NightMode), Basic(RgbToggle), Transparent, Transparent, Transparent,
      Basic(NumLock), Transparent, Transparent, Transparent, Transparent, Transparent,
      Basic(RgbModeNext), Transparent ],
    [ Transparent, User(WinLock), Transparent, Transparent, Transparent, Transparent,
      Transparent, Basic(RgbSpeedDown), Basic(RgbModePrev), Basic(RgbSpeedUp) ]
  ]

  /** _FN2: the numpad overlay. */
  const Fn2Layer: Layer := [
    [ Transparent, Transparent, Transparent, Transparent, Transparent, Transparent,
      Transparent, Transparent, Transparent, Transparent, Transparent, Transparent,
      Transparent, Transparent, Transparent ],
    [ Transparent, Transparent, Transparent, Transparent, Transparent, Transparent,
      Transparent, Basic(Keypad7), Basic(Keypad8), Basic(Keypad9), Transparent, Basic(KeypadMinus),
      Basic(KeypadPlus), Transparent, Transparent ],
    [ Transparent, Transparent, Transparent, Transparent, Transparent, Transparent,
      Transparent, Basic(Keypad4), Basic(Keypad5), Basic(Keypad6), Transparent, Transparent,
      Transparent, Transparent, Transparent ],
    [ Transparent, Transparent, Transparent, Transparent, Transparent, Transparent,
      Transparent, Basic(Keypad1), Basic(Keypad2), Basic(Keypad3), Transparent, Transparent,
      Transparent, Transparent ],
    [ Transparent, Transparent, Transparent, Transparent, Transparent, Transparent,
      Transparent, Basic(Keypad0), Transparent, Transparent, Transparent, Transparent,
      Transparent, Transparent ],
    [ Transparent, Transparent, Transparent, Transparent, Transparent, Transparent,
      Transparent, Transparent, Transparent, Transparent ]
  ]

  /** _FN3: 0 on the ; key and W on the space bar. */
  const Fn3Layer: Layer := [
    [ Transparent, Transparent, Transparent, Transparent, Transparent, Transparent,
      Transparent, Transparent, Transparent, Transparent, Transparent, Transparent,
      Transparent, Transparent, Transparent ],
    [ Transparent, Transparent, Transparent, Transparent, Transparent, Transparent,
      Transparent, Transparent, Transparent, Transparent, Transparent, Transparent,
      Transparent, Transparent, Transparent ],
    [ Transparent, Transparent, Transparent, Transparent, Transparent, Transparent,
      Transparent, Transparent, Transparent, Transparent, Transparent, Transparent,
      Transparent, Transparent, Transparent ],
    [ Transparent, Transparent, Transparent, Transparent, Transparent, Transparent,
      Transparent, Transparent, Transparent, Transparent, Basic(Digit0), Transparent,
      Transparent, Transparent ],
    [ Transparent, Transparent, Transparent, Transparent, Transparent, Transparent,
      Transparent, Transparent, Transparent, Transparent, Transparent, Transparent,
      Transparent, Transparent ],
    [ Transparent, Transparent, Transparent, Basic(W), Transparent, Transparent,
      Transparent, Transparent, Transparent, Transparent ]
  ]

  /** _FN4: the four macro keys. */
  const Fn4Layer: Layer := [
    [ Transparent, Transparent, Transparent, Transparent, Transparent, Transparent,
      Transparent, Transparent, Transparent, Transparent, Transparent, Transparent,
      Transparent, Transparent, Transparent ],
    [ Transparent, Transparent, Transparent, Transparent, Transparent, Transparent,
      Transparent, Transparent, Transparent, Transparent, Transparent, Transparent,
      Transparent, Transparent, Transparent ],
    [ Transparent, Transparent, Transparent, Transparent, Transparent, Transparent,
      Transparent, User(Macro4), Transparent, Transparent, Transparent, Transparent,
      Transparent, Transparent, Transparent ],
    [ Transparent, Transparent, Transparent, Transparent, Transparent, Transparent,
      Transparent, Transparent, Transparent, Transparent, Transparent, Transparent,
      Transparent, Transparent ],
    [ Transparent, Transparent, Transparent, Transparent, Transparent, Transparent,
      User(Macro2), User(Macro3), User(Macro1), Transparent, Transparent, Transparent,
      Transparent, Transparent ],
    [ Transparent, Transparent, Transparent, Transparent, Transparent, Transparent,
      Transparent, Transparent, Transparent, Transparent ]
  ]

  /** The tables in layer order, so that Keymaps[FN2] is _FN2. */
  const Keymaps: seq<Layer> := [BaseLayer, Fn1Layer, Fn2Layer, Fn3Layer, Fn4Layer]

  /** The key a base-layer key becomes on _FN2: the digits 7-9 and the letters U, I, O,
      J, K, L and M form a keypad, - and = become keypad minus and plus, and every other
      key is transparent. */
  function NumpadKey(k: Keycode): Keycode {
    if k == Basic(Digit7) then Basic(Keypad7)
    else if k == Basic(Digit8) then Basic(Keypad8)
    else if k == Basic(Digit9) then Basic(Keypad9)
    else if k == Basic(U) then Basic(Keypad4)
    else if k == Basic(I) then Basic(Keypad5)
    else if k == Basic(O) then Basic(Keypad6)
    else if k == Basic(J) then Basic(Keypad1)
    else if k == Basic(K) then Basic(Keypad2)
    else if k == Basic(L) then Basic(Keypad3)
    else if k == Basic(M) then Basic(Keypad0)
    else if k == Basic(Minus) then Basic(KeypadMinus)
    else if k == Basic(Equal) then Basic(KeypadPlus)
    else Transparent
  }

  /** The key a base-layer key becomes on _FN4: the macro key whose fallback it is, or transparent. */
  function MacroKeyOver(k: Keycode): Keycode {
    if k == Basic(Comma) then User(Macro1)
    else if k == Basic(N) then User(Macro2)
    else if k == Basic(M) then User(Macro3)
    else if k == Basic(U) then User(Macro4)
    else Transparent
  }

  /** Row r of `top` is row r of `base` with every key replaced by f of it. */
  predicate RowIsOverlay(top: Layer, base: Layer, f: Keycode -> Keycode, r: nat)
    requires r < |top| && r < |base|
  {
    |top[r]| == |base[r]| && forall c :: 0 <= c < |base[r]| ==> top[r][c] == f(base[r][c])
  }

  /** `top` is `base` with every key replaced by f of it. */
  predicate IsOverlay(top: Layer, base: Layer, f: Keycode -> Keycode) {
    |top| == |base| && forall r :: 0 <= r < |base| ==> RowIsOverlay(top, base, f, r)
  }

  /** Every layer is laid out like LAYOUT, and Keymaps lists them in layer order. */
  lemma KeymapsHaveLayoutShape()
    ensures |Keymaps| == 5
    ensures forall l :: 0 <= l < |Keymaps| ==> HasLayoutShape(Keymaps[l])
    ensures Keymaps[BASE] == BaseLayer && Keymaps[FN1] == Fn1Layer && Keymaps[FN2] == Fn2Layer
    ensures Keymaps[FN3] == Fn3Layer && Keymaps[FN4] == Fn4Layer
  {
  }

  // Proof steps only, one row at a time to keep each comparison of two constant tables
  // (up to 15 keys) small; the overlay lemmas below combine them.
  lemma Fn2Row0() ensures forall c :: 0 <= c < 15 ==> Fn2Layer[0][c] == NumpadKey(BaseLayer[0][c]) {}
  lemma Fn2Row1() ensures forall c :: 0 <= c < 15 ==> Fn2Layer[1][c] == NumpadKey(BaseLayer[1][c]) {}
  lemma Fn2Row2() ensures forall c :: 0 <= c < 15 ==> Fn2Layer[2][c] == NumpadKey(BaseLayer[2][c]) {}
  lemma Fn2Row3() ensures forall c :: 0 <= c < 14 ==> Fn2Layer[3][c] == NumpadKey(BaseLayer[3][c]) {}
  lemma Fn2Row4() ensures forall c :: 0 <= c < 14 ==> Fn2Layer[4][c] == NumpadKey(BaseLayer[4][c]) {}
  lemma Fn2Row5() ensures forall c :: 0 <= c < 10 ==> Fn2Layer[5][c] == NumpadKey(BaseLayer[5][c]) {}

  /** _FN2 is _BASE seen through NumpadKey: the keypad where 7-9, U-O, J-L and M are, keypad
      minus and plus on - and =, and transparent keys everywhere else. */
  lemma Fn2IsNumpadOverlay()
    ensures IsOverlay(Fn2Layer, BaseLayer, NumpadKey)
  {
    forall r | 0 <= r < |BaseLayer| ensures RowIsOverlay(Fn2Layer, BaseLayer, NumpadKey, r) {
      if r == 0 { Fn2Row0(); }
      else if r == 1 { Fn2Row1(); }
      else if r == 2 { Fn2Row2(); }
      else if r == 3 { Fn2Row3(); }
      else if r == 4 { Fn2Row4(); }
      else { Fn2Row5(); }
    }
  }

  // Proof steps only, as for _FN2 above.
  lemma Fn4Row0() ensures forall c :: 0 <= c < 15 ==> Fn4Layer[0][c] == MacroKeyOver(BaseLayer[0][c]) {}
  lemma Fn4Row1() ensures forall c :: 0 <= c < 15 ==> Fn4Layer[1][c] == MacroKeyOver(BaseLayer[1][c]) {}
  lemma Fn4Row2() ensures forall c :: 0 <= c < 15 ==> Fn4Layer[2][c] == MacroKeyOver(BaseLayer[2][c]) {}
  lemma Fn4Row3() ensures forall c :: 0 <= c < 14 ==> Fn4Layer[3][c] == MacroKeyOver(BaseLayer[3][c]) {}
  lemma Fn4Row4() ensures forall c :: 0 <= c < 14 ==> Fn4Layer[4][c] == MacroKeyOver(BaseLayer[4][c]) {}
  lemma Fn4Row5() ensures forall c :: 0 <= c < 10 ==> Fn4Layer[5][c] == MacroKeyOver(BaseLayer[5][c]) {}

  /** _FN4 is _BASE seen through MacroKeyOver. */
  lemma Fn4IsMacroOverlay()
    ensures IsOverlay(Fn4Layer, BaseLayer, MacroKeyOver)
  {
    forall r | 0 <= r < |BaseLayer| ensures RowIsOverlay(Fn4Layer, BaseLayer, MacroKeyOver, r) {
      if r == 0 { Fn4Row0(); }
      else if r == 1 { Fn4Row1(); }
      else if r == 2 { Fn4Row2(); }
      else if r == 3 { Fn4Row3(); }
      else if r == 4 { Fn4Row4(); }
      else { Fn4Row5(); }
    }
  }

  /** MacroKeyOver puts each macro key exactly over its fallback key, and nowhere else. */
  lemma MacroKeyOverIsFallbackInverse(k: Keycode, m: UserKey)
    ensures IsMacro(m) ==> MacroKeyOver(Basic(Fallback(m))) == User(m)
    ensures MacroKeyOver(k) == User(m) ==> IsMacro(m) && k == Basic(Fallback(m))
    ensures MacroKeyOver(k) == Transparent || MacroKeyOver(k).User?
  {
  }

  /** On _FN4 every macro key sits where _BASE has the key it falls back to (KC_MCRO4 on U,
      KC_MCRO2 on N, KC_MCRO3 on M, KC_MCRO1 on the comma), each macro key is somewhere on
      the layer, and every other key is transparent. */
  lemma MacrosSitOnTheirFallbacks()
    ensures forall r, c :: 0 <= r < |Fn4Layer| && 0 <= c < |Fn4Layer[r]| && Fn4Layer[r][c].User? ==>
      IsMacro(Fn4Layer[r][c].custom) && r < |BaseLayer| && c < |BaseLayer[r]| && BaseLayer[r][c] == Basic(Fallback(Fn4Layer[r][c].custom))
    ensures forall r, c :: 0 <= r < |Fn4Layer| && 0 <= c < |Fn4Layer[r]| && !Fn4Layer[r][c].User? ==> Fn4Layer[r][c] == Transparent
    ensures forall m :: IsMacro(m) ==> exists r, c :: 0 <= r < |Fn4Layer| && 0 <= c < |Fn4Layer[r]| && Fn4Layer[r][c] == User(m)
  {
    Fn4IsMacroOverlay();
    forall r, c | 0 <= r < |Fn4Layer| && 0 <= c < |Fn4Layer[r]|
      ensures Fn4Layer[r][c].User? ==> IsMacro(Fn4Layer[r][c].custom) && r < |BaseLayer| && c < |BaseLayer[r]| && BaseLayer[r][c] == Basic(Fallback(Fn4Layer[r][c].custom))
      ensures !Fn4Layer[r][c].User? ==> Fn4Layer[r][c] == Transparent
    {
      assert RowIsOverlay(Fn4Layer, BaseLayer, MacroKeyOver, r);
      MacroKeyOverIsFallbackInverse(BaseLayer[r][c], if Fn4Layer[r][c].User? then Fn4Layer[r][c].custom else Macro1);
    }
    forall m | IsMacro(m) ensures exists r, c :: 0 <= r < |Fn4Layer| && 0 <= c < |Fn4Layer[r]| && Fn4Layer[r][c] == User(m) {
      var r, c := if m == Macro4 then 2 else 4, if m == Macro1 then 8 else if m == Macro2 then 6 else 7;
      assert Fn4Layer[r][c] == User(m);
    }
  }
}
