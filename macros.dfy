/** The four macro keys KC_MCRO1..KC_MCRO4 (hpb, giganter, buster, flick).

    While A (left) or D (right) is held, a macro key plays a fixed stream of
    key-downs, key-ups and pauses through SEND_STRING: a motion that re-taps the
    held direction and S, then one or more attack keys (J, I, K, L). With no
    direction held it types its fallback key instead.
 */
module Macros {
  import opened Keycodes
  import opened Framework

  /** The motion of KC_MCRO1 while A is held. */
  const HpbLeft: seq<Token> := [
    Release(A), Delay(18), Press(S), Delay(18), Press(A), Delay(18), Release(S), Delay(18),
    Release(A), Delay(40), Press(S), Delay(18), Press(A), Delay(18), Release(S), Delay(18)]

  /** The motion of KC_MCRO1 while D is held. */
  const HpbRight: seq<Token> := [
    Release(D), Delay(18), Press(S), Delay(18), Press(D), Delay(18), Release(S), Delay(18),
    Release(D), Delay(40), Press(S), Delay(18), Press(D), Delay(18), Release(S), Delay(18)]

  /** The motion shared by KC_MCRO2, KC_MCRO3 and KC_MCRO4 while A is held. */
  const MotionLeft: seq<Token> := [
    Press(S), Delay(18), Release(A), Delay(18), Press(D), Delay(18),
    Release(S), Delay(18), Release(D), Delay(18), Press(A), Delay(18)]

  /** The motion shared by KC_MCRO2, KC_MCRO3 and KC_MCRO4 while D is held. */
  const MotionRight: seq<Token> := [
    Press(S), Delay(18), Release(D), Delay(18), Press(A), Delay(18),
    Release(S), Delay(18), Release(A), Delay(18), Press(D), Delay(18)]

  /** A key pressed, held 18 ms and released. */
  function TapTokens(k: QmkKey): seq<Token> {
    [Press(k), Delay(18), Release(k)]
  }

  /** The SEND_STRING calls for the held direction(s): left first, then right. */
  function MotionEvents(m: UserKey, left: bool, right: bool): (r: seq<Event>)
    requires IsMacro(m)
    ensures |r| == (if left then 1 else 0) + (if right then 1 else 0)
    ensures RgbMatrixEnable !in r
  {
    (if left then [SendString(if m == Macro1 then HpbLeft else MotionLeft)] else [])
    + (if right then [SendString(if m == Macro1 then HpbRight else MotionRight)] else [])
  }

  /** The attack keys that follow the motion; `mods` is the modifier state read on entry. */
  function AttackEvents(m: UserKey, down: bool, mods: bv8): (r: seq<Event>)
    requires IsMacro(m)
    ensures r != [] && RgbMatrixEnable !in r
    ensures r[|r| - 1] == SendString([Press(S)]) <==> down && (m == Macro2 || m == Macro3)
  {
    var shift := ShiftHeld(mods);
    var restoreDown := if down then [SendString([Press(S)])] else [];
    match m
    case Macro1 =>
      (if !shift then [SendString(TapTokens(J))] else [])
      + [SendString(TapTokens(I))]
      + (if shift then [SendString(TapTokens(K))] else [])
    case Macro2 =>
      (if !shift then [SendString(TapTokens(J))] else [])
      + [SendString(TapTokens(L))]
      + (if shift then [SendString(TapTokens(K))] else [])
      + restoreDown
    case Macro3 =>
      (if !shift then [DelMods(MOD_MASK_SHIFT), SendString([Press(J), Delay(18)]), SetMods(mods)] else [])
      + [SendString([Press(K), Delay(18), Release(J), Release(K)])]
      + restoreDown
    case Macro4 =>
      // the source tests `left || right` again here; inside this branch it always holds
      [SendString([Press(J), Delay(18), Press(I), Delay(18), Release(J), Release(I)])]
  }

  /** What a macro key does on an event, given the held-direction flags and the modifiers. */
  function MacroEvents(m: UserKey, pressed: bool, left: bool, right: bool, down: bool, mods: bv8): (r: seq<Event>)
    requires IsMacro(m)
    ensures r != [] && RgbMatrixEnable !in r
    ensures |r| == 1 <==> !pressed || (!left && !right)
  {
    if !pressed then [UnregisterCode(Fallback(m))]
    else if left || right then MotionEvents(m, left, right) + AttackEvents(m, down, mods)
    else [RegisterCode(Fallback(m))]
  }

  /** A press with a direction held is the motion followed by the attack. */
  lemma MacroPressIsMotionThenAttack(m: UserKey, left: bool, right: bool, down: bool, mods: bv8)
    requires IsMacro(m) && (left || right)
    ensures MacroEvents(m, true, left, right, down, mods) == MotionEvents(m, left, right) + AttackEvents(m, down, mods)
  {
  }

  /** With no direction held a press types only the fallback key, and a release always
      lets go of it: no SEND_STRING is made and no other key is touched. */
  lemma MacroFallback(m: UserKey, pressed: bool, left: bool, right: bool, down: bool, mods: bv8)
    requires IsMacro(m)
    requires !pressed || (!left && !right)
    ensures |MacroEvents(m, pressed, left, right, down, mods)| == 1
    ensures var e := MacroEvents(m, pressed, left, right, down, mods)[0];
      (e.RegisterCode? || e.UnregisterCode?) && e.key == Fallback(m) && (e.RegisterCode? <==> pressed)
  {
  }

  /** A press with a direction held sends a stream that depends on nothing but the macro,
      the three held flags and the Shift bits of the modifiers (apart from SetMods, which
      puts back the modifier state read on entry). */
  lemma {:induction false} MacroStreamDependsOnShiftOnly(m: UserKey, left: bool, right: bool, down: bool, mods1: bv8, mods2: bv8)
    requires IsMacro(m) && m != Macro3
    requires left || right
    requires ShiftHeld(mods1) == ShiftHeld(mods2)
    ensures MacroEvents(m, true, left, right, down, mods1) == MacroEvents(m, true, left, right, down, mods2)
  {
  }

  // ---- the left/right symmetry of the macros ----

  function MirrorKey(k: QmkKey): QmkKey {
    if k == A then D else if k == D then A else k
  }

  function MirrorToken(t: Token): Token {
    match t
    case Press(k) => Press(MirrorKey(k))
    case Release(k) => Release(MirrorKey(k))
    case Delay(ms) => Delay(ms)
  }

  /** `b` is the stream `a` with A and D exchanged. */
  predicate MirroredTokens(a: seq<Token>, b: seq<Token>) {
    |a| == |b| && forall i :: 0 <= i < |a| ==> b[i] == MirrorToken(a[i])
  }

  /** `b` is the call `a` with A and D exchanged. */
  predicate MirroredEvent(a: Event, b: Event) {
    match a
    case SendString(ts) => b.SendString? && MirroredTokens(ts, b.tokens)
    case RegisterCode(k) => b == RegisterCode(MirrorKey(k))
    case UnregisterCode(k) => b == UnregisterCode(MirrorKey(k))
    case _ => b == a
  }

  /** `b` is the series of calls `a` with A and D exchanged, call by call. */
  predicate MirroredEvents(a: seq<Event>, b: seq<Event>) {
    |a| == |b| && forall i :: 0 <= i < |a| ==> MirroredEvent(a[i], b[i])
  }

  lemma MirroredEventsConcat(a1: seq<Event>, b1: seq<Event>, a2: seq<Event>, b2: seq<Event>)
    requires MirroredEvents(a1, b1) && MirroredEvents(a2, b2)
    ensures MirroredEvents(a1 + a2, b1 + b2)
  {
    forall i | 0 <= i < |a1 + a2| ensures MirroredEvent((a1 + a2)[i], (b1 + b2)[i]) {
      if i >= |a1| {
        assert MirroredEvent(a2[i - |a1|], b2[i - |a1|]);
      }
    }
  }

  /** The right-hand motions are the left-hand ones with A and D exchanged. */
  lemma MotionsAreMirrored()
    ensures MirroredTokens(HpbLeft, HpbRight)
    ensures MirroredTokens(MotionLeft, MotionRight)
  {
  }

  /** The motion played while D is held is the one played while A is held, mirrored. */
  lemma MotionIsMirrored(m: UserKey)
    requires IsMacro(m)
    ensures MirroredEvents(MotionEvents(m, true, false), MotionEvents(m, false, true))
  {
    MotionsAreMirrored();
    if m == Macro1 {
      assert MotionEvents(m, true, false) == [SendString(HpbLeft)];
      assert MotionEvents(m, false, true) == [SendString(HpbRight)];
      OneSendIsMirrored(HpbLeft, HpbRight);
    } else {
      assert MotionEvents(m, true, false) == [SendString(MotionLeft)];
      assert MotionEvents(m, false, true) == [SendString(MotionRight)];
      OneSendIsMirrored(MotionLeft, MotionRight);
    }
  }

  lemma OneSendIsMirrored(a: seq<Token>, b: seq<Token>)
    requires MirroredTokens(a, b)
    ensures MirroredEvents([SendString(a)], [SendString(b)])
  {
    assert MirroredEvent(SendString(a), SendString(b));
  }

  /** A SEND_STRING that names neither A nor D is its own mirror image. */
  lemma SendIsUnmirrored(ts: seq<Token>)
    requires forall j :: 0 <= j < |ts| ==> ts[j].Delay? || (ts[j].key != A && ts[j].key != D)
    ensures MirroredEvents([SendString(ts)], [SendString(ts)])
  {
    assert MirroredTokens(ts, ts);
  }

  /** Optional calls that are their own mirror image. */
  lemma WhenUnmirrored(b: bool, es: seq<Event>)
    requires MirroredEvents(es, es)
    ensures var r := if b then es else []; MirroredEvents(r, r)
  {
  }

  /** The attack part touches neither A nor D: it is its own mirror image. */
  lemma AttackIsUnmirrored(m: UserKey, down: bool, mods: bv8)
    requires IsMacro(m)
    ensures MirroredEvents(AttackEvents(m, down, mods), AttackEvents(m, down, mods))
  {
    match m {
      case Macro1 => TapAttackIsUnmirrored(Macro1, down, mods);
      case Macro2 => TapAttackIsUnmirrored(Macro2, down, mods);
      case Macro3 => Macro3AttackIsUnmirrored(down, mods);
      case Macro4 => SendIsUnmirrored([Press(J), Delay(18), Press(I), Delay(18), Release(J), Release(I)]);
    }
  }

  /** The attacks of KC_MCRO1 and KC_MCRO2: taps of J, I or L, and K, then S put back. */
  lemma TapAttackIsUnmirrored(m: UserKey, down: bool, mods: bv8)
    requires m == Macro1 || m == Macro2
    ensures MirroredEvents(AttackEvents(m, down, mods), AttackEvents(m, down, mods))
  {
    var shift := ShiftHeld(mods);
    var tapJ, tapK := [SendString(TapTokens(J))], [SendString(TapTokens(K))];
    var tapMid := [SendString(TapTokens(if m == Macro1 then I else L))];
    SendIsUnmirrored(TapTokens(J));
    SendIsUnmirrored(TapTokens(K));
    SendIsUnmirrored(TapTokens(if m == Macro1 then I else L));
    WhenUnmirrored(!shift, tapJ);
    WhenUnmirrored(shift, tapK);
    var a, c := if !shift then tapJ else [], if shift then tapK else [];
    MirroredEventsConcat(a, a, tapMid, tapMid);
    MirroredEventsConcat(a + tapMid, a + tapMid, c, c);
    if m == Macro2 {
      var pressS := [SendString([Press(S)])];
      SendIsUnmirrored([Press(S)]);
      WhenUnmirrored(down, pressS);
      var restoreDown := if down then pressS else [];
      MirroredEventsConcat(a + tapMid + c, a + tapMid + c, restoreDown, restoreDown);
    }
  }

  /** The attack of KC_MCRO3: J held down, K struck, both let go, then S put back. */
  lemma Macro3AttackIsUnmirrored(down: bool, mods: bv8)
    ensures MirroredEvents(AttackEvents(Macro3, down, mods), AttackEvents(Macro3, down, mods))
  {
    var shift := ShiftHeld(mods);
    var hold := [DelMods(MOD_MASK_SHIFT), SendString([Press(J), Delay(18)]), SetMods(mods)];
    var strike := [SendString([Press(K), Delay(18), Release(J), Release(K)])];
    var pressS := [SendString([Press(S)])];
    SendIsUnmirrored([Press(J), Delay(18)]);
    SendIsUnmirrored([Press(K), Delay(18), Release(J), Release(K)]);
    SendIsUnmirrored([Press(S)]);
    assert MirroredEvents(hold, hold);
    WhenUnmirrored(!shift, hold);
    WhenUnmirrored(down, pressS);
    var a, restoreDown := if !shift then hold else [], if down then pressS else [];
    MirroredEventsConcat(a, a, strike, strike);
    MirroredEventsConcat(a + strike, a + strike, restoreDown, restoreDown);
  }

  /** Holding D instead of A plays the same macro with A and D exchanged. */
  lemma MacroIsSymmetric(m: UserKey, down: bool, mods: bv8)
    requires IsMacro(m)
    ensures MirroredEvents(MacroEvents(m, true, true, false, down, mods), MacroEvents(m, true, false, true, down, mods))
  {
    MotionIsMirrored(m);
    AttackIsUnmirrored(m, down, mods);
    var att := AttackEvents(m, down, mods);
    MirroredEventsConcat(MotionEvents(m, true, false), MotionEvents(m, false, true), att, att);
  }

  // ---- what the host sees held after a macro ----

  /** The keys the user physically holds among A, D and S. */
  function Physical(left: bool, right: bool, down: bool): set<QmkKey> {
    (if left then {A} else {}) + (if right then {D} else {}) + (if down then {S} else {})
  }

  lemma HeldAfterHpbLeft(held: set<QmkKey>)
    ensures HeldAfter(held, HpbLeft) == held - {S} + {A}
  {
    var first := [Release(A), Delay(18), Press(S), Delay(18), Press(A), Delay(18), Release(S), Delay(18)];
    var second := [Release(A), Delay(40), Press(S), Delay(18), Press(A), Delay(18), Release(S), Delay(18)];
    assert HpbLeft == first + second;
    HeldAfterConcat(held, first, second);
    ReplayIsHeldAfter(held, first);
    ReplayIsHeldAfter(HeldAfter(held, first), second);
  }

  lemma HeldAfterHpbRight(held: set<QmkKey>)
    ensures HeldAfter(held, HpbRight) == held - {S} + {D}
  {
    var first := [Release(D), Delay(18), Press(S), Delay(18), Press(D), Delay(18), Release(S), Delay(18)];
    var second := [Release(D), Delay(40), Press(S), Delay(18), Press(D), Delay(18), Release(S), Delay(18)];
    assert HpbRight == first + second;
    HeldAfterConcat(held, first, second);
    ReplayIsHeldAfter(held, first);
    ReplayIsHeldAfter(HeldAfter(held, first), second);
  }

  lemma HeldAfterMotionLeft(held: set<QmkKey>)
    ensures HeldAfter(held, MotionLeft) == held - {S, D} + {A}
  {
    ReplayIsHeldAfter(held, MotionLeft);
  }

  lemma HeldAfterMotionRight(held: set<QmkKey>)
    ensures HeldAfter(held, MotionRight) == held - {S, A} + {D}
  {
    ReplayIsHeldAfter(held, MotionRight);
  }

  lemma HeldAfterTap(held: set<QmkKey>, k: QmkKey)
    ensures HeldAfter(held, TapTokens(k)) == held - {k}
  {
    ReplayIsHeldAfter(held, TapTokens(k));
  }

  /** The keys held after the motion of a macro while A alone is held. */
  lemma HeldAfterMotionLeftOnly(held: set<QmkKey>, m: UserKey)
    requires IsMacro(m)
    ensures HeldAfterEvents(held, MotionEvents(m, true, false))
         == held - (if m == Macro1 then {S} else {S, D}) + {A}
  {
    var e := SendString(if m == Macro1 then HpbLeft else MotionLeft);
    assert MotionEvents(m, true, false) == [e];
    HeldAfterOneEvent(held, e);
    if m == Macro1 { HeldAfterHpbLeft(held); } else { HeldAfterMotionLeft(held); }
  }

  /** The keys held after the motion of a macro while D alone is held. */
  lemma HeldAfterMotionRightOnly(held: set<QmkKey>, m: UserKey)
    requires IsMacro(m)
    ensures HeldAfterEvents(held, MotionEvents(m, false, true))
         == held - (if m == Macro1 then {S} else {S, A}) + {D}
  {
    var e := SendString(if m == Macro1 then HpbRight else MotionRight);
    assert MotionEvents(m, false, true) == [e];
    HeldAfterOneEvent(held, e);
    if m == Macro1 { HeldAfterHpbRight(held); } else { HeldAfterMotionRight(held); }
  }

  /** The keys held after both motions of a macro, left first, while A and D are held. */
  lemma HeldAfterMotionBoth(held: set<QmkKey>, m: UserKey)
    requires IsMacro(m)
    ensures HeldAfterEvents(held, MotionEvents(m, true, true))
         == if m == Macro1 then held - {S} + {A, D} else held - {S, A} + {D}
  {
    assert MotionEvents(m, true, true) == MotionEvents(m, true, false) + MotionEvents(m, false, true);
    HeldAfterEventsConcat(held, MotionEvents(m, true, false), MotionEvents(m, false, true));
    HeldAfterMotionLeftOnly(held, m);
    HeldAfterMotionRightOnly(HeldAfterEvents(held, MotionEvents(m, true, false)), m);
  }

  /** The keys held after two SEND_STRING taps. */
  lemma HeldAfterTwoTaps(held: set<QmkKey>, k1: QmkKey, k2: QmkKey)
    ensures HeldAfterEvents(held, [SendString(TapTokens(k1)), SendString(TapTokens(k2))]) == held - {k1, k2}
  {
    var e1, e2 := SendString(TapTokens(k1)), SendString(TapTokens(k2));
    assert [e1, e2] == [e1] + [e2];
    HeldAfterEventsConcat(held, [e1], [e2]);
    HeldAfterOneEvent(held, e1);
    HeldAfterOneEvent(held - {k1}, e2);
    HeldAfterTap(held, k1);
    HeldAfterTap(held - {k1}, k2);
  }

  /** The attack keys J, I, K and L, which the macros tap and release. */
  const AttackKeys: set<QmkKey> := {J, I, K, L}

  lemma HeldAfterMacro1Attack(held: set<QmkKey>, down: bool, mods: bv8)
    requires held !! AttackKeys
    ensures HeldAfterEvents(held, AttackEvents(Macro1, down, mods)) == held
  {
    if ShiftHeld(mods) {
      assert AttackEvents(Macro1, down, mods) == [SendString(TapTokens(I)), SendString(TapTokens(K))];
      HeldAfterTwoTaps(held, I, K);
    } else {
      assert AttackEvents(Macro1, down, mods) == [SendString(TapTokens(J)), SendString(TapTokens(I))];
      HeldAfterTwoTaps(held, J, I);
    }
  }

  /** S pressed again at the end of KC_MCRO2 and KC_MCRO3 when it is held. */
  lemma HeldAfterRestoreDown(held: set<QmkKey>, down: bool)
    ensures HeldAfterEvents(held, if down then [SendString([Press(S)])] else []) == held + (if down then {S} else {})
  {
    if down {
      HeldAfterOneEvent(held, SendString([Press(S)]));
    }
  }

  lemma HeldAfterMacro2Attack(held: set<QmkKey>, down: bool, mods: bv8)
    requires held !! AttackKeys
    ensures HeldAfterEvents(held, AttackEvents(Macro2, down, mods)) == held + (if down then {S} else {})
  {
    var restoreDown := if down then [SendString([Press(S)])] else [];
    var taps := if ShiftHeld(mods) then [SendString(TapTokens(L)), SendString(TapTokens(K))]
                else [SendString(TapTokens(J)), SendString(TapTokens(L))];
    assert AttackEvents(Macro2, down, mods) == taps + restoreDown;
    HeldAfterEventsConcat(held, taps, restoreDown);
    if ShiftHeld(mods) { HeldAfterTwoTaps(held, L, K); } else { HeldAfterTwoTaps(held, J, L); }
    HeldAfterRestoreDown(HeldAfterEvents(held, taps), down);
  }

  lemma HeldAfterMacro3Attack(held: set<QmkKey>, down: bool, mods: bv8)
    requires held !! AttackKeys
    ensures HeldAfterEvents(held, AttackEvents(Macro3, down, mods)) == held + (if down then {S} else {})
  {
    var restoreDown := if down then [SendString([Press(S)])] else [];
    var release := SendString([Press(K), Delay(18), Release(J), Release(K)]);
    ReplayIsHeldAfter(held, release.tokens);
    ReplayIsHeldAfter(held + {J}, release.tokens);
    ReplayIsHeldAfter(held, [Press(J), Delay(18)]);
    if ShiftHeld(mods) {
      assert AttackEvents(Macro3, down, mods) == [release] + restoreDown;
      HeldAfterEventsConcat(held, [release], restoreDown);
      HeldAfterOneEvent(held, release);
    } else {
      var setup := [DelMods(MOD_MASK_SHIFT), SendString([Press(J), Delay(18)]), SetMods(mods)];
      assert AttackEvents(Macro3, down, mods) == setup + [release] + restoreDown;
      HeldAfterEventsConcat(held, setup, [release]);
      HeldAfterEventsConcat(held, setup + [release], restoreDown);
      assert setup == [DelMods(MOD_MASK_SHIFT)] + ([SendString([Press(J), Delay(18)])] + [SetMods(mods)]);
      HeldAfterEventsConcat(held, [DelMods(MOD_MASK_SHIFT)], [SendString([Press(J), Delay(18)])] + [SetMods(mods)]);
      HeldAfterEventsConcat(held, [SendString([Press(J), Delay(18)])], [SetMods(mods)]);
      HeldAfterOneEvent(held, DelMods(MOD_MASK_SHIFT));
      HeldAfterOneEvent(held, SendString([Press(J), Delay(18)]));
      HeldAfterOneEvent(held + {J}, SetMods(mods));
      HeldAfterOneEvent(held + {J}, release);
    }
    HeldAfterRestoreDown(held, down);
  }

  lemma HeldAfterMacro4Attack(held: set<QmkKey>, down: bool, mods: bv8)
    requires held !! AttackKeys
    ensures HeldAfterEvents(held, AttackEvents(Macro4, down, mods)) == held
  {
    var tokens := [Press(J), Delay(18), Press(I), Delay(18), Release(J), Release(I)];
    assert AttackEvents(Macro4, down, mods) == [SendString(tokens)];
    HeldAfterOneEvent(held, SendString(tokens));
    ReplayIsHeldAfter(held, tokens);
    assert J !in held && I !in held;
  }

  /** The keys held after the attack part of a macro, when no attack key was held before:
      every attack key is released again, and KC_MCRO2 and KC_MCRO3 press S again when it
      is held. */
  lemma HeldAfterAttackEvents(held: set<QmkKey>, m: UserKey, down: bool, mods: bv8)
    requires IsMacro(m)
    requires held !! AttackKeys
    ensures HeldAfterEvents(held, AttackEvents(m, down, mods))
         == held + (if down && (m == Macro2 || m == Macro3) then {S} else {})
  {
    match m
    case Macro1 => HeldAfterMacro1Attack(held, down, mods);
    case Macro2 => HeldAfterMacro2Attack(held, down, mods);
    case Macro3 => HeldAfterMacro3Attack(held, down, mods);
    case Macro4 => HeldAfterMacro4Attack(held, down, mods);
  }
}
