/** What the host sees held after a macro key, composed from the motion and attack lemmas. */
module MacroEffects {
  import opened Keycodes
  import opened Framework
  import opened Macros

  /** A press with a direction held is the motion followed by the attack. */
  lemma HeldAfterMacroPress(held: set<QmkKey>, m: UserKey, left: bool, right: bool, down: bool, mods: bv8, mid: set<QmkKey>, out: set<QmkKey>)
    requires IsMacro(m) && (left || right)
    requires HeldAfterEvents(held, MotionEvents(m, left, right)) == mid
    requires HeldAfterEvents(mid, AttackEvents(m, down, mods)) == out
    ensures HeldAfterEvents(held, MacroEvents(m, true, left, right, down, mods)) == out
  {
    assert MacroEvents(m, true, left, right, down, mods) == MotionEvents(m, left, right) + AttackEvents(m, down, mods);
    HeldAfterEventsConcat(held, MotionEvents(m, left, right), AttackEvents(m, down, mods));
  }

  /** The keys S is pressed again for at the end of a macro. */
  function RestoredDown(m: UserKey, down: bool): set<QmkKey> {
    if down && (m == Macro2 || m == Macro3) then {S} else {}
  }

  /** The keys held after a macro press while A alone is held. The flags are parameters so
      that the motion constants are not unfolded token by token. */
  lemma {:induction false} HeldAfterMacroLeftOnly(held: set<QmkKey>, m: UserKey, left: bool, right: bool, down: bool, mods: bv8)
    requires IsMacro(m) && left && !right
    requires held !! AttackKeys
    ensures HeldAfterEvents(held, MacroEvents(m, true, left, right, down, mods))
         == held - (if m == Macro1 then {S} else {S, D}) + {A} + RestoredDown(m, down)
  {
    var mid := held - (if m == Macro1 then {S} else {S, D}) + {A};
    HeldAfterMotionLeftOnly(held, m);
    HeldAfterAttackEvents(mid, m, down, mods);
    HeldAfterMacroPress(held, m, left, right, down, mods, mid, mid + RestoredDown(m, down));
  }

  /** The keys held after a macro press while D alone is held. */
  lemma {:induction false} HeldAfterMacroRightOnly(held: set<QmkKey>, m: UserKey, left: bool, right: bool, down: bool, mods: bv8)
    requires IsMacro(m) && !left && right
    requires held !! AttackKeys
    ensures HeldAfterEvents(held, MacroEvents(m, true, left, right, down, mods))
         == held - (if m == Macro1 then {S} else {S, A}) + {D} + RestoredDown(m, down)
  {
    var mid := held - (if m == Macro1 then {S} else {S, A}) + {D};
    HeldAfterMotionRightOnly(held, m);
    HeldAfterAttackEvents(mid, m, down, mods);
    HeldAfterMacroPress(held, m, left, right, down, mods, mid, mid + RestoredDown(m, down));
  }

  /** The keys held after a macro press while A and D are both held. */
  lemma {:induction false} HeldAfterMacroBoth(held: set<QmkKey>, m: UserKey, left: bool, right: bool, down: bool, mods: bv8)
    requires IsMacro(m) && left && right
    requires held !! AttackKeys
    ensures HeldAfterEvents(held, MacroEvents(m, true, left, right, down, mods))
         == (if m == Macro1 then held - {S} + {A, D} else held - {S, A} + {D}) + RestoredDown(m, down)
  {
    var mid := if m == Macro1 then held - {S} + {A, D} else held - {S, A} + {D};
    HeldAfterMotionBoth(held, m);
    HeldAfterAttackEvents(mid, m, down, mods);
    HeldAfterMacroPress(held, m, left, right, down, mods, mid, mid + RestoredDown(m, down));
  }

  /** With one direction held, KC_MCRO2 and KC_MCRO3 leave the host with exactly the keys
      the user holds among A, D and S, and so do KC_MCRO1 and KC_MCRO4 when S is not held. */
  lemma {:induction false} MacroRestoresHeldKeys(m: UserKey, left: bool, right: bool, down: bool, mods: bv8)
    requires IsMacro(m)
    requires left != right
    requires m == Macro2 || m == Macro3 || !down
    ensures HeldAfterEvents(Physical(left, right, down), MacroEvents(m, true, left, right, down, mods)) == Physical(left, right, down)
  {
    var held := Physical(left, right, down);
    if left {
      HeldAfterMacroLeftOnly(held, m, left, right, down, mods);
    } else {
      HeldAfterMacroRightOnly(held, m, left, right, down, mods);
    }
  }

  /** KC_MCRO1 and KC_MCRO4 release S and never press it again: while S is held, the host
      sees it released after the macro although the user still holds it. */
  lemma {:induction false} MacroDropsHeldDown(m: UserKey, left: bool, right: bool, mods: bv8)
    requires m == Macro1 || m == Macro4
    requires left || right
    ensures S !in HeldAfterEvents(Physical(left, right, true), MacroEvents(m, true, left, right, true, mods))
  {
    var held := Physical(left, right, true);
    if left && right {
      HeldAfterMacroBoth(held, m, left, right, true, mods);
    } else if left {
      HeldAfterMacroLeftOnly(held, m, left, right, true, mods);
    } else {
      HeldAfterMacroRightOnly(held, m, left, right, true, mods);
    }
  }

  /** With both directions held, the two motions of KC_MCRO2..4 run one after the other
      and the host ends with D held and A released, although the user holds both. */
  lemma {:induction false} MacroBothDirectionsDropLeft(m: UserKey, left: bool, right: bool, down: bool, mods: bv8)
    requires m == Macro2 || m == Macro3 || m == Macro4
    requires left && right
    ensures var after := HeldAfterEvents(Physical(left, right, down), MacroEvents(m, true, left, right, down, mods));
      A !in after && D in after
  {
    HeldAfterMacroBoth(Physical(left, right, down), m, left, right, down, mods);
  }
}
