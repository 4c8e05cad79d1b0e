/** encoder_update_user of the keymap: what one click of the rotary encoder does.

    The modifiers held decide first, in a fixed order of priority; with none of them
    held, the highest active layer decides between the idle-timeout threshold (_FN1)
    and the volume (every other layer).
 */
module Encoder {
  import opened Keycodes
  import opened Framework
  import opened Timeout
  import opened Userspace

  /** What one encoder click runs: one of the encoder_action_* helpers, or timeout_update_threshold. */
  datatype EncoderStep = RunHelper(helper: EncoderHelper) | AdjustTimeout

  /** The four modifiers the encoder looks at. */
  const ENCODER_MODS: bv8 := MOD_LSFT | MOD_RSFT | MOD_RCTL | MOD_RALT

  /** The choice encoder_update_user makes, from get_mods() and get_highest_layer(layer_state). */
  function EncoderChoice(mods: bv8, highest: nat): (r: EncoderStep)
    ensures r == RunHelper(LayerChange) <==> mods & MOD_LSFT != 0
    ensures r == RunHelper(RgbSaturation) <==> mods & MOD_LSFT == 0 && mods & MOD_RSFT != 0
    ensures r == RunHelper(RgbHue) <==> mods & (MOD_LSFT | MOD_RSFT) == 0 && mods & MOD_RCTL != 0
    ensures r == RunHelper(RgbBrightness) <==> mods & (MOD_LSFT | MOD_RSFT | MOD_RCTL) == 0 && mods & MOD_RALT != 0
    ensures r == AdjustTimeout <==> mods & ENCODER_MODS == 0 && highest == FN1
    ensures r == RunHelper(Volume) <==> mods & ENCODER_MODS == 0 && highest != FN1
  {
    if mods & MOD_LSFT != 0 then RunHelper(LayerChange)
    else if mods & MOD_RSFT != 0 then RunHelper(RgbSaturation)
    else if mods & MOD_RCTL != 0 then RunHelper(RgbHue)
    else if mods & MOD_RALT != 0 then RunHelper(RgbBrightness)
    else if highest == FN1 then AdjustTimeout
    else RunHelper(Volume)
  }

  /** Left Ctrl, left Alt and both GUI keys make no difference to the encoder. */
  lemma EncoderIgnoresOtherMods(mods1: bv8, mods2: bv8, highest: nat)
    requires mods1 & ENCODER_MODS == mods2 & ENCODER_MODS
    ensures EncoderChoice(mods1, highest) == EncoderChoice(mods2, highest)
  {
  }

  /** encoder_update_user: `mods` is get_mods() and `layers` the layer state at the time of the
      click. Exactly one action runs, and the result is always false (the keyboard's default
      encoder handling is skipped). */
  method EncoderUpdateUser(u: Userspace, index: uint8, clockwise: bool, mods: bv8, layers: LayerState) returns (r: bool)
    requires u.Valid()
    modifies u`timeoutThreshold, u`calls
    ensures u.Valid() && !r
    ensures var step := EncoderChoice(mods, HighestLayer(layers));
      && (step == AdjustTimeout ==> u.timeoutThreshold == UpdateThreshold(old(u.timeoutThreshold), clockwise) && u.calls == old(u.calls))
      && (step.RunHelper? ==> u.timeoutThreshold == old(u.timeoutThreshold) && u.calls == old(u.calls) + [EncoderAction(step.helper, clockwise)])
  {
    var modsState := mods;
    if modsState & MOD_LSFT != 0 {
      u.calls := u.calls + [EncoderAction(LayerChange, clockwise)];
    } else if modsState & MOD_RSFT != 0 {
      u.calls := u.calls + [EncoderAction(RgbSaturation, clockwise)];
    } else if modsState & MOD_RCTL != 0 {
      u.calls := u.calls + [EncoderAction(RgbHue, clockwise)];
    } else if modsState & MOD_RALT != 0 {
      u.calls := u.calls + [EncoderAction(RgbBrightness, clockwise)];
    } else if HighestLayer(layers) == FN1 {
      u.TimeoutUpdateThreshold(clockwise);
    } else {
      u.calls := u.calls + [EncoderAction(Volume, clockwise)];
    }
    return false;
  }
}
