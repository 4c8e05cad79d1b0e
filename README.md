# arinl QMK userspace for the GMMK Pro, modelled in Dafny

This project models the user code of a QMK keymap for the GMMK Pro (ANSI): the
`arinl` userspace and the keymap built on it, with the idle timeout
(`IDLE_TIMEOUT_ENABLE`) and the RGB matrix (`RGB_MATRIX_ENABLE`) switched on. What is
modelled:

- **The idle timeout.** A threshold in minutes (0 switches it off, at most 140, 4 by
  default), a count of idle minutes and the 16-bit clock reading at which the current
  minute started. The tick on every matrix scan switches the RGB matrix off once the
  count reaches the threshold.
- **The key dispatcher `process_record_user`.**
  - It tracks whether A, D and S are held.
  - It toggles the Win-key lock and night mode.
  - It moves the timeout threshold.
  - It plays the four macro keys as fixed SEND_STRING streams chosen by the held keys
    and Shift.
  - It wakes the RGB and restarts the idle count on every other key press.
- **The Num Lock latch of the numpad layer `_FN2`** and `activate_numlock`.
- **The rotary encoder's priority choice** between layer change, saturation, hue,
  brightness, the timeout threshold and the volume.
- **The RGB indicator painter.** It is a series of colour writes into the frame's buffer,
  in source order, so the last write to an LED decides its colour. It includes the mapping
  from the timeout threshold to function-row and number-row LEDs.
- **The five keymap tables** and how `_FN2` (numpad) and `_FN4` (macro keys) relate to
  `_BASE`.

The C statics of `arinl.c`, together with the framework's `keymap_config.no_gui`, are the
fields of class `Userspace.Userspace`. Each callback is a method that updates those fields
in place. Framework calls are appended, in order, to a `calls` log of `Event`s: SEND_STRING
streams, register/unregister/tap, `set_mods`/`del_mods`, RGB enable/disable and the
`encoder_action_*` helpers. Each method's contract ties the new fields and the new calls to a
pure function of the old state (`ProcessRecord`, `Tick`, `NumpadEdge`, `Painted`, ...), and
the lemmas state what the keymap promises about those functions. Framework reads are
parameters:
- `now`: the 16-bit millisecond clock;
- `mods`: `get_mods()`;
- `layers`: the layer state;
- `host`: `host_keyboard_led_state()`;
- `keymapHook`: the result of `process_record_keymap`.

The LED buffer is an `array` in class `Indicators.LedBuffer`, written by `SetColor`. The
painter's methods are proved equal to `ApplyWrites` of the write lists the source makes.

Files:
- `keycodes.dfy`: keycodes and layer numbers.
- `framework.dfy`: framework types, `timer_elapsed`, `get_highest_layer`, the event log and
  the host's view of held keys.
- `timeout.dfy`: the idle timeout.
- `macros.dfy` and `macro_effects.dfy`: the macro streams, their symmetry and what they leave
  held.
- `userspace.dfy`: the dispatcher, the Num Lock latch and class `Userspace`.
- `layers.dfy`: the keymap tables.
- `encoder.dfy`: the encoder.
- `indicators.dfy`: the painter.

## Model

| member | source | states |
|---|---|---|
| Framework.TimerElapsed | users/arinl/arinl.c:60 | the elapsed time on the 16-bit clock is the r with start + r = now modulo 65536 |
| Framework.HighestLayer | keyboards/gmmk/pro/rev1/ansi/keymaps/arinl/keymap.c:107 | the result is an active layer with no active layer above it, or 0 when no layer is active |
| Framework.IsLayerOn | users/arinl/arinl.c:248 | IS_LAYER_ON_STATE for every layer above 0: the layer is on exactly when its bit is set in the 32-bit layer state (the only layer asked about is _FN2) |
| Timeout.UpdateThreshold | users/arinl/arinl.c:53-56 | a threshold in [0, 140] stays there; raising adds at most 1, lowering takes at most 1; it is unchanged exactly when raising at 140 or lowering at 0 |
| Timeout.UpdateThresholdUpDown | users/arinl/arinl.c:53-56 | below 140, raising then lowering gives the threshold back |
| Timeout.UpdateThresholdDownUp | users/arinl/arinl.c:53-56 | in (0, 140], lowering then raising gives the threshold back |
| Timeout.Reset | users/arinl/arinl.c:48-51 | the idle count is 0, the minute starts now, and the threshold is unchanged |
| Timeout.Tick | users/arinl/arinl.c:58-70 | a tick never changes the threshold; with threshold 0 it changes nothing and never switches the RGB off |
| Timeout.TickWithPositiveThreshold | users/arinl/arinl.c:59-67 | with a positive threshold, the count advances by one (16-bit) and the minute restarts exactly when 60000 ms have elapsed on the 16-bit clock; the RGB is switched off exactly when the new count has reached the threshold |
| Timeout.TickCounterAtMostOne | users/arinl/arinl.c:59-63 | below 65535 the count grows by at most one per tick |
| Timeout.TickAll | users/arinl/arinl.c:58-70 | a series of ticks keeps the threshold |
| Timeout.TicksBeforeThresholdKeepRgb | users/arinl/arinl.c:58-70 | fewer ticks than the minutes still missing never switch the RGB off, and the count grows by at most the number of ticks |
| Timeout.CountStaysAtThreshold | users/arinl/arinl.c:59-63 | once the count has reached a positive threshold, a series of ticks keeps it at or above the threshold and raises it by at most one per tick, while the 16-bit count does not wrap |
| Timeout.TicksAfterThresholdDisableRgb | users/arinl/arinl.c:58-70 | once the count has reached a positive threshold, every later tick calls rgb_matrix_disable_noeeprom, and the count stays at or above the threshold |
| Macros.MacroFallback | users/arinl/arinl.c:121-209 | with no direction held, a press of a macro key registers only its fallback key (comma, N, M, U); a release only unregisters it |
| Macros.MotionEvents | users/arinl/arinl.c:123-129 | one motion SEND_STRING per held direction (A first, then D), and none of them enables the RGB |
| Macros.AttackEvents | users/arinl/arinl.c:130-204 | every macro makes at least one attack call and none enables the RGB; the last call presses S again exactly for KC_MCRO2 and KC_MCRO3 while S is held |
| Macros.MacroEvents | users/arinl/arinl.c:121-209 | a macro key always makes a call and never enables the RGB; it makes a single call exactly when it falls back (a release, or a press with no direction held) |
| Macros.MacroPressIsMotionThenAttack | users/arinl/arinl.c:122-204 | a press with a direction held is the motion followed by the attack |
| Macros.MacroStreamDependsOnShiftOnly | users/arinl/arinl.c:143-209 | with a direction held, the calls of KC_MCRO1, 2 and 4 depend on the modifiers only through Shift |
| Macros.MotionsAreMirrored | users/arinl/arinl.c:125-150 | the D-held motions are the A-held motions with A and D exchanged, token by token |
| Macros.MotionIsMirrored | users/arinl/arinl.c:121-209 | for each macro, the motion played with D held mirrors the one played with A held |
| Macros.AttackIsUnmirrored | users/arinl/arinl.c:130-204 | the attack part of every macro touches neither A nor D |
| Macros.TapAttackIsUnmirrored | users/arinl/arinl.c:130-161 | the attacks of KC_MCRO1 and KC_MCRO2 touch neither A nor D |
| Macros.Macro3AttackIsUnmirrored | users/arinl/arinl.c:177-185 | the attack of KC_MCRO3 touches neither A nor D |
| Macros.MacroIsSymmetric | users/arinl/arinl.c:121-209 | holding D instead of A plays the same macro with A and D exchanged, call by call |
| Macros.HeldAfterHpbLeft | users/arinl/arinl.c:125 | the hpb motion with A held leaves A held and S released |
| Macros.HeldAfterHpbRight | users/arinl/arinl.c:128 | the hpb motion with D held leaves D held and S released |
| Macros.HeldAfterMotionLeft | users/arinl/arinl.c:147 | the shared motion with A held leaves A held and S and D released |
| Macros.HeldAfterMotionRight | users/arinl/arinl.c:150 | the shared motion with D held leaves D held and S and A released |
| Macros.HeldAfterTap | users/arinl/arinl.c:131 | a tapped attack key ends released |
| Macros.HeldAfterMotionLeftOnly | users/arinl/arinl.c:123-126 | with A held, the motion leaves A held and S released, and every macro but KC_MCRO1 also releases D |
| Macros.HeldAfterMotionRightOnly | users/arinl/arinl.c:127-129 | with D held, the motion leaves D held and S released, and every macro but KC_MCRO1 also releases A |
| Macros.HeldAfterMotionBoth | users/arinl/arinl.c:123-129 | with A and D held, the two motions leave S released; KC_MCRO1 leaves both directions held, the others only D |
| Macros.HeldAfterTwoTaps | users/arinl/arinl.c:130-135 | two tapped keys both end released |
| Macros.HeldAfterMacro1Attack | users/arinl/arinl.c:130-136 | the hpb attack leaves the held keys as they were |
| Macros.HeldAfterRestoreDown | users/arinl/arinl.c:159-161 | S is held again after the restore when it is physically held |
| Macros.HeldAfterMacro2Attack | users/arinl/arinl.c:152-161 | the giganter attack releases its keys and presses S again when it is held |
| Macros.HeldAfterMacro3Attack | users/arinl/arinl.c:177-185 | the buster attack releases J and K and presses S again when it is held |
| Macros.HeldAfterMacro4Attack | users/arinl/arinl.c:202-204 | the flick attack leaves the held keys as they were |
| Macros.HeldAfterAttackEvents | users/arinl/arinl.c:130-204 | every attack releases its keys, and only KC_MCRO2 and KC_MCRO3 press S again |
| MacroEffects.HeldAfterMacroPress | users/arinl/arinl.c:122-204 | a macro press acts on the host as its motion followed by its attack |
| MacroEffects.HeldAfterMacroLeftOnly | users/arinl/arinl.c:121-209 | with A alone held, a macro press leaves A held, S released unless KC_MCRO2/3 restore it, and D released for KC_MCRO2-4 |
| MacroEffects.HeldAfterMacroRightOnly | users/arinl/arinl.c:121-209 | with D alone held, a macro press leaves D held, S released unless KC_MCRO2/3 restore it, and A released for KC_MCRO2-4 |
| MacroEffects.HeldAfterMacroBoth | users/arinl/arinl.c:121-209 | with A and D held, a macro press releases S unless KC_MCRO2/3 restore it, and KC_MCRO2-4 release A |
| MacroEffects.MacroRestoresHeldKeys | users/arinl/arinl.c:121-209 | with one direction held, the host ends with exactly the keys the user holds among A, D and S (for KC_MCRO1 and 4 only when S is not held) |
| MacroEffects.MacroDropsHeldDown | users/arinl/arinl.c:121-209 | KC_MCRO1 and KC_MCRO4 leave S released on the host although the user holds it |
| MacroEffects.MacroBothDirectionsDropLeft | users/arinl/arinl.c:143-209 | with A and D both held, KC_MCRO2 to 4 leave A released and D held on the host |
| Userspace.Initial | users/arinl/arinl.c:24-94 | at start night mode is off, the threshold is 4, the count is 0, no direction is held and the latch is off |
| Userspace.ActivateNightmode | users/arinl/arinl.c:27-31 | the flag ends equal to the request, so the call is idempotent |
| Userspace.TrackDirection | users/arinl/arinl.c:111-119 | A, D and S set their own flag to the event and change nothing else |
| Userspace.PressSetting | users/arinl/arinl.c:105-228 | a press of KC_WINLCK toggles no_gui, of RGB_NITE toggles night mode, and of RGB_TOI/RGB_TOD changes only the threshold |
| Userspace.KeyState | users/arinl/arinl.c:103-241 | no key event changes mod_state or the latch, or takes the threshold out of [0, 140] |
| Userspace.KeyEvents | users/arinl/arinl.c:103-241 | a key event enables the RGB exactly when it is a press of a key without a case of its own |
| Userspace.ProcessRecord | users/arinl/arinl.c:96-243 | the result is the keymap hook's, mod_state becomes the modifiers read on entry, the latch is untouched, and the threshold stays in [0, 140]; when the hook declines, nothing else changes and nothing is called |
| Userspace.KeymapHookDecides | users/arinl/arinl.c:97-100 | process_record_user returns false exactly when the keymap hook does, and then only mod_state changes and nothing is called |
| Userspace.DefaultKeyWakes | users/arinl/arinl.c:231-240 | a press of any other key enables the RGB and restarts the idle count, keeping the threshold and every other state; its release changes nothing |
| Userspace.DispatchedKeysKeepIdleCount | users/arinl/arinl.c:103-229 | A, D, S, the macro keys and the setting keys never touch the idle count or timer and never enable the RGB |
| Userspace.MacroNeverWakes | users/arinl/arinl.c:121-209 | no macro enables the RGB |
| Userspace.DirectionKeysTrackHeld | users/arinl/arinl.c:111-119 | A, D and S only record whether they are held and call nothing |
| Userspace.TogglesOnPress | users/arinl/arinl.c:105-228 | KC_WINLCK and RGB_NITE toggle their flag on press; a release only unregisters the keycode; two presses restore the flag |
| Userspace.TimeoutKeysAdjustThreshold | users/arinl/arinl.c:212-221 | RGB_TOI/RGB_TOD move the threshold by a saturating step on press and only unregister the keycode on release |
| Userspace.MacroKeysOnlyEmit | users/arinl/arinl.c:121-209 | a macro key changes no state of its own and makes exactly the macro's calls |
| Userspace.NumlockTaps | users/arinl/arinl.c:260-264 | Num Lock is tapped once exactly when the host's state differs from the request, and nothing else is called |
| Userspace.ActivateNumlockReachesRequest | users/arinl/arinl.c:260-264 | after activate_numlock the host's Num Lock is the requested one |
| Userspace.NumpadEdge | users/arinl/arinl.c:246-257 | the latch ends equal to _FN2's membership; Num Lock is driven only on a change, towards the new membership |
| Userspace.NumpadEdgeDrivesNumLock | users/arinl/arinl.c:248-255 | entering _FN2 leaves the host with Num Lock on, and leaving it with Num Lock off |
| Userspace.NumpadEdgeIsIdempotent | users/arinl/arinl.c:246-257 | a second call with the same layer state calls nothing |
| Userspace.Userspace.constructor | users/arinl/arinl.c:40-42 | the statics start as Initial, with no call made |
| Userspace.Userspace.ActivateRgbNightmode | users/arinl/arinl.c:27-31 | the flag becomes ActivateNightmode of the old flag, which is the request |
| Userspace.Userspace.GetRgbNightmode | users/arinl/arinl.c:33-35 | the flag read is the night-mode flag of the userspace state |
| Userspace.Userspace.GetTimeoutThreshold | users/arinl/arinl.c:44-46 | the threshold read is at most 140 |
| Userspace.Userspace.TimeoutResetTimer | users/arinl/arinl.c:48-51 | the timeout state becomes Reset of the old one |
| Userspace.Userspace.TimeoutUpdateThreshold | users/arinl/arinl.c:53-56 | the threshold becomes UpdateThreshold of the old one and stays in [0, 140] |
| Userspace.Userspace.TimeoutTickTimer | users/arinl/arinl.c:58-70 | the timeout state becomes Tick's, and rgb_matrix_disable_noeeprom is called exactly when Tick says so |
| Userspace.Userspace.MatrixScanUser | users/arinl/arinl.c:77-82 | a matrix scan is one idle tick |
| Userspace.Userspace.PlayMotion | users/arinl/arinl.c:123-129 | the motion calls are MotionEvents of the held flags |
| Userspace.Userspace.PlayAttack | users/arinl/arinl.c:130-204 | the attack calls are AttackEvents of the macro, S's flag and mod_state |
| Userspace.Userspace.PlayHpbAttack | users/arinl/arinl.c:130-136 | the KC_MCRO1 attack calls |
| Userspace.Userspace.PlayGiganterAttack | users/arinl/arinl.c:152-161 | the KC_MCRO2 attack calls |
| Userspace.Userspace.PlayBusterAttack | users/arinl/arinl.c:177-185 | the KC_MCRO3 attack calls |
| Userspace.Userspace.PlayFlickAttack | users/arinl/arinl.c:202-204 | the KC_MCRO4 attack calls |
| Userspace.Userspace.PlayMacro | users/arinl/arinl.c:122-204 | a macro press with a direction held makes MacroEvents' calls |
| Userspace.Userspace.TrackDirectionKey | users/arinl/arinl.c:111-119 | the statics become TrackDirection of the old ones |
| Userspace.Userspace.MacroKey | users/arinl/arinl.c:121-209 | a macro key event makes MacroEvents' calls and changes no static |
| Userspace.Userspace.SettingKey | users/arinl/arinl.c:105-228 | a press applies PressSetting; a release only unregisters the keycode |
| Userspace.Userspace.ProcessRecordUser | users/arinl/arinl.c:96-243 | the new statics, the calls made and the result are those of ProcessRecord, and the threshold stays in [0, 140] |
| Userspace.Userspace.DispatchKey | users/arinl/arinl.c:103-241 | the new statics are KeyState's and the calls KeyEvents' |
| Userspace.Userspace.ActivateNumlock | users/arinl/arinl.c:260-264 | the calls made are NumlockTaps of the host state and the request |
| Userspace.Userspace.LayerStateSetUser | users/arinl/arinl.c:246-257 | the layer state is returned unchanged; the latch and the calls follow NumpadEdge |
| Userspace.Userspace.KeyboardPostInitKeymap | keyboards/gmmk/pro/rev1/ansi/keymaps/arinl/keymap.c:245-250 | night mode is off after start-up |
| Userspace.Userspace.KeyboardPostInitUser | users/arinl/arinl.c:269-277 | night mode is off, the idle minute starts now, and no call is made |
| Layers.KeymapsHaveLayoutShape | keyboards/gmmk/pro/rev1/ansi/keymaps/arinl/keymap.c:29-92 | there are five layers in layer order, each with rows of 15, 15, 15, 14, 14 and 10 keys |
| Layers.Fn2IsNumpadOverlay | keyboards/gmmk/pro/rev1/ansi/keymaps/arinl/keymap.c:66-73 | every key of _FN2 is NumpadKey of the _BASE key under it: keypad 0-9 on 7-9, U-O, J-L and M, keypad minus and plus on - and =, transparent elsewhere |
| Layers.Fn4IsMacroOverlay | keyboards/gmmk/pro/rev1/ansi/keymaps/arinl/keymap.c:84-91 | every key of _FN4 is MacroKeyOver of the _BASE key under it |
| Layers.MacroKeyOverIsFallbackInverse | keyboards/gmmk/pro/rev1/ansi/keymaps/arinl/keymap.c:87-89 | MacroKeyOver puts each macro key exactly over its fallback key and nowhere else |
| Layers.MacrosSitOnTheirFallbacks | keyboards/gmmk/pro/rev1/ansi/keymaps/arinl/keymap.c:84-91 | on _FN4 every macro key sits where _BASE has its fallback key, every macro key appears, and every other key is transparent |
| Encoder.EncoderChoice | keyboards/gmmk/pro/rev1/ansi/keymaps/arinl/keymap.c:96-119 | the priority LShift, RShift, RCtrl, RAlt, then the timeout on _FN1 and the volume elsewhere, each as an if-and-only-if |
| Encoder.EncoderIgnoresOtherMods | keyboards/gmmk/pro/rev1/ansi/keymaps/arinl/keymap.c:97-105 | LCtrl, LAlt and both GUI keys make no difference to the choice |
| Encoder.EncoderUpdateUser | keyboards/gmmk/pro/rev1/ansi/keymaps/arinl/keymap.c:96-119 | exactly the chosen action runs (one helper call, or one threshold step), and the result is false |
| Indicators.LastWriteWins | keyboards/gmmk/pro/rev1/ansi/keymaps/arinl/keymap.c:125-242 | an LED's colour after a series of writes is that of the last write to it, or its old colour when none writes it |
| Indicators.UntouchedLedKeepsColor | keyboards/gmmk/pro/rev1/ansi/keymaps/arinl/keymap.c:125-242 | writes that miss an LED leave it as it was |
| Indicators.AllOf | keyboards/gmmk/pro/rev1/ansi/keymaps/arinl/keymap.c:127 | rgb_matrix_set_color_all gives every LED the colour |
| Indicators.TimeoutIndicator | keyboards/gmmk/pro/rev1/ansi/keymaps/arinl/keymap.c:192-201 | one to three LEDs are lit; function-row positions are at most 13 and number-row positions at most 12 |
| Indicators.TimeoutIndicatorReadsBack | keyboards/gmmk/pro/rev1/ansi/keymaps/arinl/keymap.c:191-201 | reading the indicator back gives every threshold below 140, and 140 for all larger ones |
| Indicators.TimeoutIndicatorIsInjective | keyboards/gmmk/pro/rev1/ansi/keymaps/arinl/keymap.c:192-201 | two thresholds below 140 never share an indicator |
| Indicators.TimeoutWrites | keyboards/gmmk/pro/rev1/ansi/keymaps/arinl/keymap.c:192-201 | the CYAN writes are one per indicator position, in order, at that position's LED |
| Indicators.NumpadWrites | keyboards/gmmk/pro/rev1/ansi/keymaps/arinl/keymap.c:211-213 | one OFFBLUE write per entry of LED_LIST_NUMPAD, in list order |
| Indicators.Painted | keyboards/gmmk/pro/rev1/ansi/keymaps/arinl/keymap.c:127-240 | the painted frame has as many LEDs as the frame before |
| Indicators.NightModeShowsOnlyIndicators | keyboards/gmmk/pro/rev1/ansi/keymaps/arinl/keymap.c:127-240 | in night mode each LED has its last indicator write's colour, and is off when no indicator writes it |
| Indicators.BaseAddsNoLayerWrites | keyboards/gmmk/pro/rev1/ansi/keymaps/arinl/keymap.c:162-240 | on _BASE only the lock indicators change the frame |
| Indicators.HitThenMiss | keyboards/gmmk/pro/rev1/ansi/keymaps/arinl/keymap.c:125-242 | a write followed only by writes that miss its LED decides that LED's colour |
| Indicators.OneColorHit | keyboards/gmmk/pro/rev1/ansi/keymaps/arinl/keymap.c:211-213 | any LED written by a run of one-colour writes ends in that colour |
| Indicators.SideMiss | keyboards/gmmk/pro/rev1/ansi/keymaps/arinl/keymap.c:204-235 | a side block leaves every other LED as it was |
| Indicators.SideHit | keyboards/gmmk/pro/rev1/ansi/keymaps/arinl/keymap.c:204-235 | each LED of a side block ends in the block's colour |
| Indicators.CyanThenMiss | keyboards/gmmk/pro/rev1/ansi/keymaps/arinl/keymap.c:192-207 | an LED that the side LEDs miss ends CYAN exactly when the timeout indicator lights it, and keeps its earlier colour otherwise |
| Indicators.LastWriteOfOneColor | keyboards/gmmk/pro/rev1/ansi/keymaps/arinl/keymap.c:211-213 | in one-colour writes, an LED's last write has that colour exactly when some write hits it |
| Indicators.AfterFn1Keys | keyboards/gmmk/pro/rev1/ansi/keymaps/arinl/keymap.c:163-208 | on _FN1 a non-side LED ends CYAN if the timeout indicator lights it, and otherwise keeps the colour the _FN1 key writes left |
| Indicators.F11OnFn1 | keyboards/gmmk/pro/rev1/ansi/keymaps/arinl/keymap.c:131-208 | on _FN1 LED_F11 ends YELLOW2 even when Scroll Lock painted it red, unless the timeout indicator lights it CYAN |
| Indicators.Fn1KeysAfterF11 | keyboards/gmmk/pro/rev1/ansi/keymaps/arinl/keymap.c:170-189 | no _FN1 key write after LED_F11's touches LED_F11 |
| Indicators.Fn1KeysAfterN | keyboards/gmmk/pro/rev1/ansi/keymaps/arinl/keymap.c:178-189 | no _FN1 key write after LED_N's touches LED_N |
| Indicators.SideLedsAreNot | keyboards/gmmk/pro/rev1/ansi/keymaps/arinl/keymap.c:204-207 | a named LED outside the _FN1 side block is not one of its LEDs |
| Indicators.NOnFn1 | keyboards/gmmk/pro/rev1/ansi/keymaps/arinl/keymap.c:142-208 | on _FN1 LED_N ends ORANGE2 whatever Num Lock is, unless the timeout indicator lights it CYAN |
| Indicators.NumpadOnFn2 | keyboards/gmmk/pro/rev1/ansi/keymaps/arinl/keymap.c:210-220 | on _FN2 every LED_LIST_NUMPAD entry that is not a side LED ends OFFBLUE |
| Indicators.SideOnFn2 | keyboards/gmmk/pro/rev1/ansi/keymaps/arinl/keymap.c:214-218 | on _FN2 the side LEDs L5, L6, R5 and R6 end PURPLE2 |
| Indicators.LedBuffer.SetColor | keyboards/gmmk/pro/rev1/ansi/keymaps/arinl/keymap.c:132 | the buffer becomes ApplyWrite of the old one; an index outside the buffer changes nothing |
| Indicators.LedBuffer.SetColorAll | keyboards/gmmk/pro/rev1/ansi/keymaps/arinl/keymap.c:127 | every LED of the buffer gets the colour |
| Indicators.PaintLocks | keyboards/gmmk/pro/rev1/ansi/keymaps/arinl/keymap.c:129-159 | the buffer becomes ApplyWrites of the lock and Win-lock writes |
| Indicators.PaintFn1 | keyboards/gmmk/pro/rev1/ansi/keymaps/arinl/keymap.c:163-208 | the buffer becomes ApplyWrites of the whole _FN1 block |
| Indicators.PaintFn1Upper | keyboards/gmmk/pro/rev1/ansi/keymaps/arinl/keymap.c:164-176 | the buffer becomes ApplyWrites of the first ten _FN1 key writes |
| Indicators.PaintFn1Lower | keyboards/gmmk/pro/rev1/ansi/keymaps/arinl/keymap.c:178-189 | the buffer becomes ApplyWrites of the last ten _FN1 key writes |
| Indicators.PaintTimeout | keyboards/gmmk/pro/rev1/ansi/keymaps/arinl/keymap.c:192-201 | the buffer becomes ApplyWrites of TimeoutWrites |
| Indicators.PaintSide | keyboards/gmmk/pro/rev1/ansi/keymaps/arinl/keymap.c:204-207 | the buffer becomes ApplyWrites of a side block |
| Indicators.PaintFn2 | keyboards/gmmk/pro/rev1/ansi/keymaps/arinl/keymap.c:210-220 | the loop over LED_LIST_NUMPAD, with its uint8_t index, and the side block give ApplyWrites of the _FN2 block |
| Indicators.LockWrites | keyboards/gmmk/pro/rev1/ansi/keymaps/arinl/keymap.c:129-159 | one write for Scroll Lock, two for Num Lock, four for Caps Lock and one for the Win lock, each only when its state is on |
| Indicators.LayerWrites | keyboards/gmmk/pro/rev1/ansi/keymaps/arinl/keymap.c:162-237 | _FN1 paints 24 keys and 1 to 3 timeout keys, _FN2 every numpad entry and 4 side keys, _FN3 and _FN4 4 side keys each, and any other layer nothing |
| Indicators.PaintLayer | keyboards/gmmk/pro/rev1/ansi/keymaps/arinl/keymap.c:162-240 | only the block of the given layer is painted; other layers paint nothing |
| Indicators.IndicatorsAdvancedUser | keyboards/gmmk/pro/rev1/ansi/keymaps/arinl/keymap.c:125-242 | the buffer becomes Painted of the old one, with the night mode, no_gui and threshold read from the userspace and the highest active layer's block; the result is false |

## Left out

- **Framework services are inputs and recorded calls.** Reads of the clock, the modifiers, the
  layer state and the host's lock LEDs are parameters. Calls to SEND_STRING, register,
  unregister and tap, `set_mods`/`del_mods`, `rgb_matrix_enable`/`disable_noeeprom` and the
  `encoder_action_*` helpers are recorded as events. What the framework does with them is not
  modelled.
- **Host effect of the calls.** What a SEND_STRING or a register does to the host is modelled
  only as the set of keys held (`HeldAfterEvents`). Modifiers, repeat and the HID report are
  not modelled.
- **SS_DELAY.** SS_DELAY(18) and SS_DELAY(40) are `Delay` tokens in the stream, not real time.
- **Encoder helper bodies.** The bodies of the `encoder_action_*` helpers are not part of this
  model.
- **The encoder index.** The encoder index argument is unused by the source and is ignored.
- **The painter's LED range.** `led_min` and `led_max` are unused by the painter and are
  ignored.
- **rgb_matrix_map.h is not part of this model.** The LED indices and index lists are an
  abstract `LedLayout`. `WellFormed` assumes every index is in the buffer and that the
  function-row and number-row lists have at least 14 and 13 entries, and that LED_LIST_NUMPAD
  has fewer than 256 entries, so the painter's `uint8_t` loop index never wraps. `Distinct` assumes no two
  named LEDs share an index. A write outside the buffer is dropped.
- Indicators.NumpadOnFn2 requires the numpad entry not to be a side LED. Because the layout
  is abstract, a numpad entry shared with L5, L6, R5 or R6 would end PURPLE2.
- Indicators.F11OnFn1 and Indicators.NOnFn1 allow CYAN. The timeout indicator is painted
  after those keys. With an abstract layout, its LED may coincide with LED_F11 or LED_N.
- **Layer lookup is not modelled.** How QMK looks a key up through the active layers, including
  transparent keys and MO(), belongs to the framework. Only the tables and their relations are
  modelled.
- **The keymap hook is a parameter.** `process_record_keymap` is weak and the keymap does not
  define it, so it returns true. The model keeps its result as the parameter `keymapHook`.
- **The weak `matrix_scan_keymap` is empty.** It is not modelled.
- **ENCFUNC has no case of its own** in `process_record_user`. It takes the default branch, as
  every unlisted keycode does.
- **STARTUP_NUMLOCK_ON and INVERT_NUMLOCK_INDICATOR are not defined** in this keymap's
  configuration. Their branches (users/arinl/arinl.c:271-273 and
  keyboards/gmmk/pro/rev1/ansi/keymaps/arinl/keymap.c:136-140) are not modelled.
- **Win key lock.** The effect of `keymap_config.no_gui` on the Win key is the framework's.
  Only the flag is modelled.
- **Persistent storage and suspend.** EEPROM and wear-leveling storage, USB suspend and the
  effects of rgb_matrix_enable/disable on the animation are not modelled.
- **config.h is not part of this model.** It holds compile-time settings only.
- **The math.h include** is unused.
- Macros.MacroStreamDependsOnShiftOnly excludes KC_MCRO3. Its `set_mods(mod_state)` puts
  back the whole modifier state read on entry, so that stream depends on all the modifiers.
- Framework.IsLayerOn is a plain bit test. QMK's `layer_state_cmp` reports layer 0 as on
  when the layer state is empty; the model does not, since the source only asks about _FN2.
- Timeout.CountStaysAtThreshold needs the same headroom on the counter as the next lemma.
- Timeout.TicksAfterThresholdDisableRgb needs headroom on the counter. It requires the count
  to stay below 65536 over the ticks considered. The 16-bit counter wraps after 65535 idle
  minutes, and `Tick` models that wrap.
- **HostNumLock is not part of the source.** `Userspace.HostNumLock` stands for the host
  toggling its Num Lock on a tap. It only states what `activate_numlock` relies on.
- Timeout.TickCounterAtMostOne is stated below 65535. At 65535 the counter wraps to 0.
- **Timing of framework calls.** The model takes one clock reading per callback.
  `timer_read()` in `timeout_tick_timer` and `keyboard_post_init_user` is that one reading.
