/** The arinl userspace (users/arinl/arinl.c): night mode, the idle timeout, the key
    dispatcher with its held-direction flags and macro keys, and the numpad-layer
    Num Lock latch.

    The statics of arinl.c (and the framework's keymap_config.no_gui, which the
    dispatcher toggles) are the fields of class Userspace. Each callback is a method
    that updates them in place and appends the framework calls it makes to `calls`;
    its contract ties the new fields and the new calls to a function of the old state
    below, and the lemmas state what the userspace promises about those functions.
 */
module Userspace {
  import opened Keycodes
  import opened Framework
  import opened Timeout
  import opened Macros

  /** The state the userspace keeps between callbacks. */
  datatype UserState = UserState(
    nightmode: bool,        // rgb_nightmode
    timeout: TimeoutState,  // timeout_timer, timeout_counter, timeout_threshold
    modState: bv8,          // mod_state, the modifiers read on entry to process_record_user
    left: bool,             // is_left_pressed (A)
    right: bool,            // is_right_pressed (D)
    down: bool,             // is_down_pressed (S)
    adjustOn: bool,         // adjust_on, the latch of layer_state_set_user
    noGui: bool)            // keymap_config.no_gui: the Win key is disabled

  /** The statics before the first callback; no_gui is loaded by the framework. */
  function Initial(noGui: bool): (s: UserState)
    ensures s.timeout.threshold == TIMEOUT_THRESHOLD_DEFAULT && s.timeout.counter == 0
    ensures !s.nightmode && !s.left && !s.right && !s.down && !s.adjustOn && s.noGui == noGui
  {
    UserState(false, TimeoutState(0, 0, TIMEOUT_THRESHOLD_DEFAULT), 0, false, false, false, false, noGui)
  }

  /** activate_rgb_nightmode: the flag ends equal to the request. */
  function ActivateNightmode(flag: bool, turnOn: bool): (r: bool)
    ensures r == turnOn
  {
    if flag != turnOn then !flag else flag
  }

  // ---- process_record_user ----

  /** What process_record_user leaves behind: the new state, the framework calls made, and its result. */
  datatype Outcome = Outcome(state: UserState, events: seq<Event>, handled: bool)

  /** The keycodes the dispatcher has a case for; every other keycode takes the default branch. */
  predicate Dispatched(keycode: Keycode) {
    keycode == Basic(A) || keycode == Basic(D) || keycode == Basic(S) || (keycode.User? && (IsMacro(keycode.custom) || IsSettingKey(keycode.custom)))
  }

  /** KC_A, KC_D and KC_S: the matching held flag follows the event. */
  function TrackDirection(st: UserState, key: QmkKey, pressed: bool): (r: UserState)
    requires key == A || key == D || key == S
    ensures r.left == (if key == A then pressed else st.left)
    ensures r.right == (if key == D then pressed else st.right)
    ensures r.down == (if key == S then pressed else st.down)
    ensures r == st.(left := r.left, right := r.right, down := r.down)
  {
    if key == A then st.(left := pressed)
    else if key == D then st.(right := pressed)
    else st.(down := pressed)
  }

  /** The keys that change a setting on press: KC_WINLCK, RGB_TOI, RGB_TOD and RGB_NITE. */
  predicate IsSettingKey(u: UserKey) {
    u == WinLock || u == TimeoutUp || u == TimeoutDown || u == NightMode
  }

  /** The setting a press of KC_WINLCK, RGB_TOI, RGB_TOD or RGB_NITE changes. */
  function PressSetting(st: UserState, u: UserKey): (r: UserState)
    requires IsSettingKey(u)
    ensures u == WinLock ==> r == st.(noGui := !st.noGui)
    ensures u == NightMode ==> r == st.(nightmode := !st.nightmode)
    ensures u == TimeoutUp || u == TimeoutDown ==> r == st.(timeout := r.timeout) && r.timeout == st.timeout.(threshold := r.timeout.threshold)
  {
    match u
    case WinLock => st.(noGui := !st.noGui)
    case TimeoutUp => st.(timeout := st.timeout.(threshold := UpdateThreshold(st.timeout.threshold, true)))
    case TimeoutDown => st.(timeout := st.timeout.(threshold := UpdateThreshold(st.timeout.threshold, false)))
    case NightMode => st.(nightmode := !st.nightmode)
  }

  /** The statics after process_record_user has dispatched a key event (`st` already holds
      the modifiers read on entry). No key event touches the modifiers or the numpad latch,
      and none takes the threshold out of [0, TIMEOUT_THRESHOLD_MAX]. */
  function KeyState(st: UserState, keycode: Keycode, pressed: bool, now: uint16): (r: UserState)
    ensures r.modState == st.modState && r.adjustOn == st.adjustOn
    ensures st.timeout.threshold <= TIMEOUT_THRESHOLD_MAX ==> r.timeout.threshold <= TIMEOUT_THRESHOLD_MAX
  {
    if keycode == Basic(A) || keycode == Basic(D) || keycode == Basic(S) then TrackDirection(st, keycode.key, pressed)
    else if keycode.User? && IsMacro(keycode.custom) then st
    else if keycode.User? && IsSettingKey(keycode.custom) then (if pressed then PressSetting(st, keycode.custom) else st)
    else if pressed then st.(timeout := Reset(st.timeout, now))
    else st
  }

  /** The framework calls process_record_user makes while dispatching a key event. */
  function KeyEvents(st: UserState, keycode: Keycode, pressed: bool): (r: seq<Event>)
    ensures RgbMatrixEnable in r <==> pressed && !Dispatched(keycode)
  {
    if keycode == Basic(A) || keycode == Basic(D) || keycode == Basic(S) then []
    else if keycode.User? && IsMacro(keycode.custom) then MacroEvents(keycode.custom, pressed, st.left, st.right, st.down, st.modState)
    else if keycode.User? && IsSettingKey(keycode.custom) then (if pressed then [] else [UnregisterCode16(keycode)])
    else if pressed then [RgbMatrixEnable]
    else []
  }

  /** process_record_user for one key event. `mods` is get_mods() on entry, `now` the clock,
      `keymapHook` the result of process_record_keymap (true unless a keymap overrides it). */
  function ProcessRecord(st: UserState, keycode: Keycode, pressed: bool, mods: bv8, now: uint16, keymapHook: bool): (o: Outcome)
    ensures o.handled == keymapHook && o.state.modState == mods && o.state.adjustOn == st.adjustOn
    ensures !keymapHook ==> o.events == [] && o.state == st.(modState := mods)
    ensures st.timeout.threshold <= TIMEOUT_THRESHOLD_MAX ==> o.state.timeout.threshold <= TIMEOUT_THRESHOLD_MAX
  {
    var st := st.(modState := mods);
    if !keymapHook then Outcome(st, [], false)
    else Outcome(KeyState(st, keycode, pressed, now), KeyEvents(st, keycode, pressed), true)
  }

  /** process_record_user returns false exactly when the keymap hook does; when the hook declines
      the event, only mod_state is updated and nothing is called. */
  lemma KeymapHookDecides(st: UserState, keycode: Keycode, pressed: bool, mods: bv8, now: uint16, keymapHook: bool)
    ensures var o := ProcessRecord(st, keycode, pressed, mods, now, keymapHook);
      && o.handled == keymapHook
      && (!keymapHook ==> o.events == [] && o.state == st.(modState := mods))
  {
  }

  /** Any key without a case of its own wakes the RGB and restarts the idle count when pressed,
      keeping the threshold, and does nothing when released. */
  lemma DefaultKeyWakes(st: UserState, keycode: Keycode, pressed: bool, mods: bv8, now: uint16)
    requires !Dispatched(keycode)
    ensures var o := ProcessRecord(st, keycode, pressed, mods, now, true);
      && (pressed ==> o.events == [RgbMatrixEnable] && o.state.timeout.counter == 0 && o.state.timeout.timer == now)
      && (pressed ==> o.state.timeout.threshold == st.timeout.threshold)
      && (pressed ==> o.state == st.(modState := mods, timeout := o.state.timeout))
      && (!pressed ==> o.events == [] && o.state == st.(modState := mods))
  {
  }

  /** The keys with a case of their own never touch the idle timer or counter, and never wake the RGB. */
  lemma DispatchedKeysKeepIdleCount(st: UserState, keycode: Keycode, pressed: bool, mods: bv8, now: uint16, keymapHook: bool)
    requires Dispatched(keycode)
    ensures var o := ProcessRecord(st, keycode, pressed, mods, now, keymapHook);
      && o.state.timeout.counter == st.timeout.counter
      && o.state.timeout.timer == st.timeout.timer
      && RgbMatrixEnable !in o.events
  {
    var o := ProcessRecord(st, keycode, pressed, mods, now, keymapHook);
    if keymapHook && keycode.User? && IsMacro(keycode.custom) {
      MacroNeverWakes(keycode.custom, pressed, st.left, st.right, st.down, mods);
    }
  }

  lemma MacroNeverWakes(m: UserKey, pressed: bool, left: bool, right: bool, down: bool, mods: bv8)
    requires IsMacro(m)
    ensures RgbMatrixEnable !in MacroEvents(m, pressed, left, right, down, mods)
  {
  }

  /** A, D and S only record whether they are held; nothing else changes and nothing is called. */
  lemma DirectionKeysTrackHeld(st: UserState, key: QmkKey, pressed: bool, mods: bv8, now: uint16)
    requires key == A || key == D || key == S
    ensures var o := ProcessRecord(st, Basic(key), pressed, mods, now, true);
      && o.events == []
      && o.state.left == (if key == A then pressed else st.left)
      && o.state.right == (if key == D then pressed else st.right)
      && o.state.down == (if key == S then pressed else st.down)
      && o.state == st.(modState := mods, left := o.state.left, right := o.state.right, down := o.state.down)
  {
  }

  /** The keys that toggle a flag on press: KC_WINLCK (no_gui) and RGB_NITE (night mode).
      A release changes nothing and only unregisters the keycode; two presses restore the flag. */
  lemma TogglesOnPress(st: UserState, u: UserKey, mods: bv8, now: uint16)
    requires u == WinLock || u == NightMode
    ensures var o := ProcessRecord(st, User(u), true, mods, now, true);
      && o.events == []
      && (u == WinLock ==> o.state == st.(modState := mods, noGui := !st.noGui))
      && (u == NightMode ==> o.state == st.(modState := mods, nightmode := !st.nightmode))
    ensures var o := ProcessRecord(st, User(u), false, mods, now, true);
      o.events == [UnregisterCode16(User(u))] && o.state == st.(modState := mods)
    ensures var twice := ProcessRecord(ProcessRecord(st, User(u), true, mods, now, true).state, User(u), true, mods, now, true);
      twice.state == st.(modState := mods)
  {
    var st' := st.(modState := mods);
    assert ProcessRecord(st, User(u), true, mods, now, true).state == PressSetting(st', u);
    assert ProcessRecord(PressSetting(st', u), User(u), true, mods, now, true).state == PressSetting(PressSetting(st', u), u);
  }

  /** RGB_TOI and RGB_TOD move the threshold one minute up or down (saturating); release only
      unregisters the keycode. */
  lemma TimeoutKeysAdjustThreshold(st: UserState, u: UserKey, pressed: bool, mods: bv8, now: uint16)
    requires u == TimeoutUp || u == TimeoutDown
    ensures var o := ProcessRecord(st, User(u), pressed, mods, now, true);
      && (pressed ==> o.events == [] && o.state == st.(modState := mods, timeout := st.timeout.(threshold := UpdateThreshold(st.timeout.threshold, u == TimeoutUp))))
      && (!pressed ==> o.events == [UnregisterCode16(User(u))] && o.state == st.(modState := mods))
  {
  }

  /** A macro key changes no state of its own: it only emits the macro's calls. */
  lemma MacroKeysOnlyEmit(st: UserState, m: UserKey, pressed: bool, mods: bv8, now: uint16)
    requires IsMacro(m)
    ensures var o := ProcessRecord(st, User(m), pressed, mods, now, true);
      o.state == st.(modState := mods) && o.events == MacroEvents(m, pressed, st.left, st.right, st.down, mods)
  {
  }

  // ---- Num Lock and the numpad layer ----

  /** activate_numlock: Num Lock is tapped exactly when the host's state differs from the request. */
  function NumlockTaps(host: LedState, turnOn: bool): (events: seq<Event>)
    ensures events == [] || events == [TapCode(NumLock)]
    ensures events == [TapCode(NumLock)] <==> host.numLock != turnOn
  {
    if host.numLock != turnOn then [TapCode(NumLock)] else []
  }

  /** The host's Num Lock once it has received the given calls: every tap of KC_NUM toggles it. */
  function HostNumLock(numLock: bool, events: seq<Event>): bool
    decreases |events|
  {
    if events == [] then numLock
    else HostNumLock(if events[0] == TapCode(NumLock) then !numLock else numLock, events[1..])
  }

  /** Whatever the host's state, after activate_numlock the host's Num Lock is the requested one. */
  lemma ActivateNumlockReachesRequest(host: LedState, turnOn: bool)
    ensures HostNumLock(host.numLock, NumlockTaps(host, turnOn)) == turnOn
  {
  }

  /** The result of layer_state_set_user besides the state it returns: the new latch and the calls. */
  datatype LatchStep = LatchStep(adjustOn: bool, events: seq<Event>)

  /** layer_state_set_user: Num Lock is driven only on an edge of _FN2's membership. */
  function NumpadEdge(adjustOn: bool, state: LayerState, host: LedState): (r: LatchStep)
    ensures r.adjustOn == IsLayerOn(state, FN2)
    ensures adjustOn == IsLayerOn(state, FN2) ==> r.events == []
    ensures adjustOn != IsLayerOn(state, FN2) ==> r.events == NumlockTaps(host, IsLayerOn(state, FN2))
  {
    if adjustOn != IsLayerOn(state, FN2) then
      var on := !adjustOn;
      LatchStep(on, if on then NumlockTaps(host, true) else NumlockTaps(host, false))
    else LatchStep(adjustOn, [])
  }

  /** After entering _FN2 the host has Num Lock on, and after leaving it the host has it off. */
  lemma NumpadEdgeDrivesNumLock(adjustOn: bool, state: LayerState, host: LedState)
    requires adjustOn != IsLayerOn(state, FN2)
    ensures HostNumLock(host.numLock, NumpadEdge(adjustOn, state, host).events) == IsLayerOn(state, FN2)
  {
    ActivateNumlockReachesRequest(host, IsLayerOn(state, FN2));
  }

  /** A second call with the same layer state finds the latch already set and calls nothing. */
  lemma NumpadEdgeIsIdempotent(adjustOn: bool, state: LayerState, host1: LedState, host2: LedState)
    ensures var first := NumpadEdge(adjustOn, state, host1);
      NumpadEdge(first.adjustOn, state, host2) == LatchStep(first.adjustOn, [])
  {
  }

  // ---- the statics, updated in place ----

  class Userspace {
    var rgbNightmode: bool
    var timeoutTimer: uint16
    var timeoutCounter: uint16
    var timeoutThreshold: uint16
    var modState: bv8
    var isLeftPressed: bool
    var isRightPressed: bool
    var isDownPressed: bool
    var adjustOn: bool
    var noGui: bool
    /** The framework calls made so far, in order. */
    var calls: seq<Event>

    /** The threshold never leaves [0, TIMEOUT_THRESHOLD_MAX]. */
    ghost predicate Valid()
      reads this
    {
      timeoutThreshold <= TIMEOUT_THRESHOLD_MAX
    }

    function Timeout(): TimeoutState
      reads this
    {
      TimeoutState(timeoutTimer, timeoutCounter, timeoutThreshold)
    }

    function State(): UserState
      reads this
    {
      UserState(rgbNightmode, Timeout(), modState, isLeftPressed, isRightPressed, isDownPressed, adjustOn, noGui)
    }

    constructor (noGui: bool)
      ensures Valid() && State() == Initial(noGui) && calls == []
    {
      rgbNightmode := false;
      timeoutTimer, timeoutCounter, timeoutThreshold := 0, 0, TIMEOUT_THRESHOLD_DEFAULT;
      modState := 0;
      isLeftPressed, isRightPressed, isDownPressed := false, false, false;
      adjustOn := false;
      this.noGui := noGui;
      calls := [];
    }

    method ActivateRgbNightmode(turnOn: bool)
      modifies this`rgbNightmode
      ensures rgbNightmode == ActivateNightmode(old(rgbNightmode), turnOn)
    {
      if rgbNightmode != turnOn {
        rgbNightmode := !rgbNightmode;
      }
    }

    function GetRgbNightmode(): (r: bool)
      reads this
      ensures r == State().nightmode
    {
      rgbNightmode
    }

    function GetTimeoutThreshold(): (r: uint16)
      reads this
      requires Valid()
      ensures r <= TIMEOUT_THRESHOLD_MAX
    {
      timeoutThreshold
    }

    method TimeoutResetTimer(now: uint16)
      modifies this`timeoutTimer, this`timeoutCounter
      ensures Timeout() == Reset(old(Timeout()), now)
    {
      timeoutTimer := now;
      timeoutCounter := 0;
    }

    method TimeoutUpdateThreshold(increase: bool)
      requires Valid()
      modifies this`timeoutThreshold
      ensures Valid()
      ensures timeoutThreshold == UpdateThreshold(old(timeoutThreshold), increase)
    {
      if increase && timeoutThreshold < TIMEOUT_THRESHOLD_MAX {
        timeoutThreshold := timeoutThreshold + 1;
      }
      if !increase && timeoutThreshold > 0 {
        timeoutThreshold := timeoutThreshold - 1;
      }
    }

    method TimeoutTickTimer(now: uint16)
      modifies this`timeoutTimer, this`timeoutCounter, this`calls
      ensures var t := Tick(old(Timeout()), now);
        Timeout() == t.state && calls == old(calls) + (if t.disableRgb then [RgbMatrixDisableNoEeprom] else [])
    {
      if timeoutThreshold > 0 {
        if TimerElapsed(now, timeoutTimer) >= MINUTE_MS {
          timeoutCounter := (timeoutCounter + 1) % 0x1_0000;
          timeoutTimer := now;
        }
        if timeoutThreshold > 0 && timeoutCounter >= timeoutThreshold {
          calls := calls + [RgbMatrixDisableNoEeprom];
        }
      }
    }

    /** matrix_scan_user: the idle tick (matrix_scan_keymap is empty in this keymap). */
    method MatrixScanUser(now: uint16)
      modifies this`timeoutTimer, this`timeoutCounter, this`calls
      ensures var t := Tick(old(Timeout()), now);
        Timeout() == t.state && calls == old(calls) + (if t.disableRgb then [RgbMatrixDisableNoEeprom] else [])
    {
      TimeoutTickTimer(now);
    }

    /** The motion SEND_STRINGs of a macro key: left first, then right. */
    method PlayMotion(m: UserKey)
      requires IsMacro(m)
      modifies this`calls
      ensures calls == old(calls) + MotionEvents(m, isLeftPressed, isRightPressed)
    {
      if isLeftPressed {
        calls := calls + [SendString(if m == Macro1 then HpbLeft else MotionLeft)];
      }
      if isRightPressed {
        calls := calls + [SendString(if m == Macro1 then HpbRight else MotionRight)];
      }
    }

    /** The attack SEND_STRINGs of a macro key, after its motion. */
    method PlayAttack(m: UserKey)
      requires IsMacro(m) && (isLeftPressed || isRightPressed)
      modifies this`calls
      ensures calls == old(calls) + AttackEvents(m, isDownPressed, modState)
    {
      match m
      case Macro1 => PlayHpbAttack();
      case Macro2 => PlayGiganterAttack();
      case Macro3 => PlayBusterAttack();
      case Macro4 => PlayFlickAttack();
    }

    /** KC_MCRO1 (hpb): J unless Shift is held, I, then K if Shift is held. */
    method PlayHpbAttack()
      modifies this`calls
      ensures calls == old(calls) + AttackEvents(Macro1, isDownPressed, modState)
    {
      var shift := modState & MOD_MASK_SHIFT != 0;
      if !shift { calls := calls + [SendString(TapTokens(J))]; }
      calls := calls + [SendString(TapTokens(I))];
      if shift { calls := calls + [SendString(TapTokens(K))]; }
    }

    /** KC_MCRO2 (giganter): J unless Shift is held, L, K if Shift is held, then S again if it is held. */
    method PlayGiganterAttack()
      modifies this`calls
      ensures calls == old(calls) + AttackEvents(Macro2, isDownPressed, modState)
    {
      var shift := modState & MOD_MASK_SHIFT != 0;
      if !shift { calls := calls + [SendString(TapTokens(J))]; }
      calls := calls + [SendString(TapTokens(L))];
      if shift { calls := calls + [SendString(TapTokens(K))]; }
      if isDownPressed { calls := calls + [SendString([Press(S)])]; }
    }

    /** KC_MCRO3 (buster): J goes down with Shift lifted unless Shift is held, then K, then both up,
        then S again if it is held. */
    method PlayBusterAttack()
      modifies this`calls
      ensures calls == old(calls) + AttackEvents(Macro3, isDownPressed, modState)
    {
      ghost var setup: seq<Event> := [];
      if modState & MOD_MASK_SHIFT == 0 {
        calls := calls + [DelMods(MOD_MASK_SHIFT)];
        calls := calls + [SendString([Press(J), Delay(18)])];
        calls := calls + [SetMods(modState)];
        setup := [DelMods(MOD_MASK_SHIFT), SendString([Press(J), Delay(18)]), SetMods(modState)];
      }
      assert calls == old(calls) + setup;
      calls := calls + [SendString([Press(K), Delay(18), Release(J), Release(K)])];
      ghost var restoreDown: seq<Event> := [];
      if isDownPressed {
        calls := calls + [SendString([Press(S)])];
        restoreDown := [SendString([Press(S)])];
      }
      assert calls == old(calls) + (setup + [SendString([Press(K), Delay(18), Release(J), Release(K)])] + restoreDown);
    }

    /** KC_MCRO4 (flick): J and I down together, then both up. */
    method PlayFlickAttack()
      requires isLeftPressed || isRightPressed
      modifies this`calls
      ensures calls == old(calls) + AttackEvents(Macro4, isDownPressed, modState)
    {
      if isRightPressed || isLeftPressed {
        calls := calls + [SendString([Press(J), Delay(18), Press(I), Delay(18), Release(J), Release(I)])];
      }
    }

    /** The calls of a macro key pressed while a direction is held, in source order. */
    method PlayMacro(m: UserKey)
      requires IsMacro(m) && (isLeftPressed || isRightPressed)
      modifies this`calls
      ensures calls == old(calls) + MacroEvents(m, true, isLeftPressed, isRightPressed, isDownPressed, modState)
    {
      ghost var before := calls;
      PlayMotion(m);
      ghost var motion := calls[|before|..];
      PlayAttack(m);
      ghost var attack := calls[|before| + |motion|..];
      assert calls == before + motion + attack;
      AppendIsAssociative(before, motion, attack);
      MacroPressIsMotionThenAttack(m, isLeftPressed, isRightPressed, isDownPressed, modState);
    }

    method TrackDirectionKey(key: QmkKey, pressed: bool)
      requires key == A || key == D || key == S
      modifies this`isLeftPressed, this`isRightPressed, this`isDownPressed
      ensures State() == TrackDirection(old(State()), key, pressed)
    {
      if key == A {
        isLeftPressed := pressed;
      } else if key == D {
        isRightPressed := pressed;
      } else {
        isDownPressed := pressed;
      }
    }

    /** A macro key: its SEND_STRINGs with a direction held, otherwise its fallback key. */
    method MacroKey(m: UserKey, pressed: bool)
      requires IsMacro(m)
      modifies this`calls
      ensures calls == old(calls) + MacroEvents(m, pressed, isLeftPressed, isRightPressed, isDownPressed, modState)
    {
      if pressed {
        if isRightPressed || isLeftPressed {
          PlayMacro(m);
        } else {
          calls := calls + [RegisterCode(Fallback(m))];
        }
      } else {
        calls := calls + [UnregisterCode(Fallback(m))];
      }
    }

    /** KC_WINLCK, RGB_TOI, RGB_TOD and RGB_NITE: a press changes the setting, a release
        unregisters the keycode. */
    method SettingKey(u: UserKey, pressed: bool)
      requires IsSettingKey(u) && Valid()
      modifies this`noGui, this`timeoutThreshold, this`rgbNightmode, this`calls
      ensures Valid()
      ensures pressed ==> State() == PressSetting(old(State()), u) && calls == old(calls)
      ensures !pressed ==> State() == old(State()) && calls == old(calls) + [UnregisterCode16(User(u))]
    {
      if !pressed {
        calls := calls + [UnregisterCode16(User(u))];
      } else if u == WinLock {
        noGui := !noGui;
      } else if u == TimeoutUp {
        TimeoutUpdateThreshold(true);
      } else if u == TimeoutDown {
        TimeoutUpdateThreshold(false);
      } else {
        rgbNightmode := !rgbNightmode;
      }
    }

    method ProcessRecordUser(keycode: Keycode, pressed: bool, mods: bv8, now: uint16, keymapHook: bool) returns (r: bool)
      requires Valid()
      modifies this
      ensures Valid()
      ensures var o := ProcessRecord(old(State()), keycode, pressed, mods, now, keymapHook);
        State() == o.state && calls == old(calls) + o.events && r == o.handled
    {
      modState := mods;
      if !keymapHook {
        return false;
      }
      DispatchKey(keycode, pressed, now);
      return true;
    }

    /** The switch on the keycode inside process_record_user. */
    method DispatchKey(keycode: Keycode, pressed: bool, now: uint16)
      requires Valid()
      modifies this
      ensures Valid()
      ensures State() == KeyState(old(State()), keycode, pressed, now)
      ensures calls == old(calls) + KeyEvents(old(State()), keycode, pressed)
    {
      if keycode == Basic(A) || keycode == Basic(D) || keycode == Basic(S) {
        TrackDirectionKey(keycode.key, pressed);
      } else if keycode.User? && IsMacro(keycode.custom) {
        MacroKey(keycode.custom, pressed);
      } else if keycode.User? && IsSettingKey(keycode.custom) {
        SettingKey(keycode.custom, pressed);
      } else if pressed {
        calls := calls + [RgbMatrixEnable];
        TimeoutResetTimer(now);
      }
    }

    method ActivateNumlock(turnOn: bool, host: LedState)
      modifies this`calls
      ensures calls == old(calls) + NumlockTaps(host, turnOn)
    {
      if host.numLock != turnOn {
        calls := calls + [TapCode(NumLock)];
      }
    }

    /** layer_state_set_user: `host` is host_keyboard_led_state() at the time of the call. */
    method LayerStateSetUser(state: LayerState, host: LedState) returns (r: LayerState)
      modifies this`adjustOn, this`calls
      ensures r == state
      ensures var step := NumpadEdge(old(adjustOn), state, host);
        adjustOn == step.adjustOn && calls == old(calls) + step.events
    {
      if adjustOn != IsLayerOn(state, FN2) {
        adjustOn := !adjustOn;
        if adjustOn {
          ActivateNumlock(true, host);
        } else {
          ActivateNumlock(false, host);
        }
      }
      return state;
    }

    /** keyboard_post_init_keymap (in the keymap): leave night mode. */
    method KeyboardPostInitKeymap()
      modifies this`rgbNightmode
      ensures !rgbNightmode
    {
      ActivateRgbNightmode(false);
    }

    /** keyboard_post_init_user: STARTUP_NUMLOCK_ON is not defined in this keymap's configuration,
        so only the keymap hook runs and the idle minute starts at `now`. */
    method KeyboardPostInitUser(now: uint16)
      modifies this`rgbNightmode, this`timeoutTimer
      ensures !rgbNightmode && timeoutTimer == now
      ensures calls == old(calls)
    {
      KeyboardPostInitKeymap();
      timeoutTimer := now;
    }
  }
}
