/** The parts of the QMK framework that the userspace and keymap code read or call.

    Reads of framework state (the 16-bit millisecond clock, the active
    modifiers, the layer state, the host's lock LEDs) are parameters of the
    modelled callbacks; calls into the framework (and into the encoder helpers,
    whose bodies are not part of this model) are recorded, in order, as Events.
 */
module Framework {
  import opened Keycodes

  type uint8 = x: int | 0 <= x < 0x100
  type uint16 = x: int | 0 <= x < 0x1_0000

  // The 8-bit modifier state of QMK, one bit per modifier key (MOD_BIT).
  const MOD_LCTL: bv8 := 0x01
  const MOD_LSFT: bv8 := 0x02
  const MOD_LALT: bv8 := 0x04
  const MOD_LGUI: bv8 := 0x08
  const MOD_RCTL: bv8 := 0x10
  const MOD_RSFT: bv8 := 0x20
  const MOD_RALT: bv8 := 0x40
  const MOD_RGUI: bv8 := 0x80
  const MOD_MASK_SHIFT: bv8 := MOD_LSFT | MOD_RSFT

  predicate ShiftHeld(mods: bv8) {
    mods & MOD_MASK_SHIFT != 0
  }

  /** timer_elapsed: milliseconds since `start` on the 16-bit clock, which wraps. */
  function TimerElapsed(now: uint16, start: uint16): (r: uint16)
    ensures (start + r) % 0x1_0000 == now
  {
    (now - start) % 0x1_0000
  }

  /** layer_state_t: bit l is set when layer l is active. */
  type LayerState = bv32

  predicate IsLayerOn(state: LayerState, layer: nat)
    requires layer < 32
    ensures IsLayerOn(state, layer) <==> state & (1 << layer) == 1 << layer
  {
    state & (1 << layer) != 0
  }

  /** get_highest_layer limited to layers 0..top: the highest active one, or 0. */
  function HighestLayerUpTo(state: LayerState, top: nat): (r: nat)
    requires top < 32
    ensures r <= top
    ensures IsLayerOn(state, r) || (r == 0 && forall l :: 0 <= l <= top ==> !IsLayerOn(state, l))
    ensures forall l :: r < l <= top ==> !IsLayerOn(state, l)
    decreases top
  {
    if top == 0 || IsLayerOn(state, top) then top else HighestLayerUpTo(state, top - 1)
  }

  /** get_highest_layer: the highest active layer, or 0 when none is. */
  function HighestLayer(state: LayerState): (r: nat)
    ensures r < 32
    ensures IsLayerOn(state, r) || (r == 0 && forall l :: 0 <= l < 32 ==> !IsLayerOn(state, l))
    ensures forall l :: r < l < 32 ==> !IsLayerOn(state, l)
  {
    HighestLayerUpTo(state, 31)
  }

  /** Appending to a log in two steps is appending once (stated for abstract logs, where it is cheap). */
  lemma AppendIsAssociative<T>(a: seq<T>, b: seq<T>, c: seq<T>)
    ensures (a + b) + c == a + (b + c)
  {
  }

  /** One step of a SEND_STRING: a key goes down, a key goes up, or a pause (SS_DELAY). */
  datatype Token = Press(key: QmkKey) | Release(key: QmkKey) | Delay(ms: nat)

  /** The encoder_action_* helpers, declared by the userspace; their bodies are not part of this model. */
  datatype EncoderHelper = LayerChange | RgbSaturation | RgbHue | RgbBrightness | Volume

  /** A call into the framework, or into code outside the model. */
  datatype Event =
    | SendString(tokens: seq<Token>)
    | RegisterCode(key: QmkKey)
    | UnregisterCode(key: QmkKey)
    | UnregisterCode16(keycode: Keycode)
    | TapCode(key: QmkKey)
    | DelMods(mask: bv8)
    | SetMods(mask: bv8)
    | RgbMatrixEnable
    | RgbMatrixDisableNoEeprom
    | EncoderAction(helper: EncoderHelper, clockwise: bool)

  /** host_keyboard_led_state: the lock states the host reports. */
  datatype LedState = LedState(numLock: bool, capsLock: bool, scrollLock: bool)

  /** The keys held once one token has been sent. */
  function TokenStep(held: set<QmkKey>, t: Token): set<QmkKey> {
    match t
    case Press(k) => held + {k}
    case Release(k) => held - {k}
    case Delay(_) => held
  }

  /** The keys the host sees held after a key-down/key-up stream, from `held` on: the last
      token acts on the keys the earlier ones left held. */
  function HeldAfter(held: set<QmkKey>, tokens: seq<Token>): set<QmkKey>
    decreases |tokens|
  {
    if tokens == [] then held else TokenStep(HeldAfter(held, tokens[..|tokens| - 1]), tokens[|tokens| - 1])
  }

  /** The same stream replayed from its first token on, which is how the host receives it.
      A proof device: HeldAfter recurses from the back to keep it cheap where it appears in
      contracts, and Replay, with ReplayIsHeldAfter, evaluates a literal stream front to back. */
  function Replay(held: set<QmkKey>, tokens: seq<Token>): set<QmkKey>
    decreases |tokens|
  {
    if tokens == [] then held else Replay(TokenStep(held, tokens[0]), tokens[1..])
  }

  lemma {:induction false} ReplaySnoc(held: set<QmkKey>, tokens: seq<Token>, t: Token)
    ensures Replay(held, tokens + [t]) == TokenStep(Replay(held, tokens), t)
    decreases |tokens|
  {
    if tokens == [] {
      assert tokens + [t] == [t];
    } else {
      assert (tokens + [t])[1..] == tokens[1..] + [t];
      ReplaySnoc(TokenStep(held, tokens[0]), tokens[1..], t);
    }
  }

  /** Both readings of a stream agree on every stream and every starting set. */
  lemma {:induction false} ReplayIsHeldAfter(held: set<QmkKey>, tokens: seq<Token>)
    ensures Replay(held, tokens) == HeldAfter(held, tokens)
    decreases |tokens|
  {
    if tokens != [] {
      var init, last := tokens[..|tokens| - 1], tokens[|tokens| - 1];
      assert tokens == init + [last];
      ReplayIsHeldAfter(held, init);
      ReplaySnoc(held, init, last);
    }
  }

  /** The keys held once one framework call has been made: SEND_STRING streams, registers and unregisters. */
  function EventStep(held: set<QmkKey>, e: Event): set<QmkKey> {
    match e
    case SendString(tokens) => HeldAfter(held, tokens)
    case RegisterCode(k) => held + {k}
    case UnregisterCode(k) => held - {k}
    case _ => held
  }

  /** The keys held after a series of framework calls. */
  function HeldAfterEvents(held: set<QmkKey>, events: seq<Event>): set<QmkKey>
    decreases |events|
  {
    if events == [] then held else HeldAfterEvents(EventStep(held, events[0]), events[1..])
  }

  lemma {:induction false} HeldAfterConcat(held: set<QmkKey>, a: seq<Token>, b: seq<Token>)
    ensures HeldAfter(held, a + b) == HeldAfter(HeldAfter(held, a), b)
    decreases |b|
  {
    if b == [] {
      assert a + b == a;
    } else {
      var init := b[..|b| - 1];
      assert (a + b)[..|a + b| - 1] == a + init;
      HeldAfterConcat(held, a, init);
    }
  }

  /** A proof step only: unfolds HeldAfterEvents once, so callers need not. */
  lemma HeldAfterOneEvent(held: set<QmkKey>, e: Event)
    ensures HeldAfterEvents(held, [e]) == EventStep(held, e)
  {
  }

  lemma {:induction false} HeldAfterEventsConcat(held: set<QmkKey>, a: seq<Event>, b: seq<Event>)
    ensures HeldAfterEvents(held, a + b) == HeldAfterEvents(HeldAfterEvents(held, a), b)
    decreases |a|
  {
    if a == [] {
      assert a + b == b;
    } else {
      assert (a + b)[1..] == a[1..] + b;
      HeldAfterEventsConcat(EventStep(held, a[0]), a[1..], b);
    }
  }
}
