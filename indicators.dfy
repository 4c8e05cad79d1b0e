/** rgb_matrix_indicators_advanced_user of the keymap: the indicator colours painted over
    the RGB matrix on every frame.

    The painter is a series of rgb_matrix_set_color writes into the frame's colour buffer,
    made in source order, so a later write to an LED replaces an earlier one. The LED
    index constants and index lists of rgb_matrix_map.h are not part of this model: a
    LedLayout stands for them, and the lemmas hold for every layout that meets the
    stated conditions.
 */
module Indicators {
  import opened Keycodes
  import opened Framework
  import opened Timeout
  import opened Userspace

  /** The RGB_* colours the painter uses. */
  datatype Color = Off | Red | Orange2 | White | Yellow2 | OffBlue | Green | Blue | Purple2 | Cyan | DkRed

  /** The named LEDs of rgb_matrix_map.h that the painter writes (LED_F6, LED_L1, ...). */
  datatype LedName =
    | LedF6 | LedF7 | LedF8 | LedF10 | LedF11 | LedF12 | LedIns
    | LedFn | LedLwin | LedBsls | LedN | LedRalt | LedRctl | LedRsft | LedZ | LedX
    | LedUp | LedDown | LedLeft | LedRight | LedCaps
    | LedL1 | LedL2 | LedL3 | LedL4 | LedL5 | LedL6 | LedL7 | LedL8
    | LedR1 | LedR2 | LedR3 | LedR4 | LedR5 | LedR6 | LedR7 | LedR8

  /** The LED indices of rgb_matrix_map.h: the number of LEDs, the index of each named LED,
      and the lists LED_LIST_FUNCROW, LED_LIST_NUMROW and LED_LIST_NUMPAD. */
  datatype LedLayout = LedLayout(count: nat, index: LedName -> nat, funcRow: seq<nat>, numRow: seq<nat>, numpad: seq<nat>)

  /** Every index is an LED of the matrix, the two row lists are long enough for the
      timeout indicator (at least 14 and 13 entries), and LED_LIST_NUMPAD is short enough
      for the painter's uint8_t loop index. */
  predicate WellFormed(lay: LedLayout) {
    && |lay.funcRow| >= 14 && |lay.numRow| >= 13 && |lay.numpad| < 256
    && (forall n :: lay.index(n) < lay.count)
    && (forall k :: 0 <= k < |lay.funcRow| ==> lay.funcRow[k] < lay.count)
    && (forall k :: 0 <= k < |lay.numRow| ==> lay.numRow[k] < lay.count)
    && (forall k :: 0 <= k < |lay.numpad| ==> lay.numpad[k] < lay.count)
  }

  /** No two named LEDs share an index. (The pairs are instantiated only where a proof asks
      for one, through DistinctPair.) */
  predicate Distinct(lay: LedLayout) {
    forall a, b {:trigger DistinctPair(lay, a, b)} :: a != b ==> DistinctPair(lay, a, b)
  }

  predicate DistinctPair(lay: LedLayout, a: LedName, b: LedName) {
    lay.index(a) != lay.index(b)
  }

  /** In a layout without shared indices, every other named LED misses LED n. */
  lemma OthersMiss(lay: LedLayout, n: LedName)
    requires Distinct(lay)
    ensures forall m :: m != n ==> lay.index(m) != lay.index(n)
  {
    forall m | m != n ensures lay.index(m) != lay.index(n) {
      assert DistinctPair(lay, m, n);
    }
  }

  // ---- writes into the colour buffer ----

  /** One rgb_matrix_set_color call. */
  datatype Write = Write(led: nat, color: Color)

  /** The buffer after one write; a write outside the buffer changes nothing. */
  function ApplyWrite(colors: seq<Color>, w: Write): (r: seq<Color>)
    ensures |r| == |colors|
  {
    if w.led < |colors| then colors[w.led := w.color] else colors
  }

  /** The buffer after a series of writes, made from first to last. */
  function ApplyWrites(colors: seq<Color>, writes: seq<Write>): (r: seq<Color>)
    ensures |r| == |colors|
    decreases |writes|
  {
    if writes == [] then colors else ApplyWrite(ApplyWrites(colors, writes[..|writes| - 1]), writes[|writes| - 1])
  }

  /** The colour of the last write to LED i, if there is one. */
  function LastWriteTo(writes: seq<Write>, i: nat): Option<Color>
    decreases |writes|
  {
    if writes == [] then None
    else if writes[|writes| - 1].led == i then Some(writes[|writes| - 1].color)
    else LastWriteTo(writes[..|writes| - 1], i)
  }

  datatype Option<T> = None | Some(value: T)

  /** The last write to an LED decides its colour; an LED nobody writes keeps the colour it had. */
  lemma {:induction false} LastWriteWins(colors: seq<Color>, writes: seq<Write>, i: nat)
    requires i < |colors|
    ensures ApplyWrites(colors, writes)[i] == match LastWriteTo(writes, i) case Some(c) => c case None => colors[i]
    decreases |writes|
  {
    if writes != [] {
      LastWriteWins(colors, writes[..|writes| - 1], i);
    }
  }

  lemma {:induction false} ApplyWritesConcat(colors: seq<Color>, a: seq<Write>, b: seq<Write>)
    ensures ApplyWrites(colors, a + b) == ApplyWrites(ApplyWrites(colors, a), b)
    decreases |b|
  {
    if b == [] {
      assert a + b == a;
    } else {
      assert (a + b)[..|a + b| - 1] == a + b[..|b| - 1];
      ApplyWritesConcat(colors, a, b[..|b| - 1]);
    }
  }

  /** Writes that miss LED i leave it as it was. */
  lemma {:induction false} UntouchedLedKeepsColor(colors: seq<Color>, writes: seq<Write>, i: nat)
    requires i < |colors|
    requires forall k :: 0 <= k < |writes| ==> writes[k].led != i
    ensures ApplyWrites(colors, writes)[i] == colors[i]
    decreases |writes|
  {
    if writes != [] {
      UntouchedLedKeepsColor(colors, writes[..|writes| - 1], i);
    }
  }

  /** rgb_matrix_set_color_all: every LED gets the colour. */
  function AllOf(n: nat, c: Color): (r: seq<Color>)
    ensures |r| == n && forall i :: 0 <= i < n ==> r[i] == c
  {
    seq(n, _ => c)
  }

  // ---- what the painter writes ----

  function Named(lay: LedLayout, n: LedName, c: Color): Write {
    Write(lay.index(n), c)
  }

  /** The lock and Win-lock indicators, painted whatever the layer. */
  function LockWrites(lay: LedLayout, host: LedState, noGui: bool): (r: seq<Write>)
    ensures |r| == (if host.scrollLock then 1 else 0) + (if host.numLock then 2 else 0)
      + (if host.capsLock then 4 else 0) + (if noGui then 1 else 0)
  {
    ScrollLockWrites(lay, host) + NumLockWrites(lay, host) + CapsLockWrites(lay, host) + WinLockWrites(lay, noGui)
  }

  function ScrollLockWrites(lay: LedLayout, host: LedState): seq<Write> {
    if host.scrollLock then [Named(lay, LedF11, Red)] else []
  }

  function NumLockWrites(lay: LedLayout, host: LedState): seq<Write> {
    if host.numLock then [Named(lay, LedN, Orange2), Named(lay, LedFn, Orange2)] else []
  }

  function CapsLockWrites(lay: LedLayout, host: LedState): seq<Write> {
    if host.capsLock then [Named(lay, LedL6, White), Named(lay, LedL7, White), Named(lay, LedL8, White), Named(lay, LedCaps, White)] else []
  }

  function WinLockWrites(lay: LedLayout, noGui: bool): seq<Write> {
    if noGui then [Named(lay, LedLwin, Red)] else []
  }

  /** A position in one of the two row lists of the timeout indicator. */
  datatype RowLed = FuncRow(pos: nat) | NumRow(pos: nat)

  /** The row-list entries that show the timeout threshold t: up to 10 minutes one key of the
      function row, below 140 the tens on the function row and the units on the number row,
      and from 140 on the last three keys of the number row. */
  function TimeoutIndicator(t: uint16): (r: seq<RowLed>)
    ensures 1 <= |r| <= 3
    ensures forall k :: 0 <= k < |r| && r[k].FuncRow? ==> r[k].pos <= 13
    ensures forall k :: 0 <= k < |r| && r[k].NumRow? ==> r[k].pos <= 12
  {
    if t <= 10 then [FuncRow(t)]
    else if t < TIMEOUT_THRESHOLD_MAX then [FuncRow(t / 10), NumRow(t % 10)]
    else [NumRow(10), NumRow(11), NumRow(12)]
  }

  /** How a user reads the indicator back: one function-row key is the number of minutes,
      a function-row key and a number-row key are tens and units, anything else means
      "140 or more". */
  function ReadIndicator(r: seq<RowLed>): nat {
    if |r| == 1 && r[0].FuncRow? then r[0].pos
    else if |r| == 2 && r[0].FuncRow? && r[1].NumRow? then 10 * r[0].pos + r[1].pos
    else TIMEOUT_THRESHOLD_MAX
  }

  /** The indicator shows every threshold below 140 exactly, and every larger one as 140. */
  lemma TimeoutIndicatorReadsBack(t: uint16)
    ensures ReadIndicator(TimeoutIndicator(t)) == if t < TIMEOUT_THRESHOLD_MAX then t else TIMEOUT_THRESHOLD_MAX
  {
  }

  /** Two thresholds below 140 never share an indicator. */
  lemma TimeoutIndicatorIsInjective(t1: uint16, t2: uint16)
    requires t1 < TIMEOUT_THRESHOLD_MAX && t2 < TIMEOUT_THRESHOLD_MAX
    requires TimeoutIndicator(t1) == TimeoutIndicator(t2)
    ensures t1 == t2
  {
    TimeoutIndicatorReadsBack(t1);
    TimeoutIndicatorReadsBack(t2);
  }

  function RowLedIndex(lay: LedLayout, p: RowLed): nat
    requires WellFormed(lay)
    requires p.FuncRow? ==> p.pos <= 13
    requires p.NumRow? ==> p.pos <= 12
  {
    match p
    case FuncRow(k) => lay.funcRow[k]
    case NumRow(k) => lay.numRow[k]
  }

  /** The CYAN writes of the timeout indicator: one per entry of TimeoutIndicator, in order. */
  function TimeoutWrites(lay: LedLayout, t: uint16): (ws: seq<Write>)
    requires WellFormed(lay)
    ensures var ind := TimeoutIndicator(t);
      |ws| == |ind| && forall k :: 0 <= k < |ws| ==> ws[k] == Write(RowLedIndex(lay, ind[k]), Cyan)
  {
    if t <= 10 then [Write(lay.funcRow[t], Cyan)]
    else if t < TIMEOUT_THRESHOLD_MAX then [Write(lay.funcRow[t / 10], Cyan), Write(lay.numRow[t % 10], Cyan)]
    else [Write(lay.numRow[10], Cyan), Write(lay.numRow[11], Cyan), Write(lay.numRow[12], Cyan)]
  }

  /** The _FN1 writes before the timeout indicator. */
  function Fn1KeyWrites(lay: LedLayout): seq<Write> {
    Fn1UpperWrites(lay) + Fn1LowerWrites(lay)
  }

  /** The function-row keys, FN, LWIN and BSLS of the _FN1 block. */
  function Fn1UpperWrites(lay: LedLayout): seq<Write> {
    [ Named(lay, LedF6, Red), Named(lay, LedF7, Red), Named(lay, LedF8, Red),
      Named(lay, LedF10, Yellow2), Named(lay, LedF11, Yellow2), Named(lay, LedF12, Yellow2), Named(lay, LedIns, Yellow2),
      Named(lay, LedFn, OffBlue),
      Named(lay, LedLwin, Red), Named(lay, LedBsls, Red) ]
  }

  /** N, the right-hand modifiers, Z, X and the arrows of the _FN1 block. */
  function Fn1LowerWrites(lay: LedLayout): seq<Write> {
    [ Named(lay, LedN, Orange2),
      Named(lay, LedRalt, Red), Named(lay, LedRctl, Green), Named(lay, LedRsft, Blue),
      Named(lay, LedZ, Purple2), Named(lay, LedX, Purple2),
      Named(lay, LedUp, Green), Named(lay, LedDown, Green), Named(lay, LedLeft, Blue), Named(lay, LedRight, Blue) ]
  }

  /** Four side LEDs in one colour. */
  function SideWrites(lay: LedLayout, a: LedName, b: LedName, c: LedName, d: LedName, color: Color): seq<Write> {
    [Named(lay, a, color), Named(lay, b, color), Named(lay, c, color), Named(lay, d, color)]
  }

  /** Every entry of LED_LIST_NUMPAD in OFFBLUE, in list order. */
  function NumpadWrites(numpad: seq<nat>): (ws: seq<Write>)
    ensures |ws| == |numpad| && forall k :: 0 <= k < |ws| ==> ws[k] == Write(numpad[k], OffBlue)
  {
    seq(|numpad|, k requires 0 <= k < |numpad| => Write(numpad[k], OffBlue))
  }

  /** The writes of the block for the highest active layer; _BASE and any other layer have none. */
  function LayerWrites(lay: LedLayout, layer: nat, t: uint16): (r: seq<Write>)
    requires WellFormed(lay)
    ensures layer == FN1 ==> |r| == 24 + |TimeoutIndicator(t)|
    ensures layer == FN2 ==> |r| == |lay.numpad| + 4
    ensures layer == FN3 || layer == FN4 ==> |r| == 4
    ensures layer != FN1 && layer != FN2 && layer != FN3 && layer != FN4 ==> r == []
  {
    if layer == FN1 then Fn1KeyWrites(lay) + TimeoutWrites(lay, t) + SideWrites(lay, LedL7, LedL8, LedR7, LedR8, Purple2)
    else if layer == FN2 then NumpadWrites(lay.numpad) + SideWrites(lay, LedL5, LedL6, LedR5, LedR6, Purple2)
    else if layer == FN3 then SideWrites(lay, LedL3, LedL4, LedR3, LedR4, Orange2)
    else if layer == FN4 then SideWrites(lay, LedL1, LedL2, LedR1, LedR2, DkRed)
    else []
  }

  /** The frame after the painter: night mode first blanks every LED, then the lock writes,
      then the block of the highest active layer. */
  function Painted(colors: seq<Color>, lay: LedLayout, nightmode: bool, host: LedState, noGui: bool, layer: nat, t: uint16): (r: seq<Color>)
    requires WellFormed(lay)
    ensures |r| == |colors|
  {
    ApplyWrites(if nightmode then AllOf(|colors|, Off) else colors, LockWrites(lay, host, noGui) + LayerWrites(lay, layer, t))
  }

  // ---- what the painter promises ----

  /** In night mode the frame the effect drew makes no difference: an LED the indicators write
      has its last write's colour and every other LED is off. */
  lemma NightModeShowsOnlyIndicators(colors: seq<Color>, lay: LedLayout, host: LedState, noGui: bool, layer: nat, t: uint16, i: nat)
    requires WellFormed(lay) && i < |colors|
    ensures var writes := LockWrites(lay, host, noGui) + LayerWrites(lay, layer, t);
      Painted(colors, lay, true, host, noGui, layer, t)[i] == match LastWriteTo(writes, i) case Some(c) => c case None => Off
  {
    LastWriteWins(AllOf(|colors|, Off), LockWrites(lay, host, noGui) + LayerWrites(lay, layer, t), i);
  }

  /** _BASE paints no layer block: only the lock indicators change the frame. */
  lemma BaseAddsNoLayerWrites(colors: seq<Color>, lay: LedLayout, nightmode: bool, host: LedState, noGui: bool, t: uint16)
    requires WellFormed(lay)
    ensures LayerWrites(lay, BASE, t) == []
    ensures Painted(colors, lay, nightmode, host, noGui, BASE, t) == ApplyWrites(if nightmode then AllOf(|colors|, Off) else colors, LockWrites(lay, host, noGui))
  {
    assert LockWrites(lay, host, noGui) + [] == LockWrites(lay, host, noGui);
  }

  /** The LEDs of the timeout indicator for threshold t. */
  function TimeoutLeds(lay: LedLayout, t: uint16): set<nat>
    requires WellFormed(lay)
  {
    set k | 0 <= k < |TimeoutWrites(lay, t)| :: TimeoutWrites(lay, t)[k].led
  }

  /** A write followed only by writes that miss its LED decides that LED's colour. */
  lemma HitThenMiss(colors: seq<Color>, ws: seq<Write>, k: nat)
    requires k < |ws| && ws[k].led < |colors|
    requires forall j :: k < j < |ws| ==> ws[j].led != ws[k].led
    ensures ApplyWrites(colors, ws)[ws[k].led] == ws[k].color
  {
    var upTo, after := ws[..k + 1], ws[k + 1..];
    assert ws == upTo + after;
    ApplyWritesConcat(colors, upTo, after);
    assert upTo[..|upTo| - 1] == ws[..k];
    UntouchedLedKeepsColor(ApplyWrites(colors, upTo), after, ws[k].led);
  }

  /** A write in a run of writes of one colour leaves its LED in that colour. */
  lemma OneColorHit(colors: seq<Color>, ws: seq<Write>, c: Color, k: nat)
    requires forall j :: 0 <= j < |ws| ==> ws[j].color == c
    requires k < |ws| && ws[k].led < |colors|
    ensures ApplyWrites(colors, ws)[ws[k].led] == c
  {
    LastWriteWins(colors, ws, ws[k].led);
    LastWriteOfOneColor(ws, c, ws[k].led);
  }

  /** A side block leaves every other LED as it was. */
  lemma SideMiss(colors: seq<Color>, lay: LedLayout, a: LedName, b: LedName, c: LedName, d: LedName, color: Color, i: nat)
    requires i !in {lay.index(a), lay.index(b), lay.index(c), lay.index(d)} && i < |colors|
    ensures ApplyWrites(colors, SideWrites(lay, a, b, c, d, color))[i] == colors[i]
  {
    UntouchedLedKeepsColor(colors, SideWrites(lay, a, b, c, d, color), i);
  }

  /** Each of the four side LEDs of a side block ends in the block's colour. */
  lemma SideHit(colors: seq<Color>, lay: LedLayout, a: LedName, b: LedName, c: LedName, d: LedName, color: Color, n: LedName)
    requires n in {a, b, c, d} && lay.index(n) < |colors|
    ensures ApplyWrites(colors, SideWrites(lay, a, b, c, d, color))[lay.index(n)] == color
  {
    var j := if n == a then 0 else if n == b then 1 else if n == c then 2 else 3;
    OneColorHit(colors, SideWrites(lay, a, b, c, d, color), color, j);
  }

  /** The last two blocks of writes: LED i, which the second block misses, ends CYAN when a
      write of the CYAN block hits it and keeps its colour from before the blocks otherwise. */
  lemma CyanThenMiss(colors: seq<Color>, prefix: seq<Write>, cyan: seq<Write>, last: seq<Write>, i: nat)
    requires i < |colors|
    requires forall k :: 0 <= k < |cyan| ==> cyan[k].color == Cyan
    requires forall j :: 0 <= j < |last| ==> last[j].led != i
    ensures ApplyWrites(colors, prefix + cyan + last)[i]
      == if exists k :: 0 <= k < |cyan| && cyan[k].led == i then Cyan else ApplyWrites(colors, prefix)[i]
  {
    ApplyWritesConcat(colors, prefix + cyan, last);
    ApplyWritesConcat(colors, prefix, cyan);
    var before := ApplyWrites(colors, prefix);
    LastWriteWins(before, cyan, i);
    LastWriteOfOneColor(cyan, Cyan, i);
    UntouchedLedKeepsColor(ApplyWrites(before, cyan), last, i);
  }

  /** When every write has the same colour, the last write to an LED has that colour exactly
      when some write hits the LED. */
  lemma {:induction false} LastWriteOfOneColor(ws: seq<Write>, c: Color, i: nat)
    requires forall k :: 0 <= k < |ws| ==> ws[k].color == c
    ensures LastWriteTo(ws, i) == if exists k :: 0 <= k < |ws| && ws[k].led == i then Some(c) else None
    decreases |ws|
  {
    if ws != [] {
      var init := ws[..|ws| - 1];
      LastWriteOfOneColor(init, c, i);
      if ws[|ws| - 1].led != i && exists k :: 0 <= k < |ws| && ws[k].led == i {
        var k :| 0 <= k < |ws| && ws[k].led == i;
        assert init[k].led == i;
      }
    }
  }

  /** The final colour of an LED on _FN1, given the colour the _FN1 key writes leave it with:
      CYAN if the timeout indicator lights it, and otherwise that colour, unless it is one of
      the side LEDs painted last. */
  lemma AfterFn1Keys(start: seq<Color>, lay: LedLayout, locks: seq<Write>, t: uint16, i: nat)
    requires WellFormed(lay) && lay.count == |start| && i < |start|
    requires i !in {lay.index(LedL7), lay.index(LedL8), lay.index(LedR7), lay.index(LedR8)}
    ensures ApplyWrites(start, locks + LayerWrites(lay, FN1, t))[i]
      == if i in TimeoutLeds(lay, t) then Cyan else ApplyWrites(start, locks + Fn1KeyWrites(lay))[i]
  {
    var keys, timeout, side := Fn1KeyWrites(lay), TimeoutWrites(lay, t), SideWrites(lay, LedL7, LedL8, LedR7, LedR8, Purple2);
    assert locks + LayerWrites(lay, FN1, t) == (locks + keys) + timeout + side;
    CyanThenMiss(start, locks + keys, timeout, side, i);
  }

  /** On _FN1 the function-row key LED_F11 ends YELLOW2 even when Scroll Lock painted it red,
      unless the timeout indicator lights it, in which case it ends CYAN. */
  lemma F11OnFn1(colors: seq<Color>, lay: LedLayout, nightmode: bool, host: LedState, noGui: bool, t: uint16)
    requires WellFormed(lay) && Distinct(lay) && lay.count == |colors|
    ensures Painted(colors, lay, nightmode, host, noGui, FN1, t)[lay.index(LedF11)] == if lay.index(LedF11) in TimeoutLeds(lay, t) then Cyan else Yellow2
  {
    var start := if nightmode then AllOf(|colors|, Off) else colors;
    var locks := LockWrites(lay, host, noGui);
    var ws := locks + Fn1KeyWrites(lay);
    assert ws[|locks| + 4] == Named(lay, LedF11, Yellow2);
    Fn1KeysAfterF11(lay);
    HitThenMiss(start, ws, |locks| + 4);
    SideLedsAreNot(lay, LedF11);
    AfterFn1Keys(start, lay, locks, t, lay.index(LedF11));
  }

  lemma Fn1KeysAfterF11(lay: LedLayout)
    requires Distinct(lay)
    ensures forall j :: 5 <= j < |Fn1KeyWrites(lay)| ==> Fn1KeyWrites(lay)[j].led != lay.index(LedF11)
  {
    OthersMiss(lay, LedF11);
  }

  lemma Fn1KeysAfterN(lay: LedLayout)
    requires Distinct(lay)
    ensures forall j :: 11 <= j < |Fn1KeyWrites(lay)| ==> Fn1KeyWrites(lay)[j].led != lay.index(LedN)
  {
    OthersMiss(lay, LedN);
  }

  lemma SideLedsAreNot(lay: LedLayout, n: LedName)
    requires Distinct(lay) && n !in {LedL7, LedL8, LedR7, LedR8}
    ensures lay.index(n) !in {lay.index(LedL7), lay.index(LedL8), lay.index(LedR7), lay.index(LedR8)}
  {
    OthersMiss(lay, n);
  }

  /** On _FN1 LED_N ends ORANGE2 whatever the host's Num Lock, unless the timeout indicator
      lights it, in which case it ends CYAN. */
  lemma NOnFn1(colors: seq<Color>, lay: LedLayout, nightmode: bool, host: LedState, noGui: bool, t: uint16)
    requires WellFormed(lay) && Distinct(lay) && lay.count == |colors|
    ensures Painted(colors, lay, nightmode, host, noGui, FN1, t)[lay.index(LedN)] == if lay.index(LedN) in TimeoutLeds(lay, t) then Cyan else Orange2
  {
    var start := if nightmode then AllOf(|colors|, Off) else colors;
    var locks := LockWrites(lay, host, noGui);
    var ws := locks + Fn1KeyWrites(lay);
    assert ws[|locks| + 10] == Named(lay, LedN, Orange2);
    Fn1KeysAfterN(lay);
    HitThenMiss(start, ws, |locks| + 10);
    SideLedsAreNot(lay, LedN);
    AfterFn1Keys(start, lay, locks, t, lay.index(LedN));
  }

  /** On _FN2 every entry of LED_LIST_NUMPAD that is not a side LED ends OFFBLUE. */
  lemma NumpadOnFn2(colors: seq<Color>, lay: LedLayout, nightmode: bool, host: LedState, noGui: bool, t: uint16, k: nat)
    requires WellFormed(lay) && lay.count == |colors| && k < |lay.numpad|
    requires lay.numpad[k] !in {lay.index(LedL5), lay.index(LedL6), lay.index(LedR5), lay.index(LedR6)}
    ensures Painted(colors, lay, nightmode, host, noGui, FN2, t)[lay.numpad[k]] == OffBlue
  {
    var start := if nightmode then AllOf(|colors|, Off) else colors;
    var locks, pad, side := LockWrites(lay, host, noGui), NumpadWrites(lay.numpad), SideWrites(lay, LedL5, LedL6, LedR5, LedR6, Purple2);
    var afterLocks := ApplyWrites(start, locks);
    ApplyWritesConcat(start, locks, pad + side);
    ApplyWritesConcat(afterLocks, pad, side);
    OneColorHit(afterLocks, pad, OffBlue, k);
    SideMiss(ApplyWrites(afterLocks, pad), lay, LedL5, LedL6, LedR5, LedR6, Purple2, lay.numpad[k]);
  }

  /** On _FN2 the four side LEDs L5, L6, R5 and R6 end PURPLE2. */
  lemma SideOnFn2(colors: seq<Color>, lay: LedLayout, nightmode: bool, host: LedState, noGui: bool, t: uint16, n: LedName)
    requires WellFormed(lay) && lay.count == |colors| && n in {LedL5, LedL6, LedR5, LedR6}
    ensures Painted(colors, lay, nightmode, host, noGui, FN2, t)[lay.index(n)] == Purple2
  {
    var start := if nightmode then AllOf(|colors|, Off) else colors;
    var locks, pad, side := LockWrites(lay, host, noGui), NumpadWrites(lay.numpad), SideWrites(lay, LedL5, LedL6, LedR5, LedR6, Purple2);
    var afterLocks := ApplyWrites(start, locks);
    ApplyWritesConcat(start, locks, pad + side);
    ApplyWritesConcat(afterLocks, pad, side);
    SideHit(ApplyWrites(afterLocks, pad), lay, LedL5, LedL6, LedR5, LedR6, Purple2, n);
  }

  // ---- the colour buffer, written in place ----

  /** The frame's colour buffer that rgb_matrix_set_color writes into. */
  class LedBuffer {
    const colors: array<Color>

    /** A fresh frame of `count` LEDs, all off; it only sets up the buffer the painter
        methods write into, and stands for no function of the source. */
    constructor (count: nat)
      ensures colors.Length == count && fresh(colors)
    {
      colors := new Color[count](_ => Off);
    }

    /** rgb_matrix_set_color. */
    method SetColor(i: nat, c: Color)
      modifies colors
      ensures colors[..] == ApplyWrite(old(colors[..]), Write(i, c))
    {
      if i < colors.Length {
        colors[i] := c;
      }
    }

    /** rgb_matrix_set_color_all. */
    method SetColorAll(c: Color)
      modifies colors
      ensures colors[..] == AllOf(colors.Length, c)
    {
      for i := 0 to colors.Length
        invariant forall j :: 0 <= j < i ==> colors[j] == c
      {
        colors[i] := c;
      }
    }
  }

  /** One write, with the writes made so far recorded for the proof. */
  method Put(m: LedBuffer, w: Write, ghost start: seq<Color>, ghost done: seq<Write>) returns (ghost done': seq<Write>)
    requires m.colors[..] == ApplyWrites(start, done)
    modifies m.colors
    ensures done' == done + [w] && m.colors[..] == ApplyWrites(start, done')
  {
    m.SetColor(w.led, w.color);
    done' := done + [w];
    assert done'[..|done'| - 1] == done;
  }

  /** The lock and Win-lock indicators. */
  method PaintLocks(m: LedBuffer, lay: LedLayout, host: LedState, noGui: bool)
    modifies m.colors
    ensures m.colors[..] == ApplyWrites(old(m.colors[..]), LockWrites(lay, host, noGui))
  {
    ghost var done: seq<Write>;
    ghost var start := m.colors[..];
    if host.scrollLock {
      done := Put(m, Named(lay, LedF11, Red), start, []);
      assert done == ScrollLockWrites(lay, host);
    }
    assert m.colors[..] == ApplyWrites(start, ScrollLockWrites(lay, host));
    ghost var scroll := m.colors[..];
    if host.numLock {
      done := Put(m, Named(lay, LedN, Orange2), scroll, []);
      done := Put(m, Named(lay, LedFn, Orange2), scroll, done);
      assert done == NumLockWrites(lay, host);
    }
    assert m.colors[..] == ApplyWrites(scroll, NumLockWrites(lay, host));
    ghost var num := m.colors[..];
    if host.capsLock {
      done := Put(m, Named(lay, LedL6, White), num, []);
      done := Put(m, Named(lay, LedL7, White), num, done);
      done := Put(m, Named(lay, LedL8, White), num, done);
      done := Put(m, Named(lay, LedCaps, White), num, done);
      assert done == CapsLockWrites(lay, host);
    }
    assert m.colors[..] == ApplyWrites(num, CapsLockWrites(lay, host));
    ghost var caps := m.colors[..];
    if noGui {
      done := Put(m, Named(lay, LedLwin, Red), caps, []);
      assert done == WinLockWrites(lay, noGui);
    }
    assert m.colors[..] == ApplyWrites(caps, WinLockWrites(lay, noGui));
    ApplyWritesConcat(start, ScrollLockWrites(lay, host), NumLockWrites(lay, host));
    ApplyWritesConcat(start, ScrollLockWrites(lay, host) + NumLockWrites(lay, host), CapsLockWrites(lay, host));
    ApplyWritesConcat(start, ScrollLockWrites(lay, host) + NumLockWrites(lay, host) + CapsLockWrites(lay, host), WinLockWrites(lay, noGui));
  }

  /** The _FN1 block. */
  method PaintFn1(m: LedBuffer, lay: LedLayout, t: uint16)
    requires WellFormed(lay)
    modifies m.colors
    ensures m.colors[..] == ApplyWrites(old(m.colors[..]), LayerWrites(lay, FN1, t))
  {
    ghost var start := m.colors[..];
    PaintFn1Upper(m, lay);
    PaintFn1Lower(m, lay);
    ApplyWritesConcat(start, Fn1UpperWrites(lay), Fn1LowerWrites(lay));
    PaintTimeout(m, lay, t);
    ApplyWritesConcat(start, Fn1KeyWrites(lay), TimeoutWrites(lay, t));
    PaintSide(m, lay, LedL7, LedL8, LedR7, LedR8, Purple2);
    ApplyWritesConcat(start, Fn1KeyWrites(lay) + TimeoutWrites(lay, t), SideWrites(lay, LedL7, LedL8, LedR7, LedR8, Purple2));
  }

  /** The function-row keys, FN, LWIN and BSLS of the _FN1 block. */
  method PaintFn1Upper(m: LedBuffer, lay: LedLayout)
    modifies m.colors
    ensures m.colors[..] == ApplyWrites(old(m.colors[..]), Fn1UpperWrites(lay))
  {
    ghost var start := m.colors[..];
    ghost var done: seq<Write> := [];
    done := Put(m, Named(lay, LedF6, Red), start, done);
    done := Put(m, Named(lay, LedF7, Red), start, done);
    done := Put(m, Named(lay, LedF8, Red), start, done);
    done := Put(m, Named(lay, LedF10, Yellow2), start, done);
    done := Put(m, Named(lay, LedF11, Yellow2), start, done);
    done := Put(m, Named(lay, LedF12, Yellow2), start, done);
    done := Put(m, Named(lay, LedIns, Yellow2), start, done);
    done := Put(m, Named(lay, LedFn, OffBlue), start, done);
    done := Put(m, Named(lay, LedLwin, Red), start, done);
    done := Put(m, Named(lay, LedBsls, Red), start, done);
    assert done == Fn1UpperWrites(lay);
  }

  /** N, the right-hand modifiers, Z, X and the arrows of the _FN1 block. */
  method PaintFn1Lower(m: LedBuffer, lay: LedLayout)
    modifies m.colors
    ensures m.colors[..] == ApplyWrites(old(m.colors[..]), Fn1LowerWrites(lay))
  {
    ghost var start := m.colors[..];
    ghost var done: seq<Write> := [];
    done := Put(m, Named(lay, LedN, Orange2), start, done);
    done := Put(m, Named(lay, LedRalt, Red), start, done);
    done := Put(m, Named(lay, LedRctl, Green), start, done);
    done := Put(m, Named(lay, LedRsft, Blue), start, done);
    done := Put(m, Named(lay, LedZ, Purple2), start, done);
    done := Put(m, Named(lay, LedX, Purple2), start, done);
    done := Put(m, Named(lay, LedUp, Green), start, done);
    done := Put(m, Named(lay, LedDown, Green), start, done);
    done := Put(m, Named(lay, LedLeft, Blue), start, done);
    done := Put(m, Named(lay, LedRight, Blue), start, done);
    assert done == Fn1LowerWrites(lay);
  }

  /** The timeout indicator of the _FN1 block. */
  method PaintTimeout(m: LedBuffer, lay: LedLayout, t: uint16)
    requires WellFormed(lay)
    modifies m.colors
    ensures m.colors[..] == ApplyWrites(old(m.colors[..]), TimeoutWrites(lay, t))
  {
    ghost var start := m.colors[..];
    ghost var done: seq<Write> := [];
    ghost var ws := TimeoutWrites(lay, t);
    if t <= 10 {
      assert ws == [Write(lay.funcRow[t], Cyan)];
      done := Put(m, Write(lay.funcRow[t], Cyan), start, done);
    } else if t < 140 {
      assert ws == [Write(lay.funcRow[t / 10], Cyan), Write(lay.numRow[t % 10], Cyan)];
      done := Put(m, Write(lay.funcRow[t / 10], Cyan), start, done);
      done := Put(m, Write(lay.numRow[t % 10], Cyan), start, done);
    } else {
      assert ws == [Write(lay.numRow[10], Cyan), Write(lay.numRow[11], Cyan), Write(lay.numRow[12], Cyan)];
      done := Put(m, Write(lay.numRow[10], Cyan), start, done);
      done := Put(m, Write(lay.numRow[11], Cyan), start, done);
      done := Put(m, Write(lay.numRow[12], Cyan), start, done);
    }
    assert done == ws;
  }

  /** Four side LEDs in one colour. */
  method PaintSide(m: LedBuffer, lay: LedLayout, a: LedName, b: LedName, c: LedName, d: LedName, color: Color)
    modifies m.colors
    ensures m.colors[..] == ApplyWrites(old(m.colors[..]), SideWrites(lay, a, b, c, d, color))
  {
    ghost var start := m.colors[..];
    ghost var done: seq<Write> := [];
    done := Put(m, Named(lay, a, color), start, done);
    done := Put(m, Named(lay, b, color), start, done);
    done := Put(m, Named(lay, c, color), start, done);
    done := Put(m, Named(lay, d, color), start, done);
    assert done == SideWrites(lay, a, b, c, d, color);
  }

  /** The _FN2 block: the numpad keys, one by one, then its side LEDs. */
  method PaintFn2(m: LedBuffer, lay: LedLayout)
    requires WellFormed(lay)
    modifies m.colors
    ensures m.colors[..] == ApplyWrites(old(m.colors[..]), LayerWrites(lay, FN2, 0))
  {
    ghost var start := m.colors[..];
    ghost var done: seq<Write> := [];
    for i: uint8 := 0 to |lay.numpad|
      invariant done == NumpadWrites(lay.numpad[..i])
      invariant m.colors[..] == ApplyWrites(start, done)
    {
      done := Put(m, Write(lay.numpad[i], OffBlue), start, done);
    }
    assert lay.numpad[..|lay.numpad|] == lay.numpad;
    PaintSide(m, lay, LedL5, LedL6, LedR5, LedR6, Purple2);
    ApplyWritesConcat(start, NumpadWrites(lay.numpad), SideWrites(lay, LedL5, LedL6, LedR5, LedR6, Purple2));
  }

  /** The switch on the highest active layer: the block of _FN1, _FN2, _FN3 or _FN4, and
      nothing for any other layer. */
  method PaintLayer(m: LedBuffer, lay: LedLayout, layer: nat, t: uint16)
    requires WellFormed(lay)
    modifies m.colors
    ensures m.colors[..] == ApplyWrites(old(m.colors[..]), LayerWrites(lay, layer, t))
  {
    if layer == FN1 {
      PaintFn1(m, lay, t);
    } else if layer == FN2 {
      PaintFn2(m, lay);
    } else if layer == FN3 {
      PaintSide(m, lay, LedL3, LedL4, LedR3, LedR4, Orange2);
    } else if layer == FN4 {
      PaintSide(m, lay, LedL1, LedL2, LedR1, LedR2, DkRed);
    }
  }

  /** rgb_matrix_indicators_advanced_user. The night-mode flag, no_gui and the threshold are
      read from the userspace; `host` is host_keyboard_led_state() and `layers` the layer state.
      led_min and led_max are not used by the painter. The result is always false. */
  method IndicatorsAdvancedUser(m: LedBuffer, lay: LedLayout, ledMin: uint8, ledMax: uint8, u: Userspace, host: LedState, layers: LayerState) returns (r: bool)
    requires WellFormed(lay) && u.Valid()
    modifies m.colors
    ensures !r
    ensures m.colors[..] == Painted(old(m.colors[..]), lay, u.rgbNightmode, host, u.noGui, HighestLayer(layers), u.timeoutThreshold)
  {
    ghost var start := if u.rgbNightmode then AllOf(m.colors.Length, Off) else m.colors[..];
    if u.GetRgbNightmode() {
      m.SetColorAll(Off);
    }
    PaintLocks(m, lay, host, u.noGui);
    PaintLayer(m, lay, HighestLayer(layers), u.GetTimeoutThreshold());
    ApplyWritesConcat(start, LockWrites(lay, host, u.noGui), LayerWrites(lay, HighestLayer(layers), u.timeoutThreshold));
    return false;
  }
}
