/** The idle timeout of the userspace: after a number of idle minutes, the RGB matrix is switched off.

    Three pieces of state: a threshold in minutes (0 switches the feature off),
    a count of whole idle minutes, and the 16-bit clock reading at which the
    current minute started.
 */
module Timeout {
  import opened Framework

  const TIMEOUT_THRESHOLD_DEFAULT: uint16 := 4
  const TIMEOUT_THRESHOLD_MAX: uint16 := 140
  /** Length of one idle minute on the millisecond clock. */
  const MINUTE_MS: uint16 := 60000

  datatype TimeoutState = TimeoutState(timer: uint16, counter: uint16, threshold: uint16)

  /** The result of one tick: the new state, and whether rgb_matrix_disable_noeeprom was called. */
  datatype TickResult = TickResult(state: TimeoutState, disableRgb: bool)

  /** timeout_update_threshold: one minute more or less, saturating at 0 and at TIMEOUT_THRESHOLD_MAX. */
  function UpdateThreshold(threshold: uint16, increase: bool): (r: uint16)
    ensures threshold <= TIMEOUT_THRESHOLD_MAX ==> r <= TIMEOUT_THRESHOLD_MAX
    ensures increase ==> threshold <= r <= threshold + 1
    ensures !increase ==> threshold - 1 <= r <= threshold
    ensures r == threshold <==> (increase && threshold >= TIMEOUT_THRESHOLD_MAX) || (!increase && threshold == 0)
  {
    if increase && threshold < TIMEOUT_THRESHOLD_MAX then threshold + 1
    else if !increase && threshold > 0 then threshold - 1
    else threshold
  }

  /** timeout_reset_timer: the current minute restarts now, and no idle minute has passed. */
  function Reset(s: TimeoutState, now: uint16): (r: TimeoutState)
    ensures r.counter == 0 && r.timer == now && r.threshold == s.threshold
  {
    s.(timer := now, counter := 0)
  }

  /** timeout_tick_timer, run on every matrix scan with the clock reading `now`. */
  function Tick(s: TimeoutState, now: uint16): (r: TickResult)
    ensures r.state.threshold == s.threshold
    ensures s.threshold == 0 ==> r.state == s && !r.disableRgb
  {
    if s.threshold > 0 then
      var minutePassed := TimerElapsed(now, s.timer) >= MINUTE_MS;
      var counter := if minutePassed then (s.counter + 1) % 0x1_0000 else s.counter;
      var timer := if minutePassed then now else s.timer;
      TickResult(TimeoutState(timer, counter, s.threshold), counter >= s.threshold)
    else
      TickResult(s, false)
  }

  /** Raising and then lowering the threshold gives it back, unless it was at the maximum. */
  lemma UpdateThresholdUpDown(threshold: uint16)
    requires threshold < TIMEOUT_THRESHOLD_MAX
    ensures UpdateThreshold(UpdateThreshold(threshold, true), false) == threshold
  {
  }

  /** Lowering and then raising the threshold gives it back, unless it was 0. */
  lemma UpdateThresholdDownUp(threshold: uint16)
    requires 0 < threshold <= TIMEOUT_THRESHOLD_MAX
    ensures UpdateThreshold(UpdateThreshold(threshold, false), true) == threshold
  {
  }

  /** A tick with a positive threshold: the counter advances by one minute (on the 16-bit
      counter) exactly when 60000 ms have passed on the 16-bit clock, the minute restarts
      at the same moment, and the RGB is switched off exactly when the count has reached
      the threshold. */
  lemma TickWithPositiveThreshold(s: TimeoutState, now: uint16)
    requires s.threshold > 0
    ensures var r := Tick(s, now);
      var minutePassed := TimerElapsed(now, s.timer) >= MINUTE_MS;
      && (minutePassed ==> r.state.counter == (s.counter + 1) % 0x1_0000 && r.state.timer == now)
      && (!minutePassed ==> r.state.counter == s.counter && r.state.timer == s.timer)
      && (r.disableRgb <==> r.state.counter >= s.threshold)
  {
  }

  /** Below 65535 idle minutes the counter never grows by more than one per tick. */
  lemma TickCounterAtMostOne(s: TimeoutState, now: uint16)
    requires s.counter < 0xFFFF
    ensures s.counter <= Tick(s, now).state.counter <= s.counter + 1
  {
  }

  /** The state after a series of ticks at the given clock readings, and whether any of them switched the RGB off. */
  function TickAll(s: TimeoutState, clock: seq<uint16>): (r: TickResult)
    ensures r.state.threshold == s.threshold
    decreases |clock|
  {
    if clock == [] then TickResult(s, false)
    else
      var first := Tick(s, clock[0]);
      var rest := TickAll(first.state, clock[1..]);
      TickResult(rest.state, first.disableRgb || rest.disableRgb)
  }

  /** Idle time is counted in whole minutes: fewer ticks than the minutes still missing
      never switch the RGB off, and the counter grows by at most one per tick. */
  lemma {:induction false} TicksBeforeThresholdKeepRgb(s: TimeoutState, clock: seq<uint16>)
    requires s.counter + |clock| < s.threshold
    ensures !TickAll(s, clock).disableRgb
    ensures TickAll(s, clock).state.counter <= s.counter + |clock|
    decreases |clock|
  {
    if clock != [] {
      var first := Tick(s, clock[0]);
      assert first.state.counter <= s.counter + 1;
      TicksBeforeThresholdKeepRgb(first.state, clock[1..]);
    }
  }

  /** Once the count has reached a positive threshold it stays there: over a series of
      ticks it grows by at most one per tick and never drops below the threshold (as long
      as the 16-bit counter does not wrap). */
  lemma {:induction false} CountStaysAtThreshold(s: TimeoutState, clock: seq<uint16>)
    requires 0 < s.threshold <= s.counter
    requires s.counter + |clock| < 0x1_0000
    ensures s.threshold <= TickAll(s, clock).state.counter <= s.counter + |clock|
    decreases |clock|
  {
    if clock != [] {
      var first := Tick(s, clock[0]);
      assert s.counter <= first.state.counter <= s.counter + 1;
      CountStaysAtThreshold(first.state, clock[1..]);
    }
  }

  /** Once the count has reached a positive threshold, every later tick switches the RGB
      off again (until the 16-bit counter wraps after 65535 minutes): the tick at clock[k],
      made after the ticks at clock[..k], calls rgb_matrix_disable_noeeprom. */
  lemma {:induction false} TicksAfterThresholdDisableRgb(s: TimeoutState, clock: seq<uint16>)
    requires 0 < s.threshold <= s.counter
    requires s.counter + |clock| < 0x1_0000
    requires clock != []
    ensures TickAll(s, clock).disableRgb
    ensures s.threshold <= TickAll(s, clock).state.counter
    ensures forall k :: 0 <= k < |clock| ==> Tick(TickAll(s, clock[..k]).state, clock[k]).disableRgb
  {
    var first := Tick(s, clock[0]);
    assert first.disableRgb;
    CountStaysAtThreshold(s, clock);
    forall k | 0 <= k < |clock|
      ensures Tick(TickAll(s, clock[..k]).state, clock[k]).disableRgb
    {
      CountStaysAtThreshold(s, clock[..k]);
      var before := TickAll(s, clock[..k]).state;
      assert before.counter < 0xFFFF;
      assert Tick(before, clock[k]).state.counter >= before.counter;
    }
  }
}
