/**
 * The arithmetic of `ExtraTask`, the overload generator: the overload
 * selector read from the switches becomes a percentage of the period, which
 * is shown capped at 100 %, and a busy-wait duration in OS ticks.
 */
module Overload {
  import opened CTypes
  import Inputs

  /**
   * The period every task runs with, in milliseconds (`HYPER_PERIOD`).
   * The busy loop counts OS ticks, so comparing its length with this
   * period takes one OS tick to be 1 ms, as the comment on that loop does;
   * the tick rate is a board setting this model does not see.
   */
  const HYPER_PERIOD := 300

  /**
   * `overload_p` (an `INT16U`), the percentage printed, and the number of
   * ticks the busy loop spins for.
   */
  datatype Load = Load(percent: UInt16, shown: UInt16, busyTicks: nat)

  /**
   * One iteration of `ExtraTask` on the received overload value: the
   * percentage is twice the selector (modulo 2^16, as an `INT16U`), the
   * printed value is capped at 100, and the busy time is three ticks per
   * percent, uncapped.
   */
  function ExtraLoad(overload: UInt16): (r: Load)
    ensures overload < 0x8000 ==> r.percent == 2 * overload
    ensures r.shown <= 100
    ensures r.shown == r.percent || (r.percent > 100 && r.shown == 100)
    ensures r.busyTicks == 3 * r.percent
  {
    var percent := ToUInt16(2 * overload);
    Load(percent, if percent > 100 then 100 else percent, 3 * percent)
  }

  /**
   * For an overload value that came from the switches: no 16-bit wrap
   * occurs, the percentage is at most 126, and the busy time exceeds one
   * 300-tick period exactly when the selector asks for more than 100 %.
   */
  lemma SwitchLoad(switches: bv32)
    ensures var o := Inputs.DecodeSwitches(switches).overload as int;
      var r := ExtraLoad(o);
      && r.percent == 2 * o <= 126
      && r.busyTicks == 6 * o
      && (r.busyTicks > HYPER_PERIOD <==> o > 50)
  {
    var o := Inputs.DecodeSwitches(switches).overload;
    assert o < 64;
  }
}
