/**
 * The LED aggregate: the `led_red` (`INT32U`) and `led_green` (`INT16U`)
 * globals into which the tasks OR indicator bits during one period, and
 * which the vehicle task writes to the LED registers and clears. A word is
 * modelled as the set of its bit numbers that are set, so OR-ing in a mask
 * is a union. The bit `show_position` lights for the vehicle's place on the
 * track is here too.
 */
module Leds {
  import opened CTypes

  /**
   * The LED masks of the source, each given as the number of the one bit it
   * sets (`Leds.LedMasks` ties every number to its mask).
   */
  const LED_RED_0 := 0      // 0x00000001: engine
  const LED_RED_1 := 1      // 0x00000002: top gear
  const LED_GREEN_2 := 1    // 0x0002: lit while cruise holds; bit 1, so LEDG1
  const LED_GREEN_4 := 4    // 0x0010: brake pedal
  const LED_GREEN_6 := 6    // 0x0040: gas pedal

  /** The board has 18 red LEDs, LEDR0-LEDR17. */
  const RED_LED_COUNT := 18
  /** Metres of track per position indicator (`step` in `show_position`). */
  const TRACK_STEP := 400
  const TRACK_LENGTH := 2400

  /** Whether bit `i` of a word is set. */
  predicate BitSet(w: bv32, i: nat)
    requires i < 32
  {
    w & ((1 as bv32) << i) != 0
  }

  /** The numbers of the bits set in a word: the LEDs a mask lights. */
  function BitsOf(w: bv32): (bits: set<nat>)
    ensures forall i :: i in bits <==> i < 32 && BitSet(w, i)
  {
    set i: nat | i < 32 && BitSet(w, i)
  }

  /** Bit `i` of `a | b` is set exactly when it is set in `a` or in `b`. */
  lemma BitSetOr(a: bv32, b: bv32, i: nat)
    requires i < 32
    ensures BitSet(a | b, i) <==> BitSet(a, i) || BitSet(b, i)
  {
    var m := (1 as bv32) << i;
    assert (a | b) & m == (a & m) | (b & m);
  }

  /** OR-ing two words sets exactly the bits set in either: OR on a word is union on its bits. */
  lemma BitsOfOr(a: bv32, b: bv32)
    ensures BitsOf(a | b) == BitsOf(a) + BitsOf(b)
  {
    forall i: nat | i < 32
      ensures i in BitsOf(a | b) <==> i in BitsOf(a) || i in BitsOf(b)
    {
      BitSetOr(a, b, i);
    }
  }

  /** Bit `j` of the one-bit mask `1 << i` is set exactly when `j` is `i`. */
  lemma BitSetOne(i: nat, j: nat)
    requires i < 32 && j < 32
    ensures BitSet((1 as bv32) << i, j) <==> j == i
  {
    if j != i {
      assert ((1 as bv32) << i) & ((1 as bv32) << j) == 0;
    }
  }

  /** A one-bit mask `1 << i` sets bit `i` and no other. */
  lemma BitsOfBit(i: nat)
    requires i < 32
    ensures BitsOf((1 as bv32) << i) == {i}
  {
    var mask := (1 as bv32) << i;
    forall j: nat | j < 32
      ensures j in BitsOf(mask) <==> j == i
    {
      BitSetOne(i, j);
    }
  }

  /**
   * The LED masks of the source and the bit numbers that stand for them:
   * `LED_RED_0` 0x00000001, `LED_RED_1` 0x00000002, `LED_GREEN_2` 0x0002,
   * `LED_GREEN_4` 0x0010 and `LED_GREEN_6` 0x0040.
   */
  lemma LedMasks()
    ensures BitsOf(0x0000_0001) == {LED_RED_0}
    ensures BitsOf(0x0000_0002) == {LED_RED_1}
    ensures BitsOf(0x0002) == {LED_GREEN_2}
    ensures BitsOf(0x0010) == {LED_GREEN_4}
    ensures BitsOf(0x0040) == {LED_GREEN_6}
  {
    BitsOfBit(0);
    BitsOfBit(1);
    BitsOfBit(4);
    BitsOfBit(6);
  }

  /**
   * The bit `show_position` sets, `4096 << (position / 400)`. The shift is
   * taken in a signed `int`, so the source needs `position / 400 <= 18`.
   * A position on the track lights one of LEDR12-LEDR17, one LED per 400 m
   * band, but the end of the track, 2400 m, sets bit 18, which has no LED.
   */
  function PositionLed(position: UInt16): (bit: nat)
    requires position / TRACK_STEP <= 18
    ensures bit < 32 && (1 as bv32) << bit == (4096 as bv32) << (position / TRACK_STEP)
    ensures position < TRACK_LENGTH ==> RED_LED_COUNT - 6 <= bit < RED_LED_COUNT
    ensures position == TRACK_LENGTH ==> bit == RED_LED_COUNT
  {
    12 + position / TRACK_STEP
  }

  /** The mask `show_position` ORs into `led_red` sets the one bit `PositionLed` names. */
  lemma PositionMask(position: UInt16)
    requires position / TRACK_STEP <= 18
    ensures BitsOf((4096 as bv32) << (position / TRACK_STEP)) == {PositionLed(position)}
  {
    BitsOfBit(PositionLed(position));
  }

  /** The two LED globals, shared by every task: the numbers of the bits set. */
  class Indicators {
    var red: set<nat>
    var green: set<nat>

    /** Both globals start at 0. */
    constructor ()
      ensures red == {} && green == {}
    {
      red := {};
      green := {};
    }

    /** `led_red = led_red | bits` */
    method LightRed(bits: set<nat>)
      modifies this
      ensures red == old(red) + bits && green == old(green)
    {
      red := red + bits;
    }

    /** `led_green = led_green | bits` */
    method LightGreen(bits: set<nat>)
      modifies this
      ensures green == old(green) + bits && red == old(red)
    {
      green := green + bits;
    }

    /**
     * Hands the accumulated bits to the LED registers and clears both
     * globals for the next period.
     */
    method Flush() returns (redOut: set<nat>, greenOut: set<nat>)
      modifies this
      ensures redOut == old(red) && greenOut == old(green)
      ensures red == {} && green == {}
    {
      redOut, greenOut := red, green;
      red, green := {}, {};
    }
  }
}
