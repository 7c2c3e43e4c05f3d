/**
 * The seven-segment display encoding: the 11-entry digit table, the word
 * that packs a sign and two digits for one 28-bit display register, and a
 * decoder that reads the shown value back from such a word.
 */
module SevenSeg {
  import opened CTypes

  /**
   * `b2sLUT`: the segment pattern of each digit 0-9 and, at index 10, of the
   * dash used as a minus sign.
   */
  const B2S: seq<bv8> := [0x40, 0x79, 0x24, 0x30, 0x19, 0x12, 0x02, 0x78, 0x00, 0x18, 0x3F]
  const DASH := 10

  /** Which table entry a segment pattern is, if any: the inverse of `Int2Seven`. */
  function DigitOf(seg: bv8): (r: Option<nat>)
    ensures r.Some? ==> r.value < |B2S| && B2S[r.value] == seg
  {
    if seg == 0x40 then Some(0)
    else if seg == 0x79 then Some(1)
    else if seg == 0x24 then Some(2)
    else if seg == 0x30 then Some(3)
    else if seg == 0x19 then Some(4)
    else if seg == 0x12 then Some(5)
    else if seg == 0x02 then Some(6)
    else if seg == 0x78 then Some(7)
    else if seg == 0x00 then Some(8)
    else if seg == 0x18 then Some(9)
    else if seg == 0x3F then Some(DASH)
    else None
  }

  /**
   * `int2seven`: a plain read of the table, so the index must lie inside
   * it. Every pattern fits in seven bits and the table is injective.
   */
  function Int2Seven(i: int): (r: bv8)
    requires 0 <= i < |B2S|
    ensures r < 0x80
    ensures DigitOf(r) == Some(i)
  {
    B2S[i]
  }

  /** The four seven-bit fields of a display word, lowest digit first. */
  function LowField(w: bv32): bv8 { (w & 0x7F) as bv8 }
  function HighField(w: bv32): bv8 { ((w >> 7) & 0x7F) as bv8 }
  function SignField(w: bv32): bv8 { ((w >> 14) & 0x7F) as bv8 }
  function TopField(w: bv32): bv8 { ((w >> 21) & 0x7F) as bv8 }

  /**
   * The packing of `show_velocity_on_sevenseg` and `show_target_velocity`:
   * the pattern of 0 on the leftmost digit, then the sign, the tens and the
   * units. Each pattern lands in its own field and bits 28-31 stay clear.
   */
  function Pack(sign: bv8, high: bv8, low: bv8): (w: bv32)
    requires sign < 0x80 && high < 0x80 && low < 0x80
    ensures LowField(w) == low && HighField(w) == high && SignField(w) == sign
    ensures TopField(w) == Int2Seven(0) && w >> 28 == 0
  {
    ((Int2Seven(0) as bv32) << 21) | ((sign as bv32) << 14) | ((high as bv32) << 7) | (low as bv32)
  }

  /**
   * The value a display word shows: a sign field (0 or dash), a tens field
   * (0-9, or the dash standing for 10) and a units field (0-9).
   */
  function DecodeWord(w: bv32): (r: Option<int>)
  {
    match (DigitOf(TopField(w)), DigitOf(SignField(w)), DigitOf(HighField(w)), DigitOf(LowField(w)))
    case (Some(0), Some(s), Some(h), Some(l)) =>
      if (s == 0 || s == DASH) && l < 10 && w >> 28 == 0 then
        Some(if s == DASH then -(10 * h + l) else 10 * h + l)
      else None
    case _ => None
  }

  /**
   * The word both display routines build from an `int` value. The source
   * reads `b2sLUT[tmp / 10]` unchecked, so a magnitude of 110 or more reads
   * past the table; that case is `None`.
   */
  function SevenSegWord(value: int): (r: Option<bv32>)
    ensures r.Some? <==> -109 <= value <= 109
    ensures r.Some? ==> SignField(r.value) == (if value < 0 then 0x3F else 0x40)
    ensures r.Some? ==> DecodeWord(r.value) == Some(value)
  {
    var sign := if value < 0 then Int2Seven(DASH) else Int2Seven(0);
    var tmp := if value < 0 then -value else value;
    if tmp / 10 < |B2S| then
      var w := Pack(sign, Int2Seven(tmp / 10), Int2Seven(tmp - (tmp / 10) * 10));
      assert DigitOf(SignField(w)) == Some(if value < 0 then DASH else 0);
      Some(w)
    else
      None
  }

  /**
   * `show_velocity_on_sevenseg`: the signed value in [-109, 109] is shown
   * and can be read back; any other value reads past the table.
   */
  function ShowVelocity(velocity: Int8): (r: Option<bv32>)
    ensures r.Some? <==> -109 <= velocity <= 109
    ensures r.Some? ==> DecodeWord(r.value) == Some(velocity as int)
  {
    SevenSegWord(velocity)
  }

  /**
   * `show_target_velocity`: an `INT8U` is never negative, so the sign field
   * always shows 0; targets above 109 read past the table.
   */
  function ShowTargetVelocity(target: UInt8): (r: Option<bv32>)
    ensures r.Some? <==> target <= 109
    ensures r.Some? ==> SignField(r.value) == Int2Seven(0)
    ensures r.Some? ==> DecodeWord(r.value) == Some(target as int)
  {
    SevenSegWord(target)
  }
}
