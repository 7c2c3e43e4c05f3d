/**
 * The C integer types of the uC/OS-II port the firmware is built for, the
 * conversions the compiler applies when a value is stored into a narrower
 * type, C's truncating division, and the firmware's on/off flag type.
 */
module CTypes {

  /** `INT8S`, `INT8U`, `INT16S`, `INT16U` and a 32-bit `unsigned int`. */
  type Int8 = x: int | -0x80 <= x < 0x80
  type UInt8 = x: int | 0 <= x < 0x100
  type Int16 = x: int | -0x8000 <= x < 0x8000
  type UInt16 = x: int | 0 <= x < 0x1_0000
  type UInt32 = x: int | 0 <= x < 0x1_0000_0000

  /** `enum active { on = 2, off = 1 }`: every flag the tasks exchange. */
  datatype Active = On | Off

  datatype Option<T> = None | Some(value: T)

  /** The flag that is `on` exactly when `b` holds. */
  function Flag(b: bool): (r: Active)
    ensures r == On <==> b
  {
    if b then On else Off
  }

  /**
   * The value a task keeps after a non-blocking mailbox read: the message
   * when one was pending, the last known value otherwise.
   */
  function Latest<T>(msg: Option<T>, last: T): (r: T)
    ensures msg.Some? ==> r == msg.value
    ensures msg.None? ==> r == last
  {
    match msg
    case Some(v) => v
    case None => last
  }

  /** Storing an `int` into an `INT8U`: the value modulo 2^8. */
  function ToUInt8(x: int): (r: UInt8)
    ensures 0 <= x < 0x100 ==> r == x
  {
    x % 0x100
  }

  /** Storing an `int` into an `INT16U`: the value modulo 2^16. */
  function ToUInt16(x: int): (r: UInt16)
    ensures 0 <= x < 0x1_0000 ==> r == x
  {
    x % 0x1_0000
  }

  /** Arithmetic in `unsigned int`: the value modulo 2^32. */
  function ToUInt32(x: int): (r: UInt32)
    ensures 0 <= x < 0x1_0000_0000 ==> r == x
  {
    x % 0x1_0000_0000
  }

  /**
   * Storing a wider value into an `INT8S`: two's-complement wrap-around,
   * which is what the target's compiler does with the low eight bits.
   */
  function ToInt8(x: int): (r: Int8)
    ensures -0x80 <= x < 0x80 ==> r == x
  {
    (x + 0x80) % 0x100 - 0x80
  }

  /** Storing a wider value into an `INT16S`: two's-complement wrap-around. */
  function ToInt16(x: int): (r: Int16)
    ensures -0x8000 <= x < 0x8000 ==> r == x
  {
    (x + 0x8000) % 0x1_0000 - 0x8000
  }

  /** C's `/` on integers: the quotient truncated toward zero. */
  function DivTrunc(a: int, b: int): (q: int)
    requires b > 0
    ensures 0 <= a ==> 0 <= a - q * b < b
    ensures a < 0 ==> -b < a - q * b <= 0
  {
    if a >= 0 then a / b else -((-a) / b)
  }

  /** Adding a multiple of 2^16 does not change the `INT16S` a value is stored as. */
  lemma ToInt16Shift(y: int, k: int)
    ensures ToInt16(y + k * 0x1_0000) == ToInt16(y)
  {
    assert (y + k * 0x1_0000) + 0x8000 == (y + 0x8000) + k * 0x1_0000;
  }

  /** Wrapping an intermediate result to `INT16S` does not change the final wrap. */
  lemma ToInt16Add(x: int, y: int)
    ensures ToInt16(ToInt16(x) + y) == ToInt16(x + y)
  {
    var k := (x + 0x8000) / 0x1_0000;
    assert ToInt16(x) + y == (x + y) + (-k) * 0x1_0000;
    ToInt16Shift(x + y, -k);
  }

  /** Two sums, each stored into an `INT16S`, wrap like the whole sum stored once. */
  lemma ToInt16AddTwice(w: int, x: int, y: int, z: int)
    requires w == ToInt16(x)
    ensures ToInt16(ToInt16(w + y) + z) == ToInt16(x + y + z)
  {
    ToInt16Add(x, y);
    ToInt16Add(x + y, z);
  }

  /** Truncating to 32 bits before storing into an `INT16S` changes nothing. */
  lemma ToInt16OfUInt32(p: int, y: int, w: int)
    requires p == y + w * 0x1_0000_0000
    ensures ToInt16(ToUInt32(p)) == ToInt16(y)
  {
    var j := p / 0x1_0000_0000;
    assert ToUInt32(p) == y + ((w - j) * 0x1_0000) * 0x1_0000;
    ToInt16Shift(y, (w - j) * 0x1_0000);
  }

  /**
   * The low 16 bits of a 32-bit unsigned product: `(unsigned)(-c) * (unsigned)v`
   * for an `INT16S` velocity `v`, stored into an `INT16S`, is `-c * v`
   * wrapped to 16 bits.
   */
  lemma UnsignedNegProduct(c: int, v: Int16)
    requires 0 <= c < 0x1_0000_0000
    ensures ToInt16(ToUInt32(ToUInt32(-c) * ToUInt32(v))) == ToInt16(-c * v)
  {
    var m := 0x1_0000_0000;
    var p := ToUInt32(-c) * ToUInt32(v);
    if c == 0 {
      ToInt16OfUInt32(p, -c * v, 0);
    } else if v >= 0 {
      assert p == (m - c) * v;
      ToInt16OfUInt32(p, -c * v, v);
    } else {
      assert p == (m - c) * (v + m);
      ToInt16OfUInt32(p, -c * v, v + m - c);
    }
  }
}
