/**
 * Machine words of the eTPU as the quadrature decoder uses them.
 *
 * The eTPU works on 24-bit registers: time bases (TCR1/TCR2), capture and
 * match registers, and the `int24`/`uint24` parameters of a channel frame
 * all wrap modulo 2^24.  Integers here are unbounded, so every wrap the
 * decoder relies on is written out with `Tcr` (unsigned) or `WrapI24`
 * (two's complement).
 *
 * The period and the period accumulator are 32-bit unions read either as
 * one word or as an 8-bit high byte over a 24-bit low part; the decoder adds
 * to the low part and carries into the high byte by hand.  `Split` is that
 * union and `AddWithCarry` that addition.
 */
module Words {

  /** A one-bit hardware flag or pin level. */
  type bit = x: int | 0 <= x < 2
  type u8 = x: int | 0 <= x < 0x100
  type u24 = x: int | 0 <= x < 0x100_0000
  type u32 = x: int | 0 <= x < 0x1_0000_0000
  type i8 = x: int | -0x80 <= x < 0x80
  type i24 = x: int | -0x80_0000 <= x < 0x80_0000

  const TWO24: int := 0x100_0000
  const TWO32: int := 0x1_0000_0000

  /** Unsigned 24-bit wrap: the register value that `x` leaves behind. */
  function Tcr(x: int): (r: u24)
    ensures 0 <= x < TWO24 ==> r == x
  {
    x % TWO24
  }

  /** Unsigned 8-bit wrap. */
  function WrapU8(x: int): (r: u8)
    ensures 0 <= x < 0x100 ==> r == x
  {
    x % 0x100
  }

  /** Unsigned 32-bit wrap (host-side `uint32_t` arithmetic). */
  function WrapU32(x: int): (r: u32)
    ensures 0 <= x < TWO32 ==> r == x
  {
    x % TWO32
  }

  /** Two's-complement 24-bit wrap, as an `int24` counter overflows. */
  function WrapI24(x: int): (r: i24)
    ensures -0x80_0000 <= x < 0x80_0000 ==> r == x
  {
    (x + 0x80_0000) % TWO24 - 0x80_0000
  }

  /** `__abs` on an `int24`. */
  function Abs(x: int): (r: nat)
    ensures r == x || r == -x
  {
    if x < 0 then -x else x
  }

  /** A 32-bit word viewed as an 8-bit high byte over a 24-bit low part. */
  datatype Split = Split(msb: u8, lsb: u24)
  {
    function Value(): u32
    {
      msb * TWO24 + lsb
    }
  }

  const ZERO_SPLIT: Split := Split(0, 0)

  /** The union holding the 32-bit word `v`. */
  function SplitOf(v: u32): (s: Split)
    ensures s.Value() == v
  {
    Split(v / TWO24, v % TWO24)
  }

  /**
   * Adds a 24-bit quantity to the low part and, exactly when that addition
   * carries out of 24 bits, increments the 8-bit high byte.
   * The pair behaves as one 32-bit unsigned word.
   */
  function AddWithCarry(acc: Split, delta: u24): (r: Split)
    ensures r.Value() == (acc.Value() + delta) % TWO32
    ensures r.msb != acc.msb <==> acc.lsb + delta >= TWO24
  {
    var sum := acc.lsb + delta;
    if sum >= TWO24 then Split(WrapU8(acc.msb + 1), sum - TWO24)
    else Split(acc.msb, sum)
  }

  /** A 24-bit wrapped difference of two time stamps is the elapsed time when that is below 2^24. */
  lemma ElapsedTime(earlier: int, later: int)
    requires earlier <= later < earlier + TWO24
    ensures Tcr(Tcr(later) - Tcr(earlier)) == later - earlier
  {
    var a: int := Tcr(earlier);
    var b: int := Tcr(later);
    assert earlier == (earlier / TWO24) * TWO24 + a;
    assert later == (later / TWO24) * TWO24 + b;
    var d := later - earlier;
    var k := later / TWO24 - earlier / TWO24;
    assert b - a == d - k * TWO24;
    assert Tcr(b - a) == (d - k * TWO24) % TWO24;
    ModShift(d, -k);
  }

  lemma ModShift(d: int, k: int)
    requires 0 <= d < TWO24
    ensures (d + k * TWO24) % TWO24 == d
  {
  }

  /** Adding whole timer ranges does not change a 24-bit time stamp. */
  lemma TcrShift(z: int, k: int)
    ensures Tcr(z + k * TWO24) == Tcr(z)
  {
    var r := z % TWO24;
    assert z + k * TWO24 == r + (z / TWO24 + k) * TWO24;
    ModShift(r, z / TWO24 + k);
  }

  /** 24-bit time arithmetic may wrap its operands first: sums and differences agree modulo 2^24. */
  lemma TcrArith(x: int, y: int)
    ensures Tcr(Tcr(x) + y) == Tcr(x + y)
    ensures Tcr(Tcr(x) - Tcr(y)) == Tcr(x - y)
  {
    TcrShift(x + y, -(x / TWO24));
    TcrShift(x - y, y / TWO24 - x / TWO24);
  }
}
