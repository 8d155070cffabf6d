/** Octets, 32-bit unsigned arithmetic and division, shared by every component. */
module Bytes {

  type Byte = x: int | 0 <= x < 256 witness 0

  const TWO32 := 0x1_0000_0000

  /** The C `unsigned` result of an integer expression. */
  function U32(x: int): (r: nat)
    ensures r < TWO32
    ensures 0 <= x < TWO32 ==> r == x
  {
    x % TWO32
  }

  function Bit(b: bool): nat { if b then 1 else 0 }

  /** The octet with these bits, bit 7 first. */
  function OfBits(b7: bool, b6: bool, b5: bool, b4: bool, b3: bool, b2: bool, b1: bool, b0: bool): Byte {
    128 * Bit(b7) + 64 * Bit(b6) + 32 * Bit(b5) + 16 * Bit(b4) + 8 * Bit(b3) + 4 * Bit(b2) + 2 * Bit(b1) + Bit(b0)
  }

  /** Division is the unique quotient with a remainder below the divisor. */
  lemma Quotient(x: nat, d: nat, q: nat, r: nat)
    requires d >= 1 && x == q * d + r && r < d
    ensures x / d == q
  {
    SameQuotient(d, q, r, x / d, x % d);
  }

  lemma SameQuotient(d: nat, q: nat, r: nat, k: nat, m: nat)
    requires q * d + r == k * d + m && r < d && m < d
    ensures q == k
  {
    if k < q {
      Larger(d, q, k);
    } else if q < k {
      Larger(d, k, q);
    }
  }

  lemma Larger(d: nat, a: nat, b: nat)
    requires b < a
    ensures a * d >= b * d + d
  {
    assert a * d == b * d + (a - b) * d;
    assert (a - b - 1) * d >= 0;
    assert (a - b) * d == (a - b - 1) * d + d;
  }
}
