// Byte and word helpers shared by every component of the emulator model.
// Registers are bit-vectors so that Rust's wrapping u8/u16 arithmetic and
// its bitwise operators carry over unchanged.
module Bits {

  /** The low byte of a 16-bit word (`value & 0xFF` truncated to u8). */
  function Lo(w: bv16): (r: bv8)
    ensures r as bv16 == w & 0xFF
  {
    (w & 0xFF) as bv8
  }

  /** The high byte of a 16-bit word (`(value >> 8) as u8`). */
  function Hi(w: bv16): (r: bv8)
    ensures r as bv16 == w >> 8
  {
    (w >> 8) as bv8
  }

  /** `u16::from_le_bytes([lo, hi])`, equivalently `(hi << 8) | lo`. */
  function Word(hi: bv8, lo: bv8): (r: bv16)
    ensures Hi(r) == hi && Lo(r) == lo
  {
    ((hi as bv16) << 8) | (lo as bv16)
  }

  lemma WordOfBytes(w: bv16)
    ensures Word(Hi(w), Lo(w)) == w
  {
  }

  /** `offset as i8 as i16 as u16`: two's-complement sign extension. */
  function SignExtend(b: bv8): (r: bv16)
    ensures Lo(r) == b
    ensures Hi(r) == (if b & 0x80 == 0 then 0x00 else 0xFF)
  {
    if b & 0x80 == 0 then b as bv16 else 0xFF00 | (b as bv16)
  }

  /** `u16::wrapping_add`. */
  function WrappingAdd16(x: bv16, y: bv16): bv16
  {
    x + y
  }

  /** `u16::wrapping_sub`. */
  function WrappingSub16(x: bv16, y: bv16): bv16
  {
    x - y
  }

  /** `x as u16` for a byte. */
  function Widen16(x: bv8): bv16
  {
    x as bv16
  }

  /** `x as u64` for a 16-bit value. */
  function Widen64(x: bv16): bv64
  {
    x as bv64
  }

  /** `u64::wrapping_add`. */
  function WrappingAdd64(x: bv64, y: bv64): bv64
  {
    x + y
  }

  /** The signed value Rust sees in an `i8`. */
  function SignedValue(b: bv8): (r: int)
    ensures -128 <= r < 128
  {
    if b < 0x80 then b as int else b as int - 256
  }

  /** The sign-extended offset, read as a number modulo 2^16, is the
      signed value of the byte. */
  lemma SignExtendValue(b: bv8)
    ensures SignExtend(b) as int == SignedValue(b) % 0x1_0000
  {
    if b >= 0x80 {
      NegativeExtension(b);
    } else {
      assert (b as bv16) as int == b as int;
    }
  }

  /** A byte with bit 7 set extends to 0xFF00 plus the byte. */
  lemma NegativeExtension(b: bv8)
    requires b >= 0x80
    ensures SignExtend(b) as int == 0xFF00 + b as int
  {
    var low := b as bv16;
    assert low as int == b as int;
    assert SignExtend(b) == 0xFF00 + low;
  }

  /** Rust's `&` on unsigned integers, bit by bit from the lowest. */
  function BitAnd(a: nat, b: nat): (r: nat)
    ensures r <= a && r <= b
    decreases a
  {
    if a == 0 || b == 0 then 0
    else 2 * BitAnd(a / 2, b / 2) + (if a % 2 == 1 && b % 2 == 1 then 1 else 0)
  }

  /** Rust's `|` on unsigned integers, bit by bit from the lowest. */
  function BitOr(a: nat, b: nat): (r: nat)
    ensures a <= r && b <= r && r <= a + b
    decreases a
  {
    if a == 0 then b
    else if b == 0 then a
    else 2 * BitOr(a / 2, b / 2) + (if a % 2 == 1 || b % 2 == 1 then 1 else 0)
  }

  /** `1 << n` on unbounded integers. */
  function Pow2(n: nat): (r: nat)
    ensures r >= 1
  {
    if n == 0 then 1 else 2 * Pow2(n - 1)
  }

  /** Masking with `2^n - 1` keeps the low `n` bits: `a & (2^n - 1)` is
      `a % 2^n`. */
  lemma {:induction false} BitAndLowMask(a: nat, n: nat)
    ensures BitAnd(a, Pow2(n) - 1) == a % Pow2(n)
  {
    if n == 0 {
      assert Pow2(0) == 1 && a % 1 == 0;
    } else if a == 0 {
      assert 0 % Pow2(n) == 0;
    } else {
      assert Pow2(n) == 2 * Pow2(n - 1);
      BitAndLowMask(a / 2, n - 1);
      LowMaskStep(a, Pow2(n - 1));
    }
  }

  /** One bit more of mask keeps one bit more of the value. */
  lemma LowMaskStep(a: nat, p: nat)
    requires a > 0 && p >= 1
    requires BitAnd(a / 2, p - 1) == (a / 2) % p
    ensures BitAnd(a, 2 * p - 1) == a % (2 * p)
  {
    BitAndOddMask(a, p);
    ModDouble(a, p);
  }

  /** `a & (2p - 1)`: the low bit of `a` over `(a / 2) & (p - 1)`. */
  lemma BitAndOddMask(a: nat, p: nat)
    requires a > 0 && p >= 1
    ensures BitAnd(a, 2 * p - 1) == 2 * BitAnd(a / 2, p - 1) + a % 2
  {
    var mask := 2 * p - 1;
    assert mask / 2 == p - 1 && mask % 2 == 1;
  }

  /** The remainder by `2p` from the remainder of the halved value by `p`. */
  lemma ModDouble(a: nat, p: nat)
    requires p >= 1
    ensures a % (2 * p) == 2 * ((a / 2) % p) + a % 2
  {
    var h := a / 2;
    var q, r := h / p, h % p;
    var pq := p * q;
    assert h == pq + r;
    assert a == 2 * h + a % 2;
    assert 2 * pq == (2 * p) * q;
    ModUnique(a, 2 * p, q, 2 * r + a % 2);
  }

  /** Or-ing a value below `2^n` into a multiple of `2^n` is addition. */
  lemma {:induction false} BitOrDisjoint(a: nat, n: nat, c: nat)
    requires a < Pow2(n)
    ensures BitOr(a, Pow2(n) * c) == a + Pow2(n) * c
  {
    if n > 0 && a > 0 && c > 0 {
      var p := Pow2(n - 1);
      assert Pow2(n) * c == 2 * (p * c);
      assert (Pow2(n) * c) / 2 == p * c && (Pow2(n) * c) % 2 == 0;
      BitOrDisjoint(a / 2, n - 1, c);
    }
  }

  /** Euclidean division has a unique quotient and remainder. */
  lemma ModUnique(a: nat, d: nat, q: nat, r: nat)
    requires d > 0 && a == d * q + r && r < d
    ensures a % d == r
  {
    var q', r' := a / d, a % d;
    assert d * q + r == d * q' + r';
    QuotientsMeet(d, q, q', r, r');
  }

  /** Two quotients whose remainders both lie below the divisor are equal. */
  lemma QuotientsMeet(d: nat, q: nat, q': nat, r: int, r': int)
    requires d > 0 && 0 <= r < d && 0 <= r' < d && d * q + r == d * q' + r'
    ensures q == q'
  {
    if q < q' {
      MulGap(d, q, q');
    } else if q' < q {
      MulGap(d, q', q);
    }
  }

  /** A larger factor adds at least one more `d`. */
  lemma MulGap(d: nat, x: nat, y: nat)
    requires x < y
    ensures d * x + d <= d * y
  {
    var k: nat := y - x - 1;
    assert y == x + k + 1;
    assert d * y == d * x + d * k + d;
    assert d * k >= 0;
  }

  /** Bit `n` of a byte, as `(value >> n) & 1 != 0`. */
  predicate BitSet(v: bv8, n: nat)
    requires n < 8
  {
    (v >> n) & 1 != 0
  }

  /** `1 << n` as a byte. */
  function BitMask(n: nat): (r: bv8)
    requires n < 8
    ensures forall k :: 0 <= k < 8 ==> (BitSet(r, k) <==> k == n)
  {
    (1 as bv8) << n
  }
}
