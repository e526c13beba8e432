/** The fixed-width integers of the C code on x86-64 and the wrap-around of
    its arithmetic, written out over Dafny's unbounded integers. */
module Words {

  datatype Option<+T> = None | Some(value: T)

  const TWO32: int := 0x1_0000_0000
  const TWO64: int := 0x1_0000_0000_0000_0000

  /** `unsigned int` */
  type u32 = x: int | 0 <= x < 0x1_0000_0000
  /** `uint64_t` */
  type u64 = x: int | 0 <= x < 0x1_0000_0000_0000_0000
  /** `long` and `time_t` */
  type i64 = x: int | -0x8000_0000_0000_0000 <= x < 0x8000_0000_0000_0000

  /** Conversion of an integer to `unsigned int`: reduction modulo 2^32. */
  function Wrap32(x: int): (r: u32)
    ensures (x - r) % TWO32 == 0
    ensures 0 <= x < TWO32 ==> r == x
  {
    x % TWO32
  }

  /** Conversion of an integer to `uint64_t`: reduction modulo 2^64. */
  function Wrap64(x: int): (r: u64)
    ensures (x - r) % TWO64 == 0
    ensures 0 <= x < TWO64 ==> r == x
  {
    x % TWO64
  }

  /** `a - b` on `unsigned int`. */
  function Sub32(a: u32, b: u32): (r: u32)
    ensures b <= a ==> r == a - b
    ensures a < b ==> r == a - b + TWO32
  {
    Wrap32(a - b)
  }

  /** `a - b` on `uint64_t`. */
  function Sub64(a: u64, b: u64): (r: u64)
    ensures b <= a ==> r == a - b
    ensures a < b ==> r == a - b + TWO64
  {
    Wrap64(a - b)
  }

  /** `a * b` on `unsigned int`. */
  function Mul32(a: u32, b: u32): (r: u32)
    ensures (a * b - r) % TWO32 == 0
    ensures a * b < TWO32 ==> r == a * b
  {
    Wrap32(a * b)
  }

  /** `a * b` on `uint64_t`. */
  function Mul64(a: u64, b: u64): (r: u64)
    ensures (a * b - r) % TWO64 == 0
    ensures a * b < TWO64 ==> r == a * b
  {
    Wrap64(a * b)
  }

  /** `x & (1U << k)` is non-zero. */
  function BitSet(x: u32, k: nat): (b: bool)
    requires k < 32
    ensures k == 8 ==> (b <==> (x / 0x100) % 2 == 1)
    ensures k == 27 ==> (b <==> (x / 0x800_0000) % 2 == 1)
  {
    (x as bv32) & ((1 as bv32) << k) != 0
  }

  /** Reducing modulo 2^64 after every addition gives the same word as
      reducing once at the end: the running `uint64_t` totals. */
  lemma Wrap64Add(a: int, b: int)
    ensures Wrap64(Wrap64(a) + b) == Wrap64(a + b)
  {
    var q := a / TWO64;
    assert a == q * TWO64 + Wrap64(a);
    assert a + b == q * TWO64 + (Wrap64(a) + b);
  }

  /** The remainder of `k * m + r` is `r`, for any quotient `k`. */
  lemma ModUnique(x: int, k: int, r: int, m: int)
    requires 0 <= r < m && x == k * m + r
    ensures x % m == r
  {
    var q := x / m;
    assert x == q * m + x % m;
    assert (q - k) * m == r - x % m;
    if q - k >= 1 {
      MulMonotone(1, q - k, m);
    } else if q - k <= -1 {
      MulMonotone(q - k, -1, m);
    }
  }

  /** Multiplication by a natural number is monotone. */
  lemma MulMonotone(a: int, b: int, c: nat)
    requires a <= b
    ensures a * c <= b * c
  {
    assert b * c - a * c == (b - a) * c;
  }

  /** Truncated division by a positive number: the quotient times the divisor
      is at most the dividend, and one more times the divisor exceeds it. */
  lemma DivBounds(x: nat, d: nat)
    requires 0 < d
    ensures x / d <= x
    ensures (x / d) * d <= x < (x / d + 1) * d
  {
    var q, r := x / d, x % d;
    assert x == q * d + r && 0 <= r < d;
    assert (q + 1) * d == q * d + d;
    MulMonotone(1, d, q);
  }

  /** A quotient by a positive number never exceeds the dividend. */
  lemma DivAtMost(x: nat, d: nat)
    requires 0 < d
    ensures x / d <= x
  {
    DivBounds(x, d);
  }

  /** A dividend at least `d * lo` has a quotient at least `lo`. */
  lemma DivAtLeast(x: nat, d: nat, lo: int)
    requires 0 < d && d * lo <= x
    ensures lo <= x / d
  {
    DivBounds(x, d);
    if x / d < lo {
      MulMonotone(x / d + 1, lo, d);
    }
  }

  /** A dividend at most `d * hi` has a quotient at most `hi`. */
  lemma DivAtMostBound(x: nat, d: nat, hi: int)
    requires 0 < d && x <= d * hi
    ensures x / d <= hi
  {
    DivBounds(x, d);
    if hi < x / d {
      MulMonotone(hi + 1, x / d, d);
    }
  }
}
