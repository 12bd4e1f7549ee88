/**
 * Go's integer semantics, as far as the vjoy package relies on them: the
 * `int` taken as 64 bits wide, `int32`, `byte`, the
 * wrap-around of `int` arithmetic, truncating division and remainder, and
 * the `uint32(x)` conversion.
 */
module GoInt {
  const TwoTo32: int := 0x1_0000_0000
  const TwoTo64: int := 0x1_0000_0000_0000_0000
  const MinInt: int := -0x8000_0000_0000_0000
  const MaxInt: int := 0x7fff_ffff_ffff_ffff

  /** Go's `int`, taken as 64 bits wide (amd64 and arm64). */
  type Int = x: int | MinInt <= x <= MaxInt

  /** Go's `uint`, taken as 64 bits wide. */
  type Uint = x: int | 0 <= x < TwoTo64

  /** Go's `int32`. */
  type Int32 = x: int | -0x8000_0000 <= x < 0x8000_0000

  /** Go's `byte`. */
  type Byte = x: int | 0 <= x < 0x100

  /** The value Go's wrap-around `int` arithmetic yields for the exact result x. */
  function Wrap(x: int): (r: Int)
    ensures (x - r) % TwoTo64 == 0
    ensures MinInt <= x <= MaxInt ==> r == x
  {
    var m := x % TwoTo64;
    if m <= MaxInt then m else m - TwoTo64
  }

  /** Go's `x / d` for a positive divisor: the quotient truncated toward zero. */
  function Quo(x: int, d: int): (q: int)
    requires 0 < d
    ensures 0 <= x ==> 0 <= q && 0 <= x - q * d < d
    ensures x < 0 ==> q <= 0 && -d < x - q * d <= 0
  {
    if 0 <= x then x / d else -((-x) / d)
  }

  /** Go's `x % d` for a positive divisor: the remainder takes the sign of x. */
  function Rem(x: int, d: int): (r: int)
    requires 0 < d
    ensures 0 <= x ==> 0 <= r < d
    ensures x < 0 ==> -d < r <= 0
    ensures (x - r) % d == 0
  {
    var q := Quo(x, d);
    MultipleMod(q, d);
    x - q * d
  }

  /** Go's `uint32(x)`: the low 32 bits of x's two's complement representation. */
  function Uint32(x: int): bv32
  {
    (x % TwoTo32) as bv32
  }

  /** Go's `byte(x)` for an unsigned x: the low 8 bits. */
  function ToByte(x: nat): (b: Byte)
    ensures (x - b) % 0x100 == 0
  {
    x % 0x100
  }

  /** On non-negative operands Go's truncating division agrees with Dafny's. */
  lemma QuoRemNonNegative(x: nat, d: int)
    requires 0 < d
    ensures Quo(x, d) == x / d && Rem(x, d) == x % d
  {
  }

  /**
   * Wrap-around adds a multiple of 2^64, which a later `& 0x7fff` does not
   * see: Go's `(x op y) & 0x7fff` equals the exact result modulo 0x8000.
   */
  lemma WrapMod8000(x: int)
    ensures Wrap(x) % 0x8000 == x % 0x8000
  {
    var r := Wrap(x);
    var j := (x - r) / TwoTo64;
    Mod8000AddMultiple(r, 0x2_0000_0000_0000 * j);
  }

  /** Nor does a later `uint32(...)`: it sees the exact result modulo 2^32. */
  lemma WrapUint32(x: int)
    ensures Uint32(Wrap(x)) == Uint32(x)
  {
    WrapMod32(x);
  }

  lemma WrapMod32(x: int)
    ensures Wrap(x) % TwoTo32 == x % TwoTo32
  {
    var r := Wrap(x);
    var j := (x - r) / TwoTo64;
    Mod32AddMultiple(r, TwoTo32 * j);
  }

  /** A multiple of d leaves no remainder modulo d. */
  lemma MultipleMod(q: int, d: int)
    requires 0 < d
    ensures (q * d) % d == 0
  {
    var k := (q * d) / d;
    var m := (q * d) % d;
    assert m == (q - k) * d;
    if q - k >= 1 {
      MulAtLeast(q - k, d);
    }
  }

  lemma MulAtLeast(a: int, d: int)
    requires 1 <= a && 0 < d
    ensures a * d >= d
  {
    assert a * d == (a - 1) * d + d;
  }

  /** Adding a multiple of 0x8000 does not change the remainder modulo 0x8000. */
  lemma Mod8000AddMultiple(a: int, k: int)
    ensures (a + 0x8000 * k) % 0x8000 == a % 0x8000
  {
  }

  /** Adding a multiple of 2^32 does not change the remainder modulo 2^32. */
  lemma Mod32AddMultiple(a: int, k: int)
    ensures (a + TwoTo32 * k) % TwoTo32 == a % TwoTo32
  {
  }
}
