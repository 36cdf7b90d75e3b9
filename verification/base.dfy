/** Shared vocabulary: an optional value and Java's fixed-width integers. */
module Base {

  /** A value that may be absent, standing for a Java reference that may be null. */
  datatype Option<T> = None | Some(value: T)

  const TwoTo31: int := 0x8000_0000
  const TwoTo32: int := 0x1_0000_0000
  const TwoTo63: int := 0x8000_0000_0000_0000
  const TwoTo64: int := 0x1_0000_0000_0000_0000

  /** Java `int`. */
  type Int32 = x: int | -0x8000_0000 <= x < 0x8000_0000

  /** Java `long`. */
  type Int64 = x: int | -0x8000_0000_0000_0000 <= x < 0x8000_0000_0000_0000

  /** Two's-complement wrap-around of an exact result into an `int`, as Java's
      `int` arithmetic and `(int)` narrowing do. */
  function Wrap32(x: int): (r: Int32)
    ensures (r - x) % TwoTo32 == 0
    ensures -TwoTo31 <= x < TwoTo31 ==> r == x
  {
    (x + TwoTo31) % TwoTo32 - TwoTo31
  }

  /** Two's-complement wrap-around of an exact result into a `long`. */
  function Wrap64(x: int): (r: Int64)
    ensures (r - x) % TwoTo64 == 0
    ensures -TwoTo63 <= x < TwoTo63 ==> r == x
  {
    (x + TwoTo63) % TwoTo64 - TwoTo63
  }

  /** `Math.abs` on a Java `long`: the absolute value, except that the negation
      of `Long.MIN_VALUE` wraps back to `Long.MIN_VALUE` itself. */
  function LongAbs(x: Int64): (r: Int64)
    ensures x != -TwoTo63 ==> r >= 0 && (r == x || r == -x)
    ensures x == -TwoTo63 ==> r == x
  {
    if x < 0 then Wrap64(-(x as int)) else x
  }

  /** Wrapping an intermediate sum does not change the wrapped total: adding
      with Java `int` overflow at every step equals one wrap at the end. */
  lemma Wrap32Add(x: int, y: int)
    ensures Wrap32(Wrap32(x) + y) == Wrap32(x + y)
  {
    var q := (x + TwoTo31) / TwoTo32;
    assert Wrap32(x) == x - q * TwoTo32;
    assert Wrap32(x) + y + TwoTo31 == (x + y + TwoTo31) - q * TwoTo32;
    ModShift(x + y + TwoTo31, q, TwoTo32);
  }

  /** The same for Java `long`. */
  lemma Wrap64Add(x: int, y: int)
    ensures Wrap64(Wrap64(x) + y) == Wrap64(x + y)
  {
    var q := (x + TwoTo63) / TwoTo64;
    assert Wrap64(x) == x - q * TwoTo64;
    assert Wrap64(x) + y + TwoTo63 == (x + y + TwoTo63) - q * TwoTo64;
    ModShift(x + y + TwoTo63, q, TwoTo64);
  }

  lemma ModShift(a: int, q: int, m: int)
    requires m > 0
    ensures (a - q * m) % m == a % m
  {
    var b := a - q * m;
    var r := a % m;
    assert a == (a / m) * m + r;
    assert b == (a / m - q) * m + r;
    assert 0 <= r < m;
    DivModUnique(b, a / m - q, r, m);
  }

  lemma DivModUnique(b: int, d: int, r: int, m: int)
    requires m > 0 && 0 <= r < m && b == d * m + r
    ensures b % m == r
  {
    var d', r' := b / m, b % m;
    assert b == d' * m + r';
    if d' != d {
      var k := d - d';
      assert k * m == r' - r by { MulSub(d, d', m); }
      MulFar(k, m);
    }
  }

  lemma MulSub(x: int, y: int, m: int)
    ensures (x - y) * m == x * m - y * m
  {
  }

  lemma MulFar(k: int, m: int)
    requires k != 0 && m > 0
    ensures k * m >= m || k * m <= -m
  {
    if k > 0 {
      assert k * m == (k - 1) * m + m;
      MulNonneg(k - 1, m);
    } else {
      assert k * m == -((-k - 1) * m) - m;
      MulNonneg(-k - 1, m);
    }
  }

  lemma MulNonneg(a: int, b: int)
    requires a >= 0 && b >= 0
    ensures a * b >= 0
  {
  }
}
