/** Shared vocabulary: optional values, the machine integer types the firmware
    works with, and the C and Python integer operations whose semantics differ
    from Dafny's unbounded, Euclidean arithmetic. */
module Common {

  datatype Option<+T> = None | Some(value: T)

  /** The outcome of a loop iteration that may raise Python's IndexError:
      either way, `value` is the state the iteration left behind. */
  datatype Result<+T> = Ok(value: T) | IndexError(value: T)

  /** C `uint32_t`. */
  type U32 = x: int | 0 <= x < 0x1_0000_0000

  /** The range of a C `int` on the 32-bit targets. */
  predicate InInt32(x: int) {
    -0x8000_0000 <= x < 0x8000_0000
  }

  /** C `int` on the 32-bit targets. */
  type Int32 = x: int | InInt32(x)

  /** An ADC reading as returned by `read_u16()` or `AnalogIn.value`. */
  type U16 = x: int | 0 <= x < 0x1_0000

  /** The eight gate outputs of the module, index 0 first. */
  type Gates = g: seq<bool> | |g| == 8 witness [false, false, false, false, false, false, false, false]

  const AllLow: Gates := [false, false, false, false, false, false, false, false]

  function Pow2(n: nat): (r: int)
    ensures r >= 1
  {
    if n == 0 then 1 else 2 * Pow2(n - 1)
  }

  function Abs(x: int): (r: int)
    ensures r >= 0 && (r == x || r == -x)
  {
    if x < 0 then -x else x
  }

  /** Python's `int(a / b)` for a positive divisor: the exact quotient
      truncated toward zero (Dafny's `/` rounds toward negative infinity
      instead when `a` is negative). */
  function TruncDiv(a: int, b: int): (q: int)
    requires b > 0
    ensures Abs(q) * b <= Abs(a) < (Abs(q) + 1) * b
    ensures a >= 0 ==> q >= 0
    ensures a <= 0 ==> q <= 0
  {
    if a >= 0 then a / b else -((-a) / b)
  }

  /** C's conversion of a `uint32_t` to `int`: the two's complement reading
      of the same 32 bits. */
  function ToInt32(x: U32): (r: Int32)
    ensures r % 0x1_0000_0000 == x
    ensures x < 0x8000_0000 <==> r >= 0
  {
    if x < 0x8000_0000 then x else x - 0x1_0000_0000
  }

  /** C's conversion of an integer value to `uint32_t`: reduction modulo 2^32. */
  function ToU32(x: int): (r: U32)
    ensures 0 <= x < 0x1_0000_0000 ==> r == x
    ensures x < 0 && x >= -0x1_0000_0000 ==> r == x + 0x1_0000_0000
    ensures 0x1_0000_0000 <= x < 0x2_0000_0000 ==> r == x - 0x1_0000_0000
  {
    x % 0x1_0000_0000
  }

  /** C's `x >> n` on a signed `int`: an arithmetic shift, which rounds toward
      negative infinity. */
  function Asr(x: int, n: nat): (r: int)
    ensures r * Pow2(n) <= x < (r + 1) * Pow2(n)
  {
    x / Pow2(n)
  }

  lemma Pow2Values()
    ensures Pow2(1) == 2 && Pow2(7) == 0x80 && Pow2(23) == 0x80_0000 && Pow2(24) == 0x100_0000
  {
    assert Pow2(4) == 0x10;
    assert Pow2(7) == 0x80;
    assert Pow2(11) == 0x800;
    assert Pow2(15) == 0x8000;
    assert Pow2(19) == 0x8_0000;
    assert Pow2(23) == 0x80_0000;
  }

  /** The truncated quotient's magnitude is `k` exactly when `|a|` lies in
      the `k`-th band of width `b`. */
  lemma TruncDivBand(a: int, b: int, k: int)
    requires b > 0 && k >= 0
    ensures Abs(TruncDiv(a, b)) == k <==> k * b <= Abs(a) < (k + 1) * b
  {
    MulSign(Abs(TruncDiv(a, b)) - k, b);
  }

  /** Python list indexing `xs[i]` on a list of length `n`: a negative index
      counts from the end; anything outside `-n .. n-1` raises IndexError. */
  function PyIndex(i: int, n: nat): (r: Option<nat>)
    ensures r.Some? <==> 0 <= i + n && i < n
    ensures r.Some? ==> r.value < n && (r.value == i || r.value == i + n)
  {
    if 0 <= i < n then Some(i) else if 0 <= i + n && i < 0 then Some(i + n) else None
  }

  lemma MulSign(d: int, p: int)
    requires p > 0
    ensures d >= 1 ==> d * p >= p
    ensures d <= -1 ==> d * p <= -p
  {
    if d >= 1 {
      assert d * p == (d - 1) * p + p;
    } else if d <= -1 {
      assert d * p == (d + 1) * p - p;
    }
  }

  /** Multiplying by a non-negative factor preserves order. */
  lemma MulMono(k: int, a: int, b: int)
    requires 0 <= k && a <= b
    ensures k * a <= k * b && a * k <= b * k
  {
    if k > 0 {
      MulSign(b - a, k);
      assert (b - a) * k == b * k - a * k;
    }
  }

  /** Quotient and remainder by a positive divisor are unique. */
  lemma ModUnique(a: int, p: int, q: int, r: int)
    requires p > 0 && 0 <= r < p && a == q * p + r
    ensures a / p == q && a % p == r
  {
    var q', r' := a / p, a % p;
    assert (q - q') * p == r' - r;
    MulSign(q - q', p);
  }

  lemma {:induction false} Pow2Add(a: nat, b: nat)
    ensures Pow2(a + b) == Pow2(a) * Pow2(b)
    decreases b
  {
    if b > 0 {
      Pow2Add(a, b - 1);
      assert Pow2(a + b) == 2 * Pow2(a + b - 1);
    }
  }

  /** A multiple of a larger power of two is a multiple of every smaller one. */
  lemma {:induction false} Pow2DividesSmaller(x: int, a: nat, b: nat)
    requires a <= b
    requires x % Pow2(b) == 0
    ensures x % Pow2(a) == 0
  {
    Pow2Add(a, b - a);
    var q := x / Pow2(b);
    assert x == q * Pow2(b);
    assert x == (q * Pow2(b - a)) * Pow2(a);
    ModUnique(x, Pow2(a), q * Pow2(b - a), 0);
  }
}
