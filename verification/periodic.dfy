/** Counting the multiples of a period in a window of consecutive counter
    values. Both clock dividers (the MIDI clock and the binary clock) fire an
    output exactly when a running counter is a multiple of a period; the
    lemmas here say how often that happens in any window. */
module Periodic {
  import opened Common

  /** The number of multiples of `p` among `c, c + 1, ..., c + n - 1`. */
  function Count(c: int, n: nat, p: int): (r: nat)
    requires p > 0
    ensures r <= n
    decreases n
  {
    if n == 0 then 0 else Count(c, n - 1, p) + (if (c + n - 1) % p == 0 then 1 else 0)
  }

  /** A window splits into two adjacent windows. */
  lemma {:induction false} CountSplit(c: int, a: nat, b: nat, p: int)
    requires p > 0
    ensures Count(c, a + b, p) == Count(c, a, p) + Count(c + a, b, p)
    decreases b
  {
    if b > 0 {
      CountSplit(c, a, b - 1, p);
    }
  }

  /** The offset, within one period starting at `c`, of the only multiple of `p`. */
  function FirstHit(c: int, p: int): (k: int)
    requires p > 0
    ensures 0 <= k < p
    ensures (c + k) % p == 0
  {
    var k := if c % p == 0 then 0 else p - c % p;
    ModUnique(c + k, p, c / p + (if c % p == 0 then 0 else 1), 0);
    k
  }

  lemma HitIff(c: int, p: int, k: int)
    requires p > 0 && 0 <= k < p
    ensures (c + k) % p == 0 <==> k == FirstHit(c, p)
  {
    var r := c % p;
    if r + k < p {
      ModUnique(c + k, p, c / p, r + k);
    } else {
      ModUnique(c + k, p, c / p + 1, r + k - p);
    }
  }

  lemma {:induction false} CountWithinPeriod(c: int, p: int, j: nat)
    requires p > 0 && j <= p
    ensures Count(c, j, p) == (if j > FirstHit(c, p) then 1 else 0)
  {
    if j > 0 {
      CountWithinPeriod(c, p, j - 1);
      HitIff(c, p, j - 1);
    }
  }

  /** Any `p` consecutive counter values hold exactly one multiple of `p`. */
  lemma OnePerPeriod(c: int, p: int)
    requires p > 0
    ensures Count(c, p, p) == 1
  {
    CountWithinPeriod(c, p, p);
  }

  /** Any `m * p` consecutive counter values hold exactly `m` multiples of `p`. */
  lemma {:induction false} CountPeriods(c: int, m: nat, p: int)
    requires p > 0
    ensures Count(c, m * p, p) == m
  {
    if m > 0 {
      assert m * p == (m - 1) * p + p;
      CountSplit(c, (m - 1) * p, p, p);
      CountPeriods(c, m - 1, p);
      OnePerPeriod(c + (m - 1) * p, p);
    }
  }

  /** Reducing by a multiple of `d` first does not change the remainder by `d`. */
  lemma ModMod(x: int, d: int, m: int)
    requires d > 0 && m > 0
    ensures (x % (d * m)) % d == x % d
  {
    var r := x % (d * m);
    var q := x / (d * m);
    assert x == q * (d * m) + r;
    assert x == (q * m + r / d) * d + r % d;
    ModUnique(x, d, q * m + r / d, r % d);
  }

  /** Adding to a remainder and reducing again is reducing the sum. */
  lemma ModAdd(a: int, b: int, p: int)
    requires p > 0
    ensures (a % p + b) % p == (a + b) % p
  {
    var r := a % p + b;
    ModUnique(a + b, p, a / p + r / p, r % p);
  }
}
