/** The binary clock: a counter incremented once per loop iteration drives
    the eight outputs as a binary divider (output `num` is high on every
    `2^(num+1)`-th count), and the CV input sets the tempo. The sleep is
    not modelled; the tempo it divides by is. */
module BinaryClock {
  import opened Common
  import Periodic

  /** The output levels for one counter value. */
  function Outputs(counter: int): (g: Gates)
    ensures forall num :: 0 <= num < 8 ==> (g[num] <==> counter % Pow2(num + 1) == 0)
  {
    seq(8, num requires 0 <= num < 8 => counter % Pow2(num + 1) == 0)
  }

  /** Output `num` high implies every lower output high. */
  lemma OutputsNest(counter: int, num: int, k: int)
    requires 0 <= k <= num < 8
    ensures Outputs(counter)[num] ==> Outputs(counter)[k]
  {
    if Outputs(counter)[num] {
      Pow2DividesSmaller(counter, k + 1, num + 1);
    }
  }

  /** The tempo read from the CV input: the distance from mid-scale in
      steps of 100, rounded toward zero. */
  function Bpm(u16: U16): (b: int)
    ensures 0 <= b <= 327
    ensures b * 100 <= Abs(u16 - 32768) < (b + 1) * 100
  {
    var q := TruncDiv(u16 - 32768, 100);
    MulSign(Abs(q) - 327, 100);
    Abs(q)
  }

  /** The tempo is 0, and `60 / bpm` divides by zero, exactly on the 199
      readings around mid-scale. */
  lemma BpmZeroIff(u16: U16)
    ensures Bpm(u16) == 0 <==> 32669 <= u16 <= 32867
  {
    MulSign(Bpm(u16), 100);
  }

  /** One loop iteration: the counter after its increment, the outputs it
      sets and the tempo it reads. */
  datatype Iteration = Iteration(counter: int, outs: Gates, bpm: int)

  /** The sleep length `60 / bpm` raises ZeroDivisionError: the tempo read
      is 0, which happens exactly on the 199 readings around mid-scale. */
  function DividesByZero(u16: U16): (r: bool)
    ensures r <==> 32669 <= u16 <= 32867
  {
    BpmZeroIff(u16);
    Bpm(u16) == 0
  }

  /** The counter starts at 0 and each iteration increments it before
      setting the outputs. */
  const InitialCounter := 0

  function Step(counter: int, u16: U16): (it: Iteration)
    ensures it.counter == counter + 1
    ensures forall num :: 0 <= num < 8 ==> (it.outs[num] <==> (counter + 1) % Pow2(num + 1) == 0)
    ensures it.bpm == 0 <==> DividesByZero(u16)
  {
    Iteration(counter + 1, Outputs(counter + 1), Bpm(u16))
  }

  /** How many of the `n` iterations after counter value `c` set output
      `num` high. */
  function Highs(c: int, n: nat, num: int): (k: nat)
    requires 0 <= num < 8
  {
    if n == 0 then 0 else Highs(c, n - 1, num) + (if Outputs(c + n)[num] then 1 else 0)
  }

  lemma {:induction false} HighsCount(c: int, n: nat, num: int)
    requires 0 <= num < 8
    ensures Highs(c, n, num) == Periodic.Count(c + 1, n, Pow2(num + 1))
  {
    if n > 0 {
      HighsCount(c, n - 1, num);
      assert c + n == c + 1 + n - 1;
    }
  }

  /** Over any `2^(num+1)` consecutive iterations, output `num` is high
      exactly once. */
  lemma OncePerPeriod(c: int, num: int)
    requires 0 <= num < 8
    ensures Highs(c, Pow2(num + 1), num) == 1
  {
    var p := Pow2(num + 1);
    HighsCount(c, p, num);
    Periodic.OnePerPeriod(c + 1, p);
  }

  /** Over `m` such windows it is high exactly `m` times. */
  lemma TimesPerWindows(c: int, num: int, m: nat)
    requires 0 <= num < 8
    ensures Highs(c, m * Pow2(num + 1), num) == m
  {
    var p := Pow2(num + 1);
    var n := m * p;
    HighsCount(c, n, num);
    Periodic.CountPeriods(c + 1, m, p);
  }

  /** The first iteration from power-up: counter 1, every output low. */
  lemma FirstIteration(u16: U16)
    ensures Step(InitialCounter, u16).counter == 1
    ensures Step(InitialCounter, u16).outs == AllLow
  {
    forall num | 0 <= num < 8
      ensures !Step(InitialCounter, u16).outs[num]
    {
      ModUnique(1, Pow2(num + 1), 0, 1);
    }
  }
}
