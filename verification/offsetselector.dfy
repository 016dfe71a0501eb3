/** The offset gate selector: the upper half of the CV range picks one of
    the eight outputs in bands of 4096, low to high. The selected index is
    offset by 8, so the lower half yields a negative index, which Python
    reads from the end of the list. */
module OffsetSelector {
  import opened Common

  /** The selected index, in -8 .. 7. */
  function ActiveGate(u16: U16): (ag: int)
    ensures -8 <= ag <= 7
    ensures (ag + 8) * 4096 <= u16 < (ag + 9) * 4096
    ensures ag < 0 <==> u16 < 32768
  {
    var q := TruncDiv(u16, 4096);
    MulSign(q - 15, 4096);
    MulSign(q - 7, 4096);
    MulSign(8 - q, 4096);
    q - 8
  }

  /** Index `k` is selected exactly by the readings of its 4096-wide band. */
  lemma BandIff(u16: U16, k: int)
    requires -8 <= k <= 7
    ensures ActiveGate(u16) == k <==> 32768 + 4096 * k <= u16 <= 32768 + 4096 * k + 4095
  {
    TruncDivBand(u16, 4096, k + 8);
  }

  /** A higher reading never selects a lower index. */
  lemma Monotone(a: U16, b: U16)
    requires a <= b
    ensures ActiveGate(a) <= ActiveGate(b)
  {
    MulSign(ActiveGate(a) - ActiveGate(b), 4096);
  }

  /** One loop iteration. The selected output is driven high first: for a
      negative index that is output `ag + 8`, and `afterSet` is the state
      at that point. Then every output whose number differs from `ag` is
      driven low, which for a negative index is all of them. */
  method Iterate(outs: Gates, u16: U16) returns (afterSet: Gates, r: Gates)
    ensures ActiveGate(u16) >= 0 ==> afterSet == outs[ActiveGate(u16) := true]
    ensures ActiveGate(u16) < 0 ==> afterSet == outs[ActiveGate(u16) + 8 := true]
    ensures ActiveGate(u16) >= 0 ==> forall i :: 0 <= i < 8 ==> (r[i] <==> i == ActiveGate(u16))
    ensures ActiveGate(u16) < 0 ==> r == AllLow
    ensures forall i :: 0 <= i < 8 && r[i] ==> i == ActiveGate(u16)
  {
    var ag := ActiveGate(u16);
    var i := PyIndex(ag, 8).value;
    afterSet := outs[i := true];
    r := afterSet;
    for num := 0 to 8
      invariant forall j :: 0 <= j < num && j != ag ==> !r[j]
      invariant forall j :: num <= j < 8 ==> r[j] == afterSet[j]
      invariant 0 <= ag < 8 ==> r[ag] == afterSet[ag]
    {
      if num != ag {
        r := r[num := false];
      }
    }
  }
}
