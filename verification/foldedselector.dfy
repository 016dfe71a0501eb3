/** The folded gate selector: the distance of the CV reading from mid-scale
    picks one of the eight outputs (mid-scale selects output 0, either
    extreme output 7), and only that output is high. */
module FoldedSelector {
  import opened Common

  /** The selected output: the distance from mid-scale in steps of 4096,
      rounded toward zero. */
  function ActiveGate(u16: U16): (ag: int)
    ensures 0 <= ag <= 8
    ensures ag * 4096 <= Abs(u16 - 32768) < (ag + 1) * 4096
  {
    var q := TruncDiv(u16 - 32768, 4096);
    MulSign(Abs(q) - 8, 4096);
    Abs(q)
  }

  /** Only the lowest reading selects 8, one past the last output. */
  lemma PastTheEndIff(u16: U16)
    ensures ActiveGate(u16) == 8 <==> u16 == 0
  {
    TruncDivBand(u16 - 32768, 4096, 8);
  }

  /** Readings at equal distances above and below mid-scale select the same output. */
  lemma Symmetric(d: int)
    requires 0 <= d <= 32767
    ensures ActiveGate(32768 + d) == ActiveGate(32768 - d)
  {
  }

  /** Output 0 is selected across the 8191 readings around mid-scale. */
  lemma MidScaleIff(u16: U16)
    ensures ActiveGate(u16) == 0 <==> 28673 <= u16 <= 36863
  {
    TruncDivBand(u16 - 32768, 4096, 0);
  }

  /** Exactly output `k` high. */
  function OneHot(k: int): (g: Gates)
    ensures forall i :: 0 <= i < 8 ==> (g[i] <==> i == k)
  {
    seq(8, i requires 0 <= i < 8 => i == k)
  }

  /** One loop iteration: every output other than the selected one is
      driven low, then the selected one is driven high. For the reading 0
      the selected index is 8 and the write raises IndexError after the
      loop has already driven every output low. */
  method Iterate(outs: Gates, u16: U16) returns (r: Result<Gates>)
    ensures r.IndexError? <==> u16 == 0
    ensures r.Ok? ==> r.value == OneHot(ActiveGate(u16))
    ensures r.IndexError? ==> r.value == AllLow
  {
    var ag := ActiveGate(u16);
    PastTheEndIff(u16);
    var o := outs;
    for num := 0 to 8
      invariant forall j :: 0 <= j < num && j != ag ==> !o[j]
      invariant forall j :: num <= j < 8 ==> o[j] == outs[j]
    {
      if num != ag {
        o := o[num := false];
      }
    }
    match PyIndex(ag, 8) {
      case Some(i) => r := Ok(o[i := true]);
      case None => r := IndexError(o);
    }
  }
}
