/** The table dispatch shared by `play_note` and `output_ctl`: scan a table
    of keys and write one output at the first index whose key matches. */
module Lookup {

  /** `i` is the first index of `key` in `keys`. */
  predicate IsFirst(keys: seq<int>, i: int, key: int) {
    0 <= i < |keys| && keys[i] == key && forall j :: 0 <= j < i ==> keys[j] != key
  }

  /** Writes `v` to the output at the first index of `key` and returns; if
      `key` is absent, nothing is written. */
  method SetFirst<T>(keys: seq<int>, outs: seq<T>, key: int, v: T) returns (r: seq<T>)
    requires |keys| <= |outs|
    ensures |r| == |outs|
    ensures forall i :: IsFirst(keys, i, key) ==> r[i] == v
    ensures forall i :: 0 <= i < |outs| && !IsFirst(keys, i, key) ==> r[i] == outs[i]
    ensures key !in keys ==> r == outs
  {
    r := outs;
    var x := 0;
    while x < |keys|
      invariant 0 <= x <= |keys|
      invariant r == outs
      invariant forall j :: 0 <= j < x ==> keys[j] != key
    {
      if keys[x] == key {
        r := r[x := v];
        return;
      }
      x := x + 1;
    }
  }
}
