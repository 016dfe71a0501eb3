/** The `Uncertainty` board helper: a gate detector with hysteresis on the
    CV input and the eight digital outputs. The ADC read is the `sample`
    parameter of each query; the hardware constructor is not modelled. */
module Oam {
  import opened Common

  /** Just under 3 V. */
  const HighThresh := 50000
  /** Around 1 V. */
  const LowThresh := 40000

  /** `currentGate` is the detector's memory of the last level it reported
      (0 or 1 in the source); `outs` are the eight output levels. */
  datatype Uncertainty = Uncertainty(currentGate: bool, outs: Gates)

  /** The state right after construction: the gate is low. */
  function Init(outs: Gates): (u: Uncertainty)
    ensures !u.currentGate
  {
    Uncertainty(false, outs)
  }

  /** The state after a query and the query's answer (1 or 0 in the source). */
  datatype Answer = Answer(state: Uncertainty, fired: bool)

  /** Fires exactly on a low-to-high crossing of the high threshold; then the
      gate is remembered as high. */
  function IsRisingEdge(u: Uncertainty, sample: int): (r: Answer)
    ensures r.fired <==> sample > HighThresh && !u.currentGate
    ensures r.fired ==> r.state == u.(currentGate := true)
    ensures !r.fired ==> r.state == u
  {
    if sample > HighThresh && !u.currentGate then Answer(u.(currentGate := true), true)
    else Answer(u, false)
  }

  /** Fires exactly on a high-to-low crossing of the low threshold; then the
      gate is remembered as low. */
  function IsFallingEdge(u: Uncertainty, sample: int): (r: Answer)
    ensures r.fired <==> sample < LowThresh && u.currentGate
    ensures r.fired ==> r.state == u.(currentGate := false)
    ensures !r.fired ==> r.state == u
  {
    if sample < LowThresh && u.currentGate then Answer(u.(currentGate := false), true)
    else Answer(u, false)
  }

  /** Level query: the gate is on above the LOW threshold, whatever the
      stored gate was; when on, the gate is stored as high. */
  function IsGateOn(u: Uncertainty, sample: int): (r: Answer)
    ensures r.fired <==> sample > LowThresh
    ensures r.fired ==> r.state == u.(currentGate := true)
    ensures !r.fired ==> r.state == u
  {
    if sample > LowThresh then Answer(u.(currentGate := true), true) else Answer(u, false)
  }

  /** Level query: the gate is off below the low threshold; when off, the
      gate is stored as low. */
  function IsGateOff(u: Uncertainty, sample: int): (r: Answer)
    ensures r.fired <==> sample < LowThresh
    ensures r.fired ==> r.state == u.(currentGate := false)
    ensures !r.fired ==> r.state == u
  {
    if sample < LowThresh then Answer(u.(currentGate := false), true) else Answer(u, false)
  }

  /** All eight outputs low; the detector's memory is untouched. */
  function LightsOut(u: Uncertainty): (r: Uncertainty)
    ensures r.currentGate == u.currentGate
    ensures forall i :: 0 <= i < 8 ==> !r.outs[i]
  {
    u.(outs := AllLow)
  }

  /** A sustained high level fires once: two rising-edge queries in a row
      never both fire, whatever the samples. */
  lemma RisingFiresOnce(u: Uncertainty, s1: int, s2: int)
    ensures !(IsRisingEdge(u, s1).fired && IsRisingEdge(IsRisingEdge(u, s1).state, s2).fired)
  {
  }

  lemma FallingFiresOnce(u: Uncertainty, s1: int, s2: int)
    ensures !(IsFallingEdge(u, s1).fired && IsFallingEdge(IsFallingEdge(u, s1).state, s2).fired)
  {
  }

  /** Inside the hysteresis band neither edge query fires nor changes state. */
  lemma Hysteresis(u: Uncertainty, sample: int)
    requires LowThresh <= sample <= HighThresh
    ensures IsRisingEdge(u, sample) == Answer(u, false)
    ensures IsFallingEdge(u, sample) == Answer(u, false)
  {
  }

  /** The two level queries never both answer yes, and at least one does
      unless the sample is exactly the low threshold, which reads as
      neither on nor off. */
  lemma LevelsComplement(u: Uncertainty, sample: int)
    ensures !(IsGateOn(u, sample).fired && IsGateOff(u, sample).fired)
    ensures IsGateOn(u, sample).fired || IsGateOff(u, sample).fired <==> sample != LowThresh
  {
  }

  /** A gate-on answer stores the gate as high: the next rising-edge query
      cannot fire, and the next falling-edge query fires exactly for a
      sample below the low threshold. */
  lemma GateOnThenEdges(u: Uncertainty, s1: int, s2: int)
    requires IsGateOn(u, s1).fired
    ensures !IsRisingEdge(IsGateOn(u, s1).state, s2).fired
    ensures IsFallingEdge(IsGateOn(u, s1).state, s2).fired <==> s2 < LowThresh
  {
  }

  /** A gate-off answer stores the gate as low: the next falling-edge query
      cannot fire, and the next rising-edge query fires exactly for a sample
      above the high threshold. */
  lemma GateOffThenEdges(u: Uncertainty, s1: int, s2: int)
    requires IsGateOff(u, s1).fired
    ensures !IsFallingEdge(IsGateOff(u, s1).state, s2).fired
    ensures IsRisingEdge(IsGateOff(u, s1).state, s2).fired <==> s2 > HighThresh
  {
  }

  /** Between the thresholds the level query answers on while the rising
      edge query stays silent, and once the level query has stored the gate
      as high no rising edge is reported for any later sample. */
  lemma GateOnHidesRisingEdge(u: Uncertainty, sample: int, next: int)
    requires LowThresh < sample <= HighThresh
    ensures IsGateOn(u, sample).fired && !IsRisingEdge(u, sample).fired
    ensures !IsRisingEdge(IsGateOn(u, sample).state, next).fired
  {
  }

  /** An edge query of either kind, with the sample it reads. */
  datatype Query = Rising(sample: int) | Falling(sample: int)

  datatype Edge = RisingEdge | FallingEdge

  function Ask(u: Uncertainty, q: Query): Answer {
    match q
    case Rising(s) => IsRisingEdge(u, s)
    case Falling(s) => IsFallingEdge(u, s)
  }

  /** The state after a sequence of edge queries and the edges that fired, in order. */
  function Poll(u: Uncertainty, qs: seq<Query>): (Uncertainty, seq<Edge>)
    decreases |qs|
  {
    if qs == [] then (u, [])
    else
      var a := Ask(u, qs[0]);
      var (v, es) := Poll(a.state, qs[1..]);
      (v, (if a.fired then [if qs[0].Rising? then RisingEdge else FallingEdge] else []) + es)
  }

  /** The edge expected at position `i` of an alternating sequence that starts with `first`. */
  function Expected(first: Edge, i: nat): Edge {
    if i % 2 == 0 then first else if first == RisingEdge then FallingEdge else RisingEdge
  }

  /** With only edge queries, reported edges strictly alternate, starting
      with the edge opposite to the stored gate, and the stored gate is high
      exactly when the last reported edge was a rising one. */
  lemma {:induction false} EdgesAlternate(u: Uncertainty, qs: seq<Query>)
    ensures var (v, es) := Poll(u, qs);
            var first := if u.currentGate then FallingEdge else RisingEdge;
            (forall i :: 0 <= i < |es| ==> es[i] == Expected(first, i)) &&
            (v.currentGate <==> (u.currentGate != (|es| % 2 == 1)))
    decreases |qs|
  {
    if qs != [] {
      var a := Ask(u, qs[0]);
      EdgesAlternate(a.state, qs[1..]);
      var (v, es) := Poll(a.state, qs[1..]);
      var first := if u.currentGate then FallingEdge else RisingEdge;
      if a.fired {
        var all := [first] + es;
        assert Poll(u, qs) == (v, all);
        forall i | 1 <= i < |all|
          ensures all[i] == Expected(first, i)
        {
          assert all[i] == es[i - 1];
        }
      } else {
        var none: seq<Edge> := [];
        assert none + es == es;
        assert Poll(u, qs) == (v, es);
      }
    }
  }

  /** From power-up, edges alternate starting with a rising one. */
  lemma EdgesAlternateFromInit(outs: Gates, qs: seq<Query>)
    ensures var es := Poll(Init(outs), qs).1;
            forall i :: 0 <= i < |es| ==> (es[i] == RisingEdge <==> i % 2 == 0)
  {
    EdgesAlternate(Init(outs), qs);
  }

  /** Polling both edges for each of the samples 0, 55000, 45000, 35000 from
      power-up reports a rising edge on the second sample and a falling edge
      on the fourth, and nothing else. */
  lemma HysteresisScenario(outs: Gates)
    ensures Poll(Init(outs), [Rising(0), Falling(0), Rising(55000), Falling(55000),
                              Rising(45000), Falling(45000), Rising(35000), Falling(35000)]).1
            == [RisingEdge, FallingEdge]
  {
  }
}
