/** The random-walk example: eight bounded walks, each stepped up or down by
    a coin flip on every rising edge of the CV input. The coin
    (`random.randrange(0, 2)`) is an input; the scaling of a position to a
    PWM duty cycle is floating point and is not modelled. */
module Walking {
  import opened Common
  import Oam

  /** The default mode: stay at a boundary rather than step past it. */
  const Clip := "clip"

  /** A walk over `0 .. range` in the given boundary mode. */
  datatype Walk = Walk(range: int, mode: string, pos: int)

  /** The constructor: a walk starts at 0. */
  function NewWalk(range: int, mode: string): (w: Walk)
    ensures w.range == range && w.mode == mode && w.pos == 0
    ensures range >= 0 ==> InRange(w)
  {
    Walk(range, mode, 0)
  }

  predicate InRange(w: Walk) {
    0 <= w.pos <= w.range
  }

  /** A walk after one step and what `step` returned (`None` when it falls
      off the end of the method without a `return`). */
  datatype Stepped = Stepped(walk: Walk, returned: Option<int>)

  /** One step: `up` is the coin. An up step at the top, or a down step at
      0, leaves the position where it is; every other step moves by one. */
  function Step(w: Walk, up: bool): (r: Stepped)
    ensures r.walk.range == w.range && r.walk.mode == w.mode
    ensures up && w.pos != w.range ==> r.walk.pos == w.pos + 1
    ensures !up && w.pos != 0 ==> r.walk.pos == w.pos - 1
    ensures (up && w.pos == w.range) || (!up && w.pos == 0) ==> r.walk == w
    ensures r.returned.None? <==> up && w.pos == w.range && w.mode != Clip
    ensures r.returned.Some? ==> r.returned.value == r.walk.pos
    ensures InRange(w) ==> InRange(r.walk)
    ensures -1 <= r.walk.pos - w.pos <= 1
  {
    if up then
      if w.pos == w.range then
        if w.mode == Clip then Stepped(w, Some(w.pos)) else Stepped(w, None)
      else
        var w' := w.(pos := w.pos + 1);
        Stepped(w', Some(w'.pos))
    else
      if w.pos == 0 then Stepped(w, Some(w.pos))
      else
        var w' := w.(pos := w.pos - 1);
        Stepped(w', Some(w'.pos))
  }

  /** The walk after a sequence of coin flips. */
  function Walked(w: Walk, coins: seq<bool>): Walk
    decreases |coins|
  {
    if coins == [] then w else Walked(Step(w, coins[0]).walk, coins[1..])
  }

  /** What `step` returned for each of a sequence of coin flips. */
  function Returned(w: Walk, coins: seq<bool>): (rs: seq<Option<int>>)
    ensures |rs| == |coins|
    decreases |coins|
  {
    if coins == [] then [] else [Step(w, coins[0]).returned] + Returned(Step(w, coins[0]).walk, coins[1..])
  }

  /** A walk that starts in range stays in range under any coin flips. */
  lemma {:induction false} StaysInRange(w: Walk, coins: seq<bool>)
    requires InRange(w)
    ensures InRange(Walked(w, coins)) && Walked(w, coins).range == w.range
    decreases |coins|
  {
    if coins != [] {
      StaysInRange(Step(w, coins[0]).walk, coins[1..]);
    }
  }

  /** A walk of range 4 flipped up five times returns 1, 2, 3, 4, 4. */
  lemma ClipScenario()
    ensures Returned(NewWalk(4, Clip), [true, true, true, true, true])
            == [Some(1), Some(2), Some(3), Some(4), Some(4)]
  {
  }

  const WalkLengths: seq<int> := [2, 4, 7, 11, 15, 31, 63, 127]

  /** The eight walks of the example, all clipping, all at 0. */
  const Walks: seq<Walk> := seq(8, i requires 0 <= i < 8 => NewWalk(WalkLengths[i], Clip))

  /** Eight clipping walks over the table's ranges, each in range. */
  predicate TableWalks(walks: seq<Walk>) {
    |walks| == 8 &&
    forall i :: 0 <= i < 8 ==>
      walks[i].range == WalkLengths[i] && walks[i].mode == Clip && InRange(walks[i])
  }

  /** The detector, the walks and the values handed to the duty-cycle
      scaling in one loop iteration (none unless a rising edge fired). */
  datatype Frame = Frame(unc: Oam.Uncertainty, walks: seq<Walk>, written: seq<Option<int>>)

  /** One iteration of the main loop: on a rising edge every walk takes one
      step with its own coin; otherwise nothing moves and nothing is written. */
  function Tick(unc: Oam.Uncertainty, walks: seq<Walk>, sample: int, coins: seq<bool>): (r: Frame)
    requires |coins| == |walks|
    ensures r.unc == Oam.IsRisingEdge(unc, sample).state
    ensures !Oam.IsRisingEdge(unc, sample).fired ==> r.walks == walks && r.written == []
    ensures Oam.IsRisingEdge(unc, sample).fired ==>
              |r.walks| == |walks| && |r.written| == |walks| &&
              forall i :: 0 <= i < |walks| ==>
                r.walks[i] == Step(walks[i], coins[i]).walk && r.written[i] == Step(walks[i], coins[i]).returned
    ensures TableWalks(walks) ==> TableWalks(r.walks)
    ensures TableWalks(walks) ==>
              forall i :: 0 <= i < |r.written| ==> r.written[i].Some? && 0 <= r.written[i].value <= WalkLengths[i]
  {
    var edge := Oam.IsRisingEdge(unc, sample);
    if edge.fired then
      var stepped := seq(|walks|, i requires 0 <= i < |walks| => Step(walks[i], coins[i]));
      Frame(edge.state, seq(|walks|, i requires 0 <= i < |walks| => stepped[i].walk),
            seq(|walks|, i requires 0 <= i < |walks| => stepped[i].returned))
    else
      Frame(edge.state, walks, [])
  }

  /** One loop iteration's inputs: the CV sample and one coin per walk. */
  datatype Input = Input(sample: int, coins: seq<bool>)

  function Run(unc: Oam.Uncertainty, walks: seq<Walk>, inputs: seq<Input>): (r: (Oam.Uncertainty, seq<Walk>))
    requires forall k :: 0 <= k < |inputs| ==> |inputs[k].coins| == 8
    requires |walks| == 8
    ensures |r.1| == 8
    decreases |inputs|
  {
    if inputs == [] then (unc, walks)
    else
      var f := Tick(unc, walks, inputs[0].sample, inputs[0].coins);
      Run(f.unc, f.walks, inputs[1..])
  }

  /** From power-up, every walk stays within its table range for ever. */
  lemma {:induction false} WalksStayInRange(unc: Oam.Uncertainty, walks: seq<Walk>, inputs: seq<Input>)
    requires forall k :: 0 <= k < |inputs| ==> |inputs[k].coins| == 8
    requires TableWalks(walks)
    ensures TableWalks(Run(unc, walks, inputs).1)
    decreases |inputs|
  {
    if inputs != [] {
      var f := Tick(unc, walks, inputs[0].sample, inputs[0].coins);
      WalksStayInRange(f.unc, f.walks, inputs[1..]);
    }
  }

  lemma InitialWalks()
    ensures TableWalks(Walks)
    ensures forall i :: 0 <= i < 8 ==> Walks[i].pos == 0
  {
  }
}
