/**
  The dust puff of src/Dust.jsx: 100 points scattered in a thin slab around
  a position, drawn with an alpha uniform that fades by 5 per second and is
  reset to 1 whenever the points are recomputed.

  `Math.random()` is not modelled: its draws are an input sequence of
  reals in [0, 1), consumed in call order. Float32 rounding is not modelled.
 */
module DustEffect {
  import opened Common

  const PointsCount := 100
  /** Horizontal spread of the slab (x and z), centred on the position. */
  const Spread := 0.3
  /** Height of the slab above the ground. */
  const Height := 0.15
  /** Alpha lost per second. */
  const FadeRate := 5.0

  /** Every draw lies in [0, 1), as `Math.random()` promises. */
  predicate ValidDraws(draws: seq<real>) {
    forall k :: 0 <= k < |draws| ==> 0.0 <= draws[k] < 1.0
  }

  /**
    Entry `k` of the positions array, made from the `k`-th draw: x entries
    (k mod 3 = 0) and z entries (k mod 3 = 2) are centred on the position,
    y entries are a height.
   */
  function Coordinate(position: Vec3, k: nat, draw: real): real {
    if k % 3 == 0 then (draw - 0.5) * Spread + position.x
    else if k % 3 == 1 then draw * Height
    else (draw - 0.5) * Spread + position.z
  }

  /**
    The positions memo: fill a fresh array of 3 * 100 entries, point by
    point, with x, y and z from three successive draws.
   */
  method FillPositions(position: Vec3, draws: seq<real>) returns (positions: array<real>)
    requires |draws| == 3 * PointsCount
    requires ValidDraws(draws)
    ensures positions.Length == 3 * PointsCount
    ensures forall k :: 0 <= k < positions.Length ==> positions[k] == Coordinate(position, k, draws[k])
    ensures forall k :: 0 <= k < positions.Length && k % 3 == 0 ==>
              position.x - Spread / 2.0 <= positions[k] < position.x + Spread / 2.0
    ensures forall k :: 0 <= k < positions.Length && k % 3 == 1 ==> 0.0 <= positions[k] < Height
    ensures forall k :: 0 <= k < positions.Length && k % 3 == 2 ==>
              position.z - Spread / 2.0 <= positions[k] < position.z + Spread / 2.0
  {
    positions := new real[3 * PointsCount];
    for i := 0 to PointsCount
      invariant forall k :: 0 <= k < 3 * i ==> positions[k] == Coordinate(position, k, draws[k])
    {
      var i3 := i * 3;
      positions[i3] := (draws[i3] - 0.5) * Spread + position.x;
      positions[i3 + 1] := draws[i3 + 1] * Height;
      positions[i3 + 2] := (draws[i3 + 2] - 0.5) * Spread + position.z;
    }
    forall k | 0 <= k < positions.Length
      ensures k % 3 == 0 ==> position.x - Spread / 2.0 <= positions[k] < position.x + Spread / 2.0
      ensures k % 3 == 1 ==> 0.0 <= positions[k] < Height
      ensures k % 3 == 2 ==> position.z - Spread / 2.0 <= positions[k] < position.z + Spread / 2.0
    {
      CoordinateBounds(position, k, draws[k]);
    }
  }

  /** A draw in [0, 1) lands inside the slab. */
  lemma CoordinateBounds(position: Vec3, k: nat, draw: real)
    requires 0.0 <= draw < 1.0
    ensures k % 3 == 0 ==> position.x - Spread / 2.0 <= Coordinate(position, k, draw) < position.x + Spread / 2.0
    ensures k % 3 == 1 ==> 0.0 <= Coordinate(position, k, draw) < Height
    ensures k % 3 == 2 ==> position.z - Spread / 2.0 <= Coordinate(position, k, draw) < position.z + Spread / 2.0
  {
  }

  /**
    One frame of fading: alpha drops by `5 * delta` and stops at zero. The
    result is never negative; for a non-negative delta it never grows, and
    zero stays zero.
   */
  function Decay(alpha: real, delta: real): (r: real)
    ensures r >= 0.0
    ensures r == 0.0 || r == alpha - FadeRate * delta
    ensures delta >= 0.0 ==> r <= Max(alpha, 0.0)
  {
    Max(0.0, alpha - delta * FadeRate)
  }

  function Sum(deltas: seq<real>): real {
    if |deltas| == 0 then 0.0 else deltas[0] + Sum(deltas[1..])
  }

  /** Alpha after a run of frames with the material mounted. */
  function Fade(alpha: real, deltas: seq<real>): real
    decreases |deltas|
  {
    if |deltas| == 0 then alpha else Fade(Decay(alpha, deltas[0]), deltas[1..])
  }

  lemma {:induction false} SumNonNegative(deltas: seq<real>)
    requires forall k :: 0 <= k < |deltas| ==> deltas[k] >= 0.0
    ensures Sum(deltas) >= 0.0
  {
    if |deltas| > 0 {
      SumNonNegative(deltas[1..]);
    }
  }

  /**
    Over several frames the clamps add up to one: from a non-negative alpha
    the fade is the start value minus 5 times the total time, floored at 0.
    So the dust is gone once 5 times the elapsed time reaches the start alpha.
   */
  lemma {:induction false} FadeClosedForm(alpha: real, deltas: seq<real>)
    requires alpha >= 0.0
    requires forall k :: 0 <= k < |deltas| ==> deltas[k] >= 0.0
    ensures Fade(alpha, deltas) == Max(0.0, alpha - FadeRate * Sum(deltas))
    decreases |deltas|
  {
    if |deltas| > 0 {
      var rest := deltas[1..];
      FadeClosedForm(Decay(alpha, deltas[0]), rest);
      SumNonNegative(rest);
    }
  }

  /**
    The component's state: the positions array and the alpha uniform's
    value. The uniform is created once with value 1.
   */
  class Dust {
    var positions: array<real>
    var alpha: real

    ghost predicate Valid()
      reads this
    {
      positions.Length == 3 * PointsCount && alpha >= 0.0
    }

    /** Mounting: positions from the first draws, alpha 1. */
    constructor (position: Vec3, draws: seq<real>)
      requires |draws| == 3 * PointsCount && ValidDraws(draws)
      ensures Valid() && alpha == 1.0
      ensures forall k :: 0 <= k < positions.Length ==> positions[k] == Coordinate(position, k, draws[k])
    {
      var filled := FillPositions(position, draws);
      positions := filled;
      alpha := 1.0;
    }

    /**
      The frame callback: with the material mounted alpha decays by one
      frame; without it nothing changes.
     */
    method Frame(delta: real, materialMounted: bool)
      requires Valid()
      modifies this`alpha
      ensures Valid()
      ensures materialMounted ==> alpha == Decay(old(alpha), delta)
      ensures !materialMounted ==> alpha == old(alpha)
    {
      if materialMounted {
        var current := alpha;
        alpha := Max(0.0, current - delta * FadeRate);
      }
    }

    /**
      A new position: the memo recomputes the points from fresh draws and
      the effect that depends on them puts alpha back to 1.
     */
    method Recompute(position: Vec3, draws: seq<real>)
      requires Valid()
      requires |draws| == 3 * PointsCount && ValidDraws(draws)
      modifies this
      ensures Valid() && alpha == 1.0
      ensures forall k :: 0 <= k < positions.Length ==> positions[k] == Coordinate(position, k, draws[k])
    {
      positions := FillPositions(position, draws);
      alpha := 1.0;
    }
  }
}
