/** The circles built by `calculatePositions` in main.js and the pure
    definitions of its two inner closures: the candidate test of `addCircle`
    and one pass of `growCircles`. Each growth pass is defined turn by turn,
    in index order, because a circle's turn sees the radii already updated by
    the circles before it. */
module Circles {
  import opened Vectors
  import opened MathUtils

  /** Radius of a freshly placed circle, and the coarse growth step. */
  const Initial: real := 0.18
  /** Successful placements that close a batch of phase 1. */
  const Limit: nat := 100
  /** A batch that has made more attempts than this ends phase 1. */
  const AttemptsLimit: nat := 500
  /** Growth step of phase 2. */
  const FineStep: real := 0.001
  /** The spread of the random depth jitter given to a candidate. */
  const JitterRange: real := 4.0

  /** A sample of the point cloud. */
  datatype Spot = Spot(x: real, y: real)

  datatype Circle = Circle(x: real, y: real, z: real, r: real, growing: bool)

  /** The two `Math.random()` values one call of `addCircle` consumes: one
      for the spot index, one for the depth jitter. */
  datatype Draw = Draw(pick: real, jitter: real)

  datatype Option<T> = None | Some(value: T)

  function Center(c: Circle): Vec3
  {
    Vec3(c.x, c.y, c.z)
  }

  /** Every value of the stream is one a real generator can return. */
  predicate UnitDraws(draws: seq<Draw>)
  {
    forall k :: 0 <= k < |draws| ==> 0.0 <= draws[k].pick < 1.0 && 0.0 <= draws[k].jitter < 1.0
  }

  // ---------------------------------------------------------------------
  // The packing invariant

  /** Two circles do not overlap: the distance of their centres is at least
      the sum of their radii. */
  predicate Apart(a: Circle, b: Circle)
  {
    !DistLess(Center(a), Center(b), a.r + b.r)
  }

  predicate NonOverlapping(cs: seq<Circle>)
  {
    forall i, j :: 0 <= i < |cs| && 0 <= j < |cs| && i != j ==> Apart(cs[i], cs[j])
  }

  /** What holds of the circle list at every point of the packing: no two
      circles overlap and none is smaller than it was placed. */
  predicate Packed(cs: seq<Circle>)
  {
    NonOverlapping(cs) && forall i :: 0 <= i < |cs| ==> cs[i].r >= Initial
  }

  /** Both lists have the same circles at the same places with the same
      radii; only the `growing` flags may differ. */
  predicate SameDiscs(a: seq<Circle>, b: seq<Circle>)
  {
    |a| == |b| && forall i :: 0 <= i < |a| ==> Center(a[i]) == Center(b[i]) && a[i].r == b[i].r
  }

  lemma {:induction false} SameDiscsPacked(a: seq<Circle>, b: seq<Circle>)
    requires SameDiscs(a, b) && Packed(a)
    ensures Packed(b)
  {
    forall i, j | 0 <= i < |b| && 0 <= j < |b| && i != j
      ensures Apart(b[i], b[j])
    {
      assert Apart(a[i], a[j]);
    }
  }

  // ---------------------------------------------------------------------
  // addCircle

  /** The index `randInt(0, spots.length - 1)` picks. */
  function SpotIndex(spots: seq<Spot>, d: Draw): int
  {
    RandInt(d.pick, 0, |spots| - 1)
  }

  /** With no spots, randInt(0, -1) is 0 whatever the draw, and `spots[0]` is
      undefined; with spots, a genuine draw always addresses one of them. */
  lemma SpotIndexDefined(spots: seq<Spot>, d: Draw)
    ensures |spots| == 0 ==> SpotIndex(spots, d) == 0
    ensures |spots| > 0 && 0.0 <= d.pick < 1.0 ==> 0 <= SpotIndex(spots, d) < |spots|
  {
    if |spots| == 0 {
      assert d.pick * 0.0 == 0.0;
    }
  }

  /** The candidate centre: the spot's x, y and a depth jitter. */
  function Candidate(s: Spot, d: Draw): Vec3
  {
    Vec3(s.x, s.y, RandFloatSpread(JitterRange, d.jitter))
  }

  /** The circle `addCircle` pushes for an accepted candidate. */
  function Placed(p: Vec3): Circle
  {
    Circle(p.x, p.y, p.z, Initial, true)
  }

  /** The candidate is at least `step + other.r` away from every circle. */
  predicate Fits(cand: Vec3, cs: seq<Circle>, step: real)
  {
    forall i :: 0 <= i < |cs| ==> !DistLess(cand, Center(cs[i]), step + cs[i].r)
  }

  /** The scan of `addCircle` over the existing circles, stopping at the
      first one the candidate comes too close to. */
  method ScanFits(cs: seq<Circle>, cand: Vec3, step: real) returns (valid: bool)
    ensures valid <==> Fits(cand, cs, step)
  {
    valid := true;
    var i := 0;
    while i < |cs|
      invariant 0 <= i <= |cs|
      invariant forall k :: 0 <= k < i ==> !DistLess(cand, Center(cs[k]), step + cs[k].r)
    {
      if DistLess(cand, Center(cs[i]), step + cs[i].r) {
        valid := false;
        break;
      }
      i := i + 1;
    }
  }

  /** Appending an accepted candidate keeps the list packed, as long as the
      clearance demanded is at least the new circle's radius. */
  lemma {:induction false} PlacedKeepsPacked(cs: seq<Circle>, cand: Vec3, step: real)
    requires Packed(cs) && Fits(cand, cs, step) && step >= Initial
    ensures Packed(cs + [Placed(cand)])
  {
    var ns := cs + [Placed(cand)];
    var n := |cs|;
    forall i, j | 0 <= i < |ns| && 0 <= j < |ns| && i != j
      ensures Apart(ns[i], ns[j])
    {
      if i < n && j < n {
        assert ns[i] == cs[i] && ns[j] == cs[j];
      } else {
        var o := if i == n then j else i;
        assert o < n && ns[o] == cs[o];
        DistLessMonotone(cand, Center(cs[o]), Initial + cs[o].r, step + cs[o].r);
        assert Apart(ns[n], ns[o]);
        DistLessSymmetric(cand, Center(cs[o]), cs[o].r + Initial);
      }
    }
  }

  // ---------------------------------------------------------------------
  // growCircles

  /** Some other circle is closer to circle i than `self.r + other.r + step`. */
  predicate Blocked(cs: seq<Circle>, i: nat, step: real)
    requires i < |cs|
  {
    exists j :: 0 <= j < |cs| && j != i && DistLess(Center(cs[i]), Center(cs[j]), cs[i].r + cs[j].r + step)
  }

  /** The neighbour scan of `growCircles` for circle i, stopping at the first
      circle that blocks it. */
  method ScanBlocked(cs: seq<Circle>, i: nat, step: real) returns (blocked: bool)
    requires i < |cs|
    ensures blocked <==> Blocked(cs, i, step)
  {
    blocked := false;
    var j := 0;
    while j < |cs|
      invariant 0 <= j <= |cs|
      invariant forall k :: 0 <= k < j && k != i ==> !DistLess(Center(cs[i]), Center(cs[k]), cs[i].r + cs[k].r + step)
    {
      if i != j && DistLess(Center(cs[i]), Center(cs[j]), cs[i].r + cs[j].r + step) {
        blocked := true;
        break;
      }
      j := j + 1;
    }
  }

  /** Circle i after its turn in a pass: skipped when it no longer grows,
      stopped when blocked, otherwise enlarged by `step`. */
  function GrowTurn(cs: seq<Circle>, i: nat, step: real): Circle
    requires i < |cs|
  {
    var c := cs[i];
    if !c.growing then c
    else if Blocked(cs, i, step) then c.(growing := false)
    else c.(r := c.r + step)
  }

  /** The turns of circles i, i+1, ... in order, each seeing the earlier ones. */
  function GrowFrom(cs: seq<Circle>, i: nat, step: real): seq<Circle>
    requires i <= |cs|
    decreases |cs| - i
  {
    if i == |cs| then cs else GrowFrom(cs[i := GrowTurn(cs, i, step)], i + 1, step)
  }

  /** One full growth pass. */
  function GrowPass(cs: seq<Circle>, step: real): seq<Circle>
  {
    GrowFrom(cs, 0, step)
  }

  /** What a pass may do to one circle: the centre stays; a circle that was
      not growing is untouched; `growing` never becomes true; the radius grows
      by exactly `step` when the circle is still growing and is otherwise
      unchanged. */
  predicate TurnOutcome(before: Circle, after: Circle, step: real)
  {
    && Center(after) == Center(before)
    && (after.growing ==> before.growing)
    && (!before.growing ==> after == before)
    && after.r == (if after.growing then before.r + step else before.r)
  }

  lemma {:induction false} GrowFromOutcome(cs: seq<Circle>, i: nat, step: real)
    requires i <= |cs|
    ensures |GrowFrom(cs, i, step)| == |cs|
    ensures forall k :: 0 <= k < i ==> GrowFrom(cs, i, step)[k] == cs[k]
    ensures forall k :: i <= k < |cs| ==> TurnOutcome(cs[k], GrowFrom(cs, i, step)[k], step)
    decreases |cs| - i
  {
    if i < |cs| {
      var next := cs[i := GrowTurn(cs, i, step)];
      GrowFromOutcome(next, i + 1, step);
    }
  }

  /** The frame of a growth pass, circle by circle. */
  lemma GrowPassOutcome(cs: seq<Circle>, step: real)
    ensures |GrowPass(cs, step)| == |cs|
    ensures forall k :: 0 <= k < |cs| ==> TurnOutcome(cs[k], GrowPass(cs, step)[k], step)
  {
    GrowFromOutcome(cs, 0, step);
  }

  /** One turn keeps the circles pairwise apart: a circle grows only when every
      other circle is at least `self.r + other.r + step` away. */
  lemma {:induction false} GrowTurnKeepsApart(cs: seq<Circle>, i: nat, step: real)
    requires i < |cs| && NonOverlapping(cs)
    ensures NonOverlapping(cs[i := GrowTurn(cs, i, step)])
  {
    var c := GrowTurn(cs, i, step);
    var ns := cs[i := c];
    forall p, q | 0 <= p < |ns| && 0 <= q < |ns| && p != q
      ensures Apart(ns[p], ns[q])
    {
      if p != i && q != i {
        assert Apart(cs[p], cs[q]);
      } else if c.r == cs[i].r {
        assert Apart(cs[p], cs[q]);
      } else {
        var o := if p == i then q else p;
        assert !Blocked(cs, i, step);
        assert !DistLess(Center(cs[i]), Center(cs[o]), cs[i].r + cs[o].r + step);
        assert Apart(ns[i], ns[o]);
        DistLessSymmetric(Center(cs[i]), Center(cs[o]), c.r + cs[o].r);
      }
    }
  }

  lemma {:induction false} GrowFromKeepsApart(cs: seq<Circle>, i: nat, step: real)
    requires i <= |cs| && NonOverlapping(cs)
    ensures NonOverlapping(GrowFrom(cs, i, step))
    decreases |cs| - i
  {
    if i < |cs| {
      GrowTurnKeepsApart(cs, i, step);
      GrowFromKeepsApart(cs[i := GrowTurn(cs, i, step)], i + 1, step);
    }
  }

  /** A growth pass with a non-negative step keeps the list packed. */
  lemma GrowPassKeepsPacked(cs: seq<Circle>, step: real)
    requires Packed(cs) && step >= 0.0
    ensures Packed(GrowPass(cs, step))
  {
    GrowFromKeepsApart(cs, 0, step);
    GrowPassOutcome(cs, step);
  }

  /** A lone growing circle has no neighbour to block it: it grows and is
      still growing after the pass. */
  lemma LoneCircleGrows(cs: seq<Circle>, step: real)
    requires |cs| == 1 && cs[0].growing
    ensures GrowPass(cs, step) == [cs[0].(r := cs[0].r + step)]
  {
    assert !Blocked(cs, 0, step);
    assert GrowFrom(cs, 0, step) == GrowFrom([cs[0].(r := cs[0].r + step)], 1, step);
  }

  // ---------------------------------------------------------------------
  // Phase 2

  /** `circles.map(c => ({ ...c, growing: true }))`. */
  function ResetGrowing(cs: seq<Circle>): (rs: seq<Circle>)
    ensures SameDiscs(cs, rs)
    ensures forall i :: 0 <= i < |rs| ==> rs[i].growing
  {
    seq(|cs|, i requires 0 <= i < |cs| => cs[i].(growing := true))
  }

  /** `circles.filter(c => c.growing)`. */
  function GrowingOnes(cs: seq<Circle>): (gs: seq<Circle>)
    ensures forall k :: 0 <= k < |gs| ==> gs[k].growing && gs[k] in cs
    ensures |gs| == 0 <==> forall i :: 0 <= i < |cs| ==> !cs[i].growing
  {
    if cs == [] then []
    else if cs[0].growing then [cs[0]] + GrowingOnes(cs[1..])
    else GrowingOnes(cs[1..])
  }

  /** The loop of phase 2, given at most `fuel` passes: `None` when the fuel
      runs out while some circle still grows. */
  function Relax(cs: seq<Circle>, step: real, fuel: nat): Option<seq<Circle>>
    decreases fuel
  {
    if |GrowingOnes(cs)| == 0 then Some(cs)
    else if fuel == 0 then None
    else Relax(GrowPass(cs, step), step, fuel - 1)
  }

  /** When phase 2 ends, no circle grows, nothing moved, no radius shrank and
      the list is still packed. */
  lemma {:induction false} RelaxOutcome(cs: seq<Circle>, step: real, fuel: nat)
    requires step >= 0.0
    requires Relax(cs, step, fuel).Some?
    ensures var out := Relax(cs, step, fuel).value;
      && |out| == |cs|
      && (forall k :: 0 <= k < |out| ==> !out[k].growing)
      && (forall k :: 0 <= k < |out| ==> Center(out[k]) == Center(cs[k]) && out[k].r >= cs[k].r)
      && (Packed(cs) ==> Packed(out))
    decreases fuel
  {
    if |GrowingOnes(cs)| != 0 {
      var next := GrowPass(cs, step);
      GrowPassOutcome(cs, step);
      if Packed(cs) {
        GrowPassKeepsPacked(cs, step);
      }
      RelaxOutcome(next, step, fuel - 1);
    }
  }

  /** With a single circle phase 2 never ends, whatever the number of passes. */
  lemma {:induction false} LoneCircleNeverSettles(cs: seq<Circle>, step: real, fuel: nat)
    requires |cs| == 1 && cs[0].growing
    ensures Relax(cs, step, fuel) == None
    decreases fuel
  {
    assert |GrowingOnes(cs)| != 0;
    if fuel > 0 {
      LoneCircleGrows(cs, step);
      LoneCircleNeverSettles(GrowPass(cs, step), step, fuel - 1);
    }
  }
}
