/** `calculatePositions` of main.js: the circle list its closures share and
    mutate, the two closures `addCircle` and `growCircles`, the batched
    phase 1 and the fine relaxation of phase 2. The random stream is a
    caller-supplied sequence of draws; its end, and a bound on the passes of
    phase 2, are the only ways the model stops where the source would go on. */
module CirclePacking {
  import opened Circles

  datatype PackError =
    | UndefinedSpot     // `spots[rInd]` is undefined: the source throws a TypeError
    | DrawsExhausted    // the supplied random stream ran out
    | PassesExhausted   // phase 2 did not settle within the allowed passes

  datatype Result<T> = Success(value: T) | Failure(error: PackError)

  /** What one batch of phase 1 did: the successful placements, the attempts
      made, and whether it ends phase 1. */
  datatype Batch = Batch(count: nat, attempts: nat, finished: bool)

  /** The result of a run of one of the loops together with the circle list
      it leaves behind. */
  datatype Run<T> = Run(res: Result<T>, circles: seq<Circle>)

  /** The `circles` array of `calculatePositions`, which `addCircle` pushes
      to and `growCircles` updates in place. */
  class Packer {
    var circles: seq<Circle>

    constructor ()
      ensures circles == []
    {
      circles := [];
    }

    /** `addCircle({ spots, circles, step })` drawing `d`: on success the
        result says whether the candidate was accepted and pushed. */
    method AddCircle(spots: seq<Spot>, d: Draw, step: real) returns (res: Result<bool>)
      modifies this
      ensures Run(res, circles) == Attempt(old(circles), spots, d, step)
      ensures var k := SpotIndex(spots, d);
        if 0 <= k < |spots| then
          var cand := Candidate(spots[k], d);
          && res == Success(Fits(cand, old(circles), step))
          && circles == (if Fits(cand, old(circles), step) then old(circles) + [Placed(cand)] else old(circles))
        else
          res == Failure(UndefinedSpot) && circles == old(circles)
      ensures Packed(old(circles)) && step >= Initial ==> Packed(circles)
    {
      var k := SpotIndex(spots, d);
      if !(0 <= k < |spots|) {
        return Failure(UndefinedSpot);
      }
      var cand := Candidate(spots[k], d);
      var valid := ScanFits(circles, cand, step);
      if valid {
        if Packed(circles) && step >= Initial {
          PlacedKeepsPacked(circles, cand, step);
        }
        circles := circles + [Placed(cand)];
      }
      return Success(valid);
    }

    /** `growCircles({ circles, step })`: one growth pass over every circle,
        in index order. */
    method GrowCircles(step: real)
      modifies this
      ensures circles == GrowPass(old(circles), step)
      ensures |circles| == |old(circles)|
      ensures forall k :: 0 <= k < |circles| ==> TurnOutcome(old(circles)[k], circles[k], step)
      ensures Packed(old(circles)) && step >= 0.0 ==> Packed(circles)
    {
      GrowPassOutcome(circles, step);
      if Packed(circles) && step >= 0.0 {
        GrowPassKeepsPacked(circles, step);
      }
      var i := 0;
      while i < |circles|
        invariant 0 <= i <= |circles| == |old(circles)|
        invariant GrowFrom(circles, i, step) == GrowPass(old(circles), step)
      {
        ghost var before := circles;
        var self := circles[i];
        if self.growing {
          var blocked := ScanBlocked(circles, i, step);
          if blocked {
            circles := circles[i := self.(growing := false)];
          } else {
            circles := circles[i := self.(r := self.r + step)];
          }
        }
        assert circles == before[i := GrowTurn(before, i, step)];
        i := i + 1;
      }
    }

    /** One batch of phase 1: attempt placements, starting at draw `used`,
        until `Limit` succeed or the attempts exceed `AttemptsLimit`. */
    method RunBatch(spots: seq<Spot>, draws: seq<Draw>, used: nat) returns (res: Result<Batch>)
      requires used <= |draws|
      modifies this
      ensures Run(res, circles) == BatchRun(old(circles), spots, draws, used, 0, 0)
      ensures Packed(old(circles)) ==> Packed(circles)
      ensures old(circles) <= circles
      ensures res.Success? ==>
        var b := res.value;
        && b.count <= Limit
        && 1 <= b.attempts <= AttemptsLimit + 1
        && used + b.attempts <= |draws|
        && (b.finished <==> b.attempts > AttemptsLimit)
        && (!b.finished ==> b.count == Limit)
        && |circles| == |old(circles)| + b.count
      ensures used + AttemptsLimit < |draws| ==> res != Failure(DrawsExhausted)
      ensures |spots| == 0 && used < |draws| ==> res == Failure(UndefinedSpot)
      ensures UnitDraws(draws) && |spots| > 0 ==> res != Failure(UndefinedSpot)
    {
      BatchRunFrame(circles, spots, draws, used, 0, 0);
      BatchRunCounts(circles, spots, draws, used, 0, 0);
      BatchRunErrors(circles, spots, draws, used, 0, 0);
      var count, attempts := 0, 0;
      while count < Limit
        invariant count <= Limit && attempts <= AttemptsLimit
        invariant used + attempts <= |draws|
        invariant BatchRun(circles, spots, draws, used, count, attempts) == BatchRun(old(circles), spots, draws, used, 0, 0)
        decreases AttemptsLimit - attempts
      {
        if used + attempts == |draws| {
          return Failure(DrawsExhausted);
        }
        var added := AddCircle(spots, draws[used + attempts], Initial);
        attempts := attempts + 1;
        if added.Failure? {
          return Failure(added.error);
        }
        if added.value {
          count := count + 1;
        }
        if attempts > AttemptsLimit {
          return Success(Batch(count, attempts, true));
        }
      }
      return Success(Batch(count, attempts, false));
    }

    /** Phase 1: batches, each followed by a coarse growth pass, until a
        batch exceeds the attempts limit. Returns the draws consumed. */
    method Phase1(spots: seq<Spot>, draws: seq<Draw>) returns (res: Result<nat>)
      modifies this
      ensures Run(res, circles) == Phase1Run(old(circles), spots, draws, 0)
      ensures Packed(old(circles)) ==> Packed(circles)
      ensures res.Success? ==>
        && res.value <= |draws|
        && |old(circles)| <= |circles|
        && (forall k :: 0 <= k < |old(circles)| ==>
              Center(circles[k]) == Center(old(circles)[k]) && circles[k].r >= old(circles)[k].r)
      ensures |spots| == 0 && |draws| > 0 ==> res == Failure(UndefinedSpot)
      ensures UnitDraws(draws) && |spots| > 0 ==> res != Failure(UndefinedSpot)
    {
      Phase1RunOutcome(circles, spots, draws, 0);
      var used := 0;
      while true
        invariant used <= |draws|
        invariant Phase1Run(circles, spots, draws, used) == Phase1Run(old(circles), spots, draws, 0)
        decreases |draws| - used
      {
        var b := RunBatch(spots, draws, used);
        if b.Failure? {
          return Failure(b.error);
        }
        used := used + b.value.attempts;
        GrowCircles(Initial);
        if b.value.finished {
          return Success(used);
        }
      }
    }

    /** Phase 2: mark every circle growing, then run fine growth passes until
        none grows, giving up after `maxPasses` passes. */
    method Phase2(maxPasses: nat) returns (settled: bool)
      modifies this
      ensures Relax(ResetGrowing(old(circles)), FineStep, maxPasses) == if settled then Some(circles) else None
      ensures settled ==>
        && |circles| == |old(circles)|
        && (forall k :: 0 <= k < |circles| ==> !circles[k].growing)
        && (forall k :: 0 <= k < |circles| ==> Center(circles[k]) == Center(old(circles)[k]) && circles[k].r >= old(circles)[k].r)
        && (Packed(old(circles)) ==> Packed(circles))
      ensures |old(circles)| == 0 ==> settled && circles == []
      ensures |old(circles)| == 1 ==> !settled
    {
      var start := ResetGrowing(circles);
      if Packed(circles) {
        SameDiscsPacked(circles, start);
      }
      if |circles| == 1 {
        LoneCircleNeverSettles(start, FineStep, maxPasses);
      }
      if Relax(start, FineStep, maxPasses).Some? {
        RelaxOutcome(start, FineStep, maxPasses);
      }
      circles := start;
      var passes := 0;
      while true
        invariant passes <= maxPasses
        invariant Relax(circles, FineStep, maxPasses - passes) == Relax(start, FineStep, maxPasses)
        decreases maxPasses - passes
      {
        var grows := GrowingOnes(circles);
        if |grows| == 0 {
          return true;
        }
        if passes == maxPasses {
          return false;
        }
        GrowCircles(FineStep);
        passes := passes + 1;
      }
    }
  }

  /** `calculatePositions(spots)` with its random stream `draws` and a bound
      on the passes of phase 2: phase 1 from no circles, then phase 2. On
      success no two circles overlap, none is smaller than `Initial`, none is
      still growing, and there are at least two. An empty spot list fails on
      the first draw, as the source's `spots[0]` is undefined. */
  method CalculatePositions(spots: seq<Spot>, draws: seq<Draw>, maxPasses: nat) returns (res: Result<seq<Circle>>)
    ensures res == Pack(spots, draws, maxPasses)
    ensures res.Success? ==>
      && Packed(res.value)
      && (forall k :: 0 <= k < |res.value| ==> !res.value[k].growing)
      && |res.value| >= 2
    ensures |spots| == 0 && |draws| > 0 ==> res == Failure(UndefinedSpot)
    ensures UnitDraws(draws) && |spots| > 0 ==> res != Failure(UndefinedSpot)
  {
    PackOutcome(spots, draws, maxPasses);
    var packer := new Packer();
    var phase1 := packer.Phase1(spots, draws);
    if phase1.Failure? {
      return Failure(phase1.error);
    }
    var settled := packer.Phase2(maxPasses);
    if !settled {
      return Failure(PassesExhausted);
    }
    return Success(packer.circles);
  }

  // ---------------------------------------------------------------------
  // Reference definitions of the two phase-1 loops and of the whole packing

  /** One call of `addCircle` (main.js:121-152) drawing `d`: an undefined
      spot fails; otherwise the candidate is pushed exactly when it fits. */
  function Attempt(cs: seq<Circle>, spots: seq<Spot>, d: Draw, step: real): Run<bool>
  {
    var k := SpotIndex(spots, d);
    if 0 <= k < |spots| then
      var cand := Candidate(spots[k], d);
      if Fits(cand, cs, step) then Run(Success(true), cs + [Placed(cand)]) else Run(Success(false), cs)
    else Run(Failure(UndefinedSpot), cs)
  }

  /** The batch loop (main.js:190-206) from a state with `count` successes
      and `attempts` attempts, the next draw being `draws[used + attempts]`. */
  function BatchRun(cs: seq<Circle>, spots: seq<Spot>, draws: seq<Draw>, used: nat, count: nat, attempts: nat): (r: Run<Batch>)
    requires used + attempts <= |draws| && count <= Limit && attempts <= AttemptsLimit
    ensures r.res.Success? ==> attempts <= r.res.value.attempts && used + r.res.value.attempts <= |draws|
    ensures r.res.Success? && count < Limit ==> attempts < r.res.value.attempts
    decreases |draws| - used - attempts
  {
    if count == Limit then Run(Success(Batch(count, attempts, false)), cs)
    else if used + attempts == |draws| then Run(Failure(DrawsExhausted), cs)
    else
      var a := Attempt(cs, spots, draws[used + attempts], Initial);
      if a.res.Failure? then Run(Failure(a.res.error), cs)
      else
        var count' := if a.res.value then count + 1 else count;
        if attempts + 1 > AttemptsLimit then Run(Success(Batch(count', attempts + 1, true)), a.circles)
        else BatchRun(a.circles, spots, draws, used, count', attempts + 1)
  }

  /** The outer loop of phase 1 (main.js:187-213) from draw `used` on: a
      batch, then a coarse growth pass, until a batch is the final one. */
  function Phase1Run(cs: seq<Circle>, spots: seq<Spot>, draws: seq<Draw>, used: nat): Run<nat>
    requires used <= |draws|
    decreases |draws| - used
  {
    var b := BatchRun(cs, spots, draws, used, 0, 0);
    if b.res.Failure? then Run(Failure(b.res.error), b.circles)
    else
      var grown := GrowPass(b.circles, Initial);
      var next := used + b.res.value.attempts;
      if b.res.value.finished then Run(Success(next), grown)
      else Phase1Run(grown, spots, draws, next)
  }

  /** The whole of `calculatePositions`: phase 1 from no circles, then the
      flag reset and the fine loop of phase 2. */
  function Pack(spots: seq<Spot>, draws: seq<Draw>, maxPasses: nat): Result<seq<Circle>>
  {
    var p1 := Phase1Run([], spots, draws, 0);
    if p1.res.Failure? then Failure(p1.res.error)
    else match Relax(ResetGrowing(p1.circles), FineStep, maxPasses)
      case Some(cs) => Success(cs)
      case None => Failure(PassesExhausted)
  }

  /** A batch only appends fresh circles (radius `Initial`, growing) after
      the untouched earlier ones, and keeps the packing. */
  lemma {:induction false} BatchRunFrame(cs: seq<Circle>, spots: seq<Spot>, draws: seq<Draw>, used: nat, count: nat, attempts: nat)
    requires used + attempts <= |draws| && count <= Limit && attempts <= AttemptsLimit
    ensures var r := BatchRun(cs, spots, draws, used, count, attempts);
      && cs <= r.circles
      && (forall k :: |cs| <= k < |r.circles| ==> r.circles[k].r == Initial && r.circles[k].growing)
      && (Packed(cs) ==> Packed(r.circles))
    decreases AttemptsLimit - attempts
  {
    if count < Limit && used + attempts < |draws| {
      var d := draws[used + attempts];
      var a := Attempt(cs, spots, d, Initial);
      if a.res.Success? {
        var count' := if a.res.value then count + 1 else count;
        if a.res.value && Packed(cs) {
          PlacedKeepsPacked(cs, Candidate(spots[SpotIndex(spots, d)], d), Initial);
        }
        if attempts + 1 <= AttemptsLimit {
          BatchRunFrame(a.circles, spots, draws, used, count', attempts + 1);
        }
      }
    }
  }

  /** A successful batch makes at most `AttemptsLimit + 1` attempts and adds
      one circle per success, at most `Limit` in all; it is final exactly
      when its attempts exceed the limit, and a batch that is not final has
      `Limit` successes. Started on no circles, it places at least one. */
  lemma {:induction false} BatchRunCounts(cs: seq<Circle>, spots: seq<Spot>, draws: seq<Draw>, used: nat, count: nat, attempts: nat)
    requires used + attempts <= |draws| && count <= Limit && attempts <= AttemptsLimit
    ensures var r := BatchRun(cs, spots, draws, used, count, attempts);
      r.res.Success? ==>
        var b := r.res.value;
        && count <= b.count <= Limit
        && b.attempts <= AttemptsLimit + 1
        && (b.finished <==> b.attempts > AttemptsLimit)
        && (!b.finished ==> b.count == Limit)
        && |r.circles| == |cs| + (b.count - count)
        && (cs == [] && count < Limit ==> |r.circles| >= 1)
    decreases AttemptsLimit - attempts
  {
    if count < Limit && used + attempts < |draws| {
      var d := draws[used + attempts];
      var a := Attempt(cs, spots, d, Initial);
      if a.res.Success? {
        var count' := if a.res.value then count + 1 else count;
        assert cs == [] ==> a.res.value;
        if attempts + 1 <= AttemptsLimit {
          BatchRunCounts(a.circles, spots, draws, used, count', attempts + 1);
        }
      }
    }
  }

  /** A batch runs out of draws only when fewer than `AttemptsLimit + 1`
      remain; for genuine draws it meets an undefined spot exactly when there
      are no spots, and then on its first attempt. */
  lemma {:induction false} BatchRunErrors(cs: seq<Circle>, spots: seq<Spot>, draws: seq<Draw>, used: nat, count: nat, attempts: nat)
    requires used + attempts <= |draws| && count <= Limit && attempts <= AttemptsLimit
    ensures var r := BatchRun(cs, spots, draws, used, count, attempts);
      && (used + AttemptsLimit < |draws| ==> r.res != Failure(DrawsExhausted))
      && (UnitDraws(draws) && |spots| > 0 ==> r.res != Failure(UndefinedSpot))
      && (|spots| == 0 && count < Limit && used + attempts < |draws| ==> r.res == Failure(UndefinedSpot))
    decreases AttemptsLimit - attempts
  {
    if count < Limit && used + attempts < |draws| {
      var d := draws[used + attempts];
      SpotIndexDefined(spots, d);
      var a := Attempt(cs, spots, d, Initial);
      if a.res.Success? {
        var count' := if a.res.value then count + 1 else count;
        if attempts + 1 <= AttemptsLimit {
          BatchRunErrors(a.circles, spots, draws, used, count', attempts + 1);
        }
      }
    }
  }

  /** Phase 1 keeps the packing; on success it keeps every earlier circle's
      centre and never lowers a radius, and started on no circles it leaves
      at least one. With no spots it fails on the first draw; genuine draws
      over spots never hit an undefined spot. */
  lemma {:induction false} Phase1RunOutcome(cs: seq<Circle>, spots: seq<Spot>, draws: seq<Draw>, used: nat)
    requires used <= |draws|
    ensures var r := Phase1Run(cs, spots, draws, used);
      && (Packed(cs) ==> Packed(r.circles))
      && (r.res.Success? ==>
            && used < r.res.value <= |draws|
            && |cs| <= |r.circles|
            && (forall k :: 0 <= k < |cs| ==> Center(r.circles[k]) == Center(cs[k]) && r.circles[k].r >= cs[k].r)
            && (cs == [] ==> |r.circles| >= 1))
      && (|spots| == 0 && used < |draws| ==> r.res == Failure(UndefinedSpot))
      && (UnitDraws(draws) && |spots| > 0 ==> r.res != Failure(UndefinedSpot))
    decreases |draws| - used
  {
    BatchRunFrame(cs, spots, draws, used, 0, 0);
    BatchRunCounts(cs, spots, draws, used, 0, 0);
    BatchRunErrors(cs, spots, draws, used, 0, 0);
    var b := BatchRun(cs, spots, draws, used, 0, 0);
    if b.res.Success? {
      var grown := GrowPass(b.circles, Initial);
      GrowPassOutcome(b.circles, Initial);
      if Packed(b.circles) {
        GrowPassKeepsPacked(b.circles, Initial);
      }
      assert forall k :: 0 <= k < |cs| ==> b.circles[k] == cs[k];
      if !b.res.value.finished {
        var next := used + b.res.value.attempts;
        Phase1RunOutcome(grown, spots, draws, next);
        var r := Phase1Run(grown, spots, draws, next);
        assert r == Phase1Run(cs, spots, draws, used);
        if r.res.Success? {
          forall k | 0 <= k < |cs|
            ensures Center(r.circles[k]) == Center(cs[k]) && r.circles[k].r >= cs[k].r
          {
            assert TurnOutcome(b.circles[k], grown[k], Initial);
          }
        }
      }
    }
  }

  /** A completed packing: no overlaps, no circle still growing, every
      radius at least `Initial`, and at least two circles, since phase 1
      places one on its first successful attempt and phase 2 never ends with
      exactly one. */
  lemma PackOutcome(spots: seq<Spot>, draws: seq<Draw>, maxPasses: nat)
    ensures var r := Pack(spots, draws, maxPasses);
      && (r.Success? ==>
            && Packed(r.value)
            && (forall k :: 0 <= k < |r.value| ==> !r.value[k].growing)
            && |r.value| >= 2)
      && (|spots| == 0 && |draws| > 0 ==> r == Failure(UndefinedSpot))
      && (UnitDraws(draws) && |spots| > 0 ==> r != Failure(UndefinedSpot))
  {
    Phase1RunOutcome([], spots, draws, 0);
    var p1 := Phase1Run([], spots, draws, 0);
    if p1.res.Success? {
      var start := ResetGrowing(p1.circles);
      SameDiscsPacked(p1.circles, start);
      if |start| == 1 {
        LoneCircleNeverSettles(start, FineStep, maxPasses);
      }
      if Relax(start, FineStep, maxPasses).Some? {
        RelaxOutcome(start, FineStep, maxPasses);
      }
    }
  }
}
