/** The `Vehicles` simulator of main.js: one agent per packed circle, with
    flat `positions` and `velocities` buffers where agent i occupies indices
    3i, 3i+1 and 3i+2. The steering forces are vector arithmetic with square
    roots and length clamps; they enter here as caller-supplied functions of
    the agent's state, and only the flee distance threshold is modelled. */
module Steering {
  import opened Vectors
  import opened MathUtils
  import opened Circles

  /** Inside this distance of the repulsor, `flee` pushes. */
  const FleeThreshold: real := 5.0

  /** The spreads of the random start positions and velocities. */
  const SpreadX: real := 120.0
  const SpreadYZ: real := 70.0
  const SpreadVelocity: real := 1.0

  /** The six `Math.random()` values the constructor consumes for one agent,
      in call order: three for the position, three for the velocity. */
  datatype Seed = Seed(px: real, py: real, pz: real, vx: real, vy: real, vz: real)

  /** What `getProps(i)` returns: agent i's position and its circle's radius. */
  datatype Props = Props(x: real, y: real, z: real, r: real)

  /** Agent i's three components of a flat buffer. */
  function Slot(a: seq<real>, i: nat): Vec3
    requires 3 * i + 2 < |a|
  {
    Vec3(a[3 * i], a[3 * i + 1], a[3 * i + 2])
  }

  function StartPosition(s: Seed): Vec3
  {
    Vec3(RandFloatSpread(SpreadX, s.px), RandFloatSpread(SpreadYZ, s.py), RandFloatSpread(SpreadYZ, s.pz))
  }

  function StartVelocity(s: Seed): Vec3
  {
    Vec3(RandFloatSpread(SpreadVelocity, s.vx), RandFloatSpread(SpreadVelocity, s.vy), RandFloatSpread(SpreadVelocity, s.vz))
  }

  /** The type of a steering force: a function of the point steered to or
      from, the agent's position and the agent's velocity. */
  type Steer = (Vec3, Vec3, Vec3) -> Vec3

  /** `flee({ i, source, steer })`: the force `push` would give (towards the
      source, clamped and amplified) when the source is closer than
      `FleeThreshold`, and exactly zero otherwise. */
  function Flee(source: Vec3, pos: Vec3, vel: Vec3, push: Steer): (f: Vec3)
    ensures !DistLess(source, pos, FleeThreshold) ==> f == Zero
  {
    if DistLess(source, pos, FleeThreshold) then push(source, pos, vel) else Zero
  }

  /** The acceleration of one agent in one tick: arrive minus flee. */
  function Acceleration(target: Vec3, source: Vec3, pos: Vec3, vel: Vec3, arrive: Steer, push: Steer): Vec3
  {
    Sub(arrive(target, pos, vel), Flee(source, pos, vel, push))
  }

  /** With the repulsor out of reach, an agent's acceleration is its arrive
      force alone. */
  lemma FarRepulsorOnlyArrives(target: Vec3, source: Vec3, pos: Vec3, vel: Vec3, arrive: Steer, push: Steer)
    requires !DistLess(source, pos, FleeThreshold)
    ensures Acceleration(target, source, pos, vel, arrive, push) == arrive(target, pos, vel)
  {
  }

  /** Writes agent i's three components of a flat buffer, leaving every other
      agent's components as they were. */
  method SetSlot(a: array<real>, i: nat, v: Vec3)
    requires 3 * i + 2 < a.Length
    modifies a
    ensures Slot(a[..], i) == v
    ensures forall k: nat :: 3 * k + 2 < a.Length && k != i ==> Slot(a[..], k) == Slot(old(a[..]), k)
  {
    a[3 * i], a[3 * i + 1], a[3 * i + 2] := v.x, v.y, v.z;
  }

  class Vehicles {
    const circles: seq<Circle>
    const count: nat
    const positions: array<real>
    const velocities: array<real>

    ghost predicate Valid()
      reads this
    {
      && count == |circles|
      && positions.Length == 3 * count
      && velocities.Length == 3 * count
      && positions != velocities
    }

    /** `new Vehicles(circles)`, with the random values it draws. */
    constructor (circles: seq<Circle>, seeds: seq<Seed>)
      requires |seeds| == |circles|
      ensures Valid()
      ensures this.circles == circles && count == |circles|
      ensures fresh(positions) && fresh(velocities)
      ensures forall i :: 0 <= i < count ==>
        Slot(positions[..], i) == StartPosition(seeds[i]) && Slot(velocities[..], i) == StartVelocity(seeds[i])
    {
      var n := |circles|;
      var ps := new real[3 * n];
      var vs := new real[3 * n];
      for i := 0 to n
        invariant forall k :: 0 <= k < i ==>
          Slot(ps[..], k) == StartPosition(seeds[k]) && Slot(vs[..], k) == StartVelocity(seeds[k])
      {
        SetSlot(ps, i, StartPosition(seeds[i]));
        SetSlot(vs, i, StartVelocity(seeds[i]));
      }
      this.circles := circles;
      count := n;
      positions := ps;
      velocities := vs;
    }

    /** One tick of `behaviors({ mouse, mesh })`: every agent moves by its
        velocity from before the tick, and its velocity then gains the
        acceleration computed from its state before the tick. */
    method Behaviors(mouse: Vec3, arrive: Steer, push: Steer)
      requires Valid()
      modifies positions, velocities
      ensures forall i :: 0 <= i < count ==>
        var pos, vel := Slot(old(positions[..]), i), Slot(old(velocities[..]), i);
        && Slot(positions[..], i) == Add(pos, vel)
        && Slot(velocities[..], i) == Add(vel, Acceleration(Center(circles[i]), mouse, pos, vel, arrive, push))
    {
      ghost var ps0, vs0 := positions[..], velocities[..];
      for i := 0 to count
        invariant forall k :: 0 <= k < i ==>
          var pos, vel := Slot(ps0, k), Slot(vs0, k);
          && Slot(positions[..], k) == Add(pos, vel)
          && Slot(velocities[..], k) == Add(vel, Acceleration(Center(circles[k]), mouse, pos, vel, arrive, push))
        invariant forall k :: i <= k < count ==>
          Slot(positions[..], k) == Slot(ps0, k) && Slot(velocities[..], k) == Slot(vs0, k)
      {
        var pos := Slot(positions[..], i);
        var vel := Slot(velocities[..], i);
        var acc := Acceleration(Center(circles[i]), mouse, pos, vel, arrive, push);
        SetSlot(positions, i, Add(pos, vel));
        SetSlot(velocities, i, Add(vel, acc));
      }
    }

    /** `getProps(i)`: agent i's current position, scaled by the radius of
        the circle it is bound to. */
    function GetProps(i: nat): (p: Props)
      reads this, positions
      requires Valid() && i < count
      ensures p.r == circles[i].r
      ensures Vec3(p.x, p.y, p.z) == Slot(positions[..], i)
    {
      var ind := 3 * i;
      Props(positions[ind], positions[ind + 1], positions[ind + 2], circles[i].r)
    }
  }
}
