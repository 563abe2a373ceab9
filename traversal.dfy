/** The Amanatides-Woo voxel traversal (3D DDA) of `voxel_traversal` in
    src/lib.rs, as specification functions and as the imperative method that
    the source is.  One model stands for both the single- and the
    double-precision entry points; distances are exact reals. */
module Traversal {
  import opened ExtReal
  import opened Grid

  /** What one call of the visitor receives. */
  datatype Visit = Visit(voxel: Int3, normal: Int3)

  /** How the traversal ended: the visitor asked to stop, the current voxel
      became the last voxel, or the bound on loop iterations ran out. */
  datatype Outcome = Stopped | Reached | OutOfFuel

  /** Everything the caller observes: the visits in order and how it ended. */
  datatype Trace = Trace(visits: seq<Visit>, outcome: Outcome)

  /** The per-traversal constants: step direction and tDelta of each axis,
      and the voxel that ends the traversal. */
  datatype Setup = Setup(step: Int3, tDelta: Ext3, last: Int3)

  /** The state the loop updates: the current voxel and tMax of each axis. */
  datatype Cursor = Cursor(voxel: Int3, tMax: Ext3)

  // ---------------------------------------------------------------------
  // Initialisation

  /** Step direction of an axis whose ray component is `d`. */
  function StepFor(d: real): int
  {
    if d >= 0.0 then 1 else -1
  }

  /** The grid plane ahead of coordinate cell `c` in direction `step`. */
  function Boundary(c: int, step: int): int
  {
    if step > 0 then c + 1 else c
  }

  /** Initial tMax of an axis: start coordinate `s`, ray component `d`. */
  function InitTMax(s: real, d: real): Ext
  {
    if d != 0.0 then Fin((Boundary(s.Floor, StepFor(d)) as real - s) / d) else Inf
  }

  /** tDelta of an axis with ray component `d`. */
  function InitTDelta(d: real): Ext
  {
    if d != 0.0 then Fin(RAbs(1.0 / d)) else Inf
  }

  function Prepare(start: Real3, end: Real3): Setup
  {
    var ray := Sub3(end, start);
    Setup(Int3(StepFor(ray.x), StepFor(ray.y), StepFor(ray.z)),
          Ext3(InitTDelta(ray.x), InitTDelta(ray.y), InitTDelta(ray.z)),
          Floor3(end))
  }

  function Origin(start: Real3, end: Real3): Cursor
  {
    var ray := Sub3(end, start);
    Cursor(Floor3(start),
           Ext3(InitTMax(start.x, ray.x), InitTMax(start.y, ray.y), InitTMax(start.z, ray.z)))
  }

  // ---------------------------------------------------------------------
  // One iteration of the loop

  /** The axis one iteration advances: the axis of least tMax, an exact tie
      going to the axis compared later (Z over Y over X). */
  function Choose(t: Ext3): Axis
  {
    if Less(t.x, t.y) then
      if Less(t.x, t.z) then X else Z
    else if Less(t.y, t.z) then Y
    else Z
  }

  /** The state after one iteration. */
  function Advance(s: Setup, c: Cursor): Cursor
  {
    var a := Choose(c.tMax);
    Cursor(With(c.voxel, a, Coord(c.voxel, a) + Coord(s.step, a)),
           EWith(c.tMax, a, Add(ECoord(c.tMax, a), ECoord(s.tDelta, a))))
  }

  /** The normal reported after one iteration. */
  function EntryNormal(s: Setup, c: Cursor): Int3
  {
    var a := Choose(c.tMax);
    Unit(a, -Coord(s.step, a))
  }

  function Prepend(vs: seq<Visit>, t: Trace): Trace
  {
    Trace(vs + t.visits, t.outcome)
  }

  /** The loop, run from cursor `c` after `calls` visitor calls, for at most
      `fuel` more iterations. */
  function Walk(s: Setup, c: Cursor, answer: nat -> bool, calls: nat, fuel: nat): Trace
    decreases fuel
  {
    if c.voxel == s.last then Trace([], Reached)
    else if fuel == 0 then Trace([], OutOfFuel)
    else
      var v := Visit(Advance(s, c).voxel, EntryNormal(s, c));
      if answer(calls) then Trace([v], Stopped)
      else Prepend([v], Walk(s, Advance(s, c), answer, calls + 1, fuel - 1))
  }

  /** The four branches of one iteration, written out axis by axis. */
  lemma AdvanceCases(s: Setup, c: Cursor)
    ensures var t := c.tMax; Less(t.x, t.y) && Less(t.x, t.z) ==>
      Advance(s, c) == Cursor(c.voxel.(x := c.voxel.x + s.step.x), t.(x := Add(t.x, s.tDelta.x)))
      && EntryNormal(s, c) == ZERO.(x := -s.step.x)
    ensures var t := c.tMax; !Less(t.x, t.y) && Less(t.y, t.z) ==>
      Advance(s, c) == Cursor(c.voxel.(y := c.voxel.y + s.step.y), t.(y := Add(t.y, s.tDelta.y)))
      && EntryNormal(s, c) == ZERO.(y := -s.step.y)
    ensures var t := c.tMax; (Less(t.x, t.y) && !Less(t.x, t.z)) || (!Less(t.x, t.y) && !Less(t.y, t.z)) ==>
      Advance(s, c) == Cursor(c.voxel.(z := c.voxel.z + s.step.z), t.(z := Add(t.z, s.tDelta.z)))
      && EntryNormal(s, c) == ZERO.(z := -s.step.z)
  {
  }

  /** One iteration of `Walk` whose visitor call asks to stop. */
  lemma WalkStops(s: Setup, c: Cursor, answer: nat -> bool, calls: nat, fuel: nat, vs: seq<Visit>)
    requires c.voxel != s.last && fuel > 0 && answer(calls)
    ensures Prepend(vs, Walk(s, c, answer, calls, fuel))
         == Trace(vs + [Visit(Advance(s, c).voxel, EntryNormal(s, c))], Stopped)
  {
  }

  /** One iteration of `Walk`, unfolded. */
  lemma WalkUnfold(s: Setup, c: Cursor, answer: nat -> bool, calls: nat, fuel: nat, vs: seq<Visit>)
    requires c.voxel != s.last && fuel > 0 && !answer(calls)
    ensures Prepend(vs, Walk(s, c, answer, calls, fuel))
         == Prepend(vs + [Visit(Advance(s, c).voxel, EntryNormal(s, c))],
                    Walk(s, Advance(s, c), answer, calls + 1, fuel - 1))
  {
    var v := Visit(Advance(s, c).voxel, EntryNormal(s, c));
    var rest := Walk(s, Advance(s, c), answer, calls + 1, fuel - 1);
    assert vs + ([v] + rest.visits) == vs + [v] + rest.visits;
  }

  /** The whole traversal from `start` to `end`; the visitor's answer to its
      k-th call (counting from 0) is `answer(k)`. */
  function Traverse(start: Real3, end: Real3, answer: nat -> bool, fuel: nat): Trace
  {
    var first := Visit(Floor3(start), ZERO);
    if answer(0) then Trace([first], Stopped)
    else Prepend([first], Walk(Prepare(start, end), Origin(start, end), answer, 1, fuel))
  }

  // ---------------------------------------------------------------------
  // The source's procedure

  /** `voxel_traversal`: reports the visits in `visits`, in call order, and
      stops after at most `fuel` loop iterations. */
  method VoxelTraversal(rayStart: Real3, rayEnd: Real3, answer: nat -> bool, fuel: nat)
    returns (visits: seq<Visit>, outcome: Outcome)
    ensures Trace(visits, outcome) == Traverse(rayStart, rayEnd, answer, fuel)
  {
    var currentVoxel := Floor3(rayStart);
    var lastVoxel := Floor3(rayEnd);
    var ray := Sub3(rayEnd, rayStart);

    var stepX, stepY, stepZ := StepFor(ray.x), StepFor(ray.y), StepFor(ray.z);
    var tMaxX, tMaxY, tMaxZ := InitTMax(rayStart.x, ray.x), InitTMax(rayStart.y, ray.y), InitTMax(rayStart.z, ray.z);
    var tDeltaX, tDeltaY, tDeltaZ := InitTDelta(ray.x), InitTDelta(ray.y), InitTDelta(ray.z);

    visits := [Visit(currentVoxel, ZERO)];
    if answer(0) {
      outcome := Stopped;
      return;
    }

    ghost var setup := Setup(Int3(stepX, stepY, stepZ), Ext3(tDeltaX, tDeltaY, tDeltaZ), lastVoxel);
    assert setup == Prepare(rayStart, rayEnd);
    assert Cursor(currentVoxel, Ext3(tMaxX, tMaxY, tMaxZ)) == Origin(rayStart, rayEnd);
    ghost var whole := Traverse(rayStart, rayEnd, answer, fuel);

    var iterations := 0;
    while currentVoxel != lastVoxel && iterations < fuel
      invariant 0 <= iterations <= fuel
      invariant |visits| == iterations + 1
      invariant whole == Prepend(visits, Walk(setup, Cursor(currentVoxel, Ext3(tMaxX, tMaxY, tMaxZ)),
                                     answer, |visits|, fuel - iterations))
      decreases fuel - iterations
    {
      ghost var before := Cursor(currentVoxel, Ext3(tMaxX, tMaxY, tMaxZ));
      AdvanceCases(setup, before);
      var normal := ZERO;
      if Less(tMaxX, tMaxY) {
        if Less(tMaxX, tMaxZ) {
          currentVoxel := currentVoxel.(x := currentVoxel.x + stepX);
          tMaxX := Add(tMaxX, tDeltaX);
          normal := normal.(x := -stepX);
        } else {
          currentVoxel := currentVoxel.(z := currentVoxel.z + stepZ);
          tMaxZ := Add(tMaxZ, tDeltaZ);
          normal := normal.(z := -stepZ);
        }
      } else if Less(tMaxY, tMaxZ) {
        currentVoxel := currentVoxel.(y := currentVoxel.y + stepY);
        tMaxY := Add(tMaxY, tDeltaY);
        normal := normal.(y := -stepY);
      } else {
        currentVoxel := currentVoxel.(z := currentVoxel.z + stepZ);
        tMaxZ := Add(tMaxZ, tDeltaZ);
        normal := normal.(z := -stepZ);
      }
      assert Cursor(currentVoxel, Ext3(tMaxX, tMaxY, tMaxZ)) == Advance(setup, before);
      assert normal == EntryNormal(setup, before);
      if answer(|visits|) {
        WalkStops(setup, before, answer, |visits|, fuel - iterations, visits);
        visits := visits + [Visit(currentVoxel, normal)];
        outcome := Stopped;
        return;
      }
      WalkUnfold(setup, before, answer, |visits|, fuel - iterations, visits);
      visits := visits + [Visit(currentVoxel, normal)];
      iterations := iterations + 1;
    }
    outcome := if currentVoxel == lastVoxel then Reached else OutOfFuel;
    assert Trace(visits, outcome) == whole;
  }
}
