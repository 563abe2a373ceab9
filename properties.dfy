/** What the traversal of src/lib.rs promises, proved about the
    specification functions of module Traversal (and so, through its
    postcondition, about the method VoxelTraversal). */
module TraversalProperties {
  import opened ExtReal
  import opened Grid
  import opened Traversal

  // ---------------------------------------------------------------------
  // Axis selection

  /** `a` has the least tMax, and every axis compared after it has a
      strictly larger one: ties go to the axis compared last. */
  ghost predicate IsLastMinimum(t: Ext3, a: Axis)
  {
    (forall b :: AtMost(ECoord(t, a), ECoord(t, b))) &&
    (forall b :: Rank(a) < Rank(b) ==> Less(ECoord(t, a), ECoord(t, b)))
  }

  /** The comparisons of one iteration pick exactly the last axis of least tMax. */
  lemma ChooseIsLastMinimum(t: Ext3, a: Axis)
    ensures Choose(t) == a <==> IsLastMinimum(t, a)
  {
    var c := Choose(t);
    assert IsLastMinimum(t, c) by {
      forall b ensures AtMost(ECoord(t, c), ECoord(t, b)) {
        Trichotomy(t.x, t.y);
        Trichotomy(t.y, t.z);
        Trichotomy(t.x, t.z);
      }
    }
    if IsLastMinimum(t, a) {
      assert AtMost(ECoord(t, a), ECoord(t, c)) && AtMost(ECoord(t, c), ECoord(t, a));
      assert !(Rank(a) < Rank(c)) && !(Rank(c) < Rank(a));
    }
  }

  /** Proof helper: writes out the branch conditions of `Choose` as they
      stand in its body; the tie-break rule itself is `ChooseIsLastMinimum`. */
  lemma ChooseGuards(t: Ext3)
    ensures Choose(t) == X <==> Less(t.x, t.y) && Less(t.x, t.z)
    ensures Choose(t) == Y <==> !Less(t.x, t.y) && Less(t.y, t.z)
    ensures Choose(t) == Z <==> (Less(t.x, t.y) && !Less(t.x, t.z)) || (!Less(t.x, t.y) && !Less(t.y, t.z))
  {
  }

  /** Exact ties: Y beats X, Z beats X and Y. */
  lemma ChooseTies(t: Ext3)
    ensures t.x == t.y && Less(t.y, t.z) ==> Choose(t) == Y
    ensures t.x == t.z && Less(t.z, t.y) ==> Choose(t) == Z
    ensures t.y == t.z && Less(t.y, t.x) ==> Choose(t) == Z
    ensures t.x == t.y == t.z ==> Choose(t) == Z
  {
  }

  /** The sentinel loses against any finite tMax. */
  lemma ChooseAvoidsSentinel(t: Ext3)
    ensures (t.x.Fin? || t.y.Fin? || t.z.Fin?) ==> ECoord(t, Choose(t)).Fin?
  {
  }

  // ---------------------------------------------------------------------
  // One iteration

  /** One iteration moves the chosen axis by its step, adds its tDelta to its
      tMax, reports `-step` on that axis and 0 elsewhere, and leaves every
      other coordinate, every other tMax and all tDelta as they were. */
  lemma AdvanceMovesOneAxis(s: Setup, c: Cursor)
    ensures var a, c' := Choose(c.tMax), Advance(s, c);
      Coord(c'.voxel, a) == Coord(c.voxel, a) + Coord(s.step, a) &&
      ECoord(c'.tMax, a) == Add(ECoord(c.tMax, a), ECoord(s.tDelta, a)) &&
      Coord(EntryNormal(s, c), a) == -Coord(s.step, a) &&
      forall b :: b != a ==>
        Coord(c'.voxel, b) == Coord(c.voxel, b) &&
        ECoord(c'.tMax, b) == ECoord(c.tMax, b) &&
        Coord(EntryNormal(s, c), b) == 0
  {
  }

  // ---------------------------------------------------------------------
  // Initialisation

  /** The step of an axis times tDelta is the reciprocal of its ray component. */
  lemma DeltaTimesRay(d: real)
    requires d != 0.0
    ensures RAbs(1.0 / d) > 0.0
    ensures RAbs(1.0 / d) * d == StepFor(d) as real
  {
    if d > 0.0 {
      assert 1.0 / d > 0.0;
      assert (1.0 / d) * d == 1.0;
    } else {
      assert 1.0 / d < 0.0;
      assert (1.0 / d) * d == 1.0;
      assert RAbs(1.0 / d) * d == -((1.0 / d) * d);
    }
  }

  /** Lines 44-97 for one axis: the step is +1 exactly when the ray component
      is not negative; a zero component gets the sentinel for both tMax and
      tDelta; otherwise tDelta is positive and is the parameter span of one
      voxel, and tMax lies in [0, tDelta] and is the parameter at which the
      ray meets the next grid plane in the step direction. */
  lemma InitAxis(s0: real, d: real)
    ensures StepFor(d) == 1 <==> d >= 0.0
    ensures StepFor(d) == -1 <==> d < 0.0
    ensures d == 0.0 <==> InitTMax(s0, d) == Inf
    ensures d == 0.0 <==> InitTDelta(d) == Inf
    ensures d != 0.0 ==>
      InitTDelta(d).Fin? && InitTDelta(d).val > 0.0 && InitTDelta(d).val * RAbs(d) == 1.0
    ensures d != 0.0 ==>
      InitTMax(s0, d).Fin? && 0.0 <= InitTMax(s0, d).val <= InitTDelta(d).val
    ensures d != 0.0 ==>
      s0 + InitTMax(s0, d).val * d == Boundary(s0.Floor, StepFor(d)) as real
  {
    if d != 0.0 {
      DeltaTimesRay(d);
      var b := Boundary(s0.Floor, StepFor(d)) as real;
      var t := (b - s0) / d;
      assert t * d == b - s0;
      var delta := RAbs(1.0 / d);
      assert delta * RAbs(d) == 1.0 by {
        if d > 0.0 { assert delta * d == 1.0; } else { assert delta * (-d) == 1.0; }
      }
      if d > 0.0 {
        assert 0.0 < b - s0 <= 1.0;
        assert t == (b - s0) * (1.0 / d);
        assert delta == 1.0 / d;
        assert 0.0 <= t <= delta;
      } else {
        assert -1.0 < b - s0 <= 0.0;
        assert t == (s0 - b) * delta;
        assert 0.0 <= t <= delta;
      }
    }
  }

  // ---------------------------------------------------------------------
  // The state invariant

  /** Per axis: an axis the ray does not move along keeps the sentinel and
      the start's coordinate; any other axis has a finite, non-negative tMax
      at which the ray meets the grid plane ahead of the current voxel. */
  ghost predicate AxisInv(s0: real, d: real, v: int, t: Ext)
  {
    if d == 0.0 then t == Inf && v == s0.Floor
    else t.Fin? && t.val >= 0.0 && s0 + t.val * d == Boundary(v, StepFor(d)) as real
  }

  ghost predicate AxisInvAt(start: Real3, end: Real3, c: Cursor, a: Axis)
  {
    AxisInv(RCoord(start, a), RCoord(Sub3(end, start), a), Coord(c.voxel, a), ECoord(c.tMax, a))
  }

  ghost predicate Inv(start: Real3, end: Real3, c: Cursor)
  {
    AxisInvAt(start, end, c, X) && AxisInvAt(start, end, c, Y) && AxisInvAt(start, end, c, Z)
  }

  /** Initialisation establishes the invariant of one axis. */
  lemma InitAxisInv(s0: real, d: real)
    ensures AxisInv(s0, d, s0.Floor, InitTMax(s0, d))
  {
    InitAxis(s0, d);
  }

  /** The state after initialisation satisfies the invariant. */
  lemma OriginInv(start: Real3, end: Real3)
    ensures Inv(start, end, Origin(start, end))
  {
    var ray := Sub3(end, start);
    InitAxisInv(start.x, ray.x);
    InitAxisInv(start.y, ray.y);
    InitAxisInv(start.z, ray.z);
  }

  /** Stepping one axis across its next grid plane keeps its invariant and
      strictly increases its tMax. */
  lemma StepAxisInv(s0: real, d: real, v: int, t: Ext)
    requires AxisInv(s0, d, v, t) && d != 0.0
    ensures Add(t, Fin(RAbs(1.0 / d))).Fin? && Add(t, Fin(RAbs(1.0 / d))).val > t.val
    ensures AxisInv(s0, d, v + StepFor(d), Add(t, Fin(RAbs(1.0 / d))))
  {
    DeltaTimesRay(d);
    var delta := RAbs(1.0 / d);
    calc {
      s0 + (t.val + delta) * d;
      s0 + t.val * d + delta * d;
      Boundary(v, StepFor(d)) as real + StepFor(d) as real;
      Boundary(v + StepFor(d), StepFor(d)) as real;
    }
  }

  /** While the current voxel is not the last one, an iteration advances an
      axis whose tMax is finite, strictly increases that tMax, and keeps the
      invariant. */
  lemma AdvanceInv(start: Real3, end: Real3, c: Cursor)
    requires Inv(start, end, c) && c.voxel != Floor3(end)
    ensures var a, c' := Choose(c.tMax), Advance(Prepare(start, end), c);
      ECoord(c.tMax, a).Fin? && ECoord(c'.tMax, a).Fin? &&
      ECoord(c'.tMax, a).val > ECoord(c.tMax, a).val &&
      Inv(start, end, c')
  {
    // All three tMax cannot be the sentinel: the ray would be zero, so the
    // current voxel would be the start's, which is the end's.
    var ray := Sub3(end, start);
    var t := c.tMax;
    ChooseGuards(t);
    match Choose(t)
    case X =>
      assert t.x.Fin?;
      StepAxisInv(start.x, ray.x, c.voxel.x, t.x);
    case Y =>
      assert t.y.Fin?;
      StepAxisInv(start.y, ray.y, c.voxel.y, t.y);
    case Z =>
      assert t.z.Fin?;
      StepAxisInv(start.z, ray.z, c.voxel.z, t.z);
  }
}
