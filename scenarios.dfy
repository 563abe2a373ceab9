/** Two concrete traversals, worked out in exact arithmetic. */
module Scenarios {
  import opened ExtReal
  import opened Grid
  import opened Traversal
  import opened TraceProperties

  function NeverStop(k: nat): bool { false }

  /** The constants and the iterations of the axis-aligned scenario. */
  lemma AxisAlignedSteps()
    ensures var s := Prepare(Real3(0.5, 0.5, 0.5), Real3(3.5, 0.5, 0.5));
      var c0 := Origin(Real3(0.5, 0.5, 0.5), Real3(3.5, 0.5, 0.5));
      var c1 := Cursor(Int3(1, 0, 0), Ext3(Fin(1.0 / 2.0), Inf, Inf));
      var c2 := Cursor(Int3(2, 0, 0), Ext3(Fin(5.0 / 6.0), Inf, Inf));
      s == Setup(Int3(1, 1, 1), Ext3(Fin(1.0 / 3.0), Inf, Inf), Int3(3, 0, 0)) &&
      c0 == Cursor(Int3(0, 0, 0), Ext3(Fin(1.0 / 6.0), Inf, Inf)) &&
      Advance(s, c0) == c1 && Advance(s, c1) == c2 &&
      Advance(s, c2) == Cursor(Int3(3, 0, 0), Ext3(Fin(7.0 / 6.0), Inf, Inf)) &&
      EntryNormal(s, c0) == EntryNormal(s, c1) == EntryNormal(s, c2) == Int3(-1, 0, 0)
  {
  }

  /** An axis-aligned segment from (0.5, 0.5, 0.5) to (3.5, 0.5, 0.5) visits
      the four voxels along x, each entered through its -x face. */
  lemma AxisAlignedRay(fuel: nat)
    requires fuel >= 3
    ensures Traverse(Real3(0.5, 0.5, 0.5), Real3(3.5, 0.5, 0.5), NeverStop, fuel)
         == Trace([Visit(Int3(0, 0, 0), ZERO),
                   Visit(Int3(1, 0, 0), Int3(-1, 0, 0)),
                   Visit(Int3(2, 0, 0), Int3(-1, 0, 0)),
                   Visit(Int3(3, 0, 0), Int3(-1, 0, 0))], Reached)
  {
    var start, end := Real3(0.5, 0.5, 0.5), Real3(3.5, 0.5, 0.5);
    AxisAlignedSteps();
    var s := Prepare(start, end);
    var c0 := Origin(start, end);
    var c1 := Advance(s, c0);
    var c2 := Advance(s, c1);
    var c3 := Advance(s, c2);
    var n := Int3(-1, 0, 0);
    assert Walk(s, c3, NeverStop, 4, fuel - 3) == Trace([], Reached);
    assert Walk(s, c2, NeverStop, 3, fuel - 2) == Trace([Visit(c3.voxel, n)], Reached);
    assert Walk(s, c1, NeverStop, 2, fuel - 1) == Trace([Visit(c2.voxel, n), Visit(c3.voxel, n)], Reached);
  }

  /** The constants and the first two iterations of the corner scenario. */
  lemma CornerOvershootSteps()
    ensures var s := Prepare(Real3(0.5, 1.5, 0.5), Real3(1.0, 0.0, 0.5));
      var c0 := Origin(Real3(0.5, 1.5, 0.5), Real3(1.0, 0.0, 0.5));
      s == Setup(Int3(1, -1, 1), Ext3(Fin(2.0), Fin(2.0 / 3.0), Inf), Int3(1, 0, 0)) &&
      c0 == Cursor(Int3(0, 1, 0), Ext3(Fin(1.0), Fin(1.0 / 3.0), Inf)) &&
      Advance(s, c0) == Cursor(Int3(0, 0, 0), Ext3(Fin(1.0), Fin(1.0), Inf)) &&
      Advance(s, Advance(s, c0)) == Cursor(Int3(0, -1, 0), Ext3(Fin(1.0), Fin(5.0 / 3.0), Inf))
  {
  }

  /** A segment from (0.5, 1.5, 0.5) to (1.0, 0.0, 0.5) meets the corner
      x = 1, y = 0 at its end.  At that tie y is stepped (Y wins ties against
      X) past y = 0, so the end's voxel (1, 0, 0) is never visited and the
      loop never ends by reaching it, however many iterations it is given. */
  lemma CornerOvershoot(fuel: nat)
    ensures var t := Traverse(Real3(0.5, 1.5, 0.5), Real3(1.0, 0.0, 0.5), NeverStop, fuel);
      t.outcome == OutOfFuel &&
      forall v :: v in t.visits ==> v.voxel != Int3(1, 0, 0)
  {
    var start, end := Real3(0.5, 1.5, 0.5), Real3(1.0, 0.0, 0.5);
    CornerOvershootSteps();
    var s := Prepare(start, end);
    var c0 := Origin(start, end);
    var c1 := Advance(s, c0);
    var c2 := Advance(s, c1);
    var t := Traverse(start, end, NeverStop, fuel);
    var v0 := Visit(c0.voxel, ZERO);
    var v1 := Visit(c1.voxel, EntryNormal(s, c0));
    if fuel == 0 {
      assert t == Trace([v0], OutOfFuel);
    } else if fuel == 1 {
      assert t == Trace([v0, v1], OutOfFuel);
    } else {
      WalkPastLast(s, c2, NeverStop, 3, fuel - 2, Y);
      WalkAnswers(s, c2, NeverStop, 3, fuel - 2);
      var rest := Walk(s, c2, NeverStop, 3, fuel - 2);
      var v2 := Visit(c2.voxel, EntryNormal(s, c1));
      assert Walk(s, c1, NeverStop, 2, fuel - 1) == Prepend([v2], rest);
      assert Walk(s, c0, NeverStop, 1, fuel) == Prepend([v1], Prepend([v2], rest));
      assert [v0] + ([v1] + ([v2] + rest.visits)) == [v0, v1, v2] + rest.visits;
      assert t == Trace([v0, v1, v2] + rest.visits, rest.outcome);
    }
  }
}
