/** Properties of the whole sequence of visits that a traversal reports. */
module TraceProperties {
  import opened Grid
  import opened Traversal
  import opened TraversalProperties

  // ---------------------------------------------------------------------
  // Face-adjacent steps

  /** `v` is what the traversal reports after stepping from voxel `prev`
      across the grid plane of axis `a`. */
  ghost predicate CrossedOn(step: Int3, prev: Int3, v: Visit, a: Axis)
  {
    v.voxel == With(prev, a, Coord(prev, a) + Coord(step, a)) &&
    v.normal == Unit(a, -Coord(step, a))
  }

  ghost predicate Entered(step: Int3, prev: Int3, v: Visit)
  {
    CrossedOn(step, prev, v, X) || CrossedOn(step, prev, v, Y) || CrossedOn(step, prev, v, Z)
  }

  /** Every visit after the first entered its voxel from the one before. */
  ghost predicate Chain(step: Int3, vs: seq<Visit>)
  {
    forall i :: 0 < i < |vs| ==> Entered(step, vs[i - 1].voxel, vs[i])
  }

  ghost predicate UnitSteps(step: Int3)
  {
    Abs(step.x) == 1 && Abs(step.y) == 1 && Abs(step.z) == 1
  }

  /** With unit steps, an entered voxel is a face neighbour of the previous
      one, the normal is a unit vector along one axis whose non-zero component
      is minus that axis's step, and the new voxel is the old one minus the
      normal. */
  lemma EnteredIsFaceStep(step: Int3, prev: Int3, v: Visit)
    requires UnitSteps(step) && Entered(step, prev, v)
    ensures Norm1(Minus(v.voxel, prev)) == 1
    ensures Norm1(v.normal) == 1
    ensures v.voxel == Minus(prev, v.normal)
    ensures v.normal.x != 0 ==> v.normal.x == -step.x
    ensures v.normal.y != 0 ==> v.normal.y == -step.y
    ensures v.normal.z != 0 ==> v.normal.z == -step.z
  {
  }

  /** Along a chain each coordinate moves only in its step direction. */
  ghost predicate Ahead(step: int, p: int, q: int)
  {
    if step > 0 then p <= q else q <= p
  }

  lemma {:induction false} ChainAhead(step: Int3, vs: seq<Visit>, a: Axis, i: nat, j: nat)
    requires Chain(step, vs) && i <= j < |vs|
    ensures Ahead(Coord(step, a), Coord(vs[i].voxel, a), Coord(vs[j].voxel, a))
    decreases j - i
  {
    if i < j {
      ChainAhead(step, vs, a, i, j - 1);
      assert Entered(step, vs[j - 1].voxel, vs[j]);
    }
  }

  /** Coordinates displaced from `p` with the signs of `step`. */
  ghost predicate SignedLike(step: Int3, d: Int3)
  {
    (if step.x > 0 then d.x >= 0 else d.x <= 0) &&
    (if step.y > 0 then d.y >= 0 else d.y <= 0) &&
    (if step.z > 0 then d.z >= 0 else d.z <= 0)
  }

  /** One entered voxel keeps the signs and adds 1 to the Manhattan distance. */
  lemma EnteredMovesAway(step: Int3, p: Int3, q: Int3, v: Visit)
    requires UnitSteps(step) && Entered(step, q, v) && SignedLike(step, Minus(q, p))
    ensures SignedLike(step, Minus(v.voxel, p))
    ensures Norm1(Minus(v.voxel, p)) == Norm1(Minus(q, p)) + 1
  {
    if CrossedOn(step, q, v, X) {
      assert v.voxel == q.(x := q.x + step.x);
    } else if CrossedOn(step, q, v, Y) {
      assert v.voxel == q.(y := q.y + step.y);
    } else {
      assert v.voxel == q.(z := q.z + step.z);
    }
  }

  /** Along a chain with unit steps, each coordinate's displacement from the
      first voxel has the sign of its step, so after `j` steps the voxel is
      exactly `j` away (Manhattan). */
  lemma {:induction false} ChainDistance(step: Int3, vs: seq<Visit>, j: nat)
    requires UnitSteps(step) && Chain(step, vs) && j < |vs|
    ensures SignedLike(step, Minus(vs[j].voxel, vs[0].voxel))
    ensures Norm1(Minus(vs[j].voxel, vs[0].voxel)) == j
  {
    if j > 0 {
      ChainDistance(step, vs, j - 1);
      assert Entered(step, vs[j - 1].voxel, vs[j]);
      EnteredMovesAway(step, vs[0].voxel, vs[j - 1].voxel, vs[j]);
    }
  }

  // ---------------------------------------------------------------------
  // The loop

  /** The voxel current after the visits `vs`, starting from `c`. */
  function CurrentAfter(c: Int3, vs: seq<Visit>): Int3
  {
    if vs == [] then c else vs[|vs| - 1].voxel
  }

  /** Each visit of the loop entered its voxel from the one before, the first
      from the voxel the loop began in. */
  lemma {:induction false} WalkChain(s: Setup, c: Cursor, answer: nat -> bool, calls: nat, fuel: nat)
    ensures var w := Walk(s, c, answer, calls, fuel).visits;
      Chain(s.step, w) && (|w| > 0 ==> Entered(s.step, c.voxel, w[0]))
    decreases fuel
  {
    if c.voxel != s.last && fuel > 0 && !answer(calls) {
      var v := Visit(Advance(s, c).voxel, EntryNormal(s, c));
      assert CrossedOn(s.step, c.voxel, v, Choose(c.tMax));
      WalkChain(s, Advance(s, c), answer, calls + 1, fuel - 1);
      var rest := Walk(s, Advance(s, c), answer, calls + 1, fuel - 1).visits;
      assert Walk(s, c, answer, calls, fuel).visits == [v] + rest;
      forall i | 0 < i < |[v] + rest|
        ensures Entered(s.step, ([v] + rest)[i - 1].voxel, ([v] + rest)[i])
      {
        if i > 1 { assert ([v] + rest)[i - 1] == rest[i - 2] && ([v] + rest)[i] == rest[i - 1]; }
      }
    } else if c.voxel != s.last && fuel > 0 {
      assert CrossedOn(s.step, c.voxel, Visit(Advance(s, c).voxel, EntryNormal(s, c)), Choose(c.tMax));
    }
  }

  /** The loop calls the visitor once per visit; every answer but the last was
      "go on", and the loop stopped early exactly when the last was "stop". At
      most `fuel` iterations run, and all of them when fuel ran out. */
  lemma {:induction false} WalkAnswers(s: Setup, c: Cursor, answer: nat -> bool, calls: nat, fuel: nat)
    ensures var w := Walk(s, c, answer, calls, fuel);
      (forall k :: calls <= k < calls + |w.visits| - 1 ==> !answer(k)) &&
      (w.outcome == Stopped <==> |w.visits| > 0 && answer(calls + |w.visits| - 1)) &&
      |w.visits| <= fuel &&
      (w.outcome == OutOfFuel ==> |w.visits| == fuel)
    decreases fuel
  {
    if c.voxel != s.last && fuel > 0 && !answer(calls) {
      WalkAnswers(s, Advance(s, c), answer, calls + 1, fuel - 1);
    }
  }

  /** The loop steps only out of a voxel other than the last one; it reports
      `Reached` only in the last voxel and runs out of fuel only elsewhere. */
  lemma {:induction false} WalkEnds(s: Setup, c: Cursor, answer: nat -> bool, calls: nat, fuel: nat)
    ensures var w := Walk(s, c, answer, calls, fuel);
      (|w.visits| > 0 ==> c.voxel != s.last) &&
      (forall i :: 0 <= i < |w.visits| - 1 ==> w.visits[i].voxel != s.last) &&
      (w.outcome == Reached ==> CurrentAfter(c.voxel, w.visits) == s.last) &&
      (w.outcome == OutOfFuel ==> CurrentAfter(c.voxel, w.visits) != s.last)
    decreases fuel
  {
    if c.voxel != s.last && fuel > 0 && !answer(calls) {
      WalkEnds(s, Advance(s, c), answer, calls + 1, fuel - 1);
      var v := Visit(Advance(s, c).voxel, EntryNormal(s, c));
      var rest := Walk(s, Advance(s, c), answer, calls + 1, fuel - 1).visits;
      assert Walk(s, c, answer, calls, fuel).visits == [v] + rest;
      assert CurrentAfter(c.voxel, [v] + rest) == CurrentAfter(v.voxel, rest);
    }
  }

  /** An axis the ray does not move along is never stepped. */
  lemma {:induction false} WalkZeroAxis(start: Real3, end: Real3, c: Cursor, answer: nat -> bool,
                                        calls: nat, fuel: nat, a: Axis)
    requires Inv(start, end, c) && RCoord(Sub3(end, start), a) == 0.0
    ensures forall v :: v in Walk(Prepare(start, end), c, answer, calls, fuel).visits ==>
      Coord(v.voxel, a) == RCoord(start, a).Floor && Coord(v.normal, a) == 0
    decreases fuel
  {
    var s := Prepare(start, end);
    if c.voxel != s.last && fuel > 0 {
      AdvanceInv(start, end, c);
      AdvanceMovesOneAxis(s, c);
      var c' := Advance(s, c);
      assert AxisInvAt(start, end, c', a) by {
        match a
        case X =>
        case Y =>
        case Z =>
      }
      assert Choose(c.tMax) != a by {
        assert AxisInvAt(start, end, c, a) by {
          match a
          case X =>
          case Y =>
          case Z =>
        }
      }
      if !answer(calls) {
        WalkZeroAxis(start, end, c', answer, calls + 1, fuel - 1, a);
      }
    }
  }

  /** Once a coordinate has passed the last voxel's in its step direction, the
      last voxel is never visited and the loop never ends by reaching it. */
  lemma {:induction false} WalkPastLast(s: Setup, c: Cursor, answer: nat -> bool, calls: nat, fuel: nat, a: Axis)
    requires if Coord(s.step, a) > 0 then Coord(c.voxel, a) > Coord(s.last, a)
             else Coord(c.voxel, a) < Coord(s.last, a)
    ensures Walk(s, c, answer, calls, fuel).outcome != Reached
    ensures forall v :: v in Walk(s, c, answer, calls, fuel).visits ==> v.voxel != s.last
    decreases fuel
  {
    if c.voxel != s.last && fuel > 0 && !answer(calls) {
      AdvanceMovesOneAxis(s, c);
      var c' := Advance(s, c);
      assert if Coord(s.step, a) > 0 then Coord(c'.voxel, a) > Coord(s.last, a)
             else Coord(c'.voxel, a) < Coord(s.last, a);
      WalkPastLast(s, c', answer, calls + 1, fuel - 1, a);
    } else if c.voxel != s.last && fuel > 0 {
      AdvanceMovesOneAxis(s, c);
    }
  }

  // ---------------------------------------------------------------------
  // The whole traversal

  /** The first visit is the start's voxel with the zero normal, and a "stop"
      on that call ends the traversal there. */
  lemma TraverseStartsAtOrigin(start: Real3, end: Real3, answer: nat -> bool, fuel: nat)
    ensures var t := Traverse(start, end, answer, fuel);
      |t.visits| >= 1 && t.visits[0] == Visit(Floor3(start), ZERO) &&
      (answer(0) ==> t == Trace([Visit(Floor3(start), ZERO)], Stopped))
  {
  }

  /** When start and end lie in the same voxel exactly one voxel is visited. */
  lemma SingleVoxel(start: Real3, end: Real3, answer: nat -> bool, fuel: nat)
    requires Floor3(start) == Floor3(end)
    ensures Traverse(start, end, answer, fuel)
         == Trace([Visit(Floor3(start), ZERO)], if answer(0) then Stopped else Reached)
  {
  }

  /** Every visit after the first is a face neighbour of the one before,
      entered across the plane of one axis, with normal minus that axis's
      step, the step being fixed by the sign of the ray's component. */
  lemma TraverseFaceSteps(start: Real3, end: Real3, answer: nat -> bool, fuel: nat)
    ensures var vs, s := Traverse(start, end, answer, fuel).visits, Prepare(start, end);
      Chain(s.step, vs) &&
      forall i :: 0 < i < |vs| ==>
        Norm1(Minus(vs[i].voxel, vs[i - 1].voxel)) == 1 &&
        Norm1(vs[i].normal) == 1 &&
        vs[i].voxel == Minus(vs[i - 1].voxel, vs[i].normal) &&
        (vs[i].normal.x != 0 ==> vs[i].normal.x == -StepFor(end.x - start.x)) &&
        (vs[i].normal.y != 0 ==> vs[i].normal.y == -StepFor(end.y - start.y)) &&
        (vs[i].normal.z != 0 ==> vs[i].normal.z == -StepFor(end.z - start.z))
  {
    var s := Prepare(start, end);
    var t := Traverse(start, end, answer, fuel);
    var vs := t.visits;
    var first := Visit(Floor3(start), ZERO);
    assert UnitSteps(s.step);
    if !answer(0) {
      var w := Walk(s, Origin(start, end), answer, 1, fuel).visits;
      WalkChain(s, Origin(start, end), answer, 1, fuel);
      assert vs == [first] + w;
      forall i | 0 < i < |vs| ensures Entered(s.step, vs[i - 1].voxel, vs[i]) {
        if i > 1 { assert vs[i - 1] == w[i - 2] && vs[i] == w[i - 1]; }
      }
    }
    forall i | 0 < i < |vs|
      ensures Norm1(Minus(vs[i].voxel, vs[i - 1].voxel)) == 1 && Norm1(vs[i].normal) == 1
      ensures vs[i].voxel == Minus(vs[i - 1].voxel, vs[i].normal)
      ensures vs[i].normal.x != 0 ==> vs[i].normal.x == -s.step.x
      ensures vs[i].normal.y != 0 ==> vs[i].normal.y == -s.step.y
      ensures vs[i].normal.z != 0 ==> vs[i].normal.z == -s.step.z
    {
      EnteredIsFaceStep(s.step, vs[i - 1].voxel, vs[i]);
    }
  }

  /** The visitor is called once per visit, in order; every answer but the
      last was "go on", the traversal stopped early exactly when the last was
      "stop", and at most `fuel` loop iterations ran. */
  lemma TraverseAnswers(start: Real3, end: Real3, answer: nat -> bool, fuel: nat)
    ensures var t := Traverse(start, end, answer, fuel);
      (forall k :: 0 <= k < |t.visits| - 1 ==> !answer(k)) &&
      (t.outcome == Stopped <==> answer(|t.visits| - 1)) &&
      |t.visits| <= fuel + 1 &&
      (t.outcome == OutOfFuel ==> |t.visits| == fuel + 1)
  {
    if !answer(0) {
      WalkAnswers(Prepare(start, end), Origin(start, end), answer, 1, fuel);
    }
  }

  /** If the visitor first answers "stop" on its N-th call, no more than N
      visits happen, and exactly N when the traversal got that far. */
  lemma EarlyStop(start: Real3, end: Real3, answer: nat -> bool, fuel: nat, n: nat)
    requires 1 <= n && answer(n - 1) && forall k :: 0 <= k < n - 1 ==> !answer(k)
    ensures var t := Traverse(start, end, answer, fuel);
      |t.visits| <= n && (t.outcome == Stopped <==> |t.visits| == n)
  {
    TraverseAnswers(start, end, answer, fuel);
  }

  /** No step is taken out of the end's voxel; a traversal that is neither
      stopped nor out of fuel ends in the end's voxel, and one out of fuel
      ends elsewhere. */
  lemma TraverseEnds(start: Real3, end: Real3, answer: nat -> bool, fuel: nat)
    ensures var vs, o := Traverse(start, end, answer, fuel).visits, Traverse(start, end, answer, fuel).outcome;
      (forall i :: 0 <= i < |vs| - 1 ==> vs[i].voxel != Floor3(end)) &&
      (o == Reached ==> vs[|vs| - 1].voxel == Floor3(end)) &&
      (o == OutOfFuel ==> vs[|vs| - 1].voxel != Floor3(end))
  {
    var s := Prepare(start, end);
    if !answer(0) {
      var c := Origin(start, end);
      WalkEnds(s, c, answer, 1, fuel);
      var w := Walk(s, c, answer, 1, fuel).visits;
      var vs := Traverse(start, end, answer, fuel).visits;
      assert vs == [Visit(c.voxel, ZERO)] + w;
      assert vs[|vs| - 1].voxel == CurrentAfter(c.voxel, w);
      forall i | 0 <= i < |vs| - 1 ensures vs[i].voxel != Floor3(end) {
        if i > 0 { assert vs[i] == w[i - 1]; }
      }
    }
  }

  /** An axis along which the ray does not move is never stepped: its
      coordinate stays the start's and its normal component stays 0. */
  lemma TraverseZeroAxis(start: Real3, end: Real3, answer: nat -> bool, fuel: nat, a: Axis)
    requires RCoord(Sub3(end, start), a) == 0.0
    ensures forall v :: v in Traverse(start, end, answer, fuel).visits ==>
      Coord(v.voxel, a) == RCoord(start, a).Floor && Coord(v.normal, a) == 0
  {
    if !answer(0) {
      OriginInv(start, end);
      WalkZeroAxis(start, end, Origin(start, end), answer, 1, fuel, a);
    }
  }

  /** Each coordinate moves monotonically in its step direction. */
  lemma TraverseMonotone(start: Real3, end: Real3, answer: nat -> bool, fuel: nat,
                         a: Axis, i: nat, j: nat)
    requires i <= j < |Traverse(start, end, answer, fuel).visits|
    ensures var vs := Traverse(start, end, answer, fuel).visits;
      if RCoord(Sub3(end, start), a) >= 0.0 then Coord(vs[i].voxel, a) <= Coord(vs[j].voxel, a)
      else Coord(vs[j].voxel, a) <= Coord(vs[i].voxel, a)
  {
    var s := Prepare(start, end);
    TraverseFaceSteps(start, end, answer, fuel);
    ChainAhead(s.step, Traverse(start, end, answer, fuel).visits, a, i, j);
    assert Coord(s.step, a) == StepFor(RCoord(Sub3(end, start), a)) by {
      match a
      case X =>
      case Y =>
      case Z =>
    }
  }

  /** A traversal that reaches the end's voxel visits exactly one voxel more
      than the Manhattan distance between the start's and the end's voxel. */
  lemma ReachedVisitsManhattanPlusOne(start: Real3, end: Real3, answer: nat -> bool, fuel: nat)
    requires Traverse(start, end, answer, fuel).outcome == Reached
    ensures |Traverse(start, end, answer, fuel).visits| == 1 + Norm1(Minus(Floor3(end), Floor3(start)))
  {
    var vs := Traverse(start, end, answer, fuel).visits;
    TraverseStartsAtOrigin(start, end, answer, fuel);
    TraverseFaceSteps(start, end, answer, fuel);
    TraverseEnds(start, end, answer, fuel);
    ChainDistance(Prepare(start, end).step, vs, |vs| - 1);
  }

  /** No voxel is visited twice: the visit at position j is at Manhattan
      distance exactly j from the first. */
  lemma TraverseNoRepeat(start: Real3, end: Real3, answer: nat -> bool, fuel: nat, i: nat, j: nat)
    requires i < j < |Traverse(start, end, answer, fuel).visits|
    ensures Traverse(start, end, answer, fuel).visits[i].voxel != Traverse(start, end, answer, fuel).visits[j].voxel
  {
    var vs := Traverse(start, end, answer, fuel).visits;
    var step := Prepare(start, end).step;
    TraverseFaceSteps(start, end, answer, fuel);
    ChainDistance(step, vs, i);
    ChainDistance(step, vs, j);
  }
}
