/** Points of continuous space, cells of the integer grid and the three axes. */
module Grid {
  import opened ExtReal

  datatype Axis = X | Y | Z

  /** An integer triple: a voxel (its lower corner) or a face normal. */
  datatype Int3 = Int3(x: int, y: int, z: int)

  /** A point of continuous space, or a direction. */
  datatype Real3 = Real3(x: real, y: real, z: real)

  /** One parametric distance per axis. */
  datatype Ext3 = Ext3(x: Ext, y: Ext, z: Ext)

  const ZERO: Int3 := Int3(0, 0, 0)

  /** Position of an axis in the order in which the traversal compares them. */
  function Rank(a: Axis): nat
  {
    match a
    case X => 0
    case Y => 1
    case Z => 2
  }

  function Coord(v: Int3, a: Axis): int
  {
    match a
    case X => v.x
    case Y => v.y
    case Z => v.z
  }

  /** `v` with its `a` component replaced by `n`. */
  function With(v: Int3, a: Axis, n: int): Int3
  {
    match a
    case X => v.(x := n)
    case Y => v.(y := n)
    case Z => v.(z := n)
  }

  function RCoord(p: Real3, a: Axis): real
  {
    match a
    case X => p.x
    case Y => p.y
    case Z => p.z
  }

  function ECoord(t: Ext3, a: Axis): Ext
  {
    match a
    case X => t.x
    case Y => t.y
    case Z => t.z
  }

  function EWith(t: Ext3, a: Axis, e: Ext): Ext3
  {
    match a
    case X => t.(x := e)
    case Y => t.(y := e)
    case Z => t.(z := e)
  }

  /** The vector that is `k` on axis `a` and 0 elsewhere. */
  function Unit(a: Axis, k: int): Int3
  {
    With(ZERO, a, k)
  }

  /** The voxel containing a point: the componentwise floor. */
  function Floor3(p: Real3): Int3
  {
    Int3(p.x.Floor, p.y.Floor, p.z.Floor)
  }

  function Sub3(p: Real3, q: Real3): Real3
  {
    Real3(p.x - q.x, p.y - q.y, p.z - q.z)
  }

  function Minus(v: Int3, w: Int3): Int3
  {
    Int3(v.x - w.x, v.y - w.y, v.z - w.z)
  }

  function Abs(n: int): nat
  {
    if n < 0 then -n else n
  }

  /** Manhattan length of an integer vector. */
  function Norm1(v: Int3): nat
  {
    Abs(v.x) + Abs(v.y) + Abs(v.z)
  }

  function RAbs(r: real): real
  {
    if r < 0.0 then -r else r
  }
}
