/** Parametric distances along the ray.  A finite distance is a real; the
    sentinel that the traversal stores for an axis the ray does not move along
    (written `f32::MAX` / `f64::MAX` in the source) is `Inf`, which compares
    above every finite distance and absorbs addition. */
module ExtReal {

  datatype Ext = Fin(val: real) | Inf

  /** Strict comparison `a < b`, with `Inf` above every finite value and not below itself. */
  predicate Less(a: Ext, b: Ext)
  {
    match a
    case Inf => false
    case Fin(x) => b.Inf? || x < b.val
  }

  /** `a <= b` in the same order. */
  predicate AtMost(a: Ext, b: Ext)
  {
    !Less(b, a)
  }

  /** Addition; anything plus the sentinel is the sentinel. */
  function Add(a: Ext, b: Ext): Ext
  {
    if a.Fin? && b.Fin? then Fin(a.val + b.val) else Inf
  }

  /** `Less` is a strict total order: exactly one of `a < b`, `a == b`, `b < a`. */
  lemma Trichotomy(a: Ext, b: Ext)
    ensures Less(a, b) || a == b || Less(b, a)
    ensures !(Less(a, b) && Less(b, a))
    ensures !Less(a, a)
  {
  }
}
