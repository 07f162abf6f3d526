/** `eclamp` of mpc/util.py: clamps an array in place, entrywise, first from below and then
    from above. The array is modelled by its entries in row-major order and its shape. */
module Clamp {
  import Expand

  /** A bound is a float or an array. */
  datatype Bound = Scalar(v: real) | Array(a: Expand.Tensor) {
    predicate WellFormed() {
      Array? ==> Expand.WellFormed(a)
    }
  }

  /** The shape check of `eclamp`: an array bound must have exactly the shape of x. */
  predicate Fits(bound: Bound, shape: seq<nat>) {
    bound.Array? ==> bound.a.shape == shape
  }

  /** The bound that applies to entry i. */
  function At(bound: Bound, i: nat): real
    requires bound.Array? ==> i < |bound.a.data|
  {
    match bound
    case Scalar(v) => v
    case Array(a) => a.data[i]
  }

  /** One entry after both masked assignments: below lower becomes lower, then above upper
      becomes upper. */
  function ClampEntry(x: real, lower: real, upper: real): (r: real)
    ensures lower <= upper ==> lower <= r <= upper
    ensures lower <= x <= upper ==> r == x
    ensures r == x || r == lower || r == upper
    ensures r <= upper
  {
    var y := if x < lower then lower else x;
    if y > upper then upper else y
  }

  /** The entries of x after `eclamp`, when both bounds fit. */
  function Clamped(xs: seq<real>, lower: Bound, upper: Bound): (r: seq<real>)
    requires lower.Array? ==> |lower.a.data| == |xs|
    requires upper.Array? ==> |upper.a.data| == |xs|
    ensures |r| == |xs|
    ensures forall i :: 0 <= i < |xs| ==> r[i] == ClampEntry(xs[i], At(lower, i), At(upper, i))
  {
    seq(|xs|, i requires 0 <= i < |xs| => ClampEntry(xs[i], At(lower, i), At(upper, i)))
  }

  /** Where the bounds are ordered, every clamped entry lies between them, and entries that
      already did are unchanged. */
  lemma {:induction false} ClampedWithinBounds(xs: seq<real>, lower: Bound, upper: Bound)
    requires lower.Array? ==> |lower.a.data| == |xs|
    requires upper.Array? ==> |upper.a.data| == |xs|
    requires forall i :: 0 <= i < |xs| ==> At(lower, i) <= At(upper, i)
    ensures forall i :: 0 <= i < |xs| ==>
      At(lower, i) <= Clamped(xs, lower, upper)[i] <= At(upper, i)
    ensures forall i :: 0 <= i < |xs| && At(lower, i) <= xs[i] <= At(upper, i) ==>
      Clamped(xs, lower, upper)[i] == xs[i]
  {
  }

  /** Clamping twice is clamping once, even where lower > upper. */
  lemma {:induction false} ClampedIdempotent(xs: seq<real>, lower: Bound, upper: Bound)
    requires lower.Array? ==> |lower.a.data| == |xs|
    requires upper.Array? ==> |upper.a.data| == |xs|
    ensures Clamped(Clamped(xs, lower, upper), lower, upper) == Clamped(xs, lower, upper)
  {
    var once := Clamped(xs, lower, upper);
    forall i | 0 <= i < |xs|
      ensures Clamped(once, lower, upper)[i] == once[i]
    {
      var lo, up := At(lower, i), At(upper, i);
      assert once[i] == ClampEntry(xs[i], lo, up);
      if lo <= up {
        assert lo <= once[i] <= up;
      } else {
        assert once[i] == up;
      }
    }
  }

  /** `eclamp(x, lower, upper)`: both shape assertions are checked before x is touched; then
      the entries below lower are set to lower and, afterwards, the entries above upper are
      set to upper. `ok` is false where an assertion fails. */
  method Eclamp(x: array<real>, shape: seq<nat>, lower: Bound, upper: Bound) returns (ok: bool)
    requires x.Length == Expand.Size(shape)
    requires lower.WellFormed() && upper.WellFormed()
    modifies x
    ensures ok == (Fits(lower, shape) && Fits(upper, shape))
    ensures ok ==> x[..] == Clamped(old(x[..]), lower, upper)
    ensures !ok ==> x[..] == old(x[..])
  {
    if !Fits(lower, shape) || !Fits(upper, shape) {
      return false;
    }
    var n := x.Length;
    var i := 0;
    while i < n
      invariant 0 <= i <= n
      invariant forall k :: 0 <= k < i ==>
        x[k] == (if old(x[k]) < At(lower, k) then At(lower, k) else old(x[k]))
      invariant forall k :: i <= k < n ==> x[k] == old(x[k])
    {
      if x[i] < At(lower, i) {
        x[i] := At(lower, i);
      }
      i := i + 1;
    }
    i := 0;
    while i < n
      invariant 0 <= i <= n
      invariant forall k :: 0 <= k < i ==>
        x[k] == ClampEntry(old(x[k]), At(lower, k), At(upper, k))
      invariant forall k :: i <= k < n ==>
        x[k] == (if old(x[k]) < At(lower, k) then At(lower, k) else old(x[k]))
    {
      if x[i] > At(upper, i) {
        x[i] := At(upper, i);
      }
      i := i + 1;
    }
    ok := true;
  }
}
