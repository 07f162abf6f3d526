/** `expandParam` of mpc/util.py: a parameter given without its batch dimension is repeated
    once per batch element. An array is modelled by its shape and its row-major entries. */
module Expand {
  import opened Failures

  datatype Tensor = Tensor(shape: seq<nat>, data: seq<real>)

  function Size(shape: seq<nat>): nat {
    if |shape| == 0 then 1 else shape[0] * Size(shape[1..])
  }

  /** The entries fill the shape exactly. */
  predicate WellFormed(x: Tensor) {
    |x.data| == Size(x.shape)
  }

  /** n copies of s, one after the other. */
  function Repeat(s: seq<real>, n: nat): (r: seq<real>)
    ensures |r| == n * |s|
  {
    if n == 0 then [] else s + Repeat(s, n - 1)
  }

  /** `expandParam(X, n_batch, nDim)`: a 0-D or nDim-D array is returned as it is, with
      False; an (nDim-1)-D array gets a leading dimension of n_batch identical copies, with
      True; any other rank is an error. */
  function ExpandParam(x: Tensor, nBatch: nat, nDim: nat): (r: Result<(Tensor, bool)>)
    ensures (|x.shape| == 0 || |x.shape| == nDim) <==> (r.Ok? && r.value == (x, false))
    ensures r.Fail? <==> |x.shape| != 0 && |x.shape| != nDim && |x.shape| + 1 != nDim
    ensures r.Fail? ==> r.error == RankError
    ensures r.Ok? && r.value.1 ==> r.value.0.shape == [nBatch] + x.shape
  {
    if |x.shape| == 0 || |x.shape| == nDim then Ok((x, false))
    else if |x.shape| + 1 == nDim then Ok((Tensor([nBatch] + x.shape, Repeat(x.data, nBatch)), true))
    else Fail(RankError)
  }

  /** Block b of Repeat(s, n) is s itself. */
  lemma {:induction false} RepeatBlock(s: seq<real>, n: nat, b: nat)
    requires b < n
    ensures (b + 1) * |s| <= |Repeat(s, n)|
    ensures Repeat(s, n)[b * |s| .. (b + 1) * |s|] == s
    decreases n
  {
    var r := Repeat(s, n);
    assert (b + 1) * |s| <= n * |s| by {
      MulMonotone(b + 1, n, |s|);
    }
    if b == 0 {
      assert r == s + Repeat(s, n - 1);
      assert r[..|s|] == s;
    } else {
      RepeatBlock(s, n - 1, b - 1);
      var rest := Repeat(s, n - 1);
      assert r == s + rest;
      assert b * |s| == |s| + (b - 1) * |s|;
      assert (b + 1) * |s| == |s| + b * |s|;
      assert r[b * |s| .. (b + 1) * |s|] == rest[(b - 1) * |s| .. b * |s|];
    }
  }

  lemma MulMonotone(a: nat, b: nat, c: nat)
    requires a <= b
    ensures a * c <= b * c
  {
  }

  /** An expanded parameter is well formed, and each of its n_batch blocks is the original
      parameter. */
  lemma {:induction false} ExpandedCopies(x: Tensor, nBatch: nat, nDim: nat, b: nat)
    requires WellFormed(x)
    requires ExpandParam(x, nBatch, nDim).Ok? && ExpandParam(x, nBatch, nDim).value.1
    requires b < nBatch
    ensures WellFormed(ExpandParam(x, nBatch, nDim).value.0)
    ensures var e := ExpandParam(x, nBatch, nDim).value.0;
      |e.data| == nBatch * |x.data| &&
      e.data[b * |x.data| .. (b + 1) * |x.data|] == x.data
  {
    var e := ExpandParam(x, nBatch, nDim).value.0;
    assert e.shape == [nBatch] + x.shape;
    assert e.shape[1..] == x.shape;
    RepeatBlock(x.data, nBatch, b);
  }
}
