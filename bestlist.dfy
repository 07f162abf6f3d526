/** The "best so far" record of `MPC.forward` (mpc/mpc.py): per batch element, the trajectory,
    controls, cost and full step norm of the iterate with the lowest cost seen so far, updated
    only when a new iterate improves by at least `best_cost_eps`. */
module BestList {
  import opened Failures
  import opened Rollout

  /** What one iteration produces: the new states and controls ([T, n_batch, n] each), and per
      batch element the cost and the norm of the full control step. */
  datatype Candidate = Candidate(x: Series, u: Series, costs: seq<real>, du: seq<real>)

  /** The candidate's arrays have T steps of nb rows and nb costs and step norms. */
  predicate Fits(c: Candidate, nb: nat, T: nat) {
    && |c.x| == T && |c.u| == T && |c.costs| == nb && |c.du| == nb
    && (forall t :: 0 <= t < T ==> |c.x[t]| == nb)
    && (forall t :: 0 <= t < T ==> |c.u[t]| == nb)
  }

  /** The record: `best['x']` and `best['u']` are lists of per-element pieces of shape
      [T, 1, n]; `costs` and `full_du_norm` have one entry per element. */
  datatype Best = Best(x: seq<Series>, u: seq<Series>, costs: seq<real>, du: seq<real>)

  /** `expand_dims(x[:, j], 1)`: element j's rows as a [T, 1, n] array. */
  function Column(x: Series, j: nat): (r: Series)
    requires forall t :: 0 <= t < |x| ==> j < |x[t]|
    ensures |r| == |x| && forall t :: 0 <= t < |x| ==> r[t] == [x[t][j]]
  {
    seq(|x|, t requires 0 <= t < |x| => [x[t][j]])
  }

  /** `np.split(x, nb, axis=1)` of a [T, nb, n] array: nb pieces, piece j holding element j. */
  function Split(x: Series, nb: nat): (r: seq<Series>)
    requires forall t :: 0 <= t < |x| ==> |x[t]| == nb
    ensures |r| == nb && forall j :: 0 <= j < nb ==> r[j] == Column(x, j)
  {
    seq(nb, j requires 0 <= j < nb => Column(x, j))
  }

  /** Every piece has T steps of one row. */
  predicate Pieces(pieces: seq<Series>, T: nat) {
    forall j :: 0 <= j < |pieces| ==> |pieces[j]| == T && forall t :: 0 <= t < T ==> |pieces[j][t]| == 1
  }

  /** `np.concatenate(pieces, axis=1)`: at every step, the pieces' one row each, in order. */
  function Assemble(pieces: seq<Series>, T: nat): (r: Series)
    requires Pieces(pieces, T)
    ensures |r| == T
    ensures forall t :: 0 <= t < T ==> |r[t]| == |pieces| && forall j :: 0 <= j < |pieces| ==> r[t][j] == pieces[j][t][0]
  {
    seq(T, t requires 0 <= t < T => seq(|pieces|, j requires 0 <= j < |pieces| => pieces[j][t][0]))
  }

  /** Splitting a [T, nb, n] array into its elements and concatenating them back gives the
      array. */
  lemma {:induction false} SplitAssemble(x: Series, nb: nat)
    requires forall t :: 0 <= t < |x| ==> |x[t]| == nb
    ensures Pieces(Split(x, nb), |x|) && Assemble(Split(x, nb), |x|) == x
  {
    var p := Split(x, nb);
    assert Pieces(p, |x|) by {
      forall j | 0 <= j < nb ensures |p[j]| == |x| && forall t :: 0 <= t < |x| ==> |p[j][t]| == 1 {
        assert p[j] == Column(x, j);
      }
    }
    var a := Assemble(p, |x|);
    forall t | 0 <= t < |x| ensures a[t] == x[t] {
      forall j | 0 <= j < nb ensures a[t][j] == x[t][j] {
        assert p[j] == Column(x, j);
      }
    }
  }

  /** The record has nb pieces of T steps and nb costs and step norms. */
  predicate Shaped(best: Best, nb: nat, T: nat) {
    && |best.x| == nb && |best.u| == nb && |best.costs| == nb && |best.du| == nb
    && Pieces(best.x, T) && Pieces(best.u, T)
  }

  /** The record after the first iteration: the candidate split into its elements. */
  function First(c: Candidate, nb: nat, T: nat): (r: Best)
    requires Fits(c, nb, T)
    ensures Shaped(r, nb, T) && r.costs == c.costs && r.du == c.du
    ensures forall j :: 0 <= j < nb ==> From(r, j, c)
  {
    var r := Best(Split(c.x, nb), Split(c.u, nb), c.costs, c.du);
    assert Pieces(r.x, T) && Pieces(r.u, T) by {
      forall j | 0 <= j < nb ensures |r.x[j]| == T && |r.u[j]| == T &&
        (forall t :: 0 <= t < T ==> |r.x[j][t]| == 1 && |r.u[j][t]| == 1)
      {
        assert r.x[j] == Column(c.x, j) && r.u[j] == Column(c.u, j);
      }
    }
    r
  }

  /** Element j of the record is element j of the candidate: states, controls, cost and step
      norm all from the same iterate. */
  predicate From(best: Best, j: nat, c: Candidate)
    requires j < |best.x| && j < |best.u| && j < |best.costs| && j < |best.du| && j < |c.costs| && j < |c.du|
    requires forall t :: 0 <= t < |c.x| ==> j < |c.x[t]|
    requires forall t :: 0 <= t < |c.u| ==> j < |c.u[t]|
  {
    && best.x[j] == Column(c.x, j) && best.u[j] == Column(c.u, j)
    && best.costs[j] == c.costs[j] && best.du[j] == c.du[j]
  }

  /** Element j improves when its new cost is at most its best cost minus eps. */
  predicate Improves(best: Best, c: Candidate, eps: real, j: nat)
    requires j < |best.costs| && j < |c.costs|
  {
    c.costs[j] <= best.costs[j] - eps
  }

  /** The record after an iteration: every improving element takes the candidate's entries,
      every other element keeps its own. */
  function Improve(best: Best, c: Candidate, eps: real, nb: nat, T: nat): (r: Best)
    requires Shaped(best, nb, T) && Fits(c, nb, T)
    ensures Shaped(r, nb, T)
    ensures forall j :: 0 <= j < nb ==>
      && (Improves(best, c, eps, j) ==> From(r, j, c))
      && (!Improves(best, c, eps, j) ==>
            r.x[j] == best.x[j] && r.u[j] == best.u[j] && r.costs[j] == best.costs[j] && r.du[j] == best.du[j])
    ensures eps >= 0.0 ==> forall j :: 0 <= j < nb ==> r.costs[j] <= best.costs[j] && r.costs[j] <= c.costs[j] + eps
  {
    var r := Best(
      seq(nb, j requires 0 <= j < nb => if Improves(best, c, eps, j) then Column(c.x, j) else best.x[j]),
      seq(nb, j requires 0 <= j < nb => if Improves(best, c, eps, j) then Column(c.u, j) else best.u[j]),
      seq(nb, j requires 0 <= j < nb => if Improves(best, c, eps, j) then c.costs[j] else best.costs[j]),
      seq(nb, j requires 0 <= j < nb => if Improves(best, c, eps, j) then c.du[j] else best.du[j]));
    assert Pieces(r.x, T) && Pieces(r.u, T) by {
      forall j | 0 <= j < nb ensures |r.x[j]| == T && |r.u[j]| == T &&
        (forall t :: 0 <= t < T ==> |r.x[j][t]| == 1 && |r.u[j][t]| == 1)
      {
        if Improves(best, c, eps, j) {
          assert r.x[j] == Column(c.x, j) && r.u[j] == Column(c.u, j);
        } else {
          assert r.x[j] == best.x[j] && r.u[j] == best.u[j];
        }
      }
    }
    r
  }

  /** The loop over the batch elements (mpc/mpc.py:296-310), updating the record in place;
      `improved` is whether any element improved, which resets the not-improved counter. */
  method UpdateBest(best: Best, c: Candidate, eps: real, nb: nat, T: nat) returns (r: Best, improved: bool)
    requires Shaped(best, nb, T) && Fits(c, nb, T)
    ensures r == Improve(best, c, eps, nb, T)
    ensures improved <==> exists j :: 0 <= j < nb && Improves(best, c, eps, j)
  {
    ghost var want := Improve(best, c, eps, nb, T);
    r := best;
    improved := false;
    for j := 0 to nb
      invariant |r.x| == nb && |r.u| == nb && |r.costs| == nb && |r.du| == nb
      invariant forall k :: 0 <= k < j ==>
        r.x[k] == want.x[k] && r.u[k] == want.u[k] && r.costs[k] == want.costs[k] && r.du[k] == want.du[k]
      invariant forall k :: j <= k < nb ==>
        r.x[k] == best.x[k] && r.u[k] == best.u[k] && r.costs[k] == best.costs[k] && r.du[k] == best.du[k]
      invariant improved <==> exists k :: 0 <= k < j && Improves(best, c, eps, k)
    {
      if c.costs[j] <= r.costs[j] - eps {
        improved := true;
        r := Best(r.x[j := Column(c.x, j)], r.u[j := Column(c.u, j)], r.costs[j := c.costs[j]], r.du[j := c.du[j]]);
      }
    }
    assert r.x == want.x && r.u == want.u && r.costs == want.costs && r.du == want.du;
  }

  /** Every iterate seen so far fits the batch and horizon. */
  predicate AllFit(seen: seq<Candidate>, nb: nat, T: nat) {
    forall i :: 0 <= i < |seen| ==> Fits(seen[i], nb, T)
  }

  /** Element j of the record comes from one of the iterates seen. */
  predicate Origin(best: Best, j: nat, seen: seq<Candidate>, nb: nat, T: nat)
    requires Shaped(best, nb, T) && AllFit(seen, nb, T) && j < nb
  {
    exists i :: 0 <= i < |seen| && From(best, j, seen[i])
  }

  /** The record's elements each come from one of the iterates seen, and each best cost is
      within eps of that element's cost in every iterate seen. */
  predicate Faithful(best: Best, seen: seq<Candidate>, eps: real, nb: nat, T: nat)
    requires Shaped(best, nb, T) && AllFit(seen, nb, T)
  {
    && (forall j :: 0 <= j < nb ==> Origin(best, j, seen, nb, T))
    && (forall j, i :: 0 <= j < nb && 0 <= i < |seen| ==> best.costs[j] <= seen[i].costs[j] + eps)
  }

  /** The record made from the first iterate is faithful to it. */
  lemma {:induction false} FirstFaithful(c: Candidate, eps: real, nb: nat, T: nat)
    requires Fits(c, nb, T) && eps >= 0.0
    ensures AllFit([c], nb, T) && Faithful(First(c, nb, T), [c], eps, nb, T)
  {
    var r := First(c, nb, T);
    forall j | 0 <= j < nb ensures Origin(r, j, [c], nb, T) {
      assert From(r, j, [c][0]);
    }
  }

  /** With eps ≥ 0, every update keeps the record faithful to the iterates seen, the new one
      included: a best cost is never more than eps above any cost that element ever had. */
  lemma {:induction false} ImproveFaithful(best: Best, seen: seq<Candidate>, c: Candidate, eps: real, nb: nat, T: nat)
    requires Shaped(best, nb, T) && AllFit(seen, nb, T) && Fits(c, nb, T) && eps >= 0.0
    requires Faithful(best, seen, eps, nb, T)
    ensures AllFit(seen + [c], nb, T) && Faithful(Improve(best, c, eps, nb, T), seen + [c], eps, nb, T)
  {
    var r := Improve(best, c, eps, nb, T);
    var all := seen + [c];
    assert AllFit(all, nb, T) by {
      forall i | 0 <= i < |all| ensures Fits(all[i], nb, T) {
        if i < |seen| { assert all[i] == seen[i]; }
      }
    }
    forall j | 0 <= j < nb ensures Origin(r, j, all, nb, T) {
      if Improves(best, c, eps, j) {
        assert From(r, j, all[|seen|]);
      } else {
        assert Origin(best, j, seen, nb, T);
        var i :| 0 <= i < |seen| && From(best, j, seen[i]);
        assert all[i] == seen[i];
        assert From(r, j, all[i]);
      }
    }
    forall j, i | 0 <= j < nb && 0 <= i < |all| ensures r.costs[j] <= all[i].costs[j] + eps {
      if i < |seen| {
        assert all[i] == seen[i];
        assert best.costs[j] <= seen[i].costs[j] + eps;
      }
    }
  }

  // The record as the source builds it.

  /** `list(np.split(x, indices_or_sections=1, axis=1))` is a one-element list holding the
      whole array, so the record made from the first iterate has a single piece. */
  function AsWrittenFirst(c: Candidate): (r: Best)
    ensures |r.x| == 1 && |r.u| == 1 && r.costs == c.costs && r.du == c.du
  {
    Best([c.x], [c.u], c.costs, c.du)
  }

  /** The update loop as written, from element j on: an improving element j is stored at list
      index j, which fails once j passes the end of the list. */
  function AsWrittenImprove(best: Best, c: Candidate, eps: real, nb: nat, j: nat): (r: Result<Best>)
    requires j <= nb && |best.costs| == nb && |best.du| == nb && |best.x| == |best.u|
    requires |c.costs| == nb && |c.du| == nb
    requires forall t :: 0 <= t < |c.x| ==> |c.x[t]| == nb
    requires forall t :: 0 <= t < |c.u| ==> |c.u[t]| == nb
    ensures r.Fail? ==> r.error == ListIndex
    ensures r.Ok? ==> |r.value.x| == |best.x| && |r.value.costs| == nb
    decreases nb - j
  {
    if j == nb then Ok(best)
    else if c.costs[j] <= best.costs[j] - eps then
      if j >= |best.x| then Fail(ListIndex)
      else AsWrittenImprove(Best(best.x[j := Column(c.x, j)], best.u[j := Column(c.u, j)],
                                 best.costs[j := c.costs[j]], best.du[j := c.du[j]]), c, eps, nb, j + 1)
    else AsWrittenImprove(best, c, eps, nb, j + 1)
  }

  /** Two batch elements, one time step: in the second iteration element 1 improves and the
      update as written fails to store it, while the corrected record takes its new cost. */
  lemma AsWrittenListIndex()
    ensures var c0 := Candidate([[[0.0], [0.0]]], [[[0.0], [0.0]]], [1.0, 1.0], [0.5, 0.5]);
      var c1 := Candidate([[[1.0], [1.0]]], [[[1.0], [1.0]]], [1.0, 0.0], [0.0, 0.0]);
      && Fits(c0, 2, 1) && Fits(c1, 2, 1)
      && AsWrittenImprove(AsWrittenFirst(c0), c1, 0.001, 2, 0) == Fail(ListIndex)
      && Improve(First(c0, 2, 1), c1, 0.001, 2, 1).costs == [1.0, 0.0]
  {
    var c0 := Candidate([[[0.0], [0.0]]], [[[0.0], [0.0]]], [1.0, 1.0], [0.5, 0.5]);
    var c1 := Candidate([[[1.0], [1.0]]], [[[1.0], [1.0]]], [1.0, 0.0], [0.0, 0.0]);
    var b0 := AsWrittenFirst(c0);
    assert AsWrittenImprove(b0, c1, 0.001, 2, 0) == AsWrittenImprove(b0, c1, 0.001, 2, 1);
    var r := Improve(First(c0, 2, 1), c1, 0.001, 2, 1);
    assert Improves(First(c0, 2, 1), c1, 0.001, 1);
    assert !Improves(First(c0, 2, 1), c1, 0.001, 0);
    assert r.costs == [r.costs[0], r.costs[1]];
  }

  /** Two batch elements, one time step: in the second iteration only element 0 improves.
      The update as written overwrites the list's one piece, the whole [T, 2, n] array, with
      element 0's column, so the final concatenation has one row per step instead of two;
      the corrected record assembles both elements. */
  lemma AsWrittenDropsElement()
    ensures var c0 := Candidate([[[0.0], [0.0]]], [[[0.0], [0.0]]], [1.0, 1.0], [0.5, 0.5]);
      var c1 := Candidate([[[1.0], [2.0]]], [[[1.0], [2.0]]], [0.0, 1.0], [0.0, 0.0]);
      var r := AsWrittenImprove(AsWrittenFirst(c0), c1, 0.001, 2, 0);
      && Fits(c0, 2, 1) && Fits(c1, 2, 1)
      && r.Ok? && r.value.x == [[[[1.0]]]] && Pieces(r.value.x, 1)
      && Assemble(r.value.x, 1) == [[[1.0]]]
      && Assemble(Improve(First(c0, 2, 1), c1, 0.001, 2, 1).x, 1) == [[[1.0], [0.0]]]
  {
    var c0 := Candidate([[[0.0], [0.0]]], [[[0.0], [0.0]]], [1.0, 1.0], [0.5, 0.5]);
    var c1 := Candidate([[[1.0], [2.0]]], [[[1.0], [2.0]]], [0.0, 1.0], [0.0, 0.0]);
    var b0 := AsWrittenFirst(c0);
    var b1 := Best(b0.x[0 := Column(c1.x, 0)], b0.u[0 := Column(c1.u, 0)],
                   b0.costs[0 := c1.costs[0]], b0.du[0 := c1.du[0]]);
    assert Column(c1.x, 0) == [[[1.0]]];
    assert AsWrittenImprove(b0, c1, 0.001, 2, 0) == AsWrittenImprove(b1, c1, 0.001, 2, 1);
    assert AsWrittenImprove(b1, c1, 0.001, 2, 1) == Ok(b1);
    var a := Assemble(b1.x, 1);
    assert a[0] == [a[0][0]];
    var w := Improve(First(c0, 2, 1), c1, 0.001, 2, 1);
    assert Improves(First(c0, 2, 1), c1, 0.001, 0);
    assert !Improves(First(c0, 2, 1), c1, 0.001, 1);
    assert w.x[0] == Column(c1.x, 0);
    assert w.x[1] == Column(c0.x, 1);
    var aw := Assemble(w.x, 1);
    assert aw[0] == [aw[0][0], aw[0][1]];
  }

  /** With one batch element the single piece is that element's column, and the update as
      written agrees with the corrected one. */
  lemma {:induction false} AsWrittenAgreesForOne(c0: Candidate, c1: Candidate, eps: real, T: nat)
    requires Fits(c0, 1, T) && Fits(c1, 1, T)
    ensures AsWrittenFirst(c0) == First(c0, 1, T)
    ensures AsWrittenImprove(First(c0, 1, T), c1, eps, 1, 0) == Ok(Improve(First(c0, 1, T), c1, eps, 1, T))
  {
    assert [c0.x] == Split(c0.x, 1) by { ColumnOfOne(c0.x); }
    assert [c0.u] == Split(c0.u, 1) by { ColumnOfOne(c0.u); }
    var b := First(c0, 1, T);
    var w := Improve(b, c1, eps, 1, T);
    if Improves(b, c1, eps, 0) {
      var s := Best(b.x[0 := Column(c1.x, 0)], b.u[0 := Column(c1.u, 0)],
                    b.costs[0 := c1.costs[0]], b.du[0 := c1.du[0]]);
      assert AsWrittenImprove(b, c1, eps, 1, 0) == Ok(s);
      assert s.x == w.x && s.u == w.u && s.costs == w.costs && s.du == w.du;
    } else {
      assert AsWrittenImprove(b, c1, eps, 1, 0) == Ok(b);
      assert b.x == w.x && b.u == w.u && b.costs == w.costs && b.du == w.du;
    }
  }

  /** A [T, 1, n] array is its own column 0. */
  lemma {:induction false} ColumnOfOne(x: Series)
    requires forall t :: 0 <= t < |x| ==> |x[t]| == 1
    ensures Column(x, 0) == x
  {
    var col := Column(x, 0);
    forall t | 0 <= t < |x| ensures col[t] == x[t] {
      assert col[t] == [x[t][0]];
    }
  }
}
