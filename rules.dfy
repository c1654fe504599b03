/**
 * The arithmetic of the update rules, on exact reals: the perceptron threshold
 * (src/blocks/layer.py), the non-negativity clamp, the three learning-rule
 * deltas and the mean that `weight_update` adds to every weight
 * (src/blocks/connection.py).
 */
module Rules {

  type Matrix = seq<seq<real>>

  /** m has `rows` rows of `cols` entries each. */
  predicate IsMatrix(m: Matrix, rows: nat, cols: nat)
  {
    |m| == rows && forall i :: 0 <= i < rows ==> |m[i]| == cols
  }

  /** PerceptronLayer.activation: a hard threshold at zero, zero itself mapping to -1. */
  function Activation(energy: real): (s: real)
    ensures s == 1.0 <==> energy > 0.0
    ensures s == -1.0 <==> energy <= 0.0
  {
    if energy > 0.0 then 1.0 else -1.0
  }

  /** The clamp of __impose_constraint on one weight: negatives become zero. */
  function Clamp(w: real): (c: real)
    ensures c >= 0.0
    ensures w >= 0.0 ==> c == w
    ensures w < 0.0 ==> c == 0.0
  {
    if w < 0.0 then 0.0 else w
  }

  /** The three learning rules that compute a delta. */
  datatype Rule = OjaRule | FoldiakRule | CMRule

  /**
   * The bracketed part of one delta entry, for presynaptic unit state x,
   * postsynaptic unit state y, their firing rates rx and ry, and the current
   * weight w.
   */
  function DeltaEntry(rule: Rule, x: real, y: real, rx: real, ry: real, w: real): real
  {
    match rule
    case OjaRule => x * y - y * y * w
    case FoldiakRule => x * y - rx * ry
    case CMRule => x * y - rx * ry * (1.0 + w)
  }

  /**
   * The delta matrix a rule appends to the pending buffer: learning rate times
   * the rule's entry, for every (presynaptic, postsynaptic) pair of units.
   * Oja ignores the rates.
   */
  function Delta(rule: Rule, lr: real, pre: seq<real>, post: seq<real>,
                 preRates: seq<real>, postRates: seq<real>, w: Matrix): (d: Matrix)
    requires |preRates| == |pre| && |postRates| == |post|
    requires IsMatrix(w, |pre|, |post|)
    ensures IsMatrix(d, |pre|, |post|)
    ensures forall i, j :: 0 <= i < |pre| && 0 <= j < |post| ==>
              d[i][j] == lr * DeltaEntry(rule, pre[i], post[j], preRates[i], postRates[j], w[i][j])
  {
    seq(|pre|, i requires 0 <= i < |pre| =>
      seq(|post|, j requires 0 <= j < |post| =>
        lr * DeltaEntry(rule, pre[i], post[j], preRates[i], postRates[j], w[i][j])))
  }

  /** The three formulas written out entry by entry. */
  lemma DeltaFormulas(lr: real, pre: seq<real>, post: seq<real>,
                      preRates: seq<real>, postRates: seq<real>, w: Matrix, i: nat, j: nat)
    requires |preRates| == |pre| && |postRates| == |post|
    requires IsMatrix(w, |pre|, |post|)
    requires i < |pre| && j < |post|
    ensures Delta(OjaRule, lr, pre, post, preRates, postRates, w)[i][j]
            == lr * (pre[i] * post[j] - post[j] * post[j] * w[i][j])
    ensures Delta(FoldiakRule, lr, pre, post, preRates, postRates, w)[i][j]
            == lr * (pre[i] * post[j] - preRates[i] * postRates[j])
    ensures Delta(CMRule, lr, pre, post, preRates, postRates, w)[i][j]
            == lr * (pre[i] * post[j] - preRates[i] * postRates[j] * (1.0 + w[i][j]))
  {
  }

  /**
   * With a binary postsynaptic unit (state +1 or -1, as every perceptron unit
   * is), Oja's rule pulls the weight toward pre*post: the delta is
   * lr*(pre*post - w), and it vanishes (for a non-zero rate) exactly at
   * w == pre*post.
   */
  lemma OjaBinaryPost(lr: real, x: real, y: real, rx: real, ry: real, w: real)
    requires y == 1.0 || y == -1.0
    ensures lr * DeltaEntry(OjaRule, x, y, rx, ry, w) == lr * (x * y - w)
    ensures lr != 0.0 ==> (lr * DeltaEntry(OjaRule, x, y, rx, ry, w) == 0.0 <==> w == x * y)
  {
    assert y * y == 1.0;
  }

  /** Foldiak's rule learns nothing when every state equals its firing rate. */
  lemma FoldiakAtRates(lr: real, pre: seq<real>, post: seq<real>, w: Matrix)
    requires IsMatrix(w, |pre|, |post|)
    ensures Delta(FoldiakRule, lr, pre, post, pre, post, w)
            == seq(|pre|, i => seq(|post|, j => 0.0))
  {
    var d := Delta(FoldiakRule, lr, pre, post, pre, post, w);
    var z := seq(|pre|, i => seq(|post|, j => 0.0));
    forall i | 0 <= i < |pre|
      ensures d[i] == z[i]
    {
      forall j | 0 <= j < |post|
        ensures d[i][j] == z[i][j]
      {
        calc {
          d[i][j];
          lr * (pre[i] * post[j] - pre[i] * post[j]);
          0.0;
        }
      }
    }
  }

  /**
   * The correlation-measuring rule is Foldiak's rule with an extra decay term
   * proportional to the weight; at weight zero the two coincide.
   */
  lemma CMExtendsFoldiak(lr: real, x: real, y: real, rx: real, ry: real, w: real)
    ensures lr * DeltaEntry(CMRule, x, y, rx, ry, w)
            == lr * DeltaEntry(FoldiakRule, x, y, rx, ry, w) - lr * rx * ry * w
    ensures w == 0.0 ==> DeltaEntry(CMRule, x, y, rx, ry, w) == DeltaEntry(FoldiakRule, x, y, rx, ry, w)
  {
  }

  /**
   * The correlation-measuring rule is at rest exactly when the weight equals
   * the ratio of instantaneous to rate correlation, minus one.
   */
  lemma CMFixedPoint(lr: real, x: real, y: real, rx: real, ry: real, w: real)
    requires lr != 0.0 && rx * ry != 0.0
    ensures lr * DeltaEntry(CMRule, x, y, rx, ry, w) == 0.0 <==> w == (x * y) / (rx * ry) - 1.0
  {
    var c := rx * ry;
    assert DeltaEntry(CMRule, x, y, rx, ry, w) == x * y - c * (1.0 + w);
    if w == (x * y) / c - 1.0 {
      assert c * (1.0 + w) == x * y;
    }
    if lr * DeltaEntry(CMRule, x, y, rx, ry, w) == 0.0 {
      var t := 1.0 + w;
      assert x * y == c * t;
      assert (c * t) / c == t;
    }
  }

  // ---------------------------------------------------------------------
  // np.mean over the pending buffer, with no axis: one scalar, the mean of
  // every entry of every pending matrix.

  function RowSum(r: seq<real>): real
  {
    if r == [] then 0.0 else RowSum(r[..|r| - 1]) + r[|r| - 1]
  }

  function MatrixSum(m: Matrix): real
  {
    if m == [] then 0.0 else MatrixSum(m[..|m| - 1]) + RowSum(m[|m| - 1])
  }

  function MatrixCount(m: Matrix): nat
  {
    if m == [] then 0 else MatrixCount(m[..|m| - 1]) + |m[|m| - 1]|
  }

  function BufferSum(ms: seq<Matrix>): real
  {
    if ms == [] then 0.0 else BufferSum(ms[..|ms| - 1]) + MatrixSum(ms[|ms| - 1])
  }

  function BufferCount(ms: seq<Matrix>): nat
  {
    if ms == [] then 0 else BufferCount(ms[..|ms| - 1]) + MatrixCount(ms[|ms| - 1])
  }

  /** Every pending matrix has the same shape. */
  predicate AllShaped(ms: seq<Matrix>, rows: nat, cols: nat)
  {
    forall k :: 0 <= k < |ms| ==> IsMatrix(ms[k], rows, cols)
  }

  /** k matrices of shape rows x cols hold k*rows*cols entries. */
  lemma {:induction false} BufferCountShaped(ms: seq<Matrix>, rows: nat, cols: nat)
    requires AllShaped(ms, rows, cols)
    ensures BufferCount(ms) == |ms| * rows * cols
  {
    if ms != [] {
      BufferCountShaped(ms[..|ms| - 1], rows, cols);
      MatrixCountShaped(ms[|ms| - 1], rows, cols);
    }
  }

  lemma {:induction false} MatrixCountShaped(m: Matrix, rows: nat, cols: nat)
    requires IsMatrix(m, rows, cols)
    ensures MatrixCount(m) == rows * cols
  {
    if m != [] {
      MatrixCountShaped(m[..|m| - 1], rows - 1, cols);
    }
  }

  /**
   * The scalar np.mean returns: the one value that, added once for every
   * entry of every pending matrix, gives the sum of all those entries.
   */
  function BufferMean(ms: seq<Matrix>): (mean: real)
    requires BufferCount(ms) > 0
    ensures Repeat(mean, BufferCount(ms)) == BufferSum(ms)
  {
    var n := BufferCount(ms) as real;
    RepeatIsProduct(BufferSum(ms) / n, BufferCount(ms));
    BufferSum(ms) / n
  }

  predicate RowAll(r: seq<real>, c: real)
  {
    forall j :: 0 <= j < |r| ==> r[j] == c
  }

  predicate MatrixAll(m: Matrix, c: real)
  {
    forall i :: 0 <= i < |m| ==> RowAll(m[i], c)
  }

  /** Every entry of every pending matrix equals c. */
  predicate AllEntries(ms: seq<Matrix>, c: real)
  {
    forall k :: 0 <= k < |ms| ==> MatrixAll(ms[k], c)
  }

  /** A buffer whose entries all equal c has mean c. */
  lemma BufferMeanOfConstant(ms: seq<Matrix>, c: real)
    requires BufferCount(ms) > 0 && AllEntries(ms, c)
    ensures BufferMean(ms) == c
  {
    var n := BufferCount(ms);
    BufferSumOfConstant(ms, c);
    RepeatIsProduct(c, n);
    var x := n as real;
    assert BufferSum(ms) == c * x;
    assert BufferMean(ms) == BufferSum(ms) / x;
    DivCancel(c, x);
  }

  /** c added to itself n times, kept free of multiplication for the solver. */
  function Repeat(c: real, n: nat): real
  {
    if n == 0 then 0.0 else Repeat(c, n - 1) + c
  }

  lemma {:induction false} RepeatAdds(c: real, a: nat, b: nat)
    ensures Repeat(c, a + b) == Repeat(c, a) + Repeat(c, b)
    decreases b
  {
    if b > 0 {
      RepeatAdds(c, a, b - 1);
    }
  }

  lemma {:induction false} RepeatIsProduct(c: real, n: nat)
    ensures Repeat(c, n) == c * (n as real)
  {
    if n > 0 {
      RepeatIsProduct(c, n - 1);
      var x := (n - 1) as real;
      assert c * x + c == c * (x + 1.0);
    }
  }

  lemma {:induction false} BufferSumOfConstant(ms: seq<Matrix>, c: real)
    requires AllEntries(ms, c)
    ensures BufferSum(ms) == Repeat(c, BufferCount(ms))
  {
    if ms != [] {
      var init, last := ms[..|ms| - 1], ms[|ms| - 1];
      assert AllEntries(init, c) by {
        forall k | 0 <= k < |init| ensures MatrixAll(init[k], c) {
          assert init[k] == ms[k];
        }
      }
      BufferSumOfConstant(init, c);
      MatrixSumOfConstant(last, c);
      RepeatAdds(c, BufferCount(init), MatrixCount(last));
    }
  }

  lemma {:induction false} MatrixSumOfConstant(m: Matrix, c: real)
    requires MatrixAll(m, c)
    ensures MatrixSum(m) == Repeat(c, MatrixCount(m))
  {
    if m != [] {
      var init, last := m[..|m| - 1], m[|m| - 1];
      assert MatrixAll(init, c) by {
        forall i | 0 <= i < |init| ensures RowAll(init[i], c) {
          assert init[i] == m[i];
        }
      }
      MatrixSumOfConstant(init, c);
      RowSumOfConstant(last, c);
      RepeatAdds(c, MatrixCount(init), |last|);
    }
  }

  lemma {:induction false} RowSumOfConstant(r: seq<real>, c: real)
    requires RowAll(r, c)
    ensures RowSum(r) == Repeat(c, |r|)
  {
    if r != [] {
      var init := r[..|r| - 1];
      assert RowAll(init, c) by {
        forall j | 0 <= j < |init| ensures init[j] == c {
          assert init[j] == r[j];
        }
      }
      RowSumOfConstant(init, c);
    }
  }

  /** Every entry of every pending matrix lies in [lo, hi]. */
  predicate AllWithin(ms: seq<Matrix>, lo: real, hi: real)
  {
    forall k, i, j :: 0 <= k < |ms| && 0 <= i < |ms[k]| && 0 <= j < |ms[k][i]| ==> lo <= ms[k][i][j] <= hi
  }

  /** The mean lies between any lower and upper bound of the entries it averages. */
  lemma BufferMeanBounds(ms: seq<Matrix>, lo: real, hi: real)
    requires BufferCount(ms) > 0 && AllWithin(ms, lo, hi)
    ensures lo <= BufferMean(ms) <= hi
  {
    BufferSumWithin(ms, lo, hi);
    BoundsFromRepeat(lo, hi, BufferMean(ms), BufferSum(ms), BufferCount(ms));
  }

  /** If n copies of m add up to s, and s lies between n copies of lo and of hi, then lo <= m <= hi. */
  lemma BoundsFromRepeat(lo: real, hi: real, m: real, s: real, n: nat)
    requires n > 0 && Repeat(lo, n) <= s <= Repeat(hi, n) && Repeat(m, n) == s
    ensures lo <= m <= hi
  {
    RepeatIsProduct(lo, n);
    RepeatIsProduct(hi, n);
    RepeatIsProduct(m, n);
    ScaleDown(lo, m, n as real);
    ScaleDown(m, hi, n as real);
  }

  lemma ScaleDown(a: real, b: real, x: real)
    requires x > 0.0 && a * x <= b * x
    ensures a <= b
  {
  }

  lemma {:induction false} BufferSumWithin(ms: seq<Matrix>, lo: real, hi: real)
    requires AllWithin(ms, lo, hi)
    ensures Repeat(lo, BufferCount(ms)) <= BufferSum(ms) <= Repeat(hi, BufferCount(ms))
  {
    if ms != [] {
      var init, last := ms[..|ms| - 1], ms[|ms| - 1];
      assert AllWithin(init, lo, hi) by {
        forall k, i, j | 0 <= k < |init| && 0 <= i < |init[k]| && 0 <= j < |init[k][i]|
          ensures lo <= init[k][i][j] <= hi
        {
          assert init[k] == ms[k];
        }
      }
      BufferSumWithin(init, lo, hi);
      MatrixSumWithin(last, lo, hi);
      RepeatAdds(lo, BufferCount(init), MatrixCount(last));
      RepeatAdds(hi, BufferCount(init), MatrixCount(last));
    }
  }

  lemma {:induction false} MatrixSumWithin(m: Matrix, lo: real, hi: real)
    requires forall i, j :: 0 <= i < |m| && 0 <= j < |m[i]| ==> lo <= m[i][j] <= hi
    ensures Repeat(lo, MatrixCount(m)) <= MatrixSum(m) <= Repeat(hi, MatrixCount(m))
  {
    if m != [] {
      var init, last := m[..|m| - 1], m[|m| - 1];
      assert forall i, j :: 0 <= i < |init| && 0 <= j < |init[i]| ==> init[i][j] == m[i][j];
      MatrixSumWithin(init, lo, hi);
      RowSumWithin(last, lo, hi);
      RepeatAdds(lo, MatrixCount(init), |last|);
      RepeatAdds(hi, MatrixCount(init), |last|);
    }
  }

  lemma {:induction false} RowSumWithin(r: seq<real>, lo: real, hi: real)
    requires forall j :: 0 <= j < |r| ==> lo <= r[j] <= hi
    ensures Repeat(lo, |r|) <= RowSum(r) <= Repeat(hi, |r|)
  {
    if r != [] {
      var init := r[..|r| - 1];
      assert forall j :: 0 <= j < |init| ==> init[j] == r[j];
      RowSumWithin(init, lo, hi);
    }
  }

  // ---------------------------------------------------------------------
  // np.dot on value vectors, for the energies a connection passes on.

  /** The sum of u[j] * v[j] over the first k indices. */
  function DotPrefix(u: seq<real>, v: seq<real>, k: nat): real
    requires k <= |u| && k <= |v|
  {
    if k == 0 then 0.0 else DotPrefix(u, v, k - 1) + u[k - 1] * v[k - 1]
  }

  /** np.dot(u, v) for vectors of one length. */
  function Dot(u: seq<real>, v: seq<real>): real
    requires |u| == |v|
  {
    DotPrefix(u, v, |u|)
  }

  /** Column j of a matrix, m[:, j]. */
  function Column(m: Matrix, j: nat): (col: seq<real>)
    requires forall i :: 0 <= i < |m| ==> j < |m[i]|
    ensures |col| == |m| && forall i :: 0 <= i < |m| ==> col[i] == m[i][j]
  {
    seq(|m|, i requires 0 <= i < |m| => m[i][j])
  }

  lemma DivCancel(c: real, n: real)
    requires n > 0.0
    ensures (c * n) / n == c
  {
  }

  /**
   * The mean is taken over all entries together, not entry by entry: one
   * pending delta [[1, 0], [0, 0]] shifts every weight by 1/4, while an
   * element-wise mean would move only the first weight, by 1.
   */
  lemma MeanIsOneScalar()
    ensures BufferMean([[[1.0, 0.0], [0.0, 0.0]]]) == 0.25
  {
    var m: Matrix := [[1.0, 0.0], [0.0, 0.0]];
    assert m[..1] == [[1.0, 0.0]];
    assert [1.0, 0.0][..1] == [1.0];
    assert [0.0, 0.0][..1] == [0.0];
    assert RowSum([1.0, 0.0]) == 1.0;
    assert RowSum([0.0, 0.0]) == 0.0;
    assert MatrixSum(m) == 1.0;
    assert MatrixCount(m) == 4;
    assert [m][..0] == [];
  }

  /** The n x n identity matrix held by a ConstantConnection. */
  function Identity(n: nat): (m: Matrix)
    ensures IsMatrix(m, n, n)
    ensures forall i, j :: 0 <= i < n && 0 <= j < n ==> m[i][j] == (if i == j then 1.0 else 0.0)
  {
    seq(n, i => seq(n, j => if i == j then 1.0 else 0.0))
  }
}
