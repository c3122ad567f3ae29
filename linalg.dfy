/*
 * The dense vector and matrix helpers the analyses share: `dot` and
 * `matVec` (src/core/analysis/modal.ts, src/core/analysis/resp.ts),
 * `absMax` (src/core/analysis/resp.ts) and its twin inside
 * `normalizeReadableModes`, and the row view of a matrix held in an array.
 */
module LinAlg {
  import opened Numbers

  /** `m` has `d` rows of `d` entries each. */
  predicate Square(m: seq<seq<real>>, d: nat)
  {
    |m| == d && forall i :: 0 <= i < d ==> |m[i]| == d
  }

  /** The rows of an array matrix, as the `number[][]` the analyses pass around. */
  function Rows(a: array2<real>): (r: seq<seq<real>>)
    reads a
    ensures |r| == a.Length0 && forall i :: 0 <= i < a.Length0 ==> |r[i]| == a.Length1
    ensures forall i, j :: 0 <= i < a.Length0 && 0 <= j < a.Length1 ==> r[i][j] == a[i, j]
  {
    seq(a.Length0, i requires 0 <= i < a.Length0 reads a => seq(a.Length1, j requires 0 <= j < a.Length1 reads a => a[i, j]))
  }

  /** The sum of `a[i] * b[i]` over the indices of `a`. */
  function Dot(a: seq<real>, b: seq<real>): real
    requires |a| <= |b|
  {
    if a == [] then 0.0 else Dot(a[..|a| - 1], b) + a[|a| - 1] * b[|a| - 1]
  }

  /** Every row of `m` against `v`. */
  function MatVec(m: seq<seq<real>>, v: seq<real>): (r: seq<real>)
    requires forall i :: 0 <= i < |m| ==> |m[i]| <= |v|
    ensures |r| == |m|
  {
    seq(|m|, i requires 0 <= i < |m| => Dot(m[i], v))
  }

  /** Every entry of `v` times `c`. */
  function Scale(v: seq<real>, c: real): (r: seq<real>)
    ensures |r| == |v| && forall i :: 0 <= i < |v| ==> r[i] == v[i] * c
  {
    seq(|v|, i requires 0 <= i < |v| => v[i] * c)
  }

  /** `values.reduce((max, value) => Math.max(max, Math.abs(value)), 0)`. */
  function AbsMax(values: seq<real>): real
  {
    if values == [] then 0.0 else Max(AbsMax(values[..|values| - 1]), Abs(values[|values| - 1]))
  }

  /** `AbsMax` is the largest magnitude in the list: an upper bound of every entry, attained when the list is non-empty. */
  lemma {:induction false} AbsMaxIsMax(values: seq<real>)
    ensures AbsMax(values) >= 0.0
    ensures forall k :: 0 <= k < |values| ==> Abs(values[k]) <= AbsMax(values)
    ensures values != [] ==> exists k :: 0 <= k < |values| && Abs(values[k]) == AbsMax(values)
  {
    if values != [] {
      var init := values[..|values| - 1];
      AbsMaxIsMax(init);
      assert forall k :: 0 <= k < |init| ==> values[k] == init[k];
      if init != [] && AbsMax(init) >= Abs(values[|values| - 1]) {
        var k :| 0 <= k < |init| && Abs(init[k]) == AbsMax(init);
        assert Abs(values[k]) == AbsMax(values);
      }
    }
  }

  /** Scaling one argument scales the dot product. */
  lemma {:induction false} DotScaleLeft(a: seq<real>, b: seq<real>, c: real)
    requires |a| <= |b|
    ensures Dot(Scale(a, c), b) == c * Dot(a, b)
  {
    if a != [] {
      var n := |a| - 1;
      DotScaleLeft(a[..n], b, c);
      ScalePrefix(a, c, n);
      Distribute(c, Dot(a[..n], b), a[n], b[n]);
    }
  }

  lemma ScalePrefix(v: seq<real>, c: real, k: nat)
    requires k <= |v|
    ensures Scale(v, c)[..k] == Scale(v[..k], c)
  {
    assert |Scale(v, c)[..k]| == |Scale(v[..k], c)|;
    forall i | 0 <= i < k
      ensures Scale(v, c)[..k][i] == Scale(v[..k], c)[i]
    {
      assert v[..k][i] == v[i];
    }
  }

  lemma Distribute(c: real, rest: real, x: real, y: real)
    ensures c * rest + (x * c) * y == c * (rest + x * y)
  {
  }

  lemma {:induction false} DotScaleRight(a: seq<real>, b: seq<real>, c: real)
    requires |a| <= |b|
    ensures Dot(a, Scale(b, c)) == c * Dot(a, b)
  {
    if a != [] {
      DotScaleRight(a[..|a| - 1], b, c);
    }
  }

  /** `matVec` is linear in its vector. */
  lemma MatVecScale(m: seq<seq<real>>, v: seq<real>, c: real)
    requires forall i :: 0 <= i < |m| ==> |m[i]| <= |v|
    ensures MatVec(m, Scale(v, c)) == Scale(MatVec(m, v), c)
  {
    forall i | 0 <= i < |m|
      ensures MatVec(m, Scale(v, c))[i] == Scale(MatVec(m, v), c)[i]
    {
      DotScaleRight(m[i], v, c);
    }
  }

  /** Scaling both arguments scales the dot product twice. */
  lemma DotScaleBoth(a: seq<real>, b: seq<real>, c: real)
    requires |a| <= |b|
    ensures Dot(Scale(a, c), Scale(b, c)) == c * (c * Dot(a, b))
  {
    DotScaleLeft(a, Scale(b, c), c);
    DotScaleRight(a, b, c);
  }

  /** The quadratic form `vᵀ M v`. */
  function Quadratic(m: seq<seq<real>>, v: seq<real>): real
    requires Square(m, |v|)
  {
    Dot(v, MatVec(m, v))
  }

  /** The quadratic form of a scaled vector: `(cv)ᵀ M (cv) = c² vᵀ M v`. */
  lemma QuadraticScale(m: seq<seq<real>>, v: seq<real>, c: real)
    requires Square(m, |v|)
    ensures Quadratic(m, Scale(v, c)) == c * (c * Quadratic(m, v))
  {
    var sv, w := Scale(v, c), MatVec(m, v);
    assert MatVec(m, sv) == Scale(w, c) by {
      MatVecScale(m, v, c);
    }
    DotScaleBoth(v, w, c);
  }

  /** The dot product distributes over a sum in its second argument. */
  lemma {:induction false} DotAdd(a: seq<real>, x: seq<real>, y: seq<real>, z: seq<real>)
    requires |a| <= |x| && |a| <= |y| && |a| <= |z|
    requires forall k :: 0 <= k < |a| ==> z[k] == x[k] + y[k]
    ensures Dot(a, z) == Dot(a, x) + Dot(a, y)
  {
    if a != [] {
      DotAdd(a[..|a| - 1], x, y, z);
    }
  }

  /** The dot product distributes over a sum in its first argument. */
  lemma {:induction false} DotAddLeft(a: seq<real>, b: seq<real>, c: seq<real>, x: seq<real>)
    requires |a| == |b| == |c| <= |x|
    requires forall j :: 0 <= j < |c| ==> c[j] == a[j] + b[j]
    ensures Dot(c, x) == Dot(a, x) + Dot(b, x)
  {
    if c != [] {
      var n := |c| - 1;
      assert forall j :: 0 <= j < n ==> c[..n][j] == a[..n][j] + b[..n][j];
      DotAddLeft(a[..n], b[..n], c[..n], x);
      assert c[n] * x[n] == a[n] * x[n] + b[n] * x[n];
    }
  }

  /** A row that is zero off position i picks out its i-th product. */
  lemma {:induction false} DotDiagonalRow(row: seq<real>, x: seq<real>, i: nat)
    requires |row| <= |x| && i < |row|
    requires forall j :: 0 <= j < |row| && j != i ==> row[j] == 0.0
    ensures Dot(row, x) == row[i] * x[i]
  {
    var n := |row| - 1;
    if n == i {
      DotZeroRow(row[..n], x);
    } else {
      DotDiagonalRow(row[..n], x, i);
    }
  }

  lemma {:induction false} DotZeroRow(row: seq<real>, x: seq<real>)
    requires |row| <= |x| && forall j :: 0 <= j < |row| ==> row[j] == 0.0
    ensures Dot(row, x) == 0.0
  {
    if row != [] {
      DotZeroRow(row[..|row| - 1], x);
    }
  }
}
