/*
 * Real eigen analysis of the assembled building (src/core/analysis/modal.ts):
 * the choice and order of the positive eigenvalues, mass-normalised mode
 * shapes, participation factors and effective mass ratios, the "readable"
 * mode shapes written to the eigen-vector table, that table's rows, and
 * Rayleigh damping added to a copy of the damping matrix.
 *
 * The Cholesky factorisation, the inverse and the symmetric eigen solver of
 * `solveGeneralizedEigen` are one parameter: a function from the mass and
 * stiffness rows to raw eigenvalues and the matrix of eigenvectors (one mode
 * per column). `Math.sqrt` is a parameter that computes exact square roots.
 */
module RealEigen {
  import opened Results
  import opened Numbers
  import opened Strings
  import opened Building
  import opened Sorting
  import opened LinAlg
  import opened StoryBlocks
  import opened MatrixAssembly

  /** Eigenvalues at or below this are not modes. */
  const POSITIVE_EIGENVALUE: real := 0.0000000001
  /** The floor under a squared mass norm. */
  const MIN_MASS_NORM_SQUARED: real := 0.000000000000000001
  /** A mode shape whose largest magnitude is below this is left as it is. */
  const NEGLIGIBLE_MODE: real := 0.000000000001
  /** The first entry above this magnitude fixes a readable mode's sign. */
  const SIGN_ANCHOR: real := 0.0000000001
  /** Circular frequencies at or below this are ignored by Rayleigh damping. */
  const MIN_OMEGA: real := 0.000000000001

  // ---- eigenvalue selection ----------------------------------------------------------------

  /** An eigenvalue with its position in the solver's output. */
  datatype Entry = Entry(value: real, index: nat)

  function EntryValue(e: Entry): real
  {
    e.value
  }

  /** The eigenvalues above the threshold, with their indices, in index order. */
  function PositiveEntries(raw: seq<real>): seq<Entry>
  {
    if raw == [] then []
    else
      var n := |raw| - 1;
      PositiveEntries(raw[..n]) + (if raw[n] > POSITIVE_EIGENVALUE then [Entry(raw[n], n)] else [])
  }

  /**
   * The filtered entries are exactly the positive eigenvalues: each names an
   * index of `raw` holding its value, indices strictly increase, and every
   * positive eigenvalue has an entry.
   */
  lemma {:induction false} PositiveEntriesSpec(raw: seq<real>)
    ensures |PositiveEntries(raw)| <= |raw|
    ensures forall k :: 0 <= k < |PositiveEntries(raw)| ==>
      PositiveEntries(raw)[k].index < |raw| && raw[PositiveEntries(raw)[k].index] == PositiveEntries(raw)[k].value
      && PositiveEntries(raw)[k].value > POSITIVE_EIGENVALUE
    ensures forall k, l :: 0 <= k < l < |PositiveEntries(raw)| ==> PositiveEntries(raw)[k].index < PositiveEntries(raw)[l].index
    ensures forall i :: 0 <= i < |raw| && raw[i] > POSITIVE_EIGENVALUE ==> Entry(raw[i], i) in PositiveEntries(raw)
  {
    if raw != [] {
      var n := |raw| - 1;
      var init := raw[..n];
      PositiveEntriesSpec(init);
      assert forall i :: 0 <= i < n ==> init[i] == raw[i];
      var tail := if raw[n] > POSITIVE_EIGENVALUE then [Entry(raw[n], n)] else [];
      assert PositiveEntries(raw) == PositiveEntries(init) + tail;
    }
  }

  /** The positive eigenvalues sorted by value; the sort is stable, so ties stay in index order. */
  function SortedPositive(raw: seq<real>): seq<Entry>
  {
    SortBy(PositiveEntries(raw), EntryValue)
  }

  /** The sorted entries are the positive eigenvalues, each once, in non-decreasing order. */
  lemma SortedPositiveSpec(raw: seq<real>)
    ensures |SortedPositive(raw)| <= |raw|
    ensures forall k :: 0 <= k < |SortedPositive(raw)| ==>
      SortedPositive(raw)[k].index < |raw| && raw[SortedPositive(raw)[k].index] == SortedPositive(raw)[k].value
      && SortedPositive(raw)[k].value > POSITIVE_EIGENVALUE
    ensures forall k, l :: 0 <= k < l < |SortedPositive(raw)| ==> SortedPositive(raw)[k].value <= SortedPositive(raw)[l].value
    ensures forall i :: 0 <= i < |raw| && raw[i] > POSITIVE_EIGENVALUE ==> Entry(raw[i], i) in SortedPositive(raw)
  {
    PositiveEntriesSpec(raw);
    SortByIsSorted(PositiveEntries(raw), EntryValue);
    SortedPositiveFromEntries(raw);
    SortedPositiveComplete(raw);
  }

  lemma SortedPositiveFromEntries(raw: seq<real>)
    ensures forall k :: 0 <= k < |SortedPositive(raw)| ==> SortedPositive(raw)[k] in PositiveEntries(raw)
  {
    var sorted := SortedPositive(raw);
    SortByPermutes(PositiveEntries(raw), EntryValue);
    forall k | 0 <= k < |sorted|
      ensures sorted[k] in PositiveEntries(raw)
    {
      assert sorted[k] in multiset(sorted);
    }
  }

  lemma SortedPositiveComplete(raw: seq<real>)
    ensures forall i :: 0 <= i < |raw| && raw[i] > POSITIVE_EIGENVALUE ==> Entry(raw[i], i) in SortedPositive(raw)
  {
    var entries := PositiveEntries(raw);
    PositiveEntriesSpec(raw);
    SortByPermutes(entries, EntryValue);
    forall i | 0 <= i < |raw| && raw[i] > POSITIVE_EIGENVALUE
      ensures Entry(raw[i], i) in SortedPositive(raw)
    {
      assert Entry(raw[i], i) in multiset(entries);
    }
  }

  /** The eigenvalue indices `solveGeneralizedEigen` keeps, ordered by eigenvalue (ties in index order). */
  function EigenOrder(raw: seq<real>): Result<seq<nat>>
  {
    var sorted := SortedPositive(raw);
    if |sorted| == 0 then FormatFailure("Eigen analysis: no positive eigenvalue was found.")
    else Ok(seq(|sorted|, i requires 0 <= i < |sorted| => sorted[i].index))
  }

  /** The selection fails, with the message of modal.ts, exactly when no eigenvalue is positive. */
  lemma EigenOrderFails(raw: seq<real>)
    ensures EigenOrder(raw).Err? <==> forall i :: 0 <= i < |raw| ==> raw[i] <= POSITIVE_EIGENVALUE
    ensures EigenOrder(raw).Err? ==> EigenOrder(raw) == FormatFailure("Eigen analysis: no positive eigenvalue was found.")
  {
    SortedPositiveSpec(raw);
    var sorted := SortedPositive(raw);
    if |sorted| > 0 {
      assert raw[sorted[0].index] > POSITIVE_EIGENVALUE;
    }
  }

  /** A successful selection names positions of `raw`. */
  lemma EigenOrderIndices(raw: seq<real>)
    requires EigenOrder(raw).Ok?
    ensures forall k :: 0 <= k < |EigenOrder(raw).value| ==> EigenOrder(raw).value[k] < |raw|
  {
    SortedPositiveSpec(raw);
  }

  /**
   * A successful selection lists at most |raw| valid indices of positive
   * eigenvalues in non-decreasing eigenvalue order, and lists every positive one.
   */
  lemma EigenOrderSpec(raw: seq<real>)
    requires EigenOrder(raw).Ok?
    ensures
      var idx := EigenOrder(raw).value;
      |idx| <= |raw|
      && (forall k :: 0 <= k < |idx| ==> idx[k] < |raw| && raw[idx[k]] > POSITIVE_EIGENVALUE)
      && (forall k, l :: 0 <= k < l < |idx| ==> raw[idx[k]] <= raw[idx[l]])
      && (forall i :: 0 <= i < |raw| && raw[i] > POSITIVE_EIGENVALUE ==> i in idx)
  {
    SortedPositiveSpec(raw);
    var sorted := SortedPositive(raw);
    var idx := EigenOrder(raw).value;
    forall i | 0 <= i < |raw| && raw[i] > POSITIVE_EIGENVALUE
      ensures i in idx
    {
      var k :| 0 <= k < |sorted| && sorted[k] == Entry(raw[i], i);
      assert idx[k] == i;
    }
  }

  // ---- mass normalisation --------------------------------------------------------------------

  /** The raw eigenvalues and the eigenvector matrix (mode k is column k) the library returns. */
  datatype Decomposition = Decomposition(values: seq<real>, vectors: seq<seq<real>>)

  /** A decomposition of a d-by-d problem: d eigenvalues and a d-by-d eigenvector matrix. */
  predicate Shaped(e: Decomposition, d: nat)
  {
    |e.values| == d && Square(e.vectors, d)
  }

  /** `phiArr.map((row) => row[index])`. */
  function Column(phi: seq<seq<real>>, index: nat): (r: seq<real>)
    requires forall i :: 0 <= i < |phi| ==> index < |phi[i]|
    ensures |r| == |phi| && forall i :: 0 <= i < |phi| ==> r[i] == phi[i][index]
  {
    seq(|phi|, i requires 0 <= i < |phi| => phi[i][index])
  }

  lemma SqrtPositive(sqrt: real -> real, x: real)
    requires IsSqrt(sqrt) && x > 0.0
    ensures sqrt(x) > 0.0
  {
  }

  /** `massNorm`: the square root of `φᵀ M φ`, floored at 1e-18 under the root. */
  function MassNorm(phi: seq<real>, mass: seq<seq<real>>, sqrt: real -> real): (r: real)
    requires Square(mass, |phi|) && IsSqrt(sqrt)
    ensures r > 0.0 && r * r == Max(Quadratic(mass, phi), MIN_MASS_NORM_SQUARED)
  {
    SqrtPositive(sqrt, Max(Quadratic(mass, phi), MIN_MASS_NORM_SQUARED));
    sqrt(Max(Quadratic(mass, phi), MIN_MASS_NORM_SQUARED))
  }

  /** `vector.map((value) => value / norm)`. */
  function MassNormalized(phi: seq<real>, mass: seq<seq<real>>, sqrt: real -> real): (r: seq<real>)
    requires Square(mass, |phi|) && IsSqrt(sqrt)
    ensures |r| == |phi|
  {
    Divided(phi, MassNorm(phi, mass, sqrt))
  }

  /** Every entry divided by `d`. */
  function Divided(v: seq<real>, d: real): (r: seq<real>)
    requires d != 0.0
    ensures |r| == |v|
  {
    seq(|v|, i requires 0 <= i < |v| => v[i] / d)
  }

  lemma DividedIsScale(v: seq<real>, d: real)
    requires d != 0.0
    ensures Divided(v, d) == Scale(v, 1.0 / d)
  {
    var u, w := Divided(v, d), Scale(v, 1.0 / d);
    forall i | 0 <= i < |v|
      ensures u[i] == w[i]
    {
      DivideAsMultiply(v[i], d, 1.0);
    }
  }

  lemma UnitQuotient(q: real, s: real)
    requires s > 0.0 && s * s == q
    ensures (1.0 / s) * ((1.0 / s) * q) == 1.0
  {
    var t := 1.0 / s;
    assert t * s == 1.0;
    calc {
      t * (t * q);
      t * (t * (s * s));
      (t * s) * (t * s);
      1.0;
    }
  }

  lemma DivideAsMultiply(a: real, m: real, s: real)
    requires m != 0.0
    ensures (a / m) * s == a * (s / m)
  {
  }

  /** A normalised mode has unit mass norm `φᵀ M φ = 1` whenever its raw norm was above the floor. */
  lemma MassNormalizedUnit(phi: seq<real>, mass: seq<seq<real>>, sqrt: real -> real)
    requires Square(mass, |phi|) && IsSqrt(sqrt)
    requires Quadratic(mass, phi) >= MIN_MASS_NORM_SQUARED
    ensures Quadratic(mass, MassNormalized(phi, mass, sqrt)) == 1.0
  {
    var norm := MassNorm(phi, mass, sqrt);
    DividedIsScale(phi, norm);
    QuadraticScale(mass, phi, 1.0 / norm);
    UnitQuotient(Quadratic(mass, phi), norm);
  }

  /** What `solveGeneralizedEigen` returns: the kept eigenvalues and their mass-normalised modes. */
  datatype GeneralizedEigen = GeneralizedEigen(eigenValues: seq<real>, eigenVectors: seq<seq<real>>)

  /** `solveGeneralizedEigen` after the library calls. */
  function EigenModes(e: Decomposition, mass: seq<seq<real>>, sqrt: real -> real): (r: Result<GeneralizedEigen>)
    requires Shaped(e, |mass|) && Square(mass, |mass|) && IsSqrt(sqrt)
    ensures r.Ok? ==> |r.value.eigenValues| == |r.value.eigenVectors|
  {
    var idx :- EigenOrder(e.values);
    EigenOrderIndices(e.values);
    Ok(GeneralizedEigen(
      seq(|idx|, k requires 0 <= k < |idx| => e.values[idx[k]]),
      seq(|idx|, k requires 0 <= k < |idx| => MassNormalized(Column(e.vectors, idx[k]), mass, sqrt))))
  }

  /**
   * The kept eigenvalues are positive, non-decreasing, at least one and at
   * most one per degree of freedom; every mode has d entries and, when its raw mass norm
   * is above the floor, unit mass norm.
   */
  lemma EigenModesSpec(e: Decomposition, mass: seq<seq<real>>, sqrt: real -> real)
    requires Shaped(e, |mass|) && Square(mass, |mass|) && IsSqrt(sqrt)
    ensures EigenModes(e, mass, sqrt).Err? <==> forall i :: 0 <= i < |e.values| ==> e.values[i] <= POSITIVE_EIGENVALUE
    ensures EigenModes(e, mass, sqrt).Ok? ==> (
      var g := EigenModes(e, mass, sqrt).value;
      1 <= |g.eigenValues| <= |mass|
      && (forall k :: 0 <= k < |g.eigenValues| ==> g.eigenValues[k] > POSITIVE_EIGENVALUE)
      && (forall k, l :: 0 <= k < l < |g.eigenValues| ==> g.eigenValues[k] <= g.eigenValues[l])
      && (forall k :: 0 <= k < |g.eigenVectors| ==> |g.eigenVectors[k]| == |mass|))
  {
    EigenOrderFails(e.values);
    if EigenOrder(e.values).Ok? {
      EigenOrderSpec(e.values);
    }
  }

  /** One pass of that loop: the mass norm of a column, then the column divided by it. */
  method NormalizeMode(vector: seq<real>, mass: seq<seq<real>>, sqrt: real -> real) returns (normalized: seq<real>)
    requires Square(mass, |vector|) && IsSqrt(sqrt)
    ensures normalized == MassNormalized(vector, mass, sqrt)
  {
    var norm := MassNorm(vector, mass, sqrt);
    normalized := seq(|vector|, i requires 0 <= i < |vector| => vector[i] / norm);
    assert normalized == Divided(vector, norm);
  }

  /** The loop at the end of `solveGeneralizedEigen`, over the kept indices. */
  method SolveGeneralizedEigen(e: Decomposition, mass: seq<seq<real>>, sqrt: real -> real) returns (r: Result<GeneralizedEigen>)
    requires Shaped(e, |mass|) && Square(mass, |mass|) && IsSqrt(sqrt)
    ensures r == EigenModes(e, mass, sqrt)
  {
    var order := EigenOrder(e.values);
    if order.Err? {
      return Err(order.error);
    }
    var indices := order.value;
    EigenOrderIndices(e.values);
    var eigenValues: seq<real> := [];
    var eigenVectors: seq<seq<real>> := [];
    for k := 0 to |indices|
      invariant |eigenValues| == |eigenVectors| == k
      invariant forall j :: 0 <= j < k ==> eigenValues[j] == e.values[indices[j]]
      invariant forall j :: 0 <= j < k ==> eigenVectors[j] == MassNormalized(Column(e.vectors, indices[j]), mass, sqrt)
    {
      var index := indices[k];
      var normalized := NormalizeMode(Column(e.vectors, index), mass, sqrt);
      eigenValues := eigenValues + [e.values[index]];
      eigenVectors := eigenVectors + [normalized];
    }
    r := Ok(GeneralizedEigen(eigenValues, eigenVectors));
    assert r.value == EigenModes(e, mass, sqrt).value;
  }

  // ---- participation ----------------------------------------------------------------------

  /** The offset of a direction inside a story's three degrees of freedom. */
  function Offset(direction: Direction): nat
  {
    if direction == X then 0 else 1
  }

  /** The influence vector of a ground motion in one direction: 1 on that direction's entries, 0 elsewhere. */
  function Influence(storyCount: nat, direction: Direction): (r: seq<real>)
    ensures |r| == 3 * storyCount
  {
    seq(3 * storyCount, k requires 0 <= k < 3 * storyCount => if k % 3 == Offset(direction) then 1.0 else 0.0)
  }

  /** `createParticipationVector`: zeros, then 1 at every story's entry for the direction. */
  method CreateParticipationVector(storyCount: nat, direction: Direction) returns (v: seq<real>)
    ensures |v| == 3 * storyCount
    ensures forall s :: 0 <= s < storyCount ==> v[Dof(s, Offset(direction))] == 1.0
    ensures forall k :: 0 <= k < 3 * storyCount && k % 3 != Offset(direction) ==> v[k] == 0.0
    ensures v == Influence(storyCount, direction)
  {
    var vector := new real[storyCount * 3](_ => 0.0);
    var offset := if direction == X then 0 else 1;
    for i := 0 to storyCount
      invariant forall k :: 0 <= k < 3 * storyCount ==>
        vector[k] == if k % 3 == offset && k / 3 < i then 1.0 else 0.0
    {
      vector[i * 3 + offset] := 1.0;
    }
    v := vector[..];
  }

  /** A participation factor `γ = φᵀ M ι`. */
  function Gamma(mode: seq<real>, mass: seq<seq<real>>, influence: seq<real>): real
    requires Square(mass, |influence|) && |mode| <= |mass|
  {
    Dot(mode, MatVec(mass, influence))
  }

  /** The effective mass ratio `γ² / mR`, or 0 when `mR` is not positive. */
  function EffectiveMassRatio(gamma: real, mR: real): (r: real)
    ensures r >= 0.0
    ensures mR > 0.0 ==> r * mR == gamma * gamma
    ensures mR <= 0.0 ==> r == 0.0
  {
    SquareNonNegative(gamma);
    if mR > 0.0 then QuotientNonNegative(gamma * gamma, mR); gamma * gamma / mR else 0.0
  }

  lemma SquareNonNegative(x: real)
    ensures x * x >= 0.0
  {
    if x < 0.0 {
      assert x * x == (-x) * (-x);
    }
  }

  lemma QuotientNonNegative(x: real, m: real)
    requires x >= 0.0 && m > 0.0
    ensures x / m >= 0.0 && (x / m) * m == x
  {
  }

  /** The two factor lists and the two ratio lists of the modal result. */
  datatype Participation = Participation(factorX: seq<real>, factorY: seq<real>, ratioX: seq<real>, ratioY: seq<real>)

  /** Mode by mode, the factors and ratios for both directions. */
  function ParticipationOf(modes: seq<seq<real>>, mass: seq<seq<real>>, ix: seq<real>, iy: seq<real>): (p: Participation)
    requires Square(mass, |ix|) && |iy| == |ix|
    requires forall k :: 0 <= k < |modes| ==> |modes[k]| == |ix|
    ensures |p.factorX| == |p.factorY| == |p.ratioX| == |p.ratioY| == |modes|
    ensures forall k :: 0 <= k < |modes| ==> p.ratioX[k] >= 0.0 && p.ratioY[k] >= 0.0
  {
    var mRx, mRy := Quadratic(mass, ix), Quadratic(mass, iy);
    Participation(
      seq(|modes|, k requires 0 <= k < |modes| => Gamma(modes[k], mass, ix)),
      seq(|modes|, k requires 0 <= k < |modes| => Gamma(modes[k], mass, iy)),
      seq(|modes|, k requires 0 <= k < |modes| => EffectiveMassRatio(Gamma(modes[k], mass, ix), mRx)),
      seq(|modes|, k requires 0 <= k < |modes| => EffectiveMassRatio(Gamma(modes[k], mass, iy), mRy)))
  }

  /** The loop of `dot`. */
  method DotProduct(a: seq<real>, b: seq<real>) returns (sum: real)
    requires |a| <= |b|
    ensures sum == Dot(a, b)
  {
    sum := 0.0;
    for i := 0 to |a|
      invariant sum == Dot(a[..i], b)
    {
      assert a[..i + 1][..i] == a[..i];
      sum := sum + a[i] * b[i];
    }
    assert a[..|a|] == a;
  }

  /** `matVec`, one `dot` per row. */
  method MatrixVector(m: seq<seq<real>>, v: seq<real>) returns (r: seq<real>)
    requires forall i :: 0 <= i < |m| ==> |m[i]| <= |v|
    ensures r == MatVec(m, v)
  {
    r := [];
    for i := 0 to |m|
      invariant r == seq(i, k requires 0 <= k < i => Dot(m[k], v))
    {
      var d := DotProduct(m[i], v);
      r := r + [d];
    }
  }

  /** One mode and one direction of that loop: `γ = dot(mode, M ι)` and its effective mass ratio. */
  method FactorAndRatio(mode: seq<real>, mv: seq<real>, mR: real) returns (gamma: real, ratio: real)
    requires |mode| <= |mv|
    ensures gamma == Dot(mode, mv) && ratio == EffectiveMassRatio(gamma, mR)
  {
    gamma := DotProduct(mode, mv);
    ratio := if mR > 0.0 then (gamma * gamma) / mR else 0.0;
  }

  /** The participation loop of `analyzeRealEigen`. */
  method ParticipationFactors(modes: seq<seq<real>>, mass: seq<seq<real>>, ix: seq<real>, iy: seq<real>)
    returns (p: Participation)
    requires Square(mass, |ix|) && |iy| == |ix|
    requires forall k :: 0 <= k < |modes| ==> |modes[k]| == |ix|
    ensures p == ParticipationOf(modes, mass, ix, iy)
  {
    var mx := MatrixVector(mass, ix);
    var my := MatrixVector(mass, iy);
    var mRx := DotProduct(ix, mx);
    var mRy := DotProduct(iy, my);
    assert mRx == Quadratic(mass, ix) && mRy == Quadratic(mass, iy);
    var factorX, factorY, ratioX, ratioY := [], [], [], [];
    for k := 0 to |modes|
      invariant |factorX| == |factorY| == |ratioX| == |ratioY| == k
      invariant forall j :: 0 <= j < k ==> factorX[j] == Gamma(modes[j], mass, ix) && factorY[j] == Gamma(modes[j], mass, iy)
      invariant forall j :: 0 <= j < k ==> ratioX[j] == EffectiveMassRatio(Gamma(modes[j], mass, ix), mRx)
      invariant forall j :: 0 <= j < k ==> ratioY[j] == EffectiveMassRatio(Gamma(modes[j], mass, iy), mRy)
    {
      var gammaX, rX := FactorAndRatio(modes[k], mx, mRx);
      var gammaY, rY := FactorAndRatio(modes[k], my, mRy);
      factorX := factorX + [gammaX];
      factorY := factorY + [gammaY];
      ratioX := ratioX + [rX];
      ratioY := ratioY + [rY];
    }
    p := Participation(factorX, factorY, ratioX, ratioY);
  }

  // ---- readable modes -------------------------------------------------------------------------

  /** The index of the first entry above the sign anchor's magnitude, or |mode| when there is none. */
  function AnchorIndex(mode: seq<real>): (k: nat)
    ensures k <= |mode|
    ensures k < |mode| ==> Abs(mode[k]) > SIGN_ANCHOR
    ensures forall j :: 0 <= j < k ==> Abs(mode[j]) <= SIGN_ANCHOR
  {
    if mode == [] then 0
    else if Abs(mode[0]) > SIGN_ANCHOR then 0
    else 1 + AnchorIndex(mode[1..])
  }

  /** `mode.find((value) => Math.abs(value) > 1e-10) ?? 1`. */
  function SignAnchor(mode: seq<real>): real
  {
    if AnchorIndex(mode) < |mode| then mode[AnchorIndex(mode)] else 1.0
  }

  /** One mode of `normalizeReadableModes`. */
  function ReadableMode(mode: seq<real>): (r: seq<real>)
    ensures |r| == |mode|
  {
    var maxAbs := AbsMax(mode);
    if maxAbs < NEGLIGIBLE_MODE then mode
    else
      var sign := if SignAnchor(mode) >= 0.0 then 1.0 else -1.0;
      Quotients(mode, maxAbs, sign)
  }

  /** Every entry divided by `m`, then multiplied by `sign`. */
  function Quotients(mode: seq<real>, m: real, sign: real): (r: seq<real>)
    requires m != 0.0
    ensures |r| == |mode| && forall i :: 0 <= i < |mode| ==> r[i] == (mode[i] / m) * sign
  {
    seq(|mode|, i requires 0 <= i < |mode| => (mode[i] / m) * sign)
  }

  lemma QuotientsAreScale(mode: seq<real>, m: real, sign: real)
    requires m != 0.0
    ensures Quotients(mode, m, sign) == Scale(mode, sign / m)
  {
    var r, scaled := Quotients(mode, m, sign), Scale(mode, sign / m);
    forall i | 0 <= i < |mode|
      ensures r[i] == scaled[i]
    {
      DivideAsMultiply(mode[i], m, sign);
    }
  }

  /** `normalizeReadableModes`. */
  function ReadableModes(modes: seq<seq<real>>): (r: seq<seq<real>>)
    ensures |r| == |modes| && forall k :: 0 <= k < |modes| ==> |r[k]| == |modes[k]|
  {
    seq(|modes|, k requires 0 <= k < |modes| => ReadableMode(modes[k]))
  }

  /** A readable mode is the mode times a non-zero factor: the same shape. */
  lemma ReadableModeSameShape(mode: seq<real>)
    ensures exists c :: c != 0.0 && ReadableMode(mode) == Scale(mode, c)
  {
    var maxAbs := AbsMax(mode);
    if maxAbs < NEGLIGIBLE_MODE {
      assert ReadableMode(mode) == Scale(mode, 1.0);
    } else {
      var sign := if SignAnchor(mode) >= 0.0 then 1.0 else -1.0;
      var c := sign / maxAbs;
      QuotientsAreScale(mode, maxAbs, sign);
      assert c != 0.0;
    }
  }

  lemma QuotientBound(x: real, m: real)
    requires m > 0.0 && Abs(x) <= m
    ensures Abs(x / m) <= 1.0 && (Abs(x) == m ==> Abs(x / m) == 1.0)
  {
    var q := x / m;
    AbsQuotient(x, m);
    if Abs(q) > 1.0 {
      MultiplyStrict(Abs(q), 1.0, m);
    }
    if Abs(x) == m {
      UnitFactor(Abs(q), m, Abs(x));
    }
  }

  lemma UnitFactor(a: real, m: real, product: real)
    requires a * m == product && product == m && m > 0.0
    ensures a == 1.0
  {
    assert (a - 1.0) * m == 0.0;
  }

  lemma AbsQuotient(x: real, m: real)
    requires m > 0.0
    ensures Abs(x / m) * m == Abs(x)
  {
    var q := x / m;
    assert q * m == x;
    if q < 0.0 {
      assert (-q) * m == -x;
    }
  }

  lemma SignedQuotientPositive(a: real, m: real)
    requires a != 0.0 && m > 0.0
    ensures (a / m) * (if a >= 0.0 then 1.0 else -1.0) > 0.0
  {
    var q := a / m;
    assert q * m == a;
  }

  lemma MultiplyStrict(a: real, b: real, m: real)
    requires a > b && m > 0.0
    ensures a * m > b * m
  {
    assert (a - b) * m > 0.0;
  }

  lemma MultiplyCancel(a: real, b: real, m: real)
    requires a * m == b * m && m > 0.0
    ensures a == b
  {
    if a > b {
      MultiplyStrict(a, b, m);
    } else if b > a {
      MultiplyStrict(b, a, m);
    }
  }

  /**
   * A mode that is not negligible becomes one whose largest magnitude is
   * exactly 1, and whose anchor entry (the first above 1e-10 in the mode) is
   * positive; a negligible mode is left as it is.
   */
  lemma ReadableModeSpec(mode: seq<real>)
    ensures AbsMax(mode) < NEGLIGIBLE_MODE ==> ReadableMode(mode) == mode
    ensures AbsMax(mode) >= NEGLIGIBLE_MODE ==> AbsMax(ReadableMode(mode)) == 1.0
    ensures AbsMax(mode) >= NEGLIGIBLE_MODE && AnchorIndex(mode) < |mode| ==> ReadableMode(mode)[AnchorIndex(mode)] > 0.0
  {
    var maxAbs := AbsMax(mode);
    if maxAbs >= NEGLIGIBLE_MODE {
      var sign := if SignAnchor(mode) >= 0.0 then 1.0 else -1.0;
      assert ReadableMode(mode) == Quotients(mode, maxAbs, sign);
      QuotientsMax(mode, maxAbs, sign);
      var k := AnchorIndex(mode);
      if k < |mode| {
        assert SignAnchor(mode) == mode[k];
        SignedQuotientPositive(mode[k], maxAbs);
      }
    }
  }

  /** Dividing by the largest magnitude and flipping the sign or not leaves a largest magnitude of exactly 1. */
  lemma QuotientsMax(mode: seq<real>, m: real, sign: real)
    requires m > 0.0 && m == AbsMax(mode) && (sign == 1.0 || sign == -1.0)
    ensures AbsMax(Quotients(mode, m, sign)) == 1.0
  {
    var r := Quotients(mode, m, sign);
    AbsMaxIsMax(mode);
    QuotientsBounded(mode, m, sign);
    AbsMaxIsMax(r);
    var top :| 0 <= top < |mode| && Abs(mode[top]) == m;
    assert Abs(r[top]) == 1.0;
    var w :| 0 <= w < |r| && Abs(r[w]) == AbsMax(r);
  }

  lemma QuotientsBounded(mode: seq<real>, m: real, sign: real)
    requires m > 0.0 && (sign == 1.0 || sign == -1.0)
    requires forall i :: 0 <= i < |mode| ==> Abs(mode[i]) <= m
    ensures forall i :: 0 <= i < |mode| ==>
      Abs(Quotients(mode, m, sign)[i]) <= 1.0 && (Abs(mode[i]) == m ==> Abs(Quotients(mode, m, sign)[i]) == 1.0)
  {
    var r := Quotients(mode, m, sign);
    forall i | 0 <= i < |mode|
      ensures Abs(r[i]) <= 1.0 && (Abs(mode[i]) == m ==> Abs(r[i]) == 1.0)
    {
      EntryBound(mode[i], m, sign, r[i]);
    }
  }

  lemma EntryBound(x: real, m: real, sign: real, y: real)
    requires m > 0.0 && Abs(x) <= m && (sign == 1.0 || sign == -1.0) && y == (x / m) * sign
    ensures Abs(y) <= 1.0 && (Abs(x) == m ==> Abs(y) == 1.0)
  {
    QuotientBound(x, m);
    SignedAbs(x / m, sign);
  }

  lemma SignedAbs(q: real, sign: real)
    requires sign == 1.0 || sign == -1.0
    ensures Abs(q * sign) == Abs(q)
  {
  }
}
