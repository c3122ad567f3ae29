/*
 * The complex eigen analysis of the damped building (src/core/analysis/complex.ts):
 * the first-order state matrix of `M ü + C u̇ + K u = 0`, reading the
 * eigenpairs the eigen library returns, normalising and labelling each
 * mode's displacements, the damping ratio of a pole, and the filtering,
 * ordering, truncation and numbering of the modes.
 *
 * The library calls (`inverse`, `mmul`, `eigs`) and `Math.hypot` and
 * `Math.atan2` are parameters; the model states what it needs of them as
 * predicates on the parameters.
 */
module ComplexEigen {
  import opened Results
  import opened Numbers
  import opened Strings
  import opened Values
  import opened Building
  import opened LinAlg
  import opened Sorting
  import opened StoryBlocks
  import opened MatrixAssembly
  import RealEigen
  import RealAnalysis

  /** Poles with an imaginary part at most this are not oscillating modes; smaller magnitudes have no damping ratio. */
  const EIGEN_EPS: real := 0.000000001

  /** A mode vector whose largest amplitude is below this is left as it is. */
  const NEGLIGIBLE_AMPLITUDE: real := 0.000000000000001

  /** The phase anchor is the first entry whose amplitude exceeds this. */
  const PHASE_ANCHOR: real := 0.000000000001

  /** A complex number `re + i·im`. */
  datatype ComplexValue = ComplexValue(re: real, im: real)

  // ---- reading the library's numbers ----------------------------------------------------------

  /** `key in v` with a number under it. */
  predicate NumberField(v: Value, key: string)
  {
    Get(v, key).Some? && Get(v, key).value.JNum?
  }

  /**
   * `toComplexValue`: a number is a real value; a record whose `re` and `im`
   * are numbers is that complex value; anything else is refused.
   */
  function ToComplexValue(value: Option<Value>): (r: Result<ComplexValue>)
    ensures r.Err? ==> r == FormatFailure("Complex analysis: unsupported complex number representation.")
    ensures r.Ok? <==> value.Some? && (value.value.JNum? || (NumberField(value.value, "re") && NumberField(value.value, "im")))
  {
    if value.Some? && value.value.JNum? then Ok(ComplexValue(value.value.n, 0.0))
    else if value.Some? && NumberField(value.value, "re") && NumberField(value.value, "im") then
      Ok(ComplexValue(Get(value.value, "re").value.n, Get(value.value, "im").value.n))
    else FormatFailure("Complex analysis: unsupported complex number representation.")
  }

  /** A complex value written as `{re, im}` reads back as itself, and a plain number as a value with no imaginary part. */
  lemma ToComplexValueReadsBack(c: ComplexValue, x: real)
    ensures ToComplexValue(Some(JObj([("re", JNum(c.re)), ("im", JNum(c.im))]))) == Ok(c)
    ensures ToComplexValue(Some(JNum(x))) == Ok(ComplexValue(x, 0.0))
  {
    var fields := [("re", JNum(c.re)), ("im", JNum(c.im))];
    assert Lookup(fields, "re") == Some(JNum(c.re));
    assert fields[1..] == [("im", JNum(c.im))];
    assert Lookup(fields, "im") == Some(JNum(c.im));
  }

  /** `entries.map(toComplexValue)`: every entry converted, or the first entry's error. */
  function ToComplexValues(entries: seq<Value>): (r: Result<seq<ComplexValue>>)
    ensures r.Ok? ==> (|r.value| == |entries|
      && forall k :: 0 <= k < |entries| ==> ToComplexValue(Some(entries[k])) == Ok(r.value[k]))
    ensures r.Err? <==> exists k :: 0 <= k < |entries| && ToComplexValue(Some(entries[k])).Err?
  {
    if entries == [] then Ok([])
    else
      var head :- ToComplexValue(Some(entries[0]));
      var tail :- ToComplexValues(entries[1..]);
      assert forall k :: 1 <= k < |entries| ==> entries[k] == entries[1..][k - 1];
      Ok([head] + tail)
  }

  // ---- normalising a mode ------------------------------------------------------------------

  /** `complexAbs`: the modulus through `Math.hypot`. */
  function ComplexAbs(v: ComplexValue, hypot: (real, real) -> real): real
  {
    hypot(v.re, v.im)
  }

  /** `values.reduce((max, value) => Math.max(max, complexAbs(value)), 0)`. */
  function MaxAmplitude(values: seq<ComplexValue>, hypot: (real, real) -> real): real
  {
    if values == [] then 0.0 else Max(MaxAmplitude(values[..|values| - 1], hypot), ComplexAbs(values[|values| - 1], hypot))
  }

  /** The largest amplitude bounds every amplitude and, for a non-empty vector, is one of them. */
  lemma {:induction false} MaxAmplitudeIsMax(values: seq<ComplexValue>, hypot: (real, real) -> real)
    requires IsHypot(hypot)
    ensures MaxAmplitude(values, hypot) >= 0.0
    ensures forall k :: 0 <= k < |values| ==> ComplexAbs(values[k], hypot) <= MaxAmplitude(values, hypot)
    ensures values != [] ==> exists k :: 0 <= k < |values| && ComplexAbs(values[k], hypot) == MaxAmplitude(values, hypot)
  {
    if values != [] {
      var init := values[..|values| - 1];
      MaxAmplitudeIsMax(init, hypot);
      assert forall k :: 0 <= k < |init| ==> values[k] == init[k];
      assert ComplexAbs(values[|values| - 1], hypot) >= 0.0;
      if init != [] && MaxAmplitude(init, hypot) >= ComplexAbs(values[|values| - 1], hypot) {
        var k :| 0 <= k < |init| && ComplexAbs(init[k], hypot) == MaxAmplitude(init, hypot);
        assert ComplexAbs(values[k], hypot) == MaxAmplitude(values, hypot);
      }
    }
  }

  /** `values.find((value) => complexAbs(value) > 1e-12)`: its index, or |values| when there is none. */
  function PhaseAnchor(values: seq<ComplexValue>, hypot: (real, real) -> real): (k: nat)
    ensures k <= |values|
    ensures k < |values| ==> ComplexAbs(values[k], hypot) > PHASE_ANCHOR
    ensures forall j :: 0 <= j < k ==> ComplexAbs(values[j], hypot) <= PHASE_ANCHOR
  {
    if values == [] then 0
    else if ComplexAbs(values[0], hypot) > PHASE_ANCHOR then 0
    else
      var k := PhaseAnchor(values[1..], hypot);
      assert forall j :: 1 <= j < 1 + k ==> values[j] == values[1..][j - 1];
      1 + k
  }

  /** -1 when the anchor has a negative real part, else 1. */
  function PhaseSign(values: seq<ComplexValue>, hypot: (real, real) -> real): real
  {
    var k := PhaseAnchor(values, hypot);
    if k < |values| && values[k].re < 0.0 then -1.0 else 1.0
  }

  /** One entry divided by `m`, then times `sign`, part by part. */
  function RescaledEntry(v: ComplexValue, m: real, sign: real): ComplexValue
    requires m != 0.0
  {
    ComplexValue((v.re / m) * sign, (v.im / m) * sign)
  }

  /** Every entry rescaled. */
  function Rescaled(values: seq<ComplexValue>, m: real, sign: real): (r: seq<ComplexValue>)
    requires m != 0.0
    ensures |r| == |values| && forall k :: 0 <= k < |values| ==> r[k] == RescaledEntry(values[k], m, sign)
  {
    seq(|values|, k requires 0 <= k < |values| => RescaledEntry(values[k], m, sign))
  }

  /** `normalizeModeVector`: unchanged when negligible, otherwise scaled to a largest amplitude of one with the anchor's real part made non-negative. */
  function NormalizeModeVector(values: seq<ComplexValue>, hypot: (real, real) -> real): (r: seq<ComplexValue>)
    ensures |r| == |values|
  {
    var maxAmp := MaxAmplitude(values, hypot);
    if maxAmp < NEGLIGIBLE_AMPLITUDE then values else Rescaled(values, maxAmp, PhaseSign(values, hypot))
  }

  lemma SignSquare(q: real, sign: real)
    requires sign == 1.0 || sign == -1.0
    ensures (q * sign) * (q * sign) == q * q
  {
  }

  lemma SquareOfQuotient(x: real, m: real)
    requires m != 0.0
    ensures ((x / m) * (x / m)) * (m * m) == x * x
  {
    var q := x / m;
    assert q * m == x;
    assert (q * q) * (m * m) == (q * m) * (q * m);
  }

  /** Rescaling by `sign / m` divides the amplitude by `m`. */
  lemma RescaledAmplitude(x: real, y: real, m: real, sign: real, hypot: (real, real) -> real)
    requires IsHypot(hypot) && m > 0.0 && (sign == 1.0 || sign == -1.0)
    ensures hypot((x / m) * sign, (y / m) * sign) * m == hypot(x, y)
  {
    var a, b := (x / m) * sign, (y / m) * sign;
    var h', h := hypot(a, b), hypot(x, y);
    assert h' >= 0.0 && h' * h' == a * a + b * b;
    assert h >= 0.0 && h * h == x * x + y * y;
    SignSquare(x / m, sign);
    SignSquare(y / m, sign);
    SquareOfQuotient(x, m);
    SquareOfQuotient(y, m);
    var u := h' * m;
    assert u * u == (h' * h') * (m * m);
    assert (a * a + b * b) * (m * m) == ((x / m) * (x / m)) * (m * m) + ((y / m) * (y / m)) * (m * m);
    SquareInjective(u, h);
  }

  lemma QuotientSign(v: ComplexValue, m: real, sign: real)
    requires m > 0.0 && sign == (if v.re < 0.0 then -1.0 else 1.0)
    ensures RescaledEntry(v, m, sign).re >= 0.0
  {
    var q := v.re / m;
    assert q * m == v.re;
    if v.re < 0.0 {
      assert q < 0.0;
    } else {
      assert q >= 0.0;
    }
  }

  /** `r` is `values` times the real factor `c`, entry by entry. */
  predicate ScaledBy(r: seq<ComplexValue>, values: seq<ComplexValue>, c: real)
  {
    |r| == |values| && forall k :: 0 <= k < |values| ==> r[k] == ComplexValue(values[k].re * c, values[k].im * c)
  }

  /** Every amplitude of `r` is the matching amplitude of `values` divided by `m`. */
  predicate AmplitudesDividedBy(r: seq<ComplexValue>, values: seq<ComplexValue>, m: real, hypot: (real, real) -> real)
  {
    |r| == |values| && forall k :: 0 <= k < |values| ==> ComplexAbs(r[k], hypot) * m == ComplexAbs(values[k], hypot)
  }

  /** Rescaling by `sign / m` multiplies by one factor and divides every amplitude by `m`. */
  lemma RescaledFacts(values: seq<ComplexValue>, m: real, sign: real, hypot: (real, real) -> real)
    requires IsHypot(hypot) && m > 0.0 && (sign == 1.0 || sign == -1.0)
    ensures ScaledBy(Rescaled(values, m, sign), values, sign / m)
    ensures AmplitudesDividedBy(Rescaled(values, m, sign), values, m, hypot)
  {
    var r := Rescaled(values, m, sign);
    forall k | 0 <= k < |values|
      ensures r[k] == ComplexValue(values[k].re * (sign / m), values[k].im * (sign / m))
      ensures ComplexAbs(r[k], hypot) * m == ComplexAbs(values[k], hypot)
    {
      RealEigen.DivideAsMultiply(values[k].re, m, sign);
      RealEigen.DivideAsMultiply(values[k].im, m, sign);
      RescaledAmplitude(values[k].re, values[k].im, m, sign, hypot);
    }
  }

  /** A negligible vector is kept as it is; any other is the vector times one non-zero factor. */
  lemma NormalizeModeVectorScaled(values: seq<ComplexValue>, hypot: (real, real) -> real)
    requires IsHypot(hypot)
    ensures MaxAmplitude(values, hypot) < NEGLIGIBLE_AMPLITUDE ==> NormalizeModeVector(values, hypot) == values
    ensures MaxAmplitude(values, hypot) >= NEGLIGIBLE_AMPLITUDE ==>
      exists c :: c != 0.0 && ScaledBy(NormalizeModeVector(values, hypot), values, c)
  {
    var m := MaxAmplitude(values, hypot);
    if m >= NEGLIGIBLE_AMPLITUDE {
      var sign := PhaseSign(values, hypot);
      RescaledFacts(values, m, sign, hypot);
      assert NormalizeModeVector(values, hypot) == Rescaled(values, m, sign);
      assert sign / m != 0.0 && ScaledBy(NormalizeModeVector(values, hypot), values, sign / m);
    }
  }

  /** Amplitudes divided by their maximum are at most one, and the maximum's becomes one. */
  lemma UnitAmplitudes(r: seq<ComplexValue>, values: seq<ComplexValue>, m: real, top: nat, hypot: (real, real) -> real)
    requires AmplitudesDividedBy(r, values, m, hypot) && m > 0.0 && top < |values| && ComplexAbs(values[top], hypot) == m
    requires forall k :: 0 <= k < |values| ==> 0.0 <= ComplexAbs(values[k], hypot) <= m
    ensures forall k :: 0 <= k < |r| ==> ComplexAbs(r[k], hypot) <= 1.0
    ensures ComplexAbs(r[top], hypot) == 1.0
  {
    RealEigen.MultiplyCancel(ComplexAbs(r[top], hypot), 1.0, m);
  }

  /**
   * Normalising a vector that is not negligible makes its largest amplitude
   * exactly one.
   */
  lemma NormalizeModeVectorUnit(values: seq<ComplexValue>, hypot: (real, real) -> real)
    requires IsHypot(hypot) && MaxAmplitude(values, hypot) >= NEGLIGIBLE_AMPLITUDE
    ensures forall k :: 0 <= k < |values| ==> ComplexAbs(NormalizeModeVector(values, hypot)[k], hypot) <= 1.0
    ensures exists k :: 0 <= k < |values| && ComplexAbs(NormalizeModeVector(values, hypot)[k], hypot) == 1.0
  {
    var m := MaxAmplitude(values, hypot);
    var sign := PhaseSign(values, hypot);
    MaxAmplitudeIsMax(values, hypot);
    RescaledUnit(values, m, sign, hypot);
    assert NormalizeModeVector(values, hypot) == Rescaled(values, m, sign);
  }

  /** Rescaling by a largest amplitude `m` gives amplitudes at most one, one of them one. */
  lemma RescaledUnit(values: seq<ComplexValue>, m: real, sign: real, hypot: (real, real) -> real)
    requires IsHypot(hypot) && m > 0.0 && (sign == 1.0 || sign == -1.0)
    requires forall k :: 0 <= k < |values| ==> ComplexAbs(values[k], hypot) <= m
    requires exists k :: 0 <= k < |values| && ComplexAbs(values[k], hypot) == m
    ensures forall k :: 0 <= k < |values| ==> ComplexAbs(Rescaled(values, m, sign)[k], hypot) <= 1.0
    ensures exists k :: 0 <= k < |values| && ComplexAbs(Rescaled(values, m, sign)[k], hypot) == 1.0
  {
    var r := Rescaled(values, m, sign);
    RescaledFacts(values, m, sign, hypot);
    var top :| 0 <= top < |values| && ComplexAbs(values[top], hypot) == m;
    UnitAmplitudes(r, values, m, top, hypot);
  }

  /** Normalising a vector that is not negligible gives the first entry of non-negligible amplitude a non-negative real part. */
  lemma NormalizeModeVectorAnchor(values: seq<ComplexValue>, hypot: (real, real) -> real)
    requires MaxAmplitude(values, hypot) >= NEGLIGIBLE_AMPLITUDE && PhaseAnchor(values, hypot) < |values|
    ensures NormalizeModeVector(values, hypot)[PhaseAnchor(values, hypot)].re >= 0.0
  {
    var m := MaxAmplitude(values, hypot);
    var anchor := PhaseAnchor(values, hypot);
    var sign := PhaseSign(values, hypot);
    var r := Rescaled(values, m, sign);
    assert NormalizeModeVector(values, hypot) == r;
    assert r[anchor] == RescaledEntry(values[anchor], m, sign);
    QuotientSign(values[anchor], m, sign);
  }

  // ---- labels, vectors and damping ratios ------------------------------------------------------

  /** `componentLabel`: DX, DY or RZ by the index modulo 3, then the story numbered from one. */
  function ComponentLabel(dofIndex: nat): string
  {
    var story := dofIndex / 3 + 1;
    var axis := dofIndex % 3;
    if axis == 0 then "DX_" + NatToString(story)
    else if axis == 1 then "DY_" + NatToString(story)
    else "RZ_" + NatToString(story)
  }

  /** The component labels of a mode are the degree-of-freedom labels of the assembled matrices. */
  lemma ComponentLabelIsDofLabel(storyCount: nat, dofIndex: nat)
    requires dofIndex < 3 * storyCount
    ensures ComponentLabel(dofIndex) == DofLabels(storyCount)[dofIndex]
  {
    var s, axis := dofIndex / 3, dofIndex % 3;
    assert dofIndex == Dof(s, axis) && s < storyCount;
    var labels := DofLabels(storyCount);
    if axis == 0 {
      assert labels[Dof(s, 0)] == "DX_" + NatToString(s + 1);
    } else if axis == 1 {
      assert labels[Dof(s, 1)] == "DY_" + NatToString(s + 1);
    } else {
      assert labels[Dof(s, 2)] == "RZ_" + NatToString(s + 1);
    }
  }

  /** `formatComplexVectors`: the normalised displacements, each with its label, amplitude, phase and parts. */
  function FormatComplexVectors(displacements: seq<ComplexValue>, hypot: (real, real) -> real,
                                atan2: (real, real) -> real): (r: seq<ComplexModeVector>)
    ensures |r| == |displacements|
    ensures forall k :: 0 <= k < |r| ==> r[k].component == ComponentLabel(k)
  {
    var normalized := NormalizeModeVector(displacements, hypot);
    seq(|normalized|, k requires 0 <= k < |normalized| =>
      ComplexModeVector(ComponentLabel(k), ComplexAbs(normalized[k], hypot), atan2(normalized[k].im, normalized[k].re),
                        Some(normalized[k].re), Some(normalized[k].im)))
  }

  /** The amplitudes written for a mode are at most one, and one of them is one, unless the mode is negligible. */
  lemma FormatComplexVectorsAmplitudes(displacements: seq<ComplexValue>, hypot: (real, real) -> real,
                                       atan2: (real, real) -> real)
    requires IsHypot(hypot) && MaxAmplitude(displacements, hypot) >= NEGLIGIBLE_AMPLITUDE
    ensures var r := FormatComplexVectors(displacements, hypot, atan2);
      (forall k :: 0 <= k < |r| ==> r[k].amplitude <= 1.0)
      && (exists k :: 0 <= k < |r| && r[k].amplitude == 1.0)
  {
    NormalizeModeVectorUnit(displacements, hypot);
    var normalized := NormalizeModeVector(displacements, hypot);
    var top :| 0 <= top < |displacements| && ComplexAbs(normalized[top], hypot) == 1.0;
    assert FormatComplexVectors(displacements, hypot, atan2)[top].amplitude == 1.0;
  }

  /** `dampingRatioPercent`: 0 for a pole of modulus below 1e-9, else `-re/|λ|` as a percentage. */
  function DampingRatioPercent(lambda: ComplexValue, hypot: (real, real) -> real): real
  {
    var magnitude := hypot(lambda.re, lambda.im);
    if magnitude < EIGEN_EPS then 0.0 else (-lambda.re / magnitude) * 100.0
  }

  lemma RealPartBound(re: real, im: real, magnitude: real)
    requires magnitude >= 0.0 && magnitude * magnitude == re * re + im * im
    ensures Abs(re) <= magnitude
  {
    assert Abs(re) * Abs(re) == re * re;
    if Abs(re) > magnitude {
      SquareStrict(magnitude, Abs(re));
    }
  }

  lemma RatioBound(x: real, m: real)
    requires m > 0.0 && Abs(x) <= m
    ensures -100.0 <= (-x / m) * 100.0 <= 100.0
  {
    var q := -x / m;
    assert q * m == -x;
  }

  lemma RatioSign(x: real, m: real)
    requires m > 0.0
    ensures (-x / m) * 100.0 > 0.0 <==> x < 0.0
  {
    var q := -x / m;
    assert q * m == -x;
  }

  lemma RatioOfPole(zeta: real, m: real)
    requires m > 0.0
    ensures (-(-(zeta * m)) / m) * 100.0 == zeta * 100.0
  {
  }

  /**
   * The damping ratio is a percentage between -100 and 100; for a pole of
   * modulus at least 1e-9 it is positive exactly when the pole lies in the
   * left half-plane, and a pole `ω(−ζ ± i·√(1−ζ²))` gives `100ζ`.
   */
  lemma DampingRatioPercentSpec(lambda: ComplexValue, hypot: (real, real) -> real, zeta: real)
    requires IsHypot(hypot)
    ensures -100.0 <= DampingRatioPercent(lambda, hypot) <= 100.0
    ensures ComplexAbs(lambda, hypot) >= EIGEN_EPS ==> (DampingRatioPercent(lambda, hypot) > 0.0 <==> lambda.re < 0.0)
    ensures ComplexAbs(lambda, hypot) >= EIGEN_EPS && lambda.re == -(zeta * ComplexAbs(lambda, hypot)) ==>
      DampingRatioPercent(lambda, hypot) == zeta * 100.0
  {
    var magnitude := hypot(lambda.re, lambda.im);
    if magnitude >= EIGEN_EPS {
      RealPartBound(lambda.re, lambda.im, magnitude);
      RatioBound(lambda.re, magnitude);
      RatioSign(lambda.re, magnitude);
      RatioOfPole(zeta, magnitude);
    }
  }

  // ---- reading the eigenpairs -------------------------------------------------------------

  /** `Math.abs(im) / (2π)`: the frequency in Hz of a pole with imaginary part `im`. */
  function PoleFrequency(im: real): real
  {
    Abs(im) / (2.0 * PI)
  }

  lemma PoleFrequencyPositive(im: real)
    requires im > 0.0
    ensures PoleFrequency(im) > 0.0
  {
    var q := PoleFrequency(im);
    assert q * (2.0 * PI) == im;
  }

  /** What every mode `parseComplexEigsResult` pushes satisfies, before it is numbered. */
  predicate ValidMode(m: ComplexMode, dof: nat, hypot: (real, real) -> real)
  {
    m.eigenValueReal.Some? && m.eigenValueImag.Some? && m.eigenValueImag.value > EIGEN_EPS
    && m.frequencyHz == PoleFrequency(m.eigenValueImag.value) && m.frequencyHz > 0.0
    && m.dampingRatioPercent == DampingRatioPercent(ComplexValue(m.eigenValueReal.value, m.eigenValueImag.value), hypot)
    && |m.vectors| == dof && forall i :: 0 <= i < dof ==> m.vectors[i].component == ComponentLabel(i)
  }

  /**
   * One turn of the loop over `eigenvectors`: the mode it pushes, none when
   * the pole does not oscillate or its vector is missing or too short, or
   * the error a value it reads raises.
   */
  function CandidateOf(item: Value, dof: nat, hypot: (real, real) -> real, atan2: (real, real) -> real)
    : (r: Result<Option<ComplexMode>>)
    ensures r.Ok? && r.value.Some? ==> ValidMode(r.value.value, dof, hypot) && r.value.value.mode == 0.0
  {
    if item.JNull? then PlainFailure("Cannot read properties of null (reading 'value')")
    else
      var lambda :- ToComplexValue(Get(item, "value"));
      if lambda.im <= EIGEN_EPS then Ok(None)
      else match Get(item, "vector")
        case Some(JArr(entries)) =>
          if |entries| < dof then Ok(None)
          else
            var displacement :- ToComplexValues(entries[..dof]);
            var vectors := FormatComplexVectors(displacement, hypot, atan2);
            var frequencyHz := PoleFrequency(lambda.im);
            if frequencyHz <= 0.0 then Ok(None)
            else Ok(Some(ComplexMode(0.0, frequencyHz, DampingRatioPercent(lambda, hypot),
                                     Some(lambda.re), Some(lambda.im), vectors)))
        case _ => Ok(None)
  }

  /**
   * A readable eigenpair is kept exactly when its pole has an imaginary part
   * above 1e-9 and its vector holds at least `dof` entries: the frequency
   * filter never drops a mode, since such a pole has a positive frequency.
   */
  lemma CandidateKept(item: Value, dof: nat, hypot: (real, real) -> real, atan2: (real, real) -> real)
    requires CandidateOf(item, dof, hypot, atan2).Ok?
    ensures CandidateOf(item, dof, hypot, atan2).value.Some? <==>
      ToComplexValue(Get(item, "value")).value.im > EIGEN_EPS
      && Get(item, "vector").Some? && Get(item, "vector").value.JArr? && |Get(item, "vector").value.items| >= dof
  {
    var lambda := ToComplexValue(Get(item, "value")).value;
    if lambda.im > EIGEN_EPS {
      PoleFrequencyPositive(lambda.im);
    }
  }

  /** The loop over `eigenvectors`: the modes pushed, in order, or the first error raised. */
  function Candidates(items: seq<Value>, dof: nat, hypot: (real, real) -> real, atan2: (real, real) -> real)
    : (r: Result<seq<ComplexMode>>)
    ensures r.Ok? ==> (|r.value| <= |items|
      && forall k :: 0 <= k < |r.value| ==> ValidMode(r.value[k], dof, hypot) && r.value[k].mode == 0.0)
  {
    if items == [] then Ok([])
    else
      var before :- Candidates(items[..|items| - 1], dof, hypot, atan2);
      var step :- CandidateOf(items[|items| - 1], dof, hypot, atan2);
      Ok(before + (if step.Some? then [step.value] else []))
  }

  /** An error from any item is the loop's error exactly when every earlier item was read. */
  lemma {:induction false} CandidatesOk(items: seq<Value>, dof: nat, hypot: (real, real) -> real, atan2: (real, real) -> real)
    ensures Candidates(items, dof, hypot, atan2).Ok? <==>
      forall k :: 0 <= k < |items| ==> CandidateOf(items[k], dof, hypot, atan2).Ok?
  {
    if items != [] {
      var init, last := items[..|items| - 1], items[|items| - 1];
      CandidatesOk(init, dof, hypot, atan2);
      assert Candidates(items, dof, hypot, atan2).Ok? <==>
        Candidates(init, dof, hypot, atan2).Ok? && CandidateOf(last, dof, hypot, atan2).Ok?;
      forall k | 0 <= k < |init|
        ensures init[k] == items[k]
      {
      }
    }
  }

  /** One more turn of the loop over `eigenvectors`. */
  lemma CandidatesStep(items: seq<Value>, k: nat, dof: nat, hypot: (real, real) -> real, atan2: (real, real) -> real)
    requires k < |items| && Candidates(items[..k], dof, hypot, atan2).Ok?
    ensures CandidateOf(items[k], dof, hypot, atan2).Err? ==>
      Candidates(items[..k + 1], dof, hypot, atan2) == Err(CandidateOf(items[k], dof, hypot, atan2).error)
    ensures CandidateOf(items[k], dof, hypot, atan2).Ok? ==>
      Candidates(items[..k + 1], dof, hypot, atan2) == Ok(Candidates(items[..k], dof, hypot, atan2).value
        + (if CandidateOf(items[k], dof, hypot, atan2).value.Some? then [CandidateOf(items[k], dof, hypot, atan2).value.value] else []))
  {
    var p := items[..k + 1];
    assert p[..|p| - 1] == items[..k] && p[|p| - 1] == items[k];
  }

  /** Once a prefix of the eigenpairs fails, the whole loop fails with that error. */
  lemma {:induction false} CandidatesPrefixErr(items: seq<Value>, j: nat, dof: nat, hypot: (real, real) -> real,
                                               atan2: (real, real) -> real)
    requires j <= |items| && Candidates(items[..j], dof, hypot, atan2).Err?
    ensures Candidates(items, dof, hypot, atan2) == Candidates(items[..j], dof, hypot, atan2)
  {
    if j < |items| {
      var init := items[..|items| - 1];
      assert init[..j] == items[..j];
      CandidatesPrefixErr(init, j, dof, hypot, atan2);
    } else {
      assert items[..j] == items;
    }
  }

  /** The frequency a mode is sorted by. */
  function Frequency(m: ComplexMode): real
  {
    m.frequencyHz
  }

  /** `modes.sort(by frequency).slice(0, modeLimit)`. */
  function Lowest(modes: seq<ComplexMode>, modeLimit: nat): (r: seq<ComplexMode>)
    ensures |r| == Min(modeLimit, |modes|)
  {
    SortBy(modes, Frequency)[..Min(modeLimit, |modes|)]
  }

  /** `limited.forEach((mode, index) => { mode.mode = index + 1; })`. */
  function Numbered(modes: seq<ComplexMode>): (r: seq<ComplexMode>)
    ensures |r| == |modes|
  {
    seq(|modes|, k requires 0 <= k < |modes| => modes[k].(mode := (k + 1) as real))
  }

  /** `Array.isArray(result[key])`. */
  predicate ArrayField(v: Value, key: string)
  {
    Get(v, key).Some? && Get(v, key).value.JArr?
  }

  /** `parseComplexEigsResult`: the modes of the eigs result, or the error it throws. */
  function ParseComplexEigs(result: Value, dof: nat, modeLimit: nat, hypot: (real, real) -> real,
                            atan2: (real, real) -> real): Result<seq<ComplexMode>>
  {
    if result.JNull? then PlainFailure("Cannot read properties of null (reading 'values')")
    else if !ArrayField(result, "values") || !ArrayField(result, "eigenvectors") then
      FormatFailure("Complex analysis: eigs result is invalid.")
    else
      var candidates :- Candidates(Get(result, "eigenvectors").value.items, dof, hypot, atan2);
      var limited := Lowest(candidates, modeLimit);
      if |limited| == 0 then FormatFailure("Complex analysis: no valid complex mode was found.")
      else Ok(Numbered(limited))
  }

  /** What a parsed list of complex modes satisfies. */
  predicate ValidModes(modes: seq<ComplexMode>, dof: nat, modeLimit: nat, hypot: (real, real) -> real)
  {
    1 <= |modes| <= modeLimit && SortedBy(modes, Frequency)
    && forall k :: 0 <= k < |modes| ==> modes[k].mode == (k + 1) as real && ValidMode(modes[k], dof, hypot)
  }

  lemma SortedPrefix(s: seq<ComplexMode>, n: nat)
    requires SortedBy(s, Frequency) && n <= |s|
    ensures SortedBy(s[..n], Frequency)
  {
    assert forall i :: 0 <= i < n ==> s[..n][i] == s[i];
  }

  /** The lowest `modeLimit` of valid unnumbered modes, numbered, are valid modes in order. */
  lemma NumberedLowestValid(candidates: seq<ComplexMode>, dof: nat, modeLimit: nat, hypot: (real, real) -> real)
    requires forall k :: 0 <= k < |candidates| ==> ValidMode(candidates[k], dof, hypot)
    requires Lowest(candidates, modeLimit) != []
    ensures ValidModes(Numbered(Lowest(candidates, modeLimit)), dof, modeLimit, hypot)
  {
    var sorted := SortBy(candidates, Frequency);
    SortByPermutes(candidates, Frequency);
    SortByIsSorted(candidates, Frequency);
    forall k | 0 <= k < |sorted|
      ensures ValidMode(sorted[k], dof, hypot)
    {
      assert sorted[k] in multiset(candidates);
    }
    var limited := Lowest(candidates, modeLimit);
    SortedPrefix(sorted, |limited|);
    var modes := Numbered(limited);
    assert forall k :: 0 <= k < |modes| ==> Frequency(modes[k]) == Frequency(limited[k]);
    assert forall k :: 0 <= k < |modes| ==> modes[k].vectors == limited[k].vectors;
  }

  /**
   * A successful parse gives between one and `modeLimit` modes, numbered from
   * one, in non-decreasing frequency, each an oscillating pole above 1e-9
   * with its frequency |Im λ|/2π, its damping ratio and `dof` labelled
   * components.
   */
  lemma ParseComplexEigsSpec(result: Value, dof: nat, modeLimit: nat, hypot: (real, real) -> real,
                             atan2: (real, real) -> real)
    requires ParseComplexEigs(result, dof, modeLimit, hypot, atan2).Ok?
    ensures ValidModes(ParseComplexEigs(result, dof, modeLimit, hypot, atan2).value, dof, modeLimit, hypot)
  {
    var candidates := Candidates(Get(result, "eigenvectors").value.items, dof, hypot, atan2).value;
    NumberedLowestValid(candidates, dof, modeLimit, hypot);
  }

  /** A mode with its number cleared, as it was pushed. */
  function Unnumbered(m: ComplexMode): ComplexMode
  {
    m.(mode := 0.0)
  }

  /** The number of every mode cleared. */
  function AllUnnumbered(modes: seq<ComplexMode>): (r: seq<ComplexMode>)
    ensures |r| == |modes|
  {
    seq(|modes|, k requires 0 <= k < |modes| => Unnumbered(modes[k]))
  }

  /** `kept` and `dropped` split `candidates`, and nothing dropped has a lower frequency than anything kept. */
  predicate SplitLowest(candidates: seq<ComplexMode>, kept: seq<ComplexMode>, dropped: seq<ComplexMode>)
  {
    multiset(candidates) == multiset(AllUnnumbered(kept)) + multiset(dropped)
    && forall k, j :: 0 <= k < |kept| && 0 <= j < |dropped| ==> kept[k].frequencyHz <= dropped[j].frequencyHz
  }

  /** Clearing the numbers of numbered unnumbered modes gives them back. */
  lemma UnnumberNumbered(s: seq<ComplexMode>)
    requires forall k :: 0 <= k < |s| ==> s[k].mode == 0.0
    ensures AllUnnumbered(Numbered(s)) == s
  {
    assert forall k :: 0 <= k < |s| ==> AllUnnumbered(Numbered(s))[k] == s[k];
  }

  /** Numbering keeps each mode's frequency. */
  lemma NumberedFrequency(s: seq<ComplexMode>)
    ensures forall k :: 0 <= k < |s| ==> Numbered(s)[k].frequencyHz == s[k].frequencyHz
  {
  }

  /** Cutting a sorted permutation of the candidates at `n` splits off the lowest `n`. */
  lemma SortedSplit(candidates: seq<ComplexMode>, sorted: seq<ComplexMode>, n: nat)
    requires multiset(sorted) == multiset(candidates) && SortedBy(sorted, Frequency) && n <= |sorted|
    requires forall k :: 0 <= k < |sorted| ==> sorted[k].mode == 0.0
    ensures SplitLowest(candidates, Numbered(sorted[..n]), sorted[n..])
  {
    UnnumberNumbered(sorted[..n]);
    assert sorted == sorted[..n] + sorted[n..];
    NumberedFrequency(sorted[..n]);
    forall k, j | 0 <= k < n && 0 <= j < |sorted| - n
      ensures Numbered(sorted[..n])[k].frequencyHz <= sorted[n..][j].frequencyHz
    {
      assert Frequency(sorted[k]) <= Frequency(sorted[n + j]);
    }
  }

  /** Numbering the lowest modes keeps the lowest `modeLimit` of unnumbered candidates and drops the rest. */
  lemma NumberedLowestSplits(candidates: seq<ComplexMode>, modeLimit: nat)
    requires forall k :: 0 <= k < |candidates| ==> candidates[k].mode == 0.0
    ensures exists dropped :: SplitLowest(candidates, Numbered(Lowest(candidates, modeLimit)), dropped)
  {
    var sorted := SortBy(candidates, Frequency);
    SortByPermutes(candidates, Frequency);
    SortByIsSorted(candidates, Frequency);
    forall k | 0 <= k < |sorted|
      ensures sorted[k].mode == 0.0
    {
      assert sorted[k] in multiset(candidates);
    }
    var n := Min(modeLimit, |candidates|);
    SortedSplit(candidates, sorted, n);
    assert Lowest(candidates, modeLimit) == sorted[..n];
    assert SplitLowest(candidates, Numbered(Lowest(candidates, modeLimit)), sorted[n..]);
  }

  /**
   * The modes returned are the `modeLimit` lowest of those pushed: with their
   * numbers cleared they and the modes left out make up the pushed modes,
   * and no mode left out has a lower frequency than one returned.
   */
  lemma ParseKeepsLowest(result: Value, dof: nat, modeLimit: nat, hypot: (real, real) -> real,
                         atan2: (real, real) -> real)
    requires ParseComplexEigs(result, dof, modeLimit, hypot, atan2).Ok?
    ensures Candidates(Get(result, "eigenvectors").value.items, dof, hypot, atan2).Ok?
    ensures |ParseComplexEigs(result, dof, modeLimit, hypot, atan2).value|
         == Min(modeLimit, |Candidates(Get(result, "eigenvectors").value.items, dof, hypot, atan2).value|)
    ensures exists dropped :: SplitLowest(Candidates(Get(result, "eigenvectors").value.items, dof, hypot, atan2).value,
                                          ParseComplexEigs(result, dof, modeLimit, hypot, atan2).value, dropped)
  {
    var candidates := Candidates(Get(result, "eigenvectors").value.items, dof, hypot, atan2).value;
    NumberedLowestSplits(candidates, modeLimit);
  }

  /**
   * The errors of the parse: a null result cannot be read, a result without
   * `values` and `eigenvectors` arrays is invalid, and once every eigenpair
   * is read the parse fails exactly when no mode was pushed or the limit is 0.
   */
  lemma ParseComplexEigsErrors(result: Value, dof: nat, modeLimit: nat, hypot: (real, real) -> real,
                               atan2: (real, real) -> real)
    ensures result.JNull? ==> ParseComplexEigs(result, dof, modeLimit, hypot, atan2).Err?
    ensures !result.JNull? && !(ArrayField(result, "values") && ArrayField(result, "eigenvectors")) ==>
      ParseComplexEigs(result, dof, modeLimit, hypot, atan2) == FormatFailure("Complex analysis: eigs result is invalid.")
    ensures (!result.JNull? && ArrayField(result, "values") && ArrayField(result, "eigenvectors")
             && Candidates(Get(result, "eigenvectors").value.items, dof, hypot, atan2).Ok?) ==>
      (ParseComplexEigs(result, dof, modeLimit, hypot, atan2).Err? <==>
         modeLimit == 0 || Candidates(Get(result, "eigenvectors").value.items, dof, hypot, atan2).value == [])
      && (ParseComplexEigs(result, dof, modeLimit, hypot, atan2).Err? ==>
         ParseComplexEigs(result, dof, modeLimit, hypot, atan2) == FormatFailure("Complex analysis: no valid complex mode was found."))
  {
  }

  /** The numbering loop of `parseComplexEigsResult`. */
  method NumberModes(limited: seq<ComplexMode>) returns (modes: seq<ComplexMode>)
    ensures modes == Numbered(limited)
  {
    modes := limited;
    var index := 0;
    while index < |modes|
      invariant 0 <= index <= |modes| == |limited|
      invariant forall k :: 0 <= k < index ==> modes[k] == limited[k].(mode := (k + 1) as real)
      invariant forall k :: index <= k < |modes| ==> modes[k] == limited[k]
    {
      modes := modes[index := modes[index].(mode := (index + 1) as real)];
      index := index + 1;
    }
  }

  /** The loop over `eigenvectors`: the modes it pushes, or the first error it raises. */
  method CollectCandidates(items: seq<Value>, dof: nat, hypot: (real, real) -> real, atan2: (real, real) -> real)
    returns (r: Result<seq<ComplexMode>>)
    ensures r == Candidates(items, dof, hypot, atan2)
  {
    var modes: seq<ComplexMode> := [];
    var k := 0;
    while k < |items|
      invariant 0 <= k <= |items|
      invariant Candidates(items[..k], dof, hypot, atan2) == Ok(modes)
    {
      var step := CandidateOf(items[k], dof, hypot, atan2);
      CandidatesStep(items, k, dof, hypot, atan2);
      if step.Err? {
        CandidatesPrefixErr(items, k + 1, dof, hypot, atan2);
        return Err(step.error);
      }
      if step.value.Some? {
        modes := modes + [step.value.value];
      } else {
        assert modes + [] == modes;
      }
      k := k + 1;
    }
    assert items[..k] == items;
    r := Ok(modes);
  }

  /** `parseComplexEigsResult`, step by step: the checks, the loop over eigenpairs, the sort, the cut and the numbering. */
  method ParseComplexEigsResult(result: Value, dof: nat, modeLimit: nat, hypot: (real, real) -> real,
                                atan2: (real, real) -> real) returns (r: Result<seq<ComplexMode>>)
    ensures r == ParseComplexEigs(result, dof, modeLimit, hypot, atan2)
  {
    if result.JNull? {
      return PlainFailure("Cannot read properties of null (reading 'values')");
    }
    if !ArrayField(result, "values") || !ArrayField(result, "eigenvectors") {
      return FormatFailure("Complex analysis: eigs result is invalid.");
    }
    var items := Get(result, "eigenvectors").value.items;
    var candidates := CollectCandidates(items, dof, hypot, atan2);
    if candidates.Err? {
      return Err(candidates.error);
    }
    var modes := candidates.value;
    var limited := Lowest(modes, modeLimit);
    if |limited| == 0 {
      return FormatFailure("Complex analysis: no valid complex mode was found.");
    }
    var numbered := NumberModes(limited);
    r := Ok(numbered);
  }

  // ---- the state matrix -------------------------------------------------------------------

  /** Entry (i, j) of the state matrix `[[0, I], [-M⁻¹K, -M⁻¹C]]`. */
  function StateEntry(minvK: seq<seq<real>>, minvC: seq<seq<real>>, dof: nat, i: nat, j: nat): real
    requires Square(minvK, dof) && Square(minvC, dof) && i < 2 * dof && j < 2 * dof
  {
    if i < dof then (if j == dof + i then 1.0 else 0.0)
    else if j < dof then -minvK[i - dof][j]
    else -minvC[i - dof][j - dof]
  }

  /** The state matrix as rows. */
  function StateRows(minvK: seq<seq<real>>, minvC: seq<seq<real>>, dof: nat): (s: seq<seq<real>>)
    requires Square(minvK, dof) && Square(minvC, dof)
    ensures Square(s, 2 * dof)
  {
    seq(2 * dof, i requires 0 <= i < 2 * dof =>
      seq(2 * dof, j requires 0 <= j < 2 * dof => StateEntry(minvK, minvC, dof, i, j)))
  }

  /** The second loop of `buildStateMatrix` for row `dof + i`: `-M⁻¹K` on the left half, `-M⁻¹C` on the right. */
  method FillStateRow(state: array2<real>, minvK: seq<seq<real>>, minvC: seq<seq<real>>, dof: nat, i: nat)
    requires Square(minvK, dof) && Square(minvC, dof) && i < dof
    requires state.Length0 == 2 * dof && state.Length1 == 2 * dof
    modifies state
    ensures forall r, c :: 0 <= r < 2 * dof && 0 <= c < 2 * dof ==>
      state[r, c] == (if r == dof + i then StateEntry(minvK, minvC, dof, r, c) else old(state[r, c]))
  {
    for j := 0 to dof
      invariant forall r, c :: 0 <= r < 2 * dof && 0 <= c < 2 * dof ==>
        state[r, c] == (if r == dof + i && (c < j || dof <= c < dof + j) then StateEntry(minvK, minvC, dof, r, c)
                        else old(state[r, c]))
    {
      state[dof + i, j] := -minvK[i][j];
      state[dof + i, dof + j] := -minvC[i][j];
    }
  }

  /** `buildStateMatrix` from `M⁻¹K` and `M⁻¹C`: the identity above right, their negations below, zeros elsewhere. */
  method BuildStateMatrix(minvK: seq<seq<real>>, minvC: seq<seq<real>>, dof: nat) returns (state: array2<real>)
    requires Square(minvK, dof) && Square(minvC, dof)
    ensures fresh(state) && state.Length0 == 2 * dof && state.Length1 == 2 * dof
    ensures Rows(state) == StateRows(minvK, minvC, dof)
  {
    var size := dof * 2;
    state := new real[size, size]((_, _) => 0.0);
    for i := 0 to dof
      invariant forall r, c :: 0 <= r < size && 0 <= c < size ==>
        state[r, c] == (if r < i && c == dof + r then 1.0 else 0.0)
    {
      state[i, dof + i] := 1.0;
    }
    for i := 0 to dof
      invariant forall r, c :: 0 <= r < size && 0 <= c < size ==>
        state[r, c] == (if r < dof + i then StateEntry(minvK, minvC, dof, r, c) else 0.0)
    {
      FillStateRow(state, minvK, minvC, dof, i);
    }
    var rows, spec := Rows(state), StateRows(minvK, minvC, dof);
    forall r | 0 <= r < size
      ensures rows[r] == spec[r]
    {
      assert forall c :: 0 <= c < size ==> rows[r][c] == spec[r][c];
    }
  }

  /** Entry by entry `a + b`. */
  function Sum(a: seq<real>, b: seq<real>): (r: seq<real>)
    requires |a| == |b|
    ensures |r| == |a| && forall k :: 0 <= k < |a| ==> r[k] == a[k] + b[k]
  {
    seq(|a|, k requires 0 <= k < |a| => a[k] + b[k])
  }

  /** A dot product reads only as many entries of its second argument as the first has. */
  lemma {:induction false} DotExtend(a: seq<real>, c: seq<real>, d: seq<real>)
    requires |a| <= |c|
    ensures Dot(a, c + d) == Dot(a, c)
  {
    if a != [] {
      DotExtend(a[..|a| - 1], c, d);
    }
  }

  /** The dot product of concatenations of matching lengths is the sum of the two dot products. */
  lemma {:induction false} DotAppend(a: seq<real>, b: seq<real>, c: seq<real>, d: seq<real>)
    requires |a| == |c| && |b| <= |d|
    ensures Dot(a + b, c + d) == Dot(a, c) + Dot(b, d)
  {
    if b == [] {
      assert a + b == a;
      DotExtend(a, c, d);
    } else {
      var n := |b| - 1;
      assert (a + b)[..|a + b| - 1] == a + b[..n];
      DotAppend(a, b[..n], c, d);
    }
  }

  /** The unit row at `p`, cut to its first `n` entries, against `w` picks `w[p]` once `p` is inside. */
  lemma {:induction false} DotUnit(row: seq<real>, w: seq<real>, p: nat)
    requires |row| <= |w| && forall j :: 0 <= j < |row| ==> row[j] == (if j == p then 1.0 else 0.0)
    ensures Dot(row, w) == (if p < |row| then w[p] else 0.0)
  {
    if row != [] {
      DotUnit(row[..|row| - 1], w, p);
    }
  }

  /**
   * The state matrix turns the equation of motion `M ü + C u̇ + K u = 0` into
   * first order: applied to a state `(u, u̇)` it gives `(u̇, -(M⁻¹K u + M⁻¹C u̇))`.
   */
  lemma StateEquation(minvK: seq<seq<real>>, minvC: seq<seq<real>>, u: seq<real>, velocity: seq<real>)
    requires Square(minvK, |u|) && Square(minvC, |u|) && |velocity| == |u|
    ensures MatVec(StateRows(minvK, minvC, |u|), u + velocity)
         == velocity + Scale(Sum(MatVec(minvK, u), MatVec(minvC, velocity)), -1.0)
  {
    var dof := |u|;
    var s := StateRows(minvK, minvC, dof);
    var lhs := MatVec(s, u + velocity);
    var rhs := velocity + Scale(Sum(MatVec(minvK, u), MatVec(minvC, velocity)), -1.0);
    forall i | 0 <= i < 2 * dof
      ensures lhs[i] == rhs[i]
    {
      if i < dof {
        DotUnit(s[i], u + velocity, dof + i);
      } else {
        var k := i - dof;
        assert s[i] == Scale(minvK[k], -1.0) + Scale(minvC[k], -1.0);
        DotAppend(Scale(minvK[k], -1.0), Scale(minvC[k], -1.0), u, velocity);
        DotScaleLeft(minvK[k], u, -1.0);
        DotScaleLeft(minvC[k], velocity, -1.0);
      }
    }
  }

  // ---- the whole analysis -----------------------------------------------------------------

  /** `a * b` of two `d × d` matrices (`Matrix.mmul`). */
  function MatMul(a: seq<seq<real>>, b: seq<seq<real>>, d: nat): (r: seq<seq<real>>)
    requires Square(a, d) && Square(b, d)
    ensures Square(r, d)
  {
    seq(d, i requires 0 <= i < d => seq(d, j requires 0 <= j < d => Dot(a[i], seq(d, k requires 0 <= k < d => b[k][j]))))
  }

  /** `inverse` from the matrix library: the inverse of a square matrix, or the error it throws for a singular one. */
  type Inverter = seq<seq<real>> -> Result<seq<seq<real>>>

  /** An inverse has the shape of the matrix inverted. */
  ghost predicate Inverts(inverse: Inverter)
  {
    forall m :: inverse(m).Ok? ==> Square(inverse(m).value, |m|)
  }

  /** `eigs` from the numerics library on the state matrix: its result record, or the error it throws. */
  type EigenSolver = seq<seq<real>> -> Result<Value>

  /** What `analyzeComplexEigen` returns: the real modal result and the complex modal file. */
  datatype ComplexEigenAnalysis = ComplexEigenAnalysis(modal: ModalDatFile, complex: ComplexModalFile)

  /**
   * The complex part of `analyzeComplexEigen` from the mass, stiffness and
   * damping matrices of an n-story model: invert the mass matrix, build the
   * state matrix, run `eigs` (its failure wrapped as "eigs failed") and parse
   * at most `3n` modes.
   */
  function ComplexFromMatrices(baseShape: BaseShapeInfo, n: nat, modal: ModalDatFile, mass: seq<seq<real>>,
                               stiffness: seq<seq<real>>, damping: seq<seq<real>>, inverse: Inverter,
                               eigs: EigenSolver, hypot: (real, real) -> real, atan2: (real, real) -> real)
    : Result<ComplexEigenAnalysis>
    requires Square(mass, 3 * n) && Square(stiffness, 3 * n) && Square(damping, 3 * n) && Inverts(inverse)
  {
    var d := 3 * n;
    var minv :- inverse(mass);
    var raw := eigs(StateRows(MatMul(minv, stiffness, d), MatMul(minv, damping, d), d));
    if raw.Err? then FormatFailure("Complex analysis: eigs failed. " + raw.error.message)
    else
      var modes :- ParseComplexEigs(raw.value, d, d, hypot, atan2);
      Ok(ComplexEigenAnalysis(modal, ComplexModalFile(baseShape, modes)))
  }

  /** `analyzeComplexEigen`: the real analysis, whose failure passes through, then the complex part on its damped matrices. */
  function ComplexModal(model: BuildingModel, defaultDampingRatio: Option<real>, decompose: RealAnalysis.Decomposer,
                        hypot: (real, real) -> real, sqrt: real -> real, inverse: Inverter, eigs: EigenSolver,
                        atan2: (real, real) -> real): Result<ComplexEigenAnalysis>
    requires RealAnalysis.Decomposes(decompose) && IsSqrt(sqrt) && Inverts(inverse)
  {
    var n :- AssemblyCheck(model, defaultDampingRatio);
    var modal :- RealAnalysis.ModalFromMatrices(BaseShapeOf(model, n), n, RealAnalysis.MassRows(model, n),
                                                RealAnalysis.StiffnessRows(model, n, hypot, sqrt), decompose, sqrt);
    var damping := RealAnalysis.DampedRows(model, n, RealAnalysis.OmegasOf(modal.modal.frequenciesHz),
                              DampingRatioOption(defaultDampingRatio), hypot, sqrt);
    ComplexFromMatrices(BaseShapeOf(model, n), n, modal, RealAnalysis.MassRows(model, n),
                        RealAnalysis.StiffnessRows(model, n, hypot, sqrt), damping, inverse, eigs, hypot, atan2)
  }

  /** The steps of `analyzeComplexEigen` after the real analysis. */
  method SolveComplex(baseShape: BaseShapeInfo, n: nat, modal: ModalDatFile, mass: seq<seq<real>>,
                      stiffness: seq<seq<real>>, damping: seq<seq<real>>, inverse: Inverter,
                      eigs: EigenSolver, hypot: (real, real) -> real, atan2: (real, real) -> real)
    returns (r: Result<ComplexEigenAnalysis>)
    requires Square(mass, 3 * n) && Square(stiffness, 3 * n) && Square(damping, 3 * n) && Inverts(inverse)
    ensures r == ComplexFromMatrices(baseShape, n, modal, mass, stiffness, damping, inverse, eigs, hypot, atan2)
  {
    var d := 3 * n;
    var minv := inverse(mass);
    if minv.Err? {
      return Err(minv.error);
    }
    var state := BuildStateMatrix(MatMul(minv.value, stiffness, d), MatMul(minv.value, damping, d), d);
    var raw := eigs(Rows(state));
    if raw.Err? {
      return FormatFailure("Complex analysis: eigs failed. " + raw.error.message);
    }
    var modes := ParseComplexEigsResult(raw.value, d, d, hypot, atan2);
    if modes.Err? {
      return Err(modes.error);
    }
    r := Ok(ComplexEigenAnalysis(modal, ComplexModalFile(baseShape, modes.value)));
  }

  /** `analyzeComplexEigen`, step by step over the matrices `analyzeRealEigen` leaves behind. */
  method AnalyzeComplexEigen(model: BuildingModel, defaultDampingRatio: Option<real>, decompose: RealAnalysis.Decomposer,
                             hypot: (real, real) -> real, sqrt: real -> real, inverse: Inverter, eigs: EigenSolver,
                             atan2: (real, real) -> real) returns (r: Result<ComplexEigenAnalysis>)
    requires RealAnalysis.Decomposes(decompose) && IsSqrt(sqrt) && Inverts(inverse)
    ensures r == ComplexModal(model, defaultDampingRatio, decompose, hypot, sqrt, inverse, eigs, atan2)
  {
    var analysis := RealAnalysis.AnalyzeRealEigen(model, defaultDampingRatio, decompose, hypot, sqrt);
    if analysis.Err? {
      return Err(analysis.error);
    }
    var modal, matrices := analysis.value.modal, analysis.value.matrices;
    RealAnalysis.RayleighDampedRows(matrices, RealAnalysis.OmegasOf(modal.modal.frequenciesHz),
                       DampingRatioOption(defaultDampingRatio), hypot, sqrt);
    r := SolveComplex(matrices.baseShape, matrices.storyCount, modal, Rows(matrices.mass), Rows(matrices.stiffness),
                      Rows(matrices.damping), inverse, eigs, hypot, atan2);
  }

  // ---- what the analysis promises ------------------------------------------------------------

  /** Every damping ratio a parse reports is a percentage between -100 and 100. */
  lemma ValidModesDamping(modes: seq<ComplexMode>, dof: nat, modeLimit: nat, hypot: (real, real) -> real)
    requires IsHypot(hypot) && ValidModes(modes, dof, modeLimit, hypot)
    ensures forall k :: 0 <= k < |modes| ==> -100.0 <= modes[k].dampingRatioPercent <= 100.0
  {
    forall k | 0 <= k < |modes|
      ensures -100.0 <= modes[k].dampingRatioPercent <= 100.0
    {
      DampingRatioPercentSpec(ComplexValue(modes[k].eigenValueReal.value, modes[k].eigenValueImag.value), hypot, 0.0);
    }
  }

  /** Every component of every mode is labelled as the matching degree of freedom of an n-story model. */
  predicate LabelledAsDofs(modes: seq<ComplexMode>, n: nat)
  {
    forall k, i :: 0 <= k < |modes| && 0 <= i < |modes[k].vectors| && i < 3 * n ==>
      modes[k].vectors[i].component == DofLabels(n)[i]
  }

  /** The component labels of parsed modes of an n-story model are its degree-of-freedom labels. */
  lemma ValidModesLabels(modes: seq<ComplexMode>, n: nat, hypot: (real, real) -> real)
    requires ValidModes(modes, 3 * n, 3 * n, hypot)
    ensures LabelledAsDofs(modes, n)
  {
    forall k, i | 0 <= k < |modes| && 0 <= i < |modes[k].vectors| && i < 3 * n
      ensures modes[k].vectors[i].component == DofLabels(n)[i]
    {
      ComponentLabelIsDofLabel(n, i);
    }
  }

  /** The complex part keeps the real result and the base shape, and its modes are those of a successful parse. */
  lemma ComplexFromMatricesSpec(baseShape: BaseShapeInfo, n: nat, modal: ModalDatFile, mass: seq<seq<real>>,
                                stiffness: seq<seq<real>>, damping: seq<seq<real>>, inverse: Inverter,
                                eigs: EigenSolver, hypot: (real, real) -> real, atan2: (real, real) -> real)
    requires Square(mass, 3 * n) && Square(stiffness, 3 * n) && Square(damping, 3 * n) && Inverts(inverse)
    ensures var r := ComplexFromMatrices(baseShape, n, modal, mass, stiffness, damping, inverse, eigs, hypot, atan2);
      r.Ok? ==> r.value.modal == modal && r.value.complex.baseShape == baseShape
                && ValidModes(r.value.complex.modes, 3 * n, 3 * n, hypot)
    ensures inverse(mass).Err? ==>
      ComplexFromMatrices(baseShape, n, modal, mass, stiffness, damping, inverse, eigs, hypot, atan2) == Err(inverse(mass).error)
  {
    var d := 3 * n;
    if inverse(mass).Ok? {
      var minv := inverse(mass).value;
      var raw := eigs(StateRows(MatMul(minv, stiffness, d), MatMul(minv, damping, d), d));
      if raw.Ok? && ParseComplexEigs(raw.value, d, d, hypot, atan2).Ok? {
        ParseComplexEigsSpec(raw.value, d, d, hypot, atan2);
      }
    }
  }

  /**
   * `analyzeComplexEigen` fails with the real analysis' error when that
   * fails; when it succeeds its modal part is the real result, its base
   * shape the model's, and its modes between one and 3n, numbered from one,
   * in non-decreasing frequency, each an oscillating pole with 3n
   * components labelled as the degrees of freedom.
   */
  lemma ComplexModalSpec(model: BuildingModel, defaultDampingRatio: Option<real>, decompose: RealAnalysis.Decomposer,
                         hypot: (real, real) -> real, sqrt: real -> real, inverse: Inverter, eigs: EigenSolver,
                         atan2: (real, real) -> real)
    requires RealAnalysis.Decomposes(decompose) && IsSqrt(sqrt) && Inverts(inverse)
    ensures RealAnalysis.RealModal(model, defaultDampingRatio, decompose, hypot, sqrt).Err? ==>
      ComplexModal(model, defaultDampingRatio, decompose, hypot, sqrt, inverse, eigs, atan2)
        == Err(RealAnalysis.RealModal(model, defaultDampingRatio, decompose, hypot, sqrt).error)
    ensures var r := ComplexModal(model, defaultDampingRatio, decompose, hypot, sqrt, inverse, eigs, atan2);
      r.Ok? ==> (AssemblyCheck(model, defaultDampingRatio).Ok?
        && RealAnalysis.RealModal(model, defaultDampingRatio, decompose, hypot, sqrt) == Ok(r.value.modal)
        && r.value.complex.baseShape == BaseShapeOf(model, AssemblyCheck(model, defaultDampingRatio).value)
        && ValidModes(r.value.complex.modes, 3 * AssemblyCheck(model, defaultDampingRatio).value,
                      3 * AssemblyCheck(model, defaultDampingRatio).value, hypot)
        && LabelledAsDofs(r.value.complex.modes, AssemblyCheck(model, defaultDampingRatio).value))
  {
    var check := AssemblyCheck(model, defaultDampingRatio);
    if check.Ok? {
      var n := check.value;
      var modal := RealAnalysis.ModalFromMatrices(BaseShapeOf(model, n), n, RealAnalysis.MassRows(model, n),
                                                  RealAnalysis.StiffnessRows(model, n, hypot, sqrt), decompose, sqrt);
      if modal.Ok? {
        var damping := RealAnalysis.DampedRows(model, n, RealAnalysis.OmegasOf(modal.value.modal.frequenciesHz),
                                  DampingRatioOption(defaultDampingRatio), hypot, sqrt);
        var r := ComplexFromMatrices(BaseShapeOf(model, n), n, modal.value, RealAnalysis.MassRows(model, n),
                                     RealAnalysis.StiffnessRows(model, n, hypot, sqrt), damping, inverse, eigs, hypot, atan2);
        ComplexFromMatricesSpec(BaseShapeOf(model, n), n, modal.value, RealAnalysis.MassRows(model, n),
                                RealAnalysis.StiffnessRows(model, n, hypot, sqrt), damping, inverse, eigs, hypot, atan2);
        if r.Ok? {
          ValidModesLabels(r.value.complex.modes, n, hypot);
        }
      }
    }
  }
}
