/*
 * `analyzeRealEigen` (src/core/analysis/modal.ts): assemble the matrices,
 * solve the generalised eigenproblem, derive frequencies, participation
 * factors and effective mass ratios, lay the readable mode shapes out as the
 * eigen-vector table, and give the matrices a damping matrix with Rayleigh
 * damping added.
 *
 * The whole result is specified by `RealModal`, a function of the model; the
 * method `AnalyzeRealEigen` follows `analyzeRealEigen` step by step and is proved to
 * return what `RealModal` gives.
 */
module RealAnalysis {
  import opened Results
  import opened Numbers
  import opened Strings
  import opened Building
  import opened LinAlg
  import opened StoryBlocks
  import opened MatrixAssembly
  import opened RealEigen
  import ModalRoundTrip
  import Normalize
  import AssemblyProperties

  // ---- the eigen-vector table --------------------------------------------------------------

  /** `normalizedModes[modeIndex][dofIndex] ?? 0`. */
  function DofEntry(mode: seq<real>, dof: nat): real
  {
    if dof < |mode| then mode[dof] else 0.0
  }

  /** The row-label suffix of an axis: translation in x, translation in y, rotation about z. */
  function AxisSuffix(axis: nat): string
  {
    if axis == 0 then "-δx" else if axis == 1 then "-δy" else "-θz"
  }

  /** `M${layer}-δx`, `M${layer}-δy`, `M${layer}-θz`. */
  function EigenRowLabel(layer: nat, axis: nat): string
  {
    "M" + NatToString(layer) + AxisSuffix(axis)
  }

  /** Every mode's entry for one degree of freedom. */
  function DofValues(modes: seq<seq<real>>, dof: nat): (r: seq<real>)
    ensures |r| == |modes| && forall k :: 0 <= k < |modes| ==> r[k] == DofEntry(modes[k], dof)
  {
    seq(|modes|, k requires 0 <= k < |modes| => DofEntry(modes[k], dof))
  }

  /** The row of one story (1-based) and one axis. */
  function StoryRow(modes: seq<seq<real>>, layer: nat, axis: nat): EigenRow
    requires layer >= 1
  {
    EigenRow(EigenRowLabel(layer, axis), DofValues(modes, Dof(layer - 1, axis)))
  }

  /** The three rows of one story, in the order x, y, θz. */
  function StoryRows(modes: seq<seq<real>>, layer: nat): (rows: seq<EigenRow>)
    requires layer >= 1
    ensures |rows| == 3 && forall axis :: 0 <= axis < 3 ==> rows[axis] == StoryRow(modes, layer, axis)
  {
    [StoryRow(modes, layer, 0), StoryRow(modes, layer, 1), StoryRow(modes, layer, 2)]
  }

  /** The rows of stories `layer` down to 1, three per story. */
  function EigenRowsFrom(modes: seq<seq<real>>, layer: nat): (rows: seq<EigenRow>)
    ensures |rows| == 3 * layer
  {
    if layer == 0 then [] else StoryRows(modes, layer) + EigenRowsFrom(modes, layer - 1)
  }

  /** The table `buildEigenRows` returns: the top story first. */
  function EigenRows(storyCount: nat, modes: seq<seq<real>>): (rows: seq<EigenRow>)
    ensures |rows| == 3 * storyCount
  {
    EigenRowsFrom(modes, storyCount)
  }

  /** `valuesAt`: one entry per mode, 0 where the mode is too short. */
  method ValuesAt(modes: seq<seq<real>>, dofIndex: nat) returns (values: seq<real>)
    ensures values == DofValues(modes, dofIndex)
  {
    var buffer := new real[|modes|];
    for modeIndex := 0 to |modes|
      invariant forall k :: 0 <= k < modeIndex ==> buffer[k] == DofEntry(modes[k], dofIndex)
    {
      buffer[modeIndex] := if dofIndex < |modes[modeIndex]| then modes[modeIndex][dofIndex] else 0.0;
    }
    values := buffer[..];
    assert values == DofValues(modes, dofIndex);
  }

  /** `buildEigenRows`: stories from the top down, three rows each. */
  method BuildEigenRows(storyCount: nat, modes: seq<seq<real>>) returns (rows: seq<EigenRow>)
    ensures rows == EigenRows(storyCount, modes)
  {
    rows := [];
    var layer := storyCount;
    while layer >= 1
      invariant 0 <= layer <= storyCount && rows + EigenRowsFrom(modes, layer) == EigenRowsFrom(modes, storyCount)
    {
      var base := (layer - 1) * 3;
      var vx := ValuesAt(modes, base);
      var vy := ValuesAt(modes, base + 1);
      var vz := ValuesAt(modes, base + 2);
      var three := [EigenRow("M" + NatToString(layer) + "-δx", vx),
                    EigenRow("M" + NatToString(layer) + "-δy", vy),
                    EigenRow("M" + NatToString(layer) + "-θz", vz)];
      assert three == StoryRows(modes, layer);
      assert rows + EigenRowsFrom(modes, layer) == (rows + three) + EigenRowsFrom(modes, layer - 1);
      rows := rows + three;
      layer := layer - 1;
    }
  }

  /** Index 3q+a of a three-element head followed by the rest. */
  lemma ConcatAt<T>(head: seq<T>, rest: seq<T>, q: nat, axis: nat)
    requires |head| == 3 && axis < 3 && 3 * q + axis < 3 + |rest|
    ensures q == 0 ==> (head + rest)[3 * q + axis] == head[axis]
    ensures q > 0 ==> (head + rest)[3 * q + axis] == rest[3 * (q - 1) + axis]
  {
  }

  /** Row 3q+a of the rows from story `layer` down belongs to story `layer - q` and axis `a`. */
  lemma {:induction false} EigenRowsFromAt(modes: seq<seq<real>>, layer: nat, q: nat, axis: nat)
    requires q < layer && axis < 3
    ensures EigenRowsFrom(modes, layer)[3 * q + axis] == StoryRow(modes, layer - q, axis)
  {
    var head, rest := StoryRows(modes, layer), EigenRowsFrom(modes, layer - 1);
    assert EigenRowsFrom(modes, layer) == head + rest;
    ConcatAt(head, rest, q, axis);
    if q > 0 {
      EigenRowsFromAt(modes, layer - 1, q - 1, axis);
      assert (layer - 1) - (q - 1) == layer - q;
    }
  }

  /**
   * The table has one row per degree of freedom: the row of story s (1-based
   * s+1) and axis a is row 3(n-1-s)+a, is labelled with that story and axis,
   * and holds every mode's entry for that degree of freedom.
   */
  lemma EigenRowOfDof(storyCount: nat, modes: seq<seq<real>>, s: nat, axis: nat)
    requires s < storyCount && axis < 3
    requires forall k :: 0 <= k < |modes| ==> |modes[k]| == 3 * storyCount
    ensures var row := EigenRows(storyCount, modes)[3 * (storyCount - 1 - s) + axis];
      row.rowLabel == EigenRowLabel(s + 1, axis)
      && |row.values| == |modes|
      && forall k :: 0 <= k < |modes| ==> row.values[k] == modes[k][Dof(s, axis)]
  {
    EigenRowsFromAt(modes, storyCount, storyCount - 1 - s, axis);
  }

  /** A label names one story and one axis. */
  lemma EigenRowLabelInjective(l1: nat, a1: nat, l2: nat, a2: nat)
    requires a1 < 3 && a2 < 3 && EigenRowLabel(l1, a1) == EigenRowLabel(l2, a2)
    ensures l1 == l2 && a1 == a2
  {
    var d1, d2 := NatToString(l1), NatToString(l2);
    var t1, t2 := EigenRowLabel(l1, a1), EigenRowLabel(l2, a2);
    assert |AxisSuffix(a1)| == 3 && |AxisSuffix(a2)| == 3;
    assert t1[1..|t1| - 3] == d1;
    assert t2[1..|t2| - 3] == d2;
    DigitsOfNat(l1);
    DigitsOfNat(l2);
    assert t1[|t1| - 1] == AxisSuffix(a1)[2];
    assert t2[|t2| - 1] == AxisSuffix(a2)[2];
  }

  /** Different rows carry different labels. */
  lemma EigenRowLabelsDistinct(storyCount: nat, modes: seq<seq<real>>, r1: nat, r2: nat)
    requires r1 < r2 < 3 * storyCount
    ensures EigenRows(storyCount, modes)[r1].rowLabel != EigenRows(storyCount, modes)[r2].rowLabel
  {
    var l1, l2 := storyCount - r1 / 3, storyCount - r2 / 3;
    EigenRowsFromAt(modes, storyCount, r1 / 3, r1 % 3);
    EigenRowsFromAt(modes, storyCount, r2 / 3, r2 % 3);
    if EigenRowLabel(l1, r1 % 3) == EigenRowLabel(l2, r2 % 3) {
      EigenRowLabelInjective(l1, r1 % 3, l2, r2 % 3);
    }
  }

  /** Every row label is one the modal.dat writer and reader carry unchanged. */
  lemma EigenRowLabelPlain(layer: nat, axis: nat)
    ensures ModalRoundTrip.PlainLabel(EigenRowLabel(layer, axis))
  {
    var digits := NatToString(layer);
    var text := EigenRowLabel(layer, axis);
    assert text[0] == 'M' && text[|text| - 1] == AxisSuffix(axis)[2];
    forall k | 0 <= k < |text|
      ensures text[k] != ','
    {
      if 1 <= k < 1 + |digits| {
        assert text[k] == digits[k - 1];
      }
    }
  }

  // ---- frequencies -------------------------------------------------------------------------

  /** `Math.sqrt(omega2) / (2 * Math.PI)` for every kept eigenvalue. */
  function FrequenciesOf(eigenValues: seq<real>, sqrt: real -> real): (r: seq<real>)
    ensures |r| == |eigenValues|
  {
    seq(|eigenValues|, k requires 0 <= k < |eigenValues| => sqrt(eigenValues[k]) / (2.0 * PI))
  }

  /** `f * 2 * Math.PI` for every frequency. */
  function OmegasOf(frequencies: seq<real>): (r: seq<real>)
    ensures |r| == |frequencies|
  {
    seq(|frequencies|, k requires 0 <= k < |frequencies| => frequencies[k] * 2.0 * PI)
  }

  lemma DivideByPositive(x: real, y: real, d: real)
    requires 0.0 < x <= y && d > 0.0
    ensures 0.0 < x / d <= y / d
  {
    var p, q := x / d, y / d;
    assert p * d == x && q * d == y;
    if p > q {
      MultiplyStrict(p, q, d);
    }
  }

  lemma CircularFrequency(x: real, d: real)
    requires d > 0.0
    ensures (x / d) * d == x
  {
  }

  /**
   * From positive non-decreasing eigenvalues come positive non-decreasing
   * frequencies, and the circular frequency of each is the square root of its
   * eigenvalue: `ω = 2πf = √λ`.
   */
  lemma FrequenciesSpec(eigenValues: seq<real>, sqrt: real -> real)
    requires IsSqrt(sqrt)
    requires forall k :: 0 <= k < |eigenValues| ==> eigenValues[k] > POSITIVE_EIGENVALUE
    requires forall k, l :: 0 <= k < l < |eigenValues| ==> eigenValues[k] <= eigenValues[l]
    ensures var f := FrequenciesOf(eigenValues, sqrt);
      (forall k :: 0 <= k < |f| ==> f[k] > 0.0)
      && (forall k, l :: 0 <= k < l < |f| ==> f[k] <= f[l])
      && (forall k :: 0 <= k < |f| ==> OmegasOf(f)[k] == sqrt(eigenValues[k]))
  {
    var f := FrequenciesOf(eigenValues, sqrt);
    var twoPi := 2.0 * PI;
    forall k, l | 0 <= k < l < |f|
      ensures 0.0 < f[k] <= f[l]
    {
      SqrtPositive(sqrt, eigenValues[k]);
      SqrtMonotone(sqrt, eigenValues[k], eigenValues[l]);
      DivideByPositive(sqrt(eigenValues[k]), sqrt(eigenValues[l]), twoPi);
    }
    forall k | 0 <= k < |f|
      ensures f[k] > 0.0 && OmegasOf(f)[k] == sqrt(eigenValues[k])
    {
      SqrtPositive(sqrt, eigenValues[k]);
      DivideByPositive(sqrt(eigenValues[k]), sqrt(eigenValues[k]), twoPi);
      CircularFrequency(sqrt(eigenValues[k]), twoPi);
      assert OmegasOf(f)[k] == f[k] * 2.0 * PI;
      assert f[k] * 2.0 * PI == f[k] * twoPi;
    }
  }

  // ---- Rayleigh damping ----------------------------------------------------------------------

  /** `modeOmega.filter((value) => value > 1e-12)`, in order. */
  function PositiveOmegas(omegas: seq<real>): (r: seq<real>)
    ensures |r| <= |omegas|
    ensures forall k :: 0 <= k < |r| ==> r[k] > MIN_OMEGA
  {
    if omegas == [] then []
    else
      var n := |omegas| - 1;
      PositiveOmegas(omegas[..n]) + (if omegas[n] > MIN_OMEGA then [omegas[n]] else [])
  }

  /** The filter keeps a list whose entries all pass it. */
  lemma {:induction false} PositiveOmegasKeeps(omegas: seq<real>)
    requires forall k :: 0 <= k < |omegas| ==> omegas[k] > MIN_OMEGA
    ensures PositiveOmegas(omegas) == omegas
  {
    if omegas != [] {
      var n := |omegas| - 1;
      PositiveOmegasKeeps(omegas[..n]);
      assert omegas[..n] + [omegas[n]] == omegas;
    }
  }

  /** Mass- and stiffness-proportional coefficients `C += αM + βK`. */
  datatype Rayleigh = Rayleigh(alpha: real, beta: real)

  /**
   * The coefficients `addRayleighDamping` adds, or `None` when it returns the
   * damping matrix unchanged: a ratio that is not positive, or no circular
   * frequency above 1e-12.
   */
  function RayleighCoefficients(modeOmega: seq<real>, ratio: real): Option<Rayleigh>
  {
    if ratio <= 0.0 then None
    else
      var omega := PositiveOmegas(modeOmega);
      if |omega| == 0 then None
      else if |omega| == 1 then Some(OneModeCoefficients(ratio, omega[0]))
      else Some(TwoModeCoefficients(ratio, omega[0], omega[1]))
  }

  /** `alpha = 2ζω₁`, `beta = 0`. */
  function OneModeCoefficients(ratio: real, w1: real): Rayleigh
  {
    Rayleigh(2.0 * ratio * w1, 0.0)
  }

  /** `alpha = 2ζω₁ω₂/(ω₁+ω₂)`, `beta = 2ζ/(ω₁+ω₂)`. */
  function TwoModeCoefficients(ratio: real, w1: real, w2: real): Rayleigh
    requires w1 > 0.0 && w2 > 0.0
  {
    Rayleigh((2.0 * ratio * w1 * w2) / (w1 + w2), (2.0 * ratio) / (w1 + w2))
  }

  /** The damping ratio Rayleigh damping gives a mode of circular frequency ω: `α/(2ω) + βω/2`. */
  function ModalDampingRatio(c: Rayleigh, omega: real): real
    requires omega > 0.0
  {
    c.alpha / (2.0 * omega) + c.beta * omega / 2.0
  }

  lemma TwoModeRatio(ratio: real, w1: real, w2: real, w: real)
    requires w1 > 0.0 && w2 > 0.0 && (w == w1 || w == w2)
    ensures ModalDampingRatio(TwoModeCoefficients(ratio, w1, w2), w) == ratio
  {
    var s := w1 + w2;
    var num := 2.0 * ratio * w1 * w2;
    var c := TwoModeCoefficients(ratio, w1, w2);
    assert c.alpha == num / s && c.beta == (2.0 * ratio) / s;
    var t := num / s / (2.0 * w);
    var u := (2.0 * ratio) / s * w / 2.0;
    BetaTerm(ratio, w, s);
    if w == w1 {
      AlphaTerm(num, ratio, w1, w2, s);
      SumCancel(t, u, ratio, w2, w1, s);
    } else {
      assert num == 2.0 * ratio * w2 * w1;
      AlphaTerm(num, ratio, w2, w1, s);
      SumCancel(t, u, ratio, w1, w2, s);
    }
  }

  lemma SumCancel(t: real, u: real, ratio: real, other: real, w: real, s: real)
    requires s > 0.0 && s == other + w && t * s == ratio * other && u * s == ratio * w
    ensures t + u == ratio
  {
    assert (t + u) * s == ratio * s;
    MultiplyCancel(t + u, ratio, s);
  }

  lemma AlphaTerm(num: real, ratio: real, w: real, other: real, s: real)
    requires w > 0.0 && s > 0.0 && num == 2.0 * ratio * w * other
    ensures num / s / (2.0 * w) * s == ratio * other
  {
    var a := num / s;
    var t := a / (2.0 * w);
    CircularFrequency(num, s);
    CircularFrequency(a, 2.0 * w);
    assert (t * s) * (2.0 * w) == (t * (2.0 * w)) * s;
    assert (ratio * other) * (2.0 * w) == num;
    MultiplyCancel(t * s, ratio * other, 2.0 * w);
  }

  lemma BetaTerm(ratio: real, w: real, s: real)
    requires s > 0.0
    ensures (2.0 * ratio) / s * w / 2.0 * s == ratio * w
  {
    var b := (2.0 * ratio) / s;
    CircularFrequency(2.0 * ratio, s);
    assert b * w / 2.0 * s == (b * s) * w / 2.0;
  }

  lemma OneModeRatio(ratio: real, w1: real)
    requires w1 > 0.0
    ensures ModalDampingRatio(OneModeCoefficients(ratio, w1), w1) == ratio
  {
  }

  /**
   * Rayleigh damping reaches the target ratio exactly at the first kept
   * circular frequency and, when there is one, at the second.
   */
  lemma RayleighMatchesTargets(modeOmega: seq<real>, ratio: real)
    requires RayleighCoefficients(modeOmega, ratio).Some?
    ensures var omega := PositiveOmegas(modeOmega);
      var c := RayleighCoefficients(modeOmega, ratio).value;
      |omega| >= 1 && ModalDampingRatio(c, omega[0]) == ratio
      && (|omega| >= 2 ==> ModalDampingRatio(c, omega[1]) == ratio)
  {
    var omega := PositiveOmegas(modeOmega);
    var c := RayleighCoefficients(modeOmega, ratio).value;
    if |omega| == 1 {
      OneModeRatio(ratio, omega[0]);
    } else {
      TwoModeRatio(ratio, omega[0], omega[1], omega[0]);
      TwoModeRatio(ratio, omega[0], omega[1], omega[1]);
    }
  }

  /** One entry of the damping matrix after `addRayleighDamping`. */
  function RayleighEntry(damping: real, mass: real, stiffness: real, c: Option<Rayleigh>): real
  {
    if c.None? then damping else damping + (c.value.alpha * mass + c.value.beta * stiffness)
  }

  /** `matrices.damping.map((row) => row.slice())`. */
  method CopyMatrix(source: array2<real>) returns (copy: array2<real>)
    ensures fresh(copy) && copy.Length0 == source.Length0 && copy.Length1 == source.Length1
    ensures forall i, j :: 0 <= i < source.Length0 && 0 <= j < source.Length1 ==> copy[i, j] == source[i, j]
  {
    copy := new real[source.Length0, source.Length1];
    for i := 0 to source.Length0
      invariant forall p, q :: 0 <= p < i && 0 <= q < source.Length1 ==> copy[p, q] == source[p, q]
    {
      for j := 0 to source.Length1
        invariant forall p, q :: 0 <= p < i && 0 <= q < source.Length1 ==> copy[p, q] == source[p, q]
        invariant forall q :: 0 <= q < j ==> copy[i, q] == source[i, q]
      {
        copy[i, j] := source[i, j];
      }
    }
  }

  /** Row i of the double loop `c[i][j] += alpha * mass[i][j] + beta * stiffness[i][j]`. */
  method AddProportionalRow(c: array2<real>, mass: array2<real>, stiffness: array2<real>, alpha: real, beta: real, i: nat)
    requires c != mass && c != stiffness && i < c.Length0
    requires mass.Length0 == stiffness.Length0 == c.Length0 && mass.Length1 == stiffness.Length1 == c.Length1
    modifies c
    ensures forall q :: 0 <= q < c.Length1 ==> c[i, q] == old(c[i, q]) + (alpha * mass[i, q] + beta * stiffness[i, q])
    ensures forall p, q :: 0 <= p < c.Length0 && p != i && 0 <= q < c.Length1 ==> c[p, q] == old(c[p, q])
  {
    for j := 0 to c.Length1
      invariant forall q :: 0 <= q < j ==> c[i, q] == old(c[i, q]) + (alpha * mass[i, q] + beta * stiffness[i, q])
      invariant forall q :: j <= q < c.Length1 ==> c[i, q] == old(c[i, q])
      invariant forall p, q :: 0 <= p < c.Length0 && p != i && 0 <= q < c.Length1 ==> c[p, q] == old(c[p, q])
    {
      c[i, j] := c[i, j] + (alpha * mass[i, j] + beta * stiffness[i, j]);
    }
  }

  /** The double loop over every row. */
  method AddProportional(c: array2<real>, mass: array2<real>, stiffness: array2<real>, alpha: real, beta: real)
    requires c != mass && c != stiffness
    requires mass.Length0 == stiffness.Length0 == c.Length0 && mass.Length1 == stiffness.Length1 == c.Length1
    modifies c
    ensures forall i, j :: 0 <= i < c.Length0 && 0 <= j < c.Length1 ==>
      c[i, j] == old(c[i, j]) + (alpha * mass[i, j] + beta * stiffness[i, j])
  {
    for i := 0 to c.Length0
      invariant forall p, q :: 0 <= p < i && 0 <= q < c.Length1 ==>
        c[p, q] == old(c[p, q]) + (alpha * mass[p, q] + beta * stiffness[p, q])
      invariant forall p, q :: i <= p < c.Length0 && 0 <= q < c.Length1 ==> c[p, q] == old(c[p, q])
    {
      AddProportionalRow(c, mass, stiffness, alpha, beta, i);
    }
  }

  /**
   * `addRayleighDamping`: a new matrix, the damping matrix plus `αM + βK`
   * with the coefficients `RayleighCoefficients` chooses; the matrices it is
   * given are left as they are.
   */
  method AddRayleighDamping(a: AnalysisMatrices, modeOmega: seq<real>, ratio: real) returns (c: array2<real>)
    requires a.damping.Length0 == a.mass.Length0 == a.stiffness.Length0 == a.dofCount
    requires a.damping.Length1 == a.mass.Length1 == a.stiffness.Length1 == a.dofCount
    ensures fresh(c) && c.Length0 == a.dofCount && c.Length1 == a.dofCount
    ensures forall i, j :: 0 <= i < a.dofCount && 0 <= j < a.dofCount ==>
      c[i, j] == RayleighEntry(a.damping[i, j], a.mass[i, j], a.stiffness[i, j], RayleighCoefficients(modeOmega, ratio))
  {
    c := CopyMatrix(a.damping);
    ghost var coefficients := RayleighCoefficients(modeOmega, ratio);
    if ratio <= 0.0 {
      assert coefficients.None?;
      return;
    }
    var omega := PositiveOmegas(modeOmega);
    if |omega| == 0 {
      assert coefficients.None?;
      return;
    }
    var alpha, beta := 0.0, 0.0;
    if |omega| == 1 {
      alpha := 2.0 * ratio * omega[0];
      assert Rayleigh(alpha, beta) == OneModeCoefficients(ratio, omega[0]);
    } else {
      var w1, w2 := omega[0], omega[1];
      alpha := (2.0 * ratio * w1 * w2) / (w1 + w2);
      beta := (2.0 * ratio) / (w1 + w2);
      assert Rayleigh(alpha, beta) == TwoModeCoefficients(ratio, w1, w2);
    }
    assert coefficients == Some(Rayleigh(alpha, beta));
    AddProportional(c, a.mass, a.stiffness, alpha, beta);
  }

  // ---- the whole analysis ------------------------------------------------------------------

  /** The mass matrix of a model that passes the structure checks, as rows. */
  function MassRows(model: BuildingModel, n: nat): (m: seq<seq<real>>)
    requires ShapeCheck(model) == Ok(n)
    ensures Square(m, 3 * n)
  {
    seq(3 * n, i requires 0 <= i < 3 * n => seq(3 * n, j requires 0 <= j < 3 * n => MassMatrix(model, i, j)))
  }

  /** The stiffness matrix of a model that passes the structure checks, as rows. */
  function StiffnessRows(model: BuildingModel, n: nat, hypot: (real, real) -> real, sqrt: real -> real): (k: seq<seq<real>>)
    requires ShapeCheck(model) == Ok(n)
    ensures Square(k, 3 * n)
  {
    var blocks := Blocks(StoryContributions(model, hypot, sqrt), Stiffness);
    seq(3 * n, i requires 0 <= i < 3 * n => seq(3 * n, j requires 0 <= j < 3 * n => ShearMatrix(blocks, i, j)))
  }

  /** The rows of assembled matrices are the mass and stiffness matrices of the model. */
  lemma AssembledRows(a: AnalysisMatrices, hypot: (real, real) -> real, sqrt: real -> real)
    requires Assembled(a, hypot, sqrt)
    ensures Rows(a.mass) == MassRows(a.model, a.storyCount)
    ensures Rows(a.stiffness) == StiffnessRows(a.model, a.storyCount, hypot, sqrt)
  {
    var d := 3 * a.storyCount;
    var m, mr := Rows(a.mass), MassRows(a.model, a.storyCount);
    var k, kr := Rows(a.stiffness), StiffnessRows(a.model, a.storyCount, hypot, sqrt);
    forall i | 0 <= i < d
      ensures m[i] == mr[i] && k[i] == kr[i]
    {
      assert forall j :: 0 <= j < d ==> m[i][j] == mr[i][j];
      assert forall j :: 0 <= j < d ==> k[i][j] == kr[i][j];
    }
  }


  /** The eigen library (Cholesky factor, inverse, symmetric eigen decomposition), reduced to what it returns. */
  type Decomposer = (seq<seq<real>>, seq<seq<real>>) -> Decomposition

  /** Every mass and stiffness pair gets a decomposition of the mass matrix's size. */
  ghost predicate Decomposes(decompose: Decomposer)
  {
    forall m, k :: Shaped(decompose(m, k), |m|)
  }

  /** `solveGeneralizedEigen(matrices.mass, matrices.stiffness)` for a model with n stories. */
  function ModelEigenModes(model: BuildingModel, n: nat, decompose: Decomposer,
                           hypot: (real, real) -> real, sqrt: real -> real): (r: Result<GeneralizedEigen>)
    requires ShapeCheck(model) == Ok(n) && Decomposes(decompose) && IsSqrt(sqrt)
    ensures r.Ok? ==> |r.value.eigenValues| == |r.value.eigenVectors|
  {
    var mass := MassRows(model, n);
    EigenModes(decompose(mass, StiffnessRows(model, n, hypot, sqrt)), mass, sqrt)
  }

  /** The `modal` object built from the kept modes of a model with n stories. */
  function ModalOfModes(baseShape: BaseShapeInfo, n: nat, mass: seq<seq<real>>, eigen: GeneralizedEigen,
                        sqrt: real -> real): ModalDatFile
    requires Square(mass, 3 * n)
    requires forall k :: 0 <= k < |eigen.eigenVectors| ==> |eigen.eigenVectors[k]| == 3 * n
  {
    var p := ParticipationOf(eigen.eigenVectors, mass, Influence(n, X), Influence(n, Y));
    ModalDatFile(baseShape, ModalResult(
      FrequenciesOf(eigen.eigenValues, sqrt), p.factorX, p.factorY, p.ratioX, p.ratioY,
      EigenRows(n, ReadableModes(eigen.eigenVectors))))
  }

  /** The eigen solution and the `modal` object, from the mass and stiffness matrices of an n-story model. */
  function ModalFromMatrices(baseShape: BaseShapeInfo, n: nat, mass: seq<seq<real>>, stiffness: seq<seq<real>>,
                             decompose: Decomposer, sqrt: real -> real): Result<ModalDatFile>
    requires Square(mass, 3 * n) && Decomposes(decompose) && IsSqrt(sqrt)
  {
    var eigen :- EigenModes(decompose(mass, stiffness), mass, sqrt);
    EigenModesSpec(decompose(mass, stiffness), mass, sqrt);
    Ok(ModalOfModes(baseShape, n, mass, eigen, sqrt))
  }

  /** What `analyzeRealEigen` returns as its `modal` part, or the error it throws. */
  function RealModal(model: BuildingModel, defaultDampingRatio: Option<real>, decompose: Decomposer,
                     hypot: (real, real) -> real, sqrt: real -> real): Result<ModalDatFile>
    requires Decomposes(decompose) && IsSqrt(sqrt)
  {
    var n :- AssemblyCheck(model, defaultDampingRatio);
    ModalFromMatrices(BaseShapeOf(model, n), n, MassRows(model, n), StiffnessRows(model, n, hypot, sqrt), decompose, sqrt)
  }

  /** The steps of `analyzeRealEigen` between the eigen solution and the `modal` object. */
  method BuildModal(baseShape: BaseShapeInfo, storyCount: nat, mass: seq<seq<real>>, eigen: GeneralizedEigen,
                    sqrt: real -> real) returns (modal: ModalDatFile)
    requires Square(mass, 3 * storyCount)
    requires forall k :: 0 <= k < |eigen.eigenVectors| ==> |eigen.eigenVectors[k]| == 3 * storyCount
    ensures modal == ModalOfModes(baseShape, storyCount, mass, eigen, sqrt)
  {
    var frequenciesHz := FrequenciesOf(eigen.eigenValues, sqrt);
    var influenceX := CreateParticipationVector(storyCount, X);
    var influenceY := CreateParticipationVector(storyCount, Y);
    var p := ParticipationFactors(eigen.eigenVectors, mass, influenceX, influenceY);
    var normalizedModes := ReadableModes(eigen.eigenVectors);
    var eigenVectors := BuildEigenRows(storyCount, normalizedModes);
    modal := ModalDatFile(baseShape, ModalResult(frequenciesHz, p.factorX, p.factorY, p.ratioX, p.ratioY, eigenVectors));
  }

  /** The `modal` part and the matrices, whose damping matrix now carries Rayleigh damping. */
  datatype RealEigenAnalysis = RealEigenAnalysis(modal: ModalDatFile, matrices: AnalysisMatrices)

  /**
   * The matrices after `analyzeRealEigen`: mass and stiffness as assembled,
   * and every damping entry the assembled damping plus `αM + βK` with the
   * coefficients chosen from the circular frequencies `omegas`.
   */
  ghost predicate RayleighDamped(a: AnalysisMatrices, omegas: seq<real>, ratio: real,
                                 hypot: (real, real) -> real, sqrt: real -> real)
    reads a, a.mass, a.stiffness, a.damping
  {
    a.model.structInfo.Some? && ShapeCheck(a.model) == Ok(a.storyCount) && a.dofCount == 3 * a.storyCount
    && IsMassMatrix(a.mass, a.model)
    && IsShear(a.stiffness, Blocks(StoryContributions(a.model, hypot, sqrt), Stiffness))
    && a.dofLabels == DofLabels(a.storyCount) && a.baseShape == BaseShapeOf(a.model, a.storyCount)
    && a.damping.Length0 == a.dofCount && a.damping.Length1 == a.dofCount
    && forall i, j :: 0 <= i < a.dofCount && 0 <= j < a.dofCount ==>
         a.damping[i, j] == RayleighEntry(
           ShearMatrix(Blocks(StoryContributions(a.model, hypot, sqrt), Damping), i, j),
           MassMatrix(a.model, i, j),
           ShearMatrix(Blocks(StoryContributions(a.model, hypot, sqrt), Stiffness), i, j),
           RayleighCoefficients(omegas, ratio))
  }

  /** `matrices.damping = addRayleighDamping(matrices, omega, ratio)` on freshly assembled matrices. */
  method ApplyRayleighDamping(a: AnalysisMatrices, omegas: seq<real>, ratio: real,
                              ghost hypot: (real, real) -> real, ghost sqrt: real -> real)
    requires Assembled(a, hypot, sqrt)
    modifies a
    ensures RayleighDamped(a, omegas, ratio, hypot, sqrt)
  {
    var c := AddRayleighDamping(a, omegas, ratio);
    a.damping := c;
  }

  /**
   * `analyzeRealEigen`: fails exactly when `RealModal` does, with its error;
   * otherwise returns the modal result `RealModal` gives and new matrices of
   * the model with Rayleigh damping added at `defaultDampingRatio ?? 0.02`,
   * for the circular frequencies `2πf` of that result.
   */
  method AnalyzeRealEigen(model: BuildingModel, defaultDampingRatio: Option<real>, decompose: Decomposer,
                          hypot: (real, real) -> real, sqrt: real -> real) returns (r: Result<RealEigenAnalysis>)
    requires Decomposes(decompose) && IsSqrt(sqrt)
    ensures r.Err? ==> RealModal(model, defaultDampingRatio, decompose, hypot, sqrt) == Err(r.error)
    ensures r.Ok? ==> RealModal(model, defaultDampingRatio, decompose, hypot, sqrt) == Ok(r.value.modal)
    ensures r.Ok? ==> fresh(r.value.matrices) && r.value.matrices.model == model
    ensures r.Ok? ==> RayleighDamped(r.value.matrices, OmegasOf(r.value.modal.modal.frequenciesHz),
                                     DampingRatioOption(defaultDampingRatio), hypot, sqrt)
  {
    var assembled := AssembleAnalysisMatrices(model, defaultDampingRatio, hypot, sqrt);
    if assembled.Err? {
      return Err(assembled.error);
    }
    var matrices := assembled.value;
    var storyCount := matrices.storyCount;
    var mass := Rows(matrices.mass);
    var stiffness := Rows(matrices.stiffness);
    AssembledRows(matrices, hypot, sqrt);
    var eigen := SolveGeneralizedEigen(decompose(mass, stiffness), mass, sqrt);
    if eigen.Err? {
      return Err(eigen.error);
    }
    EigenModesSpec(decompose(mass, stiffness), mass, sqrt);
    var modal := BuildModal(matrices.baseShape, storyCount, mass, eigen.value, sqrt);
    var omega := OmegasOf(modal.modal.frequenciesHz);
    ApplyRayleighDamping(matrices, omega, DampingRatioOption(defaultDampingRatio), hypot, sqrt);
    r := Ok(RealEigenAnalysis(modal, matrices));
  }

  /** The damping matrix after Rayleigh damping, as rows. */
  function DampedRows(model: BuildingModel, n: nat, omegas: seq<real>, ratio: real,
                      hypot: (real, real) -> real, sqrt: real -> real): (c: seq<seq<real>>)
    requires ShapeCheck(model) == Ok(n)
    ensures Square(c, 3 * n)
  {
    var cs := StoryContributions(model, hypot, sqrt);
    var coefficients := RayleighCoefficients(omegas, ratio);
    seq(3 * n, i requires 0 <= i < 3 * n => seq(3 * n, j requires 0 <= j < 3 * n =>
      RayleighEntry(ShearMatrix(Blocks(cs, Damping), i, j), MassMatrix(model, i, j),
                                 ShearMatrix(Blocks(cs, Stiffness), i, j), coefficients)))
  }

  /** The rows of the matrices after `analyzeRealEigen` are the model's mass, stiffness and damped matrices. */
  lemma RayleighDampedRows(a: AnalysisMatrices, omegas: seq<real>, ratio: real,
                           hypot: (real, real) -> real, sqrt: real -> real)
    requires RayleighDamped(a, omegas, ratio, hypot, sqrt)
    ensures Rows(a.mass) == MassRows(a.model, a.storyCount)
    ensures Rows(a.stiffness) == StiffnessRows(a.model, a.storyCount, hypot, sqrt)
    ensures Rows(a.damping) == DampedRows(a.model, a.storyCount, omegas, ratio, hypot, sqrt)
  {
    var d := 3 * a.storyCount;
    var m, mr := Rows(a.mass), MassRows(a.model, a.storyCount);
    var k, kr := Rows(a.stiffness), StiffnessRows(a.model, a.storyCount, hypot, sqrt);
    var c, cr := Rows(a.damping), DampedRows(a.model, a.storyCount, omegas, ratio, hypot, sqrt);
    forall i | 0 <= i < d
      ensures m[i] == mr[i] && k[i] == kr[i] && c[i] == cr[i]
    {
      assert forall j :: 0 <= j < d ==> m[i][j] == mr[i][j];
      assert forall j :: 0 <= j < d ==> k[i][j] == kr[i][j];
      assert forall j :: 0 <= j < d ==> c[i][j] == cr[i][j];
    }
  }

  // ---- what the analysis promises ------------------------------------------------------------

  /** An eigenvalue above 1e-10 has a circular frequency above 1e-12. */
  lemma OmegaAboveFloor(sqrt: real -> real, x: real)
    requires IsSqrt(sqrt) && x > POSITIVE_EIGENVALUE
    ensures sqrt(x) > MIN_OMEGA
  {
    var w := sqrt(x);
    assert w >= 0.0 && w * w == x;
    if w < MIN_OMEGA {
      SquareStrict(w, MIN_OMEGA);
    }
  }

  /** Every row of the table is labelled plainly and holds one value per mode. */
  lemma EigenRowsShape(storyCount: nat, modes: seq<seq<real>>)
    ensures forall r :: 0 <= r < 3 * storyCount ==>
      ModalRoundTrip.PlainLabel(EigenRows(storyCount, modes)[r].rowLabel)
      && |EigenRows(storyCount, modes)[r].values| == |modes|
  {
    forall r | 0 <= r < 3 * storyCount
      ensures ModalRoundTrip.PlainLabel(EigenRows(storyCount, modes)[r].rowLabel)
      ensures |EigenRows(storyCount, modes)[r].values| == |modes|
    {
      EigenRowsFromAt(modes, storyCount, r / 3, r % 3);
      EigenRowLabelPlain(storyCount - r / 3, r % 3);
    }
  }

  /** From given matrices, the `modal` object fails exactly when no eigenvalue exceeds 1e-10, with the solver's message. */
  lemma ModalFromMatricesErrors(baseShape: BaseShapeInfo, n: nat, mass: seq<seq<real>>, stiffness: seq<seq<real>>,
                                decompose: Decomposer, sqrt: real -> real)
    requires Square(mass, 3 * n) && Decomposes(decompose) && IsSqrt(sqrt)
    ensures var e := decompose(mass, stiffness);
      var r := ModalFromMatrices(baseShape, n, mass, stiffness, decompose, sqrt);
      (r.Err? <==> forall i :: 0 <= i < |e.values| ==> e.values[i] <= POSITIVE_EIGENVALUE)
      && (r.Err? ==> r == FormatFailure("Eigen analysis: no positive eigenvalue was found."))
  {
    EigenOrderFails(decompose(mass, stiffness).values);
  }

  /** The shape of a successful `modal` object from given matrices. */
  lemma ModalFromMatricesSpec(baseShape: BaseShapeInfo, n: nat, mass: seq<seq<real>>, stiffness: seq<seq<real>>,
                              decompose: Decomposer, sqrt: real -> real)
    requires Square(mass, 3 * n) && Decomposes(decompose) && IsSqrt(sqrt)
    requires ModalFromMatrices(baseShape, n, mass, stiffness, decompose, sqrt).Ok?
    ensures
      var file := ModalFromMatrices(baseShape, n, mass, stiffness, decompose, sqrt).value;
      var m := file.modal;
      var f := m.frequenciesHz;
      file.baseShape == baseShape
      && 1 <= |f| <= 3 * n
      && (forall k :: 0 <= k < |f| ==> f[k] > 0.0)
      && (forall k, l :: 0 <= k < l < |f| ==> f[k] <= f[l])
      && |m.participationFactorX| == |m.participationFactorY| == |f|
      && |m.effectiveMassRatioX| == |m.effectiveMassRatioY| == |f|
      && (forall k :: 0 <= k < |f| ==> m.effectiveMassRatioX[k] >= 0.0 && m.effectiveMassRatioY[k] >= 0.0)
      && |m.eigenVectors| == 3 * n
      && (forall r :: 0 <= r < 3 * n ==> ModalRoundTrip.PlainLabel(m.eigenVectors[r].rowLabel))
      && (forall r :: 0 <= r < 3 * n ==> |m.eigenVectors[r].values| == |f|)
  {
    var e := decompose(mass, stiffness);
    EigenModesSpec(e, mass, sqrt);
    var g := EigenModes(e, mass, sqrt).value;
    FrequenciesSpec(g.eigenValues, sqrt);
    EigenRowsShape(n, ReadableModes(g.eigenVectors));
  }

  /** The table row of story s+1 and axis a, from given matrices. */
  lemma ModalFromMatricesTable(baseShape: BaseShapeInfo, n: nat, mass: seq<seq<real>>, stiffness: seq<seq<real>>,
                               decompose: Decomposer, sqrt: real -> real, s: nat, axis: nat)
    requires Square(mass, 3 * n) && Decomposes(decompose) && IsSqrt(sqrt)
    requires ModalFromMatrices(baseShape, n, mass, stiffness, decompose, sqrt).Ok? && s < n && axis < 3
    ensures EigenModes(decompose(mass, stiffness), mass, sqrt).Ok?
    ensures
      var modes := ReadableModes(EigenModes(decompose(mass, stiffness), mass, sqrt).value.eigenVectors);
      var rows := ModalFromMatrices(baseShape, n, mass, stiffness, decompose, sqrt).value.modal.eigenVectors;
      DofRow(rows, modes, n, s, axis)
  {
    var e := decompose(mass, stiffness);
    EigenModesSpec(e, mass, sqrt);
    EigenRowOfDof(n, ReadableModes(EigenModes(e, mass, sqrt).value.eigenVectors), s, axis);
  }

  /**
   * Row 3(n-1-s)+a of a 3n-row table is the row of story s+1 and axis a:
   * it carries that story's label for the axis and holds every mode's entry
   * for that degree of freedom.
   */
  predicate DofRow(rows: seq<EigenRow>, modes: seq<seq<real>>, n: nat, s: nat, axis: nat)
    requires s < n && axis < 3
  {
    |rows| == 3 * n
    && (forall k :: 0 <= k < |modes| ==> |modes[k]| == 3 * n)
    && var row := rows[3 * (n - 1 - s) + axis];
    row.rowLabel == EigenRowLabel(s + 1, axis)
    && |row.values| == |modes|
    && forall k :: 0 <= k < |modes| ==> row.values[k] == modes[k][Dof(s, axis)]
  }

  /** Rayleigh damping on the frequencies of a successful `modal` object from given matrices. */
  lemma ModalFromMatricesRayleigh(baseShape: BaseShapeInfo, n: nat, mass: seq<seq<real>>, stiffness: seq<seq<real>>,
                                  decompose: Decomposer, sqrt: real -> real, ratio: real)
    requires Square(mass, 3 * n) && Decomposes(decompose) && IsSqrt(sqrt) && ratio > 0.0
    requires ModalFromMatrices(baseShape, n, mass, stiffness, decompose, sqrt).Ok?
    ensures
      var omegas := OmegasOf(ModalFromMatrices(baseShape, n, mass, stiffness, decompose, sqrt).value.modal.frequenciesHz);
      var c := RayleighCoefficients(omegas, ratio);
      |omegas| >= 1 && omegas[0] > 0.0 && c.Some?
      && ModalDampingRatio(c.value, omegas[0]) == ratio
      && (|omegas| >= 2 ==> omegas[1] > 0.0 && ModalDampingRatio(c.value, omegas[1]) == ratio)
  {
    var e := decompose(mass, stiffness);
    EigenModesSpec(e, mass, sqrt);
    var g := EigenModes(e, mass, sqrt).value;
    FrequenciesSpec(g.eigenValues, sqrt);
    var omegas := OmegasOf(FrequenciesOf(g.eigenValues, sqrt));
    forall k | 0 <= k < |omegas|
      ensures omegas[k] > MIN_OMEGA
    {
      OmegaAboveFloor(sqrt, g.eigenValues[k]);
    }
    PositiveOmegasKeeps(omegas);
    RayleighMatchesTargets(omegas, ratio);
  }

  /**
   * The analysis fails with the assembler's error when the model does not
   * assemble; on a model that does, it fails exactly when no eigenvalue
   * exceeds 1e-10, and then with the eigen solver's message.
   */
  lemma RealModalErrors(model: BuildingModel, defaultDampingRatio: Option<real>, decompose: Decomposer,
                        hypot: (real, real) -> real, sqrt: real -> real)
    requires Decomposes(decompose) && IsSqrt(sqrt)
    ensures AssemblyCheck(model, defaultDampingRatio).Err? ==>
      RealModal(model, defaultDampingRatio, decompose, hypot, sqrt) == Err(AssemblyCheck(model, defaultDampingRatio).error)
    ensures AssemblyCheck(model, defaultDampingRatio).Ok? ==>
      var n := AssemblyCheck(model, defaultDampingRatio).value;
      var e := decompose(MassRows(model, n), StiffnessRows(model, n, hypot, sqrt));
      var r := RealModal(model, defaultDampingRatio, decompose, hypot, sqrt);
      (r.Err? <==> forall i :: 0 <= i < |e.values| ==> e.values[i] <= POSITIVE_EIGENVALUE)
      && (r.Err? ==> r == FormatFailure("Eigen analysis: no positive eigenvalue was found."))
  {
    if AssemblyCheck(model, defaultDampingRatio).Ok? {
      var n := AssemblyCheck(model, defaultDampingRatio).value;
      ModalFromMatricesErrors(BaseShapeOf(model, n), n, MassRows(model, n), StiffnessRows(model, n, hypot, sqrt),
                              decompose, sqrt);
    }
  }

  /**
   * A successful analysis of an n-story model reports between 1 and 3n
   * modes with positive, non-decreasing frequencies, one participation factor
   * and one non-negative effective mass ratio per mode and direction, the
   * model's base shape, and a table of 3n plainly labelled rows with one
   * value per mode.
   */
  lemma RealModalSpec(model: BuildingModel, defaultDampingRatio: Option<real>, decompose: Decomposer,
                      hypot: (real, real) -> real, sqrt: real -> real)
    requires Decomposes(decompose) && IsSqrt(sqrt)
    requires RealModal(model, defaultDampingRatio, decompose, hypot, sqrt).Ok?
    ensures AssemblyCheck(model, defaultDampingRatio).Ok?
    ensures
      var n := AssemblyCheck(model, defaultDampingRatio).value;
      var file := RealModal(model, defaultDampingRatio, decompose, hypot, sqrt).value;
      var m := file.modal;
      var f := m.frequenciesHz;
      file.baseShape == BaseShapeOf(model, n)
      && 1 <= |f| <= 3 * n
      && (forall k :: 0 <= k < |f| ==> f[k] > 0.0)
      && (forall k, l :: 0 <= k < l < |f| ==> f[k] <= f[l])
      && |m.participationFactorX| == |m.participationFactorY| == |f|
      && |m.effectiveMassRatioX| == |m.effectiveMassRatioY| == |f|
      && (forall k :: 0 <= k < |f| ==> m.effectiveMassRatioX[k] >= 0.0 && m.effectiveMassRatioY[k] >= 0.0)
      && |m.eigenVectors| == 3 * n
      && (forall r :: 0 <= r < 3 * n ==> |m.eigenVectors[r].values| == |f|)
  {
    var n := AssemblyCheck(model, defaultDampingRatio).value;
    ModalFromMatricesSpec(BaseShapeOf(model, n), n, MassRows(model, n), StiffnessRows(model, n, hypot, sqrt),
                          decompose, sqrt);
  }

  /** A successful analysis gives a modal result the modal.dat writer accepts and its reader returns unchanged. */
  lemma RealModalWritable(model: BuildingModel, defaultDampingRatio: Option<real>, decompose: Decomposer,
                          hypot: (real, real) -> real, sqrt: real -> real)
    requires Decomposes(decompose) && IsSqrt(sqrt)
    requires RealModal(model, defaultDampingRatio, decompose, hypot, sqrt).Ok?
    ensures ModalRoundTrip.Writable(RealModal(model, defaultDampingRatio, decompose, hypot, sqrt).value.modal)
  {
    var n := AssemblyCheck(model, defaultDampingRatio).value;
    ModalFromMatricesSpec(BaseShapeOf(model, n), n, MassRows(model, n), StiffnessRows(model, n, hypot, sqrt),
                          decompose, sqrt);
  }

  /**
   * The row of story s+1 and axis a holds, for every mode, the readable
   * mode's entry for that story's degree of freedom on that axis.
   */
  lemma RealModalEigenTable(model: BuildingModel, defaultDampingRatio: Option<real>, decompose: Decomposer,
                            hypot: (real, real) -> real, sqrt: real -> real, s: nat, axis: nat)
    requires Decomposes(decompose) && IsSqrt(sqrt)
    requires RealModal(model, defaultDampingRatio, decompose, hypot, sqrt).Ok?
    requires AssemblyCheck(model, defaultDampingRatio).Ok? && s < AssemblyCheck(model, defaultDampingRatio).value && axis < 3
    ensures ModelEigenModes(model, AssemblyCheck(model, defaultDampingRatio).value, decompose, hypot, sqrt).Ok?
    ensures
      var n := AssemblyCheck(model, defaultDampingRatio).value;
      var modes := ReadableModes(ModelEigenModes(model, n, decompose, hypot, sqrt).value.eigenVectors);
      var rows := RealModal(model, defaultDampingRatio, decompose, hypot, sqrt).value.modal.eigenVectors;
      DofRow(rows, modes, n, s, axis)
  {
    var n := AssemblyCheck(model, defaultDampingRatio).value;
    ModalFromMatricesTable(BaseShapeOf(model, n), n, MassRows(model, n), StiffnessRows(model, n, hypot, sqrt),
                           decompose, sqrt, s, axis);
  }

  /**
   * With a positive damping ratio, Rayleigh damping is added, and the modal
   * damping ratio it gives the first mode, and the second when there is one,
   * is exactly the target: every kept circular frequency passes the 1e-12
   * filter, so the two lowest modes are the ones matched.
   */
  lemma RealModalRayleigh(model: BuildingModel, defaultDampingRatio: Option<real>, decompose: Decomposer,
                          hypot: (real, real) -> real, sqrt: real -> real, ratio: real)
    requires Decomposes(decompose) && IsSqrt(sqrt) && ratio > 0.0
    requires RealModal(model, defaultDampingRatio, decompose, hypot, sqrt).Ok?
    ensures
      var omegas := OmegasOf(RealModal(model, defaultDampingRatio, decompose, hypot, sqrt).value.modal.frequenciesHz);
      var c := RayleighCoefficients(omegas, ratio);
      |omegas| >= 1 && omegas[0] > 0.0 && c.Some?
      && ModalDampingRatio(c.value, omegas[0]) == ratio
      && (|omegas| >= 2 ==> omegas[1] > 0.0 && ModalDampingRatio(c.value, omegas[1]) == ratio)
  {
    var n := AssemblyCheck(model, defaultDampingRatio).value;
    ModalFromMatricesRayleigh(BaseShapeOf(model, n), n, MassRows(model, n), StiffnessRows(model, n, hypot, sqrt),
                              decompose, sqrt, ratio);
  }

  /** The damping matrix with Rayleigh damping added is symmetric, as mass, stiffness and the assembled damping are. */
  lemma RayleighDampedSymmetric(a: AnalysisMatrices, omegas: seq<real>, ratio: real,
                                hypot: (real, real) -> real, sqrt: real -> real)
    requires RayleighDamped(a, omegas, ratio, hypot, sqrt)
    ensures forall i, j :: 0 <= i < a.dofCount && 0 <= j < a.dofCount ==> a.damping[i, j] == a.damping[j, i]
  {
    var cs := StoryContributions(a.model, hypot, sqrt);
    forall i, j | 0 <= i < a.dofCount && 0 <= j < a.dofCount
      ensures a.damping[i, j] == a.damping[j, i]
    {
      ShearSymmetric(Blocks(cs, Stiffness), i, j);
      ShearSymmetric(Blocks(cs, Damping), i, j);
    }
  }

  /** A model meeting every validator's rule, with a non-negative damping ratio, fails only for want of a positive eigenvalue. */
  lemma ValidModelRealModal(model: BuildingModel, defaultDampingRatio: Option<real>, decompose: Decomposer,
                            hypot: (real, real) -> real, sqrt: real -> real)
    requires Decomposes(decompose) && IsSqrt(sqrt)
    requires Normalize.ValidModel(model) && DampingRatioOption(defaultDampingRatio) >= 0.0
    ensures RealModal(model, defaultDampingRatio, decompose, hypot, sqrt).Err? ==>
      RealModal(model, defaultDampingRatio, decompose, hypot, sqrt) == FormatFailure("Eigen analysis: no positive eigenvalue was found.")
  {
    AssemblyProperties.ValidModelAssembles(model, defaultDampingRatio);
    RealModalErrors(model, defaultDampingRatio, decompose, hypot, sqrt);
  }
}
