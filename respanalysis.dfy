/*
 * `analyzeTimeHistory` of src/core/analysis/resp.ts as functions: the input
 * checks, the real eigen analysis that supplies the matrices with Rayleigh
 * damping, the Newmark integration of TimeHistory, and the response file it
 * returns, with the order in which its errors are raised.
 */
module RespAnalysis {
  import opened Results
  import opened Numbers
  import opened Building
  import opened LinAlg
  import opened MatrixAssembly
  import opened TimeHistory
  import Motion
  import RealEigen
  import RealAnalysis

  const MASS_DIAGONAL_ZERO: string := "Resp analysis: mass matrix diagonal includes zero value."
  const INVALID_OUTPUT: string := "Resp analysis: invalid output values."

  // ---- the integration and the response file ---------------------------------------------

  /**
   * The steps of `analyzeTimeHistory` after the eigen analysis, for the
   * matrices and wave in `s`: the factorisation of the effective stiffness,
   * the initial accelerations, the integration (whose first solve, at step
   * 1, every valid wave reaches), the header, the column maxima and the
   * final check.
   */
  function Response(s: Integration, baseShape: BaseShapeInfo, damperCount: nat, factor: Cholesky): Result<RespFile>
    requires WellFormed(s) && FactorFits(factor)
  {
    var d := 3 * s.storyCount;
    var kSolver :- factor(KEff(s));
    var accRel :- InitialAcc(s.mass, Load(s, 0), MatVec(s.damping, Zeros(d)), MatVec(s.stiffness, Zeros(d)));
    if !kSolver.positiveDefinite then PlainFailure(NOT_POSITIVE_DEFINITE)
    else FileOf(Records(s, kSolver.solve), s.storyCount, s.wave.dt, baseShape, damperCount)
  }

  /** The steps after the integration loop: the header, the column maxima, the final check and the returned object. */
  function FileOf(records: seq<seq<real>>, storyCount: nat, dt: real, baseShape: BaseShapeInfo, damperCount: nat): Result<RespFile>
  {
    var header := Header(storyCount);
    var columnMaxAbs :- ColumnMax(records, |header|);
    if AbsMax(columnMaxAbs) < 0.0 then FormatFailure(INVALID_OUTPUT)
    else Ok(RespFile(baseShape, RespMeta(storyCount as real, dt, damperCount as real), header, records, columnMaxAbs))
  }

  /** The body of `analyzeTimeHistory` from the Newmark constants to the returned object. */
  method Respond(s: Integration, baseShape: BaseShapeInfo, damperCount: nat, factor: Cholesky)
    returns (r: Result<RespFile>)
    requires WellFormed(s) && FactorFits(factor)
    ensures r == Response(s, baseShape, damperCount, factor)
  {
    var c := Constants(s);
    var dof := 3 * s.storyCount;
    var kEff := BuildEffectiveStiffness(s.stiffness, s.damping, s.mass, c.a1, c.a0, dof);
    var kSolver := factor(Rows(kEff));
    if kSolver.Err? {
      return Err(kSolver.error);
    }
    var rx, ry := CreateInfluenceVectors(s.storyCount);
    var u, v := Zeros(dof), Zeros(dof);
    var p0 := ComputeLoadVector(s.mass, rx, ry, s.wave.accX[0], s.wave.accY[0]);
    var cV0 := RealEigen.MatrixVector(s.damping, v);
    var kU0 := RealEigen.MatrixVector(s.stiffness, u);
    var accRel := InitialAcceleration(s.mass, p0, cV0, kU0);
    if accRel.Err? {
      return Err(accRel.error);
    }
    // The first solve, at step 1, raises the library's error; the rows recorded before it are dropped.
    if !kSolver.value.positiveDefinite {
      return PlainFailure(NOT_POSITIVE_DEFINITE);
    }
    var records := Integrate(s, kSolver.value.solve, Kinematics(u, v, accRel.value), rx, ry);
    var header := BuildHeader(s.storyCount);
    var columnMaxAbs := ColumnMaxAbs(records, |header|);
    if columnMaxAbs.Err? {
      return Err(columnMaxAbs.error);
    }
    if AbsMax(columnMaxAbs.value) < 0.0 {
      return FormatFailure(INVALID_OUTPUT);
    }
    r := Ok(RespFile(baseShape, RespMeta(s.storyCount as real, s.wave.dt, damperCount as real),
                     header, records, columnMaxAbs.value));
  }

  /** Every record has one value per header column. */
  lemma RecordsFitHeader(s: Integration, solve: Solver)
    requires WellFormed(s) && DiagonalOk(s.mass) && Fits(solve, 3 * s.storyCount)
    ensures |Records(s, solve)| == |s.wave.time| && RowsOfWidth(Records(s, solve), 6 * s.storyCount + 6)
  {
    RecordsAt(s, solve, 0);
    forall k | 0 <= k < |s.wave.time|
      ensures |Records(s, solve)[k]| == 6 * s.storyCount + 6
    {
      RecordsAt(s, solve, k);
      var x := StateAt(s, solve, k);
      RecordRowLayout(s.wave.time[k], s.storyCount, x.u, AbsoluteAcc(x.acc, s.wave.accX[k], s.wave.accY[k]));
    }
  }

  /** Every record has `width` values. */
  predicate RowsOfWidth(records: seq<seq<real>>, width: nat)
  {
    forall k :: 0 <= k < |records| ==> |records[k]| == width
  }

  /** `m` holds, per column, a non-negative bound of every magnitude in it that some record attains. */
  predicate ColumnMaxima(records: seq<seq<real>>, width: nat, m: seq<real>)
  {
    |m| == width
    && (forall i :: 0 <= i < width ==> m[i] >= 0.0 && (records != [] ==> Attained(records, i, m[i])))
    && (forall k, i :: 0 <= k < |records| && 0 <= i < width && i < |records[k]| ==> Abs(records[k][i]) <= m[i])
  }

  /**
   * Records of one value per header column make a file: the header of 6n+6
   * names, the records unchanged, the meta data, and per column the largest
   * magnitude in it.  A record of another length gives the row-length error.
   */
  lemma FileOfSpec(records: seq<seq<real>>, storyCount: nat, dt: real, baseShape: BaseShapeInfo, damperCount: nat)
    requires storyCount >= 1
    ensures var r := FileOf(records, storyCount, dt, baseShape, damperCount);
      (r.Ok? <==> RowsOfWidth(records, 6 * storyCount + 6))
      && (r.Err? ==> r == FormatFailure("Resp analysis: internal row length mismatch."))
    ensures var r := FileOf(records, storyCount, dt, baseShape, damperCount);
      r.Ok? ==>
        r.value.baseShape == baseShape
        && r.value.meta == RespMeta(storyCount as real, dt, damperCount as real)
        && r.value.header == Header(storyCount) && |r.value.header| == 6 * storyCount + 6
        && r.value.records == records
        && ColumnMaxima(records, 6 * storyCount + 6, r.value.columnMaxAbs)
  {
    HeaderLayout(storyCount);
    var width := 6 * storyCount + 6;
    if RowsOfWidth(records, width) {
      ColumnMaxIsMax(records, width);
      AbsMaxIsMax(ColumnMax(records, width).value);
    }
  }

  /**
   * The response fails exactly when the factorisation raises its error, the
   * mass diagonal has a negligible entry, or the factorisation is not
   * positive definite, each with its own error and in that order; the
   * row-length and invalid-output errors cannot occur.  Otherwise it is the
   * file of the records of every sample.
   */
  lemma ResponseSpec(s: Integration, baseShape: BaseShapeInfo, damperCount: nat, factor: Cholesky)
    requires WellFormed(s) && FactorFits(factor)
    ensures var r := Response(s, baseShape, damperCount, factor);
      var f := factor(KEff(s));
      (r.Ok? <==> f.Ok? && DiagonalOk(s.mass) && f.value.positiveDefinite)
      && (f.Err? ==> r == Err(f.error))
      && (f.Ok? && !DiagonalOk(s.mass) ==> r == FormatFailure(MASS_DIAGONAL_ZERO))
      && (f.Ok? && DiagonalOk(s.mass) && !f.value.positiveDefinite ==> r == PlainFailure(NOT_POSITIVE_DEFINITE))
    ensures var f := factor(KEff(s));
      f.Ok? && DiagonalOk(s.mass) && f.value.positiveDefinite ==>
        var records := Records(s, f.value.solve);
        |records| == |s.wave.time| && RowsOfWidth(records, 6 * s.storyCount + 6)
        && Response(s, baseShape, damperCount, factor) == FileOf(records, s.storyCount, s.wave.dt, baseShape, damperCount)
  {
    var f := factor(KEff(s));
    if f.Ok? && DiagonalOk(s.mass) && f.value.positiveDefinite {
      var records := Records(s, f.value.solve);
      RecordsFitHeader(s, f.value.solve);
      FileOfSpec(records, s.storyCount, s.wave.dt, baseShape, damperCount);
    }
  }

  /** The integration loop: one record per sample, from the initial state on. */
  method Integrate(s: Integration, solve: Solver, init: Kinematics, rx: seq<real>, ry: seq<real>)
    returns (records: seq<seq<real>>)
    requires WellFormed(s) && DiagonalOk(s.mass) && Fits(solve, 3 * s.storyCount) && init == Initial(s)
    requires rx == RealEigen.Influence(s.storyCount, X) && ry == RealEigen.Influence(s.storyCount, Y)
    ensures records == Records(s, solve)
  {
    var x := init;
    records := [];
    var step := 0;
    while step < |s.wave.time|
      invariant step <= |s.wave.time|
      invariant x == StateAt(s, solve, if step == 0 then 0 else step - 1)
      invariant records == RecordsUpTo(s, solve, step)
    {
      x, records := PushStep(s, solve, x, rx, ry, step, records);
      step := step + 1;
    }
  }

  /**
   * A response that succeeds is a file with the base shape and the meta
   * data it was given, the header of 6n+6 names, one record of 6n+6 values
   * per sample of the wave, and per column the largest magnitude in it.
   */
  lemma ResponseFile(s: Integration, baseShape: BaseShapeInfo, damperCount: nat, factor: Cholesky)
    requires WellFormed(s) && FactorFits(factor)
    requires Response(s, baseShape, damperCount, factor).Ok?
    ensures var file := Response(s, baseShape, damperCount, factor).value;
      var n := s.storyCount;
      file.baseShape == baseShape
      && file.meta == RespMeta(n as real, s.wave.dt, damperCount as real)
      && file.header == Header(n) && |file.header| == 6 * n + 6
      && |file.records| == |s.wave.time| && RowsOfWidth(file.records, 6 * n + 6)
      && ColumnMaxima(file.records, 6 * n + 6, file.columnMaxAbs)
  {
    ResponseSpec(s, baseShape, damperCount, factor);
    var f := factor(KEff(s));
    FileOfSpec(Records(s, f.value.solve), s.storyCount, s.wave.dt, baseShape, damperCount);
  }

  /**
   * Record k of a response is the record of the Newmark state of sample k,
   * and with a diagonal mass matrix and a factorisation that solves exactly,
   * that state satisfies the equation of motion in absolute accelerations,
   * `M·(a + r·ag) + C·v + K·u = 0`, row by row.
   */
  lemma ResponseRecordsMotion(s: Integration, baseShape: BaseShapeInfo, damperCount: nat, factor: Cholesky, k: nat)
    requires WellFormed(s) && FactorFits(factor) && FactorSolves(factor) && Motion.Diagonal(s.mass)
    requires Response(s, baseShape, damperCount, factor).Ok? && k < |s.wave.time|
    ensures factor(KEff(s)).Ok? && DiagonalOk(s.mass)
    ensures var solve := factor(KEff(s)).value.solve;
      var x := StateAt(s, solve, k);
      var acc := AbsoluteAcc(x.acc, s.wave.accX[k], s.wave.accY[k]);
      Records(s, solve)[k] == RecordRow(s.wave.time[k], s.storyCount, x.u, acc)
      && forall i :: 0 <= i < 3 * s.storyCount ==>
           Dot(s.mass[i], acc) + Dot(s.damping[i], x.v) + Dot(s.stiffness[i], x.u) == 0.0
  {
    ResponseSpec(s, baseShape, damperCount, factor);
    var f := factor(KEff(s));
    var records := Records(s, f.value.solve);
    FileOfSpec(records, s.storyCount, s.wave.dt, baseShape, damperCount);
    RecordsAt(s, f.value.solve, k);
    assert Solves(f.value.solve, KEff(s));
    Motion.AbsoluteEquationOfMotion(s, f.value.solve, k);
  }

  // ---- the whole analysis ------------------------------------------------------------------

  /** The damping ratio the eigen analysis is given: `options.defaultDampingRatio ?? 0.02`. */
  function RatioOption(options: TimeHistoryOptions): Option<real>
  {
    Some(OrDefault(options.defaultDampingRatio, 0.02))
  }

  /** The number of dampers the response file reports: the mass dampers and the brace dampers together. */
  function DamperCount(model: BuildingModel): nat
  {
    |model.massDampers| + |model.braceDampers|
  }

  /**
   * The part of `analyzeTimeHistory` before the integration: the wave check,
   * the Newmark parameters and the real eigen analysis, giving the problem
   * the integration runs on, or the first of their errors.
   */
  function TimeHistoryProblem(model: BuildingModel, wave: GroundWave, options: TimeHistoryOptions,
                              decompose: RealAnalysis.Decomposer, hypot: (real, real) -> real, sqrt: real -> real)
    : (r: Result<Integration>)
    requires RealAnalysis.Decomposes(decompose) && IsSqrt(sqrt)
    ensures r.Ok? ==> WellFormed(r.value) && AssemblyCheck(model, RatioOption(options)) == Ok(r.value.storyCount)
    ensures r.Ok? ==> r.value.wave == wave && r.value.mass == RealAnalysis.MassRows(model, r.value.storyCount)
  {
    var _ :- ValidateWave(wave);
    var parameters :- NewmarkParameters(options);
    var modal :- RealAnalysis.RealModal(model, RatioOption(options), decompose, hypot, sqrt);
    Ok(Problem(model, wave, options, hypot, sqrt, parameters.0, parameters.1, modal))
  }

  /**
   * `analyzeTimeHistory`: the integration over the model's mass and
   * stiffness matrices and the damping matrix with Rayleigh damping at the
   * circular frequencies the eigen analysis found.
   */
  function TimeHistoryResponse(model: BuildingModel, wave: GroundWave, options: TimeHistoryOptions,
                               decompose: RealAnalysis.Decomposer, hypot: (real, real) -> real, sqrt: real -> real,
                               factor: Cholesky): Result<RespFile>
    requires RealAnalysis.Decomposes(decompose) && IsSqrt(sqrt) && FactorFits(factor)
  {
    ResponseOf(model, TimeHistoryProblem(model, wave, options, decompose, hypot, sqrt), factor)
  }

  /** The response of a problem, with the model's base shape and damper count, or the error that stopped it. */
  function ResponseOf(model: BuildingModel, problem: Result<Integration>, factor: Cholesky): (r: Result<RespFile>)
    requires problem.Ok? ==> WellFormed(problem.value)
    requires FactorFits(factor)
    ensures problem.Err? ==> r == Err(problem.error)
    ensures problem.Ok? ==> r == Response(problem.value, BaseShapeOf(model, problem.value.storyCount),
                                          DamperCount(model), factor)
  {
    if problem.Err? then Err(problem.error)
    else Response(problem.value, BaseShapeOf(model, problem.value.storyCount),
                  DamperCount(model), factor)
  }

  /** The matrices and wave the integration runs on, once the eigen analysis has given `modal`. */
  function Problem(model: BuildingModel, wave: GroundWave, options: TimeHistoryOptions,
                   hypot: (real, real) -> real, sqrt: real -> real, beta: real, gamma: real,
                   modal: ModalDatFile): (s: Integration)
    requires AssemblyCheck(model, RatioOption(options)).Ok? && ValidWave(wave) && beta > 0.0 && gamma > 0.0
    ensures WellFormed(s) && s.storyCount == AssemblyCheck(model, RatioOption(options)).value
  {
    var n := AssemblyCheck(model, RatioOption(options)).value;
    var omegas := RealAnalysis.OmegasOf(modal.modal.frequenciesHz);
    Integration(n, RealAnalysis.MassRows(model, n),
                RealAnalysis.DampedRows(model, n, omegas, DampingRatioOption(RatioOption(options)), hypot, sqrt),
                RealAnalysis.StiffnessRows(model, n, hypot, sqrt), wave, beta, gamma)
  }
}
