/*
 * `analyzeTimeHistory` of src/core/analysis/resp.ts step by step,
 * from the model on, and what the analysis it computes promises.
 */
module TimeHistoryAnalysis {
  import opened Results
  import opened Numbers
  import opened Building
  import opened LinAlg
  import opened MatrixAssembly
  import opened TimeHistory
  import opened RespAnalysis

  import RealAnalysis
  import Motion

  /** `analyzeTimeHistory` as resp.ts runs it, on the matrices the real eigen analysis returns. */
  method AnalyzeTimeHistory(model: BuildingModel, wave: GroundWave, options: TimeHistoryOptions,
                            decompose: RealAnalysis.Decomposer, hypot: (real, real) -> real, sqrt: real -> real,
                            factor: Cholesky) returns (r: Result<RespFile>)
    requires RealAnalysis.Decomposes(decompose) && IsSqrt(sqrt) && FactorFits(factor)
    ensures r == TimeHistoryResponse(model, wave, options, decompose, hypot, sqrt, factor)
  {
    var problem, baseShape := PrepareProblem(model, wave, options, decompose, hypot, sqrt);
    if problem.Err? {
      return Err(problem.error);
    }
    r := Respond(problem.value, baseShape, DamperCount(model), factor);
  }

  /**
   * The steps of `analyzeTimeHistory` before the integration: the wave
   * check, the Newmark parameters and the real eigen analysis, with the base
   * shape that analysis reports.
   */
  method PrepareProblem(model: BuildingModel, wave: GroundWave, options: TimeHistoryOptions,
                        decompose: RealAnalysis.Decomposer, hypot: (real, real) -> real, sqrt: real -> real)
    returns (problem: Result<Integration>, baseShape: BaseShapeInfo)
    requires RealAnalysis.Decomposes(decompose) && IsSqrt(sqrt)
    ensures problem == TimeHistoryProblem(model, wave, options, decompose, hypot, sqrt)
    ensures problem.Ok? ==> baseShape == BaseShapeOf(model, problem.value.storyCount)
  {
    baseShape := BaseShapeOf(model, 0);
    var valid := ValidateWave(wave);
    if valid.Err? {
      return Err(valid.error), baseShape;
    }
    var parameters := NewmarkParameters(options);
    if parameters.Err? {
      return Err(parameters.error), baseShape;
    }
    var analysis := RealAnalysis.AnalyzeRealEigen(model, RatioOption(options), decompose, hypot, sqrt);
    if analysis.Err? {
      return Err(analysis.error), baseShape;
    }
    var matrices := analysis.value.matrices;
    var s := Integration(matrices.storyCount, Rows(matrices.mass), Rows(matrices.damping), Rows(matrices.stiffness),
                         wave, parameters.value.0, parameters.value.1);
    ProblemOfMatrices(matrices, wave, options, hypot, sqrt, parameters.value.0, parameters.value.1, analysis.value.modal);
    problem, baseShape := Ok(s), matrices.baseShape;
  }

  /** The matrices `analyzeRealEigen` returns make the problem `Problem` describes. */
  lemma ProblemOfMatrices(a: AnalysisMatrices, wave: GroundWave, options: TimeHistoryOptions,
                          hypot: (real, real) -> real, sqrt: real -> real, beta: real, gamma: real, modal: ModalDatFile)
    requires RealAnalysis.RayleighDamped(a, RealAnalysis.OmegasOf(modal.modal.frequenciesHz),
                                         DampingRatioOption(RatioOption(options)), hypot, sqrt)
    requires AssemblyCheck(a.model, RatioOption(options)).Ok? && ValidWave(wave) && beta > 0.0 && gamma > 0.0
    ensures Integration(a.storyCount, Rows(a.mass), Rows(a.damping), Rows(a.stiffness), wave, beta, gamma)
            == Problem(a.model, wave, options, hypot, sqrt, beta, gamma, modal)
    ensures a.baseShape == BaseShapeOf(a.model, a.storyCount)
  {
    RealAnalysis.RayleighDampedRows(a, RealAnalysis.OmegasOf(modal.modal.frequenciesHz),
                                    DampingRatioOption(RatioOption(options)), hypot, sqrt);
  }

  /**
   * The checks before the integration, in the order of resp.ts: the wave, then
   * the Newmark parameters, then the real eigen analysis, each failure
   * passed on unchanged.  Past them the problem is the model's mass and
   * stiffness matrices, the Rayleigh damping at the frequencies the eigen
   * analysis found, the wave, and `beta ?? 0.25`, `gamma ?? 0.5`.
   */
  lemma TimeHistoryProblemSpec(model: BuildingModel, wave: GroundWave, options: TimeHistoryOptions,
                               decompose: RealAnalysis.Decomposer, hypot: (real, real) -> real, sqrt: real -> real)
    requires RealAnalysis.Decomposes(decompose) && IsSqrt(sqrt)
    ensures var p := TimeHistoryProblem(model, wave, options, decompose, hypot, sqrt);
      var modal := RealAnalysis.RealModal(model, RatioOption(options), decompose, hypot, sqrt);
      (p.Ok? <==> ValidWave(wave) && NewmarkParameters(options).Ok? && modal.Ok?)
      && (!ValidWave(wave) ==> p == Err(ValidateWave(wave).error))
      && (ValidWave(wave) && NewmarkParameters(options).Err? ==> p == FormatFailure("Resp analysis: beta and gamma must be > 0."))
      && (ValidWave(wave) && NewmarkParameters(options).Ok? && modal.Err? ==> p == Err(modal.error))
    ensures var p := TimeHistoryProblem(model, wave, options, decompose, hypot, sqrt);
      var modal := RealAnalysis.RealModal(model, RatioOption(options), decompose, hypot, sqrt);
      p.Ok? ==>
        var n := AssemblyCheck(model, RatioOption(options)).value;
        var omegas := RealAnalysis.OmegasOf(modal.value.modal.frequenciesHz);
        p.value.storyCount == n && n >= 1 && p.value.wave == wave
        && p.value.mass == RealAnalysis.MassRows(model, n)
        && p.value.stiffness == RealAnalysis.StiffnessRows(model, n, hypot, sqrt)
        && p.value.damping == RealAnalysis.DampedRows(model, n, omegas, DampingRatioOption(RatioOption(options)), hypot, sqrt)
        && p.value.beta == OrDefault(options.beta, 0.25) && p.value.gamma == OrDefault(options.gamma, 0.5)
  {
  }

  /**
   * `analyzeTimeHistory` fails exactly when a check before the integration
   * fails or the response of the problem fails, with that error.
   */
  lemma TimeHistoryErrors(model: BuildingModel, wave: GroundWave, options: TimeHistoryOptions,
                          decompose: RealAnalysis.Decomposer, hypot: (real, real) -> real, sqrt: real -> real,
                          factor: Cholesky)
    requires RealAnalysis.Decomposes(decompose) && IsSqrt(sqrt) && FactorFits(factor)
    ensures var r := TimeHistoryResponse(model, wave, options, decompose, hypot, sqrt, factor);
      var p := TimeHistoryProblem(model, wave, options, decompose, hypot, sqrt);
      (p.Err? ==> r == Err(p.error))
      && (p.Ok? ==>
            var f := factor(KEff(p.value));
            (r.Ok? <==> f.Ok? && DiagonalOk(p.value.mass) && f.value.positiveDefinite)
            && (f.Err? ==> r == Err(f.error))
            && (f.Ok? && !DiagonalOk(p.value.mass) ==> r == FormatFailure(MASS_DIAGONAL_ZERO))
            && (f.Ok? && DiagonalOk(p.value.mass) && !f.value.positiveDefinite ==> r == PlainFailure(NOT_POSITIVE_DEFINITE)))
  {
    var p := TimeHistoryProblem(model, wave, options, decompose, hypot, sqrt);
    if p.Ok? {
      ResponseSpec(p.value, BaseShapeOf(model, p.value.storyCount), DamperCount(model), factor);
    }
  }

  /**
   * A result of `analyzeTimeHistory` carries the eigen analysis's base
   * shape, the meta data (story count, `wave.dt`, damper count), the header,
   * one record of 6n+6 values per sample of the wave, and the column maxima
   * of those records.
   */
  lemma TimeHistoryFile(model: BuildingModel, wave: GroundWave, options: TimeHistoryOptions,
                        decompose: RealAnalysis.Decomposer, hypot: (real, real) -> real, sqrt: real -> real,
                        factor: Cholesky)
    requires RealAnalysis.Decomposes(decompose) && IsSqrt(sqrt) && FactorFits(factor)
    requires TimeHistoryResponse(model, wave, options, decompose, hypot, sqrt, factor).Ok?
    ensures var file := TimeHistoryResponse(model, wave, options, decompose, hypot, sqrt, factor).value;
      var modal := RealAnalysis.RealModal(model, RatioOption(options), decompose, hypot, sqrt);
      AssemblyCheck(model, RatioOption(options)).Ok? && modal.Ok?
      && var n := AssemblyCheck(model, RatioOption(options)).value;
        file.baseShape == modal.value.baseShape && file.baseShape == BaseShapeOf(model, n)
        && file.meta == RespMeta(n as real, wave.dt, DamperCount(model) as real)
        && file.header == Header(n) && |file.header| == 6 * n + 6
        && |file.records| == |wave.time| && RowsOfWidth(file.records, 6 * n + 6)
        && ColumnMaxima(file.records, 6 * n + 6, file.columnMaxAbs)
  {
    var p := TimeHistoryProblem(model, wave, options, decompose, hypot, sqrt);
    assert p.Ok?;
    ResponseFile(p.value, BaseShapeOf(model, p.value.storyCount), DamperCount(model), factor);
    TimeHistoryProblemSpec(model, wave, options, decompose, hypot, sqrt);
    RealAnalysis.RealModalSpec(model, RatioOption(options), decompose, hypot, sqrt);
  }

  /**
   * With a factorisation that solves exactly, record k of a result is the
   * record of the Newmark state at sample k, and that state satisfies the
   * model's equation of motion in absolute accelerations,
   * `M·(a + r·ag) + C·v + K·u = 0`, with the mass matrix of the model, its
   * stiffness matrix and the Rayleigh damping of the problem.
   */
  lemma TimeHistoryMotion(model: BuildingModel, wave: GroundWave, options: TimeHistoryOptions,
                          decompose: RealAnalysis.Decomposer, hypot: (real, real) -> real, sqrt: real -> real,
                          factor: Cholesky, k: nat)
    requires RealAnalysis.Decomposes(decompose) && IsSqrt(sqrt) && FactorFits(factor) && FactorSolves(factor)
    requires TimeHistoryResponse(model, wave, options, decompose, hypot, sqrt, factor).Ok? && k < |wave.time|
    ensures var p := TimeHistoryProblem(model, wave, options, decompose, hypot, sqrt);
      p.Ok? && p.value.wave == wave && factor(KEff(p.value)).Ok?
      && var s := p.value;
        var solve := factor(KEff(s)).value.solve;
        var x := StateAt(s, solve, k);
        var acc := AbsoluteAcc(x.acc, wave.accX[k], wave.accY[k]);
        Records(s, solve)[k] == RecordRow(wave.time[k], s.storyCount, x.u, acc)
        && forall i :: 0 <= i < 3 * s.storyCount ==>
             Dot(s.mass[i], acc) + Dot(s.damping[i], x.v) + Dot(s.stiffness[i], x.u) == 0.0
  {
    var p := TimeHistoryProblem(model, wave, options, decompose, hypot, sqrt);
    assert p.Ok?;
    var s := p.value;
    Motion.MassRowsDiagonal(model, s.storyCount);
    ResponseRecordsMotion(s, BaseShapeOf(model, s.storyCount), DamperCount(model), factor, k);
  }
}
