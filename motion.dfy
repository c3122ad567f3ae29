/*
 * What the Newmark-β integration of src/core/analysis/resp.ts achieves:
 * with an exact solve of the effective stiffness, every state it produces
 * satisfies the equation of motion `M·a + C·v + K·u = p` under its step's
 * load `p = -M·r·ag`, and with the absolute accelerations the records carry,
 * `M·(a + r·ag) + C·v + K·u = 0`.
 */
module Motion {
  import opened Results
  import opened Building
  import opened LinAlg
  import opened MatrixAssembly
  import opened TimeHistory
  import RealEigen
  import RealAnalysis

  /** State x satisfies `M·a + C·v + K·u = p` in every degree of freedom. */
  predicate Balanced(s: Integration, x: Kinematics, p: seq<real>)
    requires WellFormed(s) && Sized(x, 3 * s.storyCount) && |p| == 3 * s.storyCount
  {
    RowsBalanced(s.mass, s.damping, s.stiffness, 3 * s.storyCount, x.acc, x.v, x.u, p)
  }

  /** `M·a + C·v + K·u = p` for matrices of size d. */
  predicate RowsBalanced(mass: seq<seq<real>>, damping: seq<seq<real>>, stiffness: seq<seq<real>>, d: nat,
                         acc: seq<real>, v: seq<real>, u: seq<real>, p: seq<real>)
    requires Square(mass, d) && Square(damping, d) && Square(stiffness, d)
    requires |acc| == d && |v| == d && |u| == d && |p| == d
  {
    forall i :: 0 <= i < d ==> Dot(mass[i], acc) + Dot(damping[i], v) + Dot(stiffness[i], u) == p[i]
  }

  /** The solved system row by row: `K·u' + C·(a1 u') + M·(a0 u') = p + M·tM + C·tC`. */
  predicate Solved(mass: seq<seq<real>>, damping: seq<seq<real>>, stiffness: seq<seq<real>>, d: nat,
                   a0: real, a1: real, uNext: seq<real>, tM: seq<real>, tC: seq<real>, p: seq<real>)
    requires Square(mass, d) && Square(damping, d) && Square(stiffness, d)
    requires |uNext| == d && |tM| == d && |tC| == d && |p| == d
  {
    forall i :: 0 <= i < d ==>
      Dot(stiffness[i], uNext) + Dot(damping[i], Scale(uNext, a1)) + Dot(mass[i], Scale(uNext, a0))
        == p[i] + (Dot(mass[i], tM) + Dot(damping[i], tC))
  }

  /** Every off-diagonal entry of `m` is zero. */
  predicate Diagonal(m: seq<seq<real>>)
  {
    forall i, j :: 0 <= i < |m| && 0 <= j < |m[i]| && i != j ==> m[i][j] == 0.0
  }

  /** The effective stiffness row against x: `k·x + a1 (c·x) + a0 (m·x)`. */
  lemma DotEffectiveRow(k: seq<real>, c: seq<real>, m: seq<real>, a1: real, a0: real, x: seq<real>)
    requires |k| == |c| == |m| <= |x|
    ensures Dot(EffectiveRow(k, c, m, a1, a0), x) == Dot(k, x) + Dot(c, Scale(x, a1)) + Dot(m, Scale(x, a0))
  {
    var r := EffectiveRow(k, c, m, a1, a0);
    var sc, sm := Scale(c, a1), Scale(m, a0);
    var tail := AddVectors(sc, sm);
    assert forall j :: 0 <= j < |r| ==> r[j] == k[j] + tail[j];
    DotAddLeft(k, tail, r, x);
    DotAddLeft(sc, sm, tail, x);
    DotScaleLeft(c, x, a1);
    DotScaleLeft(m, x, a0);
    DotScaleRight(c, x, a1);
    DotScaleRight(m, x, a0);
  }

  /** The acceleration update, entry by entry: `a' = a0·u' - (a0·u + a2·v + a3·a)`. */
  lemma AccelerationEntry(c: Newmark, u: real, v: real, a: real, uNext: real)
    ensures (uNext + u * -1.0) * c.a0 + (v * -c.a2 + a * -c.a3) == uNext * c.a0 + (u * c.a0 + (v * c.a2 + a * c.a3)) * -1.0
  {
  }

  /** The velocity update, entry by entry, with constants that are consistent with γ and dt. */
  lemma VelocityEntry(c: Newmark, gamma: real, dt: real, u: real, v: real, a: real, uNext: real,
                      accNext: real, vNext: real, tC: real, w: real)
    requires Consistent(c, gamma, dt)
    requires accNext == (uNext + u * -1.0) * c.a0 + (v * -c.a2 + a * -c.a3)
    requires vNext == v + (a * (1.0 - gamma) + accNext * gamma) * dt
    requires tC == u * c.a1 + (v * c.a4 + a * c.a5) && w == uNext * c.a1 + tC * -1.0
    ensures vNext == w
  {
    calc {
      vNext;
      v + dt * (1.0 - gamma) * a + (dt * gamma * c.a0) * (uNext - u) - (dt * gamma * c.a2) * v - (dt * gamma * c.a3) * a;
      v + dt * (1.0 - gamma) * a + c.a1 * (uNext - u) - (c.a4 + 1.0) * v - (dt * gamma * c.a3) * a;
      w;
    }
  }

  /**
   * After a step the acceleration is `a0·u' - termM` and the velocity
   * `a1·u' - termC`, with termM and termC the right-hand-side terms.
   */
  lemma UpdateVectors(s: Integration, x: Kinematics, uNext: seq<real>)
    requires WellFormed(s) && Sized(x, 3 * s.storyCount) && |uNext| == 3 * s.storyCount
    ensures var c := Constants(s);
            Update(s, x, uNext).acc == StepVector(uNext, c.a0, MassTerm(c, x))
            && Update(s, x, uNext).v == StepVector(uNext, c.a1, DampingTerm(c, x))
  {
    NewmarkConstantsConsistent(s.beta, s.gamma, s.wave.dt);
    StepForms(Constants(s), s.gamma, s.wave.dt, x, uNext);
  }

  /** `UpdateVectors` for any consistent constants. */
  lemma StepForms(c: Newmark, gamma: real, dt: real, x: Kinematics, uNext: seq<real>)
    requires Consistent(c, gamma, dt) && |x.v| == |x.u| && |x.acc| == |x.u| && |uNext| == |x.u|
    ensures NextAcc(c, x, uNext) == StepVector(uNext, c.a0, MassTerm(c, x))
    ensures NextVel(gamma, dt, x, NextAcc(c, x, uNext)) == StepVector(uNext, c.a1, DampingTerm(c, x))
  {
    forall k | 0 <= k < |x.u|
      ensures NextAcc(c, x, uNext)[k] == StepVector(uNext, c.a0, MassTerm(c, x))[k]
    {
      AccelerationEntry(c, x.u[k], x.v[k], x.acc[k], uNext[k]);
    }
    forall k | 0 <= k < |x.u|
      ensures NextVel(gamma, dt, x, NextAcc(c, x, uNext))[k] == StepVector(uNext, c.a1, DampingTerm(c, x))[k]
    {
      VelocityAt(c, gamma, dt, x, uNext, k);
    }
  }

  lemma VelocityAt(c: Newmark, gamma: real, dt: real, x: Kinematics, uNext: seq<real>, k: nat)
    requires Consistent(c, gamma, dt) && |x.v| == |x.u| && |x.acc| == |x.u| && |uNext| == |x.u| && k < |x.u|
    ensures NextVel(gamma, dt, x, NextAcc(c, x, uNext))[k] == StepVector(uNext, c.a1, DampingTerm(c, x))[k]
  {
    var accNext, tC := NextAcc(c, x, uNext), DampingTerm(c, x);
    VelocityEntry(c, gamma, dt, x.u[k], x.v[k], x.acc[k], uNext[k], accNext[k], NextVel(gamma, dt, x, accNext)[k],
                  tC[k], StepVector(uNext, c.a1, tC)[k]);
  }

  /**
   * One row of the equation of motion after a step: with `a' = a0·u' - tM`,
   * `v' = a1·u' - tC` and the effective row solved at u', the row balances.
   */
  lemma RowBalance(mi: seq<real>, ci: seq<real>, ki: seq<real>, a0: real, a1: real, uNext: seq<real>,
                   tM: seq<real>, tC: seq<real>, p: real)
    requires |mi| == |ci| == |ki| == |uNext| == |tM| == |tC|
    requires Dot(ki, uNext) + Dot(ci, Scale(uNext, a1)) + Dot(mi, Scale(uNext, a0)) == p + (Dot(mi, tM) + Dot(ci, tC))
    ensures Dot(mi, StepVector(uNext, a0, tM)) + Dot(ci, StepVector(uNext, a1, tC)) + Dot(ki, uNext) == p
  {
    DotStepVector(mi, uNext, a0, tM);
    DotStepVector(ci, uNext, a1, tC);
  }

  /** The effective stiffness applied to x, row by row: `K·x + C·(a1 x) + M·(a0 x)`. */
  lemma EffectiveApply(stiffness: seq<seq<real>>, damping: seq<seq<real>>, mass: seq<seq<real>>,
                       a1: real, a0: real, d: nat, x: seq<real>)
    requires Square(stiffness, d) && Square(damping, d) && Square(mass, d) && |x| == d
    ensures forall i :: 0 <= i < d ==>
      MatVec(EffectiveStiffness(stiffness, damping, mass, a1, a0, d), x)[i]
        == Dot(stiffness[i], x) + Dot(damping[i], Scale(x, a1)) + Dot(mass[i], Scale(x, a0))
  {
    forall i | 0 <= i < d
      ensures MatVec(EffectiveStiffness(stiffness, damping, mass, a1, a0, d), x)[i]
        == Dot(stiffness[i], x) + Dot(damping[i], Scale(x, a1)) + Dot(mass[i], Scale(x, a0))
    {
      var k := EffectiveStiffness(stiffness, damping, mass, a1, a0, d);
      EffectiveRowAt(k, stiffness, damping, mass, a1, a0, d, i);
      DotEffectiveRow(stiffness[i], damping[i], mass[i], a1, a0, x);
    }
  }

  lemma EffectiveRowAt(k: seq<seq<real>>, stiffness: seq<seq<real>>, damping: seq<seq<real>>, mass: seq<seq<real>>,
                       a1: real, a0: real, d: nat, i: nat)
    requires Square(stiffness, d) && Square(damping, d) && Square(mass, d) && i < d
    requires k == EffectiveStiffness(stiffness, damping, mass, a1, a0, d)
    ensures k[i] == EffectiveRow(stiffness[i], damping[i], mass[i], a1, a0)
  {
  }

  /** `a·u' - t`, the form the new acceleration (with a0) and velocity (with a1) take. */
  function StepVector(uNext: seq<real>, a: real, t: seq<real>): (r: seq<real>)
    requires |uNext| <= |t|
    ensures |r| == |uNext|
  {
    AddVectors(Scale(uNext, a), Scale(t, -1.0))
  }

  lemma DotStepVector(row: seq<real>, uNext: seq<real>, a: real, t: seq<real>)
    requires |row| <= |uNext| <= |t|
    ensures Dot(row, StepVector(uNext, a, t)) == Dot(row, Scale(uNext, a)) - Dot(row, t)
  {
    DotAdd(row, Scale(uNext, a), Scale(t, -1.0), StepVector(uNext, a, t));
    DotScaleRight(row, t, -1.0);
  }

  /**
   * Whatever state a step starts from, the state the Newmark update produces
   * under load p satisfies the equation of motion under p, once the solver
   * solves the effective stiffness exactly.
   */
  lemma AdvanceBalanced(s: Integration, solve: Solver, x: Kinematics, p: seq<real>)
    requires WellFormed(s) && Solves(solve, KEff(s)) && Sized(x, 3 * s.storyCount) && |p| == 3 * s.storyCount
    ensures Balanced(s, Advance(s, solve, x, p), p)
  {
    var c := Constants(s);
    var uNext := solve(NewmarkRhs(s, x, p));
    var next := Advance(s, solve, x, p);
    assert next == Update(s, x, uNext);
    UpdateVectors(s, x, uNext);
    SolvedRows(s, solve, x, p);
    RowsBalance(s.mass, s.damping, s.stiffness, 3 * s.storyCount, c.a0, c.a1, uNext, MassTerm(c, x), DampingTerm(c, x), p);
  }

  /** `RowBalance` for every row of matrices of size d. */
  lemma RowsBalance(mass: seq<seq<real>>, damping: seq<seq<real>>, stiffness: seq<seq<real>>, d: nat, a0: real, a1: real,
                    uNext: seq<real>, tM: seq<real>, tC: seq<real>, p: seq<real>)
    requires Square(mass, d) && Square(damping, d) && Square(stiffness, d)
    requires |uNext| == d && |tM| == d && |tC| == d && |p| == d
    requires Solved(mass, damping, stiffness, d, a0, a1, uNext, tM, tC, p)
    ensures RowsBalanced(mass, damping, stiffness, d, StepVector(uNext, a0, tM), StepVector(uNext, a1, tC), uNext, p)
  {
    forall i | 0 <= i < d
      ensures Dot(mass[i], StepVector(uNext, a0, tM)) + Dot(damping[i], StepVector(uNext, a1, tC)) + Dot(stiffness[i], uNext) == p[i]
    {
      RowBalance(mass[i], damping[i], stiffness[i], a0, a1, uNext, tM, tC, p[i]);
    }
  }

  /** The solve, row by row: `K·u' + C·(a1 u') + M·(a0 u') = p + M·tM + C·tC`. */
  lemma SolvedRows(s: Integration, solve: Solver, x: Kinematics, p: seq<real>)
    requires WellFormed(s) && Solves(solve, KEff(s)) && Sized(x, 3 * s.storyCount) && |p| == 3 * s.storyCount
    ensures var c := Constants(s);
            Solved(s.mass, s.damping, s.stiffness, 3 * s.storyCount, c.a0, c.a1, solve(NewmarkRhs(s, x, p)),
                   MassTerm(c, x), DampingTerm(c, x), p)
  {
    var c := Constants(s);
    var rhs := NewmarkRhs(s, x, p);
    assert MatVec(KEff(s), solve(rhs)) == rhs;
    SolvedSystem(s.mass, s.damping, s.stiffness, 3 * s.storyCount, c.a0, c.a1, solve(rhs), MassTerm(c, x), DampingTerm(c, x), p);
  }

  /** An exact solve of `K + a1·C + a0·M` against `p + M·tM + C·tC`, row by row. */
  lemma SolvedSystem(mass: seq<seq<real>>, damping: seq<seq<real>>, stiffness: seq<seq<real>>, d: nat,
                     a0: real, a1: real, uNext: seq<real>, tM: seq<real>, tC: seq<real>, p: seq<real>)
    requires Square(mass, d) && Square(damping, d) && Square(stiffness, d)
    requires |uNext| == d && |tM| == d && |tC| == d && |p| == d
    requires MatVec(EffectiveStiffness(stiffness, damping, mass, a1, a0, d), uNext)
          == AddVectors(p, AddVectors(MatVec(mass, tM), MatVec(damping, tC)))
    ensures Solved(mass, damping, stiffness, d, a0, a1, uNext, tM, tC, p)
  {
    var rhs := AddVectors(p, AddVectors(MatVec(mass, tM), MatVec(damping, tC)));
    EffectiveApply(stiffness, damping, mass, a1, a0, d, uNext);
    forall i | 0 <= i < d
      ensures Dot(stiffness[i], uNext) + Dot(damping[i], Scale(uNext, a1)) + Dot(mass[i], Scale(uNext, a0))
        == p[i] + (Dot(mass[i], tM) + Dot(damping[i], tC))
    {
      assert rhs[i] == p[i] + (MatVec(mass, tM)[i] + MatVec(damping, tC)[i]);
    }
  }

  /** The initial state satisfies the equation of motion when the mass matrix is diagonal. */
  lemma InitialBalanced(s: Integration)
    requires WellFormed(s) && DiagonalOk(s.mass) && Diagonal(s.mass)
    ensures Balanced(s, Initial(s), Load(s, 0))
  {
    var x := Initial(s);
    forall i | 0 <= i < 3 * s.storyCount
      ensures Dot(s.mass[i], x.acc) + Dot(s.damping[i], x.v) + Dot(s.stiffness[i], x.u) == Load(s, 0)[i]
    {
      DotDiagonalRow(s.mass[i], x.acc, i);
    }
  }

  /**
   * Every state of the integration satisfies `M·a + C·v + K·u = p` under
   * its own step's load: the initial one by the diagonal division, every
   * later one by the exact solve.
   */
  lemma EquationOfMotion(s: Integration, solve: Solver, k: nat)
    requires WellFormed(s) && DiagonalOk(s.mass) && Diagonal(s.mass) && Solves(solve, KEff(s)) && k < |s.wave.time|
    ensures Balanced(s, StateAt(s, solve, k), Load(s, k))
  {
    if k == 0 {
      InitialBalanced(s);
    } else {
      AdvanceBalanced(s, solve, StateAt(s, solve, k - 1), Load(s, k));
    }
  }

  /**
   * With the absolute accelerations the records carry, the equation of
   * motion has no load: `M·(a + r·ag) + C·v + K·u = 0`.
   */
  lemma AbsoluteEquationOfMotion(s: Integration, solve: Solver, k: nat)
    requires WellFormed(s) && DiagonalOk(s.mass) && Diagonal(s.mass) && Solves(solve, KEff(s)) && k < |s.wave.time|
    ensures var x := StateAt(s, solve, k);
            forall i :: 0 <= i < 3 * s.storyCount ==>
              Dot(s.mass[i], AbsoluteAcc(x.acc, s.wave.accX[k], s.wave.accY[k])) + Dot(s.damping[i], x.v) + Dot(s.stiffness[i], x.u) == 0.0
  {
    EquationOfMotion(s, solve, k);
    LoadIsGroundInertia(s, k);
    AbsoluteBalanced(s, StateAt(s, solve, k), Load(s, k), s.wave.accX[k], s.wave.accY[k]);
  }

  /** The load of step k is the inertia of the ground motion, `-M·r·ag`. */
  lemma LoadIsGroundInertia(s: Integration, k: nat)
    requires WellFormed(s) && k < |s.wave.time|
    ensures var n := s.storyCount;
            var g := GroundVector(RealEigen.Influence(n, X), RealEigen.Influence(n, Y), s.wave.accX[k], s.wave.accY[k]);
            forall i :: 0 <= i < 3 * n ==> Load(s, k)[i] == -Dot(s.mass[i], g)
  {
  }

  /** A state balanced under the ground-inertia load balances with no load once its accelerations are absolute. */
  lemma AbsoluteBalanced(s: Integration, x: Kinematics, p: seq<real>, agx: real, agy: real)
    requires WellFormed(s) && Sized(x, 3 * s.storyCount) && |p| == 3 * s.storyCount && Balanced(s, x, p)
    requires var n := s.storyCount;
             var g := GroundVector(RealEigen.Influence(n, X), RealEigen.Influence(n, Y), agx, agy);
             forall i :: 0 <= i < 3 * n ==> p[i] == -Dot(s.mass[i], g)
    ensures forall i :: 0 <= i < 3 * s.storyCount ==>
      Dot(s.mass[i], AbsoluteAcc(x.acc, agx, agy)) + Dot(s.damping[i], x.v) + Dot(s.stiffness[i], x.u) == 0.0
  {
    var n := s.storyCount;
    var g := GroundVector(RealEigen.Influence(n, X), RealEigen.Influence(n, Y), agx, agy);
    AbsoluteAccIsRelativePlusGround(x.acc, n, agx, agy);
    forall i | 0 <= i < 3 * n
      ensures Dot(s.mass[i], AbsoluteAcc(x.acc, agx, agy)) + Dot(s.damping[i], x.v) + Dot(s.stiffness[i], x.u) == 0.0
    {
      DotAdd(s.mass[i], x.acc, g, AbsoluteAcc(x.acc, agx, agy));
    }
  }

  /** The assembled mass matrix is diagonal. */
  lemma MassRowsDiagonal(model: BuildingModel, n: nat)
    requires ShapeCheck(model) == Ok(n)
    ensures Diagonal(RealAnalysis.MassRows(model, n))
  {
  }
}
