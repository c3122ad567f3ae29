/*
 * What the assembler promises beyond its own contract: a model the
 * normaliser accepts always passes the assembler's checks, the first
 * failing element is the one reported, the stiffness and damping matrices
 * are symmetric and banded, and the mass matrix is a positive diagonal
 * whenever the weights are.
 */
module AssemblyProperties {
  import opened Results
  import opened Numbers
  import opened Building
  import opened StoryBlocks
  import opened MatrixAssembly
  import Normalize

  // ---- the element checks -----------------------------------------------------------------

  /** The element checks pass exactly when every element passes its own check. */
  lemma {:induction false} CheckAllOk<T>(xs: seq<T>, check: T -> Result<()>)
    ensures CheckAll(xs, check).Ok? <==> forall k :: 0 <= k < |xs| ==> check(xs[k]).Ok?
  {
    if xs != [] {
      CheckAllOk(xs[1..], check);
      assert forall k :: 0 < k < |xs| ==> xs[1..][k - 1] == xs[k];
    }
  }

  /** A failing list of checks reports the error of its first failing element. */
  lemma {:induction false} CheckAllFirstError<T>(xs: seq<T>, check: T -> Result<()>)
    requires CheckAll(xs, check).Err?
    ensures exists k :: (0 <= k < |xs| && check(xs[k]) == CheckAll(xs, check)
      && forall j :: 0 <= j < k ==> check(xs[j]).Ok?)
  {
    if check(xs[0]).Ok? {
      CheckAllFirstError(xs[1..], check);
      var k :| 0 <= k < |xs[1..]| && check(xs[1..][k]) == CheckAll(xs[1..], check)
        && forall j :: 0 <= j < k ==> check(xs[1..][j]).Ok?;
      assert xs[k + 1] == xs[1..][k];
      forall j | 0 <= j < k + 1
        ensures check(xs[j]).Ok?
      {
        if j > 0 {
          assert xs[j] == xs[1..][j - 1];
        }
      }
    } else {
      assert check(xs[0]) == CheckAll(xs, check);
    }
  }

  /** A wall whose type is in the database and which the normaliser's geometry rule accepts passes the wall check. */
  lemma WallPasses(w: Wall, n: nat, db: seq<WallChara>)
    requires Normalize.LayerOk(w.layer, Some(n as real))
    requires w.name in Normalize.CharaNames(db) && Normalize.WallShapeOk(w)
    ensures WallCheck(n, db)(w).Ok?
  {
    var i :| 0 <= i < |db| && db[i].name == w.name;
    assert FindWallChara(db, w.name).Ok?;
  }

  /** Columns on stories 1..n pass their checks. */
  lemma ColumnsPass(columns: seq<Column>, n: nat)
    requires forall c :: c in columns ==> Normalize.LayerOk(c.layer, Some(n as real))
    ensures CheckAll(columns, ColumnCheck(n)).Ok?
  {
    CheckAllOk(columns, ColumnCheck(n));
    assert forall k :: 0 <= k < |columns| ==> columns[k] in columns;
  }

  /** Walls on stories 1..n with resolvable types and axis-aligned, non-degenerate shapes pass their checks. */
  lemma WallsPass(walls: seq<Wall>, n: nat, db: seq<WallChara>)
    requires forall w :: w in walls ==> Normalize.LayerOk(w.layer, Some(n as real))
    requires forall w :: w in walls ==> w.name in Normalize.CharaNames(db) && Normalize.WallShapeOk(w)
    ensures CheckAll(walls, WallCheck(n, db)).Ok?
  {
    CheckAllOk(walls, WallCheck(n, db));
    forall k | 0 <= k < |walls|
      ensures WallCheck(n, db)(walls[k]).Ok?
    {
      assert walls[k] in walls;
      WallPasses(walls[k], n, db);
    }
  }

  /** dxPanels on stories 1..n pass their checks. */
  lemma PanelsPass(panels: seq<DXPanel>, n: nat)
    requires forall p :: p in panels ==> Normalize.LayerOk(p.layer, Some(n as real))
    ensures CheckAll(panels, PanelCheck(n)).Ok?
  {
    CheckAllOk(panels, PanelCheck(n));
    assert forall k :: 0 <= k < |panels| ==> panels[k] in panels;
  }

  /** Brace dampers on stories 1..n pass their checks. */
  lemma BracesPass(braces: seq<BraceDamper>, n: nat)
    requires forall b :: b in braces ==> Normalize.LayerOk(b.layer, Some(n as real))
    ensures CheckAll(braces, BraceCheck(n)).Ok?
  {
    CheckAllOk(braces, BraceCheck(n));
    assert forall k :: 0 <= k < |braces| ==> braces[k] in braces;
  }

  /** Mass dampers on stories 1..n pass their checks. */
  lemma DampersPass(dampers: seq<MassDamper>, n: nat)
    requires forall d :: d in dampers ==> Normalize.LayerOk(d.layer, Some(n as real))
    ensures CheckAll(dampers, DamperCheck(n)).Ok?
  {
    CheckAllOk(dampers, DamperCheck(n));
    assert forall k :: 0 <= k < |dampers| ==> dampers[k] in dampers;
  }

  /** Every element of a valid model lies on a story, and every wall resolves and classifies. */
  lemma ValidModelPassesElements(m: BuildingModel, n: nat)
    requires Normalize.ValidModel(m) && ShapeCheck(m) == Ok(n)
    ensures ElementsCheck(m, n).Ok?
  {
    assert Normalize.MassN(m) == Some(n as real);
    ColumnsPass(m.columns, n);
    WallsPass(m.walls, n, m.wallCharaDB);
    PanelsPass(m.dxPanels, n);
    BracesPass(m.braceDampers, n);
    DampersPass(m.massDampers, n);
  }

  /** A model meeting every validator's rule assembles, with story count massN, for any non-negative damping ratio. */
  lemma ValidModelAssembles(m: BuildingModel, defaultDampingRatio: Option<real>)
    requires Normalize.ValidModel(m) && DampingRatioOption(defaultDampingRatio) >= 0.0
    ensures AssemblyCheck(m, defaultDampingRatio).Ok?
    ensures AssemblyCheck(m, defaultDampingRatio).value as real == m.structInfo.value.massN
  {
    var n := ShapeCheck(m).value;
    ValidModelPassesElements(m, n);
  }

  /** The normaliser's output always assembles. */
  lemma NormalizedModelAssembles(m: BuildingModel, normalized: BuildingModel, defaultDampingRatio: Option<real>)
    requires Normalize.NormalizeBuildingModel(m) == Ok(normalized)
    requires DampingRatioOption(defaultDampingRatio) >= 0.0
    ensures AssemblyCheck(normalized, defaultDampingRatio).Ok?
  {
    Normalize.NormalizeIdempotent(m, normalized);
    Normalize.NormalizeAcceptsValid(normalized);
    ValidModelAssembles(normalized, defaultDampingRatio);
  }

  /** On a valid model the damping ratio is the only thing that can fail, and it fails exactly when negative. */
  lemma ValidModelRatioRule(m: BuildingModel, defaultDampingRatio: Option<real>)
    requires Normalize.ValidModel(m)
    ensures AssemblyCheck(m, defaultDampingRatio).Err? <==> DampingRatioOption(defaultDampingRatio) < 0.0
    ensures AssemblyCheck(m, defaultDampingRatio).Err? ==>
      AssemblyCheck(m, defaultDampingRatio) == FormatFailure("Analysis: defaultDampingRatio must be >= 0.")
  {
    var n := ShapeCheck(m).value;
    ValidModelPassesElements(m, n);
  }

  // ---- the assembled matrices ---------------------------------------------------------------

  /** The assembled stiffness and damping matrices are symmetric. */
  lemma AssembledSymmetric(a: AnalysisMatrices, hypot: (real, real) -> real, sqrt: real -> real)
    requires Assembled(a, hypot, sqrt)
    ensures forall i, j :: 0 <= i < a.dofCount && 0 <= j < a.dofCount ==>
      a.stiffness[i, j] == a.stiffness[j, i] && a.damping[i, j] == a.damping[j, i]
  {
    var cs := StoryContributions(a.model, hypot, sqrt);
    forall i, j | 0 <= i < a.dofCount && 0 <= j < a.dofCount
      ensures a.stiffness[i, j] == a.stiffness[j, i] && a.damping[i, j] == a.damping[j, i]
    {
      ShearSymmetric(Blocks(cs, Stiffness), i, j);
      ShearSymmetric(Blocks(cs, Damping), i, j);
    }
  }

  /** Degrees of freedom of stories two or more apart are not coupled by stiffness or damping. */
  lemma AssembledBanded(a: AnalysisMatrices, hypot: (real, real) -> real, sqrt: real -> real, i: nat, j: nat)
    requires Assembled(a, hypot, sqrt)
    requires i < a.dofCount && j < a.dofCount && (i / 3 > j / 3 + 1 || j / 3 > i / 3 + 1)
    ensures a.stiffness[i, j] == 0.0 && a.damping[i, j] == 0.0
  {
    var cs := StoryContributions(a.model, hypot, sqrt);
    ShearBanded(Blocks(cs, Stiffness), i, j);
    ShearBanded(Blocks(cs, Damping), i, j);
  }

  /** Mass dampers add mass on translational entries only, never as rotational inertia. */
  lemma {:induction false} DampersNoRotation(ds: seq<MassDamper>, r: nat)
    requires r % 3 == 2
    ensures DampersMassAt(ds, r) == 0.0
  {
    if ds != [] {
      DampersNoRotation(ds[..|ds| - 1], r);
    }
  }

  /** Mass dampers of non-negative weight add non-negative mass. */
  lemma {:induction false} DampersMassNonNegative(ds: seq<MassDamper>, r: int)
    requires forall k :: 0 <= k < |ds| ==> ds[k].weight >= 0.0
    ensures DampersMassAt(ds, r) >= 0.0
  {
    if ds != [] {
      DampersMassNonNegative(ds[..|ds| - 1], r);
    }
  }

  /** With positive story weights and moments and non-negative damper weights, the mass diagonal is positive. */
  lemma MassDiagonalPositive(model: BuildingModel, r: nat)
    requires model.structInfo.Some? && |model.structInfo.value.wMoment| == |model.structInfo.value.weight|
    requires r < 3 * |model.structInfo.value.weight|
    requires forall k :: 0 <= k < |model.structInfo.value.weight| ==> model.structInfo.value.weight[k] > 0.0
    requires forall k :: 0 <= k < |model.structInfo.value.wMoment| ==> model.structInfo.value.wMoment[k] > 0.0
    requires forall k :: 0 <= k < |model.massDampers| ==> model.massDampers[k].weight >= 0.0
    ensures MassMatrix(model, r, r) > 0.0
  {
    DampersMassNonNegative(model.massDampers, r);
  }

  /** The rotational mass of story s is its weight moment over g, whatever the mass dampers. */
  lemma RotationalMass(model: BuildingModel, s: nat)
    requires model.structInfo.Some? && |model.structInfo.value.wMoment| == |model.structInfo.value.weight|
    requires s < |model.structInfo.value.weight|
    ensures MassMatrix(model, Dof(s, 2), Dof(s, 2)) == model.structInfo.value.wMoment[s] / STANDARD_GRAVITY_CM
  {
    DampersNoRotation(model.massDampers, Dof(s, 2));
  }
  /** The mass of the dampers standing on story s: the sum of their weights over g. */
  function StoryDampersMass(ds: seq<MassDamper>, s: int): real
  {
    if ds == [] then 0.0
    else StoryDampersMass(ds[..|ds| - 1], s) + (if LayerIndex(ds[|ds| - 1].layer) == s then DamperMass(ds[|ds| - 1]) else 0.0)
  }

  /** Both translational diagonal entries of story s receive the mass of exactly the dampers on story s. */
  lemma {:induction false} DampersTranslationalMass(ds: seq<MassDamper>, s: nat)
    ensures DampersMassAt(ds, Dof(s, 0)) == StoryDampersMass(ds, s)
    ensures DampersMassAt(ds, Dof(s, 1)) == StoryDampersMass(ds, s)
  {
    if ds != [] {
      DampersTranslationalMass(ds[..|ds| - 1], s);
    }
  }

  /** The DX and DY masses of story s are its weight over g plus the masses of the dampers on that story. */
  lemma TranslationalMass(model: BuildingModel, s: nat)
    requires model.structInfo.Some? && |model.structInfo.value.wMoment| == |model.structInfo.value.weight|
    requires s < |model.structInfo.value.weight|
    ensures MassMatrix(model, Dof(s, 0), Dof(s, 0))
      == model.structInfo.value.weight[s] / STANDARD_GRAVITY_CM + StoryDampersMass(model.massDampers, s)
    ensures MassMatrix(model, Dof(s, 1), Dof(s, 1)) == MassMatrix(model, Dof(s, 0), Dof(s, 0))
  {
    var info := model.structInfo.value;
    assert Dof(s, 0) / 3 == s && Dof(s, 0) % 3 == 0;
    assert Dof(s, 1) / 3 == s && Dof(s, 1) % 3 == 1;
    assert StoryMassTerm(info.weight, info.wMoment, Dof(s, 0)) == info.weight[s] / STANDARD_GRAVITY_CM;
    assert StoryMassTerm(info.weight, info.wMoment, Dof(s, 1)) == info.weight[s] / STANDARD_GRAVITY_CM;
    DampersTranslationalMass(model.massDampers, s);
  }

  /** A wall leaves every story's damping sums as they were: only its stiffness enters the matrices. */
  lemma WallAddsNoDamping(centers: seq<Point>, db: seq<WallChara>, hypot: (real, real) -> real,
                          cs: seq<Contribution>, w: Wall, s: nat)
    requires s < |cs|
    ensures |WallStep(centers, db, hypot)(cs, w)| == |cs|
    ensures BlockOf(WallStep(centers, db, hypot)(cs, w)[s], Damping) == BlockOf(cs[s], Damping)
  {
    var chara := FindWallChara(db, w.name);
    var direction := ClassifyWallDirection(w.start, w.end);
    if chara.Ok? && direction.Ok? && 0 <= LayerIndex(w.layer) < |cs| && LayerIndex(w.layer) < |centers| {
      var t := LayerIndex(w.layer);
      var length := hypot(w.end.x - w.start.x, w.end.y - w.start.y);
      var mid := Midpoint(w.start, w.end);
      var k := WallStiffness(chara.value, length);
      DirectionalEnergy(cs[t], direction.value, k, mid, centers[t], Stiffness, 0.0, 0.0, 0.0);
    }
  }
}
