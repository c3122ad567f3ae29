/*
 * Assembly of the mass, stiffness and damping matrices of a building model
 * (src/core/analysis/matrixAssembly.ts, assembleAnalysisMatrices).
 *
 * The structure information fixes the story count n; the matrices are
 * 3n x 3n. Columns, walls, dxPanels, brace dampers and mass dampers add
 * springs to the ten sums of their story, in that order, each element's
 * layer checked first; mass dampers also add their mass to the diagonal.
 * Then the story weights and moments go on the mass diagonal, and every
 * story's stiffness and damping blocks are scattered in the shear-building
 * pattern. `Math.hypot` and `Math.sqrt` are parameters.
 */
module MatrixAssembly {
  import opened Results
  import opened Numbers
  import opened Strings
  import opened Building
  import opened StoryBlocks

  // ---- the rules for single elements -----------------------------------------------

  /** The story index a valid layer stands for. */
  function LayerIndex(layer: real): int
  {
    layer.Floor - 1
  }

  /** `safeLayerToIndex`: an integer layer from 1 to storyCount, as its zero-based index. */
  function SafeLayerToIndex(layer: real, storyCount: nat, itemName: string): (r: Result<nat>)
    ensures r.Ok? <==> IsInteger(layer) && 1.0 <= layer <= storyCount as real
    ensures r.Ok? ==> r.value < storyCount && r.value as real == layer - 1.0 && r.value == LayerIndex(layer)
    ensures r.Err? ==> r == FormatFailure("Analysis: " + itemName + ".layer must be between 1 and " + NatToString(storyCount) + ".")
  {
    if !IsInteger(layer) || layer < 1.0 || layer > storyCount as real then
      FormatFailure("Analysis: " + itemName + ".layer must be between 1 and " + NatToString(storyCount) + ".")
    else Ok((layer.Floor - 1) as nat)
  }

  /** `findWallChara`: the first entry of the database with the wall's name. */
  function FindWallChara(db: seq<WallChara>, name: string): (r: Result<WallChara>)
    ensures r.Ok? <==> exists k :: 0 <= k < |db| && db[k].name == name
    ensures r.Ok? ==> exists k :: (0 <= k < |db| && db[k] == r.value && r.value.name == name
      && forall j :: 0 <= j < k ==> db[j].name != name)
    ensures r.Err? ==> r == FormatFailure("Analysis: wallChara \"" + name + "\" was not found.")
  {
    if db == [] then FormatFailure("Analysis: wallChara \"" + name + "\" was not found.")
    else if db[0].name == name then Ok(db[0])
    else
      var rest := FindWallChara(db[1..], name);
      if rest.Ok? then
        assert exists k :: (0 <= k < |db| && db[k] == rest.value && rest.value.name == name
          && forall j :: 0 <= j < k ==> db[j].name != name) by {
          var k :| 0 <= k < |db[1..]| && db[1..][k] == rest.value && rest.value.name == name
            && forall j :: 0 <= j < k ==> db[1..][j].name != name;
          assert db[k + 1] == rest.value;
          forall j | 0 <= j < k + 1 ensures db[j].name != name {
            if j > 0 { assert db[j] == db[1..][j - 1]; }
          }
        }
        rest
      else
        assert forall k :: 0 <= k < |db| ==> db[k].name != name by {
          forall k | 0 <= k < |db| ensures db[k].name != name {
            if k > 0 { assert db[k] == db[1..][k - 1]; }
          }
        }
        rest
  }

  /** `classifyWallDirection`: a wall along x = const is an X wall, else along y = const a Y wall. */
  function ClassifyWallDirection(start: Point, end: Point): (r: Result<Direction>)
    ensures r == Ok(X) <==> start.x == end.x
    ensures r == Ok(Y) <==> start.x != end.x && start.y == end.y
    ensures r.Err? <==> start.x != end.x && start.y != end.y
    ensures r.Err? ==> r == FormatFailure("Analysis: wall must be aligned to X or Y axis.")
  {
    if start.x == end.x then Ok(X)
    else if start.y == end.y then Ok(Y)
    else FormatFailure("Analysis: wall must be aligned to X or Y axis.")
  }

  /** `computeWallValue`: the chara's k or c, times the wall's length when the chara is per unit length. */
  function ComputeWallValue(chara: WallChara, length: real, field: Kind): (r: real)
    ensures chara.isKCUnitChara ==> r == (if field == Stiffness then chara.k else chara.c) * length
    ensures !chara.isKCUnitChara ==> r == (if field == Stiffness then chara.k else chara.c)
  {
    var raw := if field == Stiffness then chara.k else chara.c;
    if chara.isKCUnitChara then raw * length else raw
  }

  /** A wall's stiffness counts only when its chara affects the eigen analysis. */
  function WallStiffness(chara: WallChara, length: real): real
  {
    if chara.isEigenEffectK then ComputeWallValue(chara, length, Stiffness) else 0.0
  }

  function Midpoint(a: Point, b: Point): Point
  {
    Point((a.x + b.x) / 2.0, (a.y + b.y) / 2.0)
  }

  function SumPoints(ps: seq<Point>): Point
  {
    if ps == [] then Point(0.0, 0.0)
    else var s := SumPoints(ps[..|ps| - 1]); Point(s.x + ps[|ps| - 1].x, s.y + ps[|ps| - 1].y)
  }

  function Centroid(ps: seq<Point>): Point
    requires |ps| > 0
  {
    var s := SumPoints(ps);
    Point(s.x / |ps| as real, s.y / |ps| as real)
  }

  /** A mass damper's mass, weight over gravity. */
  function DamperMass(d: MassDamper): real
  {
    d.weight / STANDARD_GRAVITY_CM
  }

  /** A mass damper's spring in one direction, from its weight and frequency. */
  function DamperStiffness(d: MassDamper, freq: real): real
  {
    (4.0 * PI * PI * d.weight * freq * freq) / (STANDARD_GRAVITY_CM * 100.0)
  }

  /** A mass damper's dashpot in one direction: 2 h sqrt(k m), with k and m clamped at 0. */
  function DamperDamping(d: MassDamper, h: real, k: real, sqrt: real -> real): real
  {
    2.0 * h * sqrt(Max(k, 0.0) * Max(DamperMass(d), 0.0))
  }

  // ---- the per-story sums -------------------------------------------------------------

  /** `addToStory`: a spring and a dashpot along `direction` at `position` of story `s`. */
  function AtStory(cs: seq<Contribution>, centers: seq<Point>, s: int, direction: Direction,
                   kValue: real, cValue: real, position: Point): (r: seq<Contribution>)
    ensures |r| == |cs|
  {
    if 0 <= s < |cs| && s < |centers| then
      var center := centers[s];
      cs[s := Directional(Directional(cs[s], direction, kValue, position, center, Stiffness),
                          direction, cValue, position, center, Damping)]
    else cs
  }

  method AddToStory(contrib: array<Contribution>, centers: seq<Point>, s: nat, direction: Direction,
                    kValue: real, cValue: real, position: Point)
    requires contrib.Length == |centers| && s < |centers|
    modifies contrib
    ensures contrib[..] == AtStory(old(contrib[..]), centers, s, direction, kValue, cValue, position)
  {
    var center := centers[s];
    contrib[s] := Directional(contrib[s], direction, kValue, position, center, Stiffness);
    contrib[s] := Directional(contrib[s], direction, cValue, position, center, Damping);
  }

  /** The effect of a list of elements applied one after the other, in order. */
  function Fold<T>(cs: seq<Contribution>, xs: seq<T>, step: (seq<Contribution>, T) -> seq<Contribution>): seq<Contribution>
  {
    if xs == [] then cs else step(Fold(cs, xs[..|xs| - 1], step), xs[|xs| - 1])
  }

  lemma FoldStep<T>(cs: seq<Contribution>, xs: seq<T>, k: nat, step: (seq<Contribution>, T) -> seq<Contribution>)
    requires k < |xs|
    ensures Fold(cs, xs[..k + 1], step) == step(Fold(cs, xs[..k], step), xs[k])
  {
    assert xs[..k + 1][..k] == xs[..k];
  }

  function ColumnStep(centers: seq<Point>): (seq<Contribution>, Column) -> seq<Contribution>
  {
    (cs: seq<Contribution>, c: Column) =>
      AtStory(AtStory(cs, centers, LayerIndex(c.layer), X, c.kx, 0.0, c.pos), centers, LayerIndex(c.layer), Y, c.ky, 0.0, c.pos)
  }

  function WallStep(centers: seq<Point>, db: seq<WallChara>, hypot: (real, real) -> real): (seq<Contribution>, Wall) -> seq<Contribution>
  {
    (cs: seq<Contribution>, w: Wall) =>
      var chara := FindWallChara(db, w.name);
      var direction := ClassifyWallDirection(w.start, w.end);
      if chara.Err? || direction.Err? then cs
      else
        var length := hypot(w.end.x - w.start.x, w.end.y - w.start.y);
        AtStory(cs, centers, LayerIndex(w.layer), direction.value, WallStiffness(chara.value, length), 0.0, Midpoint(w.start, w.end))
  }

  function PanelStep(centers: seq<Point>): (seq<Contribution>, DXPanel) -> seq<Contribution>
  {
    (cs: seq<Contribution>, p: DXPanel) =>
      if |p.pos| == 0 then cs else AtStory(cs, centers, LayerIndex(p.layer), p.direct, p.k, 0.0, Centroid(p.pos))
  }

  function BraceStep(centers: seq<Point>): (seq<Contribution>, BraceDamper) -> seq<Contribution>
  {
    (cs: seq<Contribution>, b: BraceDamper) =>
      AtStory(cs, centers, LayerIndex(b.layer), b.direct, if b.isEigenEffectK then b.k else 0.0, b.c, b.pos)
  }

  function DamperStep(centers: seq<Point>, sqrt: real -> real): (seq<Contribution>, MassDamper) -> seq<Contribution>
  {
    (cs: seq<Contribution>, d: MassDamper) =>
      var kx := DamperStiffness(d, d.freq.x);
      var ky := DamperStiffness(d, d.freq.y);
      AtStory(AtStory(cs, centers, LayerIndex(d.layer), X, kx, DamperDamping(d, d.h.x, kx, sqrt), d.pos),
        centers, LayerIndex(d.layer), Y, ky, DamperDamping(d, d.h.y, ky, sqrt), d.pos)
  }

  // ---- the checks, in the order the loops make them ------------------------------------

  function Unit<T>(r: Result<T>): Result<()>
  {
    if r.Ok? then Ok(()) else Err(r.error)
  }

  /** The first failing check of a list, in order. */
  function CheckAll<T>(xs: seq<T>, check: T -> Result<()>): Result<()>
  {
    if xs == [] then Ok(()) else if check(xs[0]).Err? then check(xs[0]) else CheckAll(xs[1..], check)
  }

  lemma CheckStep<T>(xs: seq<T>, k: nat, check: T -> Result<()>)
    requires k < |xs|
    ensures CheckAll(xs[k..], check) == if check(xs[k]).Err? then check(xs[k]) else CheckAll(xs[k + 1..], check)
  {
    assert xs[k..][1..] == xs[k + 1..];
  }

  function ColumnCheck(n: nat): Column -> Result<()>
  {
    (c: Column) => Unit(SafeLayerToIndex(c.layer, n, "column"))
  }

  function WallCheck(n: nat, db: seq<WallChara>): Wall -> Result<()>
  {
    (w: Wall) =>
      if SafeLayerToIndex(w.layer, n, "wall").Err? then Unit(SafeLayerToIndex(w.layer, n, "wall"))
      else if FindWallChara(db, w.name).Err? then Unit(FindWallChara(db, w.name))
      else Unit(ClassifyWallDirection(w.start, w.end))
  }

  function PanelCheck(n: nat): DXPanel -> Result<()>
  {
    (p: DXPanel) => Unit(SafeLayerToIndex(p.layer, n, "dxPanel"))
  }

  function BraceCheck(n: nat): BraceDamper -> Result<()>
  {
    (b: BraceDamper) => Unit(SafeLayerToIndex(b.layer, n, "braceDamper"))
  }

  function DamperCheck(n: nat): MassDamper -> Result<()>
  {
    (d: MassDamper) => Unit(SafeLayerToIndex(d.layer, n, "massDamper"))
  }

  // ---- the element loops ----------------------------------------------------------------

  method AddColumns(columns: seq<Column>, centers: seq<Point>, contrib: array<Contribution>) returns (r: Result<()>)
    requires contrib.Length == |centers|
    modifies contrib
    ensures r == CheckAll(columns, ColumnCheck(|centers|))
    ensures r.Ok? ==> contrib[..] == Fold(old(contrib[..]), columns, ColumnStep(centers))
  {
    var n := |centers|;
    for k := 0 to |columns|
      invariant CheckAll(columns, ColumnCheck(n)) == CheckAll(columns[k..], ColumnCheck(n))
      invariant contrib[..] == Fold(old(contrib[..]), columns[..k], ColumnStep(centers))
    {
      var column := columns[k];
      CheckStep(columns, k, ColumnCheck(n));
      var index := SafeLayerToIndex(column.layer, n, "column");
      if index.Err? {
        return Err(index.error);
      }
      FoldStep(old(contrib[..]), columns, k, ColumnStep(centers));
      AddToStory(contrib, centers, index.value, X, column.kx, 0.0, column.pos);
      AddToStory(contrib, centers, index.value, Y, column.ky, 0.0, column.pos);
    }
    assert columns[..|columns|] == columns;
    return Ok(());
  }

  /** One pass of the wall loop: layer, chara and direction checked, then the wall's spring added at its midpoint. */
  method AddWall(wall: Wall, db: seq<WallChara>, centers: seq<Point>, hypot: (real, real) -> real,
                 contrib: array<Contribution>) returns (r: Result<()>)
    requires contrib.Length == |centers|
    modifies contrib
    ensures r == WallCheck(|centers|, db)(wall)
    ensures r.Ok? ==> contrib[..] == WallStep(centers, db, hypot)(old(contrib[..]), wall)
    ensures r.Err? ==> contrib[..] == old(contrib[..])
  {
    var index := SafeLayerToIndex(wall.layer, |centers|, "wall");
    if index.Err? {
      return Err(index.error);
    }
    var chara := FindWallChara(db, wall.name);
    if chara.Err? {
      return Err(chara.error);
    }
    var direction := ClassifyWallDirection(wall.start, wall.end);
    if direction.Err? {
      return Err(direction.error);
    }
    var length := hypot(wall.end.x - wall.start.x, wall.end.y - wall.start.y);
    var center := Midpoint(wall.start, wall.end);
    var kValue := if chara.value.isEigenEffectK then ComputeWallValue(chara.value, length, Stiffness) else 0.0;
    var cValue := 0.0;
    AddToStory(contrib, centers, index.value, direction.value, kValue, cValue, center);
    return Ok(());
  }

  method AddWalls(walls: seq<Wall>, db: seq<WallChara>, centers: seq<Point>, hypot: (real, real) -> real,
                  contrib: array<Contribution>) returns (r: Result<()>)
    requires contrib.Length == |centers|
    modifies contrib
    ensures r == CheckAll(walls, WallCheck(|centers|, db))
    ensures r.Ok? ==> contrib[..] == Fold(old(contrib[..]), walls, WallStep(centers, db, hypot))
  {
    var n := |centers|;
    for k := 0 to |walls|
      invariant CheckAll(walls, WallCheck(n, db)) == CheckAll(walls[k..], WallCheck(n, db))
      invariant contrib[..] == Fold(old(contrib[..]), walls[..k], WallStep(centers, db, hypot))
    {
      CheckStep(walls, k, WallCheck(n, db));
      FoldStep(old(contrib[..]), walls, k, WallStep(centers, db, hypot));
      var step := AddWall(walls[k], db, centers, hypot, contrib);
      if step.Err? {
        return step;
      }
    }
    assert walls[..|walls|] == walls;
    return Ok(());
  }

  method AddPanels(panels: seq<DXPanel>, centers: seq<Point>, contrib: array<Contribution>) returns (r: Result<()>)
    requires contrib.Length == |centers|
    modifies contrib
    ensures r == CheckAll(panels, PanelCheck(|centers|))
    ensures r.Ok? ==> contrib[..] == Fold(old(contrib[..]), panels, PanelStep(centers))
  {
    var n := |centers|;
    for k := 0 to |panels|
      invariant CheckAll(panels, PanelCheck(n)) == CheckAll(panels[k..], PanelCheck(n))
      invariant contrib[..] == Fold(old(contrib[..]), panels[..k], PanelStep(centers))
    {
      var panel := panels[k];
      CheckStep(panels, k, PanelCheck(n));
      var index := SafeLayerToIndex(panel.layer, n, "dxPanel");
      if index.Err? {
        return Err(index.error);
      }
      FoldStep(old(contrib[..]), panels, k, PanelStep(centers));
      if |panel.pos| == 0 {
        continue;
      }
      AddToStory(contrib, centers, index.value, panel.direct, panel.k, 0.0, Centroid(panel.pos));
    }
    assert panels[..|panels|] == panels;
    return Ok(());
  }

  method AddBraces(braces: seq<BraceDamper>, centers: seq<Point>, contrib: array<Contribution>) returns (r: Result<()>)
    requires contrib.Length == |centers|
    modifies contrib
    ensures r == CheckAll(braces, BraceCheck(|centers|))
    ensures r.Ok? ==> contrib[..] == Fold(old(contrib[..]), braces, BraceStep(centers))
  {
    var n := |centers|;
    for k := 0 to |braces|
      invariant CheckAll(braces, BraceCheck(n)) == CheckAll(braces[k..], BraceCheck(n))
      invariant contrib[..] == Fold(old(contrib[..]), braces[..k], BraceStep(centers))
    {
      var brace := braces[k];
      CheckStep(braces, k, BraceCheck(n));
      var index := SafeLayerToIndex(brace.layer, n, "braceDamper");
      if index.Err? {
        return Err(index.error);
      }
      var kValue := if brace.isEigenEffectK then brace.k else 0.0;
      FoldStep(old(contrib[..]), braces, k, BraceStep(centers));
      AddToStory(contrib, centers, index.value, brace.direct, kValue, brace.c, brace.pos);
    }
    assert braces[..|braces|] == braces;
    return Ok(());
  }

  // ---- the mass diagonal ------------------------------------------------------------------

  /** What one mass damper adds at diagonal entry r: its mass on the DX and DY entries of its story. */
  function DamperMassTerm(d: MassDamper, r: int): real
  {
    var s := LayerIndex(d.layer);
    if r == 3 * s || r == 3 * s + 1 then DamperMass(d) else 0.0
  }

  /** What a list of mass dampers adds at diagonal entry r. */
  function DampersMassAt(ds: seq<MassDamper>, r: int): real
  {
    if ds == [] then 0.0 else DampersMassAt(ds[..|ds| - 1], r) + DamperMassTerm(ds[|ds| - 1], r)
  }

  /** One pass of the mass damper loop: its mass on the diagonal, then its springs and dashpots. */
  method AddMassDamper(d: MassDamper, centers: seq<Point>, sqrt: real -> real,
                       contrib: array<Contribution>, mass: array2<real>) returns (r: Result<()>)
    requires contrib.Length == |centers| && mass.Length0 == 3 * |centers| && mass.Length1 == 3 * |centers|
    modifies contrib, mass
    ensures r == DamperCheck(|centers|)(d)
    ensures r.Ok? ==> contrib[..] == DamperStep(centers, sqrt)(old(contrib[..]), d)
    ensures r.Ok? ==> forall i, j :: 0 <= i < mass.Length0 && 0 <= j < mass.Length1 ==>
      mass[i, j] == old(mass[i, j]) + (if i == j then DamperMassTerm(d, i) else 0.0)
  {
    var index := SafeLayerToIndex(d.layer, |centers|, "massDamper");
    if index.Err? {
      return Err(index.error);
    }
    var mdMass := DamperMass(d);
    AddDamperMass(mass, index.value, mdMass);
    var kx := DamperStiffness(d, d.freq.x);
    var ky := DamperStiffness(d, d.freq.y);
    var cx := DamperDamping(d, d.h.x, kx, sqrt);
    var cy := DamperDamping(d, d.h.y, ky, sqrt);
    AddToStory(contrib, centers, index.value, X, kx, cx, d.pos);
    AddToStory(contrib, centers, index.value, Y, ky, cy, d.pos);
    return Ok(());
  }

  /** A damper's mass on the DX and DY diagonal entries of story s. */
  method AddDamperMass(mass: array2<real>, s: nat, mdMass: real)
    requires 3 * s + 2 <= mass.Length0 && 3 * s + 2 <= mass.Length1
    modifies mass
    ensures forall i, j :: 0 <= i < mass.Length0 && 0 <= j < mass.Length1 ==>
      mass[i, j] == old(mass[i, j]) + (if i == j && (i == 3 * s || i == 3 * s + 1) then mdMass else 0.0)
  {
    var addMassIndex := s * 3;
    mass[addMassIndex, addMassIndex] := mass[addMassIndex, addMassIndex] + mdMass;
    mass[addMassIndex + 1, addMassIndex + 1] := mass[addMassIndex + 1, addMassIndex + 1] + mdMass;
  }

  method AddMassDampers(dampers: seq<MassDamper>, centers: seq<Point>, sqrt: real -> real,
                        contrib: array<Contribution>, mass: array2<real>) returns (r: Result<()>)
    requires contrib.Length == |centers| && mass.Length0 == 3 * |centers| && mass.Length1 == 3 * |centers|
    modifies contrib, mass
    ensures r == CheckAll(dampers, DamperCheck(|centers|))
    ensures r.Ok? ==> contrib[..] == Fold(old(contrib[..]), dampers, DamperStep(centers, sqrt))
    ensures r.Ok? ==> forall i, j :: 0 <= i < mass.Length0 && 0 <= j < mass.Length1 ==>
      mass[i, j] == old(mass[i, j]) + (if i == j then DampersMassAt(dampers, i) else 0.0)
  {
    var n := |centers|;
    assert dampers[..0] == [];
    assert forall i :: DampersMassAt(dampers[..0], i) == 0.0;
    for k := 0 to |dampers|
      invariant CheckAll(dampers, DamperCheck(n)) == CheckAll(dampers[k..], DamperCheck(n))
      invariant contrib[..] == Fold(old(contrib[..]), dampers[..k], DamperStep(centers, sqrt))
      invariant forall i, j :: 0 <= i < mass.Length0 && 0 <= j < mass.Length1 ==>
        mass[i, j] == old(mass[i, j]) + (if i == j then DampersMassAt(dampers[..k], i) else 0.0)
    {
      CheckStep(dampers, k, DamperCheck(n));
      FoldStep(old(contrib[..]), dampers, k, DamperStep(centers, sqrt));
      assert dampers[..k + 1][..k] == dampers[..k];
      var step := AddMassDamper(dampers[k], centers, sqrt, contrib, mass);
      if step.Err? {
        return step;
      }
    }
    assert dampers[..|dampers|] == dampers;
    return Ok(());
  }

  /** The story mass at diagonal entry r: weight over gravity on DX and DY, the moment over gravity on RZ. */
  function StoryMassTerm(weight: seq<real>, wMoment: seq<real>, r: nat): real
    requires r < 3 * |weight| && |wMoment| == |weight|
  {
    if r % 3 == 2 then wMoment[r / 3] / STANDARD_GRAVITY_CM else weight[r / 3] / STANDARD_GRAVITY_CM
  }

  /** The loop over the stories that puts their weights and moments on the mass diagonal. */
  method AddStoryMasses(weight: seq<real>, wMoment: seq<real>, mass: array2<real>)
    requires |wMoment| == |weight| && mass.Length0 == 3 * |weight| && mass.Length1 == 3 * |weight|
    modifies mass
    ensures forall i, j :: 0 <= i < mass.Length0 && 0 <= j < mass.Length1 ==>
      mass[i, j] == old(mass[i, j]) + (if i == j then StoryMassTerm(weight, wMoment, i) else 0.0)
  {
    for k := 0 to |weight|
      invariant forall i, j :: 0 <= i < mass.Length0 && 0 <= j < mass.Length1 ==>
        mass[i, j] == old(mass[i, j]) + (if i == j && i < 3 * k then StoryMassTerm(weight, wMoment, i) else 0.0)
    {
      var m := weight[k] / STANDARD_GRAVITY_CM;
      var inertia := wMoment[k] / STANDARD_GRAVITY_CM;
      var base := k * 3;
      mass[base, base] := mass[base, base] + m;
      mass[base + 1, base + 1] := mass[base + 1, base + 1] + m;
      mass[base + 2, base + 2] := mass[base + 2, base + 2] + inertia;
    }
  }

  // ---- labels and base shape ------------------------------------------------------------

  /** `dofLabelForFloor`. */
  function DofLabelsForFloor(layer: nat): seq<string>
  {
    ["DX_" + NatToString(layer), "DY_" + NatToString(layer), "RZ_" + NatToString(layer)]
  }

  /** The labels of all degrees of freedom: DX_s, DY_s, RZ_s for the stories s = 1..n in turn. */
  function DofLabels(n: nat): (r: seq<string>)
    ensures |r| == 3 * n
    ensures forall s :: 0 <= s < n ==>
      r[Dof(s, 0)] == "DX_" + NatToString(s + 1) && r[Dof(s, 1)] == "DY_" + NatToString(s + 1)
      && r[Dof(s, 2)] == "RZ_" + NatToString(s + 1)
  {
    if n == 0 then [] else DofLabels(n - 1) + DofLabelsForFloor(n)
  }

  /** `buildBaseShape`: the story count, the levels, and the mass centers numbered from 1. */
  function BaseShapeOf(model: BuildingModel, storyCount: nat): (r: BaseShapeInfo)
    ensures r.story == Some(storyCount as real)
    ensures model.structInfo.Some? ==> r.zLevel == model.structInfo.value.zLevel
    ensures var centers := if model.structInfo.Some? then model.structInfo.value.wCenter else [];
      |r.massCenters| == |centers|
      && forall k :: 0 <= k < |centers| ==> r.massCenters[k] == MassCenter((k + 1) as real, centers[k].x, centers[k].y)
  {
    var centers := if model.structInfo.Some? then model.structInfo.value.wCenter else [];
    BaseShapeInfo(
      Some(storyCount as real),
      if model.structInfo.Some? then model.structInfo.value.zLevel else [],
      seq(|centers|, k requires 0 <= k < |centers| => MassCenter((k + 1) as real, centers[k].x, centers[k].y)))
  }

  // ---- the assembled matrices -------------------------------------------------------------

  /** `AnalysisMatrices`: the model, its sizes, the three matrices, the base shape and the DOF labels. */
  class AnalysisMatrices {
    const model: BuildingModel
    const storyCount: nat
    const dofCount: nat
    const mass: array2<real>
    const stiffness: array2<real>
    var damping: array2<real>
    const baseShape: BaseShapeInfo
    const dofLabels: seq<string>

    constructor (model: BuildingModel, storyCount: nat, dofCount: nat, mass: array2<real>, stiffness: array2<real>,
                 damping: array2<real>, baseShape: BaseShapeInfo, dofLabels: seq<string>)
      ensures this.model == model && this.storyCount == storyCount && this.dofCount == dofCount
      ensures this.mass == mass && this.stiffness == stiffness && this.damping == damping
      ensures this.baseShape == baseShape && this.dofLabels == dofLabels
    {
      this.model := model;
      this.storyCount := storyCount;
      this.dofCount := dofCount;
      this.mass := mass;
      this.stiffness := stiffness;
      this.damping := damping;
      this.baseShape := baseShape;
      this.dofLabels := dofLabels;
    }
  }

  /** `options.defaultDampingRatio ?? 0.02`. */
  function DampingRatioOption(defaultDampingRatio: Option<real>): real
  {
    if defaultDampingRatio.Some? then defaultDampingRatio.value else 0.02
  }

  /**
   * The errors of the assembler in the order it meets them; on success the
   * story count. The structure-information checks come first, then each
   * element loop's checks, then the damping ratio.
   */
  function AssemblyCheck(model: BuildingModel, defaultDampingRatio: Option<real>): (r: Result<nat>)
    ensures r.Ok? ==> (ShapeCheck(model) == r && ElementsCheck(model, r.value).Ok?
      && DampingRatioOption(defaultDampingRatio) >= 0.0)
  {
    var n :- ShapeCheck(model);
    var _ :- ElementsCheck(model, n);
    if DampingRatioOption(defaultDampingRatio) < 0.0 then FormatFailure("Analysis: defaultDampingRatio must be >= 0.")
    else Ok(n)
  }

  /** The structure-information checks: on success the story count `massN`, which every per-story list matches. */
  function ShapeCheck(model: BuildingModel): (r: Result<nat>)
    ensures r.Ok? <==> (model.structInfo.Some? && model.structInfo.value.massN >= 1.0
      && |model.structInfo.value.weight| as real == model.structInfo.value.massN
      && |model.structInfo.value.wMoment| as real == model.structInfo.value.massN
      && |model.structInfo.value.wCenter| as real == model.structInfo.value.massN)
    ensures r.Ok? ==> (r.value >= 1 && |model.structInfo.value.weight| == r.value
      && |model.structInfo.value.wMoment| == r.value && |model.structInfo.value.wCenter| == r.value)
  {
    if model.structInfo.None? then FormatFailure("Analysis: structInfo is required.")
    else
      var info := model.structInfo.value;
      if info.massN < 1.0 then FormatFailure("Analysis: massN must be >= 1.")
      else if |info.weight| as real != info.massN || |info.wMoment| as real != info.massN then
        FormatFailure("Analysis: weight/wMoment length must match massN.")
      else if |info.wCenter| as real != info.massN then FormatFailure("Analysis: wCenter length must match massN.")
      else Ok(|info.weight|)
  }

  /** The layer, chara and direction checks of the five element loops, in order. */
  function ElementsCheck(model: BuildingModel, n: nat): Result<()>
  {
    var _ :- CheckAll(model.columns, ColumnCheck(n));
    var _ :- CheckAll(model.walls, WallCheck(n, model.wallCharaDB));
    var _ :- CheckAll(model.dxPanels, PanelCheck(n));
    var _ :- CheckAll(model.braceDampers, BraceCheck(n));
    CheckAll(model.massDampers, DamperCheck(n))
  }

  /** The story sums `cs` after the columns, walls, dxPanels, brace dampers and mass dampers, in that order. */
  function AfterElements(cs: seq<Contribution>, model: BuildingModel, hypot: (real, real) -> real, sqrt: real -> real)
    : (r: seq<Contribution>)
    requires model.structInfo.Some?
    ensures |r| == |cs|
  {
    var centers := model.structInfo.value.wCenter;
    var afterColumns := Fold(cs, model.columns, ColumnStep(centers));
    var afterWalls := Fold(afterColumns, model.walls, WallStep(centers, model.wallCharaDB, hypot));
    var afterPanels := Fold(afterWalls, model.dxPanels, PanelStep(centers));
    var afterBraces := Fold(afterPanels, model.braceDampers, BraceStep(centers));
    StepsKeepLength(centers, model.wallCharaDB, hypot, sqrt);
    FoldKeepsLength(cs, model.columns, ColumnStep(centers));
    FoldKeepsLength(afterColumns, model.walls, WallStep(centers, model.wallCharaDB, hypot));
    FoldKeepsLength(afterWalls, model.dxPanels, PanelStep(centers));
    FoldKeepsLength(afterPanels, model.braceDampers, BraceStep(centers));
    FoldKeepsLength(afterBraces, model.massDampers, DamperStep(centers, sqrt));
    Fold(afterBraces, model.massDampers, DamperStep(centers, sqrt))
  }

  /** The ten sums of every story after all element loops, from zero. */
  function StoryContributions(model: BuildingModel, hypot: (real, real) -> real, sqrt: real -> real): (r: seq<Contribution>)
    requires model.structInfo.Some?
    ensures |r| == |model.structInfo.value.wCenter|
  {
    AfterElements(seq(|model.structInfo.value.wCenter|, _ => NoContribution), model, hypot, sqrt)
  }

  /** The element steps only change the sums of existing stories. */
  ghost predicate KeepsLength<T(!new)>(step: (seq<Contribution>, T) -> seq<Contribution>)
  {
    forall cs, x :: |step(cs, x)| == |cs|
  }

  lemma StepsKeepLength(centers: seq<Point>, db: seq<WallChara>, hypot: (real, real) -> real, sqrt: real -> real)
    ensures KeepsLength(ColumnStep(centers)) && KeepsLength(WallStep(centers, db, hypot)) && KeepsLength(PanelStep(centers))
    ensures KeepsLength(BraceStep(centers)) && KeepsLength(DamperStep(centers, sqrt))
  {
    forall cs, x ensures |ColumnStep(centers)(cs, x)| == |cs| {}
    forall cs, w ensures |WallStep(centers, db, hypot)(cs, w)| == |cs| {
      var chara := FindWallChara(db, w.name);
      var direction := ClassifyWallDirection(w.start, w.end);
      if chara.Ok? && direction.Ok? {
        var length := hypot(w.end.x - w.start.x, w.end.y - w.start.y);
        assert WallStep(centers, db, hypot)(cs, w) == AtStory(cs, centers, LayerIndex(w.layer), direction.value,
          WallStiffness(chara.value, length), 0.0, Midpoint(w.start, w.end));
      }
    }
    forall cs, x ensures |PanelStep(centers)(cs, x)| == |cs| {}
    forall cs, b ensures |BraceStep(centers)(cs, b)| == |cs| {
      var k := if b.isEigenEffectK then b.k else 0.0;
      assert BraceStep(centers)(cs, b) == AtStory(cs, centers, LayerIndex(b.layer), b.direct, k, b.c, b.pos);
    }
    forall cs, x ensures |DamperStep(centers, sqrt)(cs, x)| == |cs| {}
  }

  lemma {:induction false} FoldKeepsLength<T(!new)>(cs: seq<Contribution>, xs: seq<T>, step: (seq<Contribution>, T) -> seq<Contribution>)
    requires KeepsLength(step)
    ensures |Fold(cs, xs, step)| == |cs|
  {
    if xs != [] {
      FoldKeepsLength(cs, xs[..|xs| - 1], step);
    }
  }

  /** Every story's block of one kind. */
  function Blocks(cs: seq<Contribution>, kind: Kind): (r: seq<Block>)
    ensures |r| == |cs| && forall s :: 0 <= s < |cs| ==> r[s] == BlockOf(cs[s], kind)
  {
    seq(|cs|, s requires 0 <= s < |cs| => BlockOf(cs[s], kind))
  }

  /** The mass matrix: diagonal, story masses plus the mass dampers on that story. */
  function MassMatrix(model: BuildingModel, r: nat, c: nat): real
    requires model.structInfo.Some? && |model.structInfo.value.wMoment| == |model.structInfo.value.weight|
    requires r < 3 * |model.structInfo.value.weight|
  {
    if r != c then 0.0
    else DampersMassAt(model.massDampers, r) + StoryMassTerm(model.structInfo.value.weight, model.structInfo.value.wMoment, r)
  }

  /** The five element loops of the assembler. */
  method AddElements(model: BuildingModel, hypot: (real, real) -> real, sqrt: real -> real,
                     contrib: array<Contribution>, mass: array2<real>) returns (r: Result<()>)
    requires model.structInfo.Some?
    requires contrib.Length == |model.structInfo.value.wCenter|
    requires mass.Length0 == 3 * contrib.Length && mass.Length1 == 3 * contrib.Length
    modifies contrib, mass
    ensures r == ElementsCheck(model, contrib.Length)
    ensures r.Ok? ==> contrib[..] == AfterElements(old(contrib[..]), model, hypot, sqrt)
    ensures r.Ok? ==> forall i, j :: 0 <= i < mass.Length0 && 0 <= j < mass.Length1 ==>
      mass[i, j] == old(mass[i, j]) + (if i == j then DampersMassAt(model.massDampers, i) else 0.0)
  {
    var centers := model.structInfo.value.wCenter;
    var ok := AddColumns(model.columns, centers, contrib);
    if ok.Err? {
      return ok;
    }
    ok := AddWalls(model.walls, model.wallCharaDB, centers, hypot, contrib);
    if ok.Err? {
      return ok;
    }
    ok := AddPanels(model.dxPanels, centers, contrib);
    if ok.Err? {
      return ok;
    }
    ok := AddBraces(model.braceDampers, centers, contrib);
    if ok.Err? {
      return ok;
    }
    ok := AddMassDampers(model.massDampers, centers, sqrt, contrib, mass);
    return ok;
  }

  /** Every entry of `g` is zero. */
  ghost predicate Zero(g: array2<real>)
    reads g
  {
    forall i, j :: 0 <= i < g.Length0 && 0 <= j < g.Length1 ==> g[i, j] == 0.0
  }

  /** `g` is the square shear-building matrix of `blocks`. */
  ghost predicate IsShear(g: array2<real>, blocks: seq<Block>)
    reads g
  {
    g.Length0 == 3 * |blocks| && g.Length1 == 3 * |blocks|
    && forall i, j :: 0 <= i < 3 * |blocks| && 0 <= j < 3 * |blocks| ==> g[i, j] == ShearMatrix(blocks, i, j)
  }

  /** `mass` is the square lumped mass matrix of the model. */
  ghost predicate IsMassMatrix(mass: array2<real>, model: BuildingModel)
    reads mass
  {
    model.structInfo.Some? && |model.structInfo.value.wMoment| == |model.structInfo.value.weight|
    && mass.Length0 == 3 * |model.structInfo.value.weight| && mass.Length1 == 3 * |model.structInfo.value.weight|
    && forall i, j :: 0 <= i < mass.Length0 && 0 <= j < mass.Length1 ==> mass[i, j] == MassMatrix(model, i, j)
  }

  /** The loop that scatters every story's stiffness and damping blocks into zeroed matrices. */
  method AddStoryBlocks(contrib: array<Contribution>, stiffness: array2<real>, damping: array2<real>)
    requires stiffness != damping && Zero(stiffness) && Zero(damping)
    requires stiffness.Length0 == 3 * contrib.Length && stiffness.Length1 == 3 * contrib.Length
    requires damping.Length0 == 3 * contrib.Length && damping.Length1 == 3 * contrib.Length
    modifies stiffness, damping
    ensures IsShear(stiffness, Blocks(contrib[..], Stiffness))
    ensures IsShear(damping, Blocks(contrib[..], Damping))
  {
    var n := contrib.Length;
    ghost var kBlocks := Blocks(contrib[..], Stiffness);
    ghost var cBlocks := Blocks(contrib[..], Damping);
    for s := 0 to n
      invariant forall i, j :: 0 <= i < 3 * n && 0 <= j < 3 * n ==> stiffness[i, j] == Accumulated(kBlocks, s, i, j)
      invariant forall i, j :: 0 <= i < 3 * n && 0 <= j < 3 * n ==> damping[i, j] == Accumulated(cBlocks, s, i, j)
    {
      var story := contrib[s];
      AddStoryBlock(stiffness, s, BlockOf(story, Stiffness), n);
      AddStoryBlock(damping, s, BlockOf(story, Damping), n);
    }
    forall i, j | 0 <= i < 3 * n && 0 <= j < 3 * n
      ensures Accumulated(kBlocks, n, i, j) == ShearMatrix(kBlocks, i, j)
      ensures Accumulated(cBlocks, n, i, j) == ShearMatrix(cBlocks, i, j)
    {
      AccumulatedShear(kBlocks, i, j);
      AccumulatedShear(cBlocks, i, j);
    }
  }

  /** What a successful assembly holds: sizes, the three matrices, the labels and the base shape. */
  ghost predicate Assembled(a: AnalysisMatrices, hypot: (real, real) -> real, sqrt: real -> real)
    reads a, a.mass, a.stiffness, a.damping
  {
    a.model.structInfo.Some? && ShapeCheck(a.model) == Ok(a.storyCount) && a.dofCount == 3 * a.storyCount
    && IsMassMatrix(a.mass, a.model)
    && IsShear(a.stiffness, Blocks(StoryContributions(a.model, hypot, sqrt), Stiffness))
    && IsShear(a.damping, Blocks(StoryContributions(a.model, hypot, sqrt), Damping))
    && a.dofLabels == DofLabels(a.storyCount) && a.baseShape == BaseShapeOf(a.model, a.storyCount)
  }

  /** The element loops and the story masses on a zeroed mass matrix. */
  method AddMasses(model: BuildingModel, n: nat, hypot: (real, real) -> real, sqrt: real -> real,
                   contrib: array<Contribution>, mass: array2<real>) returns (r: Result<()>)
    requires ShapeCheck(model) == Ok(n) && contrib.Length == n && Zero(mass)
    requires contrib[..] == seq(n, _ => NoContribution)
    requires mass.Length0 == 3 * n && mass.Length1 == 3 * n
    modifies contrib, mass
    ensures r == ElementsCheck(model, n)
    ensures r.Ok? ==> contrib[..] == StoryContributions(model, hypot, sqrt) && IsMassMatrix(mass, model)
  {
    var info := model.structInfo.value;
    r := AddElements(model, hypot, sqrt, contrib, mass);
    if r.Err? {
      return;
    }
    AddStoryMasses(info.weight, info.wMoment, mass);
  }

  /** A fresh square matrix of zeros. */
  method ZeroMatrix(d: nat) returns (g: array2<real>)
    ensures fresh(g) && g.Length0 == d && g.Length1 == d && Zero(g)
  {
    g := new real[d, d]((i, j) => 0.0);
  }

  /** Allocation, the element loops, the story masses and the story blocks, for a model whose shape checks passed. */
  method BuildMatrices(model: BuildingModel, n: nat, hypot: (real, real) -> real, sqrt: real -> real)
    returns (r: Result<AnalysisMatrices>)
    requires ShapeCheck(model) == Ok(n)
    ensures r.Err? ==> ElementsCheck(model, n) == Err(r.error)
    ensures r.Ok? ==> ElementsCheck(model, n).Ok?
    ensures r.Ok? ==> r.value.model == model && r.value.storyCount == n && Assembled(r.value, hypot, sqrt)
    ensures r.Ok? ==> fresh(r.value)
  {
    var dofCount := n * 3;
    var mass := ZeroMatrix(dofCount);
    var stiffness := ZeroMatrix(dofCount);
    var damping := ZeroMatrix(dofCount);
    var contributions := new Contribution[n](_ => NoContribution);
    assert contributions[..] == seq(n, _ => NoContribution);
    var baseShape := BaseShapeOf(model, n);
    var elements := AddMasses(model, n, hypot, sqrt, contributions, mass);
    if elements.Err? {
      return Err(elements.error);
    }
    AddStoryBlocks(contributions, stiffness, damping);
    ghost var cs := StoryContributions(model, hypot, sqrt);
    assert IsMassMatrix(mass, model);
    assert IsShear(stiffness, Blocks(cs, Stiffness));
    assert IsShear(damping, Blocks(cs, Damping));
    var dofLabels := DofLabels(n);
    var matrices := new AnalysisMatrices(model, n, dofCount, mass, stiffness, damping, baseShape, dofLabels);
    return Ok(matrices);
  }

  /**
   * `assembleAnalysisMatrices`: fails with the first error `AssemblyCheck`
   * names; otherwise the matrices of the model, as `Assembled` states them.
   */
  method AssembleAnalysisMatrices(model: BuildingModel, defaultDampingRatio: Option<real>,
                                  hypot: (real, real) -> real, sqrt: real -> real) returns (r: Result<AnalysisMatrices>)
    ensures r.Err? ==> AssemblyCheck(model, defaultDampingRatio) == Err(r.error)
    ensures r.Ok? ==> AssemblyCheck(model, defaultDampingRatio) == Ok(r.value.storyCount)
    ensures r.Ok? ==> r.value.model == model && Assembled(r.value, hypot, sqrt)
    ensures r.Ok? ==> fresh(r.value)
  {
    var shape := ShapeCheck(model);
    if shape.Err? {
      return Err(shape.error);
    }
    var built := BuildMatrices(model, shape.value, hypot, sqrt);
    if built.Err? {
      return built;
    }
    if DampingRatioOption(defaultDampingRatio) < 0.0 {
      return FormatFailure("Analysis: defaultDampingRatio must be >= 0.");
    }
    return built;
  }
}
