/*
 * Validation and normalisation of a building model
 * (src/io/buildingModel/normalize.ts).
 *
 * Normalisation sorts a copy of every element list by layer (stably) and
 * then runs four validators on the sorted copy: structure information,
 * layer ranges, geometry and wall-type references. The first violation
 * found is reported as a `FormatParseError`.
 */
module Normalize {
  import opened Results
  import opened Numbers
  import opened Strings
  import opened Sorting
  import opened Building

  const Prefix := "BuildingModel JSON: "

  /**
   * The first failure of `check` over `items` from index `start` on, in
   * index order: the loop `for (const [index, item] of items.entries())`
   * whose body throws.
   */
  function CheckFrom<T>(items: seq<T>, check: (nat, T) -> Result<()>, start: nat): (r: Result<()>)
    requires start <= |items|
    ensures r.Ok? <==> forall i :: start <= i < |items| ==> check(i, items[i]).Ok?
    ensures r.Ok? ==> r == Ok(())
    ensures r.Err? ==> exists i :: start <= i < |items| && check(i, items[i]) == r
    decreases |items| - start
  {
    if start == |items| then Ok(())
    else if check(start, items[start]).Err? then check(start, items[start])
    else CheckFrom(items, check, start + 1)
  }

  function CheckEach<T>(items: seq<T>, check: (nat, T) -> Result<()>): (r: Result<()>)
  {
    CheckFrom(items, check, 0)
  }

  /** When every check is an element test, checking each entry tests every element. */
  lemma CheckEachAll<T>(items: seq<T>, check: (nat, T) -> Result<()>, p: T -> bool)
    requires forall i: nat, x: T :: check(i, x).Ok? <==> p(x)
    ensures CheckEach(items, check).Ok? <==> forall x :: x in items ==> p(x)
  {
    if !CheckEach(items, check).Ok? {
      var i :| 0 <= i < |items| && check(i, items[i]) == CheckEach(items, check);
      assert items[i] in items;
    }
  }

  /** `${list}[${index}]`, the name of a list entry in messages. */
  function Indexed(list: string, index: nat): string
  {
    list + "[" + NatToString(index) + "]"
  }

  // ---- checkLayerRange ----------------------------------------------------

  /** A layer is an integer >= 1 and, when a limit is given, at most that limit. */
  predicate LayerOk(layer: real, maxLayer: Option<real>)
  {
    IsInteger(layer) && layer >= 1.0 && (maxLayer.Some? ==> layer <= maxLayer.value)
  }

  /**
   * `${x}` for an integer: its decimal digits. The limit and the layer are
   * integers wherever the layer check prints them (the structure check has
   * passed before it).
   */
  function IntegerText(x: real): string
  {
    IntToString(x.Floor)
  }

  function CheckLayerRange(itemName: string, layer: real, maxLayer: Option<real>): (r: Result<()>)
    ensures r.Ok? <==> LayerOk(layer, maxLayer)
    ensures r.Err? ==> r.error.FormatParseError?
  {
    if !IsInteger(layer) || layer < 1.0 then
      FormatFailure(Prefix + itemName + ".layer must be an integer >= 1.")
    else if maxLayer.Some? && layer > maxLayer.value then
      FormatFailure(Prefix + itemName + ".layer must be <= " + IntegerText(maxLayer.value) + ", got " + IntegerText(layer) + ".")
    else Ok(())
  }

  // ---- validateStructInfo -------------------------------------------------

  /** Adjacent zLevel entries never decrease. */
  predicate NonDecreasing(z: seq<real>)
  {
    forall i :: 0 < i < |z| ==> z[i - 1] <= z[i]
  }

  function MonotonicFrom(z: seq<real>, i: nat): (r: Result<()>)
    requires 1 <= i
    ensures r.Ok? <==> forall j :: i <= j < |z| ==> z[j - 1] <= z[j]
    ensures r.Err? ==> r.error.FormatParseError?
    decreases |z| - i
  {
    if i >= |z| then Ok(())
    else if z[i] < z[i - 1] then FormatFailure(Prefix + "structInfo.zLevel must be monotonic non-decreasing.")
    else MonotonicFrom(z, i + 1)
  }

  /** What the structure information must satisfy. */
  predicate StructInfoOk(info: Option<StructInfo>)
  {
    info.Some?
    && var s := info.value;
    IsInteger(s.massN) && s.massN >= 1.0
    && |s.zLevel| as real == s.massN + 1.0
    && |s.weight| as real == s.massN
    && |s.wMoment| as real == s.massN
    && |s.wCenter| as real == s.massN
    && NonDecreasing(s.zLevel)
  }

  function ValidateStructInfo(m: BuildingModel): (r: Result<()>)
    ensures r.Ok? <==> StructInfoOk(m.structInfo)
    ensures r.Err? ==> r.error.FormatParseError?
  {
    if m.structInfo.None? then FormatFailure(Prefix + "structInfo is required.")
    else
      var s := m.structInfo.value;
      if !IsInteger(s.massN) || s.massN < 1.0 then FormatFailure(Prefix + "structInfo.massN must be an integer >= 1.")
      else if |s.zLevel| as real != s.massN + 1.0 then FormatFailure(Prefix + "structInfo.zLevel length must be massN + 1.")
      else if |s.weight| as real != s.massN then FormatFailure(Prefix + "structInfo.weight length must equal massN.")
      else if |s.wMoment| as real != s.massN then FormatFailure(Prefix + "structInfo.wMoment length must equal massN.")
      else if |s.wCenter| as real != s.massN then FormatFailure(Prefix + "structInfo.wCenter length must equal massN.")
      else MonotonicFrom(s.zLevel, 1)
  }

  // ---- validateLayerRules -------------------------------------------------

  /** `model.structInfo?.massN ?? null`. */
  function MassN(m: BuildingModel): Option<real>
  {
    if m.structInfo.Some? then Some(m.structInfo.value.massN) else None
  }

  function FloorMaxLayer(m: BuildingModel): Option<real>
  {
    if m.structInfo.Some? then Some(m.structInfo.value.massN + 1.0) else None
  }

  function FloorLayerCheck(maxLayer: Option<real>): (check: (nat, Floor) -> Result<()>)
    ensures forall i, f :: check(i, f).Ok? <==> LayerOk(f.layer, maxLayer)
  {
    (i: nat, f: Floor) => CheckLayerRange(Indexed("floors", i), f.layer, maxLayer)
  }

  function ColumnLayerCheck(maxLayer: Option<real>): (check: (nat, Column) -> Result<()>)
    ensures forall i, c :: check(i, c).Ok? <==> LayerOk(c.layer, maxLayer)
  {
    (i: nat, c: Column) => CheckLayerRange(Indexed("columns", i), c.layer, maxLayer)
  }

  function WallLayerCheck(maxLayer: Option<real>): (check: (nat, Wall) -> Result<()>)
    ensures forall i, w :: check(i, w).Ok? <==> LayerOk(w.layer, maxLayer)
  {
    (i: nat, w: Wall) => CheckLayerRange(Indexed("walls", i), w.layer, maxLayer)
  }

  function MassDamperLayerCheck(maxLayer: Option<real>): (check: (nat, MassDamper) -> Result<()>)
    ensures forall i, d :: check(i, d).Ok? <==> LayerOk(d.layer, maxLayer)
  {
    (i: nat, d: MassDamper) => CheckLayerRange(Indexed("massDampers", i), d.layer, maxLayer)
  }

  function BraceDamperLayerCheck(maxLayer: Option<real>): (check: (nat, BraceDamper) -> Result<()>)
    ensures forall i, d :: check(i, d).Ok? <==> LayerOk(d.layer, maxLayer)
  {
    (i: nat, d: BraceDamper) => CheckLayerRange(Indexed("braceDampers", i), d.layer, maxLayer)
  }

  function PanelLayerCheck(maxLayer: Option<real>): (check: (nat, DXPanel) -> Result<()>)
    ensures forall i, p :: check(i, p).Ok? <==> LayerOk(p.layer, maxLayer)
  {
    (i: nat, p: DXPanel) => CheckLayerRange(Indexed("dxPanels", i), p.layer, maxLayer)
  }

  /** Floors may sit one level above the top story; every other element lies on a story. */
  predicate LayersOk(m: BuildingModel)
  {
    (forall f :: f in m.floors ==> LayerOk(f.layer, FloorMaxLayer(m)))
    && (forall c :: c in m.columns ==> LayerOk(c.layer, MassN(m)))
    && (forall w :: w in m.walls ==> LayerOk(w.layer, MassN(m)))
    && (forall d :: d in m.massDampers ==> LayerOk(d.layer, MassN(m)))
    && (forall d :: d in m.braceDampers ==> LayerOk(d.layer, MassN(m)))
    && (forall p :: p in m.dxPanels ==> LayerOk(p.layer, MassN(m)))
  }

  function ValidateLayerRules(m: BuildingModel): (r: Result<()>)
    ensures r.Ok? <==> LayersOk(m)
  {
    CheckEachAll(m.floors, FloorLayerCheck(FloorMaxLayer(m)), (f: Floor) => LayerOk(f.layer, FloorMaxLayer(m)));
    CheckEachAll(m.columns, ColumnLayerCheck(MassN(m)), (c: Column) => LayerOk(c.layer, MassN(m)));
    CheckEachAll(m.walls, WallLayerCheck(MassN(m)), (w: Wall) => LayerOk(w.layer, MassN(m)));
    CheckEachAll(m.massDampers, MassDamperLayerCheck(MassN(m)), (d: MassDamper) => LayerOk(d.layer, MassN(m)));
    CheckEachAll(m.braceDampers, BraceDamperLayerCheck(MassN(m)), (d: BraceDamper) => LayerOk(d.layer, MassN(m)));
    CheckEachAll(m.dxPanels, PanelLayerCheck(MassN(m)), (p: DXPanel) => LayerOk(p.layer, MassN(m)));
    var _ :- CheckEach(m.floors, FloorLayerCheck(FloorMaxLayer(m)));
    var _ :- CheckEach(m.columns, ColumnLayerCheck(MassN(m)));
    var _ :- CheckEach(m.walls, WallLayerCheck(MassN(m)));
    var _ :- CheckEach(m.massDampers, MassDamperLayerCheck(MassN(m)));
    var _ :- CheckEach(m.braceDampers, BraceDamperLayerCheck(MassN(m)));
    var _ :- CheckEach(m.dxPanels, PanelLayerCheck(MassN(m)));
    Ok(())
  }

  // ---- validateGeometryRules ----------------------------------------------

  /** A wall runs along the X or the Y axis and its end points differ. */
  predicate WallShapeOk(w: Wall)
  {
    (w.start.x == w.end.x || w.start.y == w.end.y) && !(w.start.x == w.end.x && w.start.y == w.end.y)
  }

  function FloorShapeCheck(): (check: (nat, Floor) -> Result<()>)
    ensures forall i, f :: check(i, f).Ok? <==> |f.pos| >= 3
  {
    (i: nat, f: Floor) =>
      if |f.pos| < 3 then FormatFailure(Prefix + Indexed("floors", i) + ".pos must contain at least 3 points.")
      else Ok(())
  }

  function PanelShapeCheck(): (check: (nat, DXPanel) -> Result<()>)
    ensures forall i, p :: check(i, p).Ok? <==> |p.pos| >= 2
  {
    (i: nat, p: DXPanel) =>
      if |p.pos| < 2 then FormatFailure(Prefix + Indexed("dxPanels", i) + ".pos must contain at least 2 points.")
      else Ok(())
  }

  function WallShapeCheck(): (check: (nat, Wall) -> Result<()>)
    ensures forall i, w :: check(i, w).Ok? <==> WallShapeOk(w)
  {
    (i: nat, w: Wall) =>
      if w.start.x != w.end.x && w.start.y != w.end.y then
        FormatFailure(Prefix + Indexed("walls", i) + " must be aligned to X or Y axis (diagonal is not allowed).")
      else if w.start.x == w.end.x && w.start.y == w.end.y then
        FormatFailure(Prefix + Indexed("walls", i) + " must have non-zero length.")
      else Ok(())
  }

  predicate GeometryOk(m: BuildingModel)
  {
    (forall f :: f in m.floors ==> |f.pos| >= 3)
    && (forall p :: p in m.dxPanels ==> |p.pos| >= 2)
    && (forall w :: w in m.walls ==> WallShapeOk(w))
  }

  function ValidateGeometryRules(m: BuildingModel): (r: Result<()>)
    ensures r.Ok? <==> GeometryOk(m)
  {
    CheckEachAll(m.floors, FloorShapeCheck(), (f: Floor) => |f.pos| >= 3);
    CheckEachAll(m.dxPanels, PanelShapeCheck(), (p: DXPanel) => |p.pos| >= 2);
    CheckEachAll(m.walls, WallShapeCheck(), WallShapeOk);
    var _ :- CheckEach(m.floors, FloorShapeCheck());
    var _ :- CheckEach(m.dxPanels, PanelShapeCheck());
    var _ :- CheckEach(m.walls, WallShapeCheck());
    Ok(())
  }

  // ---- validateWallReferences ---------------------------------------------

  /** The names of the wall types in `db`. */
  function CharaNames(db: seq<WallChara>): set<string>
  {
    set i | 0 <= i < |db| :: db[i].name
  }

  predicate NamesUnique(db: seq<WallChara>)
  {
    forall i, j :: 0 <= i < j < |db| ==> db[i].name != db[j].name
  }

  predicate WallsResolve(m: BuildingModel)
  {
    forall w :: w in m.walls ==> w.name in CharaNames(m.wallCharaDB)
  }

  /** The check made on entry `i` of wallCharaDB: its name is not among the earlier ones. */
  function DuplicateCheck(db: seq<WallChara>): (nat, WallChara) -> Result<()>
  {
    (i: nat, c: WallChara) =>
      if c.name in CharaNames(db[..if i <= |db| then i else |db|]) then
        FormatFailure(Prefix + Indexed("wallCharaDB", i) + ".name is duplicated: \"" + c.name + "\".")
      else Ok(())
  }

  function ResolveCheck(db: seq<WallChara>): (nat, Wall) -> Result<()>
  {
    (i: nat, w: Wall) =>
      if w.name !in CharaNames(db) then
        FormatFailure(Prefix + Indexed("walls", i) + ".name \"" + w.name + "\" is not found in wallCharaDB.")
      else Ok(())
  }

  /** The outcome of `validateWallReferences`, as a specification. */
  function WallReferencesCheck(m: BuildingModel): (r: Result<()>)
    ensures r.Ok? <==> NamesUnique(m.wallCharaDB) && WallsResolve(m)
  {
    var db := m.wallCharaDB;
    var _ :- CheckEach(db, DuplicateCheck(db));
    var _ :- CheckEach(m.walls, ResolveCheck(db));
    assert NamesUnique(db) by {
      forall i, j | 0 <= i < j < |db| ensures db[i].name != db[j].name {
        assert DuplicateCheck(db)(j, db[j]).Ok?;
        assert db[i] == db[..j][i];
        assert db[..j][i].name in CharaNames(db[..j]);
      }
    }
    assert WallsResolve(m) by {
      forall w | w in m.walls ensures w.name in CharaNames(db) {
        var i :| 0 <= i < |m.walls| && m.walls[i] == w;
        assert ResolveCheck(db)(i, m.walls[i]).Ok?;
      }
    }
    Ok(())
  }

  /**
   * `validateWallReferences` as normalize.ts runs it: a set of names grows
   * while wallCharaDB is scanned, then every wall's name is looked up.
   */
  method ValidateWallReferences(m: BuildingModel) returns (r: Result<()>)
    ensures r == WallReferencesCheck(m)
  {
    var db := m.wallCharaDB;
    ReferencesCheckSteps(m);
    var names: set<string> := {};
    var i := 0;
    while i < |db|
      invariant 0 <= i <= |db|
      invariant names == CharaNames(db[..i])
      invariant CheckEach(db, DuplicateCheck(db)) == CheckFrom(db, DuplicateCheck(db), i)
    {
      DuplicateStep(db, i, names);
      if db[i].name in names {
        r := FormatFailure(Prefix + Indexed("wallCharaDB", i) + ".name is duplicated: \"" + db[i].name + "\".");
        return;
      }
      names := names + {db[i].name};
      i := i + 1;
    }
    assert db[..|db|] == db;
    var j := 0;
    while j < |m.walls|
      invariant 0 <= j <= |m.walls|
      invariant CheckEach(m.walls, ResolveCheck(db)) == CheckFrom(m.walls, ResolveCheck(db), j)
    {
      ResolveStep(m.walls, db, j);
      if m.walls[j].name !in names {
        r := FormatFailure(Prefix + Indexed("walls", j) + ".name \"" + m.walls[j].name + "\" is not found in wallCharaDB.");
        return;
      }
      j := j + 1;
    }
    r := Ok(());
  }

  /** `WallReferencesCheck` is the duplicate scan, then, when that passes, the lookup scan. */
  lemma ReferencesCheckSteps(m: BuildingModel)
    ensures var dup := CheckEach(m.wallCharaDB, DuplicateCheck(m.wallCharaDB));
      (dup.Err? ==> WallReferencesCheck(m) == dup)
      && (dup.Ok? ==> WallReferencesCheck(m) == CheckEach(m.walls, ResolveCheck(m.wallCharaDB)))
  {
  }

  /** Entry `i` of the duplicate scan, given the names of the entries before it. */
  lemma DuplicateStep(db: seq<WallChara>, i: nat, names: set<string>)
    requires i < |db| && names == CharaNames(db[..i])
    ensures db[i].name in names ==>
      CheckFrom(db, DuplicateCheck(db), i) == FormatFailure(Prefix + Indexed("wallCharaDB", i) + ".name is duplicated: \"" + db[i].name + "\".")
    ensures db[i].name !in names ==> CheckFrom(db, DuplicateCheck(db), i) == CheckFrom(db, DuplicateCheck(db), i + 1)
    ensures CharaNames(db[..i + 1]) == names + {db[i].name}
  {
    assert DuplicateCheck(db)(i, db[i]).Err? <==> db[i].name in names;
    forall x | x in CharaNames(db[..i + 1]) ensures x in names + {db[i].name} {
      var k :| 0 <= k < i + 1 && db[..i + 1][k].name == x;
      if k < i { assert db[..i][k] == db[..i + 1][k]; }
    }
    forall x | x in names ensures x in CharaNames(db[..i + 1]) {
      var k :| 0 <= k < i && db[..i][k].name == x;
      assert db[..i + 1][k] == db[..i][k];
    }
    assert db[..i + 1][i] == db[i];
  }

  /** Wall `j` of the lookup scan. */
  lemma ResolveStep(walls: seq<Wall>, db: seq<WallChara>, j: nat)
    requires j < |walls|
    ensures walls[j].name !in CharaNames(db) ==>
      CheckFrom(walls, ResolveCheck(db), j) == FormatFailure(Prefix + Indexed("walls", j) + ".name \"" + walls[j].name + "\" is not found in wallCharaDB.")
    ensures walls[j].name in CharaNames(db) ==> CheckFrom(walls, ResolveCheck(db), j) == CheckFrom(walls, ResolveCheck(db), j + 1)
  {
    assert ResolveCheck(db)(j, walls[j]).Err? <==> walls[j].name !in CharaNames(db);
  }

  // ---- normalizeBuildingModel ---------------------------------------------

  /** The model with every element list stably sorted by layer; wallCharaDB keeps its order. */
  function SortedCopy(m: BuildingModel): BuildingModel
  {
    BuildingModel(
      m.structInfo,
      SortBy(m.floors, FloorLayer),
      SortBy(m.columns, ColumnLayer),
      m.wallCharaDB,
      SortBy(m.walls, WallLayer),
      SortBy(m.massDampers, MassDamperLayer),
      SortBy(m.braceDampers, BraceDamperLayer),
      SortBy(m.dxPanels, PanelLayer))
  }

  function NormalizeBuildingModel(m: BuildingModel): (r: Result<BuildingModel>)
    ensures r.Ok? ==> r.value == SortedCopy(m)
  {
    var n := SortedCopy(m);
    var _ :- ValidateStructInfo(n);
    var _ :- ValidateLayerRules(n);
    var _ :- ValidateGeometryRules(n);
    var _ :- WallReferencesCheck(n);
    Ok(n)
  }

  /** Everything the four validators demand, stated on the model as given (unsorted). */
  predicate ValidModel(m: BuildingModel)
  {
    StructInfoOk(m.structInfo) && LayersOk(m) && GeometryOk(m)
    && NamesUnique(m.wallCharaDB) && WallsResolve(m)
  }

  lemma SameElements<T>(a: seq<T>, b: seq<T>)
    requires multiset(a) == multiset(b)
    ensures forall x :: x in a <==> x in b
  {
    forall x ensures x in a <==> x in b {
      assert x in a <==> x in multiset(a);
      assert x in b <==> x in multiset(b);
    }
  }

  lemma SortedCopySameElements(m: BuildingModel)
    ensures var n := SortedCopy(m);
      (forall x :: x in n.floors <==> x in m.floors)
      && (forall x :: x in n.columns <==> x in m.columns)
      && (forall x :: x in n.walls <==> x in m.walls)
      && (forall x :: x in n.massDampers <==> x in m.massDampers)
      && (forall x :: x in n.braceDampers <==> x in m.braceDampers)
      && (forall x :: x in n.dxPanels <==> x in m.dxPanels)
  {
    SortByPermutes(m.floors, FloorLayer);
    SameElements(SortBy(m.floors, FloorLayer), m.floors);
    SortByPermutes(m.columns, ColumnLayer);
    SameElements(SortBy(m.columns, ColumnLayer), m.columns);
    SortByPermutes(m.walls, WallLayer);
    SameElements(SortBy(m.walls, WallLayer), m.walls);
    SortByPermutes(m.massDampers, MassDamperLayer);
    SameElements(SortBy(m.massDampers, MassDamperLayer), m.massDampers);
    SortByPermutes(m.braceDampers, BraceDamperLayer);
    SameElements(SortBy(m.braceDampers, BraceDamperLayer), m.braceDampers);
    SortByPermutes(m.dxPanels, PanelLayer);
    SameElements(SortBy(m.dxPanels, PanelLayer), m.dxPanels);
  }

  /**
   * Normalisation succeeds exactly on the valid models: sorting does not
   * change which elements are present, so validating the sorted copy is
   * validating the input.
   */
  lemma NormalizeAcceptsValid(m: BuildingModel)
    ensures NormalizeBuildingModel(m).Ok? <==> ValidModel(m)
  {
    NormalizeChecksSortedCopy(m);
    SortedCopyLayers(m);
    SortedCopyGeometry(m);
    SortedCopyWalls(m);
  }

  /** Normalisation succeeds exactly when the sorted copy is valid. */
  lemma NormalizeChecksSortedCopy(m: BuildingModel)
    ensures NormalizeBuildingModel(m).Ok? <==> ValidModel(SortedCopy(m))
  {
  }

  lemma SortedCopyLayers(m: BuildingModel)
    ensures LayersOk(SortedCopy(m)) <==> LayersOk(m)
  {
    SortedCopySameElements(m);
  }

  lemma SortedCopyGeometry(m: BuildingModel)
    ensures GeometryOk(SortedCopy(m)) <==> GeometryOk(m)
  {
    SortedCopySameElements(m);
  }

  lemma SortedCopyWalls(m: BuildingModel)
    ensures WallsResolve(SortedCopy(m)) <==> WallsResolve(m)
  {
    SortedCopySameElements(m);
  }

  /**
   * A successful normalisation keeps structInfo and wallCharaDB, and every
   * element list becomes a stable sort by layer of the input list.
   */
  lemma NormalizeSortsStably(m: BuildingModel, n: BuildingModel)
    requires NormalizeBuildingModel(m) == Ok(n)
    ensures n.structInfo == m.structInfo && n.wallCharaDB == m.wallCharaDB
    ensures SortedBy(n.floors, FloorLayer) && multiset(n.floors) == multiset(m.floors)
    ensures SortedBy(n.columns, ColumnLayer) && multiset(n.columns) == multiset(m.columns)
    ensures SortedBy(n.walls, WallLayer) && multiset(n.walls) == multiset(m.walls)
    ensures SortedBy(n.massDampers, MassDamperLayer) && multiset(n.massDampers) == multiset(m.massDampers)
    ensures SortedBy(n.braceDampers, BraceDamperLayer) && multiset(n.braceDampers) == multiset(m.braceDampers)
    ensures SortedBy(n.dxPanels, PanelLayer) && multiset(n.dxPanels) == multiset(m.dxPanels)
    ensures forall k :: WithKey(n.floors, FloorLayer, k) == WithKey(m.floors, FloorLayer, k)
    ensures forall k :: WithKey(n.walls, WallLayer, k) == WithKey(m.walls, WallLayer, k)
    ensures forall k :: WithKey(n.columns, ColumnLayer, k) == WithKey(m.columns, ColumnLayer, k)
    ensures forall k :: WithKey(n.massDampers, MassDamperLayer, k) == WithKey(m.massDampers, MassDamperLayer, k)
    ensures forall k :: WithKey(n.braceDampers, BraceDamperLayer, k) == WithKey(m.braceDampers, BraceDamperLayer, k)
    ensures forall k :: WithKey(n.dxPanels, PanelLayer, k) == WithKey(m.dxPanels, PanelLayer, k)
  {
    SortByIsSorted(m.floors, FloorLayer);
    SortByPermutes(m.floors, FloorLayer);
    SortByIsSorted(m.columns, ColumnLayer);
    SortByPermutes(m.columns, ColumnLayer);
    SortByIsSorted(m.walls, WallLayer);
    SortByPermutes(m.walls, WallLayer);
    SortByIsSorted(m.massDampers, MassDamperLayer);
    SortByPermutes(m.massDampers, MassDamperLayer);
    SortByIsSorted(m.braceDampers, BraceDamperLayer);
    SortByPermutes(m.braceDampers, BraceDamperLayer);
    SortByIsSorted(m.dxPanels, PanelLayer);
    SortByPermutes(m.dxPanels, PanelLayer);
    forall k ensures WithKey(n.floors, FloorLayer, k) == WithKey(m.floors, FloorLayer, k) {
      SortByStable(m.floors, FloorLayer, k);
    }
    forall k ensures WithKey(n.walls, WallLayer, k) == WithKey(m.walls, WallLayer, k) {
      SortByStable(m.walls, WallLayer, k);
    }
    forall k ensures WithKey(n.columns, ColumnLayer, k) == WithKey(m.columns, ColumnLayer, k) {
      SortByStable(m.columns, ColumnLayer, k);
    }
    forall k ensures WithKey(n.massDampers, MassDamperLayer, k) == WithKey(m.massDampers, MassDamperLayer, k) {
      SortByStable(m.massDampers, MassDamperLayer, k);
    }
    forall k ensures WithKey(n.braceDampers, BraceDamperLayer, k) == WithKey(m.braceDampers, BraceDamperLayer, k) {
      SortByStable(m.braceDampers, BraceDamperLayer, k);
    }
    forall k ensures WithKey(n.dxPanels, PanelLayer, k) == WithKey(m.dxPanels, PanelLayer, k) {
      SortByStable(m.dxPanels, PanelLayer, k);
    }
  }

  /** Normalising a normalised model gives it back unchanged. */
  lemma NormalizeIdempotent(m: BuildingModel, n: BuildingModel)
    requires NormalizeBuildingModel(m) == Ok(n)
    ensures NormalizeBuildingModel(n) == Ok(n)
  {
    NormalizeChecksSortedCopy(m);
    SortedCopyFixed(m);
    NormalizeChecksSortedCopy(n);
  }

  lemma SortedCopyFixed(m: BuildingModel)
    ensures SortedCopy(SortedCopy(m)) == SortedCopy(m)
  {
    SortByIdempotent(m.floors, FloorLayer);
    SortByIdempotent(m.columns, ColumnLayer);
    SortByIdempotent(m.walls, WallLayer);
    SortByIdempotent(m.massDampers, MassDamperLayer);
    SortByIdempotent(m.braceDampers, BraceDamperLayer);
    SortByIdempotent(m.dxPanels, PanelLayer);
  }
}
