/*
 * The building-model summary of src/io/buildingModel/summary.ts: the story
 * count and structure type taken from structInfo, and one count per element
 * list. `null` in summary.ts is `None` here.
 */
module Summary {
  import opened Results
  import opened Building
  import Sorting
  import Normalize

  datatype BuildingModelSummary = BuildingModelSummary(
    story: Option<real>,
    structType: Option<StructType>,
    floorCount: nat,
    columnCount: nat,
    wallCount: nat,
    wallCharaCount: nat,
    massDamperCount: nat,
    braceDamperCount: nat,
    dxPanelCount: nat)

  /** `summarizeBuildingModel`. */
  function SummarizeBuildingModel(m: BuildingModel): (r: BuildingModelSummary)
    ensures r.story.None? <==> m.structInfo.None?
    ensures r.structType.None? <==> m.structInfo.None?
    ensures m.structInfo.Some? ==> r.story == Some(m.structInfo.value.massN) && r.structType == Some(m.structInfo.value.sType)
    ensures r.floorCount == |m.floors| && r.columnCount == |m.columns| && r.wallCount == |m.walls|
    ensures r.wallCharaCount == |m.wallCharaDB| && r.massDamperCount == |m.massDampers|
    ensures r.braceDamperCount == |m.braceDampers| && r.dxPanelCount == |m.dxPanels|
  {
    BuildingModelSummary(
      if m.structInfo.Some? then Some(m.structInfo.value.massN) else None,
      if m.structInfo.Some? then Some(m.structInfo.value.sType) else None,
      |m.floors|, |m.columns|, |m.walls|, |m.wallCharaDB|,
      |m.massDampers|, |m.braceDampers|, |m.dxPanels|)
  }

  /** The empty model has no story count, no structure type and every count zero. */
  lemma EmptySummary()
    ensures SummarizeBuildingModel(EmptyModel) == BuildingModelSummary(None, None, 0, 0, 0, 0, 0, 0, 0)
  {
  }

  /** Sorting a list keeps its length. */
  lemma SortKeepsLength<T>(s: seq<T>, key: T -> real)
    ensures |Sorting.SortBy(s, key)| == |s|
  {
    Sorting.SortByPermutes(s, key);
    assert |multiset(Sorting.SortBy(s, key))| == |multiset(s)|;
  }

  /** Normalisation changes no entry of the summary: it only reorders element lists. */
  lemma NormalizeKeepsSummary(m: BuildingModel, n: BuildingModel)
    requires Normalize.NormalizeBuildingModel(m) == Ok(n)
    ensures SummarizeBuildingModel(n) == SummarizeBuildingModel(m)
  {
    SortKeepsLength(m.floors, FloorLayer);
    SortKeepsLength(m.columns, ColumnLayer);
    SortKeepsLength(m.walls, WallLayer);
    SortKeepsLength(m.massDampers, MassDamperLayer);
    SortKeepsLength(m.braceDampers, BraceDamperLayer);
    SortKeepsLength(m.dxPanels, PanelLayer);
  }
}
