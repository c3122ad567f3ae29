/*
 * The NICE-JSON converter of src/io/jsonToBuildingModel.ts.
 *
 * `cleanJsonUnits` strips unit labels from the raw text before it is
 * parsed; `convertNiceJsonToBuildingModel` then turns the parsed record
 * into a building model. `JSON.parse` itself is not modelled: the
 * converter starts from the parsed record, with every list the record
 * lacks given as the empty list (`?? []` in the converter).
 */
module NiceJson {
  import opened Results
  import opened Numbers
  import opened Strings
  import opened Sorting
  import opened Building
  import opened Normalize
  import opened LegacyXml

  // ---- cleanJsonUnits ---------------------------------------------------------------

  /** The unit labels removed from the raw text, in the order they are removed. */
  const UnitLabels: seq<string> := ["(kN)", "(cm)", "(kN･cm2)", "(kN/cm)", "(kN/cm/m)"]

  /**
   * `text.split(tag).join("")`: every occurrence of `tag` found scanning
   * from the left, each search resuming after the previous match, is removed.
   */
  function RemoveLabel(text: string, tag: string): (r: string)
    requires |tag| > 0
    ensures |r| <= |text|
    decreases |text|
  {
    if |text| < |tag| then text
    else if text[..|tag|] == tag then RemoveLabel(text[|tag|..], tag)
    else [text[0]] + RemoveLabel(text[1..], tag)
  }

  /** Removing a label changes the text exactly when the label occurs in it. */
  lemma {:induction false} RemoveLabelUnchanged(text: string, tag: string)
    requires |tag| > 0
    ensures RemoveLabel(text, tag) == text <==> !Contains(text, tag)
    decreases |text|
  {
    if |text| < |tag| {
      NotContainedWhenShort(text, tag);
    } else if text[..|tag|] == tag {
      assert StartsWith(text, tag);
      assert |RemoveLabel(text[|tag|..], tag)| < |text|;
    } else {
      RemoveLabelUnchanged(text[1..], tag);
      assert !StartsWith(text, tag);
      var rest := RemoveLabel(text[1..], tag);
      assert RemoveLabel(text, tag) == [text[0]] + rest;
      assert ([text[0]] + rest == text) <==> (rest == text[1..]) by {
        assert text == [text[0]] + text[1..];
      }
    }
  }

  lemma {:induction false} NotContainedWhenShort(text: string, tag: string)
    requires |text| < |tag|
    ensures !Contains(text, tag)
    decreases |text|
  {
    if text != [] {
      NotContainedWhenShort(text[1..], tag);
    }
  }

  /** Removing the labels `tags`, one after the other, from `text`. */
  function RemoveLabels(text: string, tags: seq<string>): (r: string)
    requires forall i :: 0 <= i < |tags| ==> |tags[i]| > 0
    ensures |r| <= |text|
    decreases |tags|
  {
    if tags == [] then text else RemoveLabels(RemoveLabel(text, tags[0]), tags[1..])
  }

  /** Text is left unchanged exactly when it holds none of the labels. */
  lemma {:induction false} RemoveLabelsUnchanged(text: string, tags: seq<string>)
    requires forall i :: 0 <= i < |tags| ==> |tags[i]| > 0
    ensures RemoveLabels(text, tags) == text <==> forall i :: 0 <= i < |tags| ==> !Contains(text, tags[i])
    decreases |tags|
  {
    if tags != [] {
      var once := RemoveLabel(text, tags[0]);
      RemoveLabelUnchanged(text, tags[0]);
      RemoveLabelsUnchanged(once, tags[1..]);
      if once == text {
        forall i | 0 < i < |tags| ensures tags[i] == tags[1..][i - 1] { }
      } else {
        assert |once| < |text| by {
          assert |once| <= |text|;
          if |once| == |text| { ShorterUnlessSame(text, tags[0]); }
        }
      }
    }
  }

  /** A removal that keeps the length keeps the text. */
  lemma {:induction false} ShorterUnlessSame(text: string, tag: string)
    requires |tag| > 0
    requires |RemoveLabel(text, tag)| == |text|
    ensures RemoveLabel(text, tag) == text
    decreases |text|
  {
    if |text| >= |tag| && text[..|tag|] != tag {
      ShorterUnlessSame(text[1..], tag);
      assert text == [text[0]] + text[1..];
    }
  }

  /** `cleanJsonUnits`: the loop that removes each unit label in turn. */
  method CleanJsonUnits(rawJson: string) returns (text: string)
    ensures text == RemoveLabels(rawJson, UnitLabels)
  {
    text := rawJson;
    for k := 0 to |UnitLabels|
      invariant RemoveLabels(text, UnitLabels[k..]) == RemoveLabels(rawJson, UnitLabels)
    {
      assert UnitLabels[k..][1..] == UnitLabels[k + 1..];
      text := RemoveLabel(text, UnitLabels[k]);
    }
  }

  /** Raw text holding none of the unit labels is passed through unchanged, and only such text is. */
  lemma CleanJsonUnitsUnchanged(rawJson: string)
    ensures RemoveLabels(rawJson, UnitLabels) == rawJson
      <==> forall i :: 0 <= i < |UnitLabels| ==> !Contains(rawJson, UnitLabels[i])
  {
    RemoveLabelsUnchanged(rawJson, UnitLabels);
  }

  // ---- the parsed record --------------------------------------------------------------

  /** An entry of 固有値解析諸元: story 階, 層重量, 重心 and 重量慣性モーメント. */
  datatype NiceEigen = NiceEigen(story: real, weight: real, center: Point, moment: real)

  /** An entry of 床情報: story 階 and the flat coordinate list 座標. */
  datatype NiceFloor = NiceFloor(story: real, coords: seq<real>)

  /** An entry of 柱剛性情報: story 階, 位置 and 通り方向剛性. */
  datatype NiceColumn = NiceColumn(story: real, pos: Point, kx: real, ky: real)

  /** An entry of 壁剛性情報: 名前, story 階, 単位剛性 and the two ends of 位置. */
  datatype NiceWall = NiceWall(name: string, story: real, unitStiffness: real, start: Point, end: Point)

  /** The parsed NICE-JSON record; `storyCount` is 物件情報.建物階数 when present. */
  datatype NiceJsonInput = NiceJsonInput(
    storyCount: Option<real>,
    eigen: seq<NiceEigen>,
    floors: seq<NiceFloor>,
    columns: seq<NiceColumn>,
    walls: seq<NiceWall>)

  /** `Number(json.物件情報?.建物階数 ?? 0)`. */
  function StoryOf(input: NiceJsonInput): real
  {
    if input.storyCount.Some? then input.storyCount.value else 0.0
  }

  // ---- eigenByStory ---------------------------------------------------------------------

  /** The map `eigenByStory` after `set(e.階, e)` for every entry in order. */
  function EigenIndex(eigen: seq<NiceEigen>): map<real, NiceEigen>
  {
    if eigen == [] then map[]
    else var last := eigen[|eigen| - 1]; EigenIndex(eigen[..|eigen| - 1])[last.story := last]
  }

  /** A story is in the index exactly when some entry names it, and then the last such entry is kept. */
  lemma {:induction false} EigenIndexLastWins(eigen: seq<NiceEigen>, k: real)
    ensures k in EigenIndex(eigen) <==> exists j :: 0 <= j < |eigen| && eigen[j].story == k
    ensures forall j :: 0 <= j < |eigen| && eigen[j].story == k && (forall l :: j < l < |eigen| ==> eigen[l].story != k)
               ==> k in EigenIndex(eigen) && EigenIndex(eigen)[k] == eigen[j]
  {
    if eigen != [] {
      var init := eigen[..|eigen| - 1];
      EigenIndexLastWins(init, k);
      forall j | 0 <= j < |init| ensures init[j] == eigen[j] { }
      if (exists j :: 0 <= j < |eigen| && eigen[j].story == k) && eigen[|eigen| - 1].story != k {
        var j :| 0 <= j < |eigen| && eigen[j].story == k;
        assert j < |init| && init[j].story == k;
      }
    }
  }

  /** The loop that fills `eigenByStory`. */
  method IndexEigen(eigen: seq<NiceEigen>) returns (index: map<real, NiceEigen>)
    ensures index == EigenIndex(eigen)
  {
    index := map[];
    for i := 0 to |eigen|
      invariant index == EigenIndex(eigen[..i])
    {
      assert eigen[..i + 1][..i] == eigen[..i];
      index := index[eigen[i].story := eigen[i]];
    }
    assert eigen[..|eigen|] == eigen;
  }

  // ---- the story loop ---------------------------------------------------------------------

  /** The number of integers i with 1 <= i <= story. */
  function StoriesUpTo(story: real): nat
  {
    if story < 1.0 then 0 else story.Floor
  }

  /** Story `i` (from 1 on) is visited exactly when it is at most the story count. */
  lemma StoryVisited(story: real, i: int)
    requires 1 <= i
    ensures Visited(story, i) <==> i <= StoriesUpTo(story)
  {
  }

  /** The story loop reaches story `i`. */
  predicate Visited(story: real, i: int)
  {
    i as real <= story
  }

  /** Story `i` has an entry in the index. */
  predicate HasStory(index: map<real, NiceEigen>, i: int)
  {
    i as real in index
  }

  /** The entries found for stories 1..n, in story order; missing stories are skipped. */
  function Found(index: map<real, NiceEigen>, n: nat): seq<NiceEigen>
  {
    if n == 0 then []
    else Found(index, n - 1) + (if n as real in index then [index[n as real]] else [])
  }

  /** Story heights: 0 and then 288 more for each story found. */
  function Heights(count: nat): (z: seq<real>)
    ensures |z| == count + 1
  {
    seq(count + 1, j => 288.0 * j as real)
  }

  /** The structure information the story loop builds. */
  function StructInfoFrom(story: real, index: map<real, NiceEigen>): StructInfo
  {
    var rows := Found(index, StoriesUpTo(story));
    StructInfo(
      story, R, Heights(|rows|),
      seq(|rows|, j requires 0 <= j < |rows| => rows[j].weight),
      seq(|rows|, j requires 0 <= j < |rows| => rows[j].moment),
      seq(|rows|, j requires 0 <= j < |rows| => rows[j].center))
  }

  /** The loop `for (let i = 1; i <= story; i++)` that appends one height, weight, moment and centre per story found. */
  method StoryLoop(story: real, index: map<real, NiceEigen>) returns (info: StructInfo)
    ensures info == StructInfoFrom(story, index)
  {
    var zLevel := [0.0];
    var weight: seq<real> := [];
    var wMoment: seq<real> := [];
    var wCenter: seq<Point> := [];
    var z := 0.0;
    var i := 1;
    ghost var n := StoriesUpTo(story);
    while i as real <= story
      invariant 1 <= i <= n + 1
      invariant var rows := Found(index, i - 1);
        && zLevel == Heights(|rows|) && z == 288.0 * |rows| as real
        && weight == seq(|rows|, j requires 0 <= j < |rows| => rows[j].weight)
        && wMoment == seq(|rows|, j requires 0 <= j < |rows| => rows[j].moment)
        && wCenter == seq(|rows|, j requires 0 <= j < |rows| => rows[j].center)
      decreases n + 1 - i
    {
      StoryVisited(story, i);
      if i as real in index {
        var e := index[i as real];
        z := z + 288.0;
        zLevel := zLevel + [z];
        weight := weight + [e.weight];
        wMoment := wMoment + [e.moment];
        wCenter := wCenter + [e.center];
      }
      i := i + 1;
    }
    StoryVisited(story, i);
    info := StructInfo(story, R, zLevel, weight, wMoment, wCenter);
  }

  /** At most one entry per story is found, and one for every story exactly when no story is missing. */
  lemma {:induction false} FoundCount(index: map<real, NiceEigen>, n: nat)
    ensures |Found(index, n)| <= n
    ensures |Found(index, n)| == n <==> forall i :: 1 <= i <= n ==> HasStory(index, i)
  {
    if n > 0 {
      FoundCount(index, n - 1);
      assert HasStory(index, n) <==> n as real in index;
    }
  }

  /** The heights rise by 288 per story, so they never decrease. */
  lemma HeightsRise(count: nat)
    ensures forall j :: 0 < j < |Heights(count)| ==> Heights(count)[j] == Heights(count)[j - 1] + 288.0
    ensures NonDecreasing(Heights(count))
  {
  }

  /**
   * The converted structure information passes validation exactly when the
   * story count is a whole number of at least 1 and every story 1..N has an
   * entry in 固有値解析諸元.
   */
  lemma StructInfoFromValid(story: real, index: map<real, NiceEigen>)
    ensures StructInfoOk(Some(StructInfoFrom(story, index)))
      <==> IsInteger(story) && story >= 1.0 && forall i: int :: 1 <= i && Visited(story, i) ==> HasStory(index, i)
  {
    var n := StoriesUpTo(story);
    forall i: int | 1 <= i ensures Visited(story, i) <==> i <= n {
      StoryVisited(story, i);
    }
    FoundCount(index, n);
    HeightsRise(|Found(index, n)|);
    if IsInteger(story) && story >= 1.0 {
      assert n as real == story;
    }
  }

  // ---- walls and wall types ---------------------------------------------------------------

  /** `wallModelName`: the wall name, an underscore and the unit stiffness times 1000, truncated. */
  function WallModelName(name: string, unitStiffness: real): string
  {
    name + "_" + IntToString(Trunc(unitStiffness * 1000.0))
  }

  /** `Number(s)` on a text that is an integer numeral (an optional minus sign and digits); `None` (NaN) otherwise. */
  function IntegerValue(s: string): Option<int>
  {
    if |s| >= 2 && s[0] == '-' && AllDigits(s[1..]) then var d: int := DigitsValue(s[1..]); Some(-d)
    else if |s| >= 1 && AllDigits(s) then Some(DigitsValue(s))
    else None
  }

  /** Reading back the text of an integer gives the integer. */
  lemma IntegerValueOfText(n: int)
    ensures IntegerValue(IntToString(n)) == Some(n)
  {
    if n < 0 {
      DigitsOfNat(-n);
      assert IntToString(n)[1..] == NatToString(-n);
    } else {
      DigitsOfNat(n);
    }
  }

  /**
   * The wall type created for a model name:
   * `Number(modelName.split("_").pop()) / 1000`, no height or damping, both
   * flags set and an empty memo. A last piece that is not an integer numeral
   * does not arise (`WallTypeStiffness`); it is given stiffness 0 here.
   */
  function WallTypeFor(modelName: string): WallChara
  {
    var v := IntegerValue(LastPart(modelName, '_'));
    WallChara(modelName, if v.Some? then v.value as real / 1000.0 else 0.0, 0.0, 0.0, true, true, "")
  }

  /** The stiffness of a wall's type is its unit stiffness truncated to thousandths, so less than 0.001 below it. */
  lemma WallTypeStiffness(name: string, unitStiffness: real)
    requires unitStiffness > 0.001
    ensures WallTypeFor(WallModelName(name, unitStiffness)).k == Milli(unitStiffness)
    ensures Milli(unitStiffness) <= unitStiffness < Milli(unitStiffness) + 0.001
  {
    var t := Trunc(unitStiffness * 1000.0);
    var digits := IntToString(t);
    assert '_' !in digits;
    assert WallModelName(name, unitStiffness) == name + ['_'] + digits;
    LastPartAfter(name, '_', digits);
    IntegerValueOfText(t);
    MilliBound(unitStiffness);
  }

  /** A stiffness truncated to thousandths: `Math.trunc(k * 1000) / 1000`. */
  function Milli(k: real): real
  {
    Trunc(k * 1000.0) as real / 1000.0
  }

  /** For a positive stiffness, truncating to thousandths loses less than 0.001. */
  lemma MilliBound(k: real)
    requires k > 0.0
    ensures Milli(k) <= k < Milli(k) + 0.001
  {
    var t := Trunc(k * 1000.0);
    assert t as real <= k * 1000.0 < t as real + 1.0;
  }

  /** The name the converter gives the wall in the test fixture. */
  lemma FixtureWallName()
    ensures WallModelName("WAL1", 10.2) == "WAL1_10200"
  {
    assert Trunc(10.2 * 1000.0) == 10200;
    FixtureDigits();
  }

  lemma FixtureDigits()
    ensures IntToString(10200) == "10200"
  {
    assert NatToString(1) == "1";
    assert NatToString(10) == "10";
    assert NatToString(102) == "102";
    assert NatToString(1020) == "1020";
  }

  /** Walls with unit stiffness at most 0.001 are skipped. */
  predicate Kept(w: NiceWall)
  {
    w.unitStiffness > 0.001
  }

  /** The wall the converter writes: the model name, the story, both ends, and not visible. */
  function WallFrom(w: NiceWall): Wall
  {
    Wall(WallModelName(w.name, w.unitStiffness), w.story, w.start, w.end, false)
  }

  /** The walls converted from the first `n` entries. */
  function WallsUpTo(ws: seq<NiceWall>, n: nat): seq<Wall>
    requires n <= |ws|
  {
    if n == 0 then []
    else WallsUpTo(ws, n - 1) + (if Kept(ws[n - 1]) then [WallFrom(ws[n - 1])] else [])
  }

  /** One entry's effect on `wallCharaMap`: a kept wall with a new model name adds its type at the end. */
  function TypeStep(types: seq<WallChara>, w: NiceWall): seq<WallChara>
  {
    var name := WallModelName(w.name, w.unitStiffness);
    if Kept(w) && name !in CharaNames(types) then types + [WallTypeFor(name)] else types
  }

  /** The values of `wallCharaMap` after the first `n` entries, in insertion order. */
  function TypesUpTo(ws: seq<NiceWall>, n: nat): seq<WallChara>
    requires n <= |ws|
  {
    if n == 0 then [] else TypeStep(TypesUpTo(ws, n - 1), ws[n - 1])
  }

  /** `wallCharaMap.has(modelName)`. */
  method HasType(types: seq<WallChara>, modelName: string) returns (known: bool)
    ensures known <==> modelName in CharaNames(types)
  {
    known := false;
    for j := 0 to |types|
      invariant known <==> modelName in CharaNames(types[..j])
    {
      assert types[..j + 1] == types[..j] + [types[j]];
      if types[j].name == modelName {
        known := true;
      }
    }
    assert types[..|types|] == types;
  }

  /** One pass of the wall loop. */
  method AddWall(types: seq<WallChara>, walls: seq<Wall>, w: NiceWall) returns (types': seq<WallChara>, walls': seq<Wall>)
    ensures types' == TypeStep(types, w)
    ensures walls' == walls + (if Kept(w) then [WallFrom(w)] else [])
  {
    types', walls' := types, walls;
    if w.unitStiffness <= 0.001 {
      return;
    }
    var modelName := WallModelName(w.name, w.unitStiffness);
    var known := HasType(types, modelName);
    if !known {
      types' := types + [WallTypeFor(modelName)];
    }
    walls' := walls + [WallFrom(w)];
  }

  /** The wall loop: skip weak walls, create a type on the first use of a model name, push the wall. */
  method WallLoop(ws: seq<NiceWall>) returns (types: seq<WallChara>, walls: seq<Wall>)
    ensures types == TypesUpTo(ws, |ws|) && walls == WallsUpTo(ws, |ws|)
  {
    types := [];
    walls := [];
    for i := 0 to |ws|
      invariant types == TypesUpTo(ws, i) && walls == WallsUpTo(ws, i)
    {
      types, walls := AddWall(types, walls, ws[i]);
    }
  }

  /** A step adds at most the type created for the entry's model name. */
  lemma StepAddsOwnType(types: seq<WallChara>, w: NiceWall)
    requires forall t :: t in types ==> t == WallTypeFor(t.name)
    ensures forall t :: t in TypeStep(types, w) ==> t == WallTypeFor(t.name)
  {
    var name := WallModelName(w.name, w.unitStiffness);
    if Kept(w) && name !in CharaNames(types) {
      assert WallTypeFor(name).name == name;
      forall t | t in types + [WallTypeFor(name)] ensures t == WallTypeFor(t.name) {
        if t !in types {
          assert t == WallTypeFor(name);
        }
      }
    }
  }

  /** Each type is the one created for its name. */
  lemma {:induction false} TypesNamed(ws: seq<NiceWall>, n: nat)
    requires n <= |ws|
    ensures forall t :: t in TypesUpTo(ws, n) ==> t == WallTypeFor(t.name)
  {
    if n > 0 {
      TypesNamed(ws, n - 1);
      StepAddsOwnType(TypesUpTo(ws, n - 1), ws[n - 1]);
    }
  }

  /** A step only adds types. */
  lemma TypeStepGrows(types: seq<WallChara>, w: NiceWall)
    ensures CharaNames(types) <= CharaNames(TypeStep(types, w))
    ensures Kept(w) ==> WallModelName(w.name, w.unitStiffness) in CharaNames(TypeStep(types, w))
  {
    var types' := TypeStep(types, w);
    forall x | x in CharaNames(types) ensures x in CharaNames(types') {
      var i :| 0 <= i < |types| && types[i].name == x;
      assert types'[i] == types[i];
    }
    if Kept(w) && WallModelName(w.name, w.unitStiffness) !in CharaNames(types) {
      assert types'[|types|].name == WallModelName(w.name, w.unitStiffness);
    }
  }

  /** A step keeps the type names distinct. */
  lemma StepKeepsUnique(types: seq<WallChara>, w: NiceWall)
    requires NamesUnique(types)
    ensures NamesUnique(TypeStep(types, w))
  {
    var name := WallModelName(w.name, w.unitStiffness);
    if Kept(w) && name !in CharaNames(types) {
      var t := WallTypeFor(name);
      var types' := types + [t];
      assert t.name == name;
      forall i | 0 <= i < |types| ensures types'[i].name != name {
        assert types[i].name in CharaNames(types);
      }
    }
  }

  /** No two wall types share a name. */
  lemma {:induction false} TypeNamesUnique(ws: seq<NiceWall>, n: nat)
    requires n <= |ws|
    ensures NamesUnique(TypesUpTo(ws, n))
  {
    if n > 0 {
      TypeNamesUnique(ws, n - 1);
      StepKeepsUnique(TypesUpTo(ws, n - 1), ws[n - 1]);
    }
  }

  /** Every converted wall names one of the wall types. */
  lemma {:induction false} WallsHaveTypes(ws: seq<NiceWall>, n: nat)
    requires n <= |ws|
    ensures forall w :: w in WallsUpTo(ws, n) ==> w.name in CharaNames(TypesUpTo(ws, n))
  {
    if n > 0 {
      WallsHaveTypes(ws, n - 1);
      TypeStepGrows(TypesUpTo(ws, n - 1), ws[n - 1]);
    }
  }

  /** Every wall type is named by some converted wall. */
  lemma {:induction false} TypesHaveWalls(ws: seq<NiceWall>, n: nat)
    requires n <= |ws|
    ensures forall t :: t in TypesUpTo(ws, n) ==> exists w :: w in WallsUpTo(ws, n) && w.name == t.name
  {
    if n > 0 {
      TypesHaveWalls(ws, n - 1);
      var walls := WallsUpTo(ws, n - 1);
      var walls' := WallsUpTo(ws, n);
      forall t | t in TypesUpTo(ws, n) ensures exists w :: w in walls' && w.name == t.name {
        if t in TypesUpTo(ws, n - 1) {
          var v :| v in walls && v.name == t.name;
          assert v in walls';
        } else {
          assert WallFrom(ws[n - 1]) in walls';
        }
      }
    }
  }

  /**
   * The type a converted wall refers to carries the wall's unit stiffness
   * truncated to thousandths, no height or damping, both flags set and an
   * empty memo.
   */
  lemma TypeOfWall(ws: seq<NiceWall>, i: nat, t: WallChara)
    requires i < |ws| && Kept(ws[i])
    requires t in TypesUpTo(ws, |ws|) && t.name == WallFrom(ws[i]).name
    ensures t.k == Milli(ws[i].unitStiffness)
    ensures t.h == 0.0 && t.c == 0.0 && t.isEigenEffectK && t.isKCUnitChara && t.memo == ""
  {
    TypesNamed(ws, |ws|);
    var name := WallModelName(ws[i].name, ws[i].unitStiffness);
    assert t == WallTypeFor(name);
    WallTypeStiffness(ws[i].name, ws[i].unitStiffness);
  }

  /** The number of entries strong enough to be kept. */
  function KeptCount(ws: seq<NiceWall>, n: nat): nat
    requires n <= |ws|
  {
    if n == 0 then 0 else KeptCount(ws, n - 1) + (if Kept(ws[n - 1]) then 1 else 0)
  }

  /** One wall is written for every entry kept, in input order. */
  lemma {:induction false} WallsKept(ws: seq<NiceWall>, n: nat)
    requires n <= |ws|
    ensures |WallsUpTo(ws, n)| == KeptCount(ws, n)
    ensures forall w :: w in WallsUpTo(ws, n) ==> !w.isVisible && exists i :: 0 <= i < n && Kept(ws[i]) && w == WallFrom(ws[i])
  {
    if n > 0 {
      WallsKept(ws, n - 1);
    }
  }

  // ---- floors and columns ---------------------------------------------------------------

  function NiceFloorStory(f: NiceFloor): real { f.story }

  function NiceColumnStory(c: NiceColumn): real { c.story }

  /** A floor: its story as layer and its coordinates paired into points; an odd trailing value is ignored. */
  function FloorFrom(f: NiceFloor): Floor
  {
    Floor(f.story, PairsFrom(f.coords, 0))
  }

  /** The pairing loop inside the floor mapping. */
  method ConvertFloor(f: NiceFloor) returns (floor: Floor)
    ensures floor == FloorFrom(f)
    ensures |floor.pos| == |f.coords| / 2
  {
    var pos := PairUp(f.coords, 0);
    PairsFromShape(f.coords, 0);
    floor := Floor(f.story, pos);
  }

  function ColumnFrom(c: NiceColumn): Column
  {
    Column(c.story, c.pos, c.kx, c.ky)
  }

  /** `s.map(f)`. */
  function Map<S, T>(s: seq<S>, f: S -> T): (r: seq<T>)
    ensures |r| == |s|
    ensures forall i :: 0 <= i < |s| ==> r[i] == f(s[i])
  {
    if s == [] then [] else [f(s[0])] + Map(s[1..], f)
  }

  /** The floors, sorted by story and then converted. */
  function FloorsFrom(fs: seq<NiceFloor>): seq<Floor>
  {
    Map(SortBy(fs, NiceFloorStory), FloorFrom)
  }

  /** The columns, sorted by story and then converted. */
  function ColumnsFrom(cs: seq<NiceColumn>): seq<Column>
  {
    Map(SortBy(cs, NiceColumnStory), ColumnFrom)
  }

  /** Converting commutes with inserting when conversion keeps the key. */
  lemma {:induction false} MapInsert<S, T>(x: S, s: seq<S>, f: S -> T, ks: S -> real, kt: T -> real)
    requires forall y :: kt(f(y)) == ks(y)
    ensures Map(InsertBy(x, s, ks), f) == InsertBy(f(x), Map(s, f), kt)
  {
    if s != [] && ks(s[0]) <= ks(x) {
      MapInsert(x, s[1..], f, ks, kt);
      assert Map(s, f)[1..] == Map(s[1..], f);
      assert InsertBy(x, s, ks) == [s[0]] + InsertBy(x, s[1..], ks);
      assert Map([s[0]] + InsertBy(x, s[1..], ks), f) == [f(s[0])] + Map(InsertBy(x, s[1..], ks), f);
    }
  }

  /** Sorting and then converting is converting and then sorting, when conversion keeps the key. */
  lemma {:induction false} MapSort<S, T>(s: seq<S>, f: S -> T, ks: S -> real, kt: T -> real)
    requires forall y :: kt(f(y)) == ks(y)
    ensures Map(SortBy(s, ks), f) == SortBy(Map(s, f), kt)
  {
    if s != [] {
      var init := s[..|s| - 1];
      MapSort(init, f, ks, kt);
      MapInsert(s[|s| - 1], SortBy(init, ks), f, ks, kt);
      assert Map(s, f)[..|s| - 1] == Map(init, f);
    }
  }

  /** The converted floors are the converted input floors, stably sorted by layer. */
  lemma FloorsSorted(fs: seq<NiceFloor>)
    ensures FloorsFrom(fs) == SortBy(Map(fs, FloorFrom), FloorLayer)
    ensures SortedBy(FloorsFrom(fs), FloorLayer) && multiset(FloorsFrom(fs)) == multiset(Map(fs, FloorFrom))
  {
    MapSort(fs, FloorFrom, NiceFloorStory, FloorLayer);
    SortByIsSorted(Map(fs, FloorFrom), FloorLayer);
    SortByPermutes(Map(fs, FloorFrom), FloorLayer);
  }

  /** The converted columns are the converted input columns, stably sorted by layer. */
  lemma ColumnsSorted(cs: seq<NiceColumn>)
    ensures ColumnsFrom(cs) == SortBy(Map(cs, ColumnFrom), ColumnLayer)
    ensures SortedBy(ColumnsFrom(cs), ColumnLayer) && multiset(ColumnsFrom(cs)) == multiset(Map(cs, ColumnFrom))
  {
    MapSort(cs, ColumnFrom, NiceColumnStory, ColumnLayer);
    SortByIsSorted(Map(cs, ColumnFrom), ColumnLayer);
    SortByPermutes(Map(cs, ColumnFrom), ColumnLayer);
  }

  // ---- convertNiceJsonToBuildingModel ---------------------------------------------------

  /** The model the converter returns for a parsed record. */
  function ModelFrom(input: NiceJsonInput): BuildingModel
  {
    var story := StoryOf(input);
    BuildingModel(
      Some(StructInfoFrom(story, EigenIndex(input.eigen))),
      FloorsFrom(input.floors),
      ColumnsFrom(input.columns),
      TypesUpTo(input.walls, |input.walls|),
      WallsUpTo(input.walls, |input.walls|),
      [], [], [])
  }

  /** `convertNiceJsonToBuildingModel` over the parsed record. */
  method ConvertNiceJsonToBuildingModel(input: NiceJsonInput) returns (model: BuildingModel)
    ensures model == ModelFrom(input)
  {
    var story := StoryOf(input);
    var index := IndexEigen(input.eigen);
    var info := StoryLoop(story, index);
    var types, walls := WallLoop(input.walls);
    model := BuildingModel(Some(info), FloorsFrom(input.floors), ColumnsFrom(input.columns), types, walls, [], [], []);
  }

  /**
   * What every converted model satisfies: structure type R with massN the
   * story count (0 when absent), no dampers or panels, floors and columns in
   * layer order, and wall types that pass the wall-reference validation.
   */
  lemma ConvertedModelShape(input: NiceJsonInput)
    ensures var m := ModelFrom(input);
      && m.structInfo.Some? && m.structInfo.value.sType == R
      && m.structInfo.value.massN == (if input.storyCount.Some? then input.storyCount.value else 0.0)
      && |m.structInfo.value.zLevel| == |m.structInfo.value.weight| + 1
      && m.massDampers == [] && m.braceDampers == [] && m.dxPanels == []
      && SortedBy(m.floors, FloorLayer) && SortedBy(m.columns, ColumnLayer)
      && NamesUnique(m.wallCharaDB) && WallsResolve(m)
  {
    FloorsSorted(input.floors);
    ColumnsSorted(input.columns);
    TypeNamesUnique(input.walls, |input.walls|);
    WallsHaveTypes(input.walls, |input.walls|);
  }
}
