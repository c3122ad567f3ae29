/*
 * The legacy building-model XML format of src/io/buildingModel.ts: a flat
 * list of `<object classname="Ebi_Docs.Data.…">` elements under `<ATV>`,
 * whose fields carry Japanese element names and whose coordinates are
 * space-separated numbers. The model works on the tree the XML parser
 * produces and the tree the writer hands to the XML builder; the XML text
 * itself is produced and consumed by a library and is not modelled.
 */
module LegacyXml {
  import opened Results
  import opened Numbers
  import opened Strings
  import opened Values
  import opened Building
  import opened Sorting
  import opened Text

  // ---- class names and field names ----------------------------------------------

  const CLASSNAME_KEY := "@_classname"
  const CLASS_PREFIX := "Ebi_Docs.Data."

  /** The element kinds the reader recognises. */
  datatype ElementClass =
    | StructInfoClass
    | FloorClass
    | ColumnClass
    | WallCharaClass
    | WallClass
    | MassDamperClass
    | BraceDamperClass
    | PanelClass

  /** The part of a class name after its namespace. */
  function ShortName(k: ElementClass): string
  {
    match k
    case StructInfoClass => "StructInfo"
    case FloorClass => "Floor"
    case ColumnClass => "R_Column"
    case WallCharaClass => "WallCharaDB"
    case WallClass => "Wall"
    case MassDamperClass => "MassDamper"
    case BraceDamperClass => "BraceDamper"
    case PanelClass => "DX_Panel"
  }

  /** `XML_CLASS`: the class name the writer puts on each element. */
  function FullName(k: ElementClass): string
  {
    CLASS_PREFIX + ShortName(k)
  }

  const FLOOR_VALUE := "Floor"
  const MASS_N := "質点数"
  const S_TYPE := "躯体タイプ"
  const Z_LEVEL := "Zレベル"
  const WEIGHT := "重量"
  const W_MOMENT := "重量慣性モーメント"
  const W_CENTER := "重心"
  const LAYER := "層"
  const POS := "位置"
  const STIFFNESS := "剛性"
  const DAMPING := "減衰係数"
  const DIRECT := "方向"
  const WALL_NAME := "種類"
  const IS_VISIBLE := "描画の有無"
  const CHARA_NAME := "名称"
  const CHARA_H := "剛性比例減衰_実数"
  const CHARA_EIGEN_K := "固有値解析に剛性を考慮するか"
  const CHARA_UNIT := "剛性及び減衰係数を単位長さ値とするか"
  const CHARA_MEMO := "備考"
  const DAMPER_NAME := "タイプ"
  const DAMPER_FREQ := "振動数"
  const DAMPER_H := "減衰定数"
  const BRACE_WIDTH := "描画用幅"
  const BRACE_HEIGHT := "描画用高さ"
  const BRACE_LIGHT := "配置方向に対して右側配置か"
  const BRACE_EIGEN_K := "固有値解析に剛性を評価するか"

  // ---- isClassName ----------------------------------------------------------------

  /** The last dot-separated segment of a name. */
  function LastSegment(name: string): string
  {
    var parts := Split(name, '.');
    parts[|parts| - 1]
  }

  /** `isClassName`: an exact match, or a name ending with the expected name's last segment. */
  predicate IsClassName(className: string, expected: string)
  {
    className == expected || EndsWith(className, LastSegment(expected))
  }

  lemma ShortNameDotFree(k: ElementClass)
    ensures '.' !in ShortName(k)
  {
  }

  /** The last segment of every writer class name is its short name. */
  lemma LastSegmentOfFullName(k: ElementClass)
    ensures LastSegment(FullName(k)) == ShortName(k)
  {
    var parts := ["Ebi_Docs", "Data", ShortName(k)];
    ShortNameDotFree(k);
    assert forall j :: 0 <= j < |parts| ==> '.' !in parts[j];
    assert Join(parts, ".") == FullName(k) by {
      assert Join(parts[2..], ".") == ShortName(k);
      assert Join(parts[1..], ".") == "Data" + "." + ShortName(k);
    }
    SplitJoin(parts, '.');
  }

  /** A class name matches a writer class name exactly when it ends with that name's short name. */
  lemma IsClassNameIff(className: string, k: ElementClass)
    ensures IsClassName(className, FullName(k)) <==> EndsWith(className, ShortName(k))
  {
    LastSegmentOfFullName(k);
    if className == FullName(k) {
      assert className[|className| - |ShortName(k)|..] == ShortName(k);
    }
  }

  /** The class dispatch of `parseBuildingModelXml`: the first kind whose test the name passes, in the order buildingModel.ts writes them. */
  function ClassOf(className: string): (r: Option<ElementClass>)
  {
    if IsClassName(className, FullName(StructInfoClass)) then Some(StructInfoClass)
    else if IsClassName(className, FullName(FloorClass)) then Some(FloorClass)
    else if IsClassName(className, FullName(ColumnClass)) then Some(ColumnClass)
    else if IsClassName(className, FullName(WallCharaClass)) then Some(WallCharaClass)
    else if IsClassName(className, FullName(WallClass)) then Some(WallClass)
    else if IsClassName(className, FullName(MassDamperClass)) then Some(MassDamperClass)
    else if IsClassName(className, FullName(BraceDamperClass)) then Some(BraceDamperClass)
    else if IsClassName(className, FullName(PanelClass)) then Some(PanelClass)
    else None
  }

  /** The kinds ahead of `k` in the dispatch order. */
  function Earlier(k: ElementClass): seq<ElementClass>
  {
    match k
    case StructInfoClass => []
    case FloorClass => [StructInfoClass]
    case ColumnClass => [StructInfoClass, FloorClass]
    case WallCharaClass => [StructInfoClass, FloorClass, ColumnClass]
    case WallClass => [StructInfoClass, FloorClass, ColumnClass, WallCharaClass]
    case MassDamperClass => [StructInfoClass, FloorClass, ColumnClass, WallCharaClass, WallClass]
    case BraceDamperClass => [StructInfoClass, FloorClass, ColumnClass, WallCharaClass, WallClass, MassDamperClass]
    case PanelClass => [StructInfoClass, FloorClass, ColumnClass, WallCharaClass, WallClass, MassDamperClass, BraceDamperClass]
  }

  /** `c` ends with the short name of `k`. */
  predicate EndsWithShort(c: string, k: ElementClass)
  {
    EndsWith(c, ShortName(k))
  }

  lemma ClassTests(c: string)
    ensures IsClassName(c, FullName(StructInfoClass)) == EndsWithShort(c, StructInfoClass)
    ensures IsClassName(c, FullName(FloorClass)) == EndsWithShort(c, FloorClass)
    ensures IsClassName(c, FullName(ColumnClass)) == EndsWithShort(c, ColumnClass)
    ensures IsClassName(c, FullName(WallCharaClass)) == EndsWithShort(c, WallCharaClass)
    ensures IsClassName(c, FullName(WallClass)) == EndsWithShort(c, WallClass)
    ensures IsClassName(c, FullName(MassDamperClass)) == EndsWithShort(c, MassDamperClass)
    ensures IsClassName(c, FullName(BraceDamperClass)) == EndsWithShort(c, BraceDamperClass)
    ensures IsClassName(c, FullName(PanelClass)) == EndsWithShort(c, PanelClass)
  {
    IsClassNameIff(c, StructInfoClass);
    IsClassNameIff(c, FloorClass);
    IsClassNameIff(c, ColumnClass);
    IsClassNameIff(c, WallCharaClass);
    IsClassNameIff(c, WallClass);
    IsClassNameIff(c, MassDamperClass);
    IsClassNameIff(c, BraceDamperClass);
    IsClassNameIff(c, PanelClass);
  }

  /**
   * A name is dispatched to `k` exactly when it ends with `k`'s short name
   * and with no short name of an earlier kind.
   */
  lemma ClassOfIff(c: string, k: ElementClass)
    ensures ClassOf(c) == Some(k) <==>
      EndsWithShort(c, k) && forall e :: e in Earlier(k) ==> !EndsWithShort(c, e)
  {
    ClassOfFirst(c, k);
    NoEarlierIff(c, k);
  }

  /** No short name of a kind ahead of `k` ends `c`, written out kind by kind. */
  predicate NoEarlier(c: string, k: ElementClass)
  {
    var s, f, co, wc, w, md, bd :=
      !EndsWithShort(c, StructInfoClass), !EndsWithShort(c, FloorClass), !EndsWithShort(c, ColumnClass),
      !EndsWithShort(c, WallCharaClass), !EndsWithShort(c, WallClass), !EndsWithShort(c, MassDamperClass),
      !EndsWithShort(c, BraceDamperClass);
    match k
    case StructInfoClass => true
    case FloorClass => s
    case ColumnClass => s && f
    case WallCharaClass => s && f && co
    case WallClass => s && f && co && wc
    case MassDamperClass => s && f && co && wc && w
    case BraceDamperClass => s && f && co && wc && w && md
    case PanelClass => s && f && co && wc && w && md && bd
  }

  /** The written-out test is the test over `Earlier(k)`. */
  lemma NoEarlierIff(c: string, k: ElementClass)
    ensures NoEarlier(c, k) <==> forall e :: e in Earlier(k) ==> !EndsWithShort(c, e)
  {
    match k
    case StructInfoClass =>
    case FloorClass =>
    case ColumnClass =>
    case WallCharaClass =>
    case WallClass =>
    case MassDamperClass =>
    case BraceDamperClass =>
    case PanelClass =>
  }

  /** The dispatch picks `k` exactly when `c` ends with `k`'s short name and with no earlier one. */
  lemma ClassOfFirst(c: string, k: ElementClass)
    ensures ClassOf(c) == Some(k) <==> EndsWithShort(c, k) && NoEarlier(c, k)
  {
    ClassOfShort(c);
    match k
    case StructInfoClass =>
    case FloorClass =>
    case ColumnClass =>
    case WallCharaClass =>
    case WallClass =>
    case MassDamperClass =>
    case BraceDamperClass =>
    case PanelClass =>
  }

  /** The dispatch, with each class test read as a short-name test. */
  lemma ClassOfShort(c: string)
    ensures ClassOf(c) ==
      if EndsWithShort(c, StructInfoClass) then Some(StructInfoClass)
      else if EndsWithShort(c, FloorClass) then Some(FloorClass)
      else if EndsWithShort(c, ColumnClass) then Some(ColumnClass)
      else if EndsWithShort(c, WallCharaClass) then Some(WallCharaClass)
      else if EndsWithShort(c, WallClass) then Some(WallClass)
      else if EndsWithShort(c, MassDamperClass) then Some(MassDamperClass)
      else if EndsWithShort(c, BraceDamperClass) then Some(BraceDamperClass)
      else if EndsWithShort(c, PanelClass) then Some(PanelClass)
      else None
  {
    ClassTests(c);
  }

  /** A name is ignored exactly when it ends with no short name at all. */
  lemma ClassOfNone(c: string)
    ensures ClassOf(c) == None <==> forall e: ElementClass :: !EndsWithShort(c, e)
  {
    ClassTests(c);
    if ClassOf(c) == None {
      forall e: ElementClass ensures !EndsWithShort(c, e) {
        match e
        case StructInfoClass =>
        case FloorClass =>
        case ColumnClass =>
        case WallCharaClass =>
        case WallClass =>
        case MassDamperClass =>
        case BraceDamperClass =>
        case PanelClass =>
      }
    }
  }

  /** A text ending with `b` does not end with `a` when the two differ `j` characters from the end. */
  lemma EndsWithClash(s: string, a: string, b: string, j: nat)
    requires EndsWith(s, b) && 1 <= j <= |a| && j <= |b| && a[|a| - j] != b[|b| - j]
    ensures !EndsWith(s, a)
  {
    assert s[|s| - |b|..][|b| - j] == s[|s| - j];
    if |a| <= |s| {
      assert s[|s| - |a|..][|a| - j] == s[|s| - j];
    }
  }

  /** Every writer class name is dispatched to its own kind. */
  lemma ClassOfFullName(k: ElementClass)
    ensures ClassOf(FullName(k)) == Some(k)
  {
    var name := FullName(k);
    assert EndsWithShort(name, k) by {
      assert name[|name| - |ShortName(k)|..] == ShortName(k);
    }
    EarlierDoNotMatch(name, k);
    ClassOfIff(name, k);
  }

  /** A name ending in `k`'s short name ends in no short name of an earlier kind. */
  lemma EarlierDoNotMatch(name: string, k: ElementClass)
    requires EndsWithShort(name, k)
    ensures forall e :: e in Earlier(k) ==> !EndsWithShort(name, e)
  {
    match k {
    case StructInfoClass =>
    case FloorClass => NotEarlierFloor(name);
    case ColumnClass => NotEarlierColumn(name);
    case WallCharaClass => NotEarlierWallChara(name);
    case WallClass => NotEarlierWall(name);
    case MassDamperClass => NotEarlierMassDamper(name);
    case BraceDamperClass => NotEarlierBraceDamper(name);
    case PanelClass => NotEarlierPanel(name);
    }
    NoEarlierIff(name, k);
  }

  // Each call below names the position, counted from the end, where two short names differ.

  lemma NotEarlierFloor(name: string)
    requires EndsWithShort(name, FloorClass)
    ensures !EndsWithShort(name, StructInfoClass)
  {
    EndsWithClash(name, ShortName(StructInfoClass), ShortName(FloorClass), 1);
  }

  lemma NotEarlierColumn(name: string)
    requires EndsWithShort(name, ColumnClass)
    ensures !EndsWithShort(name, StructInfoClass)
    ensures !EndsWithShort(name, FloorClass)
  {
    EndsWithClash(name, ShortName(StructInfoClass), ShortName(ColumnClass), 1);
    EndsWithClash(name, ShortName(FloorClass), ShortName(ColumnClass), 1);
  }

  lemma NotEarlierWallChara(name: string)
    requires EndsWithShort(name, WallCharaClass)
    ensures !EndsWithShort(name, StructInfoClass)
    ensures !EndsWithShort(name, FloorClass)
    ensures !EndsWithShort(name, ColumnClass)
  {
    EndsWithClash(name, ShortName(StructInfoClass), ShortName(WallCharaClass), 1);
    EndsWithClash(name, ShortName(FloorClass), ShortName(WallCharaClass), 1);
    EndsWithClash(name, ShortName(ColumnClass), ShortName(WallCharaClass), 1);
  }

  lemma NotEarlierWall(name: string)
    requires EndsWithShort(name, WallClass)
    ensures !EndsWithShort(name, StructInfoClass)
    ensures !EndsWithShort(name, FloorClass)
    ensures !EndsWithShort(name, ColumnClass)
    ensures !EndsWithShort(name, WallCharaClass)
  {
    EndsWithClash(name, ShortName(StructInfoClass), ShortName(WallClass), 1);
    EndsWithClash(name, ShortName(FloorClass), ShortName(WallClass), 1);
    EndsWithClash(name, ShortName(ColumnClass), ShortName(WallClass), 1);
    EndsWithClash(name, ShortName(WallCharaClass), ShortName(WallClass), 1);
  }

  lemma NotEarlierMassDamper(name: string)
    requires EndsWithShort(name, MassDamperClass)
    ensures !EndsWithShort(name, StructInfoClass)
    ensures !EndsWithShort(name, FloorClass)
    ensures !EndsWithShort(name, ColumnClass)
    ensures !EndsWithShort(name, WallCharaClass)
    ensures !EndsWithShort(name, WallClass)
  {
    EndsWithClash(name, ShortName(StructInfoClass), ShortName(MassDamperClass), 1);
    EndsWithClash(name, ShortName(FloorClass), ShortName(MassDamperClass), 2);
    EndsWithClash(name, ShortName(ColumnClass), ShortName(MassDamperClass), 1);
    EndsWithClash(name, ShortName(WallCharaClass), ShortName(MassDamperClass), 1);
    EndsWithClash(name, ShortName(WallClass), ShortName(MassDamperClass), 1);
  }

  lemma NotEarlierBraceDamper(name: string)
    requires EndsWithShort(name, BraceDamperClass)
    ensures !EndsWithShort(name, StructInfoClass)
    ensures !EndsWithShort(name, FloorClass)
    ensures !EndsWithShort(name, ColumnClass)
    ensures !EndsWithShort(name, WallCharaClass)
    ensures !EndsWithShort(name, WallClass)
    ensures !EndsWithShort(name, MassDamperClass)
  {
    EndsWithClash(name, ShortName(StructInfoClass), ShortName(BraceDamperClass), 1);
    EndsWithClash(name, ShortName(FloorClass), ShortName(BraceDamperClass), 2);
    EndsWithClash(name, ShortName(ColumnClass), ShortName(BraceDamperClass), 1);
    EndsWithClash(name, ShortName(WallCharaClass), ShortName(BraceDamperClass), 1);
    EndsWithClash(name, ShortName(WallClass), ShortName(BraceDamperClass), 1);
    EndsWithClash(name, ShortName(MassDamperClass), ShortName(BraceDamperClass), 10);
  }

  lemma NotEarlierPanel(name: string)
    requires EndsWithShort(name, PanelClass)
    ensures !EndsWithShort(name, StructInfoClass)
    ensures !EndsWithShort(name, FloorClass)
    ensures !EndsWithShort(name, ColumnClass)
    ensures !EndsWithShort(name, WallCharaClass)
    ensures !EndsWithShort(name, WallClass)
    ensures !EndsWithShort(name, MassDamperClass)
    ensures !EndsWithShort(name, BraceDamperClass)
  {
    EndsWithClash(name, ShortName(StructInfoClass), ShortName(PanelClass), 1);
    EndsWithClash(name, ShortName(FloorClass), ShortName(PanelClass), 1);
    EndsWithClash(name, ShortName(ColumnClass), ShortName(PanelClass), 1);
    EndsWithClash(name, ShortName(WallCharaClass), ShortName(PanelClass), 1);
    EndsWithClash(name, ShortName(WallClass), ShortName(PanelClass), 2);
    EndsWithClash(name, ShortName(MassDamperClass), ShortName(PanelClass), 1);
    EndsWithClash(name, ShortName(BraceDamperClass), ShortName(PanelClass), 1);
  }

  // ---- coercions ------------------------------------------------------------------

  /** `String(v)` for a value of the tree; `show` writes numbers. */
  function ValueText(v: Value, show: NumberFormatter): string
  {
    match v
    case JNull => "null"
    case JBool(b) => if b then "true" else "false"
    case JNum(n) => show(n)
    case JStr(s) => s
    case JArr(items) =>
      // `Array.prototype.join` writes null entries as empty text
      Join(seq(|items|, i requires 0 <= i < |items| => if items[i] == JNull then "" else ValueText(items[i], show)), ",")
    case JObj(_) => "[object Object]"
  }

  /** `String(v ?? fallback)`. */
  function StringOr(v: Option<Value>, fallback: string, show: NumberFormatter): string
  {
    if v.None? || v.value == JNull then fallback else ValueText(v.value, show)
  }

  /** `parseBool`: booleans pass through, "true"/"false" are read after trimming and lower-casing, anything else is the fallback. */
  function ParseBool(v: Option<Value>, fallback: bool): bool
  {
    match v
    case Some(JBool(b)) => b
    case Some(JStr(s)) =>
      var t := ToLower(Trim(s));
      if t == "true" then true else if t == "false" then false else fallback
    case _ => fallback
  }

  /** `parseNumber`: `Number(v)` when it is finite, otherwise the fallback. */
  function ParseNumber(v: Option<Value>, fallback: real, parse: NumberParser): real
  {
    if NumberOf(v, parse).Some? then NumberOf(v, parse).value else fallback
  }

  /** `parseSpaceNumbers`: the finite conversions of the space-separated tokens of a text; nothing for a non-text. */
  function SpaceNumbers(v: Option<Value>, parse: NumberParser): seq<real>
  {
    if v.Some? && v.value.JStr? then ToNumberList(Split(v.value.s, ' '), parse) else []
  }

  /** The points formed by consecutive numbers from position `i` on; a trailing odd number forms none. */
  function PairsFrom(ns: seq<real>, i: nat): seq<Point>
    decreases |ns| - i
  {
    if i + 1 < |ns| then [Point(ns[i], ns[i + 1])] + PairsFrom(ns, i + 2) else []
  }

  /** Pairing from `i` gives ⌊(|ns| − i)/2⌋ points, the k-th made of the numbers at i + 2k and i + 2k + 1. */
  lemma {:induction false} PairsFromShape(ns: seq<real>, i: nat)
    requires i <= |ns|
    ensures |PairsFrom(ns, i)| == (|ns| - i) / 2
    ensures forall k :: 0 <= k < |PairsFrom(ns, i)| ==> PairsFrom(ns, i)[k] == Point(ns[i + 2 * k], ns[i + 2 * k + 1])
    decreases |ns| - i
  {
    if i + 1 < |ns| {
      PairsFromShape(ns, i + 2);
      var r := PairsFrom(ns, i);
      forall k | 0 <= k < |r| ensures r[k] == Point(ns[i + 2 * k], ns[i + 2 * k + 1]) {
        if k > 0 {
          assert r[k] == PairsFrom(ns, i + 2)[k - 1];
        }
      }
    }
  }

  /** Pairing the numbers `xs` written point after point gives the points back. */
  lemma {:induction false} PairsOfCoordinates(ps: seq<Point>, prefix: seq<real>)
    ensures PairsFrom(prefix + Coordinates(ps), |prefix|) == ps
    decreases |ps|
  {
    if ps != [] {
      var longer := prefix + [ps[0].x, ps[0].y];
      CoordinatesAfter(ps, prefix, longer);
      PairsOfCoordinates(ps[1..], longer);
      FirstPair(prefix + Coordinates(ps), |prefix|, ps[0]);
      assert ps == [ps[0]] + ps[1..];
    } else {
      assert |prefix + Coordinates(ps)| == |prefix|;
    }
  }

  /** The coordinates after a prefix: the first point's two numbers extend the prefix. */
  lemma CoordinatesAfter(ps: seq<Point>, prefix: seq<real>, longer: seq<real>)
    requires ps != [] && longer == prefix + [ps[0].x, ps[0].y]
    ensures prefix + Coordinates(ps) == longer + Coordinates(ps[1..])
    ensures (prefix + Coordinates(ps))[|prefix|] == ps[0].x && (prefix + Coordinates(ps))[|prefix| + 1] == ps[0].y
  {
    PairAfter(prefix, ps[0].x, ps[0].y, Coordinates(ps[1..]), longer);
  }

  lemma PairAfter<T>(prefix: seq<T>, a: T, b: T, rest: seq<T>, longer: seq<T>)
    requires longer == prefix + [a, b]
    ensures prefix + ([a, b] + rest) == longer + rest
    ensures (prefix + ([a, b] + rest))[|prefix|] == a && (prefix + ([a, b] + rest))[|prefix| + 1] == b
  {
  }

  /** Pairing at `n` where the numbers of `p` stand takes `p` first. */
  lemma FirstPair(ns: seq<real>, n: nat, p: Point)
    requires n + 1 < |ns| && ns[n] == p.x && ns[n + 1] == p.y
    ensures PairsFrom(ns, n) == [p] + PairsFrom(ns, n + 2)
  {
  }

  /** The coordinates of a point list, x then y for each point. */
  function Coordinates(ps: seq<Point>): (r: seq<real>)
    ensures |r| == 2 * |ps|
  {
    if ps == [] then [] else [ps[0].x, ps[0].y] + Coordinates(ps[1..])
  }

  /** The pairing loop of `parsePointArray` and `parseFloorValue`, from position `start`. */
  method PairUp(numbers: seq<real>, start: nat) returns (points: seq<Point>)
    requires start <= |numbers|
    ensures points == PairsFrom(numbers, start)
  {
    points := [];
    var i := start;
    while i + 1 < |numbers|
      invariant start <= i <= |numbers|
      invariant points + PairsFrom(numbers, i) == PairsFrom(numbers, start)
      decreases |numbers| - i
    {
      assert PairsFrom(numbers, i) == [Point(numbers[i], numbers[i + 1])] + PairsFrom(numbers, i + 2);
      points := points + [Point(numbers[i], numbers[i + 1])];
      i := i + 2;
    }
  }

  /** The points `parsePointArray` reads from a value. */
  function PointsOf(v: Option<Value>, parse: NumberParser): seq<Point>
  {
    PairsFrom(SpaceNumbers(v, parse), 0)
  }

  /** `parsePointArray`: consecutive numbers paired into points. */
  method ParsePointArray(v: Option<Value>, parse: NumberParser) returns (points: seq<Point>)
    ensures points == PointsOf(v, parse)
    ensures |points| == |SpaceNumbers(v, parse)| / 2
  {
    var numbers := SpaceNumbers(v, parse);
    points := PairUp(numbers, 0);
    PairsFromShape(numbers, 0);
  }

  /** The floor `parseFloorValue` reads: too few numbers give layer 1 and no points, otherwise the layer and then the points. */
  function FloorValueOf(v: Option<Value>, parse: NumberParser): Floor
  {
    var ns := SpaceNumbers(v, parse);
    if |ns| < 3 then Floor(1.0, []) else Floor(ns[0], PairsFrom(ns, 1))
  }

  /** `parseFloorValue`. */
  method ParseFloorValue(v: Option<Value>, parse: NumberParser) returns (floor: Floor)
    ensures floor == FloorValueOf(v, parse)
  {
    var numbers := SpaceNumbers(v, parse);
    if |numbers| < 3 {
      return Floor(1.0, []);
    }
    var layer := numbers[0];
    var pos := PairUp(numbers, 1);
    floor := Floor(layer, pos);
  }

  /** A floor value with at least three numbers has the first as its layer and ⌊(k − 1)/2⌋ points. */
  lemma FloorValueShape(v: Option<Value>, parse: NumberParser)
    ensures |SpaceNumbers(v, parse)| < 3 ==> FloorValueOf(v, parse) == Floor(1.0, [])
    ensures |SpaceNumbers(v, parse)| >= 3 ==>
      FloorValueOf(v, parse).layer == SpaceNumbers(v, parse)[0]
      && |FloorValueOf(v, parse).pos| == (|SpaceNumbers(v, parse)| - 1) / 2
  {
    var ns := SpaceNumbers(v, parse);
    if |ns| >= 3 {
      PairsFromShape(ns, 1);
    }
  }

  /** `points[0] ?? {x: 0, y: 0}`. */
  function FirstOr(points: seq<Point>): Point
  {
    if points == [] then Point(0.0, 0.0) else points[0]
  }

  /** `points[1] ?? {x: 0, y: 0}`. */
  function SecondOr(points: seq<Point>): Point
  {
    if |points| < 2 then Point(0.0, 0.0) else points[1]
  }

  /** `String(v ?? d) === "Y" ? "Y" : "X"` for a direction field. */
  function DirectionOf(v: Option<Value>, show: NumberFormatter): Direction
  {
    if StringOr(v, "X", show) == "Y" then Y else X
  }

  // ---- element readers ------------------------------------------------------------

  /** `parseStructInfo`. */
  function StructInfoOf(node: Value, show: NumberFormatter, parse: NumberParser): StructInfo
  {
    StructInfo(
      ParseNumber(Get(node, MASS_N), 1.0, parse),
      if StringOr(Get(node, S_TYPE), "R", show) == "DX" then DX else R,
      SpaceNumbers(Get(node, Z_LEVEL), parse),
      SpaceNumbers(Get(node, WEIGHT), parse),
      SpaceNumbers(Get(node, W_MOMENT), parse),
      PointsOf(Get(node, W_CENTER), parse))
  }

  /** The floor read from a floor element's value. */
  function FloorOf(node: Value, parse: NumberParser): Floor
  {
    FloorValueOf(Get(node, FLOOR_VALUE), parse)
  }

  /** The column branch of `parseBuildingModelXml`: the first point of the position and of the stiffness pair. */
  function ColumnOf(node: Value, parse: NumberParser): Column
  {
    var stiff := FirstOr(PointsOf(Get(node, STIFFNESS), parse));
    Column(ParseNumber(Get(node, LAYER), 1.0, parse), FirstOr(PointsOf(Get(node, POS), parse)), stiff.x, stiff.y)
  }

  /** `parseWallCharaDB`. */
  function WallCharaOf(node: Value, show: NumberFormatter, parse: NumberParser): WallChara
  {
    WallChara(
      StringOr(Get(node, CHARA_NAME), "", show),
      ParseNumber(Get(node, STIFFNESS), 0.0, parse),
      ParseNumber(Get(node, CHARA_H), 0.0, parse),
      ParseNumber(Get(node, DAMPING), 0.0, parse),
      ParseBool(Get(node, CHARA_EIGEN_K), true),
      ParseBool(Get(node, CHARA_UNIT), true),
      StringOr(Get(node, CHARA_MEMO), "", show))
  }

  /** `parseWall`: the first two points of the position, each defaulting to the origin. */
  function WallOf(node: Value, show: NumberFormatter, parse: NumberParser): Wall
  {
    var points := PointsOf(Get(node, POS), parse);
    Wall(
      StringOr(Get(node, WALL_NAME), "", show),
      ParseNumber(Get(node, LAYER), 1.0, parse),
      FirstOr(points),
      SecondOr(points),
      ParseBool(Get(node, IS_VISIBLE), true))
  }

  /** `parseMassDamper`. */
  function MassDamperOf(node: Value, show: NumberFormatter, parse: NumberParser): MassDamper
  {
    MassDamper(
      StringOr(Get(node, DAMPER_NAME), "マスダンパー", show),
      ParseNumber(Get(node, LAYER), 1.0, parse),
      FirstOr(PointsOf(Get(node, POS), parse)),
      ParseNumber(Get(node, WEIGHT), 0.0, parse),
      FirstOr(PointsOf(Get(node, DAMPER_FREQ), parse)),
      FirstOr(PointsOf(Get(node, DAMPER_H), parse)))
  }

  /** `parseBraceDamper`. */
  function BraceDamperOf(node: Value, show: NumberFormatter, parse: NumberParser): BraceDamper
  {
    BraceDamper(
      ParseNumber(Get(node, LAYER), 1.0, parse),
      FirstOr(PointsOf(Get(node, POS), parse)),
      DirectionOf(Get(node, DIRECT), show),
      ParseNumber(Get(node, STIFFNESS), 0.0, parse),
      ParseNumber(Get(node, DAMPING), 0.0, parse),
      ParseNumber(Get(node, BRACE_WIDTH), 0.0, parse),
      ParseNumber(Get(node, BRACE_HEIGHT), 0.0, parse),
      ParseBool(Get(node, BRACE_LIGHT), true),
      ParseBool(Get(node, BRACE_EIGEN_K), false))
  }

  /** `parseDXPanel`. */
  function PanelOf(node: Value, show: NumberFormatter, parse: NumberParser): DXPanel
  {
    DXPanel(
      ParseNumber(Get(node, LAYER), 1.0, parse),
      DirectionOf(Get(node, DIRECT), show),
      PointsOf(Get(node, POS), parse),
      ParseNumber(Get(node, STIFFNESS), 0.0, parse))
  }
  // ---- parseBuildingModelXml ------------------------------------------------------

  /** `String(node["@_classname"] ?? "")`. */
  function ClassNameOf(node: Value, show: NumberFormatter): string
  {
    StringOr(Get(node, CLASSNAME_KEY), "", show)
  }

  /** What one element of the document contributes to the model. */
  datatype Element =
    | Ignored
    | StructInfoElement(info: StructInfo)
    | FloorElement(floor: Floor)
    | ColumnElement(column: Column)
    | WallCharaElement(chara: WallChara)
    | WallElement(wall: Wall)
    | MassDamperElement(massDamper: MassDamper)
    | BraceDamperElement(braceDamper: BraceDamper)
    | PanelElement(panel: DXPanel)

  /** The element a node is read as: the reader of its class, or nothing for an unknown class. */
  function ElementOf(node: Value, show: NumberFormatter, parse: NumberParser): Element
  {
    ElementOfKind(node, ClassOf(ClassNameOf(node, show)), show, parse)
  }

  /** The element the reader of `kind` makes of a node. */
  function ElementOfKind(node: Value, kind: Option<ElementClass>, show: NumberFormatter, parse: NumberParser): Element
  {
    match kind
    case None => Ignored
    case Some(StructInfoClass) => StructInfoElement(StructInfoOf(node, show, parse))
    case Some(FloorClass) => FloorElement(FloorOf(node, parse))
    case Some(ColumnClass) => ColumnElement(ColumnOf(node, parse))
    case Some(WallCharaClass) => WallCharaElement(WallCharaOf(node, show, parse))
    case Some(WallClass) => WallElement(WallOf(node, show, parse))
    case Some(MassDamperClass) => MassDamperElement(MassDamperOf(node, show, parse))
    case Some(BraceDamperClass) => BraceDamperElement(BraceDamperOf(node, show, parse))
    case Some(PanelClass) => PanelElement(PanelOf(node, show, parse))
  }

  /** One pass of the dispatch loop: the element read is appended to its list; the last structure element wins. */
  function Absorb(m: BuildingModel, el: Element): BuildingModel
  {
    match el
    case Ignored => m
    case StructInfoElement(info) => m.(structInfo := Some(info))
    case FloorElement(item) => m.(floors := m.floors + [item])
    case ColumnElement(item) => m.(columns := m.columns + [item])
    case WallCharaElement(item) => m.(wallCharaDB := m.wallCharaDB + [item])
    case WallElement(item) => m.(walls := m.walls + [item])
    case MassDamperElement(item) => m.(massDampers := m.massDampers + [item])
    case BraceDamperElement(item) => m.(braceDampers := m.braceDampers + [item])
    case PanelElement(item) => m.(dxPanels := m.dxPanels + [item])
  }

  /** `ElementOf` as a value, the reader the dispatch loop applies to each node. */
  function Reader(show: NumberFormatter, parse: NumberParser): Value -> Element
  {
    node => ElementOf(node, show, parse)
  }

  /** The model after the dispatch loop has absorbed the first `n` nodes, each read by `read`. */
  function CollectNodes(nodes: seq<Value>, n: nat, read: Value -> Element): BuildingModel
    requires n <= |nodes|
  {
    if n == 0 then EmptyModel else Absorb(CollectNodes(nodes, n - 1, read), read(nodes[n - 1]))
  }

  /** Every element list is stably sorted by layer; the wall characteristics keep document order. */
  function SortLists(m: BuildingModel): BuildingModel
  {
    m.(floors := SortBy(m.floors, FloorLayer),
       columns := SortBy(m.columns, ColumnLayer),
       walls := SortBy(m.walls, WallLayer),
       massDampers := SortBy(m.massDampers, MassDamperLayer),
       braceDampers := SortBy(m.braceDampers, BraceDamperLayer),
       dxPanels := SortBy(m.dxPanels, PanelLayer))
  }

  /** `asArray(parsed?.ATV?.object)`: the element list of the document tree. */
  function NodesOf(root: Value): seq<Value>
  {
    var atv := Get(root, "ATV");
    var objects := if atv.Some? then Get(atv.value, "object") else None;
    match objects
    case None => []
    case Some(JArr(items)) => items
    case Some(v) => [v]
  }

  /** The model `parseBuildingModelXml` returns for a document tree. */
  function BuildingModelOf(root: Value, show: NumberFormatter, parse: NumberParser): BuildingModel
  {
    var nodes := NodesOf(root);
    SortLists(CollectNodes(nodes, |nodes|, Reader(show, parse)))
  }

  /** `parseBuildingModelXml` over the parsed document tree: the dispatch loop, then the sorts. */
  method ParseBuildingModelXml(root: Value, show: NumberFormatter, parse: NumberParser) returns (model: BuildingModel)
    ensures model == BuildingModelOf(root, show, parse)
  {
    var nodes := NodesOf(root);
    model := ReadNodes(nodes, show, parse);
    model := model.(floors := SortBy(model.floors, FloorLayer));
    model := model.(columns := SortBy(model.columns, ColumnLayer));
    model := model.(walls := SortBy(model.walls, WallLayer));
    model := model.(massDampers := SortBy(model.massDampers, MassDamperLayer));
    model := model.(braceDampers := SortBy(model.braceDampers, BraceDamperLayer));
    model := model.(dxPanels := SortBy(model.dxPanels, PanelLayer));
  }

  /** The dispatch loop of `parseBuildingModelXml`. */
  method ReadNodes(nodes: seq<Value>, show: NumberFormatter, parse: NumberParser) returns (model: BuildingModel)
    ensures model == CollectNodes(nodes, |nodes|, Reader(show, parse))
  {
    model := EmptyModel;
    for i := 0 to |nodes|
      invariant model == CollectNodes(nodes, i, Reader(show, parse))
    {
      var el := ReadElement(nodes[i], show, parse);
      model := AddElement(model, el);
    }
  }

  /** The class tests of one pass of the dispatch loop, in the order buildingModel.ts writes them. */
  method Classify(className: string) returns (kind: Option<ElementClass>)
    ensures kind == ClassOf(className)
  {
    if IsClassName(className, FullName(StructInfoClass)) {
      kind := Some(StructInfoClass);
    } else if IsClassName(className, FullName(FloorClass)) {
      kind := Some(FloorClass);
    } else if IsClassName(className, FullName(ColumnClass)) {
      kind := Some(ColumnClass);
    } else if IsClassName(className, FullName(WallCharaClass)) {
      kind := Some(WallCharaClass);
    } else if IsClassName(className, FullName(WallClass)) {
      kind := Some(WallClass);
    } else if IsClassName(className, FullName(MassDamperClass)) {
      kind := Some(MassDamperClass);
    } else if IsClassName(className, FullName(BraceDamperClass)) {
      kind := Some(BraceDamperClass);
    } else if IsClassName(className, FullName(PanelClass)) {
      kind := Some(PanelClass);
    } else {
      kind := None;
    }
  }

  /** The class test and the reader of one pass of the dispatch loop. */
  method ReadElement(node: Value, show: NumberFormatter, parse: NumberParser) returns (el: Element)
    ensures el == ElementOf(node, show, parse)
  {
    var kind := Classify(ClassNameOf(node, show));
    el := ReadKind(node, kind, show, parse);
  }

  /** The reader of the kind found. */
  method ReadKind(node: Value, kind: Option<ElementClass>, show: NumberFormatter, parse: NumberParser) returns (el: Element)
    ensures el == ElementOfKind(node, kind, show, parse)
  {
    match kind {
      case None =>
        el := Ignored;
      case Some(StructInfoClass) =>
        el := StructInfoElement(StructInfoOf(node, show, parse));
      case Some(FloorClass) =>
        var floor := ParseFloorValue(Get(node, FLOOR_VALUE), parse);
        el := FloorElement(floor);
      case Some(ColumnClass) =>
        var pos := ParsePointArray(Get(node, POS), parse);
        var stiff := ParsePointArray(Get(node, STIFFNESS), parse);
        el := ColumnElement(Column(ParseNumber(Get(node, LAYER), 1.0, parse), FirstOr(pos), FirstOr(stiff).x, FirstOr(stiff).y));
      case Some(WallCharaClass) =>
        el := WallCharaElement(WallCharaOf(node, show, parse));
      case Some(WallClass) =>
        el := WallElement(WallOf(node, show, parse));
      case Some(MassDamperClass) =>
        el := MassDamperElement(MassDamperOf(node, show, parse));
      case Some(BraceDamperClass) =>
        el := BraceDamperElement(BraceDamperOf(node, show, parse));
      case Some(PanelClass) =>
        el := PanelElement(PanelOf(node, show, parse));
    }
  }

  /** One pass's update of the model. */
  method AddElement(model: BuildingModel, el: Element) returns (r: BuildingModel)
    ensures r == Absorb(model, el)
  {
    r := model;
    match el {
      case Ignored =>
      case StructInfoElement(info) =>
        r := r.(structInfo := Some(info));
      case FloorElement(item) =>
        r := r.(floors := r.floors + [item]);
      case ColumnElement(item) =>
        r := r.(columns := r.columns + [item]);
      case WallCharaElement(item) =>
        r := r.(wallCharaDB := r.wallCharaDB + [item]);
      case WallElement(item) =>
        r := r.(walls := r.walls + [item]);
      case MassDamperElement(item) =>
        r := r.(massDampers := r.massDampers + [item]);
      case BraceDamperElement(item) =>
        r := r.(braceDampers := r.braceDampers + [item]);
      case PanelElement(item) =>
        r := r.(dxPanels := r.dxPanels + [item]);
    }
  }

  /** An element of no known class is ignored. */
  lemma UnknownClassIgnored(node: Value, show: NumberFormatter, parse: NumberParser)
    requires forall e: ElementClass :: !EndsWithShort(ClassNameOf(node, show), e)
    ensures ElementOf(node, show, parse) == Ignored
  {
    ClassOfNone(ClassNameOf(node, show));
  }

  /** The structure elements among the first `n`. */
  function InfosUpTo(nodes: seq<Value>, n: nat, read: Value -> Element): seq<StructInfo>
    requires n <= |nodes|
  {
    if n == 0 then []
    else
      var e := read(nodes[n - 1]);
      InfosUpTo(nodes, n - 1, read) + (if e.StructInfoElement? then [e.info] else [])
  }

  /** The structure information is that of the last structure element, and absent when there is none. */
  lemma {:induction false} LastStructInfoWins(nodes: seq<Value>, n: nat, read: Value -> Element)
    requires n <= |nodes|
    ensures var p := InfosUpTo(nodes, n, read);
      CollectNodes(nodes, n, read).structInfo == if p == [] then None else Some(p[|p| - 1])
  {
    if n > 0 {
      LastStructInfoWins(nodes, n - 1, read);
    }
  }

  /** The floors among the first `n` elements, in document order. */
  function FloorsUpTo(nodes: seq<Value>, n: nat, read: Value -> Element): seq<Floor>
    requires n <= |nodes|
  {
    if n == 0 then []
    else
      var e := read(nodes[n - 1]);
      FloorsUpTo(nodes, n - 1, read) + (if e.FloorElement? then [e.floor] else [])
  }

  /** The floors collected are exactly the floor elements, in document order. */
  lemma {:induction false} CollectsFloors(nodes: seq<Value>, n: nat, read: Value -> Element)
    requires n <= |nodes|
    ensures CollectNodes(nodes, n, read).floors == FloorsUpTo(nodes, n, read)
  {
    if n > 0 {
      CollectsFloors(nodes, n - 1, read);
    }
  }

  /** The columns among the first `n` elements, in document order. */
  function ColumnsUpTo(nodes: seq<Value>, n: nat, read: Value -> Element): seq<Column>
    requires n <= |nodes|
  {
    if n == 0 then []
    else
      var e := read(nodes[n - 1]);
      ColumnsUpTo(nodes, n - 1, read) + (if e.ColumnElement? then [e.column] else [])
  }

  /** The columns collected are exactly the column elements, in document order. */
  lemma {:induction false} CollectsColumns(nodes: seq<Value>, n: nat, read: Value -> Element)
    requires n <= |nodes|
    ensures CollectNodes(nodes, n, read).columns == ColumnsUpTo(nodes, n, read)
  {
    if n > 0 {
      CollectsColumns(nodes, n - 1, read);
    }
  }

  /** The wallCharaDB among the first `n` elements, in document order. */
  function WallCharasUpTo(nodes: seq<Value>, n: nat, read: Value -> Element): seq<WallChara>
    requires n <= |nodes|
  {
    if n == 0 then []
    else
      var e := read(nodes[n - 1]);
      WallCharasUpTo(nodes, n - 1, read) + (if e.WallCharaElement? then [e.chara] else [])
  }

  /** The wallCharaDB collected are exactly the wallchara elements, in document order. */
  lemma {:induction false} CollectsWallCharas(nodes: seq<Value>, n: nat, read: Value -> Element)
    requires n <= |nodes|
    ensures CollectNodes(nodes, n, read).wallCharaDB == WallCharasUpTo(nodes, n, read)
  {
    if n > 0 {
      CollectsWallCharas(nodes, n - 1, read);
    }
  }

  /** The walls among the first `n` elements, in document order. */
  function WallsUpTo(nodes: seq<Value>, n: nat, read: Value -> Element): seq<Wall>
    requires n <= |nodes|
  {
    if n == 0 then []
    else
      var e := read(nodes[n - 1]);
      WallsUpTo(nodes, n - 1, read) + (if e.WallElement? then [e.wall] else [])
  }

  /** The walls collected are exactly the wall elements, in document order. */
  lemma {:induction false} CollectsWalls(nodes: seq<Value>, n: nat, read: Value -> Element)
    requires n <= |nodes|
    ensures CollectNodes(nodes, n, read).walls == WallsUpTo(nodes, n, read)
  {
    if n > 0 {
      CollectsWalls(nodes, n - 1, read);
    }
  }

  /** The massDampers among the first `n` elements, in document order. */
  function MassDampersUpTo(nodes: seq<Value>, n: nat, read: Value -> Element): seq<MassDamper>
    requires n <= |nodes|
  {
    if n == 0 then []
    else
      var e := read(nodes[n - 1]);
      MassDampersUpTo(nodes, n - 1, read) + (if e.MassDamperElement? then [e.massDamper] else [])
  }

  /** The massDampers collected are exactly the massdamper elements, in document order. */
  lemma {:induction false} CollectsMassDampers(nodes: seq<Value>, n: nat, read: Value -> Element)
    requires n <= |nodes|
    ensures CollectNodes(nodes, n, read).massDampers == MassDampersUpTo(nodes, n, read)
  {
    if n > 0 {
      CollectsMassDampers(nodes, n - 1, read);
    }
  }

  /** The braceDampers among the first `n` elements, in document order. */
  function BraceDampersUpTo(nodes: seq<Value>, n: nat, read: Value -> Element): seq<BraceDamper>
    requires n <= |nodes|
  {
    if n == 0 then []
    else
      var e := read(nodes[n - 1]);
      BraceDampersUpTo(nodes, n - 1, read) + (if e.BraceDamperElement? then [e.braceDamper] else [])
  }

  /** The braceDampers collected are exactly the bracedamper elements, in document order. */
  lemma {:induction false} CollectsBraceDampers(nodes: seq<Value>, n: nat, read: Value -> Element)
    requires n <= |nodes|
    ensures CollectNodes(nodes, n, read).braceDampers == BraceDampersUpTo(nodes, n, read)
  {
    if n > 0 {
      CollectsBraceDampers(nodes, n - 1, read);
    }
  }

  /** The dxPanels among the first `n` elements, in document order. */
  function PanelsUpTo(nodes: seq<Value>, n: nat, read: Value -> Element): seq<DXPanel>
    requires n <= |nodes|
  {
    if n == 0 then []
    else
      var e := read(nodes[n - 1]);
      PanelsUpTo(nodes, n - 1, read) + (if e.PanelElement? then [e.panel] else [])
  }

  /** The dxPanels collected are exactly the panel elements, in document order. */
  lemma {:induction false} CollectsPanels(nodes: seq<Value>, n: nat, read: Value -> Element)
    requires n <= |nodes|
    ensures CollectNodes(nodes, n, read).dxPanels == PanelsUpTo(nodes, n, read)
  {
    if n > 0 {
      CollectsPanels(nodes, n - 1, read);
    }
  }

  /** A stable sort's three guarantees: sorted, a permutation, and equal keys in input order. */
  ghost predicate StablySorted<T(!new)>(r: seq<T>, s: seq<T>, key: T -> real)
  {
    SortedBy(r, key) && multiset(r) == multiset(s) && forall k :: WithKey(r, key, k) == WithKey(s, key, k)
  }

  lemma SortByStablySorted<T(!new)>(s: seq<T>, key: T -> real)
    ensures StablySorted(SortBy(s, key), s, key)
  {
    SortByIsSorted(s, key);
    SortByPermutes(s, key);
    forall k ensures WithKey(SortBy(s, key), key, k) == WithKey(s, key, k) {
      SortByStable(s, key, k);
    }
  }

  /** The sorting step keeps the structure information and the wall characteristics, and stably sorts the rest by layer. */
  lemma SortListsStable(m: BuildingModel)
    ensures SortLists(m).structInfo == m.structInfo && SortLists(m).wallCharaDB == m.wallCharaDB
    ensures StablySorted(SortLists(m).floors, m.floors, FloorLayer)
    ensures StablySorted(SortLists(m).columns, m.columns, ColumnLayer)
    ensures StablySorted(SortLists(m).walls, m.walls, WallLayer)
    ensures StablySorted(SortLists(m).massDampers, m.massDampers, MassDamperLayer)
    ensures StablySorted(SortLists(m).braceDampers, m.braceDampers, BraceDamperLayer)
    ensures StablySorted(SortLists(m).dxPanels, m.dxPanels, PanelLayer)
  {
    SortByStablySorted(m.floors, FloorLayer);
    SortByStablySorted(m.columns, ColumnLayer);
    SortByStablySorted(m.walls, WallLayer);
    SortByStablySorted(m.massDampers, MassDamperLayer);
    SortByStablySorted(m.braceDampers, BraceDamperLayer);
    SortByStablySorted(m.dxPanels, PanelLayer);
  }

  /**
   * What `parseBuildingModelXml` returns: the structure information of the
   * last structure element, the wall characteristics in document order, and
   * every other element list stably sorted by layer from document order.
   */
  lemma ParsedModel(root: Value, show: NumberFormatter, parse: NumberParser)
    ensures var nodes, read := NodesOf(root), Reader(show, parse);
      var m := BuildingModelOf(root, show, parse);
      var infos := InfosUpTo(nodes, |nodes|, read);
      && m.structInfo == (if infos == [] then None else Some(infos[|infos| - 1]))
      && m.wallCharaDB == WallCharasUpTo(nodes, |nodes|, read)
      && StablySorted(m.floors, FloorsUpTo(nodes, |nodes|, read), FloorLayer)
      && StablySorted(m.columns, ColumnsUpTo(nodes, |nodes|, read), ColumnLayer)
      && StablySorted(m.walls, WallsUpTo(nodes, |nodes|, read), WallLayer)
      && StablySorted(m.massDampers, MassDampersUpTo(nodes, |nodes|, read), MassDamperLayer)
      && StablySorted(m.braceDampers, BraceDampersUpTo(nodes, |nodes|, read), BraceDamperLayer)
      && StablySorted(m.dxPanels, PanelsUpTo(nodes, |nodes|, read), PanelLayer)
  {
    var nodes, read := NodesOf(root), Reader(show, parse);
    var m0 := CollectNodes(nodes, |nodes|, read);
    SortListsStable(m0);
    LastStructInfoWins(nodes, |nodes|, read);
    CollectsWallCharas(nodes, |nodes|, read);
    CollectsFloors(nodes, |nodes|, read);
    CollectsColumns(nodes, |nodes|, read);
    CollectsWalls(nodes, |nodes|, read);
    CollectsMassDampers(nodes, |nodes|, read);
    CollectsBraceDampers(nodes, |nodes|, read);
    CollectsPanels(nodes, |nodes|, read);
  }

  // ---- serializeBuildingModelXml: field texts ----------------------------------------

  /** `boolText`: the capitalised names the legacy files use. */
  function BoolText(b: bool): string
  {
    if b then "True" else "False"
  }

  /** `parseBool` reads what `boolText` writes, whatever its fallback. */
  lemma BoolTextReadsBack(b: bool, fallback: bool)
    ensures ParseBool(Some(JStr(BoolText(b))), fallback) == b
  {
    CapitalisedBools();
  }

  /** `parseBool` keeps a boolean, and gives the fallback for anything neither boolean nor text. */
  lemma ParseBoolNonText(v: Option<Value>, fallback: bool)
    ensures v.Some? && v.value.JBool? ==> ParseBool(v, fallback) == v.value.b
    ensures (v.None? || !(v.value.JBool? || v.value.JStr?)) ==> ParseBool(v, fallback) == fallback
  {
  }

  /** The name `躯体タイプ` stores. */
  function StructTypeText(t: StructType): string
  {
    if t == DX then "DX" else "R"
  }

  /** The texts of numbers, one each. */
  function Shown(xs: seq<real>, show: NumberFormatter): seq<string>
  {
    seq(|xs|, i requires 0 <= i < |xs| => show(xs[i]))
  }

  /** `numbers.join(" ")`. */
  function SpaceText(xs: seq<real>, show: NumberFormatter): string
  {
    Join(Shown(xs, show), " ")
  }

  /** `${p.x} ${p.y}`. */
  function PairText(p: Point, show: NumberFormatter): string
  {
    show(p.x) + " " + show(p.y)
  }

  /** `pointListToSpaceString`. */
  function PointListText(ps: seq<Point>, show: NumberFormatter): string
  {
    Join(seq(|ps|, i requires 0 <= i < |ps| => PairText(ps[i], show)), " ")
  }

  /** A written number is non-empty and has no space. */
  lemma NumeralWord(show: NumberFormatter, x: real)
    requires WritesNumerals(show)
    ensures |show(x)| >= 1 && ' ' !in show(x)
  {
    var w := show(x);
    assert IsNumeral(w);
    forall i | 0 <= i < |w| ensures w[i] != ' ' {
      assert NumeralChar(w[i]);
    }
  }

  /** The words of a point followed by more words join as the pair text, a space, and the rest. */
  lemma PairWords(p: Point, rest: seq<string>, show: NumberFormatter)
    requires |rest| >= 1
    ensures Join([show(p.x), show(p.y)] + rest, " ") == PairText(p, show) + " " + Join(rest, " ")
  {
    var x, y := show(p.x), show(p.y);
    assert [x, y] + rest == [x] + ([y] + rest);
    JoinCons(x, [y] + rest, " ");
    JoinCons(y, rest, " ");
    SpacedTriple(x, y, Join(rest, " "));
  }

  lemma SpacedTriple(x: string, y: string, tail: string)
    ensures x + " " + (y + " " + tail) == (x + " " + y) + " " + tail
  {
  }

  /** A point list is written as the space-separated text of its coordinates. */
  lemma {:induction false} PointListTextIsCoordinates(ps: seq<Point>, show: NumberFormatter)
    ensures PointListText(ps, show) == SpaceText(Coordinates(ps), show)
    decreases |ps|
  {
    var pairs := seq(|ps|, i requires 0 <= i < |ps| => PairText(ps[i], show));
    if |ps| == 1 {
      assert Coordinates(ps) == [ps[0].x, ps[0].y];
      assert Shown(Coordinates(ps), show) == [show(ps[0].x)] + [show(ps[0].y)];
      JoinCons(show(ps[0].x), [show(ps[0].y)], " ");
      assert pairs == [PairText(ps[0], show)];
    } else if |ps| > 1 {
      var rest := ps[1..];
      var restPairs := seq(|rest|, i requires 0 <= i < |rest| => PairText(rest[i], show));
      PointListTextIsCoordinates(rest, show);
      assert pairs == [PairText(ps[0], show)] + restPairs;
      JoinCons(PairText(ps[0], show), restPairs, " ");
      var cs := Shown(Coordinates(rest), show);
      assert Coordinates(ps) == [ps[0].x, ps[0].y] + Coordinates(rest);
      assert Shown(Coordinates(ps), show) == [show(ps[0].x), show(ps[0].y)] + cs;
      PairWords(ps[0], cs, show);
    }
  }

  /** Space-separated written numbers are read back as the numbers. */
  lemma SpaceTextReadsBack(xs: seq<real>, show: NumberFormatter, parse: NumberParser)
    requires WritesNumerals(show) && ReadsBack(show, parse)
    requires |xs| >= 1
    ensures SpaceNumbers(Some(JStr(SpaceText(xs, show))), parse) == xs
  {
    var words := Shown(xs, show);
    forall k | 0 <= k < |words| ensures ' ' !in words[k] && parse(words[k]) == Some(xs[k]) {
      NumeralWord(show, xs[k]);
      ReadBack(show, parse, xs[k]);
    }
    SplitJoin(words, ' ');
    ToNumberListAll(words, parse);
  }

  /** A written point list is read back as the points; the empty list too. */
  lemma PointListReadsBack(ps: seq<Point>, show: NumberFormatter, parse: NumberParser)
    requires WritesNumerals(show) && ReadsBack(show, parse)
    ensures PointsOf(Some(JStr(PointListText(ps, show))), parse) == ps
  {
    if ps == [] {
      assert PointListText(ps, show) == "";
      assert Split("", ' ') == [""];
      assert |SpaceNumbers(Some(JStr("")), parse)| <= 1;
    } else {
      PointListTextIsCoordinates(ps, show);
      SpaceTextReadsBack(Coordinates(ps), show, parse);
      PairsOfCoordinates(ps, []);
      assert [] + Coordinates(ps) == Coordinates(ps);
    }
  }

  /** A written pair is read back as that one point. */
  lemma PairReadsBack(p: Point, show: NumberFormatter, parse: NumberParser)
    requires WritesNumerals(show) && ReadsBack(show, parse)
    ensures PointsOf(Some(JStr(PairText(p, show))), parse) == [p]
  {
    assert seq(1, i requires 0 <= i < 1 => PairText([p][i], show)) == [PairText(p, show)];
    assert PointListText([p], show) == PairText(p, show);
    PointListReadsBack([p], show, parse);
  }

  /** The text of a floor: its layer, then its points. */
  function FloorText(f: Floor, show: NumberFormatter): string
  {
    show(f.layer) + " " + PointListText(f.pos, show)
  }

  /** A floor with points is read back from its text. */
  lemma FloorTextReadsBack(f: Floor, show: NumberFormatter, parse: NumberParser)
    requires WritesNumerals(show) && ReadsBack(show, parse)
    requires |f.pos| >= 1
    ensures FloorValueOf(Some(JStr(FloorText(f, show))), parse) == f
  {
    var cs := Coordinates(f.pos);
    PointListTextIsCoordinates(f.pos, show);
    assert Shown([f.layer] + cs, show) == [show(f.layer)] + Shown(cs, show);
    JoinCons(show(f.layer), Shown(cs, show), " ");
    assert FloorText(f, show) == SpaceText([f.layer] + cs, show);
    SpaceTextReadsBack([f.layer] + cs, show, parse);
    PairsOfCoordinates(f.pos, [f.layer]);
  }

  /** A floor without points is written as its layer and a space, which reads back as layer 1: the layer is lost. */
  lemma FloorWithoutPointsLosesLayer(layer: real, show: NumberFormatter, parse: NumberParser)
    requires WritesNumerals(show)
    ensures FloorValueOf(Some(JStr(FloorText(Floor(layer, []), show))), parse) == Floor(1.0, [])
  {
    NumeralWord(show, layer);
    assert PointListText([], show) == "";
    assert FloorText(Floor(layer, []), show) == Join([show(layer), ""], " ");
    SplitJoin([show(layer), ""], ' ');
  }

  // ---- serializeBuildingModelXml: the objects ---------------------------------------

  /** An object of class `k`: the class attribute first, then the fields. */
  function Tagged(k: ElementClass, fields: seq<(string, Value)>): Value
  {
    JObj([(CLASSNAME_KEY, JStr(FullName(k)))] + fields)
  }

  /** The fields of a StructInfo object after its class attribute, in the order the writer gives them. */
  function StructInfoFields(info: StructInfo, show: NumberFormatter): seq<(string, Value)>
  {
    [
      (MASS_N, JNum(info.massN)),
      (S_TYPE, JStr(StructTypeText(info.sType))),
      (Z_LEVEL, JStr(SpaceText(info.zLevel, show))),
      (WEIGHT, JStr(SpaceText(info.weight, show))),
      (W_MOMENT, JStr(SpaceText(info.wMoment, show))),
      (W_CENTER, JStr(PointListText(info.wCenter, show)))]
  }

  function StructInfoObject(info: StructInfo, show: NumberFormatter): Value
  {
    Tagged(StructInfoClass, StructInfoFields(info, show))
  }

  /** The one field of a floor object: `${floor.layer} ${pointListToSpaceString(floor.pos)}`. */
  function FloorFields(f: Floor, show: NumberFormatter): seq<(string, Value)>
  {
    [(FLOOR_VALUE, JStr(FloorText(f, show)))]
  }

  function FloorObject(f: Floor, show: NumberFormatter): Value
  {
    Tagged(FloorClass, FloorFields(f, show))
  }

  /** The fields of a Column object after its class attribute, in the order the writer gives them. */
  function ColumnFields(c: Column, show: NumberFormatter): seq<(string, Value)>
  {
    [
      (LAYER, JNum(c.layer)),
      (POS, JStr(PairText(c.pos, show))),
      (STIFFNESS, JStr(PairText(Point(c.kx, c.ky), show)))]
  }

  function ColumnObject(c: Column, show: NumberFormatter): Value
  {
    Tagged(ColumnClass, ColumnFields(c, show))
  }

  /** `db.memo || " "`: an empty memo is written as a single space. */
  function WrittenMemo(memo: string): string
  {
    if memo == "" then " " else memo
  }

  /** The fields of a WallChara object after its class attribute, in the order the writer gives them. */
  function WallCharaFields(w: WallChara): seq<(string, Value)>
  {
    [
      (CHARA_NAME, JStr(w.name)),
      (STIFFNESS, JNum(w.k)),
      (CHARA_H, JNum(w.h)),
      (DAMPING, JNum(w.c)),
      (CHARA_EIGEN_K, JStr(BoolText(w.isEigenEffectK))),
      (CHARA_UNIT, JStr(BoolText(w.isKCUnitChara))),
      (CHARA_MEMO, JStr(WrittenMemo(w.memo)))]
  }

  function WallCharaObject(w: WallChara): Value
  {
    Tagged(WallCharaClass, WallCharaFields(w))
  }

  /** The fields of a Wall object after its class attribute, in the order the writer gives them. */
  function WallFields(w: Wall, show: NumberFormatter): seq<(string, Value)>
  {
    [
      (WALL_NAME, JStr(w.name)),
      (LAYER, JNum(w.layer)),
      (POS, JStr(PointListText([w.start, w.end], show))),
      (IS_VISIBLE, JStr(BoolText(w.isVisible)))]
  }

  function WallObject(w: Wall, show: NumberFormatter): Value
  {
    Tagged(WallClass, WallFields(w, show))
  }

  /** The fields of a MassDamper object after its class attribute, in the order the writer gives them. */
  function MassDamperFields(d: MassDamper, show: NumberFormatter): seq<(string, Value)>
  {
    [
      (DAMPER_NAME, JStr(d.name)),
      (LAYER, JNum(d.layer)),
      (POS, JStr(PairText(d.pos, show))),
      (WEIGHT, JNum(d.weight)),
      (DAMPER_FREQ, JStr(PairText(d.freq, show))),
      (DAMPER_H, JStr(PairText(d.h, show)))]
  }

  function MassDamperObject(d: MassDamper, show: NumberFormatter): Value
  {
    Tagged(MassDamperClass, MassDamperFields(d, show))
  }

  /** The fields of a BraceDamper object after its class attribute, in the order the writer gives them. */
  function BraceDamperFields(d: BraceDamper, show: NumberFormatter): seq<(string, Value)>
  {
    [
      (LAYER, JNum(d.layer)),
      (POS, JStr(PairText(d.pos, show))),
      (DIRECT, JStr(DirectionText(d.direct))),
      (STIFFNESS, JNum(d.k)),
      (DAMPING, JNum(d.c)),
      (BRACE_WIDTH, JNum(d.width)),
      (BRACE_HEIGHT, JNum(d.height)),
      (BRACE_LIGHT, JStr(BoolText(d.isLightPos))),
      (BRACE_EIGEN_K, JStr(BoolText(d.isEigenEffectK)))]
  }

  function BraceDamperObject(d: BraceDamper, show: NumberFormatter): Value
  {
    Tagged(BraceDamperClass, BraceDamperFields(d, show))
  }

  /** The fields of a Panel object after its class attribute, in the order the writer gives them. */
  function PanelFields(p: DXPanel, show: NumberFormatter): seq<(string, Value)>
  {
    [
      (LAYER, JNum(p.layer)),
      (DIRECT, JStr(DirectionText(p.direct))),
      (POS, JStr(PointListText(p.pos, show))),
      (STIFFNESS, JNum(p.k))]
  }

  function PanelObject(p: DXPanel, show: NumberFormatter): Value
  {
    Tagged(PanelClass, PanelFields(p, show))
  }

  // ---- reading the objects back -----------------------------------------------------

  /** The reader dispatches a tagged object on its class. */
  lemma TaggedDispatch(k: ElementClass, fields: seq<(string, Value)>, show: NumberFormatter, parse: NumberParser)
    ensures ElementOf(Tagged(k, fields), show, parse) == ElementOfKind(Tagged(k, fields), Some(k), show, parse)
  {
    assert ClassNameOf(Tagged(k, fields), show) == FullName(k);
    ClassOfFullName(k);
  }

  /** The fields of a tagged object other than its class are those it was given. */
  lemma TaggedGet(k: ElementClass, fields: seq<(string, Value)>, key: string)
    requires key != CLASSNAME_KEY
    ensures Get(Tagged(k, fields), key) == Lookup(fields, key)
  {
    assert ([(CLASSNAME_KEY, JStr(FullName(k)))] + fields)[1..] == fields;
  }

  /** A field of a tagged object whose name no earlier field and not the class attribute has. */
  lemma FieldGet(k: ElementClass, fields: seq<(string, Value)>, i: nat)
    requires i < |fields| && fields[i].0 != CLASSNAME_KEY
    requires forall j :: 0 <= j < i ==> fields[j].0 != fields[i].0
    ensures Get(Tagged(k, fields), fields[i].0) == Some(fields[i].1)
  {
    TaggedGet(k, fields, fields[i].0);
    LookupFirst(fields, i);
  }

  /** A field holding a written boolean reads back as it. */
  lemma BoolField(node: Value, key: string, b: bool, fallback: bool)
    requires Get(node, key) == Some(JStr(BoolText(b)))
    ensures ParseBool(Get(node, key), fallback) == b
  {
    BoolTextReadsBack(b, fallback);
  }

  /** The StructInfo reader over a node whose fields read as the parts of `info`. */
  lemma StructInfoFromFields(node: Value, info: StructInfo, show: NumberFormatter, parse: NumberParser)
    requires Get(node, MASS_N) == Some(JNum(info.massN))
    requires Get(node, S_TYPE) == Some(JStr(StructTypeText(info.sType)))
    requires SpaceNumbers(Get(node, Z_LEVEL), parse) == info.zLevel
    requires SpaceNumbers(Get(node, WEIGHT), parse) == info.weight
    requires SpaceNumbers(Get(node, W_MOMENT), parse) == info.wMoment
    requires PointsOf(Get(node, W_CENTER), parse) == info.wCenter
    ensures StructInfoOf(node, show, parse) == info
  {
  }

  /** The fields a reader finds in a StructInfo object. */
  lemma StructInfoGets(info: StructInfo, show: NumberFormatter)
    ensures Get(StructInfoObject(info, show), MASS_N) == Some(JNum(info.massN))
    ensures Get(StructInfoObject(info, show), S_TYPE) == Some(JStr(StructTypeText(info.sType)))
    ensures Get(StructInfoObject(info, show), Z_LEVEL) == Some(JStr(SpaceText(info.zLevel, show)))
    ensures Get(StructInfoObject(info, show), WEIGHT) == Some(JStr(SpaceText(info.weight, show)))
    ensures Get(StructInfoObject(info, show), W_MOMENT) == Some(JStr(SpaceText(info.wMoment, show)))
    ensures Get(StructInfoObject(info, show), W_CENTER) == Some(JStr(PointListText(info.wCenter, show)))
  {
    var fields := StructInfoFields(info, show);
    FieldGet(StructInfoClass, fields, 0);
    FieldGet(StructInfoClass, fields, 1);
    FieldGet(StructInfoClass, fields, 2);
    FieldGet(StructInfoClass, fields, 3);
    FieldGet(StructInfoClass, fields, 4);
    FieldGet(StructInfoClass, fields, 5);
  }

  /** The structure information is read back when its three number lists are non-empty. */
  lemma StructInfoReadsBack(info: StructInfo, show: NumberFormatter, parse: NumberParser)
    requires WritesNumerals(show) && ReadsBack(show, parse)
    requires |info.zLevel| >= 1 && |info.weight| >= 1 && |info.wMoment| >= 1
    ensures StructInfoOf(StructInfoObject(info, show), show, parse) == info
  {
    var node := StructInfoObject(info, show);
    StructInfoGets(info, show);
    SpaceTextReadsBack(info.zLevel, show, parse);
    SpaceTextReadsBack(info.weight, show, parse);
    SpaceTextReadsBack(info.wMoment, show, parse);
    PointListReadsBack(info.wCenter, show, parse);
    StructInfoFromFields(node, info, show, parse);
  }

  /** The Floor reader over a node whose fields read as the parts of `f`. */
  lemma FloorFromFields(node: Value, f: Floor, show: NumberFormatter, parse: NumberParser)
    requires FloorValueOf(Get(node, FLOOR_VALUE), parse) == f
    ensures FloorOf(node, parse) == f
  {
  }

  /** The fields a reader finds in a Floor object. */
  lemma FloorGets(f: Floor, show: NumberFormatter)
    ensures Get(FloorObject(f, show), FLOOR_VALUE) == Some(JStr(FloorText(f, show)))
  {
    var fields := FloorFields(f, show);
    FieldGet(FloorClass, fields, 0);
  }

  /** A floor with at least one point is read back. */
  lemma FloorReadsBack(f: Floor, show: NumberFormatter, parse: NumberParser)
    requires WritesNumerals(show) && ReadsBack(show, parse)
    requires |f.pos| >= 1
    ensures FloorOf(FloorObject(f, show), parse) == f
  {
    var node := FloorObject(f, show);
    FloorGets(f, show);
    FloorTextReadsBack(f, show, parse);
    FloorFromFields(node, f, show, parse);
  }

  /** The Column reader over a node whose fields read as the parts of `c`. */
  lemma ColumnFromFields(node: Value, c: Column, show: NumberFormatter, parse: NumberParser)
    requires Get(node, LAYER) == Some(JNum(c.layer))
    requires PointsOf(Get(node, POS), parse) == [c.pos]
    requires PointsOf(Get(node, STIFFNESS), parse) == [Point(c.kx, c.ky)]
    ensures ColumnOf(node, parse) == c
  {
  }

  /** The fields a reader finds in a Column object. */
  lemma ColumnGets(c: Column, show: NumberFormatter)
    ensures Get(ColumnObject(c, show), LAYER) == Some(JNum(c.layer))
    ensures Get(ColumnObject(c, show), POS) == Some(JStr(PairText(c.pos, show)))
    ensures Get(ColumnObject(c, show), STIFFNESS) == Some(JStr(PairText(Point(c.kx, c.ky), show)))
  {
    var fields := ColumnFields(c, show);
    FieldGet(ColumnClass, fields, 0);
    FieldGet(ColumnClass, fields, 1);
    FieldGet(ColumnClass, fields, 2);
  }

  /** A column is read back. */
  lemma ColumnReadsBack(c: Column, show: NumberFormatter, parse: NumberParser)
    requires WritesNumerals(show) && ReadsBack(show, parse)
    ensures ColumnOf(ColumnObject(c, show), parse) == c
  {
    var node := ColumnObject(c, show);
    ColumnGets(c, show);
    PairReadsBack(c.pos, show, parse);
    PairReadsBack(Point(c.kx, c.ky), show, parse);
    ColumnFromFields(node, c, show, parse);
  }

  /** The WallChara reader over a node whose fields read as the parts of `w`. */
  lemma WallCharaFromFields(node: Value, w: WallChara, show: NumberFormatter, parse: NumberParser)
    requires Get(node, CHARA_NAME) == Some(JStr(w.name))
    requires Get(node, STIFFNESS) == Some(JNum(w.k))
    requires Get(node, CHARA_H) == Some(JNum(w.h))
    requires Get(node, DAMPING) == Some(JNum(w.c))
    requires ParseBool(Get(node, CHARA_EIGEN_K), true) == w.isEigenEffectK
    requires ParseBool(Get(node, CHARA_UNIT), true) == w.isKCUnitChara
    requires Get(node, CHARA_MEMO) == Some(JStr(w.memo))
    ensures WallCharaOf(node, show, parse) == w
  {
    NumberField(Get(node, STIFFNESS), w.k, 0.0, parse);
    NumberField(Get(node, CHARA_H), w.h, 0.0, parse);
    NumberField(Get(node, DAMPING), w.c, 0.0, parse);
    TextField(Get(node, CHARA_NAME), w.name, show);
    TextField(Get(node, CHARA_MEMO), w.memo, show);
  }

  /** A number field reads as its number. */
  lemma NumberField(v: Option<Value>, x: real, fallback: real, parse: NumberParser)
    requires v == Some(JNum(x))
    ensures ParseNumber(v, fallback, parse) == x
  {
    assert ValueNumber(JNum(x), parse) == Some(x);
  }

  /** A text field reads as its text. */
  lemma TextField(v: Option<Value>, s: string, show: NumberFormatter)
    requires v == Some(JStr(s))
    ensures StringOr(v, "", show) == s
  {
  }

  /** The fields a reader finds in a WallChara object. */
  lemma WallCharaGets(w: WallChara)
    ensures Get(WallCharaObject(w), CHARA_NAME) == Some(JStr(w.name))
    ensures Get(WallCharaObject(w), STIFFNESS) == Some(JNum(w.k))
    ensures Get(WallCharaObject(w), CHARA_H) == Some(JNum(w.h))
    ensures Get(WallCharaObject(w), DAMPING) == Some(JNum(w.c))
    ensures Get(WallCharaObject(w), CHARA_EIGEN_K) == Some(JStr(BoolText(w.isEigenEffectK)))
    ensures Get(WallCharaObject(w), CHARA_UNIT) == Some(JStr(BoolText(w.isKCUnitChara)))
    ensures Get(WallCharaObject(w), CHARA_MEMO) == Some(JStr(WrittenMemo(w.memo)))
  {
    var fields := WallCharaFields(w);
    FieldGet(WallCharaClass, fields, 0);
    FieldGet(WallCharaClass, fields, 1);
    FieldGet(WallCharaClass, fields, 2);
    FieldGet(WallCharaClass, fields, 3);
    FieldGet(WallCharaClass, fields, 4);
    FieldGet(WallCharaClass, fields, 5);
    FieldGet(WallCharaClass, fields, 6);
  }

  /** A wall characteristic is read back, except that an empty memo comes back as a space. */
  lemma WallCharaReadsBack(w: WallChara, show: NumberFormatter, parse: NumberParser)
    ensures WallCharaOf(WallCharaObject(w), show, parse) == w.(memo := WrittenMemo(w.memo))
  {
    var node := WallCharaObject(w);
    WallCharaGets(w);
    BoolField(node, CHARA_EIGEN_K, w.isEigenEffectK, true);
    BoolField(node, CHARA_UNIT, w.isKCUnitChara, true);
    WallCharaFromFields(node, w.(memo := WrittenMemo(w.memo)), show, parse);
  }

  /** The Wall reader over a node whose fields read as the parts of `w`. */
  lemma WallFromFields(node: Value, w: Wall, show: NumberFormatter, parse: NumberParser)
    requires Get(node, WALL_NAME) == Some(JStr(w.name))
    requires Get(node, LAYER) == Some(JNum(w.layer))
    requires PointsOf(Get(node, POS), parse) == [w.start, w.end]
    requires ParseBool(Get(node, IS_VISIBLE), true) == w.isVisible
    ensures WallOf(node, show, parse) == w
  {
  }

  /** The fields a reader finds in a Wall object. */
  lemma WallGets(w: Wall, show: NumberFormatter)
    ensures Get(WallObject(w, show), WALL_NAME) == Some(JStr(w.name))
    ensures Get(WallObject(w, show), LAYER) == Some(JNum(w.layer))
    ensures Get(WallObject(w, show), POS) == Some(JStr(PointListText([w.start, w.end], show)))
    ensures Get(WallObject(w, show), IS_VISIBLE) == Some(JStr(BoolText(w.isVisible)))
  {
    var fields := WallFields(w, show);
    FieldGet(WallClass, fields, 0);
    FieldGet(WallClass, fields, 1);
    FieldGet(WallClass, fields, 2);
    FieldGet(WallClass, fields, 3);
  }

  /** A wall is read back, both end points included. */
  lemma WallReadsBack(w: Wall, show: NumberFormatter, parse: NumberParser)
    requires WritesNumerals(show) && ReadsBack(show, parse)
    ensures WallOf(WallObject(w, show), show, parse) == w
  {
    var node := WallObject(w, show);
    WallGets(w, show);
    PointListReadsBack([w.start, w.end], show, parse);
    BoolField(node, IS_VISIBLE, w.isVisible, true);
    WallFromFields(node, w, show, parse);
  }

  /** The MassDamper reader over a node whose fields read as the parts of `d`. */
  lemma MassDamperFromFields(node: Value, d: MassDamper, show: NumberFormatter, parse: NumberParser)
    requires Get(node, DAMPER_NAME) == Some(JStr(d.name))
    requires Get(node, LAYER) == Some(JNum(d.layer))
    requires PointsOf(Get(node, POS), parse) == [d.pos]
    requires Get(node, WEIGHT) == Some(JNum(d.weight))
    requires PointsOf(Get(node, DAMPER_FREQ), parse) == [d.freq]
    requires PointsOf(Get(node, DAMPER_H), parse) == [d.h]
    ensures MassDamperOf(node, show, parse) == d
  {
  }

  /** The fields a reader finds in a MassDamper object. */
  lemma MassDamperGets(d: MassDamper, show: NumberFormatter)
    ensures Get(MassDamperObject(d, show), DAMPER_NAME) == Some(JStr(d.name))
    ensures Get(MassDamperObject(d, show), LAYER) == Some(JNum(d.layer))
    ensures Get(MassDamperObject(d, show), POS) == Some(JStr(PairText(d.pos, show)))
    ensures Get(MassDamperObject(d, show), WEIGHT) == Some(JNum(d.weight))
    ensures Get(MassDamperObject(d, show), DAMPER_FREQ) == Some(JStr(PairText(d.freq, show)))
    ensures Get(MassDamperObject(d, show), DAMPER_H) == Some(JStr(PairText(d.h, show)))
  {
    var fields := MassDamperFields(d, show);
    FieldGet(MassDamperClass, fields, 0);
    FieldGet(MassDamperClass, fields, 1);
    FieldGet(MassDamperClass, fields, 2);
    FieldGet(MassDamperClass, fields, 3);
    FieldGet(MassDamperClass, fields, 4);
    FieldGet(MassDamperClass, fields, 5);
  }

  /** A mass damper is read back. */
  lemma MassDamperReadsBack(d: MassDamper, show: NumberFormatter, parse: NumberParser)
    requires WritesNumerals(show) && ReadsBack(show, parse)
    ensures MassDamperOf(MassDamperObject(d, show), show, parse) == d
  {
    var node := MassDamperObject(d, show);
    MassDamperGets(d, show);
    PairReadsBack(d.pos, show, parse);
    PairReadsBack(d.freq, show, parse);
    PairReadsBack(d.h, show, parse);
    MassDamperFromFields(node, d, show, parse);
  }

  /** The BraceDamper reader over a node whose fields read as the parts of `d`. */
  lemma BraceDamperFromFields(node: Value, d: BraceDamper, show: NumberFormatter, parse: NumberParser)
    requires Get(node, LAYER) == Some(JNum(d.layer))
    requires PointsOf(Get(node, POS), parse) == [d.pos]
    requires Get(node, DIRECT) == Some(JStr(DirectionText(d.direct)))
    requires Get(node, STIFFNESS) == Some(JNum(d.k))
    requires Get(node, DAMPING) == Some(JNum(d.c))
    requires Get(node, BRACE_WIDTH) == Some(JNum(d.width))
    requires Get(node, BRACE_HEIGHT) == Some(JNum(d.height))
    requires ParseBool(Get(node, BRACE_LIGHT), true) == d.isLightPos
    requires ParseBool(Get(node, BRACE_EIGEN_K), false) == d.isEigenEffectK
    ensures BraceDamperOf(node, show, parse) == d
  {
    NumberField(Get(node, LAYER), d.layer, 1.0, parse);
    DirectionField(Get(node, DIRECT), d.direct, show);
    NumberField(Get(node, STIFFNESS), d.k, 0.0, parse);
    NumberField(Get(node, DAMPING), d.c, 0.0, parse);
    NumberField(Get(node, BRACE_WIDTH), d.width, 0.0, parse);
    NumberField(Get(node, BRACE_HEIGHT), d.height, 0.0, parse);
  }

  lemma DirectionField(v: Option<Value>, d: Direction, show: NumberFormatter)
    requires v == Some(JStr(DirectionText(d)))
    ensures DirectionOf(v, show) == d
  {
    TextField(v, DirectionText(d), show);
  }

  /** The first five fields a reader finds in a BraceDamper object. */
  lemma BraceDamperGets(d: BraceDamper, show: NumberFormatter)
    ensures Get(BraceDamperObject(d, show), LAYER) == Some(JNum(d.layer))
    ensures Get(BraceDamperObject(d, show), POS) == Some(JStr(PairText(d.pos, show)))
    ensures Get(BraceDamperObject(d, show), DIRECT) == Some(JStr(DirectionText(d.direct)))
    ensures Get(BraceDamperObject(d, show), STIFFNESS) == Some(JNum(d.k))
    ensures Get(BraceDamperObject(d, show), DAMPING) == Some(JNum(d.c))
  {
    var fields := BraceDamperFields(d, show);
    FieldGet(BraceDamperClass, fields, 0);
    FieldGet(BraceDamperClass, fields, 1);
    FieldGet(BraceDamperClass, fields, 2);
    FieldGet(BraceDamperClass, fields, 3);
    FieldGet(BraceDamperClass, fields, 4);
  }

  /** The last four fields a reader finds in a BraceDamper object. */
  lemma BraceDamperMoreGets(d: BraceDamper, show: NumberFormatter)
    ensures Get(BraceDamperObject(d, show), BRACE_WIDTH) == Some(JNum(d.width))
    ensures Get(BraceDamperObject(d, show), BRACE_HEIGHT) == Some(JNum(d.height))
    ensures Get(BraceDamperObject(d, show), BRACE_LIGHT) == Some(JStr(BoolText(d.isLightPos)))
    ensures Get(BraceDamperObject(d, show), BRACE_EIGEN_K) == Some(JStr(BoolText(d.isEigenEffectK)))
  {
    var fields := BraceDamperFields(d, show);
    FieldGet(BraceDamperClass, fields, 5);
    FieldGet(BraceDamperClass, fields, 6);
    FieldGet(BraceDamperClass, fields, 7);
    FieldGet(BraceDamperClass, fields, 8);
  }

  /** A brace damper is read back. */
  lemma BraceDamperReadsBack(d: BraceDamper, show: NumberFormatter, parse: NumberParser)
    requires WritesNumerals(show) && ReadsBack(show, parse)
    ensures BraceDamperOf(BraceDamperObject(d, show), show, parse) == d
  {
    var node := BraceDamperObject(d, show);
    BraceDamperGets(d, show);
    BraceDamperMoreGets(d, show);
    PairReadsBack(d.pos, show, parse);
    BoolField(node, BRACE_LIGHT, d.isLightPos, true);
    BoolField(node, BRACE_EIGEN_K, d.isEigenEffectK, false);
    BraceDamperFromFields(node, d, show, parse);
  }

  /** The DXPanel reader over a node whose fields read as the parts of `p`. */
  lemma PanelFromFields(node: Value, p: DXPanel, show: NumberFormatter, parse: NumberParser)
    requires Get(node, LAYER) == Some(JNum(p.layer))
    requires Get(node, DIRECT) == Some(JStr(DirectionText(p.direct)))
    requires PointsOf(Get(node, POS), parse) == p.pos
    requires Get(node, STIFFNESS) == Some(JNum(p.k))
    ensures PanelOf(node, show, parse) == p
  {
  }

  /** The fields a reader finds in a DXPanel object. */
  lemma PanelGets(p: DXPanel, show: NumberFormatter)
    ensures Get(PanelObject(p, show), LAYER) == Some(JNum(p.layer))
    ensures Get(PanelObject(p, show), DIRECT) == Some(JStr(DirectionText(p.direct)))
    ensures Get(PanelObject(p, show), POS) == Some(JStr(PointListText(p.pos, show)))
    ensures Get(PanelObject(p, show), STIFFNESS) == Some(JNum(p.k))
  {
    var fields := PanelFields(p, show);
    FieldGet(PanelClass, fields, 0);
    FieldGet(PanelClass, fields, 1);
    FieldGet(PanelClass, fields, 2);
    FieldGet(PanelClass, fields, 3);
  }

  /** A panel is read back. */
  lemma PanelReadsBack(p: DXPanel, show: NumberFormatter, parse: NumberParser)
    requires WritesNumerals(show) && ReadsBack(show, parse)
    ensures PanelOf(PanelObject(p, show), show, parse) == p
  {
    var node := PanelObject(p, show);
    PanelGets(p, show);
    PointListReadsBack(p.pos, show, parse);
    PanelFromFields(node, p, show, parse);
  }

  // ---- the whole model --------------------------------------------------------------

  /** The object the writer makes of an element; an ignored element has no class. */
  function ElementObject(el: Element, show: NumberFormatter): Value
  {
    match el
    case Ignored => JObj([])
    case StructInfoElement(info) => StructInfoObject(info, show)
    case FloorElement(f) => FloorObject(f, show)
    case ColumnElement(c) => ColumnObject(c, show)
    case WallCharaElement(w) => WallCharaObject(w)
    case WallElement(w) => WallObject(w, show)
    case MassDamperElement(d) => MassDamperObject(d, show)
    case BraceDamperElement(d) => BraceDamperObject(d, show)
    case PanelElement(p) => PanelObject(p, show)
  }

  /** An element the writer and the reader agree on: non-empty structure lists, floors with points, memos with text. */
  predicate WritableElement(el: Element)
  {
    match el
    case StructInfoElement(info) => |info.zLevel| >= 1 && |info.weight| >= 1 && |info.wMoment| >= 1
    case FloorElement(f) => |f.pos| >= 1
    case WallCharaElement(w) => w.memo != ""
    case _ => true
  }

  /** The class of a written element. */
  function KindOf(el: Element): Option<ElementClass>
  {
    match el
    case Ignored => None
    case StructInfoElement(_) => Some(StructInfoClass)
    case FloorElement(_) => Some(FloorClass)
    case ColumnElement(_) => Some(ColumnClass)
    case WallCharaElement(_) => Some(WallCharaClass)
    case WallElement(_) => Some(WallClass)
    case MassDamperElement(_) => Some(MassDamperClass)
    case BraceDamperElement(_) => Some(BraceDamperClass)
    case PanelElement(_) => Some(PanelClass)
  }

  /** The fields written for an element after its class attribute. */
  function FieldsOf(el: Element, show: NumberFormatter): seq<(string, Value)>
  {
    match el
    case Ignored => []
    case StructInfoElement(info) => StructInfoFields(info, show)
    case FloorElement(f) => FloorFields(f, show)
    case ColumnElement(c) => ColumnFields(c, show)
    case WallCharaElement(w) => WallCharaFields(w)
    case WallElement(w) => WallFields(w, show)
    case MassDamperElement(d) => MassDamperFields(d, show)
    case BraceDamperElement(d) => BraceDamperFields(d, show)
    case PanelElement(p) => PanelFields(p, show)
  }

  /** The object of a classed element is its class attribute followed by its fields. */
  lemma ElementObjectTagged(el: Element, show: NumberFormatter)
    requires KindOf(el).Some?
    ensures ElementObject(el, show) == Tagged(KindOf(el).value, FieldsOf(el, show))
  {
  }

  lemma StructInfoKindReadsBack(info: StructInfo, show: NumberFormatter, parse: NumberParser)
    requires WritesNumerals(show) && ReadsBack(show, parse)
    requires |info.zLevel| >= 1 && |info.weight| >= 1 && |info.wMoment| >= 1
    ensures ElementOfKind(Tagged(StructInfoClass, StructInfoFields(info, show)), Some(StructInfoClass), show, parse) == StructInfoElement(info)
  {
    StructInfoReadsBack(info, show, parse);
  }

  lemma FloorKindReadsBack(f: Floor, show: NumberFormatter, parse: NumberParser)
    requires WritesNumerals(show) && ReadsBack(show, parse)
    requires |f.pos| >= 1
    ensures ElementOfKind(Tagged(FloorClass, FloorFields(f, show)), Some(FloorClass), show, parse) == FloorElement(f)
  {
    FloorReadsBack(f, show, parse);
  }

  lemma ColumnKindReadsBack(c: Column, show: NumberFormatter, parse: NumberParser)
    requires WritesNumerals(show) && ReadsBack(show, parse)
    ensures ElementOfKind(Tagged(ColumnClass, ColumnFields(c, show)), Some(ColumnClass), show, parse) == ColumnElement(c)
  {
    ColumnReadsBack(c, show, parse);
  }

  lemma WallCharaKindReadsBack(w: WallChara, show: NumberFormatter, parse: NumberParser)
    requires w.memo != ""
    ensures ElementOfKind(Tagged(WallCharaClass, WallCharaFields(w)), Some(WallCharaClass), show, parse) == WallCharaElement(w)
  {
    WallCharaReadsBack(w, show, parse);
    assert w.(memo := WrittenMemo(w.memo)) == w;
    WallCharaKind(WallCharaObject(w), Some(WallCharaClass), show, parse);
  }

  /** A wall-characteristic node is read by the wall-characteristic reader. */
  lemma WallCharaKind(node: Value, kind: Option<ElementClass>, show: NumberFormatter, parse: NumberParser)
    requires kind == Some(WallCharaClass)
    ensures ElementOfKind(node, kind, show, parse) == WallCharaElement(WallCharaOf(node, show, parse))
  {
  }

  lemma WallKindReadsBack(w: Wall, show: NumberFormatter, parse: NumberParser)
    requires WritesNumerals(show) && ReadsBack(show, parse)
    ensures ElementOfKind(Tagged(WallClass, WallFields(w, show)), Some(WallClass), show, parse) == WallElement(w)
  {
    WallReadsBack(w, show, parse);
  }

  lemma MassDamperKindReadsBack(d: MassDamper, show: NumberFormatter, parse: NumberParser)
    requires WritesNumerals(show) && ReadsBack(show, parse)
    ensures ElementOfKind(Tagged(MassDamperClass, MassDamperFields(d, show)), Some(MassDamperClass), show, parse) == MassDamperElement(d)
  {
    MassDamperReadsBack(d, show, parse);
  }

  lemma BraceDamperKindReadsBack(d: BraceDamper, show: NumberFormatter, parse: NumberParser)
    requires WritesNumerals(show) && ReadsBack(show, parse)
    ensures ElementOfKind(Tagged(BraceDamperClass, BraceDamperFields(d, show)), Some(BraceDamperClass), show, parse) == BraceDamperElement(d)
  {
    BraceDamperReadsBack(d, show, parse);
    BraceDamperKind(BraceDamperObject(d, show), show, parse);
  }

  /** A brace-damper node is read by the brace-damper reader. */
  lemma BraceDamperKind(node: Value, show: NumberFormatter, parse: NumberParser)
    ensures ElementOfKind(node, Some(BraceDamperClass), show, parse) == BraceDamperElement(BraceDamperOf(node, show, parse))
  {
  }

  lemma PanelKindReadsBack(p: DXPanel, show: NumberFormatter, parse: NumberParser)
    requires WritesNumerals(show) && ReadsBack(show, parse)
    ensures ElementOfKind(Tagged(PanelClass, PanelFields(p, show)), Some(PanelClass), show, parse) == PanelElement(p)
  {
    PanelReadsBack(p, show, parse);
  }

  /** The reader of an element's own class gives back every writable element from its fields. */
  lemma KindReadsBack(el: Element, show: NumberFormatter, parse: NumberParser)
    requires WritesNumerals(show) && ReadsBack(show, parse)
    requires WritableElement(el) && KindOf(el).Some?
    ensures ElementOfKind(Tagged(KindOf(el).value, FieldsOf(el, show)), KindOf(el), show, parse) == el
  {
    match el
    case StructInfoElement(info) => StructInfoKindReadsBack(info, show, parse);
    case FloorElement(f) => FloorKindReadsBack(f, show, parse);
    case ColumnElement(c) => ColumnKindReadsBack(c, show, parse);
    case WallCharaElement(w) => WallCharaKindReadsBack(w, show, parse);
    case WallElement(w) => WallKindReadsBack(w, show, parse);
    case MassDamperElement(d) => MassDamperKindReadsBack(d, show, parse);
    case BraceDamperElement(d) => BraceDamperKindReadsBack(d, show, parse);
    case PanelElement(p) => PanelKindReadsBack(p, show, parse);
  }

  /** The reader gives back every writable element from the object the writer makes of it. */
  lemma ElementReadsBack(el: Element, show: NumberFormatter, parse: NumberParser)
    requires WritesNumerals(show) && ReadsBack(show, parse)
    requires WritableElement(el)
    ensures ElementOf(ElementObject(el, show), show, parse) == el
  {
    if el.Ignored? {
      UnknownClassIgnored(JObj([]), show, parse);
    } else {
      ElementObjectTagged(el, show);
      TaggedDispatch(KindOf(el).value, FieldsOf(el, show), show, parse);
      KindReadsBack(el, show, parse);
    }
  }

  /** The structure element, if the model has structure information. */
  function InfoElements(m: BuildingModel): seq<Element>
  {
    if m.structInfo.Some? then [StructInfoElement(m.structInfo.value)] else []
  }

  function FloorElements(xs: seq<Floor>): seq<Element>
  {
    seq(|xs|, i requires 0 <= i < |xs| => FloorElement(xs[i]))
  }

  function ColumnElements(xs: seq<Column>): seq<Element>
  {
    seq(|xs|, i requires 0 <= i < |xs| => ColumnElement(xs[i]))
  }

  function WallCharaElements(xs: seq<WallChara>): seq<Element>
  {
    seq(|xs|, i requires 0 <= i < |xs| => WallCharaElement(xs[i]))
  }

  function WallElements(xs: seq<Wall>): seq<Element>
  {
    seq(|xs|, i requires 0 <= i < |xs| => WallElement(xs[i]))
  }

  function MassDamperElements(xs: seq<MassDamper>): seq<Element>
  {
    seq(|xs|, i requires 0 <= i < |xs| => MassDamperElement(xs[i]))
  }

  function BraceDamperElements(xs: seq<BraceDamper>): seq<Element>
  {
    seq(|xs|, i requires 0 <= i < |xs| => BraceDamperElement(xs[i]))
  }

  function PanelElements(xs: seq<DXPanel>): seq<Element>
  {
    seq(|xs|, i requires 0 <= i < |xs| => PanelElement(xs[i]))
  }

  /** The elements of a model in the order `serializeBuildingModelXml` writes them. */
  function ElementsOfModel(m: BuildingModel): seq<Element>
  {
    InfoElements(m) + FloorElements(m.floors) + ColumnElements(m.columns) + WallCharaElements(m.wallCharaDB)
    + WallElements(m.walls) + MassDamperElements(m.massDampers) + BraceDamperElements(m.braceDampers)
    + PanelElements(m.dxPanels)
  }

  /** The objects written for a list of elements, one each, in order. */
  function ObjectsOf(els: seq<Element>, show: NumberFormatter): seq<Value>
  {
    seq(|els|, i requires 0 <= i < |els| => ElementObject(els[i], show))
  }

  /** `{ ATV: { object: objects } }`, the tree handed to the XML builder. */
  function DocumentOf(objects: seq<Value>): Value
  {
    JObj([("ATV", JObj([("object", JArr(objects))]))])
  }

  /**
   * A model every element of which is writable. A wall characteristic's empty memo is
   * written as a single space, which the tree keeps, so it needs a memo.
   */
  predicate WritableModel(m: BuildingModel)
  {
    && (m.structInfo.Some? ==> WritableElement(StructInfoElement(m.structInfo.value)))
    && (forall f :: f in m.floors ==> |f.pos| >= 1)
    && (forall w :: w in m.wallCharaDB ==> w.memo != "")
  }

  /** Writing a concatenation writes the parts one after the other. */
  lemma ObjectsOfAppend(a: seq<Element>, b: seq<Element>, show: NumberFormatter)
    ensures ObjectsOf(a + b, show) == ObjectsOf(a, show) + ObjectsOf(b, show)
  {
  }

  /** The loop of `serializeBuildingModelXml` over one list: one object per element, appended in order. */
  method PushObjects(objects: seq<Value>, els: seq<Element>, show: NumberFormatter) returns (r: seq<Value>)
    ensures r == objects + ObjectsOf(els, show)
  {
    r := objects;
    for i := 0 to |els|
      invariant r == objects + ObjectsOf(els[..i], show)
    {
      assert els[..i + 1] == els[..i] + [els[i]];
      ObjectsOfAppend(els[..i], [els[i]], show);
      r := r + [ElementObject(els[i], show)];
    }
    assert els[..|els|] == els;
  }

  /** `serializeBuildingModelXml` up to the XML builder: the structure information, then each list in turn. */
  method SerializeBuildingModel(m: BuildingModel, show: NumberFormatter) returns (root: Value)
    ensures root == DocumentOf(ObjectsOf(ElementsOfModel(m), show))
  {
    var objects := [];
    if m.structInfo.Some? {
      objects := [StructInfoObject(m.structInfo.value, show)];
    }
    assert objects == ObjectsOf(InfoElements(m), show);
    objects := PushObjects(objects, FloorElements(m.floors), show);
    ObjectsOfAppend(InfoElements(m), FloorElements(m.floors), show);
    objects := PushObjects(objects, ColumnElements(m.columns), show);
    ObjectsOfAppend(InfoElements(m) + FloorElements(m.floors), ColumnElements(m.columns), show);
    objects := PushObjects(objects, WallCharaElements(m.wallCharaDB), show);
    ObjectsOfAppend(InfoElements(m) + FloorElements(m.floors) + ColumnElements(m.columns), WallCharaElements(m.wallCharaDB), show);
    objects := PushObjects(objects, WallElements(m.walls), show);
    ObjectsOfAppend(InfoElements(m) + FloorElements(m.floors) + ColumnElements(m.columns) + WallCharaElements(m.wallCharaDB), WallElements(m.walls), show);
    objects := PushObjects(objects, MassDamperElements(m.massDampers), show);
    ObjectsOfAppend(InfoElements(m) + FloorElements(m.floors) + ColumnElements(m.columns) + WallCharaElements(m.wallCharaDB) + WallElements(m.walls), MassDamperElements(m.massDampers), show);
    objects := PushObjects(objects, BraceDamperElements(m.braceDampers), show);
    ObjectsOfAppend(InfoElements(m) + FloorElements(m.floors) + ColumnElements(m.columns) + WallCharaElements(m.wallCharaDB) + WallElements(m.walls) + MassDamperElements(m.massDampers), BraceDamperElements(m.braceDampers), show);
    objects := PushObjects(objects, PanelElements(m.dxPanels), show);
    ObjectsOfAppend(InfoElements(m) + FloorElements(m.floors) + ColumnElements(m.columns) + WallCharaElements(m.wallCharaDB) + WallElements(m.walls) + MassDamperElements(m.massDampers) + BraceDamperElements(m.braceDampers), PanelElements(m.dxPanels), show);
    root := DocumentOf(objects);
  }

  // ---- reading back the whole model ---------------------------------------------------

  /** The model after absorbing the first `n` elements of a list. */
  function AbsorbUpTo(els: seq<Element>, n: nat): BuildingModel
    requires n <= |els|
  {
    if n == 0 then EmptyModel else Absorb(AbsorbUpTo(els, n - 1), els[n - 1])
  }

  /** The dispatch loop over nodes that read as `els` absorbs `els`. */
  lemma {:induction false} CollectAsAbsorb(nodes: seq<Value>, n: nat, read: Value -> Element, els: seq<Element>)
    requires n <= |nodes| && n <= |els|
    requires forall i :: 0 <= i < n ==> read(nodes[i]) == els[i]
    ensures CollectNodes(nodes, n, read) == AbsorbUpTo(els, n)
  {
    if n > 0 {
      CollectAsAbsorb(nodes, n - 1, read, els);
    }
  }

  /** Absorbing a prefix does not look past it. */
  lemma {:induction false} AbsorbPrefix(a: seq<Element>, b: seq<Element>, n: nat)
    requires n <= |a|
    ensures AbsorbUpTo(a + b, n) == AbsorbUpTo(a, n)
  {
    if n > 0 {
      AbsorbPrefix(a, b, n - 1);
      assert (a + b)[n - 1] == a[n - 1];
    }
  }

  /** Absorbing Floor elements appends them to the model's floors and changes nothing else. */
  lemma {:induction false} AbsorbFloors(pre: seq<Element>, xs: seq<Floor>, k: nat)
    requires k <= |xs|
    ensures var base := AbsorbUpTo(pre, |pre|);
      AbsorbUpTo(pre + FloorElements(xs), |pre| + k) == base.(floors := base.floors + xs[..k])
  {
    var base := AbsorbUpTo(pre, |pre|);
    if k == 0 {
      AbsorbPrefix(pre, FloorElements(xs), |pre|);
      assert base.floors + xs[..0] == base.floors;
    } else {
      AbsorbFloors(pre, xs, k - 1);
      assert (pre + FloorElements(xs))[|pre| + k - 1] == FloorElement(xs[k - 1]);
      assert xs[..k] == xs[..k - 1] + [xs[k - 1]];
    }
  }

  /** Absorbing Column elements appends them to the model's columns and changes nothing else. */
  lemma {:induction false} AbsorbColumns(pre: seq<Element>, xs: seq<Column>, k: nat)
    requires k <= |xs|
    ensures var base := AbsorbUpTo(pre, |pre|);
      AbsorbUpTo(pre + ColumnElements(xs), |pre| + k) == base.(columns := base.columns + xs[..k])
  {
    var base := AbsorbUpTo(pre, |pre|);
    if k == 0 {
      AbsorbPrefix(pre, ColumnElements(xs), |pre|);
      assert base.columns + xs[..0] == base.columns;
    } else {
      AbsorbColumns(pre, xs, k - 1);
      assert (pre + ColumnElements(xs))[|pre| + k - 1] == ColumnElement(xs[k - 1]);
      assert xs[..k] == xs[..k - 1] + [xs[k - 1]];
    }
  }

  /** Absorbing WallChara elements appends them to the model's wallCharaDB and changes nothing else. */
  lemma {:induction false} AbsorbWallCharas(pre: seq<Element>, xs: seq<WallChara>, k: nat)
    requires k <= |xs|
    ensures var base := AbsorbUpTo(pre, |pre|);
      AbsorbUpTo(pre + WallCharaElements(xs), |pre| + k) == base.(wallCharaDB := base.wallCharaDB + xs[..k])
  {
    var base := AbsorbUpTo(pre, |pre|);
    if k == 0 {
      AbsorbPrefix(pre, WallCharaElements(xs), |pre|);
      assert base.wallCharaDB + xs[..0] == base.wallCharaDB;
    } else {
      AbsorbWallCharas(pre, xs, k - 1);
      assert (pre + WallCharaElements(xs))[|pre| + k - 1] == WallCharaElement(xs[k - 1]);
      assert xs[..k] == xs[..k - 1] + [xs[k - 1]];
    }
  }

  /** Absorbing Wall elements appends them to the model's walls and changes nothing else. */
  lemma {:induction false} AbsorbWalls(pre: seq<Element>, xs: seq<Wall>, k: nat)
    requires k <= |xs|
    ensures var base := AbsorbUpTo(pre, |pre|);
      AbsorbUpTo(pre + WallElements(xs), |pre| + k) == base.(walls := base.walls + xs[..k])
  {
    var base := AbsorbUpTo(pre, |pre|);
    if k == 0 {
      AbsorbPrefix(pre, WallElements(xs), |pre|);
      assert base.walls + xs[..0] == base.walls;
    } else {
      AbsorbWalls(pre, xs, k - 1);
      assert (pre + WallElements(xs))[|pre| + k - 1] == WallElement(xs[k - 1]);
      assert xs[..k] == xs[..k - 1] + [xs[k - 1]];
    }
  }

  /** Absorbing MassDamper elements appends them to the model's massDampers and changes nothing else. */
  lemma {:induction false} AbsorbMassDampers(pre: seq<Element>, xs: seq<MassDamper>, k: nat)
    requires k <= |xs|
    ensures var base := AbsorbUpTo(pre, |pre|);
      AbsorbUpTo(pre + MassDamperElements(xs), |pre| + k) == base.(massDampers := base.massDampers + xs[..k])
  {
    var base := AbsorbUpTo(pre, |pre|);
    if k == 0 {
      AbsorbPrefix(pre, MassDamperElements(xs), |pre|);
      assert base.massDampers + xs[..0] == base.massDampers;
    } else {
      AbsorbMassDampers(pre, xs, k - 1);
      assert (pre + MassDamperElements(xs))[|pre| + k - 1] == MassDamperElement(xs[k - 1]);
      assert xs[..k] == xs[..k - 1] + [xs[k - 1]];
    }
  }

  /** Absorbing BraceDamper elements appends them to the model's braceDampers and changes nothing else. */
  lemma {:induction false} AbsorbBraceDampers(pre: seq<Element>, xs: seq<BraceDamper>, k: nat)
    requires k <= |xs|
    ensures var base := AbsorbUpTo(pre, |pre|);
      AbsorbUpTo(pre + BraceDamperElements(xs), |pre| + k) == base.(braceDampers := base.braceDampers + xs[..k])
  {
    var base := AbsorbUpTo(pre, |pre|);
    if k == 0 {
      AbsorbPrefix(pre, BraceDamperElements(xs), |pre|);
      assert base.braceDampers + xs[..0] == base.braceDampers;
    } else {
      AbsorbBraceDampers(pre, xs, k - 1);
      assert (pre + BraceDamperElements(xs))[|pre| + k - 1] == BraceDamperElement(xs[k - 1]);
      assert xs[..k] == xs[..k - 1] + [xs[k - 1]];
    }
  }

  /** Absorbing Panel elements appends them to the model's dxPanels and changes nothing else. */
  lemma {:induction false} AbsorbPanels(pre: seq<Element>, xs: seq<DXPanel>, k: nat)
    requires k <= |xs|
    ensures var base := AbsorbUpTo(pre, |pre|);
      AbsorbUpTo(pre + PanelElements(xs), |pre| + k) == base.(dxPanels := base.dxPanels + xs[..k])
  {
    var base := AbsorbUpTo(pre, |pre|);
    if k == 0 {
      AbsorbPrefix(pre, PanelElements(xs), |pre|);
      assert base.dxPanels + xs[..0] == base.dxPanels;
    } else {
      AbsorbPanels(pre, xs, k - 1);
      assert (pre + PanelElements(xs))[|pre| + k - 1] == PanelElement(xs[k - 1]);
      assert xs[..k] == xs[..k - 1] + [xs[k - 1]];
    }
  }

  /** Once the lists before floors are absorbed, absorbing all of m's floors fills that list too. */
  lemma AbsorbAllFloors(pre: seq<Element>, m: BuildingModel)
    requires AbsorbUpTo(pre, |pre|) == BuildingModel(m.structInfo, [], [], [], [], [], [], [])
    ensures var p := pre + FloorElements(m.floors);
      AbsorbUpTo(p, |p|) == BuildingModel(m.structInfo, m.floors, [], [], [], [], [], [])
  {
    AbsorbFloors(pre, m.floors, |m.floors|);
    assert m.floors[..|m.floors|] == m.floors;
  }

  /** Once the lists before columns are absorbed, absorbing all of m's columns fills that list too. */
  lemma AbsorbAllColumns(pre: seq<Element>, m: BuildingModel)
    requires AbsorbUpTo(pre, |pre|) == BuildingModel(m.structInfo, m.floors, [], [], [], [], [], [])
    ensures var p := pre + ColumnElements(m.columns);
      AbsorbUpTo(p, |p|) == BuildingModel(m.structInfo, m.floors, m.columns, [], [], [], [], [])
  {
    AbsorbColumns(pre, m.columns, |m.columns|);
    assert m.columns[..|m.columns|] == m.columns;
  }

  /** Once the lists before wallCharaDB are absorbed, absorbing all of m's wallCharaDB fills that list too. */
  lemma AbsorbAllWallCharas(pre: seq<Element>, m: BuildingModel)
    requires AbsorbUpTo(pre, |pre|) == BuildingModel(m.structInfo, m.floors, m.columns, [], [], [], [], [])
    ensures var p := pre + WallCharaElements(m.wallCharaDB);
      AbsorbUpTo(p, |p|) == BuildingModel(m.structInfo, m.floors, m.columns, m.wallCharaDB, [], [], [], [])
  {
    AbsorbWallCharas(pre, m.wallCharaDB, |m.wallCharaDB|);
    assert m.wallCharaDB[..|m.wallCharaDB|] == m.wallCharaDB;
  }

  /** Once the lists before walls are absorbed, absorbing all of m's walls fills that list too. */
  lemma AbsorbAllWalls(pre: seq<Element>, m: BuildingModel)
    requires AbsorbUpTo(pre, |pre|) == BuildingModel(m.structInfo, m.floors, m.columns, m.wallCharaDB, [], [], [], [])
    ensures var p := pre + WallElements(m.walls);
      AbsorbUpTo(p, |p|) == BuildingModel(m.structInfo, m.floors, m.columns, m.wallCharaDB, m.walls, [], [], [])
  {
    AbsorbWalls(pre, m.walls, |m.walls|);
    assert m.walls[..|m.walls|] == m.walls;
  }

  /** Once the lists before massDampers are absorbed, absorbing all of m's massDampers fills that list too. */
  lemma AbsorbAllMassDampers(pre: seq<Element>, m: BuildingModel)
    requires AbsorbUpTo(pre, |pre|) == BuildingModel(m.structInfo, m.floors, m.columns, m.wallCharaDB, m.walls, [], [], [])
    ensures var p := pre + MassDamperElements(m.massDampers);
      AbsorbUpTo(p, |p|) == BuildingModel(m.structInfo, m.floors, m.columns, m.wallCharaDB, m.walls, m.massDampers, [], [])
  {
    AbsorbMassDampers(pre, m.massDampers, |m.massDampers|);
    assert m.massDampers[..|m.massDampers|] == m.massDampers;
  }

  /** Once the lists before braceDampers are absorbed, absorbing all of m's braceDampers fills that list too. */
  lemma AbsorbAllBraceDampers(pre: seq<Element>, m: BuildingModel)
    requires AbsorbUpTo(pre, |pre|) == BuildingModel(m.structInfo, m.floors, m.columns, m.wallCharaDB, m.walls, m.massDampers, [], [])
    ensures var p := pre + BraceDamperElements(m.braceDampers);
      AbsorbUpTo(p, |p|) == BuildingModel(m.structInfo, m.floors, m.columns, m.wallCharaDB, m.walls, m.massDampers, m.braceDampers, [])
  {
    AbsorbBraceDampers(pre, m.braceDampers, |m.braceDampers|);
    assert m.braceDampers[..|m.braceDampers|] == m.braceDampers;
  }

  /** Once the lists before dxPanels are absorbed, absorbing all of m's dxPanels fills that list too. */
  lemma AbsorbAllPanels(pre: seq<Element>, m: BuildingModel)
    requires AbsorbUpTo(pre, |pre|) == BuildingModel(m.structInfo, m.floors, m.columns, m.wallCharaDB, m.walls, m.massDampers, m.braceDampers, [])
    ensures var p := pre + PanelElements(m.dxPanels);
      AbsorbUpTo(p, |p|) == BuildingModel(m.structInfo, m.floors, m.columns, m.wallCharaDB, m.walls, m.massDampers, m.braceDampers, m.dxPanels)
  {
    AbsorbPanels(pre, m.dxPanels, |m.dxPanels|);
    assert m.dxPanels[..|m.dxPanels|] == m.dxPanels;
  }

  /** Absorbing the elements of a model, in the order they are written, rebuilds the model. */
  lemma AbsorbModel(m: BuildingModel)
    ensures AbsorbUpTo(ElementsOfModel(m), |ElementsOfModel(m)|) == m
  {
    var p0 := InfoElements(m);
    assert AbsorbUpTo(p0, |p0|) == BuildingModel(m.structInfo, [], [], [], [], [], [], []);
    var p1 := p0 + FloorElements(m.floors);
    AbsorbAllFloors(p0, m);
    var p2 := p1 + ColumnElements(m.columns);
    AbsorbAllColumns(p1, m);
    var p3 := p2 + WallCharaElements(m.wallCharaDB);
    AbsorbAllWallCharas(p2, m);
    var p4 := p3 + WallElements(m.walls);
    AbsorbAllWalls(p3, m);
    var p5 := p4 + MassDamperElements(m.massDampers);
    AbsorbAllMassDampers(p4, m);
    var p6 := p5 + BraceDamperElements(m.braceDampers);
    AbsorbAllBraceDampers(p5, m);
    AbsorbAllPanels(p6, m);
  }

  // ---- the whole round trip -----------------------------------------------------------

  /** Every element of a list is writable. */
  predicate AllWritable(els: seq<Element>)
  {
    forall i :: 0 <= i < |els| ==> WritableElement(els[i])
  }

  lemma AllWritableAppend(a: seq<Element>, b: seq<Element>)
    requires AllWritable(a) && AllWritable(b)
    ensures AllWritable(a + b)
  {
    forall i | 0 <= i < |a + b|
      ensures WritableElement((a + b)[i])
    {
      if i < |a| {
        assert (a + b)[i] == a[i];
      } else {
        assert (a + b)[i] == b[i - |a|];
      }
    }
  }

  /** A writable model writes only writable elements. */
  lemma WritableModelElements(m: BuildingModel)
    requires WritableModel(m)
    ensures AllWritable(ElementsOfModel(m))
  {
    var fs := FloorElements(m.floors);
    assert AllWritable(fs) by {
      forall i | 0 <= i < |fs| ensures WritableElement(fs[i]) {
        assert m.floors[i] in m.floors;
      }
    }
    var ws := WallCharaElements(m.wallCharaDB);
    assert AllWritable(ws) by {
      forall i | 0 <= i < |ws| ensures WritableElement(ws[i]) {
        assert m.wallCharaDB[i] in m.wallCharaDB;
      }
    }
    var p1 := InfoElements(m) + fs;
    AllWritableAppend(InfoElements(m), fs);
    var p2 := p1 + ColumnElements(m.columns);
    AllWritableAppend(p1, ColumnElements(m.columns));
    var p3 := p2 + ws;
    AllWritableAppend(p2, ws);
    var p4 := p3 + WallElements(m.walls);
    AllWritableAppend(p3, WallElements(m.walls));
    var p5 := p4 + MassDamperElements(m.massDampers);
    AllWritableAppend(p4, MassDamperElements(m.massDampers));
    var p6 := p5 + BraceDamperElements(m.braceDampers);
    AllWritableAppend(p5, BraceDamperElements(m.braceDampers));
    AllWritableAppend(p6, PanelElements(m.dxPanels));
  }

  /** The reader finds the written objects where the writer put them. */
  lemma NodesOfDocument(objects: seq<Value>)
    ensures NodesOf(DocumentOf(objects)) == objects
  {
  }

  /**
   * The reader applied to the tree the writer builds yields the model with its lists
   * sorted by layer, provided every element is writable and the number formatter and
   * parser agree. The XML text between the two trees is not modelled: the parser's
   * conversion of numeral tag values to numbers and its trimming of texts are outside
   * this lemma.
   */
  lemma SerializedModelReadsBack(m: BuildingModel, show: NumberFormatter, parse: NumberParser)
    requires WritesNumerals(show) && ReadsBack(show, parse)
    requires WritableModel(m)
    ensures BuildingModelOf(DocumentOf(ObjectsOf(ElementsOfModel(m), show)), show, parse) == SortLists(m)
  {
    var els := ElementsOfModel(m);
    var nodes := ObjectsOf(els, show);
    NodesOfDocument(nodes);
    WritableModelElements(m);
    forall i | 0 <= i < |nodes|
      ensures Reader(show, parse)(nodes[i]) == els[i]
    {
      ElementReadsBack(els[i], show, parse);
    }
    CollectAsAbsorb(nodes, |nodes|, Reader(show, parse), els);
    AbsorbModel(m);
  }

  /** Every element list of the model is already in layer order. */
  predicate LayerOrdered(m: BuildingModel)
  {
    && SortedBy(m.floors, FloorLayer) && SortedBy(m.columns, ColumnLayer)
    && SortedBy(m.walls, WallLayer) && SortedBy(m.massDampers, MassDamperLayer)
    && SortedBy(m.braceDampers, BraceDamperLayer) && SortedBy(m.dxPanels, PanelLayer)
  }

  /** The reader applied to the tree the writer builds of a writable model already in layer order gives the model exactly. */
  lemma OrderedModelReadsBack(m: BuildingModel, show: NumberFormatter, parse: NumberParser)
    requires WritesNumerals(show) && ReadsBack(show, parse)
    requires WritableModel(m) && LayerOrdered(m)
    ensures BuildingModelOf(DocumentOf(ObjectsOf(ElementsOfModel(m), show)), show, parse) == m
  {
    SerializedModelReadsBack(m, show, parse);
    SortBySorted(m.floors, FloorLayer);
    SortBySorted(m.columns, ColumnLayer);
    SortBySorted(m.walls, WallLayer);
    SortBySorted(m.massDampers, MassDamperLayer);
    SortBySorted(m.braceDampers, BraceDamperLayer);
    SortBySorted(m.dxPanels, PanelLayer);
  }
}
