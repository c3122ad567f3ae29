/*
 * The building-model JSON reader (src/io/buildingModel/validator.ts) and the
 * document the JSON writer produces (src/io/buildingModel/serializer.ts,
 * src/io/buildingModel/parser.ts).
 *
 * The reader works on the tree `JSON.parse` returns: coercers turn field
 * values into numbers, integers, booleans and strings, and every problem is
 * a `FormatParseError` that names the offending field. Record literals are
 * evaluated field by field, so the first failing field in the order of validator.ts is
 * the one reported.
 */
module JsonValidator {
  import opened Results
  import opened Numbers
  import opened Strings
  import opened Values
  import opened Building
  import Normalize

  const FORMAT := "twist-dynamics/building-model"
  const VERSION: real := 1.0
  function Fail<T>(path: string, what: string): (r: Result<T>)
    ensures r.Err?
  {
    FormatFailure(Normalize.Prefix + path + what)
  }

  // ---- scalar coercers -------------------------------------------------------

  function ToFiniteNumber(v: Option<Value>, path: string, parse: NumberParser): (r: Result<real>)
    ensures r.Ok? <==> NumberOf(v, parse).Some?
    ensures r.Ok? ==> r.value == NumberOf(v, parse).value
  {
    var n := NumberOf(v, parse);
    if n.None? then Fail(path, " must be a finite number.") else Ok(n.value)
  }

  /** `toInteger`: a finite number with no fractional part. */
  function ToInteger(v: Option<Value>, path: string, parse: NumberParser): (r: Result<real>)
    ensures r.Ok? <==> NumberOf(v, parse).Some? && IsInteger(NumberOf(v, parse).value)
    ensures r.Ok? ==> r.value == NumberOf(v, parse).value
  {
    var n :- ToFiniteNumber(v, path, parse);
    if !IsInteger(n) then Fail(path, " must be an integer.") else Ok(n)
  }

  /** The text forms `toBoolean` accepts, after trimming and lower-casing. */
  function BooleanWord(s: string): Option<bool>
  {
    var w := ToLower(Trim(s));
    if w == "true" then Some(true) else if w == "false" then Some(false) else None
  }

  /** `toBoolean`: a boolean, or a string reading true/false in any case with any surrounding blanks. */
  function ToBoolean(v: Option<Value>, path: string): (r: Result<bool>)
    ensures r.Ok? <==> v.Some? && (v.value.JBool? || (v.value.JStr? && BooleanWord(v.value.s).Some?))
    ensures r.Ok? && v.value.JBool? ==> r.value == v.value.b
    ensures r.Ok? && v.value.JStr? ==> r.value == (ToLower(Trim(v.value.s)) == "true")
  {
    if v.Some? && v.value.JBool? then Ok(v.value.b)
    else if v.Some? && v.value.JStr? && BooleanWord(v.value.s).Some? then Ok(BooleanWord(v.value.s).value)
    else Fail(path, " must be a boolean.")
  }

  /**
   * `toNonEmptyString`: a string whose trimmed form is not empty, returned
   * untrimmed. By `TrimEmptyIffBlank` the test is whether the string is
   * whitespace only.
   */
  function ToNonEmptyString(v: Option<Value>, path: string): (r: Result<string>)
    ensures r.Ok? <==> (v.Some? && v.value.JStr? && !IsBlank(v.value.s))
    ensures r.Ok? ==> r.value == v.value.s
  {
    if v.Some? && v.value.JStr? && !IsBlank(v.value.s) then Ok(v.value.s)
    else Fail(path, " must be a non-empty string.")
  }

  /** `toOptionalString`: absent means "", otherwise it must be a string. */
  function ToOptionalString(v: Option<Value>, path: string): (r: Result<string>)
    ensures v.None? ==> r == Ok("")
    ensures v.Some? ==> (r.Ok? <==> v.value.JStr?)
    ensures v.Some? && r.Ok? ==> r.value == v.value.s
  {
    if v.None? then Ok("")
    else if v.value.JStr? then Ok(v.value.s)
    else Fail(path, " must be a string.")
  }

  function ToStructType(v: Option<Value>, path: string): (r: Result<StructType>)
    ensures r.Ok? <==> v == Some(JStr("R")) || v == Some(JStr("DX"))
    ensures r.Ok? ==> (r.value == R <==> v == Some(JStr("R")))
  {
    if v == Some(JStr("R")) then Ok(R)
    else if v == Some(JStr("DX")) then Ok(DX)
    else Fail(path, " must be \"R\" or \"DX\".")
  }

  function ToDirection(v: Option<Value>, path: string): (r: Result<Direction>)
    ensures r.Ok? <==> v == Some(JStr("X")) || v == Some(JStr("Y"))
    ensures r.Ok? ==> (r.value == X <==> v == Some(JStr("X")))
  {
    if v == Some(JStr("X")) then Ok(X)
    else if v == Some(JStr("Y")) then Ok(Y)
    else Fail(path, " must be \"X\" or \"Y\".")
  }

  function ParsePoint(v: Option<Value>, path: string, parse: NumberParser): (r: Result<Point>)
    ensures r.Ok? ==> v.Some? && IsRecord(v.value)
  {
    if v.None? || !IsRecord(v.value) then Fail(path, " must be an object.")
    else
      var x :- ToFiniteNumber(Get(v.value, "x"), path + ".x", parse);
      var y :- ToFiniteNumber(Get(v.value, "y"), path + ".y", parse);
      Ok(Point(x, y))
  }

  // ---- arrays ------------------------------------------------------------------

  /**
   * `items.map((item, index) => parser(item, path[index]))`, stopping at
   * the first item the parser rejects.
   */
  function MapFrom<T>(items: seq<Value>, path: string, parser: (Value, string) -> Result<T>, start: nat): (r: Result<seq<T>>)
    requires start <= |items|
    ensures r.Ok? <==> forall i :: start <= i < |items| ==> parser(items[i], Normalize.Indexed(path, i)).Ok?
    ensures r.Ok? ==> (|r.value| == |items| - start
      && forall i :: start <= i < |items| ==> r.value[i - start] == parser(items[i], Normalize.Indexed(path, i)).value)
    decreases |items| - start
  {
    if start == |items| then Ok([])
    else
      var head :- parser(items[start], Normalize.Indexed(path, start));
      var tail :- MapFrom(items, path, parser, start + 1);
      Ok([head] + tail)
  }

  function MapItems<T>(items: seq<Value>, path: string, parser: (Value, string) -> Result<T>): Result<seq<T>>
  {
    MapFrom(items, path, parser, 0)
  }

  function NumberItem(parse: NumberParser): (Value, string) -> Result<real>
  {
    (item: Value, path: string) => ToFiniteNumber(Some(item), path, parse)
  }

  function PointItem(parse: NumberParser): (Value, string) -> Result<Point>
  {
    (item: Value, path: string) => ParsePoint(Some(item), path, parse)
  }

  function ParseNumberArray(v: Option<Value>, path: string, parse: NumberParser): (r: Result<seq<real>>)
    ensures r.Ok? ==> v.Some? && v.value.JArr? && |r.value| == |v.value.items|
  {
    if v.None? || !v.value.JArr? then Fail(path, " must be an array.")
    else MapItems(v.value.items, path, NumberItem(parse))
  }

  function ParsePointArray(v: Option<Value>, path: string, parse: NumberParser): (r: Result<seq<Point>>)
    ensures r.Ok? ==> v.Some? && v.value.JArr? && |r.value| == |v.value.items|
  {
    if v.None? || !v.value.JArr? then Fail(path, " must be an array.")
    else MapItems(v.value.items, path, PointItem(parse))
  }

  /**
   * `parseArrayField`: an absent field is the empty list, a field that is
   * not an array is an error, and an array is parsed item for item.
   */
  function ParseArrayField<T>(root: Value, fieldName: string, parser: (Value, string) -> Result<T>): (r: Result<seq<T>>)
    ensures Get(root, fieldName).None? ==> r == Ok([])
    ensures Get(root, fieldName).Some? && !Get(root, fieldName).value.JArr? ==> r.Err?
    ensures Get(root, fieldName).Some? && Get(root, fieldName).value.JArr? ==>
      var items := Get(root, fieldName).value.items;
      (r.Ok? <==> forall i :: 0 <= i < |items| ==> parser(items[i], Normalize.Indexed(fieldName, i)).Ok?)
      && (r.Ok? ==> (|r.value| == |items|
          && forall i :: 0 <= i < |items| ==> r.value[i] == parser(items[i], Normalize.Indexed(fieldName, i)).value))
  {
    var v := Get(root, fieldName);
    if v.None? then Ok([])
    else if !v.value.JArr? then Fail(fieldName, " must be an array.")
    else MapItems(v.value.items, fieldName, parser)
  }

  // ---- records -------------------------------------------------------------------

  /** `parseStructInfo`: absent stays absent; anything present must be a record. */
  function ParseStructInfo(v: Option<Value>, parse: NumberParser): (r: Result<Option<StructInfo>>)
    ensures v.None? ==> r == Ok(None)
    ensures v.Some? && r.Ok? ==> IsRecord(v.value) && r.value.Some?
    ensures r.Ok? && r.value.Some? ==> IsInteger(r.value.value.massN)
  {
    if v.None? then Ok(None)
    else if !IsRecord(v.value) then FormatFailure(Normalize.Prefix + "structInfo must be an object.")
    else
      var s := v.value;
      var massN :- ToInteger(Get(s, "massN"), "structInfo.massN", parse);
      var sType :- ToStructType(Get(s, "sType"), "structInfo.sType");
      var zLevel :- ParseNumberArray(Get(s, "zLevel"), "structInfo.zLevel", parse);
      var weight :- ParseNumberArray(Get(s, "weight"), "structInfo.weight", parse);
      var wMoment :- ParseNumberArray(Get(s, "wMoment"), "structInfo.wMoment", parse);
      var wCenter :- ParsePointArray(Get(s, "wCenter"), "structInfo.wCenter", parse);
      Ok(Some(StructInfo(massN, sType, zLevel, weight, wMoment, wCenter)))
  }

  function ParseFloor(v: Value, path: string, parse: NumberParser): (r: Result<Floor>)
    ensures r.Ok? ==> IsRecord(v) && IsInteger(r.value.layer)
  {
    if !IsRecord(v) then Fail(path, " must be an object.")
    else
      var layer :- ToInteger(Get(v, "layer"), path + ".layer", parse);
      var pos :- ParsePointArray(Get(v, "pos"), path + ".pos", parse);
      Ok(Floor(layer, pos))
  }

  function ParseColumn(v: Value, path: string, parse: NumberParser): (r: Result<Column>)
    ensures r.Ok? ==> IsRecord(v) && IsInteger(r.value.layer)
  {
    if !IsRecord(v) then Fail(path, " must be an object.")
    else
      var layer :- ToInteger(Get(v, "layer"), path + ".layer", parse);
      var pos :- ParsePoint(Get(v, "pos"), path + ".pos", parse);
      var kx :- ToFiniteNumber(Get(v, "kx"), path + ".kx", parse);
      var ky :- ToFiniteNumber(Get(v, "ky"), path + ".ky", parse);
      Ok(Column(layer, pos, kx, ky))
  }

  function ParseWallChara(v: Value, path: string, parse: NumberParser): (r: Result<WallChara>)
    ensures r.Ok? ==> IsRecord(v) && !IsBlank(r.value.name)
  {
    if !IsRecord(v) then Fail(path, " must be an object.")
    else
      var name :- ToNonEmptyString(Get(v, "name"), path + ".name");
      var k :- ToFiniteNumber(Get(v, "k"), path + ".k", parse);
      var h :- ToFiniteNumber(Get(v, "h"), path + ".h", parse);
      var c :- ToFiniteNumber(Get(v, "c"), path + ".c", parse);
      var effectK :- ToBoolean(Get(v, "isEigenEffectK"), path + ".isEigenEffectK");
      var unitChara :- ToBoolean(Get(v, "isKCUnitChara"), path + ".isKCUnitChara");
      var memo :- ToOptionalString(Get(v, "memo"), path + ".memo");
      Ok(WallChara(name, k, h, c, effectK, unitChara, memo))
  }

  /** `parseWall`: the position list is read first and must hold exactly two points. */
  function ParseWall(v: Value, path: string, parse: NumberParser): (r: Result<Wall>)
    ensures r.Ok? ==> (IsRecord(v) && Get(v, "pos").Some? && Get(v, "pos").value.JArr?
      && |Get(v, "pos").value.items| == 2)
    ensures r.Ok? ==> !IsBlank(r.value.name) && IsInteger(r.value.layer)
    ensures (IsRecord(v) && ParsePointArray(Get(v, "pos"), path + ".pos", parse).Ok?
      && |ParsePointArray(Get(v, "pos"), path + ".pos", parse).value| != 2) ==> r.Err?
  {
    if !IsRecord(v) then Fail(path, " must be an object.")
    else
      var pos :- ParsePointArray(Get(v, "pos"), path + ".pos", parse);
      if |pos| != 2 then Fail(path, ".pos must contain exactly 2 points.")
      else
        var name :- ToNonEmptyString(Get(v, "name"), path + ".name");
        var layer :- ToInteger(Get(v, "layer"), path + ".layer", parse);
        var visible :- ToBoolean(Get(v, "isVisible"), path + ".isVisible");
        Ok(Wall(name, layer, pos[0], pos[1], visible))
  }

  function ParseMassDamper(v: Value, path: string, parse: NumberParser): (r: Result<MassDamper>)
    ensures r.Ok? ==> IsRecord(v) && !IsBlank(r.value.name) && IsInteger(r.value.layer)
  {
    if !IsRecord(v) then Fail(path, " must be an object.")
    else
      var name :- ToNonEmptyString(Get(v, "name"), path + ".name");
      var layer :- ToInteger(Get(v, "layer"), path + ".layer", parse);
      var pos :- ParsePoint(Get(v, "pos"), path + ".pos", parse);
      var weight :- ToFiniteNumber(Get(v, "weight"), path + ".weight", parse);
      var freq :- ParsePoint(Get(v, "freq"), path + ".freq", parse);
      var h :- ParsePoint(Get(v, "h"), path + ".h", parse);
      Ok(MassDamper(name, layer, pos, weight, freq, h))
  }

  function ParseBraceDamper(v: Value, path: string, parse: NumberParser): (r: Result<BraceDamper>)
    ensures r.Ok? ==> IsRecord(v) && IsInteger(r.value.layer)
  {
    if !IsRecord(v) then Fail(path, " must be an object.")
    else
      var layer :- ToInteger(Get(v, "layer"), path + ".layer", parse);
      var pos :- ParsePoint(Get(v, "pos"), path + ".pos", parse);
      var direct :- ToDirection(Get(v, "direct"), path + ".direct");
      var k :- ToFiniteNumber(Get(v, "k"), path + ".k", parse);
      var c :- ToFiniteNumber(Get(v, "c"), path + ".c", parse);
      var width :- ToFiniteNumber(Get(v, "width"), path + ".width", parse);
      var height :- ToFiniteNumber(Get(v, "height"), path + ".height", parse);
      var lightPos :- ToBoolean(Get(v, "isLightPos"), path + ".isLightPos");
      var effectK :- ToBoolean(Get(v, "isEigenEffectK"), path + ".isEigenEffectK");
      Ok(BraceDamper(layer, pos, direct, k, c, width, height, lightPos, effectK))
  }

  function ParseDXPanel(v: Value, path: string, parse: NumberParser): (r: Result<DXPanel>)
    ensures r.Ok? ==> IsRecord(v) && IsInteger(r.value.layer)
  {
    if !IsRecord(v) then Fail(path, " must be an object.")
    else
      var layer :- ToInteger(Get(v, "layer"), path + ".layer", parse);
      var direct :- ToDirection(Get(v, "direct"), path + ".direct");
      var pos :- ParsePointArray(Get(v, "pos"), path + ".pos", parse);
      var k :- ToFiniteNumber(Get(v, "k"), path + ".k", parse);
      Ok(DXPanel(layer, direct, pos, k))
  }

  function FloorParser(parse: NumberParser): (Value, string) -> Result<Floor>
  { (v: Value, path: string) => ParseFloor(v, path, parse) }

  function ColumnParser(parse: NumberParser): (Value, string) -> Result<Column>
  { (v: Value, path: string) => ParseColumn(v, path, parse) }

  function WallCharaParser(parse: NumberParser): (Value, string) -> Result<WallChara>
  { (v: Value, path: string) => ParseWallChara(v, path, parse) }

  function WallParser(parse: NumberParser): (Value, string) -> Result<Wall>
  { (v: Value, path: string) => ParseWall(v, path, parse) }

  function MassDamperParser(parse: NumberParser): (Value, string) -> Result<MassDamper>
  { (v: Value, path: string) => ParseMassDamper(v, path, parse) }

  function BraceDamperParser(parse: NumberParser): (Value, string) -> Result<BraceDamper>
  { (v: Value, path: string) => ParseBraceDamper(v, path, parse) }

  function DXPanelParser(parse: NumberParser): (Value, string) -> Result<DXPanel>
  { (v: Value, path: string) => ParseDXPanel(v, path, parse) }

  /** `parseModelValue`: the model must be a record; every list field is optional. */
  function ParseModelValue(v: Value, parse: NumberParser): (r: Result<BuildingModel>)
    ensures r.Ok? ==> IsRecord(v)
    ensures r.Ok? ==> (r.value.structInfo.None? <==> Get(v, "structInfo").None?)
    ensures r.Ok? && Get(v, "walls").None? ==> r.value.walls == []
  {
    if !IsRecord(v) then FormatFailure(Normalize.Prefix + "model must be an object.")
    else
      var structInfo :- ParseStructInfo(Get(v, "structInfo"), parse);
      var floors :- ParseArrayField(v, "floors", FloorParser(parse));
      var columns :- ParseArrayField(v, "columns", ColumnParser(parse));
      var wallCharaDB :- ParseArrayField(v, "wallCharaDB", WallCharaParser(parse));
      var walls :- ParseArrayField(v, "walls", WallParser(parse));
      var massDampers :- ParseArrayField(v, "massDampers", MassDamperParser(parse));
      var braceDampers :- ParseArrayField(v, "braceDampers", BraceDamperParser(parse));
      var dxPanels :- ParseArrayField(v, "dxPanels", DXPanelParser(parse));
      Ok(BuildingModel(structInfo, floors, columns, wallCharaDB, walls, massDampers, braceDampers, dxPanels))
  }

  datatype Document = Document(format: string, version: real, model: Value)

  /**
   * `parseJsonDocument`: a record that owns format, version and model, whose
   * format is the exact constant string and whose version is the integer 1.
   */
  function ParseJsonDocument(v: Value, parse: NumberParser): (r: Result<Document>)
    ensures r.Ok? <==> (IsRecord(v) && HasOwn(v, "format") && HasOwn(v, "version") && HasOwn(v, "model")
      && Get(v, "format") == Some(JStr(FORMAT)) && NumberOf(Get(v, "version"), parse) == Some(VERSION))
    ensures r.Ok? ==> r.value.format == FORMAT && r.value.version == VERSION && Some(r.value.model) == Get(v, "model")
  {
    if !IsRecord(v) then FormatFailure(Normalize.Prefix + "top-level JSON must be an object.")
    else if !HasOwn(v, "format") || !HasOwn(v, "version") || !HasOwn(v, "model") then
      FormatFailure(Normalize.Prefix + "top-level object must include format, version, and model.")
    else if Get(v, "format") != Some(JStr(FORMAT)) then
      FormatFailure(Normalize.Prefix + "format must be \"" + FORMAT + "\".")
    else
      var version :- ToInteger(Get(v, "version"), "version", parse);
      if version != VERSION then FormatFailure(Normalize.Prefix + "version must be 1.")
      else (LookupFound(v.fields, "model"); Ok(Document(FORMAT, version, Get(v, "model").value)))
  }

  function ParseBuildingModelDocument(v: Value, parse: NumberParser): Result<BuildingModel>
  {
    var doc :- ParseJsonDocument(v, parse);
    ParseModelValue(doc.model, parse)
  }

  // ---- the written document ------------------------------------------------------

  function PointValue(p: Point): Value
  {
    JObj([("x", JNum(p.x)), ("y", JNum(p.y))])
  }

  function NumbersValue(s: seq<real>): Value
  {
    JArr(seq(|s|, i requires 0 <= i < |s| => JNum(s[i])))
  }

  function PointsValue(s: seq<Point>): Value
  {
    JArr(seq(|s|, i requires 0 <= i < |s| => PointValue(s[i])))
  }

  function StructTypeText(t: StructType): string
  {
    if t == R then "R" else "DX"
  }

  function StructInfoValue(s: StructInfo): Value
  {
    JObj([("massN", JNum(s.massN)), ("sType", JStr(StructTypeText(s.sType))),
          ("zLevel", NumbersValue(s.zLevel)), ("weight", NumbersValue(s.weight)),
          ("wMoment", NumbersValue(s.wMoment)), ("wCenter", PointsValue(s.wCenter))])
  }

  function FloorValue(f: Floor): Value
  {
    JObj([("layer", JNum(f.layer)), ("pos", PointsValue(f.pos))])
  }

  function ColumnValue(c: Column): Value
  {
    JObj([("layer", JNum(c.layer)), ("pos", PointValue(c.pos)), ("kx", JNum(c.kx)), ("ky", JNum(c.ky))])
  }

  function WallCharaValue(c: WallChara): Value
  {
    JObj([("name", JStr(c.name)), ("k", JNum(c.k)), ("h", JNum(c.h)), ("c", JNum(c.c)),
          ("isEigenEffectK", JBool(c.isEigenEffectK)), ("isKCUnitChara", JBool(c.isKCUnitChara)),
          ("memo", JStr(c.memo))])
  }

  function WallValue(w: Wall): Value
  {
    JObj([("name", JStr(w.name)), ("layer", JNum(w.layer)), ("pos", PointsValue([w.start, w.end])),
          ("isVisible", JBool(w.isVisible))])
  }

  function MassDamperValue(d: MassDamper): Value
  {
    JObj([("name", JStr(d.name)), ("layer", JNum(d.layer)), ("pos", PointValue(d.pos)),
          ("weight", JNum(d.weight)), ("freq", PointValue(d.freq)), ("h", PointValue(d.h))])
  }

  function BraceDamperValue(d: BraceDamper): Value
  {
    JObj([("layer", JNum(d.layer)), ("pos", PointValue(d.pos)), ("direct", JStr(DirectionText(d.direct))),
          ("k", JNum(d.k)), ("c", JNum(d.c)), ("width", JNum(d.width)), ("height", JNum(d.height)),
          ("isLightPos", JBool(d.isLightPos)), ("isEigenEffectK", JBool(d.isEigenEffectK))])
  }

  function DXPanelValue(p: DXPanel): Value
  {
    JObj([("layer", JNum(p.layer)), ("direct", JStr(DirectionText(p.direct))), ("pos", PointsValue(p.pos)),
          ("k", JNum(p.k))])
  }

  function ListValue<T>(s: seq<T>, enc: T -> Value): Value
  {
    JArr(seq(|s|, i requires 0 <= i < |s| => enc(s[i])))
  }

  /** The element lists of the written model, in the order the serializer writes them. */
  function ListFields(m: BuildingModel): seq<(string, Value)>
  {
    [("floors", ListValue(m.floors, FloorValue)),
     ("columns", ListValue(m.columns, ColumnValue)),
     ("wallCharaDB", ListValue(m.wallCharaDB, WallCharaValue)),
     ("walls", ListValue(m.walls, WallValue)),
     ("massDampers", ListValue(m.massDampers, MassDamperValue)),
     ("braceDampers", ListValue(m.braceDampers, BraceDamperValue)),
     ("dxPanels", ListValue(m.dxPanels, DXPanelValue))]
  }

  /** The tree `JSON.stringify` writes for a model; an absent structInfo is omitted. */
  function ModelValue(m: BuildingModel): Value
  {
    if m.structInfo.Some? then JObj([("structInfo", StructInfoValue(m.structInfo.value))] + ListFields(m))
    else JObj(ListFields(m))
  }

  function DocumentValue(m: BuildingModel): Value
  {
    JObj([("format", JStr(FORMAT)), ("version", JNum(VERSION)), ("model", ModelValue(m))])
  }

  /** `serializeBuildingModelJson`: normalise, then write the document. */
  function SerializeBuildingModelJson(m: BuildingModel): Result<Value>
  {
    var n :- Normalize.NormalizeBuildingModel(m);
    Ok(DocumentValue(n))
  }

  /** `parseBuildingModelJson` after `JSON.parse`: read the document, then normalise. */
  function ParseBuildingModelJson(v: Value, parse: NumberParser): Result<BuildingModel>
  {
    var m :- ParseBuildingModelDocument(v, parse);
    Normalize.NormalizeBuildingModel(m)
  }

  // ---- round trip ------------------------------------------------------------------

  /** What the reader demands beyond the shape of the tree: integer layers and massN, names that are not whitespace only. */
  predicate Readable(m: BuildingModel)
  {
    (m.structInfo.Some? ==> IsInteger(m.structInfo.value.massN))
    && (forall f :: f in m.floors ==> IsInteger(f.layer))
    && (forall c :: c in m.columns ==> IsInteger(c.layer))
    && (forall c :: c in m.wallCharaDB ==> !IsBlank(c.name))
    && (forall w :: w in m.walls ==> IsInteger(w.layer) && !IsBlank(w.name))
    && (forall d :: d in m.massDampers ==> IsInteger(d.layer) && !IsBlank(d.name))
    && (forall d :: d in m.braceDampers ==> IsInteger(d.layer))
    && (forall p :: p in m.dxPanels ==> IsInteger(p.layer))
  }

  lemma {:induction false} MapEncoded<T>(s: seq<T>, enc: T -> Value, path: string, parser: (Value, string) -> Result<T>, start: nat)
    requires start <= |s|
    requires forall i :: start <= i < |s| ==> parser(enc(s[i]), Normalize.Indexed(path, i)) == Ok(s[i])
    ensures MapFrom(ListValue(s, enc).items, path, parser, start) == Ok(s[start..])
    decreases |s| - start
  {
    if start < |s| {
      MapEncoded(s, enc, path, parser, start + 1);
      assert s[start..] == [s[start]] + s[start + 1..];
    }
  }

  lemma PointRoundTrip(p: Point, path: string, parse: NumberParser)
    ensures ParsePoint(Some(PointValue(p)), path, parse) == Ok(p)
  {
    FieldAt(PointValue(p), 0);
    FieldAt(PointValue(p), 1);
  }

  lemma PointsRoundTrip(s: seq<Point>, path: string, parse: NumberParser)
    ensures ParsePointArray(Some(PointsValue(s)), path, parse) == Ok(s)
  {
    forall i | 0 <= i < |s| ensures PointItem(parse)(PointValue(s[i]), Normalize.Indexed(path, i)) == Ok(s[i]) {
      PointRoundTrip(s[i], Normalize.Indexed(path, i), parse);
    }
    assert PointsValue(s) == ListValue(s, PointValue);
    MapEncoded(s, PointValue, path, PointItem(parse), 0);
  }

  lemma NumbersRoundTrip(s: seq<real>, path: string, parse: NumberParser)
    ensures ParseNumberArray(Some(NumbersValue(s)), path, parse) == Ok(s)
  {
    var enc := (x: real) => JNum(x);
    assert NumbersValue(s) == ListValue(s, enc);
    MapEncoded(s, enc, path, NumberItem(parse), 0);
  }

  lemma StructInfoRoundTrip(s: StructInfo, parse: NumberParser)
    requires IsInteger(s.massN)
    ensures ParseStructInfo(Some(StructInfoValue(s)), parse) == Ok(Some(s))
  {
    var v := StructInfoValue(s);
    FieldAt(v, 0); FieldAt(v, 1); FieldAt(v, 2); FieldAt(v, 3); FieldAt(v, 4); FieldAt(v, 5);
    NumbersRoundTrip(s.zLevel, "structInfo.zLevel", parse);
    NumbersRoundTrip(s.weight, "structInfo.weight", parse);
    NumbersRoundTrip(s.wMoment, "structInfo.wMoment", parse);
    PointsRoundTrip(s.wCenter, "structInfo.wCenter", parse);
    assert ToStructType(Some(JStr(StructTypeText(s.sType))), "structInfo.sType") == Ok(s.sType);
  }

  lemma FloorRoundTrip(f: Floor, path: string, parse: NumberParser)
    requires IsInteger(f.layer)
    ensures ParseFloor(FloorValue(f), path, parse) == Ok(f)
  {
    FieldAt(FloorValue(f), 0); FieldAt(FloorValue(f), 1);
    PointsRoundTrip(f.pos, path + ".pos", parse);
  }

  lemma ColumnRoundTrip(c: Column, path: string, parse: NumberParser)
    requires IsInteger(c.layer)
    ensures ParseColumn(ColumnValue(c), path, parse) == Ok(c)
  {
    var v := ColumnValue(c);
    FieldAt(v, 0); FieldAt(v, 1); FieldAt(v, 2); FieldAt(v, 3);
    PointRoundTrip(c.pos, path + ".pos", parse);
  }

  lemma WallCharaRoundTrip(c: WallChara, path: string, parse: NumberParser)
    requires !IsBlank(c.name)
    ensures ParseWallChara(WallCharaValue(c), path, parse) == Ok(c)
  {
    var v := WallCharaValue(c);
    FieldAt(v, 0); FieldAt(v, 1); FieldAt(v, 2); FieldAt(v, 3); FieldAt(v, 4); FieldAt(v, 5); FieldAt(v, 6);
  }

  lemma WallRoundTrip(w: Wall, path: string, parse: NumberParser)
    requires IsInteger(w.layer) && !IsBlank(w.name)
    ensures ParseWall(WallValue(w), path, parse) == Ok(w)
  {
    var v := WallValue(w);
    FieldAt(v, 0); FieldAt(v, 1); FieldAt(v, 2); FieldAt(v, 3);
    PointsRoundTrip([w.start, w.end], path + ".pos", parse);
  }

  lemma MassDamperRoundTrip(d: MassDamper, path: string, parse: NumberParser)
    requires IsInteger(d.layer) && !IsBlank(d.name)
    ensures ParseMassDamper(MassDamperValue(d), path, parse) == Ok(d)
  {
    var v := MassDamperValue(d);
    FieldAt(v, 0); FieldAt(v, 1); FieldAt(v, 2); FieldAt(v, 3); FieldAt(v, 4); FieldAt(v, 5);
    PointRoundTrip(d.pos, path + ".pos", parse);
    PointRoundTrip(d.freq, path + ".freq", parse);
    PointRoundTrip(d.h, path + ".h", parse);
  }

  lemma BraceDamperRoundTrip(d: BraceDamper, path: string, parse: NumberParser)
    requires IsInteger(d.layer)
    ensures ParseBraceDamper(BraceDamperValue(d), path, parse) == Ok(d)
  {
    var v := BraceDamperValue(d);
    BraceDamperValueFirst(d);
    BraceDamperValueRest(d);
    PointRoundTrip(d.pos, path + ".pos", parse);
    BraceDamperFields(v, d, path, parse);
  }

  lemma BraceDamperValueFirst(d: BraceDamper)
    ensures Get(BraceDamperValue(d), "layer") == Some(JNum(d.layer))
    ensures Get(BraceDamperValue(d), "pos") == Some(PointValue(d.pos))
    ensures Get(BraceDamperValue(d), "direct") == Some(JStr(DirectionText(d.direct)))
    ensures Get(BraceDamperValue(d), "k") == Some(JNum(d.k))
  {
    var v := BraceDamperValue(d);
    FieldAt(v, 0); FieldAt(v, 1); FieldAt(v, 2); FieldAt(v, 3);
  }

  lemma BraceDamperValueRest(d: BraceDamper)
    ensures Get(BraceDamperValue(d), "c") == Some(JNum(d.c))
    ensures Get(BraceDamperValue(d), "width") == Some(JNum(d.width))
    ensures Get(BraceDamperValue(d), "height") == Some(JNum(d.height))
    ensures Get(BraceDamperValue(d), "isLightPos") == Some(JBool(d.isLightPos))
    ensures Get(BraceDamperValue(d), "isEigenEffectK") == Some(JBool(d.isEigenEffectK))
  {
    var v := BraceDamperValue(d);
    FieldAt(v, 4); FieldAt(v, 5); FieldAt(v, 6); FieldAt(v, 7); FieldAt(v, 8);
  }

  lemma BraceDamperFields(v: Value, d: BraceDamper, path: string, parse: NumberParser)
    requires IsRecord(v) && IsInteger(d.layer)
    requires Get(v, "layer") == Some(JNum(d.layer))
    requires ParsePoint(Get(v, "pos"), path + ".pos", parse) == Ok(d.pos)
    requires Get(v, "direct") == Some(JStr(DirectionText(d.direct)))
    requires Get(v, "k") == Some(JNum(d.k)) && Get(v, "c") == Some(JNum(d.c))
    requires Get(v, "width") == Some(JNum(d.width)) && Get(v, "height") == Some(JNum(d.height))
    requires Get(v, "isLightPos") == Some(JBool(d.isLightPos))
    requires Get(v, "isEigenEffectK") == Some(JBool(d.isEigenEffectK))
    ensures ParseBraceDamper(v, path, parse) == Ok(d)
  {
    assert ToDirection(Get(v, "direct"), path + ".direct") == Ok(d.direct);
  }

  lemma DXPanelRoundTrip(p: DXPanel, path: string, parse: NumberParser)
    requires IsInteger(p.layer)
    ensures ParseDXPanel(DXPanelValue(p), path, parse) == Ok(p)
  {
    var v := DXPanelValue(p);
    FieldAt(v, 0); FieldAt(v, 1); FieldAt(v, 2); FieldAt(v, 3);
    PointsRoundTrip(p.pos, path + ".pos", parse);
    assert ToDirection(Some(JStr(DirectionText(p.direct))), path + ".direct") == Ok(p.direct);
  }

  /** A list field is found among the list fields, whether or not structInfo precedes them. */
  lemma ModelField(m: BuildingModel, key: string)
    requires key != "structInfo"
    ensures Get(ModelValue(m), key) == Lookup(ListFields(m), key)
  {
    if m.structInfo.Some? {
      assert ModelValue(m).fields[1..] == ListFields(m);
    }
  }

  lemma StructInfoField(m: BuildingModel)
    ensures Get(ModelValue(m), "structInfo") == (if m.structInfo.Some? then Some(StructInfoValue(m.structInfo.value)) else None)
  {
    if m.structInfo.Some? { FieldAt(ModelValue(m), 0); } else { LookupAbsent(ListFields(m), "structInfo"); }
  }

  lemma {:induction false} ListRoundTrip<T>(m: BuildingModel, index: nat, s: seq<T>, enc: T -> Value, parser: (Value, string) -> Result<T>)
    requires index < 7 && ListFields(m)[index] == (ListFields(m)[index].0, ListValue(s, enc))
    requires forall i :: 0 <= i < |s| ==> parser(enc(s[i]), Normalize.Indexed(ListFields(m)[index].0, i)) == Ok(s[i])
    ensures ParseArrayField(ModelValue(m), ListFields(m)[index].0, parser) == Ok(s)
  {
    var key := ListFields(m)[index].0;
    ModelField(m, key);
    LookupFirst(ListFields(m), index);
    MapEncoded(s, enc, key, parser, 0);
    assert s[0..] == s;
  }

  lemma FloorsRoundTrip(m: BuildingModel, parse: NumberParser)
    requires Readable(m)
    ensures ParseArrayField(ModelValue(m), "floors", FloorParser(parse)) == Ok(m.floors)
  {
    forall i | 0 <= i < |m.floors| ensures FloorParser(parse)(FloorValue(m.floors[i]), Normalize.Indexed("floors", i)) == Ok(m.floors[i]) {
      assert m.floors[i] in m.floors;
      FloorRoundTrip(m.floors[i], Normalize.Indexed("floors", i), parse);
    }
    ListRoundTrip(m, 0, m.floors, FloorValue, FloorParser(parse));
  }

  lemma ColumnsRoundTrip(m: BuildingModel, parse: NumberParser)
    requires Readable(m)
    ensures ParseArrayField(ModelValue(m), "columns", ColumnParser(parse)) == Ok(m.columns)
  {
    forall i | 0 <= i < |m.columns| ensures ColumnParser(parse)(ColumnValue(m.columns[i]), Normalize.Indexed("columns", i)) == Ok(m.columns[i]) {
      assert m.columns[i] in m.columns;
      ColumnRoundTrip(m.columns[i], Normalize.Indexed("columns", i), parse);
    }
    ListRoundTrip(m, 1, m.columns, ColumnValue, ColumnParser(parse));
  }

  lemma WallCharaDBRoundTrip(m: BuildingModel, parse: NumberParser)
    requires Readable(m)
    ensures ParseArrayField(ModelValue(m), "wallCharaDB", WallCharaParser(parse)) == Ok(m.wallCharaDB)
  {
    forall i | 0 <= i < |m.wallCharaDB| ensures WallCharaParser(parse)(WallCharaValue(m.wallCharaDB[i]), Normalize.Indexed("wallCharaDB", i)) == Ok(m.wallCharaDB[i]) {
      assert m.wallCharaDB[i] in m.wallCharaDB;
      WallCharaRoundTrip(m.wallCharaDB[i], Normalize.Indexed("wallCharaDB", i), parse);
    }
    ListRoundTrip(m, 2, m.wallCharaDB, WallCharaValue, WallCharaParser(parse));
  }

  lemma WallsRoundTrip(m: BuildingModel, parse: NumberParser)
    requires Readable(m)
    ensures ParseArrayField(ModelValue(m), "walls", WallParser(parse)) == Ok(m.walls)
  {
    forall i | 0 <= i < |m.walls| ensures WallParser(parse)(WallValue(m.walls[i]), Normalize.Indexed("walls", i)) == Ok(m.walls[i]) {
      assert m.walls[i] in m.walls;
      WallRoundTrip(m.walls[i], Normalize.Indexed("walls", i), parse);
    }
    ListRoundTrip(m, 3, m.walls, WallValue, WallParser(parse));
  }

  lemma MassDampersRoundTrip(m: BuildingModel, parse: NumberParser)
    requires Readable(m)
    ensures ParseArrayField(ModelValue(m), "massDampers", MassDamperParser(parse)) == Ok(m.massDampers)
  {
    forall i | 0 <= i < |m.massDampers| ensures MassDamperParser(parse)(MassDamperValue(m.massDampers[i]), Normalize.Indexed("massDampers", i)) == Ok(m.massDampers[i]) {
      assert m.massDampers[i] in m.massDampers;
      MassDamperRoundTrip(m.massDampers[i], Normalize.Indexed("massDampers", i), parse);
    }
    ListRoundTrip(m, 4, m.massDampers, MassDamperValue, MassDamperParser(parse));
  }

  lemma BraceDampersRoundTrip(m: BuildingModel, parse: NumberParser)
    requires Readable(m)
    ensures ParseArrayField(ModelValue(m), "braceDampers", BraceDamperParser(parse)) == Ok(m.braceDampers)
  {
    forall i | 0 <= i < |m.braceDampers| ensures BraceDamperParser(parse)(BraceDamperValue(m.braceDampers[i]), Normalize.Indexed("braceDampers", i)) == Ok(m.braceDampers[i]) {
      assert m.braceDampers[i] in m.braceDampers;
      BraceDamperRoundTrip(m.braceDampers[i], Normalize.Indexed("braceDampers", i), parse);
    }
    ListRoundTrip(m, 5, m.braceDampers, BraceDamperValue, BraceDamperParser(parse));
  }

  lemma DXPanelsRoundTrip(m: BuildingModel, parse: NumberParser)
    requires Readable(m)
    ensures ParseArrayField(ModelValue(m), "dxPanels", DXPanelParser(parse)) == Ok(m.dxPanels)
  {
    forall i | 0 <= i < |m.dxPanels| ensures DXPanelParser(parse)(DXPanelValue(m.dxPanels[i]), Normalize.Indexed("dxPanels", i)) == Ok(m.dxPanels[i]) {
      assert m.dxPanels[i] in m.dxPanels;
      DXPanelRoundTrip(m.dxPanels[i], Normalize.Indexed("dxPanels", i), parse);
    }
    ListRoundTrip(m, 6, m.dxPanels, DXPanelValue, DXPanelParser(parse));
  }

  /** Reading back the written tree of a readable model gives the model itself. */
  lemma ModelRoundTrip(m: BuildingModel, parse: NumberParser)
    requires Readable(m)
    ensures ParseModelValue(ModelValue(m), parse) == Ok(m)
  {
    StructInfoField(m);
    if m.structInfo.Some? { StructInfoRoundTrip(m.structInfo.value, parse); }
    FloorsRoundTrip(m, parse);
    ColumnsRoundTrip(m, parse);
    WallCharaDBRoundTrip(m, parse);
    WallsRoundTrip(m, parse);
    MassDampersRoundTrip(m, parse);
    BraceDampersRoundTrip(m, parse);
    DXPanelsRoundTrip(m, parse);
  }

  lemma DocumentFields(m: BuildingModel)
    ensures HasOwn(DocumentValue(m), "format") && HasOwn(DocumentValue(m), "version") && HasOwn(DocumentValue(m), "model")
    ensures Get(DocumentValue(m), "format") == Some(JStr(FORMAT))
    ensures Get(DocumentValue(m), "version") == Some(JNum(VERSION))
    ensures Get(DocumentValue(m), "model") == Some(ModelValue(m))
  {
    var d := DocumentValue(m);
    FieldAt(d, 0); FieldAt(d, 1); FieldAt(d, 2);
    assert d.fields[0].0 == "format" && d.fields[1].0 == "version" && d.fields[2].0 == "model";
  }

  /** The written document of a readable model reads back as that model. */
  lemma DocumentRoundTrip(m: BuildingModel, parse: NumberParser)
    requires Readable(m)
    ensures ParseBuildingModelDocument(DocumentValue(m), parse) == Ok(m)
  {
    DocumentFields(m);
    ModelRoundTrip(m, parse);
  }

  /**
   * Writing a model and reading the file back gives the normalised model,
   * provided its names are not blank: both directions normalise, and
   * normalisation is idempotent.
   */
  lemma JsonRoundTrip(m: BuildingModel, n: BuildingModel, parse: NumberParser)
    requires Normalize.NormalizeBuildingModel(m) == Ok(n)
    requires forall c :: c in m.wallCharaDB ==> !IsBlank(c.name)
    requires forall w :: w in m.walls ==> !IsBlank(w.name)
    requires forall d :: d in m.massDampers ==> !IsBlank(d.name)
    ensures SerializeBuildingModelJson(m) == Ok(DocumentValue(n))
    ensures ParseBuildingModelJson(DocumentValue(n), parse) == Ok(n)
  {
    NormalizedReadable(m, n);
    Normalize.NormalizeIdempotent(m, n);
    DocumentRoundTrip(n, parse);
  }

  /** A normalised model whose names are not whitespace only can be read back. */
  lemma NormalizedReadable(m: BuildingModel, n: BuildingModel)
    requires Normalize.NormalizeBuildingModel(m) == Ok(n)
    requires forall c :: c in m.wallCharaDB ==> !IsBlank(c.name)
    requires forall w :: w in m.walls ==> !IsBlank(w.name)
    requires forall d :: d in m.massDampers ==> !IsBlank(d.name)
    ensures Readable(n)
  {
    Normalize.NormalizeAcceptsValid(m);
    Normalize.SortedCopySameElements(m);
  }
}
