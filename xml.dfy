/*
 * The building-model XML reader (src/io/buildingModel/xml.ts) over the tree
 * the XML parser produces: elements become records, attributes become
 * fields whose names start with "@_", repeated elements become arrays and
 * text stays text. Field names are matched case-insensitively with the
 * attribute marker removed, and numbers are read from text.
 */
module XmlReader {
  import opened Results
  import opened Numbers
  import opened Strings
  import opened Values
  import opened Building
  import Normalize
  import JsonValidator

  const XmlPrefix := "BuildingModel XML: "

  function Fail<T>(path: string, what: string): (r: Result<T>)
    ensures r.Err? && r.error.FormatParseError?
  {
    FormatFailure(XmlPrefix + path + what)
  }

  predicate IsAttributeKey(key: string)
  {
    StartsWith(key, "@_")
  }

  /** `key.replace(/^@_/, "").toLowerCase()`. */
  function NormalizeKey(key: string): string
  {
    ToLower(if IsAttributeKey(key) then key[2..] else key)
  }

  // ---- findValue ---------------------------------------------------------------

  /** The position of the first field whose normalised name is among `names`, or |fields|. */
  function FindIndex(fields: seq<(string, Value)>, names: seq<string>): (i: nat)
    ensures i <= |fields|
    ensures i < |fields| ==> NormalizeKey(fields[i].0) in names
  {
    if fields == [] then 0
    else if NormalizeKey(fields[0].0) in names then 0
    else FindIndex(fields[1..], names) + 1
  }

  /** No field before the one found has a name among `names`. */
  lemma {:induction false} FindIndexFirst(fields: seq<(string, Value)>, names: seq<string>)
    ensures forall j :: 0 <= j < FindIndex(fields, names) ==> NormalizeKey(fields[j].0) !in names
  {
    if fields != [] && NormalizeKey(fields[0].0) !in names {
      FindIndexFirst(fields[1..], names);
      assert forall j :: 1 <= j < FindIndex(fields, names) ==> fields[j] == fields[1..][j - 1];
    }
  }

  /** `findValue`: the value of the first field whose normalised name is in `names`. */
  function FindValue(record: Value, names: seq<string>): (r: Option<Value>)
    requires record.JObj?
    ensures r.Some? ==> r.value < record
  {
    var i := FindIndex(record.fields, names);
    if i < |record.fields| then
      assert record.fields[i] in record.fields;
      Some(record.fields[i].1)
    else None
  }

  /**
   * A value is found exactly when some field has a matching name, and then
   * it is the value of the first such field.
   */
  lemma FindValueFirst(record: Value, names: seq<string>)
    requires record.JObj?
    ensures FindValue(record, names).None? <==>
      forall j :: 0 <= j < |record.fields| ==> NormalizeKey(record.fields[j].0) !in names
    ensures FindValue(record, names).Some? ==> exists i :: (0 <= i < |record.fields|
      && NormalizeKey(record.fields[i].0) in names && record.fields[i].1 == FindValue(record, names).value
      && forall j :: 0 <= j < i ==> NormalizeKey(record.fields[j].0) !in names)
  {
    FindIndexFirst(record.fields, names);
  }

  // ---- unboxSingleRecord -------------------------------------------------------

  /** The fields whose names are not attributes, in order. */
  function ElementFields(fields: seq<(string, Value)>): (r: seq<(string, Value)>)
    ensures |r| <= |fields|
  {
    if fields == [] then []
    else
      var rest := ElementFields(fields[1..]);
      if IsAttributeKey(fields[0].0) then rest else [fields[0]] + rest
  }

  /** The element fields are the fields, in order, whose names carry no attribute marker. */
  lemma {:induction false} ElementFieldsFrom(fields: seq<(string, Value)>)
    ensures forall f :: f in ElementFields(fields) <==> f in fields && !IsAttributeKey(f.0)
  {
    if fields != [] {
      ElementFieldsFrom(fields[1..]);
    }
  }

  /** A record with exactly one field that is not an attribute. */
  predicate SingleElementRecord(v: Value)
  {
    v.JObj? && |ElementFields(v.fields)| == 1
  }

  /**
   * The value under the one element field. Object keys are distinct, so
   * `current[keys[0]]` is that field's value.
   */
  function OnlyChild(v: Value): (c: Value)
    requires SingleElementRecord(v)
    ensures c < v
  {
    var f := ElementFields(v.fields)[0];
    ElementFieldsFrom(v.fields);
    assert f in v.fields;
    f.1
  }

  /** Descends into single-element records, at most `fuel` times. */
  function Unbox(v: Value, fuel: nat): (r: Value)
    ensures r == v || r < v
    ensures !SingleElementRecord(v) || fuel == 0 ==> r == v
    ensures fuel > 0 && SingleElementRecord(v) ==> r < v
  {
    if fuel == 0 || !SingleElementRecord(v) then v else Unbox(OnlyChild(v), fuel - 1)
  }

  /** Unboxing `a` steps and then `b` more is unboxing `a + b` steps. */
  lemma {:induction false} UnboxCompose(v: Value, a: nat, b: nat)
    ensures Unbox(Unbox(v, a), b) == Unbox(v, a + b)
  {
    if a > 0 && SingleElementRecord(v) {
      UnboxCompose(OnlyChild(v), a - 1, b);
    }
  }

  /** `unboxSingleRecord`: at most six descents through single-element records. */
  method UnboxSingleRecord(value: Value) returns (r: Value)
    ensures r == Unbox(value, 6)
  {
    var current := value;
    for i := 0 to 6
      invariant Unbox(current, 6 - i) == Unbox(value, 6)
    {
      if !IsRecord(current) {
        return current;
      }
      var keys := ElementFields(current.fields);
      if |keys| != 1 {
        return current;
      }
      current := OnlyChild(current);
    }
    return current;
  }

  // ---- scalar coercers -----------------------------------------------------------

  /** `toNumber`: a number, or text whose trimmed form converts. */
  function ToNumber(v: Option<Value>, path: string, parse: NumberParser): (r: Result<real>)
    ensures r.Ok? <==> v.Some? && (v.value.JNum? || (v.value.JStr? && parse(Trim(v.value.s)).Some?))
    ensures r.Ok? && v.value.JNum? ==> r.value == v.value.n
    ensures r.Err? ==> r.error.FormatParseError?
  {
    if v.Some? && v.value.JNum? then Ok(v.value.n)
    else if v.Some? && v.value.JStr? && parse(Trim(v.value.s)).Some? then Ok(parse(Trim(v.value.s)).value)
    else Fail(path, " must be a finite number.")
  }

  function ToInteger(v: Option<Value>, path: string, parse: NumberParser): (r: Result<real>)
    ensures r.Ok? <==> ToNumber(v, path, parse).Ok? && IsInteger(ToNumber(v, path, parse).value)
    ensures r.Ok? ==> r.value == ToNumber(v, path, parse).value
  {
    var n :- ToNumber(v, path, parse);
    if !IsInteger(n) then Fail(path, " must be an integer.") else Ok(n)
  }

  /** `toStringValue`: trimmed non-blank text, or a number rendered as text. */
  function ToStringValue(v: Option<Value>, path: string, fmt: NumberFormatter): (r: Result<string>)
    ensures r.Ok? <==> v.Some? && ((v.value.JStr? && Trim(v.value.s) != "") || v.value.JNum?)
    ensures r.Ok? && v.value.JStr? ==> r.value == Trim(v.value.s) && IsTrimmed(r.value)
  {
    if v.Some? && v.value.JStr? && Trim(v.value.s) != "" then
      TrimIsTrimmed(v.value.s);
      Ok(Trim(v.value.s))
    else if v.Some? && v.value.JNum? then Ok(fmt(v.value.n))
    else Fail(path, " must be a non-empty string.")
  }

  /** The text forms `toBooleanValue` accepts, after trimming and lower-casing. */
  function BooleanText(s: string): Option<bool>
  {
    var w := ToLower(Trim(s));
    if w == "true" || w == "1" then Some(true)
    else if w == "false" || w == "0" then Some(false)
    else None
  }

  /** `toBooleanValue`: a boolean, the number 0 or 1, or true/1/false/0 as text. */
  function ToBooleanValue(v: Option<Value>, path: string): (r: Result<bool>)
    ensures r.Ok? <==> (v.Some? && (v.value.JBool? || v.value == JNum(0.0) || v.value == JNum(1.0)
      || (v.value.JStr? && BooleanText(v.value.s).Some?)))
    ensures r.Ok? && v.value.JBool? ==> r.value == v.value.b
    ensures r.Ok? && v.value.JNum? ==> r.value == (v.value.n == 1.0)
    ensures r.Ok? && v.value.JStr? ==> r.value == BooleanText(v.value.s).value
  {
    if v.Some? && v.value.JBool? then Ok(v.value.b)
    else if v == Some(JNum(0.0)) then Ok(false)
    else if v == Some(JNum(1.0)) then Ok(true)
    else if v.Some? && v.value.JStr? && BooleanText(v.value.s).Some? then Ok(BooleanText(v.value.s).value)
    else Fail(path, " must be a boolean.")
  }

  function ToStructType(v: Option<Value>, path: string, fmt: NumberFormatter): (r: Result<StructType>)
    ensures r.Ok? <==> (ToStringValue(v, path, fmt).Ok? && ToStringValue(v, path, fmt).value in ["R", "DX"])
    ensures r.Ok? ==> (r.value == R <==> ToStringValue(v, path, fmt).value == "R")
  {
    var text :- ToStringValue(v, path, fmt);
    if text == "R" then Ok(R)
    else if text == "DX" then Ok(DX)
    else Fail(path, " must be \"R\" or \"DX\".")
  }

  function ToDirection(v: Option<Value>, path: string, fmt: NumberFormatter): (r: Result<Direction>)
    ensures r.Ok? <==> (ToStringValue(v, path, fmt).Ok? && ToStringValue(v, path, fmt).value in ["X", "Y"])
    ensures r.Ok? ==> (r.value == X <==> ToStringValue(v, path, fmt).value == "X")
  {
    var text :- ToStringValue(v, path, fmt);
    if text == "X" then Ok(X)
    else if text == "Y" then Ok(Y)
    else Fail(path, " must be \"X\" or \"Y\".")
  }

  // ---- number arrays ---------------------------------------------------------------

  /** The trimmed pieces that are not empty, in order. */
  function NonEmptyTrimmed(parts: seq<string>): (r: seq<string>)
    ensures |r| <= |parts|
    ensures forall t :: t in r ==> t != "" && exists p :: p in parts && t == Trim(p)
  {
    if parts == [] then []
    else
      var rest := NonEmptyTrimmed(parts[1..]);
      if Trim(parts[0]) == "" then rest else [Trim(parts[0])] + rest
  }

  /** The comma-separated tokens of a text list. */
  function CommaTokens(s: string): seq<string>
  {
    NonEmptyTrimmed(Split(s, ','))
  }

  function TextValues(tokens: seq<string>): (r: seq<Value>)
    ensures |r| == |tokens| && forall i :: 0 <= i < |tokens| ==> r[i] == JStr(tokens[i])
  {
    seq(|tokens|, i requires 0 <= i < |tokens| => JStr(tokens[i]))
  }

  function NumberItem(parse: NumberParser): (Value, string) -> Result<real>
  {
    (item: Value, path: string) => ToNumber(Some(item), path, parse)
  }

  /** `entries.map(([key, item]) => toNumber(item, label.key))` over the element fields. */
  function NumberEntries(entries: seq<(string, Value)>, path: string, parse: NumberParser): (r: Result<seq<real>>)
    ensures r.Ok? ==> |r.value| == |entries|
    ensures r.Ok? <==> forall i :: 0 <= i < |entries| ==> ToNumber(Some(entries[i].1), path + "." + entries[i].0, parse).Ok?
  {
    if entries == [] then Ok([])
    else
      var head :- ToNumber(Some(entries[0].1), path + "." + entries[0].0, parse);
      var tail :- NumberEntries(entries[1..], path, parse);
      Ok([head] + tail)
  }

  /**
   * `toNumberArray`: absent is empty; text is split on commas, with blank
   * tokens dropped; an array is read item by item; a record is read through
   * its value/item/n field, or else entry by entry; anything else is one number.
   */
  function ToNumberArray(v: Option<Value>, path: string, parse: NumberParser): (r: Result<seq<real>>)
    ensures v.None? ==> r == Ok([])
    ensures v.Some? && v.value.JStr? && r.Ok? ==> |r.value| == |CommaTokens(v.value.s)|
    ensures v.Some? && v.value.JArr? && r.Ok? ==> |r.value| == |v.value.items|
    decreases if v.Some? then v.value else JNull, v.Some?
  {
    if v.None? then Ok([])
    else
      var value := v.value;
      match value
      case JStr(s) => JsonValidator.MapItems(TextValues(CommaTokens(s)), path, NumberItem(parse))
      case JArr(items) => JsonValidator.MapItems(items, path, NumberItem(parse))
      case JObj(fields) =>
        var fromValue := FindValue(value, ["value", "item", "n"]);
        if fromValue.Some? then ToNumberArray(fromValue, path, parse)
        else
          var entries := ElementFields(fields);
          if |entries| > 0 then NumberEntries(entries, path, parse)
          else
            var n :- ToNumber(v, Normalize.Indexed(path, 0), parse);
            Ok([n])
      case _ =>
        var n :- ToNumber(v, Normalize.Indexed(path, 0), parse);
        Ok([n])
  }

  function ToNonEmptyNumberArray(v: Option<Value>, path: string, parse: NumberParser): (r: Result<seq<real>>)
    ensures r.Ok? ==> |r.value| > 0 && ToNumberArray(v, path, parse) == r
  {
    var values :- ToNumberArray(v, path, parse);
    if |values| == 0 then Fail(path, " must not be empty.") else Ok(values)
  }

  // ---- points ------------------------------------------------------------------------

  /** `parsePoint`: x and y fields, or else the first two element fields. */
  function ParsePoint(v: Option<Value>, path: string, parse: NumberParser): (r: Result<Point>)
    ensures r.Ok? ==> v.Some? && IsRecord(v.value)
    ensures r.Ok? && FindValue(v.value, ["x"]).Some? && FindValue(v.value, ["y"]).Some? ==>
      ToNumber(FindValue(v.value, ["x"]), path + ".x", parse) == Ok(r.value.x)
      && ToNumber(FindValue(v.value, ["y"]), path + ".y", parse) == Ok(r.value.y)
  {
    if v.None? || !IsRecord(v.value) then Fail(path, " must be an object.")
    else
      var record := v.value;
      var x := FindValue(record, ["x"]);
      var y := FindValue(record, ["y"]);
      if x.Some? && y.Some? then
        var px :- ToNumber(x, path + ".x", parse);
        var py :- ToNumber(y, path + ".y", parse);
        Ok(Point(px, py))
      else
        var values := ElementFields(record.fields);
        if |values| >= 2 then
          var px :- ToNumber(Some(values[0].1), path + ".x", parse);
          var py :- ToNumber(Some(values[1].1), path + ".y", parse);
          Ok(Point(px, py))
        else Fail(path, " must have x and y.")
  }

  function PointItem(parse: NumberParser): (Value, string) -> Result<Point>
  {
    (item: Value, path: string) => ParsePoint(Some(item), path, parse)
  }

  const PointKeys := ["point", "pos", "position", "item", "value", "p"]

  /** `findValue(value, pointKeys) ?? value`: `None` when the fallback to the record itself applies. */
  function PointsChild(record: Value): (r: Option<Value>)
    requires record.JObj?
    ensures r.Some? ==> r.value < record
  {
    var found := FindValue(record, PointKeys);
    if found.None? || found.value == JNull then None else found
  }

  /** `parsePointArray` on anything but a record: absent is empty, an array is read point by point. */
  function PointsNotInRecord(v: Option<Value>, path: string, parse: NumberParser): (r: Result<seq<Point>>)
    requires !(v.Some? && v.value.JObj?)
    ensures v.None? ==> r == Ok([])
    ensures v.Some? && v.value.JArr? && r.Ok? ==> |r.value| == |v.value.items|
    ensures v.Some? && !v.value.JArr? ==> r.Err?
  {
    if v.None? then Ok([])
    else if v.value.JArr? then JsonValidator.MapItems(v.value.items, path, PointItem(parse))
    else Fail(Normalize.Indexed(path, 0), " must be an object.")
  }

  /** `[parsePoint(value, label[0])]`. */
  function SinglePoint(record: Value, path: string, parse: NumberParser): (r: Result<seq<Point>>)
    ensures r.Ok? ==> |r.value| == 1 && ParsePoint(Some(record), Normalize.Indexed(path, 0), parse) == Ok(r.value[0])
  {
    var p :- ParsePoint(Some(record), Normalize.Indexed(path, 0), parse);
    Ok([p])
  }

  /**
   * `parsePointArray` with the one change that a record holding no point
   * list is read as a single point. As written, such a record without both
   * x and y is handed back to `parsePointArray` unchanged, and the call
   * never returns (see `PointArrayStep`).
   */
  function ParsePointArray(v: Option<Value>, path: string, parse: NumberParser): (r: Result<seq<Point>>)
    ensures v.None? ==> r == Ok([])
    ensures v.Some? && v.value.JArr? && r.Ok? ==> |r.value| == |v.value.items|
    ensures v.Some? && !v.value.JArr? && !v.value.JObj? ==> r.Err?
    decreases if v.Some? then v.value else JNull, v.Some?
  {
    if v.Some? && v.value.JObj? then
      var points := PointsChild(v.value);
      if points.None? then SinglePoint(v.value, path, parse)
      else ParsePointArray(points, path, parse)
    else PointsNotInRecord(v, path, parse)
  }

  /** The record has both an x and a y field. */
  predicate HasXY(record: Value)
    requires record.JObj?
  {
    FindValue(record, ["x"]).Some? && FindValue(record, ["y"]).Some?
  }

  /** One call of `parsePointArray` as written: it returns, or calls itself on `next`. */
  datatype PointStep = Returns(result: Result<seq<Point>>) | Recurses(next: Option<Value>)

  function PointArrayStep(v: Option<Value>, path: string, parse: NumberParser): PointStep
  {
    if v.Some? && v.value.JObj? then
      var points := PointsChild(v.value);
      if points.None? && HasXY(v.value) then Returns(SinglePoint(v.value, path, parse))
      else Recurses(if points.None? then v else points)
    else Returns(PointsNotInRecord(v, path, parse))
  }

  /** A name with no attribute marker and no capital letter is its own normalised name. */
  lemma PlainKey(key: string)
    requires |key| > 0 && key[0] != '@'
    requires forall i :: 0 <= i < |key| ==> !('A' <= key[i] <= 'Z')
    ensures NormalizeKey(key) == key
  {
    assert !IsAttributeKey(key) by {
      if |key| >= 2 {
        assert key[..2][0] == key[0];
      }
    }
  }

  /** The record read from `<pos><px>1</px><py>2</py></pos>`. */
  const UnnamedPoint := JObj([("px", JStr("1")), ("py", JStr("2"))])

  /** `UnnamedPoint` holds no point list and has neither an x nor a y field. */
  lemma UnnamedPointKeys()
    ensures PointsChild(UnnamedPoint).None? && !HasXY(UnnamedPoint)
    ensures ElementFields(UnnamedPoint.fields) == UnnamedPoint.fields
  {
    PlainKey("px");
    PlainKey("py");
    assert FindIndex(UnnamedPoint.fields, PointKeys) == 2;
    assert FindIndex(UnnamedPoint.fields, ["x"]) == 2;
    assert !IsAttributeKey("px") && !IsAttributeKey("py");
  }

  /**
   * On `UnnamedPoint` the code as written calls itself with its own
   * argument, so it never returns.
   */
  lemma PointArrayCallsItself(path: string, parse: NumberParser)
    ensures PointArrayStep(Some(UnnamedPoint), path, parse) == Recurses(Some(UnnamedPoint))
  {
    UnnamedPointKeys();
  }

  /** The corrected reader reads `UnnamedPoint` as one point. */
  lemma PointArrayReadsRecordAsPoint(path: string, parse: NumberParser)
    requires parse("1") == Some(1.0) && parse("2") == Some(2.0)
    ensures ParsePointArray(Some(UnnamedPoint), path, parse) == Ok([Point(1.0, 2.0)])
  {
    UnnamedPointKeys();
    UnnamedPointParses(Normalize.Indexed(path, 0), parse);
  }

  lemma UnnamedPointParses(path: string, parse: NumberParser)
    requires parse("1") == Some(1.0) && parse("2") == Some(2.0)
    ensures ParsePoint(Some(UnnamedPoint), path, parse) == Ok(Point(1.0, 2.0))
  {
    UnnamedPointKeys();
    var values := ElementFields(UnnamedPoint.fields);
    assert values[0].1 == JStr("1") && values[1].1 == JStr("2");
    DigitText("1", path + ".x", parse);
    DigitText("2", path + ".y", parse);
    PointFromElements(UnnamedPoint, path, parse, 1.0, 2.0);
  }

  /** A record without both x and y is read from its first two element fields. */
  lemma PointFromElements(record: Value, path: string, parse: NumberParser, px: real, py: real)
    requires record.JObj? && !HasXY(record) && |ElementFields(record.fields)| >= 2
    requires ToNumber(Some(ElementFields(record.fields)[0].1), path + ".x", parse) == Ok(px)
    requires ToNumber(Some(ElementFields(record.fields)[1].1), path + ".y", parse) == Ok(py)
    ensures ParsePoint(Some(record), path, parse) == Ok(Point(px, py))
  {
  }

  /** A number written as one digit is read through the number parser unchanged. */
  lemma DigitText(s: string, path: string, parse: NumberParser)
    requires |s| == 1 && '0' <= s[0] <= '9' && parse(s).Some?
    ensures ToNumber(Some(JStr(s)), path, parse) == Ok(parse(s).value)
  {
    assert !IsWhitespace(s[0]);
    assert IsTrimmed(s);
    TrimmedFixpoint(s);
    assert Trim(s) == s;
  }

  /**
   * Each step of the code as written that returns gives the corrected result, and
   * each step that recurses on a different value keeps it; a step that recurses on
   * its own argument is a record without a point list and without x and y.
   */
  lemma PointStepSound(v: Option<Value>, path: string, parse: NumberParser)
    ensures PointArrayStep(v, path, parse).Returns? ==> ParsePointArray(v, path, parse) == PointArrayStep(v, path, parse).result
    ensures PointArrayStep(v, path, parse).Recurses? && PointArrayStep(v, path, parse).next != v ==>
      ParsePointArray(v, path, parse) == ParsePointArray(PointArrayStep(v, path, parse).next, path, parse)
    ensures PointArrayStep(v, path, parse) == Recurses(v) <==>
      (v.Some? && v.value.JObj? && PointsChild(v.value).None? && !HasXY(v.value))
  {
    if v.Some? && v.value.JObj? && PointsChild(v.value).Some? {
      assert PointsChild(v.value).value < v.value;
    }
  }

  // ---- readCollection ------------------------------------------------------------

  /** `toValueArray`. */
  function ValueArray(v: Option<Value>): (r: seq<Value>)
    ensures v.None? ==> r == []
    ensures v.Some? && v.value.JArr? ==> r == v.value.items
    ensures v.Some? && !v.value.JArr? ==> r == [v.value]
  {
    if v.None? then [] else if v.value.JArr? then v.value.items else [v.value]
  }

  /**
   * `readCollection`: the container found under `containerKeys`, as a list
   * of items: nothing for an absent, null or blank container, the array
   * itself, the item(s) under `itemKeys`, or the container alone.
   */
  function ReadCollection(parent: Value, containerKeys: seq<string>, itemKeys: seq<string>): (r: seq<Value>)
    requires parent.JObj?
    ensures var c := FindValue(parent, containerKeys);
      (c.None? || c.value == JNull || (c.value.JStr? && Trim(c.value.s) == "") ==> r == [])
      && (c.Some? && c.value.JArr? ==> r == c.value.items)
      && (c.Some? && c.value.JObj? && FindValue(c.value, itemKeys).Some? ==> r == ValueArray(FindValue(c.value, itemKeys)))
      && (c.Some? && c.value.JObj? && FindValue(c.value, itemKeys).None? ==> r == [c.value])
      && (c.Some? && (c.value.JBool? || c.value.JNum? || (c.value.JStr? && Trim(c.value.s) != "")) ==> r == [c.value])
  {
    var container := FindValue(parent, containerKeys);
    if container.None? then []
    else if container.value == JNull then []
    else if container.value.JStr? && Trim(container.value.s) == "" then []
    else if container.value.JArr? then container.value.items
    else if container.value.JObj? then
      var itemValue := FindValue(container.value, itemKeys);
      if itemValue.Some? then ValueArray(itemValue) else [container.value]
    else [container.value]
  }

  // ---- elements ----------------------------------------------------------------------

  function ParseStructInfo(modelNode: Value, parse: NumberParser, fmt: NumberFormatter): (r: Result<StructInfo>)
    requires modelNode.JObj?
    ensures r.Ok? ==> |r.value.zLevel| > 0 && |r.value.weight| > 0 && |r.value.wMoment| > 0
    ensures r.Ok? ==> IsInteger(r.value.massN)
  {
    var structRaw := FindValue(modelNode, ["structinfo", "struct"]);
    if structRaw.None? || !IsRecord(structRaw.value) then FormatFailure(XmlPrefix + "structInfo is required.")
    else
      var s := structRaw.value;
      var massN :- ToInteger(FindValue(s, ["massn"]), "structInfo.massN", parse);
      var sType :- ToStructType(FindValue(s, ["stype"]), "structInfo.sType", fmt);
      var zLevel :- ToNonEmptyNumberArray(FindValue(s, ["zlevel"]), "structInfo.zLevel", parse);
      var weight :- ToNonEmptyNumberArray(FindValue(s, ["weight"]), "structInfo.weight", parse);
      var wMoment :- ToNonEmptyNumberArray(FindValue(s, ["wmoment"]), "structInfo.wMoment", parse);
      var wCenter :- ParsePointArray(FindValue(s, ["wcenter"]), "structInfo.wCenter", parse);
      Ok(StructInfo(massN, sType, zLevel, weight, wMoment, wCenter))
  }

  function ParseFloor(item: Value, path: string, parse: NumberParser): (r: Result<Floor>)
    ensures r.Ok? ==> IsRecord(item) && IsInteger(r.value.layer)
  {
    if !IsRecord(item) then Fail(path, " must be an object.")
    else
      var layer :- ToInteger(FindValue(item, ["layer"]), path + ".layer", parse);
      var pos :- ParsePointArray(FindValue(item, ["pos", "points", "polygon"]), path + ".pos", parse);
      Ok(Floor(layer, pos))
  }

  function ParseColumn(item: Value, path: string, parse: NumberParser): (r: Result<Column>)
    ensures r.Ok? ==> IsRecord(item) && IsInteger(r.value.layer)
  {
    if !IsRecord(item) then Fail(path, " must be an object.")
    else
      var layer :- ToInteger(FindValue(item, ["layer"]), path + ".layer", parse);
      var pos :- ParsePoint(FindValue(item, ["pos", "point", "position"]), path + ".pos", parse);
      var kx :- ToNumber(FindValue(item, ["kx"]), path + ".kx", parse);
      var ky :- ToNumber(FindValue(item, ["ky"]), path + ".ky", parse);
      Ok(Column(layer, pos, kx, ky))
  }

  function ParseWallChara(item: Value, path: string, parse: NumberParser, fmt: NumberFormatter): (r: Result<WallChara>)
    ensures r.Ok? ==> IsRecord(item)
    ensures r.Ok? && FindValue(item, ["memo"]).None? ==> r.value.memo == ""
  {
    if !IsRecord(item) then Fail(path, " must be an object.")
    else
      var name :- ToStringValue(FindValue(item, ["name"]), path + ".name", fmt);
      var k :- ToNumber(FindValue(item, ["k"]), path + ".k", parse);
      var h :- ToNumber(FindValue(item, ["h"]), path + ".h", parse);
      var c :- ToNumber(FindValue(item, ["c"]), path + ".c", parse);
      var effectK :- ToBooleanValue(FindValue(item, ["iseigeneffectk"]), path + ".isEigenEffectK");
      var unitChara :- ToBooleanValue(FindValue(item, ["iskcunitchara"]), path + ".isKCUnitChara");
      var memo :- if FindValue(item, ["memo"]).None? then Ok("")
        else ToStringValue(FindValue(item, ["memo"]), path + ".memo", fmt);
      Ok(WallChara(name, k, h, c, effectK, unitChara, memo))
  }

  function WallPoints(item: Value, path: string, parse: NumberParser): Result<seq<Point>>
    requires IsRecord(item)
  {
    ParsePointArray(FindValue(item, ["pos", "points"]), path + ".pos", parse)
  }

  /** `parseWalls` for one item: the point list is read first and must hold exactly two points. */
  function ParseWall(item: Value, path: string, parse: NumberParser, fmt: NumberFormatter): (r: Result<Wall>)
    ensures r.Ok? ==> IsRecord(item)
    ensures r.Ok? ==> WallPoints(item, path, parse) == Ok([r.value.start, r.value.end])
    ensures (IsRecord(item) && WallPoints(item, path, parse).Ok? && |WallPoints(item, path, parse).value| != 2) ==> r.Err?
  {
    if !IsRecord(item) then Fail(path, " must be an object.")
    else
      var points :- WallPoints(item, path, parse);
      if |points| != 2 then Fail(path, ".pos must contain exactly 2 points.")
      else
        assert points == [points[0], points[1]];
        WallWithEnds(item, path, points[0], points[1], parse, fmt)
  }

  /** The rest of a wall item, once its two end points are read. */
  function WallWithEnds(item: Value, path: string, start: Point, end: Point, parse: NumberParser, fmt: NumberFormatter): (r: Result<Wall>)
    requires IsRecord(item)
    ensures r.Ok? ==> r.value.start == start && r.value.end == end && IsInteger(r.value.layer)
  {
    var name :- ToStringValue(FindValue(item, ["name"]), path + ".name", fmt);
    var layer :- ToInteger(FindValue(item, ["layer"]), path + ".layer", parse);
    var visible :- ToBooleanValue(FindValue(item, ["isvisible"]), path + ".isVisible");
    Ok(Wall(name, layer, start, end, visible))
  }

  function ParseMassDamper(item: Value, path: string, parse: NumberParser, fmt: NumberFormatter): (r: Result<MassDamper>)
    ensures r.Ok? ==> IsRecord(item) && IsInteger(r.value.layer)
  {
    if !IsRecord(item) then Fail(path, " must be an object.")
    else
      var name :- ToStringValue(FindValue(item, ["name"]), path + ".name", fmt);
      var layer :- ToInteger(FindValue(item, ["layer"]), path + ".layer", parse);
      var pos :- ParsePoint(FindValue(item, ["pos", "point"]), path + ".pos", parse);
      var weight :- ToNumber(FindValue(item, ["weight"]), path + ".weight", parse);
      var freq :- ParsePoint(FindValue(item, ["freq"]), path + ".freq", parse);
      var h :- ParsePoint(FindValue(item, ["h"]), path + ".h", parse);
      Ok(MassDamper(name, layer, pos, weight, freq, h))
  }

  function ParseBraceDamper(item: Value, path: string, parse: NumberParser, fmt: NumberFormatter): (r: Result<BraceDamper>)
    ensures r.Ok? ==> IsRecord(item) && IsInteger(r.value.layer)
  {
    if !IsRecord(item) then Fail(path, " must be an object.")
    else
      var layer :- ToInteger(FindValue(item, ["layer"]), path + ".layer", parse);
      var pos :- ParsePoint(FindValue(item, ["pos", "point"]), path + ".pos", parse);
      var direct :- ToDirection(FindValue(item, ["direct", "direction"]), path + ".direct", fmt);
      var k :- ToNumber(FindValue(item, ["k"]), path + ".k", parse);
      var c :- ToNumber(FindValue(item, ["c"]), path + ".c", parse);
      var width :- ToNumber(FindValue(item, ["width"]), path + ".width", parse);
      var height :- ToNumber(FindValue(item, ["height"]), path + ".height", parse);
      var lightPos :- ToBooleanValue(FindValue(item, ["islightpos"]), path + ".isLightPos");
      var effectK :- ToBooleanValue(FindValue(item, ["iseigeneffectk"]), path + ".isEigenEffectK");
      Ok(BraceDamper(layer, pos, direct, k, c, width, height, lightPos, effectK))
  }

  function ParseDXPanel(item: Value, path: string, parse: NumberParser, fmt: NumberFormatter): (r: Result<DXPanel>)
    ensures r.Ok? ==> IsRecord(item) && IsInteger(r.value.layer)
  {
    if !IsRecord(item) then Fail(path, " must be an object.")
    else
      var layer :- ToInteger(FindValue(item, ["layer"]), path + ".layer", parse);
      var direct :- ToDirection(FindValue(item, ["direct", "direction"]), path + ".direct", fmt);
      var pos :- ParsePointArray(FindValue(item, ["pos", "points"]), path + ".pos", parse);
      var k :- ToNumber(FindValue(item, ["k"]), path + ".k", parse);
      Ok(DXPanel(layer, direct, pos, k))
  }

  /** `parseModel`: unbox, then read every collection of the model record. */
  function ParseModel(modelNode: Value, parse: NumberParser, fmt: NumberFormatter): (r: Result<BuildingModel>)
    ensures r.Ok? ==> r.value.structInfo.Some? && IsRecord(Unbox(modelNode, 6))
  {
    var node := Unbox(modelNode, 6);
    if !IsRecord(node) then FormatFailure(XmlPrefix + "model must be an object.")
    else
      var structInfo :- ParseStructInfo(node, parse, fmt);
      var floors :- JsonValidator.MapItems(ReadCollection(node, ["floors", "floorlist"], ["floor", "item"]), "floors",
        (item: Value, path: string) => ParseFloor(item, path, parse));
      var columns :- JsonValidator.MapItems(ReadCollection(node, ["columns", "columnlist"], ["column", "item"]), "columns",
        (item: Value, path: string) => ParseColumn(item, path, parse));
      var charas :- JsonValidator.MapItems(ReadCollection(node, ["wallcharadb", "wallcharas"], ["wallchara", "item"]), "wallCharaDB",
        (item: Value, path: string) => ParseWallChara(item, path, parse, fmt));
      var walls :- JsonValidator.MapItems(ReadCollection(node, ["walls", "walllist"], ["wall", "item"]), "walls",
        (item: Value, path: string) => ParseWall(item, path, parse, fmt));
      var massDampers :- JsonValidator.MapItems(ReadCollection(node, ["massdampers", "massdamperlist"], ["massdamper", "item"]), "massDampers",
        (item: Value, path: string) => ParseMassDamper(item, path, parse, fmt));
      var braceDampers :- JsonValidator.MapItems(ReadCollection(node, ["bracedampers", "bracedamperlist"], ["bracedamper", "item"]), "braceDampers",
        (item: Value, path: string) => ParseBraceDamper(item, path, parse, fmt));
      var dxPanels :- JsonValidator.MapItems(ReadCollection(node, ["dxpanels", "dxpanellist"], ["dxpanel", "item"]), "dxPanels",
        (item: Value, path: string) => ParseDXPanel(item, path, parse, fmt));
      Ok(BuildingModel(Some(structInfo), floors, columns, charas, walls, massDampers, braceDampers, dxPanels))
  }

  // ---- envelope ------------------------------------------------------------------------

  const ModelLikeKeys := ["structinfo", "floors", "columns", "wallcharadb", "walls", "massdampers", "bracedampers", "dxpanels"]

  /** A record with a field named like one of the model's collections. */
  predicate ModelLike(v: Value)
  {
    v.JObj? && exists j :: 0 <= j < |v.fields| && NormalizeKey(v.fields[j].0) in ModelLikeKeys
  }

  /** `findModelLikeNode`: the first model-like record in a depth-first walk through field values and array items. */
  function Walk(v: Value): (r: Option<Value>)
    ensures r.Some? ==> ModelLike(r.value)
    ensures ModelLike(v) ==> r == Some(v)
    ensures !v.JObj? ==> r.None?
    decreases v, 1, 0
  {
    if !v.JObj? then None
    else if FindIndex(v.fields, ModelLikeKeys) < |v.fields| then Some(v)
    else if (FindIndexFirst(v.fields, ModelLikeKeys); false) then None
    else WalkFields(v, 0)
  }

  function WalkFields(v: Value, i: nat): (r: Option<Value>)
    requires v.JObj? && i <= |v.fields|
    ensures r.Some? ==> ModelLike(r.value)
    decreases v, 0, |v.fields| - i
  {
    if i == |v.fields| then None
    else
      var child := v.fields[i].1;
      assert v.fields[i] in v.fields;
      var found := if child.JArr? then WalkItems(child, 0) else Walk(child);
      if found.Some? then found else WalkFields(v, i + 1)
  }

  function WalkItems(a: Value, j: nat): (r: Option<Value>)
    requires a.JArr? && j <= |a.items|
    ensures r.Some? ==> ModelLike(r.value)
    decreases a, 0, |a.items| - j
  {
    if j == |a.items| then None
    else
      var found := Walk(a.items[j]);
      if found.Some? then found else WalkItems(a, j + 1)
  }

  datatype Envelope = Envelope(format: Option<string>, version: Option<real>, modelNode: Value)

  /** JavaScript falsiness of a parsed value. */
  predicate Falsy(v: Value)
  {
    v == JNull || v == JBool(false) || v == JNum(0.0) || v == JStr("")
  }

  /**
   * `parseEnvelope`: the (unboxed) root must be a record; the model is its
   * model field, or else the first model-like record inside it.
   */
  function ParseEnvelope(rawRoot: Value, parse: NumberParser, fmt: NumberFormatter): (r: Result<Envelope>)
    ensures r.Ok? ==> !Falsy(r.value.modelNode)
    ensures r.Ok? ==> var root := if IsRecord(Unbox(rawRoot, 6)) then Unbox(rawRoot, 6) else rawRoot;
      IsRecord(root) && (FindValue(root, ["format"]).None? <==> r.value.format.None?)
      && (FindValue(root, ["version"]).None? <==> r.value.version.None?)
  {
    var unboxed := Unbox(rawRoot, 6);
    var root := if IsRecord(unboxed) then unboxed else rawRoot;
    if !IsRecord(root) then FormatFailure(XmlPrefix + "root must be an object.")
    else
      var format := FindValue(root, ["format"]);
      var version := FindValue(root, ["version"]);
      var explicitModel := FindValue(root, ["model"]);
      var modelNode := if explicitModel.Some? then explicitModel else Walk(root);
      if modelNode.None? || Falsy(modelNode.value) then
        FormatFailure(XmlPrefix + "model section was not found.")
      else
        var f :- if format.None? then Ok(None) else
          var t :- ToStringValue(format, "format", fmt); Ok(Some(t));
        var ver :- if version.None? then Ok(None) else
          var n :- ToInteger(version, "version", parse); Ok(Some(n));
        Ok(Envelope(f, ver, modelNode.value))
  }

  /** A format or version that is present must equal the constants; absent ones are accepted. */
  function CheckEnvelope(e: Envelope): (r: Result<()>)
    ensures r.Ok? <==> ((e.format.None? || e.format.value == JsonValidator.FORMAT)
      && (e.version.None? || e.version.value == JsonValidator.VERSION))
  {
    if e.format.Some? && e.format.value != JsonValidator.FORMAT then
      FormatFailure(XmlPrefix + "format must be \"" + JsonValidator.FORMAT + "\".")
    else if e.version.Some? && e.version.value != JsonValidator.VERSION then
      FormatFailure(XmlPrefix + "version must be 1.")
    else Ok(())
  }

  /** `parseBuildingModelXml` after the XML parser: envelope, constant checks, model, normalisation. */
  function ParseBuildingModelXml(rawRoot: Value, parse: NumberParser, fmt: NumberFormatter): (r: Result<BuildingModel>)
    ensures r.Ok? ==> ParseEnvelope(rawRoot, parse, fmt).Ok? && CheckEnvelope(ParseEnvelope(rawRoot, parse, fmt).value).Ok?
    ensures r.Ok? ==> Normalize.ValidModel(r.value)
  {
    var envelope :- ParseEnvelope(rawRoot, parse, fmt);
    var _ :- CheckEnvelope(envelope);
    var m :- ParseModel(envelope.modelNode, parse, fmt);
    var n :- Normalize.NormalizeBuildingModel(m);
    Normalize.NormalizeAcceptsValid(m);
    Normalize.NormalizeAcceptsValid(n);
    Normalize.NormalizeIdempotent(m, n);
    Ok(n)
  }

  // ---- relation to the JSON reader -----------------------------------------------------

  /** Every value the JSON reader takes as a boolean, the XML reader takes as the same boolean. */
  lemma BooleanExtendsJson(v: Option<Value>, path: string, jsonPath: string)
    requires JsonValidator.ToBoolean(v, jsonPath).Ok?
    ensures ToBooleanValue(v, path) == JsonValidator.ToBoolean(v, jsonPath)
  {
    if v.value.JStr? {
      TextExtendsWord(v.value.s);
    }
  }

  /** A word the JSON reader takes as a boolean reads as the same boolean here. */
  lemma TextExtendsWord(s: string)
    requires JsonValidator.BooleanWord(s).Some?
    ensures BooleanText(s) == JsonValidator.BooleanWord(s)
  {
    var w := ToLower(Trim(s));
    assert w == "true" || w == "false";
    assert |w| > 1;
  }

  /** The XML reader reads a number list written as the JSON writer writes it. */
  lemma NumbersReadJsonTree(s: seq<real>, path: string, parse: NumberParser)
    ensures ToNumberArray(Some(JsonValidator.NumbersValue(s)), path, parse) == Ok(s)
  {
    var enc := (x: real) => JNum(x);
    assert JsonValidator.NumbersValue(s) == JsonValidator.ListValue(s, enc);
    JsonValidator.MapEncoded(s, enc, path, NumberItem(parse), 0);
  }

  /** The XML reader reads a point written as the JSON writer writes it. */
  lemma PointReadsJsonTree(p: Point, path: string, parse: NumberParser)
    ensures ParsePoint(Some(JsonValidator.PointValue(p)), path, parse) == Ok(p)
  {
    var v := JsonValidator.PointValue(p);
    PlainKey("x");
    PlainKey("y");
    assert FindIndex(v.fields, ["x"]) == 0;
    assert FindIndex(v.fields, ["y"]) == 1;
  }

  /** The XML reader reads a point list written as the JSON writer writes it. */
  lemma PointsReadJsonTree(s: seq<Point>, path: string, parse: NumberParser)
    ensures ParsePointArray(Some(JsonValidator.PointsValue(s)), path, parse) == Ok(s)
  {
    forall i | 0 <= i < |s|
      ensures PointItem(parse)(JsonValidator.PointValue(s[i]), Normalize.Indexed(path, i)) == Ok(s[i])
    {
      PointReadsJsonTree(s[i], Normalize.Indexed(path, i), parse);
    }
    assert JsonValidator.PointsValue(s) == JsonValidator.ListValue(s, JsonValidator.PointValue);
    JsonValidator.MapEncoded(s, JsonValidator.PointValue, path, PointItem(parse), 0);
  }

  /** On numbers the two readers agree. */
  lemma NumberAgreesWithJson(n: real, path: string, jsonPath: string, parse: NumberParser)
    ensures ToNumber(Some(JNum(n)), path, parse) == JsonValidator.ToFiniteNumber(Some(JNum(n)), jsonPath, parse)
  {
  }
}
