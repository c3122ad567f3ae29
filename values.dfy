/*
 * The trees that `JSON.parse` and the XML parser hand to the building-model
 * readers. A record keeps its fields in insertion order; reading a missing
 * field gives `None`, JavaScript's `undefined`.
 */
module Values {
  import opened Results
  import opened Numbers

  datatype Value =
    | JNull
    | JBool(b: bool)
    | JNum(n: real)
    | JStr(s: string)
    | JArr(items: seq<Value>)
    | JObj(fields: seq<(string, Value)>)

  /** `typeof v === "object" && v !== null && !Array.isArray(v)`. */
  predicate IsRecord(v: Value)
  {
    v.JObj?
  }

  /** The value stored under `key` in a field list: the first field so named. */
  function Lookup(fields: seq<(string, Value)>, key: string): Option<Value>
  {
    if fields == [] then None
    else if fields[0].0 == key then Some(fields[0].1)
    else Lookup(fields[1..], key)
  }

  /** A lookup finds a value exactly when some field has the name, and what it finds is a field's value. */
  lemma {:induction false} LookupFound(fields: seq<(string, Value)>, key: string)
    ensures Lookup(fields, key).Some? <==> exists i :: 0 <= i < |fields| && fields[i].0 == key
    ensures Lookup(fields, key).Some? ==> exists i :: 0 <= i < |fields| && fields[i] == (key, Lookup(fields, key).value)
  {
    if fields != [] && fields[0].0 != key {
      LookupFound(fields[1..], key);
      if Lookup(fields, key).Some? {
        var i :| 0 <= i < |fields[1..]| && fields[1..][i] == (key, Lookup(fields, key).value);
        assert fields[i + 1] == (key, Lookup(fields, key).value);
      }
      if exists i :: 0 <= i < |fields| && fields[i].0 == key {
        var i :| 0 <= i < |fields| && fields[i].0 == key;
        assert fields[1..][i - 1].0 == key;
      }
    }
  }

  /** `record[key]` on a record, `undefined` on anything else. */
  function Get(v: Value, key: string): Option<Value>
  {
    if v.JObj? then Lookup(v.fields, key) else None
  }

  /** `Object.prototype.hasOwnProperty.call(v, key)`. */
  predicate HasOwn(v: Value, key: string)
  {
    v.JObj? && exists i :: 0 <= i < |v.fields| && v.fields[i].0 == key
  }

  lemma LookupSmaller(v: Value, key: string)
    requires v.JObj? && Lookup(v.fields, key).Some?
    ensures Lookup(v.fields, key).value < v
  {
    LookupFound(v.fields, key);
    var i :| 0 <= i < |v.fields| && v.fields[i] == (key, Lookup(v.fields, key).value);
    assert v.fields[i] in v.fields;
  }

  /** `Number(v)`, `None` standing for NaN and `undefined` for a missing value. */
  function NumberOf(v: Option<Value>, parse: NumberParser): Option<real>
  {
    if v.Some? then ValueNumber(v.value, parse) else None
  }

  /**
   * `Number(v)` on a JSON value. Text goes through the number parser. An
   * array is converted through its text, the comma-joined texts of its
   * items: the empty array is 0, an array of one item is the number of that
   * item's text (empty for `null`, so 0; `"true"`/`"false"` and
   * `"[object Object]"` are no number), and two or more items are no number.
   */
  function ValueNumber(v: Value, parse: NumberParser): Option<real>
    decreases v
  {
    match v
    case JNull => Some(0.0)
    case JBool(b) => Some(if b then 1.0 else 0.0)
    case JNum(n) => Some(n)
    case JStr(s) => parse(s)
    case JObj(_) => None
    case JArr(items) =>
      if items == [] then Some(0.0)
      else if |items| > 1 then None
      else
        assert items[0] in items;
        match items[0]
        case JNull => Some(0.0)
        case JBool(_) => None
        case JObj(_) => None
        case _ => ValueNumber(items[0], parse)
  }

  /** Arrays as numbers: `Number([]) == 0`, `Number([x]) == x`, `Number(["t"]) == Number("t")`, `Number([a, b])` is NaN. */
  lemma ArrayNumbers(items: seq<Value>, n: real, s: string, parse: NumberParser)
    ensures NumberOf(Some(JArr([])), parse) == Some(0.0)
    ensures NumberOf(Some(JArr([JNum(n)])), parse) == Some(n)
    ensures NumberOf(Some(JArr([JStr(s)])), parse) == parse(s)
    ensures NumberOf(Some(JArr([JNull])), parse) == Some(0.0)
    ensures NumberOf(Some(JArr([JBool(true)])), parse) == None
    ensures |items| >= 2 ==> NumberOf(Some(JArr(items)), parse) == None
  {
    assert ValueNumber(JNum(n), parse) == Some(n);
    assert ValueNumber(JStr(s), parse) == parse(s);
  }

  /** The field at position `i` is the one found when no earlier field has its name. */
  lemma {:induction false} LookupFirst(fields: seq<(string, Value)>, i: nat)
    requires i < |fields|
    requires forall j :: 0 <= j < i ==> fields[j].0 != fields[i].0
    ensures Lookup(fields, fields[i].0) == Some(fields[i].1)
  {
    if i > 0 {
      LookupFirst(fields[1..], i - 1);
    }
  }

  lemma FieldAt(v: Value, i: nat)
    requires v.JObj? && i < |v.fields|
    requires forall j :: 0 <= j < i ==> v.fields[j].0 != v.fields[i].0
    ensures Get(v, v.fields[i].0) == Some(v.fields[i].1)
  {
    LookupFirst(v.fields, i);
  }

  lemma {:induction false} LookupAbsent(fields: seq<(string, Value)>, key: string)
    requires forall j :: 0 <= j < |fields| ==> fields[j].0 != key
    ensures Lookup(fields, key) == None
  {
    if fields != [] {
      assert fields[0].0 != key;
      LookupAbsent(fields[1..], key);
    }
  }
}
