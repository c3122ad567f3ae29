/*
 * The model editor's text form (src/app/modelEditorState.ts).
 *
 * The editor shows a building model as thirteen fields: the story count, the
 * structure type and, for every list of the model, a text with one element
 * per line and the element's values separated by commas. Reading a form
 * checks each line's token count, integer layers, X/Y directions and
 * true/false/1/0 flags, stops at the first error, and finally passes the
 * raw model through the JSON writer and reader, so that the result is a
 * normalised model. Writing a model back into a form and reading it again
 * gives the normalised model.
 */
module EditorForm {
  import opened Results
  import opened Numbers
  import opened Strings
  import opened Text
  import opened Building
  import opened ModalWrite
  import opened ModalRoundTrip
  import opened Values
  import Normalize
  import JsonValidator

  datatype ModelEditorFormData = ModelEditorFormData(
    massN: string,
    structType: StructType,
    zLevel: string,
    weight: string,
    wMoment: string,
    wCenter: string,
    floors: string,
    columns: string,
    wallCharas: string,
    walls: string,
    massDampers: string,
    braceDampers: string,
    dxPanels: string)

  // ---- lines ------------------------------------------------------------------------

  /**
   * `toLines`: the lines of a field, trimmed, without the empty ones.
   * Splitting at "\n" and trimming drops the "\r" of a "\r\n" break as the
   * split at /\r?\n/ in modelEditorState.ts does.
   */
  function ToLines(text: string): (r: seq<string>)
    ensures forall k :: 0 <= k < |r| ==> r[k] != "" && IsTrimmed(r[k])
  {
    AllTrimmed(Split(text, '\n'));
    NonEmpty(TrimAll(Split(text, '\n')))
  }

  lemma {:induction false} NonEmptyKeepsAll(lines: seq<string>)
    requires forall k :: 0 <= k < |lines| ==> lines[k] != ""
    ensures NonEmpty(lines) == lines
  {
    if lines != [] {
      NonEmptyKeepsAll(lines[1..]);
    }
  }

  /** An empty field has no lines. */
  lemma NoLines()
    ensures ToLines("") == []
  {
    assert Split("", '\n') == [""];
    assert TrimAll([""]) == [""];
  }

  /** Non-empty trimmed lines without breaks, joined by "\n", are split back into themselves. */
  lemma LinesOfJoin(lines: seq<string>)
    requires forall k :: 0 <= k < |lines| ==> lines[k] != "" && IsTrimmed(lines[k]) && '\n' !in lines[k]
    ensures ToLines(Join(lines, "\n")) == lines
  {
    if lines == [] {
      NoLines();
    } else {
      assert "\n" == ['\n'];
      SplitJoin(lines, '\n');
      forall k | 0 <= k < |lines|
        ensures Trim(lines[k]) == lines[k]
      {
        TrimmedFixpoint(lines[k]);
      }
      assert TrimAll(lines) == lines;
      NonEmptyKeepsAll(lines);
    }
  }

  /** A text that can stand as one comma-separated cell of a line. */
  predicate Cell(s: string)
  {
    IsTrimmed(s) && ',' !in s && '\n' !in s
  }

  /** A name the form can hold: a non-empty cell. */
  predicate NameCell(s: string)
  {
    s != "" && Cell(s)
  }

  /** A memo the form can hold: no line break, and every comma-separated piece (so the memo too) trimmed. */
  predicate MemoCell(memo: string)
  {
    '\n' !in memo && IsTrimmed(memo)
    && forall k :: 0 <= k < |Split(memo, ',')| ==> IsTrimmed(Split(memo, ',')[k])
  }

  lemma NumeralCell(fmt: NumberFormatter, x: real)
    requires WritesNumerals(fmt)
    ensures fmt(x) != "" && Cell(fmt(x))
  {
    Formatted(fmt, x);
    assert !NumeralChar('\n');
  }

  /** A line of two or more trimmed cells joined by commas is itself trimmed and not empty. */
  lemma {:induction false} JoinTrimmed(cells: seq<string>)
    requires |cells| >= 2
    requires forall k :: 0 <= k < |cells| ==> IsTrimmed(cells[k])
    ensures Join(cells, ",") != "" && IsTrimmed(Join(cells, ","))
  {
    var rest := cells[1..];
    JoinCons(cells[0], rest, ",");
    assert cells == [cells[0]] + rest;
    var tail := Join(rest, ",");
    if |rest| >= 2 {
      JoinTrimmed(rest);
    } else {
      assert tail == rest[0];
    }
    var s := cells[0] + "," + tail;
    assert s[0] == if cells[0] == "" then ',' else cells[0][0];
    assert s[|s| - 1] == if tail == "" then ',' else tail[|tail| - 1];
  }

  /** What a line needs to survive being joined into a field: non-empty, trimmed, no break. */
  predicate LineCell(s: string)
  {
    s != "" && IsTrimmed(s) && '\n' !in s
  }

  /** A line of two or more cells joined by commas. */
  lemma CellsLine(cells: seq<string>)
    requires |cells| >= 2
    requires forall k :: 0 <= k < |cells| ==> IsTrimmed(cells[k]) && '\n' !in cells[k]
    ensures LineCell(Join(cells, ","))
  {
    JoinTrimmed(cells);
    JoinLacks(cells, ",", '\n');
  }

  // ---- toCsvTokens, parseBooleanToken, parsePointPair ----------------------------------

  /** `parseBooleanToken`: true/false or 1/0, in any letter case. */
  function ParseBooleanToken(token: string, tag: string): (r: Result<bool>)
    ensures r == Ok(true) <==> ToLower(token) == "true" || ToLower(token) == "1"
    ensures r == Ok(false) <==> ToLower(token) == "false" || ToLower(token) == "0"
    ensures r.Err? ==> r == FormatFailure(tag + ": boolean value must be true/false or 1/0.")
  {
    var normalized := ToLower(token);
    if normalized == "true" || normalized == "1" then Ok(true)
    else if normalized == "false" || normalized == "0" then Ok(false)
    else FormatFailure(tag + ": boolean value must be true/false or 1/0.")
  }

  /** `String(b)` for a flag. */
  function BoolText(b: bool): string
  {
    if b then "true" else "false"
  }

  lemma LowerWords()
    ensures ToLower("true") == "true" && ToLower("false") == "false"
  {
    assert ToLower("true") == ['t', 'r', 'u', 'e'];
    assert ToLower("false") == ['f', 'a', 'l', 's', 'e'];
  }

  /** A written flag reads back as itself. */
  lemma BoolReadsBack(b: bool, tag: string)
    ensures ParseBooleanToken(BoolText(b), tag) == Ok(b)
    ensures Cell(BoolText(b)) && BoolText(b) != ""
  {
    var text := BoolText(b);
    LowerWords();
    if b {
      assert ParseBooleanToken("true", tag) == Ok(true);
    } else {
      assert ParseBooleanToken("false", tag) == Ok(false);
    }
    BoolCell(b);
  }

  lemma BoolCell(b: bool)
    ensures Cell(BoolText(b)) && BoolText(b) != ""
  {
    var text := BoolText(b);
    assert text[0] in "tf" && text[|text| - 1] == 'e';
    assert !IsWhitespace(text[0]) && !IsWhitespace(text[|text| - 1]);
  }

  lemma LowerIdempotent(s: string)
    ensures ToLower(ToLower(s)) == ToLower(s)
  {
  }

  /** Letter case does not matter: a token reads as its lower-case form does ("TRUE" as "true"). */
  lemma BooleanIgnoresCase(token: string, tag: string)
    ensures ParseBooleanToken(token, tag) == ParseBooleanToken(ToLower(token), tag)
  {
    LowerIdempotent(token);
  }

  /** `parsePointPair`: the numbers at `i` and `i + 1`. */
  function PointPair(tokens: seq<string>, i: nat, tag: string, parse: NumberParser): (r: Result<Point>)
    requires i + 1 < |tokens|
    ensures r.Ok? <==> parse(tokens[i]).Some? && parse(tokens[i + 1]).Some?
    ensures r.Ok? ==> r.value == Point(parse(tokens[i]).value, parse(tokens[i + 1]).value)
  {
    var x :- ParseNumberToken(tokens[i], tag + ".x", parse);
    var y :- ParseNumberToken(tokens[i + 1], tag + ".y", parse);
    Ok(Point(x, y))
  }

  /** The direction a token names, if it is "X" or "Y". */
  function ParseDirection(token: string): (r: Option<Direction>)
    ensures r.Some? <==> token == "X" || token == "Y"
    ensures r.Some? ==> DirectionText(r.value) == token
  {
    if token == "X" then Some(X) else if token == "Y" then Some(Y) else None
  }

  lemma DirectionReadsBack(d: Direction)
    ensures ParseDirection(DirectionText(d)) == Some(d)
    ensures Cell(DirectionText(d)) && DirectionText(d) != ""
  {
    assert !IsWhitespace('X') && !IsWhitespace('Y');
  }

  // ---- reading every line, first error wins -------------------------------------------

  /** `items.map(read)` where `read` may throw: the values, or the error of the first item that fails. */
  function ParseEach<T>(items: seq<string>, read: (string, nat) -> Result<T>): (r: Result<seq<T>>)
    ensures r.Ok? ==> |r.value| == |items|
    ensures r.Ok? ==> forall k :: 0 <= k < |items| ==> read(items[k], k) == Ok(r.value[k])
  {
    if items == [] then Ok([])
    else
      var init :- ParseEach(items[..|items| - 1], read);
      var x :- read(items[|items| - 1], |items| - 1);
      Ok(init + [x])
  }

  /** When every item reads, the result is the list of their values. */
  lemma {:induction false} ParseEachAll<T>(items: seq<string>, read: (string, nat) -> Result<T>, xs: seq<T>)
    requires |xs| == |items|
    requires forall k :: 0 <= k < |items| ==> read(items[k], k) == Ok(xs[k])
    ensures ParseEach(items, read) == Ok(xs)
  {
    if items != [] {
      var n := |items| - 1;
      ParseEachAll(items[..n], read, xs[..n]);
      assert xs == xs[..n] + [xs[n]];
    }
  }

  /** A failure is the failure of some item, all of whose predecessors read. */
  lemma {:induction false} ParseEachFirstError<T>(items: seq<string>, read: (string, nat) -> Result<T>)
    requires ParseEach(items, read).Err?
    ensures exists k :: (0 <= k < |items| && read(items[k], k).Err?
      && ParseEach(items, read).error == read(items[k], k).error
      && forall j :: 0 <= j < k ==> read(items[j], j).Ok?)
  {
    var n := |items| - 1;
    var init := ParseEach(items[..n], read);
    if init.Err? {
      ParseEachFirstError(items[..n], read);
      var k :| 0 <= k < n && read(items[..n][k], k).Err?
        && init.error == read(items[..n][k], k).error
        && forall j :: 0 <= j < k ==> read(items[..n][j], j).Ok?;
      assert items[..n][k] == items[k];
      assert forall j :: 0 <= j < k ==> items[..n][j] == items[j];
    } else {
      assert forall j :: 0 <= j < n ==> items[..n][j] == items[j];
    }
  }

  // ---- value lists -----------------------------------------------------------------

  function IndexTag(tag: string, k: nat): string
  {
    tag + "[" + NatToString(k) + "]"
  }

  function NumberReader(tag: string, parse: NumberParser): (string, nat) -> Result<real>
  {
    (token: string, k: nat) => ParseNumberToken(token, IndexTag(tag, k), parse)
  }

  /** `parseNumberListText`: the non-empty tokens, each a number; an empty list is an error. */
  function ParseNumberListText(text: string, tag: string, parse: NumberParser): (r: Result<seq<real>>)
  {
    NumberTokens(NonEmpty(SplitCsvLikeLine(text)), tag, parse)
  }

  /** The numbers of the non-empty tokens, labelled by index, or the error for an empty list. */
  function NumberTokens(tokens: seq<string>, tag: string, parse: NumberParser): (r: Result<seq<real>>)
    ensures tokens == [] ==> r == FormatFailure(tag + ": value list is empty.")
    ensures r.Ok? ==> |r.value| == |tokens| >= 1
    ensures r.Ok? ==> forall k :: 0 <= k < |tokens| ==> parse(tokens[k]) == Some(r.value[k])
  {
    if tokens == [] then FormatFailure(tag + ": value list is empty.")
    else ParseEach(tokens, NumberReader(tag, parse))
  }

  /** The tokens of a written list of numbers are the written numbers. */
  lemma NumbersTokens(xs: seq<real>, fmt: NumberFormatter)
    requires WritesNumerals(fmt) && |xs| >= 1
    ensures NonEmpty(SplitCsvLikeLine(NumbersText(xs, fmt))) == Cells(xs, fmt)
  {
    var cells := Cells(xs, fmt);
    NumbersCells(xs, fmt);
    forall k | 0 <= k < |cells|
      ensures cells[k] != ""
    {
      Formatted(fmt, xs[k]);
    }
    NonEmptyKeepsAll(cells);
  }

  lemma CellsReadBack(xs: seq<real>, tag: string, fmt: NumberFormatter, parse: NumberParser)
    requires ReadsBack(fmt, parse) && |xs| >= 1
    ensures NumberTokens(Cells(xs, fmt), tag, parse) == Ok(xs)
  {
    var cells := Cells(xs, fmt);
    forall k | 0 <= k < |cells|
      ensures NumberReader(tag, parse)(cells[k], k) == Ok(xs[k])
    {
      ReadBack(fmt, parse, xs[k]);
    }
    ParseEachAll(cells, NumberReader(tag, parse), xs);
  }

  /** A written non-empty list of numbers reads back as itself. */
  lemma NumbersReadBack(xs: seq<real>, tag: string, fmt: NumberFormatter, parse: NumberParser)
    requires WritesNumerals(fmt) && ReadsBack(fmt, parse)
    requires |xs| >= 1
    ensures ParseNumberListText(NumbersText(xs, fmt), tag, parse) == Ok(xs)
  {
    NumbersTokens(xs, fmt);
    CellsReadBack(xs, tag, fmt, parse);
  }

  // ---- wCenter ---------------------------------------------------------------------

  /** One wCenter line: exactly two numbers. */
  function WCenterLine(t: seq<string>, k: nat, parse: NumberParser): (r: Result<Point>)
    ensures r.Ok? ==> |t| == 2 && parse(t[0]) == Some(r.value.x) && parse(t[1]) == Some(r.value.y)
    ensures |t| != 2 ==> r == FormatFailure("wCenter line " + NatToString(k + 1) + ": expected 2 values (x,y).")
  {
    if |t| != 2 then FormatFailure("wCenter line " + NatToString(k + 1) + ": expected 2 values (x,y).")
    else
      var x :- ParseNumberToken(t[0], IndexTag("wCenter", k) + ".x", parse);
      var y :- ParseNumberToken(t[1], IndexTag("wCenter", k) + ".y", parse);
      Ok(Point(x, y))
  }

  function WCenterReader(parse: NumberParser): (string, nat) -> Result<Point>
  {
    (line: string, k: nat) => WCenterLine(SplitCsvLikeLine(line), k, parse)
  }

  // ---- the point loops of floors and dxPanels ------------------------------------------

  /** The points of `tokens[i..]`, a pair at a time; `start` is where the first pair is, for the labels. */
  function PointsFrom(tokens: seq<string>, start: nat, i: nat, tag: string, parse: NumberParser): (r: Result<seq<Point>>)
    requires start <= i <= |tokens| && (|tokens| - i) % 2 == 0
    ensures r.Ok? ==> |tokens| - i == 2 * |r.value|
    decreases |tokens| - i
  {
    if i == |tokens| then Ok([])
    else
      var p :- PointPair(tokens, i, IndexTag(tag, (i - start) / 2), parse);
      var rest :- PointsFrom(tokens, start, i + 2, tag, parse);
      Ok([p] + rest)
  }

  /** `done` followed by what `rest` reads, or the failure of `rest`. */
  function After(done: seq<Point>, rest: Result<seq<Point>>): Result<seq<Point>>
  {
    if rest.Ok? then Ok(done + rest.value) else rest
  }

  /** The `for (let i = start; i < tokens.length; i += 2)` loop pushing one point per pair. */
  method ParsePoints(tokens: seq<string>, start: nat, tag: string, parse: NumberParser) returns (r: Result<seq<Point>>)
    requires start <= |tokens| && (|tokens| - start) % 2 == 0
    ensures r == PointsFrom(tokens, start, start, tag, parse)
  {
    var pos: seq<Point> := [];
    var i := start;
    assert After(pos, PointsFrom(tokens, start, i, tag, parse)) == PointsFrom(tokens, start, i, tag, parse) by {
      if PointsFrom(tokens, start, i, tag, parse).Ok? {
        assert [] + PointsFrom(tokens, start, i, tag, parse).value == PointsFrom(tokens, start, i, tag, parse).value;
      }
    }
    while i < |tokens|
      invariant start <= i <= |tokens| && (|tokens| - i) % 2 == 0
      invariant PointsFrom(tokens, start, start, tag, parse) == After(pos, PointsFrom(tokens, start, i, tag, parse))
      decreases |tokens| - i
    {
      EvenStep(|tokens| - i);
      var p := PointPair(tokens, i, IndexTag(tag, (i - start) / 2), parse);
      PointsStep(tokens, start, i, tag, parse, pos);
      if p.Err? {
        return p.PropagateFailure();
      }
      pos := pos + [p.value];
      i := i + 2;
    }
    assert pos + [] == pos;
    return Ok(pos);
  }

  /** A positive even count leaves an even count after one pair. */
  lemma EvenStep(a: int)
    requires a > 0 && a % 2 == 0
    ensures a >= 2 && (a - 2) % 2 == 0
  {
  }

  /** One pass of the point loop: a pair that fails ends the loop with its error, one that reads is pushed. */
  lemma PointsStep(tokens: seq<string>, start: nat, i: nat, tag: string, parse: NumberParser, pos: seq<Point>)
    requires start <= i < |tokens| && (|tokens| - i) % 2 == 0
    ensures var p := PointPair(tokens, i, IndexTag(tag, (i - start) / 2), parse);
      (p.Err? ==> After(pos, PointsFrom(tokens, start, i, tag, parse)) == Err(p.error))
      && (p.Ok? ==> After(pos, PointsFrom(tokens, start, i, tag, parse)) == After(pos + [p.value], PointsFrom(tokens, start, i + 2, tag, parse)))
  {
    var p := PointPair(tokens, i, IndexTag(tag, (i - start) / 2), parse);
    var rest := PointsFrom(tokens, start, i + 2, tag, parse);
    if p.Ok? && rest.Ok? {
      assert PointsFrom(tokens, start, i, tag, parse) == Ok([p.value] + rest.value);
      assert pos + ([p.value] + rest.value) == (pos + [p.value]) + rest.value;
    }
  }

  /** The coordinates of points, x then y, as the writer lays them out. */
  function CoordTexts(pos: seq<Point>, fmt: NumberFormatter): (r: seq<string>)
    ensures |r| == 2 * |pos|
  {
    if pos == [] then [] else [fmt(pos[0].x), fmt(pos[0].y)] + CoordTexts(pos[1..], fmt)
  }

  /** Written coordinates read back as the points. */
  lemma {:induction false} PointsReadBack(tokens: seq<string>, start: nat, i: nat, pos: seq<Point>, tag: string,
                                          fmt: NumberFormatter, parse: NumberParser)
    requires ReadsBack(fmt, parse)
    requires start <= i <= |tokens| && tokens[i..] == CoordTexts(pos, fmt)
    ensures (|tokens| - i) % 2 == 0 && PointsFrom(tokens, start, i, tag, parse) == Ok(pos)
    decreases |pos|
  {
    if pos != [] {
      var rest := CoordTexts(pos[1..], fmt);
      assert tokens[i..] == [fmt(pos[0].x), fmt(pos[0].y)] + rest;
      assert tokens[i] == tokens[i..][0] && tokens[i + 1] == tokens[i..][1];
      assert tokens[i + 2..] == tokens[i..][2..];
      ReadBack(fmt, parse, pos[0].x);
      ReadBack(fmt, parse, pos[0].y);
      PointsReadBack(tokens, start, i + 2, pos[1..], tag, fmt, parse);
      assert pos == [pos[0]] + pos[1..];
    } else {
      assert |tokens[i..]| == 0;
    }
  }

  lemma {:induction false} CoordCells(pos: seq<Point>, fmt: NumberFormatter)
    requires WritesNumerals(fmt)
    ensures forall k :: 0 <= k < |CoordTexts(pos, fmt)| ==> CoordTexts(pos, fmt)[k] != "" && Cell(CoordTexts(pos, fmt)[k])
  {
    if pos != [] {
      NumeralCell(fmt, pos[0].x);
      NumeralCell(fmt, pos[0].y);
      CoordCells(pos[1..], fmt);
    }
  }

  // ---- one line per element -----------------------------------------------------------

  function LineTag(section: string, k: nat): string
  {
    section + " line " + NatToString(k + 1)
  }

  function FieldTag(section: string, k: nat, field: string): string
  {
    IndexTag(section, k) + "." + field
  }

  /** A floors line: layer,x1,y1,x2,y2,x3,y3,... with an integer layer and at least three points. */
  function FloorLine(t: seq<string>, k: nat, parse: NumberParser): (r: Result<Floor>)
    ensures r.Ok? ==> (|t| == 1 + 2 * |r.value.pos| && |r.value.pos| >= 3
        && parse(t[0]) == Some(r.value.layer) && IsInteger(r.value.layer))
    ensures (|t| < 7 || (|t| - 1) % 2 != 0) ==> r == FormatFailure(LineTag("floors", k) + ": format is layer,x1,y1,x2,y2,x3,y3,...")
  {
    if |t| < 7 || (|t| - 1) % 2 != 0 then
      FormatFailure(LineTag("floors", k) + ": format is layer,x1,y1,x2,y2,x3,y3,...")
    else
      var layer :- ParseNumberToken(t[0], FieldTag("floors", k, "layer"), parse);
      if !IsInteger(layer) then FormatFailure(FieldTag("floors", k, "layer") + " must be an integer.")
      else
        var pos :- PointsFrom(t, 1, 1, FieldTag("floors", k, "pos"), parse);
        Ok(Floor(layer, pos))
  }

  /** A columns line: exactly layer,x,y,kx,ky with an integer layer. */
  function ColumnLine(t: seq<string>, k: nat, parse: NumberParser): (r: Result<Column>)
    ensures r.Ok? ==> |t| == 5 && parse(t[0]) == Some(r.value.layer) && IsInteger(r.value.layer)
    ensures |t| != 5 ==> r == FormatFailure(LineTag("columns", k) + ": format is layer,x,y,kx,ky")
  {
    if |t| != 5 then FormatFailure(LineTag("columns", k) + ": format is layer,x,y,kx,ky")
    else
      var layer :- ParseNumberToken(t[0], FieldTag("columns", k, "layer"), parse);
      if !IsInteger(layer) then FormatFailure(FieldTag("columns", k, "layer") + " must be an integer.")
      else
        var pos :- PointPair(t, 1, FieldTag("columns", k, "pos"), parse);
        var kx :- ParseNumberToken(t[3], FieldTag("columns", k, "kx"), parse);
        var ky :- ParseNumberToken(t[4], FieldTag("columns", k, "ky"), parse);
        Ok(Column(layer, pos, kx, ky))
  }

  /** A wallCharas line: name,k,h,c,isEigenEffectK,isKCUnitChara and a memo made of every later token. */
  function WallCharaLine(t: seq<string>, k: nat, parse: NumberParser): (r: Result<WallChara>)
    ensures r.Ok? ==> |t| >= 6 && r.value.name == t[0] && r.value.memo == Join(t[6..], ",")
    ensures |t| < 6 ==>
      r == FormatFailure(LineTag("wallCharas", k) + ": format is name,k,h,c,isEigenEffectK,isKCUnitChara[,memo]")
  {
    if |t| < 6 then
      FormatFailure(LineTag("wallCharas", k) + ": format is name,k,h,c,isEigenEffectK,isKCUnitChara[,memo]")
    else
      var kv :- ParseNumberToken(t[1], FieldTag("wallCharaDB", k, "k"), parse);
      var h :- ParseNumberToken(t[2], FieldTag("wallCharaDB", k, "h"), parse);
      var c :- ParseNumberToken(t[3], FieldTag("wallCharaDB", k, "c"), parse);
      var eigen :- ParseBooleanToken(t[4], FieldTag("wallCharaDB", k, "isEigenEffectK"));
      var unit :- ParseBooleanToken(t[5], FieldTag("wallCharaDB", k, "isKCUnitChara"));
      Ok(WallChara(t[0], kv, h, c, eigen, unit, Join(t[6..], ",")))
  }

  /** A walls line: exactly layer,name,x1,y1,x2,y2,isVisible with an integer layer. */
  function WallLine(t: seq<string>, k: nat, parse: NumberParser): (r: Result<Wall>)
    ensures r.Ok? ==> |t| == 7 && r.value.name == t[1] && parse(t[0]) == Some(r.value.layer) && IsInteger(r.value.layer)
    ensures |t| != 7 ==>
      r == FormatFailure(LineTag("walls", k) + ": format is layer,name,x1,y1,x2,y2,isVisible")
  {
    if |t| != 7 then FormatFailure(LineTag("walls", k) + ": format is layer,name,x1,y1,x2,y2,isVisible")
    else
      var layer :- ParseNumberToken(t[0], FieldTag("walls", k, "layer"), parse);
      if !IsInteger(layer) then FormatFailure(FieldTag("walls", k, "layer") + " must be an integer.")
      else
        var start :- PointPair(t, 2, FieldTag("walls", k, "start"), parse);
        var end :- PointPair(t, 4, FieldTag("walls", k, "end"), parse);
        var visible :- ParseBooleanToken(t[6], FieldTag("walls", k, "isVisible"));
        Ok(Wall(t[1], layer, start, end, visible))
  }

  /** A massDampers line: exactly name,layer,x,y,weight,freqX,freqY,hX,hY with an integer layer. */
  function MassDamperLine(t: seq<string>, k: nat, parse: NumberParser): (r: Result<MassDamper>)
    ensures r.Ok? ==> |t| == 9 && r.value.name == t[0] && parse(t[1]) == Some(r.value.layer) && IsInteger(r.value.layer)
    ensures |t| != 9 ==>
      r == FormatFailure(LineTag("massDampers", k) + ": format is name,layer,x,y,weight,freqX,freqY,hX,hY")
  {
    if |t| != 9 then FormatFailure(LineTag("massDampers", k) + ": format is name,layer,x,y,weight,freqX,freqY,hX,hY")
    else
      var layer :- ParseNumberToken(t[1], FieldTag("massDampers", k, "layer"), parse);
      if !IsInteger(layer) then FormatFailure(FieldTag("massDampers", k, "layer") + " must be an integer.")
      else
        var pos :- PointPair(t, 2, FieldTag("massDampers", k, "pos"), parse);
        var weight :- ParseNumberToken(t[4], FieldTag("massDampers", k, "weight"), parse);
        var freq :- PointPair(t, 5, FieldTag("massDampers", k, "freq"), parse);
        var h :- PointPair(t, 7, FieldTag("massDampers", k, "h"), parse);
        Ok(MassDamper(t[0], layer, pos, weight, freq, h))
  }

  /** A braceDampers line: exactly ten tokens, an integer layer and direct X or Y. */
  function BraceDamperLine(t: seq<string>, k: nat, parse: NumberParser): (r: Result<BraceDamper>)
    ensures r.Ok? ==> (|t| == 10 && parse(t[0]) == Some(r.value.layer) && IsInteger(r.value.layer)
        && t[3] == DirectionText(r.value.direct))
    ensures |t| != 10 ==>
      r == FormatFailure(LineTag("braceDampers", k) + ": format is layer,x,y,direct,k,c,width,height,isLightPos,isEigenEffectK")
  {
    if |t| != 10 then
      FormatFailure(LineTag("braceDampers", k) + ": format is layer,x,y,direct,k,c,width,height,isLightPos,isEigenEffectK")
    else
      var layer :- ParseNumberToken(t[0], FieldTag("braceDampers", k, "layer"), parse);
      if !IsInteger(layer) then FormatFailure(FieldTag("braceDampers", k, "layer") + " must be an integer.")
      else if ParseDirection(t[3]).None? then FormatFailure(FieldTag("braceDampers", k, "direct") + " must be X or Y.")
      else
        var pos :- PointPair(t, 1, FieldTag("braceDampers", k, "pos"), parse);
        var kv :- ParseNumberToken(t[4], FieldTag("braceDampers", k, "k"), parse);
        var c :- ParseNumberToken(t[5], FieldTag("braceDampers", k, "c"), parse);
        var width :- ParseNumberToken(t[6], FieldTag("braceDampers", k, "width"), parse);
        var height :- ParseNumberToken(t[7], FieldTag("braceDampers", k, "height"), parse);
        var light :- ParseBooleanToken(t[8], FieldTag("braceDampers", k, "isLightPos"));
        var eigen :- ParseBooleanToken(t[9], FieldTag("braceDampers", k, "isEigenEffectK"));
        Ok(BraceDamper(layer, pos, ParseDirection(t[3]).value, kv, c, width, height, light, eigen))
  }

  /**
   * The bound `parseDXPanels` tests: a dxPanels line of fewer than eight
   * tokens is refused, and with the parity rule the fewest it accepts are
   * nine tokens, three points.
   */
  const PANEL_TOKENS_AS_WRITTEN: nat := 8
  /** The fewest tokens of a panel with two points, the least the normaliser accepts. */
  const PANEL_TOKENS: nat := 7

  /** A dxPanels line, `least` being the fewest tokens accepted: layer,direct,k,x1,y1,... */
  function PanelLineWith(least: nat, t: seq<string>, k: nat, parse: NumberParser): (r: Result<DXPanel>)
    requires least >= 3
    ensures r.Ok? ==> (|t| >= least && |t| == 3 + 2 * |r.value.pos| && parse(t[0]) == Some(r.value.layer)
        && IsInteger(r.value.layer) && t[1] == DirectionText(r.value.direct))
    ensures (|t| < least || (|t| - 3) % 2 != 0) ==> r == FormatFailure(LineTag("dxPanels", k) + ": format is layer,direct,k,x1,y1,x2,y2,...")
  {
    if |t| < least || (|t| - 3) % 2 != 0 then
      FormatFailure(LineTag("dxPanels", k) + ": format is layer,direct,k,x1,y1,x2,y2,...")
    else
      var layer :- ParseNumberToken(t[0], FieldTag("dxPanels", k, "layer"), parse);
      if !IsInteger(layer) then FormatFailure(FieldTag("dxPanels", k, "layer") + " must be an integer.")
      else if ParseDirection(t[1]).None? then FormatFailure(FieldTag("dxPanels", k, "direct") + " must be X or Y.")
      else
        var pos :- PointsFrom(t, 3, 3, FieldTag("dxPanels", k, "pos"), parse);
        var kv :- ParseNumberToken(t[2], FieldTag("dxPanels", k, "k"), parse);
        Ok(DXPanel(layer, ParseDirection(t[1]).value, pos, kv))
  }

  /** The dxPanels line as `parseDXPanels` reads it: eight tokens at least and an odd count, so three points or more. */
  function PanelLineAsWritten(t: seq<string>, k: nat, parse: NumberParser): (r: Result<DXPanel>)
    ensures r.Ok? ==> |r.value.pos| >= 3
  {
    PanelLineWith(PANEL_TOKENS_AS_WRITTEN, t, k, parse)
  }

  /** The dxPanels line read with the corrected bound: at least seven tokens, so at least two points. */
  function PanelLine(t: seq<string>, k: nat, parse: NumberParser): (r: Result<DXPanel>)
    ensures r.Ok? ==> |r.value.pos| >= 2
  {
    PanelLineWith(PANEL_TOKENS, t, k, parse)
  }

  function FloorReader(parse: NumberParser): (string, nat) -> Result<Floor>
  {
    (line: string, k: nat) => FloorLine(SplitCsvLikeLine(line), k, parse)
  }

  function ColumnReader(parse: NumberParser): (string, nat) -> Result<Column>
  {
    (line: string, k: nat) => ColumnLine(SplitCsvLikeLine(line), k, parse)
  }

  function WallCharaReader(parse: NumberParser): (string, nat) -> Result<WallChara>
  {
    (line: string, k: nat) => WallCharaLine(SplitCsvLikeLine(line), k, parse)
  }

  function WallReader(parse: NumberParser): (string, nat) -> Result<Wall>
  {
    (line: string, k: nat) => WallLine(SplitCsvLikeLine(line), k, parse)
  }

  function MassDamperReader(parse: NumberParser): (string, nat) -> Result<MassDamper>
  {
    (line: string, k: nat) => MassDamperLine(SplitCsvLikeLine(line), k, parse)
  }

  function BraceDamperReader(parse: NumberParser): (string, nat) -> Result<BraceDamper>
  {
    (line: string, k: nat) => BraceDamperLine(SplitCsvLikeLine(line), k, parse)
  }

  function PanelReader(parse: NumberParser): (string, nat) -> Result<DXPanel>
  {
    (line: string, k: nat) => PanelLine(SplitCsvLikeLine(line), k, parse)
  }

  // ---- buildModelFromEditorForm ---------------------------------------------------------

  /** The structure information of a form: massN an integer of at least 1, then the value lists in order. */
  function FormStructInfo(form: ModelEditorFormData, parse: NumberParser): (r: Result<StructInfo>)
    ensures r.Ok? ==> (parse(form.massN) == Some(r.value.massN) && IsInteger(r.value.massN) && r.value.massN >= 1.0
      && r.value.sType == form.structType)
  {
    var massN :- ParseNumberToken(form.massN, "structInfo.massN", parse);
    if !IsInteger(massN) || massN < 1.0 then FormatFailure("structInfo.massN must be an integer >= 1.")
    else
      var zLevel :- ParseNumberListText(form.zLevel, "structInfo.zLevel", parse);
      var weight :- ParseNumberListText(form.weight, "structInfo.weight", parse);
      var wMoment :- ParseNumberListText(form.wMoment, "structInfo.wMoment", parse);
      var wCenter :- ParseEach(ToLines(form.wCenter), WCenterReader(parse));
      Ok(StructInfo(massN, form.structType, zLevel, weight, wMoment, wCenter))
  }

  /** The raw model of a form, before it goes through the JSON writer and reader. */
  function FormModel(form: ModelEditorFormData, parse: NumberParser): (r: Result<BuildingModel>)
    ensures r.Ok? ==> r.value.structInfo.Some? && FormStructInfo(form, parse) == Ok(r.value.structInfo.value)
  {
    var info :- FormStructInfo(form, parse);
    var floors :- ParseEach(ToLines(form.floors), FloorReader(parse));
    var columns :- ParseEach(ToLines(form.columns), ColumnReader(parse));
    var charas :- ParseEach(ToLines(form.wallCharas), WallCharaReader(parse));
    var walls :- ParseEach(ToLines(form.walls), WallReader(parse));
    var massDampers :- ParseEach(ToLines(form.massDampers), MassDamperReader(parse));
    var braceDampers :- ParseEach(ToLines(form.braceDampers), BraceDamperReader(parse));
    var panels :- ParseEach(ToLines(form.dxPanels), PanelReader(parse));
    Ok(BuildingModel(Some(info), floors, columns, charas, walls, massDampers, braceDampers, panels))
  }

  /**
   * `buildModelFromEditorForm`: the raw model, written as a JSON document
   * and read back, which normalises it. The text in between (JSON.stringify
   * and JSON.parse) is not modelled: the document tree is passed on.
   */
  function BuildModelFromEditorForm(form: ModelEditorFormData, parse: NumberParser): Result<BuildingModel>
  {
    var raw :- FormModel(form, parse);
    var doc :- JsonValidator.SerializeBuildingModelJson(raw);
    JsonValidator.ParseBuildingModelJson(doc, parse)
  }

  /** `modelEditorFormToJson`: the document of the model the form builds. */
  function ModelEditorFormToJson(form: ModelEditorFormData, parse: NumberParser): Result<Value>
  {
    var model :- BuildModelFromEditorForm(form, parse);
    JsonValidator.SerializeBuildingModelJson(model)
  }

  /** A built model is valid and already normalised, and so is what the form writes to JSON. */
  lemma BuiltModelNormalised(form: ModelEditorFormData, parse: NumberParser)
    ensures var r := BuildModelFromEditorForm(form, parse);
      r.Ok? ==> (Normalize.NormalizeBuildingModel(r.value) == Ok(r.value) && Normalize.ValidModel(r.value)
        && ModelEditorFormToJson(form, parse) == Ok(JsonValidator.DocumentValue(r.value)))
  {
    var r := BuildModelFromEditorForm(form, parse);
    if r.Ok? {
      var raw := FormModel(form, parse).value;
      var doc := JsonValidator.SerializeBuildingModelJson(raw).value;
      var read := JsonValidator.ParseBuildingModelDocument(doc, parse).value;
      assert Normalize.NormalizeBuildingModel(read) == r;
      Normalize.NormalizeIdempotent(read, r.value);
      Normalize.NormalizeAcceptsValid(r.value);
    }
  }

  /** The story count is checked first: it must read as an integer of at least 1. */
  lemma MassNRule(form: ModelEditorFormData, parse: NumberParser)
    ensures BuildModelFromEditorForm(form, parse).Ok? ==>
      parse(form.massN).Some? && IsInteger(parse(form.massN).value) && parse(form.massN).value >= 1.0
    ensures parse(form.massN).None? ==>
      BuildModelFromEditorForm(form, parse) == FormatFailure("structInfo.massN: invalid number.")
    ensures parse(form.massN).Some? && !(IsInteger(parse(form.massN).value) && parse(form.massN).value >= 1.0) ==>
      BuildModelFromEditorForm(form, parse) == FormatFailure("structInfo.massN must be an integer >= 1.")
  {
  }

  // ---- modelToEditorForm -------------------------------------------------------------

  /** Every element written by `write`, in order. */
  function Texts<T>(xs: seq<T>, write: T -> string): (r: seq<string>)
    ensures |r| == |xs|
    ensures forall k :: 0 <= k < |xs| ==> r[k] == write(xs[k])
  {
    seq(|xs|, k requires 0 <= k < |xs| => write(xs[k]))
  }

  function PointText(p: Point, fmt: NumberFormatter): string
  {
    Join([fmt(p.x), fmt(p.y)], ",")
  }

  function FloorCells(f: Floor, fmt: NumberFormatter): seq<string>
  {
    [fmt(f.layer)] + CoordTexts(f.pos, fmt)
  }

  function ColumnCells(c: Column, fmt: NumberFormatter): seq<string>
  {
    [fmt(c.layer), fmt(c.pos.x), fmt(c.pos.y), fmt(c.kx), fmt(c.ky)]
  }

  function WallCharaCells(w: WallChara, fmt: NumberFormatter): seq<string>
  {
    [w.name, fmt(w.k), fmt(w.h), fmt(w.c), BoolText(w.isEigenEffectK), BoolText(w.isKCUnitChara)]
  }

  function WallCells(w: Wall, fmt: NumberFormatter): seq<string>
  {
    [fmt(w.layer), w.name, fmt(w.start.x), fmt(w.start.y), fmt(w.end.x), fmt(w.end.y), BoolText(w.isVisible)]
  }

  function MassDamperCells(d: MassDamper, fmt: NumberFormatter): seq<string>
  {
    [d.name, fmt(d.layer), fmt(d.pos.x), fmt(d.pos.y), fmt(d.weight), fmt(d.freq.x), fmt(d.freq.y), fmt(d.h.x), fmt(d.h.y)]
  }

  function BraceDamperCells(d: BraceDamper, fmt: NumberFormatter): seq<string>
  {
    [fmt(d.layer), fmt(d.pos.x), fmt(d.pos.y), DirectionText(d.direct), fmt(d.k), fmt(d.c),
     fmt(d.width), fmt(d.height), BoolText(d.isLightPos), BoolText(d.isEigenEffectK)]
  }

  function PanelCells(p: DXPanel, fmt: NumberFormatter): seq<string>
  {
    [fmt(p.layer), DirectionText(p.direct), fmt(p.k)] + CoordTexts(p.pos, fmt)
  }

  /** A field of the form: one written line per element. */
  function Section<T>(xs: seq<T>, write: T -> string): string
  {
    Join(Texts(xs, write), "\n")
  }

  function PointWriter(fmt: NumberFormatter): Point -> string
  {
    (p: Point) => PointText(p, fmt)
  }

  function FloorWriter(fmt: NumberFormatter): Floor -> string
  {
    (f: Floor) => Join(FloorCells(f, fmt), ",")
  }

  function ColumnWriter(fmt: NumberFormatter): Column -> string
  {
    (c: Column) => Join(ColumnCells(c, fmt), ",")
  }

  function WallCharaWriter(fmt: NumberFormatter): WallChara -> string
  {
    (w: WallChara) => Join(WallCharaCells(w, fmt) + [w.memo], ",")
  }

  function WallWriter(fmt: NumberFormatter): Wall -> string
  {
    (w: Wall) => Join(WallCells(w, fmt), ",")
  }

  function MassDamperWriter(fmt: NumberFormatter): MassDamper -> string
  {
    (d: MassDamper) => Join(MassDamperCells(d, fmt), ",")
  }

  function BraceDamperWriter(fmt: NumberFormatter): BraceDamper -> string
  {
    (d: BraceDamper) => Join(BraceDamperCells(d, fmt), ",")
  }

  function PanelWriter(fmt: NumberFormatter): DXPanel -> string
  {
    (p: DXPanel) => Join(PanelCells(p, fmt), ",")
  }

  /** `modelToEditorForm`, numbers written by `fmt` (`String(x)`); without structInfo the defaults "1", R and empty lists. */
  function ModelToEditorForm(m: BuildingModel, fmt: NumberFormatter): ModelEditorFormData
  {
    var info := m.structInfo;
    ModelEditorFormData(
      if info.Some? then fmt(info.value.massN) else "1",
      if info.Some? then info.value.sType else R,
      if info.Some? then NumbersText(info.value.zLevel, fmt) else "",
      if info.Some? then NumbersText(info.value.weight, fmt) else "",
      if info.Some? then NumbersText(info.value.wMoment, fmt) else "",
      Section(if info.Some? then info.value.wCenter else [], PointWriter(fmt)),
      Section(m.floors, FloorWriter(fmt)),
      Section(m.columns, ColumnWriter(fmt)),
      Section(m.wallCharaDB, WallCharaWriter(fmt)),
      Section(m.walls, WallWriter(fmt)),
      Section(m.massDampers, MassDamperWriter(fmt)),
      Section(m.braceDampers, BraceDamperWriter(fmt)),
      Section(m.dxPanels, PanelWriter(fmt)))
  }

  // ---- reading back a written form -----------------------------------------------------

  /** Cells joined by commas: a line that survives the form, split back into the cells. */
  lemma WrittenLine(cells: seq<string>)
    requires |cells| >= 2
    requires forall k :: 0 <= k < |cells| ==> Cell(cells[k])
    ensures LineCell(Join(cells, ","))
    ensures SplitCsvLikeLine(Join(cells, ",")) == cells
  {
    CellsLine(cells);
    CsvOfJoin(cells);
  }

  /** Written lines, one per element, read back as the elements. */
  lemma SectionReadsBack<T>(xs: seq<T>, write: T -> string, read: (string, nat) -> Result<T>)
    requires forall k :: 0 <= k < |xs| ==> LineCell(write(xs[k])) && read(write(xs[k]), k) == Ok(xs[k])
    ensures ParseEach(ToLines(Section(xs, write)), read) == Ok(xs)
  {
    var lines := Texts(xs, write);
    LinesOfJoin(lines);
    ParseEachAll(lines, read, xs);
  }

  lemma PointReadsBack(p: Point, k: nat, fmt: NumberFormatter, parse: NumberParser)
    requires WritesNumerals(fmt) && ReadsBack(fmt, parse)
    ensures LineCell(PointWriter(fmt)(p)) && WCenterReader(parse)(PointWriter(fmt)(p), k) == Ok(p)
  {
    NumeralCell(fmt, p.x);
    NumeralCell(fmt, p.y);
    WrittenLine([fmt(p.x), fmt(p.y)]);
    ReadBack(fmt, parse, p.x);
    ReadBack(fmt, parse, p.y);
  }

  lemma FloorCellsClean(f: Floor, fmt: NumberFormatter)
    requires WritesNumerals(fmt)
    ensures forall k :: 0 <= k < |FloorCells(f, fmt)| ==> Cell(FloorCells(f, fmt)[k])
  {
    NumeralCell(fmt, f.layer);
    CoordCells(f.pos, fmt);
    var cells := FloorCells(f, fmt);
    forall k | 1 <= k < |cells| ensures Cell(cells[k]) {
      assert cells[k] == CoordTexts(f.pos, fmt)[k - 1];
    }
  }

  lemma FloorCellsRead(f: Floor, k: nat, fmt: NumberFormatter, parse: NumberParser)
    requires ReadsBack(fmt, parse)
    requires IsInteger(f.layer) && |f.pos| >= 3
    ensures FloorLine(FloorCells(f, fmt), k, parse) == Ok(f)
  {
    var cells := FloorCells(f, fmt);
    ReadBack(fmt, parse, f.layer);
    assert cells[1..] == CoordTexts(f.pos, fmt);
    PointsReadBack(cells, 1, 1, f.pos, FieldTag("floors", k, "pos"), fmt, parse);
    assert (|cells| - 1) % 2 == 0;
  }

  lemma FloorReadsBack(f: Floor, k: nat, fmt: NumberFormatter, parse: NumberParser)
    requires WritesNumerals(fmt) && ReadsBack(fmt, parse)
    requires IsInteger(f.layer) && |f.pos| >= 3
    ensures LineCell(FloorWriter(fmt)(f)) && FloorReader(parse)(FloorWriter(fmt)(f), k) == Ok(f)
  {
    FloorCellsClean(f, fmt);
    WrittenLine(FloorCells(f, fmt));
    FloorCellsRead(f, k, fmt, parse);
  }

  lemma ColumnCellsClean(c: Column, fmt: NumberFormatter)
    requires WritesNumerals(fmt)
    ensures forall k :: 0 <= k < |ColumnCells(c, fmt)| ==> Cell(ColumnCells(c, fmt)[k])
  {
    NumeralCell(fmt, c.layer);
    NumeralCell(fmt, c.pos.x);
    NumeralCell(fmt, c.pos.y);
    NumeralCell(fmt, c.kx);
    NumeralCell(fmt, c.ky);
  }

  lemma ColumnCellsRead(c: Column, k: nat, fmt: NumberFormatter, parse: NumberParser)
    requires ReadsBack(fmt, parse) && IsInteger(c.layer)
    ensures ColumnLine(ColumnCells(c, fmt), k, parse) == Ok(c)
  {
    ReadBack(fmt, parse, c.layer);
    ReadBack(fmt, parse, c.pos.x);
    ReadBack(fmt, parse, c.pos.y);
    ReadBack(fmt, parse, c.kx);
    ReadBack(fmt, parse, c.ky);
  }

  lemma ColumnReadsBack(c: Column, k: nat, fmt: NumberFormatter, parse: NumberParser)
    requires WritesNumerals(fmt) && ReadsBack(fmt, parse) && IsInteger(c.layer)
    ensures LineCell(ColumnWriter(fmt)(c)) && ColumnReader(parse)(ColumnWriter(fmt)(c), k) == Ok(c)
  {
    ColumnCellsClean(c, fmt);
    WrittenLine(ColumnCells(c, fmt));
    ColumnCellsRead(c, k, fmt, parse);
  }

  /** Splitting at the first separator, when the first piece holds none. */
  lemma SplitAt(a: string, b: string, sep: char)
    requires sep !in a
    ensures Split(a + [sep] + b, sep) == [a] + Split(b, sep)
  {
    var s := a + [sep] + b;
    assert forall k :: 0 <= k < |a| ==> s[k] == a[k];
    assert s[|a|] == sep;
    assert IndexOf(s, sep) == |a|;
    assert s[..|a|] == a;
    assert s[|a| + 1..] == b;
  }

  lemma SplitCons(c: string, parts: seq<string>)
    requires ',' !in c && |parts| >= 1
    ensures Split(Join([c] + parts, ","), ',') == [c] + Split(Join(parts, ","), ',')
  {
    JoinCons(c, parts, ",");
    assert c + "," + Join(parts, ",") == c + [','] + Join(parts, ",");
    SplitAt(c, Join(parts, ","), ',');
  }

  /** Comma-free cells and a tail joined by commas split into the cells and the pieces of the tail. */
  lemma {:induction false} SplitThenTail(cells: seq<string>, tail: string)
    requires forall k :: 0 <= k < |cells| ==> ',' !in cells[k]
    ensures Split(Join(cells + [tail], ","), ',') == cells + Split(tail, ',')
  {
    if cells == [] {
      assert cells + [tail] == [tail];
    } else {
      var c := cells[0];
      assert cells + [tail] == [c] + (cells[1..] + [tail]);
      SplitCons(c, cells[1..] + [tail]);
      SplitThenTail(cells[1..], tail);
      assert cells == [c] + cells[1..];
      assert [c] + (cells[1..] + Split(tail, ',')) == cells + Split(tail, ',');
    }
  }

  lemma WallCharaCellsClean(w: WallChara, fmt: NumberFormatter)
    requires WritesNumerals(fmt) && NameCell(w.name)
    ensures forall k :: 0 <= k < |WallCharaCells(w, fmt)| ==> Cell(WallCharaCells(w, fmt)[k])
  {
    NumeralCell(fmt, w.k);
    NumeralCell(fmt, w.h);
    NumeralCell(fmt, w.c);
    BoolCell(w.isEigenEffectK);
    BoolCell(w.isKCUnitChara);
  }

  lemma WallCharaLineCell(w: WallChara, fmt: NumberFormatter)
    requires WritesNumerals(fmt) && NameCell(w.name) && MemoCell(w.memo)
    ensures LineCell(WallCharaWriter(fmt)(w))
  {
    var all := WallCharaCells(w, fmt) + [w.memo];
    WallCharaCellsClean(w, fmt);
    assert forall k :: 0 <= k < |all| ==> IsTrimmed(all[k]) && '\n' !in all[k];
    CellsLine(all);
  }

  /** A written wall type splits into its six cells and the pieces of its memo. */
  lemma WallCharaTokens(w: WallChara, fmt: NumberFormatter)
    requires WritesNumerals(fmt) && NameCell(w.name) && MemoCell(w.memo)
    ensures SplitCsvLikeLine(WallCharaWriter(fmt)(w)) == WallCharaCells(w, fmt) + Split(w.memo, ',')
  {
    var cells := WallCharaCells(w, fmt);
    WallCharaCellsClean(w, fmt);
    SplitThenTail(cells, w.memo);
    var pieces := cells + Split(w.memo, ',');
    forall k | 0 <= k < |pieces|
      ensures Trim(pieces[k]) == pieces[k]
    {
      TrimmedFixpoint(pieces[k]);
    }
    assert TrimAll(pieces) == pieces;
  }

  lemma WallCharaCellsRead(w: WallChara, k: nat, fmt: NumberFormatter, parse: NumberParser)
    requires ReadsBack(fmt, parse)
    ensures WallCharaLine(WallCharaCells(w, fmt) + Split(w.memo, ','), k, parse) == Ok(w)
  {
    var t := WallCharaCells(w, fmt) + Split(w.memo, ',');
    assert t[6..] == Split(w.memo, ',');
    JoinSplit(w.memo, ',');
    assert "," == [','];
    ReadBack(fmt, parse, w.k);
    ReadBack(fmt, parse, w.h);
    ReadBack(fmt, parse, w.c);
    BoolReadsBack(w.isEigenEffectK, FieldTag("wallCharaDB", k, "isEigenEffectK"));
    BoolReadsBack(w.isKCUnitChara, FieldTag("wallCharaDB", k, "isKCUnitChara"));
  }

  lemma WallCharaReadsBack(w: WallChara, k: nat, fmt: NumberFormatter, parse: NumberParser)
    requires WritesNumerals(fmt) && ReadsBack(fmt, parse) && NameCell(w.name) && MemoCell(w.memo)
    ensures LineCell(WallCharaWriter(fmt)(w)) && WallCharaReader(parse)(WallCharaWriter(fmt)(w), k) == Ok(w)
  {
    WallCharaLineCell(w, fmt);
    WallCharaTokens(w, fmt);
    WallCharaCellsRead(w, k, fmt, parse);
  }

  lemma WallCellsClean(w: Wall, fmt: NumberFormatter)
    requires WritesNumerals(fmt) && NameCell(w.name)
    ensures forall k :: 0 <= k < |WallCells(w, fmt)| ==> Cell(WallCells(w, fmt)[k])
  {
    NumeralCell(fmt, w.layer);
    NumeralCell(fmt, w.start.x);
    NumeralCell(fmt, w.start.y);
    NumeralCell(fmt, w.end.x);
    NumeralCell(fmt, w.end.y);
    BoolCell(w.isVisible);
  }

  lemma WallCellsRead(w: Wall, k: nat, fmt: NumberFormatter, parse: NumberParser)
    requires ReadsBack(fmt, parse) && IsInteger(w.layer)
    ensures WallLine(WallCells(w, fmt), k, parse) == Ok(w)
  {
    ReadBack(fmt, parse, w.layer);
    ReadBack(fmt, parse, w.start.x);
    ReadBack(fmt, parse, w.start.y);
    ReadBack(fmt, parse, w.end.x);
    ReadBack(fmt, parse, w.end.y);
    BoolReadsBack(w.isVisible, FieldTag("walls", k, "isVisible"));
  }

  lemma WallReadsBack(w: Wall, k: nat, fmt: NumberFormatter, parse: NumberParser)
    requires WritesNumerals(fmt) && ReadsBack(fmt, parse) && IsInteger(w.layer) && NameCell(w.name)
    ensures LineCell(WallWriter(fmt)(w)) && WallReader(parse)(WallWriter(fmt)(w), k) == Ok(w)
  {
    WallCellsClean(w, fmt);
    WrittenLine(WallCells(w, fmt));
    WallCellsRead(w, k, fmt, parse);
  }

  lemma MassDamperCellsClean(d: MassDamper, fmt: NumberFormatter)
    requires WritesNumerals(fmt) && NameCell(d.name)
    ensures forall k :: 0 <= k < |MassDamperCells(d, fmt)| ==> Cell(MassDamperCells(d, fmt)[k])
  {
    NumeralCell(fmt, d.layer);
    NumeralCell(fmt, d.pos.x);
    NumeralCell(fmt, d.pos.y);
    NumeralCell(fmt, d.weight);
    NumeralCell(fmt, d.freq.x);
    NumeralCell(fmt, d.freq.y);
    NumeralCell(fmt, d.h.x);
    NumeralCell(fmt, d.h.y);
  }

  lemma MassDamperCellsRead(d: MassDamper, k: nat, fmt: NumberFormatter, parse: NumberParser)
    requires ReadsBack(fmt, parse) && IsInteger(d.layer)
    ensures MassDamperLine(MassDamperCells(d, fmt), k, parse) == Ok(d)
  {
    ReadBack(fmt, parse, d.layer);
    ReadBack(fmt, parse, d.pos.x);
    ReadBack(fmt, parse, d.pos.y);
    ReadBack(fmt, parse, d.weight);
    ReadBack(fmt, parse, d.freq.x);
    ReadBack(fmt, parse, d.freq.y);
    ReadBack(fmt, parse, d.h.x);
    ReadBack(fmt, parse, d.h.y);
  }

  lemma MassDamperReadsBack(d: MassDamper, k: nat, fmt: NumberFormatter, parse: NumberParser)
    requires WritesNumerals(fmt) && ReadsBack(fmt, parse) && IsInteger(d.layer) && NameCell(d.name)
    ensures LineCell(MassDamperWriter(fmt)(d)) && MassDamperReader(parse)(MassDamperWriter(fmt)(d), k) == Ok(d)
  {
    MassDamperCellsClean(d, fmt);
    WrittenLine(MassDamperCells(d, fmt));
    MassDamperCellsRead(d, k, fmt, parse);
  }

  lemma BraceDamperCellsClean(d: BraceDamper, fmt: NumberFormatter)
    requires WritesNumerals(fmt)
    ensures forall k :: 0 <= k < |BraceDamperCells(d, fmt)| ==> Cell(BraceDamperCells(d, fmt)[k])
  {
    NumeralCell(fmt, d.layer);
    NumeralCell(fmt, d.pos.x);
    NumeralCell(fmt, d.pos.y);
    DirectionReadsBack(d.direct);
    NumeralCell(fmt, d.k);
    NumeralCell(fmt, d.c);
    NumeralCell(fmt, d.width);
    NumeralCell(fmt, d.height);
    BoolCell(d.isLightPos);
    BoolCell(d.isEigenEffectK);
  }

  lemma BraceDamperCellsRead(d: BraceDamper, k: nat, fmt: NumberFormatter, parse: NumberParser)
    requires ReadsBack(fmt, parse) && IsInteger(d.layer)
    ensures BraceDamperLine(BraceDamperCells(d, fmt), k, parse) == Ok(d)
  {
    ReadBack(fmt, parse, d.layer);
    ReadBack(fmt, parse, d.pos.x);
    ReadBack(fmt, parse, d.pos.y);
    DirectionReadsBack(d.direct);
    ReadBack(fmt, parse, d.k);
    ReadBack(fmt, parse, d.c);
    ReadBack(fmt, parse, d.width);
    ReadBack(fmt, parse, d.height);
    BoolReadsBack(d.isLightPos, FieldTag("braceDampers", k, "isLightPos"));
    BoolReadsBack(d.isEigenEffectK, FieldTag("braceDampers", k, "isEigenEffectK"));
  }

  lemma BraceDamperReadsBack(d: BraceDamper, k: nat, fmt: NumberFormatter, parse: NumberParser)
    requires WritesNumerals(fmt) && ReadsBack(fmt, parse) && IsInteger(d.layer)
    ensures LineCell(BraceDamperWriter(fmt)(d)) && BraceDamperReader(parse)(BraceDamperWriter(fmt)(d), k) == Ok(d)
  {
    BraceDamperCellsClean(d, fmt);
    WrittenLine(BraceDamperCells(d, fmt));
    BraceDamperCellsRead(d, k, fmt, parse);
  }

  lemma PanelCellsClean(p: DXPanel, fmt: NumberFormatter)
    requires WritesNumerals(fmt)
    ensures forall k :: 0 <= k < |PanelCells(p, fmt)| ==> Cell(PanelCells(p, fmt)[k])
  {
    NumeralCell(fmt, p.layer);
    DirectionReadsBack(p.direct);
    NumeralCell(fmt, p.k);
    CoordCells(p.pos, fmt);
    var cells := PanelCells(p, fmt);
    forall k | 3 <= k < |cells| ensures Cell(cells[k]) {
      assert cells[k] == CoordTexts(p.pos, fmt)[k - 3];
    }
  }

  lemma PanelCellsRead(p: DXPanel, k: nat, fmt: NumberFormatter, parse: NumberParser)
    requires ReadsBack(fmt, parse)
    requires IsInteger(p.layer) && |p.pos| >= 2
    ensures PanelLine(PanelCells(p, fmt), k, parse) == Ok(p)
  {
    var cells := PanelCells(p, fmt);
    ReadBack(fmt, parse, p.layer);
    ReadBack(fmt, parse, p.k);
    DirectionReadsBack(p.direct);
    assert cells[3..] == CoordTexts(p.pos, fmt);
    PointsReadBack(cells, 3, 3, p.pos, FieldTag("dxPanels", k, "pos"), fmt, parse);
    assert (|cells| - 3) % 2 == 0;
  }

  lemma PanelReadsBack(p: DXPanel, k: nat, fmt: NumberFormatter, parse: NumberParser)
    requires WritesNumerals(fmt) && ReadsBack(fmt, parse)
    requires IsInteger(p.layer) && |p.pos| >= 2
    ensures LineCell(PanelWriter(fmt)(p)) && PanelReader(parse)(PanelWriter(fmt)(p), k) == Ok(p)
  {
    PanelCellsClean(p, fmt);
    WrittenLine(PanelCells(p, fmt));
    PanelCellsRead(p, k, fmt, parse);
  }

  /**
   * As written, the dxPanels reader rejects the line that the writer makes
   * for a panel with two points (seven tokens), although normalisation
   * accepts such a panel.
   */
  lemma TwoPointPanelRejected(p: DXPanel, k: nat, fmt: NumberFormatter, parse: NumberParser)
    requires WritesNumerals(fmt) && |p.pos| == 2
    ensures |SplitCsvLikeLine(PanelWriter(fmt)(p))| == 7
    ensures PanelLineAsWritten(SplitCsvLikeLine(PanelWriter(fmt)(p)), k, parse)
      == FormatFailure(LineTag("dxPanels", k) + ": format is layer,direct,k,x1,y1,x2,y2,...")
  {
    PanelCellsClean(p, fmt);
    WrittenLine(PanelCells(p, fmt));
  }
}
