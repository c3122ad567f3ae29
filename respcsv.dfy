/*
 * `parseRespCsv` of src/io/resp.ts: a time-history result file. The lines
 * before the `#Resp_Result` marker hold the base-shape header; the line after
 * the marker holds the metadata, the next one the column header, and every
 * later line that holds at least one finite number is a record.
 */
module RespCsv {
  import opened Results
  import opened Numbers
  import opened Strings
  import opened Building
  import opened Text
  import BaseShape

  const ResultMarker := "#Resp_Result"

  /** The lines of the file, each with its trailing whitespace removed. */
  function RespLines(text: string): (r: seq<string>)
    ensures |r| == |Lines(text)|
  {
    var lines := Lines(text);
    seq(|lines|, k requires 0 <= k < |lines| => TrimEnd(lines[k]))
  }

  /** `getNumericValue`: the number after `field` among the tokens, or `fallback`. */
  function GetNumericValue(tokens: seq<string>, field: string, fallback: real, parse: NumberParser): (r: real)
    ensures var i := FindEqual(tokens, field);
      (i + 1 < |tokens| && parse(tokens[i + 1]).Some? ==> r == parse(tokens[i + 1]).value)
      && (!(i + 1 < |tokens| && parse(tokens[i + 1]).Some?) ==> r == fallback)
  {
    var index := FindEqual(tokens, field);
    if index == |tokens| || index + 1 >= |tokens| then fallback
    else if parse(tokens[index + 1]).Some? then parse(tokens[index + 1]).value
    else fallback
  }

  /** A missing field, or one that is the last token, gives the fallback. */
  lemma MissingFieldFallsBack(tokens: seq<string>, field: string, fallback: real, parse: NumberParser)
    requires |tokens| >= 1 && field !in tokens[..|tokens| - 1]
    ensures GetNumericValue(tokens, field, fallback, parse) == fallback
  {
  }

  /** The metadata line: masses, time step and dampers, with their defaults. */
  function MetaOf(metaTokens: seq<string>, parse: NumberParser): (r: RespMeta)
    ensures r.massCount == GetNumericValue(metaTokens, "質点数", 0.0, parse)
    ensures r.dt == GetNumericValue(metaTokens, "出力時間刻み(s)", 0.01, parse)
    ensures r.damperCount == GetNumericValue(metaTokens, "ダンパー数", 0.0, parse)
  {
    RespMeta(
      GetNumericValue(metaTokens, "質点数", 0.0, parse),
      GetNumericValue(metaTokens, "出力時間刻み(s)", 0.01, parse),
      GetNumericValue(metaTokens, "ダンパー数", 0.0, parse))
  }

  /** `lines[i] ?? ""`. */
  function LineOrEmpty(lines: seq<string>, i: nat): string
  {
    if i < |lines| then lines[i] else ""
  }

  /** The numbers of one line: none for a blank line, else its finite comma-separated values. */
  function RowOf(text: string, parse: NumberParser): seq<real>
  {
    var line := Trim(text);
    if line == "" then [] else ToNumberList(SplitCsvLikeLine(line), parse)
  }

  /** `RowOf` for the given number parser. */
  function RowFunction(parse: NumberParser): string -> seq<real>
  {
    line => RowOf(line, parse)
  }

  /** The records among `lines[start..i]`: the lines whose row holds a number, in order. */
  function RecordsUpTo(lines: seq<string>, start: nat, i: nat, row: string -> seq<real>): (r: seq<seq<real>>)
    requires i <= |lines|
    decreases i
  {
    if i <= start then []
    else
      var rows := RecordsUpTo(lines, start, i - 1, row);
      if |row(lines[i - 1])| > 0 then rows + [row(lines[i - 1])] else rows
  }

  /** There are at most as many records as lines, and every record holds a number. */
  lemma {:induction false} RecordsShape(lines: seq<string>, start: nat, i: nat, row: string -> seq<real>)
    requires i <= |lines|
    ensures i <= start ==> RecordsUpTo(lines, start, i, row) == []
    ensures start < i ==> |RecordsUpTo(lines, start, i, row)| <= i - start
    ensures forall k :: 0 <= k < |RecordsUpTo(lines, start, i, row)| ==> |RecordsUpTo(lines, start, i, row)[k]| > 0
  {
    if i > start {
      RecordsShape(lines, start, i - 1, row);
    }
  }

  /** A whitespace-only line has no row. */
  lemma BlankLineHasNoRow(text: string, parse: NumberParser)
    requires IsBlank(text)
    ensures RowOf(text, parse) == []
  {
    TrimBlank(text);
  }

  /** A blank line adds no record. */
  lemma BlankLinesSkipped(lines: seq<string>, start: nat, i: nat, parse: NumberParser)
    requires start <= i < |lines| && IsBlank(lines[i])
    ensures RecordsUpTo(lines, start, i + 1, RowFunction(parse)) == RecordsUpTo(lines, start, i, RowFunction(parse))
  {
    BlankLineHasNoRow(lines[i], parse);
  }

  /** The number of lines of `lines[start..i]` whose row holds a number. */
  function RowCount(lines: seq<string>, start: nat, i: nat, row: string -> seq<real>): nat
    requires i <= |lines|
    decreases i
  {
    if i <= start then 0 else RowCount(lines, start, i - 1, row) + if |row(lines[i - 1])| > 0 then 1 else 0
  }

  /** There is one record per line whose row holds a number, and each record is the row of a line in the range. */
  lemma {:induction false} RecordsAreRows(lines: seq<string>, start: nat, i: nat, row: string -> seq<real>)
    requires i <= |lines|
    ensures |RecordsUpTo(lines, start, i, row)| == RowCount(lines, start, i, row)
    ensures forall k :: 0 <= k < |RecordsUpTo(lines, start, i, row)| ==>
      exists j :: start <= j < i && RecordsUpTo(lines, start, i, row)[k] == row(lines[j])
  {
    if i > start {
      RecordsAreRows(lines, start, i - 1, row);
      var rows := RecordsUpTo(lines, start, i - 1, row);
      var r := RecordsUpTo(lines, start, i, row);
      forall k | 0 <= k < |r|
        ensures exists j :: start <= j < i && r[k] == row(lines[j])
      {
        if k < |rows| {
          assert r[k] == rows[k];
          var j :| start <= j < i - 1 && rows[k] == row(lines[j]);
          assert start <= j < i && r[k] == row(lines[j]);
        } else {
          assert r[k] == row(lines[i - 1]);
        }
      }
    }
  }

  /** `records.reduce((max, row) => Math.max(max, row.length), 0)`. */
  function MaxRowLength(rows: seq<seq<real>>): (r: nat)
    ensures forall k :: 0 <= k < |rows| ==> |rows[k]| <= r
    ensures rows == [] ==> r == 0
    ensures rows != [] ==> exists k :: 0 <= k < |rows| && |rows[k]| == r
  {
    if rows == [] then 0
    else
      var m := MaxRowLength(rows[..|rows| - 1]);
      if |rows[|rows| - 1]| > m then |rows[|rows| - 1]| else m
  }

  /** The largest `|row[c]|` over the rows that reach column `c`, starting from 0. */
  function ColumnMax(rows: seq<seq<real>>, c: nat): (r: real)
  {
    if rows == [] then 0.0
    else
      var m := ColumnMax(rows[..|rows| - 1], c);
      var last := rows[|rows| - 1];
      if c < |last| && Abs(last[c]) > m then Abs(last[c]) else m
  }

  /** The column maximum is non-negative, bounds every entry of its column and is 0 or one of them. */
  lemma {:induction false} ColumnMaxIsMaximum(rows: seq<seq<real>>, c: nat)
    ensures ColumnMax(rows, c) >= 0.0
    ensures forall k :: 0 <= k < |rows| && c < |rows[k]| ==> Abs(rows[k][c]) <= ColumnMax(rows, c)
    ensures ColumnMax(rows, c) == 0.0 || exists k :: 0 <= k < |rows| && c < |rows[k]| && ColumnMax(rows, c) == Abs(rows[k][c])
  {
    if rows != [] {
      var front := rows[..|rows| - 1];
      ColumnMaxIsMaximum(front, c);
      assert forall k :: 0 <= k < |front| ==> front[k] == rows[k];
    }
  }

  /** The column maxima: one per column of the longest row. */
  function ColumnMaxima(rows: seq<seq<real>>): (r: seq<real>)
    ensures |r| == MaxRowLength(rows)
    ensures forall c :: 0 <= c < |r| ==> r[c] == ColumnMax(rows, c)
  {
    seq(MaxRowLength(rows), c requires 0 <= c => ColumnMax(rows, c))
  }

  /** There is one maximum per column that some row reaches; each is non-negative, bounds its column and is 0 or one of its entries. */
  lemma ColumnMaximaBound(rows: seq<seq<real>>)
    ensures |ColumnMaxima(rows)| == MaxRowLength(rows)
    ensures forall c :: 0 <= c < |ColumnMaxima(rows)| ==>
      ColumnMaxima(rows)[c] >= 0.0 && exists k :: 0 <= k < |rows| && c < |rows[k]|
    ensures forall c, k :: 0 <= c < |ColumnMaxima(rows)| && 0 <= k < |rows| && c < |rows[k]| ==>
      Abs(rows[k][c]) <= ColumnMaxima(rows)[c]
    ensures forall c :: 0 <= c < |ColumnMaxima(rows)| ==>
      ColumnMaxima(rows)[c] == 0.0 || exists k :: 0 <= k < |rows| && c < |rows[k]| && ColumnMaxima(rows)[c] == Abs(rows[k][c])
  {
    var r := ColumnMaxima(rows);
    forall c | 0 <= c < |r|
      ensures exists k :: 0 <= k < |rows| && c < |rows[k]|
      ensures r[c] >= 0.0
      ensures forall k :: 0 <= k < |rows| && c < |rows[k]| ==> Abs(rows[k][c]) <= r[c]
      ensures r[c] == 0.0 || exists k :: 0 <= k < |rows| && c < |rows[k]| && r[c] == Abs(rows[k][c])
    {
      ColumnMaxIsMaximum(rows, c);
      var k :| 0 <= k < |rows| && |rows[k]| == MaxRowLength(rows);
      assert c < |rows[k]|;
    }
  }

  /** The result section: metadata, column header, records and column maxima after the marker at `resultStart`. */
  function ResultSection(lines: seq<string>, resultStart: nat, baseShape: BaseShapeInfo, parse: NumberParser): RespFile
  {
    var records := RecordsUpTo(lines, resultStart + 3, |lines|, RowFunction(parse));
    RespFile(
      baseShape,
      MetaOf(SplitCsvLikeLine(LineOrEmpty(lines, resultStart + 1)), parse),
      SplitCsvLikeLine(LineOrEmpty(lines, resultStart + 2)),
      records,
      ColumnMaxima(records))
  }

  /** The whole file: a missing marker is an error, and so is a base-shape header that does not parse. */
  function RespCsvOf(text: string, parse: NumberParser): (r: Result<RespFile>)
  {
    var lines := RespLines(text);
    var resultStart := FindContaining(lines, ResultMarker);
    if resultStart == |lines| then PlainFailure("Resp_Result セクションが見つかりません。")
    else
      var baseShape :- BaseShape.BaseShapeOf(Join(lines[..resultStart], "\n"), parse);
      Ok(ResultSection(lines, resultStart, baseShape, parse))
  }

  /** `parseRespCsv`. */
  method ParseRespCsv(text: string, parse: NumberParser) returns (r: Result<RespFile>)
    ensures r == RespCsvOf(text, parse)
  {
    var lines := RespLines(text);
    var resultStart := FindContaining(lines, ResultMarker);
    if resultStart == |lines| {
      r := PlainFailure("Resp_Result セクションが見つかりません。");
      return;
    }
    var baseShape := BaseShape.ParseBaseShapeInfo(Join(lines[..resultStart], "\n"), parse);
    if baseShape.Err? {
      r := Err(baseShape.error);
      return;
    }
    var file := ReadResultSection(lines, resultStart, baseShape.value, parse);
    r := Ok(file);
  }

  /** The part of `parseRespCsv` after the marker: metadata, header, records and column maxima. */
  method ReadResultSection(lines: seq<string>, resultStart: nat, baseShape: BaseShapeInfo, parse: NumberParser) returns (file: RespFile)
    ensures file == ResultSection(lines, resultStart, baseShape, parse)
  {
    var metaTokens := SplitCsvLikeLine(LineOrEmpty(lines, resultStart + 1));
    var header := SplitCsvLikeLine(LineOrEmpty(lines, resultStart + 2));
    var records := ReadRecords(lines, resultStart + 3, RowFunction(parse));
    var columnMaxAbs := ColumnMaxAbs(records);
    file := RespFile(baseShape, MetaOf(metaTokens, parse), header, records, columnMaxAbs);
  }

  /**
   * The records loop of `parseRespCsv`, from line `start` on; `row` reads the
   * numbers of one line, and is `RowOf` for the file's number parser.
   */
  method ReadRecords(lines: seq<string>, start: nat, row: string -> seq<real>) returns (records: seq<seq<real>>)
    ensures records == RecordsUpTo(lines, start, |lines|, row)
  {
    records := [];
    if start >= |lines| {
      return;
    }
    var i := start;
    while i < |lines|
      invariant start <= i <= |lines|
      invariant records == RecordsUpTo(lines, start, i, row)
    {
      var numbers := row(lines[i]);
      if |numbers| > 0 {
        records := records + [numbers];
      }
      i := i + 1;
    }
  }

  /** The column maxima loop of `parseRespCsv`: an array of zeros raised entry by entry. */
  method ColumnMaxAbs(records: seq<seq<real>>) returns (columnMaxAbs: seq<real>)
    ensures columnMaxAbs == ColumnMaxima(records)
  {
    var colCount := MaxRowLength(records);
    var maxima := new real[colCount](_ => 0.0);
    for j := 0 to |records|
      invariant forall c :: 0 <= c < colCount ==> maxima[c] == ColumnMax(records[..j], c)
    {
      assert records[..j + 1][..j] == records[..j];
      var row := records[j];
      for c := 0 to |row|
        invariant forall d :: 0 <= d < c ==> maxima[d] == ColumnMax(records[..j + 1], d)
        invariant forall d :: c <= d < colCount ==> maxima[d] == ColumnMax(records[..j], d)
      {
        var a := Abs(row[c]);
        if a > maxima[c] {
          maxima[c] := a;
        }
      }
    }
    assert records[..|records|] == records;
    columnMaxAbs := maxima[..];
  }

  /** The file is rejected with a plain error exactly when no line holds the marker. */
  lemma MarkerRequired(text: string, parse: NumberParser)
    ensures (RespCsvOf(text, parse).Err? && RespCsvOf(text, parse).error.PlainError?) <==>
      forall k :: 0 <= k < |RespLines(text)| ==> !Contains(RespLines(text)[k], ResultMarker)
    ensures (forall k :: 0 <= k < |RespLines(text)| ==> !Contains(RespLines(text)[k], ResultMarker)) ==>
      RespCsvOf(text, parse) == PlainFailure("Resp_Result セクションが見つかりません。")
  {
    var lines := RespLines(text);
    var i := FindContaining(lines, ResultMarker);
    if i < |lines| {
      var shape := Join(lines[..i], "\n");
      BaseShape.BaseShapeErrorIsFormat(shape, parse);
      assert Contains(lines[i], ResultMarker);
      var b := BaseShape.BaseShapeOf(shape, parse);
      if b.Err? {
        assert RespCsvOf(text, parse) == Err(b.error);
      } else {
        assert RespCsvOf(text, parse).Ok?;
      }
    } else {
      assert RespCsvOf(text, parse) == PlainFailure("Resp_Result セクションが見つかりません。");
    }
  }

  /**
   * An accepted file: the first marker line splits it; the base shape comes
   * from the lines before it, the metadata from the line after it, the column
   * header from the line after that and the records from the rest.
   */
  lemma ResultLayout(text: string, parse: NumberParser, f: RespFile)
    requires RespCsvOf(text, parse) == Ok(f)
    ensures var lines := RespLines(text);
      var i := FindContaining(lines, ResultMarker);
      i < |lines| && Contains(lines[i], ResultMarker)
      && (forall k :: 0 <= k < i ==> !Contains(lines[k], ResultMarker))
      && BaseShape.BaseShapeOf(Join(lines[..i], "\n"), parse) == Ok(f.baseShape)
      && f.meta == MetaOf(SplitCsvLikeLine(LineOrEmpty(lines, i + 1)), parse)
      && f.header == SplitCsvLikeLine(LineOrEmpty(lines, i + 2))
      && f.records == RecordsUpTo(lines, i + 3, |lines|, RowFunction(parse))
      && f.columnMaxAbs == ColumnMaxima(f.records)
  {
    var lines := RespLines(text);
    var i := FindContaining(lines, ResultMarker);
    SectionOf(text, parse, f);
    assert f == ResultSection(lines, i, f.baseShape, parse);
  }

  /** An accepted file is the result section after its first marker line, over the base shape read before it. */
  lemma SectionOf(text: string, parse: NumberParser, f: RespFile)
    requires RespCsvOf(text, parse) == Ok(f)
    ensures var lines := RespLines(text);
      var i := FindContaining(lines, ResultMarker);
      i < |lines| && BaseShape.BaseShapeOf(Join(lines[..i], "\n"), parse) == Ok(f.baseShape)
      && f == ResultSection(lines, i, f.baseShape, parse)
  {
    var lines := RespLines(text);
    var i := FindContaining(lines, ResultMarker);
    assert i != |lines|;
    var b := BaseShape.BaseShapeOf(Join(lines[..i], "\n"), parse);
    assert b.Ok? && f == ResultSection(lines, i, b.value, parse);
  }

  /** A metadata line without the three labels gives the defaults. */
  lemma MetaDefaults(tokens: seq<string>, parse: NumberParser)
    requires forall k :: 0 <= k < |tokens| ==> tokens[k] != "質点数" && tokens[k] != "出力時間刻み(s)" && tokens[k] != "ダンパー数"
    ensures MetaOf(tokens, parse) == RespMeta(0.0, 0.01, 0.0)
  {
  }
}
