/*
 * The Modal DAT format of src/io/modal.ts: a base-shape header, then a
 * `#ModalResult` section holding the natural frequencies, the participation
 * factors, the effective mass ratios and the eigenvector rows.
 *
 * Splitting the text into trimmed lines and cutting out the marked section
 * are done by helpers that are not part of this model, so the reader takes
 * the lines before the section (`before`) and the section body (`body`).
 */
module ModalDat {
  import opened Results
  import opened Numbers
  import opened Strings
  import opened Building
  import opened Text
  import BaseShape

  const FrequencyTitle := "固有振動数"
  const EigenVectorTitle := "固有ベクトル"
  const FactorXTitle := "刺激係数X"
  const FactorYTitle := "刺激係数Y"

  /** The title line of an effective mass ratio row. */
  function MassRatioTitle(d: Direction): string
  {
    "有効質量比" + DirectionText(d)
  }

  // ---- reading -----------------------------------------------------------------

  /**
   * `parseEffectiveMassRatio`: the numbers of the line after the first line
   * starting with the title; none when there is no such line or it is the last.
   */
  function EffectiveMassRatio(lines: seq<string>, d: Direction, parse: NumberParser): (r: Result<seq<real>>)
    ensures var i := FindStarting(lines, MassRatioTitle(d));
      (i + 1 >= |lines| ==> r == Ok([]))
      && (i + 1 < |lines| ==>
        (StartsWith(lines[i], MassRatioTitle(d))
         && r == ToNumberListStrict(SplitCsvLikeLine(lines[i + 1]), "ModalResult." + MassRatioTitle(d), parse)))
  {
    var index := FindStarting(lines, MassRatioTitle(d));
    if index == |lines| || index + 1 >= |lines| then Ok([])
    else ToNumberListStrict(SplitCsvLikeLine(lines[index + 1]), "ModalResult." + MassRatioTitle(d), parse)
  }

  /** The row list `rows` put in front of the rows of a result, an error staying as it is. */
  function Prepend(rows: seq<EigenRow>, r: Result<seq<EigenRow>>): Result<seq<EigenRow>>
  {
    if r.Ok? then Ok(rows + r.value) else r
  }

  lemma PrependNothing(r: Result<seq<EigenRow>>)
    ensures Prepend([], r) == r
  {
    if r.Ok? {
      assert [] + r.value == r.value;
    }
  }

  lemma PrependTwice(a: seq<EigenRow>, b: seq<EigenRow>, r: Result<seq<EigenRow>>)
    ensures Prepend(a, Prepend(b, r)) == Prepend(a + b, r)
  {
    if r.Ok? {
      assert a + (b + r.value) == (a + b) + r.value;
    }
  }

  /** A blank line, or one starting with `#` once trimmed, ends the eigenvector table. */
  predicate EndsTable(line: string)
  {
    Trim(line) == "" || StartsWith(Trim(line), "#")
  }

  /** What one line contributes to the eigenvector table. */
  datatype RowOutcome = TableEnd | RowError(error: Error) | Row(row: EigenRow)

  function BadRowMessage(i: nat): string
  {
    "ModalResult: invalid eigen vector row at line " + NatToString(i + 1) + "."
  }

  /**
   * Line `i` of the table: a line that ends the table, or else a row; a row needs a label and at least one more token, and every token after the
   * label must be a number.
   */
  function ReadRow(line: string, i: nat, parse: NumberParser): (r: RowOutcome)
    ensures r.TableEnd? <==> EndsTable(line)
    ensures r.RowError? ==> r.error.FormatParseError?
  {
    if EndsTable(line) then TableEnd
    else
      var tokens := SplitCsvLikeLine(Trim(line));
      if |tokens| < 2 then RowError(FormatParseError(BadRowMessage(i)))
      else
        var values := ToNumberListStrict(tokens[1..], "ModalResult.固有ベクトル." + tokens[0], parse);
        if values.Err? then RowError(values.error) else Row(EigenRow(tokens[0], values.value))
  }

  /** The row reader of `parseModalDat` for the given number parser. */
  function RowReader(parse: NumberParser): (string, nat) -> RowOutcome
  {
    (line: string, i: nat) => ReadRow(line, i, parse)
  }

  /** The eigenvector rows from line `i` on, up to the line that ends the table or the end. */
  function EigenRowsFrom(lines: seq<string>, i: nat, read: (string, nat) -> RowOutcome): Result<seq<EigenRow>>
    decreases |lines| - i
  {
    if i >= |lines| then Ok([])
    else
      match read(lines[i], i)
      case TableEnd => Ok([])
      case RowError(e) => Err(e)
      case Row(row) => Prepend([row], EigenRowsFrom(lines, i + 1, read))
  }

  /**
   * The eigenvector loop of `parseModalDat`, from line `start` on; `read` is
   * `RowReader` for the file's number parser.
   */
  method ReadEigenRows(lines: seq<string>, start: nat, read: (string, nat) -> RowOutcome) returns (r: Result<seq<EigenRow>>)
    ensures r == EigenRowsFrom(lines, start, read)
  {
    var rows: seq<EigenRow> := [];
    var i := start;
    PrependNothing(EigenRowsFrom(lines, start, read));
    while i < |lines|
      invariant start <= i
      invariant EigenRowsFrom(lines, start, read) == Prepend(rows, EigenRowsFrom(lines, i, read))
      decreases |lines| - i
    {
      var outcome := read(lines[i], i);
      if outcome.TableEnd? {
        break;
      }
      if outcome.RowError? {
        r := Err(outcome.error);
        return;
      }
      PrependTwice(rows, [outcome.row], EigenRowsFrom(lines, i + 1, read));
      rows := rows + [outcome.row];
      i := i + 1;
    }
    assert EigenRowsFrom(lines, i, read) == Ok([]);
    r := Ok(rows);
    assert Prepend(rows, Ok([])) == r by {
      assert rows + [] == rows;
    }
  }

  /** The numbers after the first cell of a line, converted strictly. */
  function RowNumbers(line: string, field: string, parse: NumberParser): Result<seq<real>>
  {
    ToNumberListStrict(SplitCsvLikeLine(line)[1..], field, parse)
  }

  const FrequencyMissing := "ModalResult: \"固有振動数\" section is missing."
  const FactorsMissing := "ModalResult: participation factor rows are missing."
  const EigenMissing := "ModalResult: \"固有ベクトル\" section is missing."
  const RowsMissing := "ModalResult: eigen vector rows are missing."

  /** The natural frequencies, read at the first line holding the title. */
  function Frequencies(body: seq<string>, parse: NumberParser): Result<seq<real>>
  {
    FrequenciesAt(body, FindContaining(body, FrequencyTitle), parse)
  }

  /**
   * The natural frequencies below a title at line `i`: the numbers after the
   * first cell two lines further down, which must exist.
   */
  function FrequenciesAt(body: seq<string>, i: nat, parse: NumberParser): (r: Result<seq<real>>)
    ensures i + 2 >= |body| ==> r == FormatFailure(FrequencyMissing)
    ensures r.Ok? ==> i + 2 < |body| && r == RowNumbers(body[i + 2], "ModalResult.固有振動数", parse)
    ensures r.Err? ==> r.error.FormatParseError?
  {
    if i + 2 >= |body| then FormatFailure(FrequencyMissing)
    else RowNumbers(body[i + 2], "ModalResult.固有振動数", parse)
  }

  /** The participation factors, read at the first lines starting with their titles. */
  function Factors(body: seq<string>, parse: NumberParser): Result<(seq<real>, seq<real>)>
  {
    FactorsAt(body, FindStarting(body, FactorXTitle), FindStarting(body, FactorYTitle), parse)
  }

  /**
   * The participation factors from lines `x` and `y`: the numbers after the
   * first cell of each; both lines must exist before either is read.
   */
  function FactorsAt(body: seq<string>, x: nat, y: nat, parse: NumberParser): (r: Result<(seq<real>, seq<real>)>)
    ensures x >= |body| || y >= |body| ==> r == FormatFailure(FactorsMissing)
    ensures r.Ok? ==> (x < |body| && y < |body|
      && Ok(r.value.0) == RowNumbers(body[x], "ModalResult.刺激係数X", parse)
      && Ok(r.value.1) == RowNumbers(body[y], "ModalResult.刺激係数Y", parse))
    ensures (x < |body| && y < |body| && RowNumbers(body[x], "ModalResult.刺激係数X", parse).Ok?
      && RowNumbers(body[y], "ModalResult.刺激係数Y", parse).Ok?) ==> r.Ok?
    ensures r.Err? ==> r.error.FormatParseError?
  {
    if x >= |body| || y >= |body| then FormatFailure(FactorsMissing)
    else
      var factorX :- RowNumbers(body[x], "ModalResult.刺激係数X", parse);
      var factorY :- RowNumbers(body[y], "ModalResult.刺激係数Y", parse);
      Ok((factorX, factorY))
  }

  /** The eigenvector table, read below the first line holding the title. */
  function EigenTable(body: seq<string>, parse: NumberParser): Result<seq<EigenRow>>
  {
    EigenTableAt(body, FindContaining(body, EigenVectorTitle), parse)
  }

  /**
   * The eigenvector table below a title at line `i`, which must exist: the
   * rows from two lines further down, at least one of them.
   */
  function EigenTableAt(body: seq<string>, i: nat, parse: NumberParser): (r: Result<seq<EigenRow>>)
    ensures i >= |body| ==> r == FormatFailure(EigenMissing)
    ensures r.Ok? ==> i < |body| && r == EigenRowsFrom(body, i + 2, RowReader(parse)) && |r.value| >= 1
    ensures i < |body| && EigenRowsFrom(body, i + 2, RowReader(parse)) == Ok([]) ==> r == FormatFailure(RowsMissing)
    ensures i < |body| && EigenRowsFrom(body, i + 2, RowReader(parse)).Err? ==> r == EigenRowsFrom(body, i + 2, RowReader(parse))
    ensures i < |body| && EigenRowsFrom(body, i + 2, RowReader(parse)).Ok? && EigenRowsFrom(body, i + 2, RowReader(parse)).value != []
      ==> r == EigenRowsFrom(body, i + 2, RowReader(parse))
    ensures r.Err? ==> r.error.FormatParseError?
  {
    if i >= |body| then FormatFailure(EigenMissing)
    else
      EigenErrorsAreFormat(body, i + 2, parse);
      NonEmptyTable(EigenRowsFrom(body, i + 2, RowReader(parse)))
  }

  /** A table read without error must still have a row. */
  function NonEmptyTable(rows: Result<seq<EigenRow>>): (r: Result<seq<EigenRow>>)
    ensures r.Ok? <==> rows.Ok? && rows.value != []
    ensures r.Ok? ==> r == rows
    ensures rows.Err? ==> r == rows
    ensures rows == Ok([]) ==> r == FormatFailure(RowsMissing)
  {
    if rows.Ok? && rows.value == [] then FormatFailure(RowsMissing) else rows
  }

  /** `parseModalDat` on the lines before the section and the section body. */
  function ModalDatOf(before: seq<string>, body: seq<string>, parse: NumberParser): Result<ModalDatFile>
  {
    ModalFrom(BaseShape.BaseShapeOf(Join(before, "\n"), parse), Frequencies(body, parse), Factors(body, parse),
              EffectiveMassRatio(body, X, parse), EffectiveMassRatio(body, Y, parse), EigenTable(body, parse))
  }

  /** The parts read in order: the first part that fails decides the error. */
  function ModalFrom(shape: Result<BaseShapeInfo>, frequencies: Result<seq<real>>, factors: Result<(seq<real>, seq<real>)>,
                     ratioX: Result<seq<real>>, ratioY: Result<seq<real>>, table: Result<seq<EigenRow>>): Result<ModalDatFile>
  {
    var baseShape :- shape;
    var f :- frequencies;
    var p :- factors;
    var mx :- ratioX;
    var my :- ratioY;
    var rows :- table;
    Ok(ModalDatFile(baseShape, ModalResult(f, p.0, p.1, mx, my, rows)))
  }

  /** `parseModalDat`. */
  method ParseModalDat(before: seq<string>, body: seq<string>, parse: NumberParser) returns (r: Result<ModalDatFile>)
    ensures r == ModalDatOf(before, body, parse)
  {
    var baseShape := BaseShape.ParseBaseShapeInfo(Join(before, "\n"), parse);
    var frequencies := Frequencies(body, parse);
    var factors := Factors(body, parse);
    var ratioX := EffectiveMassRatio(body, X, parse);
    var ratioY := EffectiveMassRatio(body, Y, parse);
    var table := ReadEigenTable(body, FindContaining(body, EigenVectorTitle), parse);
    r := ModalFrom(baseShape, frequencies, factors, ratioX, ratioY, table);
  }

  /** The eigenvector part of `parseModalDat`, below a title at line `i`. */
  method ReadEigenTable(body: seq<string>, i: nat, parse: NumberParser) returns (r: Result<seq<EigenRow>>)
    ensures r == EigenTableAt(body, i, parse)
  {
    if i >= |body| {
      r := FormatFailure(EigenMissing);
    } else {
      var rows := ReadEigenRows(body, i + 2, RowReader(parse));
      r := NonEmptyTable(rows);
    }
  }

  // ---- what the reader accepts ------------------------------------------------------

  /** A row of the table: its label is the first token and it has one number per further token. */
  lemma RowShape(line: string, i: nat, parse: NumberParser)
    requires ReadRow(line, i, parse).Row?
    ensures var tokens := SplitCsvLikeLine(Trim(line));
      !EndsTable(line) && |tokens| >= 2
      && ReadRow(line, i, parse).row.rowLabel == tokens[0]
      && |ReadRow(line, i, parse).row.values| == |tokens| - 1
      && forall k :: 0 <= k < |tokens| - 1 ==> parse(tokens[k + 1]) == Some(ReadRow(line, i, parse).row.values[k])
  {
    var tokens := SplitCsvLikeLine(Trim(line));
    var field := "ModalResult.固有ベクトル." + tokens[0];
    var values := ToNumberListStrict(tokens[1..], field, parse);
    assert values.Ok? && ReadRow(line, i, parse).row == EigenRow(tokens[0], values.value);
    StrictAll(tokens[1..], field, parse);
    forall k | 0 <= k < |tokens| - 1
      ensures parse(tokens[k + 1]) == Some(values.value[k])
    {
      assert tokens[1..][k] == tokens[k + 1];
    }
  }

  /**
   * The table read from line `i`: row `k` is line `i + k`, read as a row, and
   * the line after the last row ends the table or is past the end.
   */
  lemma {:induction false} EigenRowsRead(lines: seq<string>, i: nat, read: (string, nat) -> RowOutcome, rows: seq<EigenRow>)
    requires EigenRowsFrom(lines, i, read) == Ok(rows)
    ensures |rows| > 0 ==> i + |rows| <= |lines|
    ensures forall k :: 0 <= k < |rows| ==> i + k < |lines| && read(lines[i + k], i + k) == Row(rows[k])
    ensures i + |rows| < |lines| ==> read(lines[i + |rows|], i + |rows|) == TableEnd
    decreases |lines| - i
  {
    if i >= |lines| || !read(lines[i], i).Row? {
      if i < |lines| {
        assert read(lines[i], i).TableEnd?;
      }
    } else {
      var rest := EigenRowsFrom(lines, i + 1, read).value;
      EigenRowsRead(lines, i + 1, read, rest);
      assert rows == [read(lines[i], i).row] + rest;
      forall k | 0 <= k < |rows|
        ensures i + k < |lines| && read(lines[i + k], i + k) == Row(rows[k])
      {
        if k > 0 {
          assert rows[k] == rest[k - 1];
          assert (i + 1) + (k - 1) == i + k;
        }
      }
    }
  }

  /**
   * The converse: lines that read as the given rows, followed by a line that
   * ends the table or by the end of the lines, make up the table.
   */
  lemma {:induction false} EigenRowsOf(lines: seq<string>, i: nat, read: (string, nat) -> RowOutcome, rows: seq<EigenRow>)
    requires i + |rows| <= |lines|
    requires forall k :: 0 <= k < |rows| ==> read(lines[i + k], i + k) == Row(rows[k])
    requires i + |rows| < |lines| ==> read(lines[i + |rows|], i + |rows|) == TableEnd
    ensures EigenRowsFrom(lines, i, read) == Ok(rows)
    decreases |rows|
  {
    if rows != [] {
      assert read(lines[i], i) == Row(rows[0]);
      forall k | 0 <= k < |rows| - 1
        ensures read(lines[(i + 1) + k], (i + 1) + k) == Row(rows[1..][k])
      {
        assert read(lines[i + (k + 1)], i + (k + 1)) == Row(rows[k + 1]);
      }
      EigenRowsOf(lines, i + 1, read, rows[1..]);
      assert [rows[0]] + rows[1..] == rows;
    }
  }

  /** An ill-formed row is a format error naming its line. */
  lemma BadRowRejected(lines: seq<string>, i: nat, parse: NumberParser)
    requires i < |lines| && !EndsTable(lines[i]) && |SplitCsvLikeLine(Trim(lines[i]))| < 2
    ensures EigenRowsFrom(lines, i, RowReader(parse)) == FormatFailure(BadRowMessage(i))
  {
  }

  /** A table whose rows all fail only with format errors fails only with format errors. */
  lemma {:induction false} EigenErrorsAreFormat(lines: seq<string>, i: nat, parse: NumberParser)
    ensures EigenRowsFrom(lines, i, RowReader(parse)).Err? ==> EigenRowsFrom(lines, i, RowReader(parse)).error.FormatParseError?
    decreases |lines| - i
  {
    if i < |lines| {
      var outcome := ReadRow(lines[i], i, parse);
      assert RowReader(parse)(lines[i], i) == outcome;
      if outcome.Row? {
        EigenErrorsAreFormat(lines, i + 1, parse);
      }
    }
  }

  /** The parts succeed together, and the first failing part gives the error. */
  lemma ModalFromParts(shape: Result<BaseShapeInfo>, frequencies: Result<seq<real>>, factors: Result<(seq<real>, seq<real>)>,
                       ratioX: Result<seq<real>>, ratioY: Result<seq<real>>, table: Result<seq<EigenRow>>)
    ensures var r := ModalFrom(shape, frequencies, factors, ratioX, ratioY, table);
      (r.Ok? <==> shape.Ok? && frequencies.Ok? && factors.Ok? && ratioX.Ok? && ratioY.Ok? && table.Ok?)
      && (r.Ok? ==> (r.value.baseShape == shape.value
            && r.value.modal == ModalResult(frequencies.value, factors.value.0, factors.value.1, ratioX.value, ratioY.value, table.value)))
      && (shape.Err? ==> r == Err(shape.error))
      && (shape.Ok? && frequencies.Err? ==> r == Err(frequencies.error))
      && (shape.Ok? && frequencies.Ok? && factors.Err? ==> r == Err(factors.error))
      && (shape.Ok? && frequencies.Ok? && factors.Ok? && ratioX.Err? ==> r == Err(ratioX.error))
      && (shape.Ok? && frequencies.Ok? && factors.Ok? && ratioX.Ok? && ratioY.Err? ==> r == Err(ratioY.error))
      && (shape.Ok? && frequencies.Ok? && factors.Ok? && ratioX.Ok? && ratioY.Ok? && table.Err? ==> r == Err(table.error))
  {
  }

  /** Every way `parseModalDat` fails is a format error. */
  lemma ModalDatErrorsAreFormat(before: seq<string>, body: seq<string>, parse: NumberParser)
    ensures ModalDatOf(before, body, parse).Err? ==> ModalDatOf(before, body, parse).error.FormatParseError?
  {
    BaseShape.BaseShapeErrorIsFormat(Join(before, "\n"), parse);
    ModalFromParts(BaseShape.BaseShapeOf(Join(before, "\n"), parse), Frequencies(body, parse), Factors(body, parse),
                   EffectiveMassRatio(body, X, parse), EffectiveMassRatio(body, Y, parse), EigenTable(body, parse));
  }

  /**
   * An accepted file: each field of the result is what its part read from
   * the body, the base shape is what the lines before the section give, and
   * the eigenvector table has at least one row.
   */
  lemma ModalLayout(before: seq<string>, body: seq<string>, parse: NumberParser, f: ModalDatFile)
    requires ModalDatOf(before, body, parse) == Ok(f)
    ensures BaseShape.BaseShapeOf(Join(before, "\n"), parse) == Ok(f.baseShape)
    ensures Frequencies(body, parse) == Ok(f.modal.frequenciesHz)
    ensures Factors(body, parse) == Ok((f.modal.participationFactorX, f.modal.participationFactorY))
    ensures EffectiveMassRatio(body, X, parse) == Ok(f.modal.effectiveMassRatioX)
    ensures EffectiveMassRatio(body, Y, parse) == Ok(f.modal.effectiveMassRatioY)
    ensures EigenTable(body, parse) == Ok(f.modal.eigenVectors) && |f.modal.eigenVectors| >= 1
  {
    ModalFromParts(BaseShape.BaseShapeOf(Join(before, "\n"), parse), Frequencies(body, parse), Factors(body, parse),
                   EffectiveMassRatio(body, X, parse), EffectiveMassRatio(body, Y, parse), EigenTable(body, parse));
  }
}
