/*
 * Reading back what the modal writer writes. When numbers are written as
 * plain numerals that the number parser reads back to the same value, every
 * list is non-empty and every eigenvector row has a plain label, the modal
 * reader gives back the result the writer was given: the same frequencies,
 * factors, mass ratios and eigenvector rows, in order.
 */
module ModalRoundTrip {
  import opened Results
  import opened Numbers
  import opened Strings
  import opened Building
  import opened Text
  import opened ModalDat
  import opened ModalWrite
  import BaseShape

  /** A label the eigenvector table can carry: non-empty, trimmed, no comma, not a comment. */
  predicate PlainLabel(s: string)
  {
    |s| >= 1 && IsTrimmed(s) && ',' !in s && s[0] != '#'
  }

  /** A modal result the writer's text can carry. */
  predicate Writable(m: ModalResult)
  {
    |m.frequenciesHz| >= 1 && |m.participationFactorX| >= 1 && |m.participationFactorY| >= 1
    && |m.effectiveMassRatioX| >= 1 && |m.effectiveMassRatioY| >= 1 && |m.eigenVectors| >= 1
    && forall k :: 0 <= k < |m.eigenVectors| ==>
         PlainLabel(m.eigenVectors[k].rowLabel) && |m.eigenVectors[k].values| >= 1
  }

  // ---- characters of the written lines ---------------------------------------------

  /** A formatted number is trimmed, has no comma and no character outside the numerals. */
  lemma Formatted(fmt: NumberFormatter, x: real)
    requires WritesNumerals(fmt)
    ensures |fmt(x)| >= 1 && IsTrimmed(fmt(x)) && ',' !in fmt(x)
    ensures forall c :: !NumeralChar(c) ==> c !in fmt(x)
  {
    assert IsNumeral(fmt(x));
  }

  /** A join lacks a character that neither the separator nor any part holds. */
  lemma {:induction false} JoinLacks(parts: seq<string>, sep: string, c: char)
    requires c !in sep
    requires forall k :: 0 <= k < |parts| ==> c !in parts[k]
    ensures c !in Join(parts, sep)
  {
    if |parts| > 1 {
      JoinLacks(parts[1..], sep, c);
      assert Join(parts, sep) == parts[0] + sep + Join(parts[1..], sep);
    }
  }

  /** A line without the first character of a title neither starts with it nor holds it. */
  lemma {:induction false} Avoids(s: string, t: string)
    requires |t| >= 1 && t[0] !in s
    ensures !StartsWith(s, t) && !Contains(s, t)
    decreases |s|
  {
    if |t| <= |s| {
      assert s[..|t|][0] == s[0];
    }
    if s != [] {
      assert t[0] !in s[1..] by {
        assert forall j :: 0 <= j < |s| - 1 ==> s[1..][j] == s[j + 1];
      }
      Avoids(s[1..], t);
    }
  }

  /** Written numbers hold no character outside the numerals and the comma. */
  lemma NumbersLack(xs: seq<real>, fmt: NumberFormatter, c: char)
    requires WritesNumerals(fmt) && !NumeralChar(c) && c != ','
    ensures c !in NumbersText(xs, fmt)
  {
    var cells := Cells(xs, fmt);
    forall k | 0 <= k < |cells|
      ensures c !in cells[k]
    {
      Formatted(fmt, xs[k]);
    }
    JoinLacks(cells, ",", c);
  }

  /** The mode header holds digits, commas and "次" only. */
  lemma HeaderLacks(n: nat, c: char)
    requires !('0' <= c <= '9') && c != ',' && c != '次'
    ensures c !in Join(ModeLabels(n), ",")
  {
    var labels := ModeLabels(n);
    forall k | 0 <= k < |labels|
      ensures c !in labels[k]
    {
      if k > 0 {
        var digits := NatToString(k);
        assert labels[k] == digits + "次";
        assert c !in digits;
      }
    }
    JoinLacks(labels, ",", c);
  }

  // ---- one written line read back --------------------------------------------------

  /** Trimmed comma-free cells joined by commas split back into themselves. */
  lemma CsvOfJoin(parts: seq<string>)
    requires |parts| >= 1
    requires forall k :: 0 <= k < |parts| ==> IsTrimmed(parts[k]) && ',' !in parts[k]
    ensures SplitCsvLikeLine(Join(parts, ",")) == parts
  {
    assert "," == [','];
    SplitJoin(parts, ',');
    forall k | 0 <= k < |parts|
      ensures Trim(parts[k]) == parts[k]
    {
      TrimmedFixpoint(parts[k]);
    }
  }

  /** Formatted numbers convert back strictly to the numbers. */
  lemma StrictCells(xs: seq<real>, fmt: NumberFormatter, field: string, parse: NumberParser)
    requires ReadsBack(fmt, parse)
    ensures ToNumberListStrict(Cells(xs, fmt), field, parse) == Ok(xs)
  {
    var cells := Cells(xs, fmt);
    forall k | 0 <= k < |cells|
      ensures parse(cells[k]) == Some(xs[k])
    {
      ReadBack(fmt, parse, xs[k]);
    }
    StrictAll(cells, field, parse);
    var r := ToNumberListStrict(cells, field, parse);
    assert r.value == xs by {
      forall k | 0 <= k < |xs|
        ensures r.value[k] == xs[k]
      {
        assert parse(cells[k]) == Some(xs[k]);
      }
    }
  }

  /** The cells of a line of numbers. */
  lemma NumbersCells(xs: seq<real>, fmt: NumberFormatter)
    requires WritesNumerals(fmt) && |xs| >= 1
    ensures SplitCsvLikeLine(NumbersText(xs, fmt)) == Cells(xs, fmt)
  {
    forall k | 0 <= k < |xs| {
      Formatted(fmt, xs[k]);
    }
    CsvOfJoin(Cells(xs, fmt));
  }

  /** A line of a first cell and numbers: its cells are the first cell and the numbers. */
  lemma LabelledCells(p: string, xs: seq<real>, fmt: NumberFormatter)
    requires WritesNumerals(fmt) && |xs| >= 1 && IsTrimmed(p) && ',' !in p
    ensures SplitCsvLikeLine(p + "," + NumbersText(xs, fmt)) == [p] + Cells(xs, fmt)
  {
    var cells := Cells(xs, fmt);
    forall k | 0 <= k < |xs| {
      Formatted(fmt, xs[k]);
    }
    JoinCons(p, cells, ",");
    CsvOfJoin([p] + cells);
  }

  /** The numbers after the first cell read back. */
  lemma LabelledNumbers(p: string, xs: seq<real>, fmt: NumberFormatter, field: string, parse: NumberParser)
    requires WritesNumerals(fmt) && ReadsBack(fmt, parse) && |xs| >= 1 && IsTrimmed(p) && ',' !in p
    ensures RowNumbers(p + "," + NumbersText(xs, fmt), field, parse) == Ok(xs)
  {
    LabelledCells(p, xs, fmt);
    assert ([p] + Cells(xs, fmt))[1..] == Cells(xs, fmt);
    StrictCells(xs, fmt, field, parse);
  }

  /** A written eigenvector row reads back as that row. */
  lemma RowReadBack(row: EigenRow, i: nat, fmt: NumberFormatter, parse: NumberParser)
    requires WritesNumerals(fmt) && ReadsBack(fmt, parse)
    requires PlainLabel(row.rowLabel) && |row.values| >= 1
    ensures ReadRow(EigenLine(row, fmt), i, parse) == Row(row)
  {
    var line := EigenLine(row, fmt);
    var name := row.rowLabel;
    var numbers := NumbersText(row.values, fmt);
    Formatted(fmt, row.values[|row.values| - 1]);
    assert IsTrimmed(line) by {
      LastOfJoin(Cells(row.values, fmt));
      assert line == name + ("," + numbers);
      assert line[0] == name[0];
      assert line[|line| - 1] == numbers[|numbers| - 1];
    }
    TrimmedFixpoint(line);
    assert !EndsTable(line) by {
      assert line[0] == name[0];
    }
    LabelledCells(name, row.values, fmt);
    var tokens := [name] + Cells(row.values, fmt);
    assert tokens[1..] == Cells(row.values, fmt);
    StrictCells(row.values, fmt, "ModalResult.固有ベクトル." + name, parse);
  }

  /** The last character of a join of numerals is that of the last numeral. */
  lemma {:induction false} LastOfJoin(parts: seq<string>)
    requires |parts| >= 1 && |parts[|parts| - 1]| >= 1
    ensures |Join(parts, ",")| >= 1
    ensures Join(parts, ",")[|Join(parts, ",")| - 1] == parts[|parts| - 1][|parts[|parts| - 1]| - 1]
  {
    if |parts| > 1 {
      LastOfJoin(parts[1..]);
    }
  }

  // ---- the parts of the body read back ---------------------------------------------

  /** The frequencies read back from the first three lines of the body. */
  lemma FrequenciesBack(body: seq<string>, xs: seq<real>, fmt: NumberFormatter, parse: NumberParser)
    requires WritesNumerals(fmt) && ReadsBack(fmt, parse) && |xs| >= 1
    requires |body| >= 3 && body[0] == "〇固有振動数" && body[2] == "," + NumbersText(xs, fmt)
    ensures Frequencies(body, parse) == Ok(xs)
  {
    assert body[0][1..1 + |FrequencyTitle|] == FrequencyTitle;
    ContainsAt(body[0], FrequencyTitle, 1);
    assert FindContaining(body, FrequencyTitle) == 0;
    assert body[2] == "" + "," + NumbersText(xs, fmt);
    LabelledNumbers("", xs, fmt, "ModalResult.固有振動数", parse);
  }

  /** The participation factors read back from lines 3 and 4. */
  lemma FactorsBack(body: seq<string>, n: nat, zs: seq<real>, xs: seq<real>, ys: seq<real>, fmt: NumberFormatter, parse: NumberParser)
    requires WritesNumerals(fmt) && ReadsBack(fmt, parse) && |xs| >= 1 && |ys| >= 1
    requires |body| >= 5 && body[0] == "〇固有振動数" && body[1] == Join(ModeLabels(n), ",")
    requires body[2] == "," + NumbersText(zs, fmt)
    requires body[3] == "刺激係数X," + NumbersText(xs, fmt) && body[4] == "刺激係数Y," + NumbersText(ys, fmt)
    ensures Factors(body, parse) == Ok((xs, ys))
  {
    FactorIndexX(body, n, zs, xs, fmt, FindStarting(body, FactorXTitle));
    FactorIndexY(body, n, zs, xs, ys, fmt, FindStarting(body, FactorYTitle));
    FactorsAtBack(body, xs, ys, fmt, parse);
  }

  /** Line 3 is the first to start with the X participation-factor title. */
  lemma FactorIndexX(body: seq<string>, n: nat, zs: seq<real>, xs: seq<real>, fmt: NumberFormatter, x: nat)
    requires |body| >= 4 && body[0] == "〇固有振動数" && body[1] == Join(ModeLabels(n), ",")
    requires body[2] == "," + NumbersText(zs, fmt) && body[3] == "刺激係数X," + NumbersText(xs, fmt)
    requires x == FindStarting(body, FactorXTitle)
    ensures x == 3
  {
    HeaderLacks(n, '刺');
    FactorLines(body[0], body[1], body[2]);
    TitleStarts(body[3], FactorXTitle, "," + NumbersText(xs, fmt));
    FirstStartingAt(body, FactorXTitle, 3);
  }

  /** Line 4 is the first to start with the Y participation-factor title. */
  lemma FactorIndexY(body: seq<string>, n: nat, zs: seq<real>, xs: seq<real>, ys: seq<real>, fmt: NumberFormatter, y: nat)
    requires |body| >= 5 && body[0] == "〇固有振動数" && body[1] == Join(ModeLabels(n), ",")
    requires body[2] == "," + NumbersText(zs, fmt)
    requires body[3] == "刺激係数X," + NumbersText(xs, fmt) && body[4] == "刺激係数Y," + NumbersText(ys, fmt)
    requires y == FindStarting(body, FactorYTitle)
    ensures y == 4
  {
    HeaderLacks(n, '刺');
    FactorLines(body[0], body[1], body[2]);
    TitleStarts(body[4], FactorYTitle, "," + NumbersText(ys, fmt));
    DiffersAt(body[3], FactorYTitle, 4);
    FirstStartingAt(body, FactorYTitle, 4);
  }

  /** A line made of a title and more starts with the title. */
  lemma TitleStarts(line: string, title: string, rest: string)
    requires line == title + rest
    ensures StartsWith(line, title)
  {
    assert line[..|title|] == title;
  }

  /** A line differing from `t` at position `j` does not start with `t`. */
  lemma DiffersAt(line: string, t: string, j: nat)
    requires j < |t| && j < |line| && line[j] != t[j]
    ensures !StartsWith(line, t)
  {
    if |t| <= |line| {
      assert line[..|t|][j] == line[j];
    }
  }

  /** The factor rows at lines 3 and 4 read back. */
  lemma FactorsAtBack(body: seq<string>, xs: seq<real>, ys: seq<real>, fmt: NumberFormatter, parse: NumberParser)
    requires WritesNumerals(fmt) && ReadsBack(fmt, parse) && |xs| >= 1 && |ys| >= 1
    requires |body| >= 5
    requires body[3] == "刺激係数X," + NumbersText(xs, fmt) && body[4] == "刺激係数Y," + NumbersText(ys, fmt)
    ensures FactorsAt(body, 3, 4, parse) == Ok((xs, ys))
  {
    FactorLineBack(body[3], "刺激係数X,", xs, fmt, "ModalResult.刺激係数X", parse);
    FactorLineBack(body[4], "刺激係数Y,", ys, fmt, "ModalResult.刺激係数Y", parse);
  }

  /** A participation-factor line, its title and the numbers, reads back as the numbers. */
  lemma FactorLineBack(line: string, title: string, xs: seq<real>, fmt: NumberFormatter, field: string, parse: NumberParser)
    requires WritesNumerals(fmt) && ReadsBack(fmt, parse) && |xs| >= 1
    requires title == "刺激係数X," || title == "刺激係数Y,"
    requires line == title + NumbersText(xs, fmt)
    ensures RowNumbers(line, field, parse) == Ok(xs)
  {
    var p := title[..5];
    assert title == p + ",";
    assert p[0] == '刺' && p[4] != ' ';
    assert forall k :: 0 <= k < |p| ==> p[k] != ',';
    assert line == p + "," + NumbersText(xs, fmt);
    LabelledNumbers(p, xs, fmt, field, parse);
  }

  /** None of the first three lines starts with a participation-factor title. */
  lemma FactorLines(title: string, header: string, numbers: string)
    requires title == "〇固有振動数" && '刺' !in header && |numbers| >= 1 && numbers[0] == ','
    ensures !StartsWith(title, FactorXTitle) && !StartsWith(title, FactorYTitle)
    ensures !StartsWith(header, FactorXTitle) && !StartsWith(header, FactorYTitle)
    ensures !StartsWith(numbers, FactorXTitle) && !StartsWith(numbers, FactorYTitle)
  {
    Avoids(header, FactorXTitle);
    Avoids(header, FactorYTitle);
    assert title[0] == '〇';
  }

  /** The first line starting with `t` is line `j` when it starts with `t` and no earlier line does. */
  lemma FirstStartingAt(lines: seq<string>, t: string, j: nat)
    requires j < |lines| && StartsWith(lines[j], t)
    requires forall k :: 0 <= k < j ==> !StartsWith(lines[k], t)
    ensures FindStarting(lines, t) == j
  {
  }

  /** Line 5 is the first to start with the X mass-ratio title. */
  lemma MassIndexX(body: seq<string>, n: nat, zs: seq<real>, xs: seq<real>, ys: seq<real>, fmt: NumberFormatter, i: nat)
    requires |body| >= 6 && body[0] == "〇固有振動数" && body[1] == Join(ModeLabels(n), ",")
    requires body[2] == "," + NumbersText(zs, fmt)
    requires body[3] == "刺激係数X," + NumbersText(xs, fmt) && body[4] == "刺激係数Y," + NumbersText(ys, fmt)
    requires body[5] == "有効質量比X"
    requires i == FindStarting(body, MassRatioTitle(X))
    ensures i == 5
  {
    var t := MassRatioTitle(X);
    assert t == "有効質量比X";
    HeaderLacks(n, '有');
    Avoids(body[1], t);
    DiffersAt(body[0], t, 0);
    DiffersAt(body[2], t, 0);
    DiffersAt(body[3], t, 0);
    DiffersAt(body[4], t, 0);
    TitleStarts(body[5], t, "");
    FirstStartingAt(body, t, 5);
  }

  /** Line 7 is the first to start with the Y mass-ratio title. */
  lemma MassIndexY(body: seq<string>, n: nat, zs: seq<real>, xs: seq<real>, ys: seq<real>, ex: seq<real>,
                   fmt: NumberFormatter, i: nat)
    requires WritesNumerals(fmt)
    requires |body| >= 8 && body[0] == "〇固有振動数" && body[1] == Join(ModeLabels(n), ",")
    requires body[2] == "," + NumbersText(zs, fmt)
    requires body[3] == "刺激係数X," + NumbersText(xs, fmt) && body[4] == "刺激係数Y," + NumbersText(ys, fmt)
    requires body[5] == "有効質量比X" && body[6] == NumbersText(ex, fmt) && body[7] == "有効質量比Y"
    requires i == FindStarting(body, MassRatioTitle(Y))
    ensures i == 7
  {
    var t := MassRatioTitle(Y);
    assert t == "有効質量比Y";
    HeaderLacks(n, '有');
    Avoids(body[1], t);
    NumbersLack(ex, fmt, '有');
    Avoids(body[6], t);
    DiffersAt(body[0], t, 0);
    DiffersAt(body[2], t, 0);
    DiffersAt(body[3], t, 0);
    DiffersAt(body[4], t, 0);
    DiffersAt(body[5], t, 5);
    TitleStarts(body[7], t, "");
    FirstStartingAt(body, t, 7);
  }

  /** The numbers on the line below a mass-ratio title read back. */
  lemma MassRatioBack(body: seq<string>, d: Direction, j: nat, xs: seq<real>, fmt: NumberFormatter, parse: NumberParser)
    requires WritesNumerals(fmt) && ReadsBack(fmt, parse) && |xs| >= 1
    requires j + 1 < |body| && FindStarting(body, MassRatioTitle(d)) == j && body[j + 1] == NumbersText(xs, fmt)
    ensures EffectiveMassRatio(body, d, parse) == Ok(xs)
  {
    NumbersCells(xs, fmt);
    StrictCells(xs, fmt, "ModalResult." + MassRatioTitle(d), parse);
  }

  /** Both mass ratios read back from lines 6 and 8. */
  lemma MassRatiosBack(body: seq<string>, n: nat, zs: seq<real>, xs: seq<real>, ys: seq<real>, ex: seq<real>, ey: seq<real>,
                       fmt: NumberFormatter, parse: NumberParser)
    requires WritesNumerals(fmt) && ReadsBack(fmt, parse) && |ex| >= 1 && |ey| >= 1
    requires |body| >= 9 && body[0] == "〇固有振動数" && body[1] == Join(ModeLabels(n), ",")
    requires body[2] == "," + NumbersText(zs, fmt)
    requires body[3] == "刺激係数X," + NumbersText(xs, fmt) && body[4] == "刺激係数Y," + NumbersText(ys, fmt)
    requires body[5] == "有効質量比X" && body[6] == NumbersText(ex, fmt)
    requires body[7] == "有効質量比Y" && body[8] == NumbersText(ey, fmt)
    ensures EffectiveMassRatio(body, X, parse) == Ok(ex) && EffectiveMassRatio(body, Y, parse) == Ok(ey)
  {
    MassIndexX(body, n, zs, xs, ys, fmt, FindStarting(body, MassRatioTitle(X)));
    MassIndexY(body, n, zs, xs, ys, ex, fmt, FindStarting(body, MassRatioTitle(Y)));
    MassRatioBack(body, X, 5, ex, fmt, parse);
    MassRatioBack(body, Y, 7, ey, fmt, parse);
  }

  /** A text shorter than `t` does not contain it. */
  lemma {:induction false} ShortLacks(s: string, t: string)
    requires |s| < |t|
    ensures !Contains(s, t)
    decreases |s|
  {
    if s != [] {
      ShortLacks(s[1..], t);
    }
  }

  /** The first line containing `t` is line `j` when it contains `t` and no earlier line does. */
  lemma FirstContainingAt(lines: seq<string>, t: string, j: nat)
    requires j < |lines| && Contains(lines[j], t)
    requires forall k :: 0 <= k < j ==> !Contains(lines[k], t)
    ensures FindContaining(lines, t) == j
  {
  }

  /** A line of numbers after a prefix without `固` does not contain the eigenvector title. */
  lemma NumbersLineLacksTitle(line: string, p: string, xs: seq<real>, fmt: NumberFormatter)
    requires WritesNumerals(fmt) && '固' !in p && line == p + NumbersText(xs, fmt)
    ensures !Contains(line, EigenVectorTitle)
  {
    NumbersLack(xs, fmt, '固');
    Avoids(line, EigenVectorTitle);
  }

  /** None of the ten lines above the eigenvector title line contains the title. */
  lemma EigenTitleAbsent(body: seq<string>, n: nat, zs: seq<real>, xs: seq<real>, ys: seq<real>, ex: seq<real>, ey: seq<real>,
                         fmt: NumberFormatter)
    requires WritesNumerals(fmt)
    requires |body| >= 10 && body[0] == "〇固有振動数" && body[1] == Join(ModeLabels(n), ",")
    requires body[2] == "," + NumbersText(zs, fmt)
    requires body[3] == "刺激係数X," + NumbersText(xs, fmt) && body[4] == "刺激係数Y," + NumbersText(ys, fmt)
    requires body[5] == "有効質量比X" && body[6] == NumbersText(ex, fmt)
    requires body[7] == "有効質量比Y" && body[8] == NumbersText(ey, fmt)
    requires body[9] == ""
    ensures !Contains(body[0], EigenVectorTitle) && !Contains(body[1], EigenVectorTitle) && !Contains(body[2], EigenVectorTitle)
    ensures !Contains(body[3], EigenVectorTitle) && !Contains(body[4], EigenVectorTitle) && !Contains(body[5], EigenVectorTitle)
    ensures !Contains(body[6], EigenVectorTitle) && !Contains(body[7], EigenVectorTitle) && !Contains(body[8], EigenVectorTitle)
    ensures !Contains(body[9], EigenVectorTitle)
  {
    var t := EigenVectorTitle;
    assert !Contains(body[0], t) by {
      DiffersAt(body[0], t, 0);
      ShortLacks(body[0][1..], t);
    }
    HeaderLacks(n, '固');
    Avoids(body[1], t);
    NumbersLineLacksTitle(body[2], ",", zs, fmt);
    NumbersLineLacksTitle(body[3], "刺激係数X,", xs, fmt);
    NumbersLineLacksTitle(body[4], "刺激係数Y,", ys, fmt);
    Avoids(body[5], t);
    assert body[6] == "" + NumbersText(ex, fmt);
    NumbersLineLacksTitle(body[6], "", ex, fmt);
    Avoids(body[7], t);
    assert body[8] == "" + NumbersText(ey, fmt);
    NumbersLineLacksTitle(body[8], "", ey, fmt);
    ShortLacks(body[9], t);
  }

  /** Line 10 is the first to contain the eigenvector title. */
  lemma EigenIndex(body: seq<string>, i: nat)
    requires |body| >= 11 && body[10] == "〇固有ベクトル"
    requires !Contains(body[0], EigenVectorTitle) && !Contains(body[1], EigenVectorTitle) && !Contains(body[2], EigenVectorTitle)
    requires !Contains(body[3], EigenVectorTitle) && !Contains(body[4], EigenVectorTitle) && !Contains(body[5], EigenVectorTitle)
    requires !Contains(body[6], EigenVectorTitle) && !Contains(body[7], EigenVectorTitle) && !Contains(body[8], EigenVectorTitle)
    requires !Contains(body[9], EigenVectorTitle)
    requires i == FindContaining(body, EigenVectorTitle)
    ensures i == 10
  {
    var t := EigenVectorTitle;
    assert body[10][1..1 + |t|] == t;
    ContainsAt(body[10], t, 1);
    FirstContainingAt(body, t, 10);
  }

  /** The eigenvector rows written from line 12 on, closed by a blank line, read back. */
  lemma EigenRowsBack(body: seq<string>, rows: seq<EigenRow>, fmt: NumberFormatter, parse: NumberParser)
    requires WritesNumerals(fmt) && ReadsBack(fmt, parse)
    requires |rows| >= 1 && forall k :: 0 <= k < |rows| ==> PlainLabel(rows[k].rowLabel) && |rows[k].values| >= 1
    requires |body| >= 13 + |rows| && body[12 + |rows|] == ""
    requires forall k :: 0 <= k < |rows| ==> body[12 + k] == EigenLine(rows[k], fmt)
    ensures EigenTableAt(body, 10, parse) == Ok(rows)
  {
    RowsReadBack(body, rows, fmt, parse);
    TableReadsRows(body, 12, RowReader(parse), rows);
  }

  /** The rows `read` finds at line `i` on, and the line after them that ends the table. */
  ghost predicate ReadsRows(lines: seq<string>, i: nat, read: (string, nat) -> RowOutcome, rows: seq<EigenRow>)
  {
    i + |rows| < |lines|
    && (forall k :: 0 <= k < |rows| ==> read(lines[i + k], i + k) == Row(rows[k]))
    && read(lines[i + |rows|], i + |rows|) == TableEnd
  }

  /** Rows followed by the end of the table are the table. */
  lemma TableReadsRows(lines: seq<string>, i: nat, read: (string, nat) -> RowOutcome, rows: seq<EigenRow>)
    requires ReadsRows(lines, i, read, rows)
    ensures EigenRowsFrom(lines, i, read) == Ok(rows)
  {
    EigenRowsOf(lines, i, read, rows);
  }

  /** Each written eigenvector line from line 12 on reads back as its row. */
  lemma RowsReadBack(body: seq<string>, rows: seq<EigenRow>, fmt: NumberFormatter, parse: NumberParser)
    requires WritesNumerals(fmt) && ReadsBack(fmt, parse)
    requires forall k :: 0 <= k < |rows| ==> PlainLabel(rows[k].rowLabel) && |rows[k].values| >= 1
    requires |body| >= 13 + |rows|
    requires forall k :: 0 <= k < |rows| ==> body[12 + k] == EigenLine(rows[k], fmt)
    requires body[12 + |rows|] == ""
    ensures ReadsRows(body, 12, RowReader(parse), rows)
  {
    BlankEndsTable(body[12 + |rows|], 12 + |rows|, parse);
    forall k | 0 <= k < |rows|
      ensures RowReader(parse)(body[12 + k], 12 + k) == Row(rows[k])
    {
      RowReadBack(rows[k], 12 + k, fmt, parse);
      assert RowReader(parse)(body[12 + k], 12 + k) == ReadRow(body[12 + k], 12 + k, parse);
    }
  }

  /** A blank line ends the eigenvector table. */
  lemma BlankEndsTable(line: string, i: nat, parse: NumberParser)
    requires line == ""
    ensures RowReader(parse)(line, i) == TableEnd
  {
    assert Trim("") == "";
    assert RowReader(parse)(line, i) == ReadRow("", i, parse);
  }

  // ---- the whole body -------------------------------------------------------------

  /** The lines of a modal body written from `m`, one by one. */
  predicate LaidOut(body: seq<string>, m: ModalResult, fmt: NumberFormatter)
  {
    |body| == 13 + |m.eigenVectors|
    && body[0] == "〇固有振動数" && body[1] == Join(ModeLabels(|m.frequenciesHz|), ",")
    && body[2] == "," + NumbersText(m.frequenciesHz, fmt)
    && body[3] == "刺激係数X," + NumbersText(m.participationFactorX, fmt)
    && body[4] == "刺激係数Y," + NumbersText(m.participationFactorY, fmt)
    && body[5] == "有効質量比X" && body[6] == NumbersText(m.effectiveMassRatioX, fmt)
    && body[7] == "有効質量比Y" && body[8] == NumbersText(m.effectiveMassRatioY, fmt)
    && body[9] == "" && body[10] == "〇固有ベクトル" && body[12 + |m.eigenVectors|] == ""
    && forall k :: 0 <= k < |m.eigenVectors| ==> body[12 + k] == EigenLine(m.eigenVectors[k], fmt)
  }

  /** The twelve head lines one by one. */
  lemma HeadLines(m: ModalResult, fmt: NumberFormatter, head: seq<string>)
    requires head == BodyHead(m, fmt)
    ensures head[0] == "〇固有振動数" && head[1] == Join(ModeLabels(|m.frequenciesHz|), ",")
    ensures head[2] == "," + NumbersText(m.frequenciesHz, fmt)
    ensures head[3] == "刺激係数X," + NumbersText(m.participationFactorX, fmt)
    ensures head[4] == "刺激係数Y," + NumbersText(m.participationFactorY, fmt)
    ensures head[5] == "有効質量比X" && head[6] == NumbersText(m.effectiveMassRatioX, fmt)
    ensures head[7] == "有効質量比Y" && head[8] == NumbersText(m.effectiveMassRatioY, fmt)
    ensures head[9] == "" && head[10] == "〇固有ベクトル"
  {
  }

  /** The modal body: the head lines, one line per eigenvector row, a blank line. */
  lemma BodyLines(m: ModalResult, fmt: NumberFormatter, body: seq<string>)
    requires body == ModalBody(m, fmt)
    ensures LaidOut(body, m, fmt)
  {
    var head := BodyHead(m, fmt);
    var rows := EigenLines(m.eigenVectors, fmt);
    assert body == head + rows + [""];
    forall k | 0 <= k < |m.eigenVectors|
      ensures body[12 + k] == EigenLine(m.eigenVectors[k], fmt)
    {
      assert body[12 + k] == rows[k];
    }
    assert forall k :: 0 <= k < 12 ==> body[k] == head[k];
    HeadLines(m, fmt, head);
  }

  /** The numbers above the eigenvector table read back. */
  lemma HeadBack(body: seq<string>, m: ModalResult, fmt: NumberFormatter, parse: NumberParser)
    requires WritesNumerals(fmt) && ReadsBack(fmt, parse) && Writable(m) && LaidOut(body, m, fmt)
    ensures Frequencies(body, parse) == Ok(m.frequenciesHz)
    ensures Factors(body, parse) == Ok((m.participationFactorX, m.participationFactorY))
    ensures EffectiveMassRatio(body, X, parse) == Ok(m.effectiveMassRatioX)
    ensures EffectiveMassRatio(body, Y, parse) == Ok(m.effectiveMassRatioY)
  {
    var n, zs, xs, ys, ex, ey := |m.frequenciesHz|, m.frequenciesHz, m.participationFactorX, m.participationFactorY,
      m.effectiveMassRatioX, m.effectiveMassRatioY;
    FrequenciesBack(body, zs, fmt, parse);
    FactorsBack(body, n, zs, xs, ys, fmt, parse);
    MassRatiosBack(body, n, zs, xs, ys, ex, ey, fmt, parse);
  }

  /** The eigenvector table reads back. */
  lemma TableBack(body: seq<string>, m: ModalResult, fmt: NumberFormatter, parse: NumberParser)
    requires WritesNumerals(fmt) && ReadsBack(fmt, parse) && Writable(m) && LaidOut(body, m, fmt)
    ensures EigenTable(body, parse) == Ok(m.eigenVectors)
  {
    EigenTitleAbsent(body, |m.frequenciesHz|, m.frequenciesHz, m.participationFactorX, m.participationFactorY,
      m.effectiveMassRatioX, m.effectiveMassRatioY, fmt);
    EigenIndex(body, FindContaining(body, EigenVectorTitle));
    EigenRowsBack(body, m.eigenVectors, fmt, parse);
  }

  /** Every part of a written modal body reads back to the result it was written from. */
  lemma ModalBodyBack(m: ModalResult, fmt: NumberFormatter, parse: NumberParser)
    requires WritesNumerals(fmt) && ReadsBack(fmt, parse) && Writable(m)
    ensures var body := ModalBody(m, fmt);
      Frequencies(body, parse) == Ok(m.frequenciesHz)
      && Factors(body, parse) == Ok((m.participationFactorX, m.participationFactorY))
      && EffectiveMassRatio(body, X, parse) == Ok(m.effectiveMassRatioX)
      && EffectiveMassRatio(body, Y, parse) == Ok(m.effectiveMassRatioY)
      && EigenTable(body, parse) == Ok(m.eigenVectors)
  {
    var body := ModalBody(m, fmt);
    BodyLines(m, fmt, body);
    HeadBack(body, m, fmt, parse);
    TableBack(body, m, fmt, parse);
  }

  /**
   * `parseModalDat` on a written modal section gives back the written result:
   * whatever base shape the lines before the section hold, and the modal
   * result `m` itself, so the numbers of modes and of eigenvector rows carry over.
   */
  lemma ModalDatRoundTrip(before: seq<string>, shape: BaseShapeInfo, m: ModalResult, fmt: NumberFormatter, parse: NumberParser)
    requires WritesNumerals(fmt) && ReadsBack(fmt, parse) && Writable(m)
    requires BaseShape.BaseShapeOf(Join(before, "\n"), parse) == Ok(shape)
    ensures ModalDatOf(before, ModalBody(m, fmt), parse) == Ok(ModalDatFile(shape, m))
  {
    ModalBodyBack(m, fmt, parse);
  }
}
