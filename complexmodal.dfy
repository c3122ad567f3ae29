/*
 * The complex-modal DAT file of src/io/complexModal.ts.
 *
 * The parser walks the modal section line by line with a current mode: a
 * mode row opens a new mode and makes it current, a "** N次" header makes the
 * first mode numbered N current (or none), and a vector row is appended to
 * the current mode. The five regular expressions of `parseComplexModalDat` are the
 * parameter `Matchers`: each classifies a trimmed, non-empty line, and the two
 * that capture numbers return them already converted. The serializer pushes
 * the base-shape lines, the mode table and one block per mode.
 */
module ComplexModalDat {
  import opened Results
  import opened Numbers
  import opened Strings
  import opened Building
  import opened Sorting
  import ModalWrite
  import BaseShape

  /** The captures of a mode row: mode number, frequency, damping ratio and the eigenvalue's two parts. */
  datatype ModeRow = ModeRow(mode: real, frequencyHz: real, dampingRatioPercent: real, eigenValueReal: real, eigenValueImag: real)

  datatype Matchers = Matchers(
    modeRow: string -> Option<ModeRow>,
    modeRowStart: string -> bool,
    modeHeader: string -> Option<real>,
    vectorRow: string -> Option<ComplexModeVector>,
    vectorRowStart: string -> bool)

  /** The modes read so far and the position of the current one. */
  datatype ParseState = ParseState(modes: seq<ComplexMode>, current: Option<nat>)

  const START := ParseState([], None)

  predicate CurrentValid(st: ParseState)
  {
    st.current.Some? ==> st.current.value < |st.modes|
  }

  function NewMode(row: ModeRow): (r: ComplexMode)
    ensures r.vectors == [] && r.mode == row.mode && r.frequencyHz == row.frequencyHz
  {
    ComplexMode(row.mode, row.frequencyHz, row.dampingRatioPercent, Some(row.eigenValueReal), Some(row.eigenValueImag), [])
  }

  /** `modes.find((m) => m.mode === n)`, as a position from `i` on. */
  function FindModeFrom(modes: seq<ComplexMode>, n: real, i: nat): (r: Option<nat>)
    requires i <= |modes|
    ensures r.Some? ==> i <= r.value < |modes| && modes[r.value].mode == n
                        && forall k :: i <= k < r.value ==> modes[k].mode != n
    ensures r.None? ==> forall k :: i <= k < |modes| ==> modes[k].mode != n
    decreases |modes| - i
  {
    if i == |modes| then None
    else if modes[i].mode == n then Some(i)
    else FindModeFrom(modes, n, i + 1)
  }

  /** The first mode numbered `n`, if any. */
  function FindMode(modes: seq<ComplexMode>, n: real): (r: Option<nat>)
    ensures r.Some? ==> r.value < |modes| && modes[r.value].mode == n && forall k :: 0 <= k < r.value ==> modes[k].mode != n
    ensures r.None? ==> forall k :: 0 <= k < |modes| ==> modes[k].mode != n
  {
    FindModeFrom(modes, n, 0)
  }

  /** `currentMode.vectors.push(v)`: the mode at `k` gains `v` at the end, the others are untouched. */
  function AddVector(modes: seq<ComplexMode>, k: nat, v: ComplexModeVector): (r: seq<ComplexMode>)
    requires k < |modes|
    ensures |r| == |modes| && r[k].vectors == modes[k].vectors + [v]
    ensures r[k] == modes[k].(vectors := modes[k].vectors + [v])
    ensures forall j :: 0 <= j < |modes| && j != k ==> r[j] == modes[j]
  {
    modes[k := modes[k].(vectors := modes[k].vectors + [v])]
  }

  function InvalidModeRow(line: string): string
  {
    "ComplexModalResult: invalid mode row \"" + line + "\"."
  }

  function InvalidVectorRow(line: string): string
  {
    "ComplexModalResult: invalid vector row \"" + line + "\"."
  }

  /** Mode `b` is mode `a`, possibly with more vectors appended. */
  predicate Extends(a: ComplexMode, b: ComplexMode)
  {
    b.(vectors := a.vectors) == a && |a.vectors| <= |b.vectors| && b.vectors[..|a.vectors|] == a.vectors
  }

  /** The modes of `b` are those of `a`, each possibly with more vectors, followed by new ones. */
  predicate Grows(a: ParseState, b: ParseState)
  {
    |a.modes| <= |b.modes| && forall k :: 0 <= k < |a.modes| ==> Extends(a.modes[k], b.modes[k])
  }

  /** One line of the loop of `parseComplexModalDat`. */
  function Step(st: ParseState, raw: string, m: Matchers): (r: Result<ParseState>)
    requires CurrentValid(st)
    ensures r.Ok? ==> CurrentValid(r.value)
    ensures r.Err? ==> r.error.FormatParseError?
  {
    var line := Trim(raw);
    if line == [] then Ok(st)
    else match m.modeRow(line)
      case Some(row) => Ok(ParseState(st.modes + [NewMode(row)], Some(|st.modes|)))
      case None =>
        if m.modeRowStart(line) then FormatFailure(InvalidModeRow(line))
        else match m.modeHeader(line)
          case Some(n) => Ok(ParseState(st.modes, FindMode(st.modes, n)))
          case None =>
            if st.current.Some? && m.vectorRow(line).Some? then
              Ok(ParseState(AddVector(st.modes, st.current.value, m.vectorRow(line).value), st.current))
            else if m.vectorRowStart(line) then FormatFailure(InvalidVectorRow(line))
            else Ok(st)
  }

  /** A line keeps the modes read so far, adding vectors to at most one, and opens at most one new mode. */
  lemma StepGrows(st: ParseState, raw: string, m: Matchers)
    requires CurrentValid(st) && Step(st, raw, m).Ok?
    ensures var r := Step(st, raw, m).value;
      Grows(st, r) && |r.modes| <= |st.modes| + 1
      && |r.modes| == |st.modes| + (if Trim(raw) != [] && m.modeRow(Trim(raw)).Some? then 1 else 0)
  {
    var line := Trim(raw);
    var r := Step(st, raw, m).value;
    if line == [] || m.modeRow(line).Some? || m.modeHeader(line).Some? || !(st.current.Some? && m.vectorRow(line).Some?) {
      assert r.modes[..|st.modes|] == st.modes;
      PrefixGrows(st, r);
    } else {
      var k := st.current.value;
      var v := m.vectorRow(line).value;
      assert r.modes == AddVector(st.modes, k, v);
      AddVectorGrows(st, r, k, v);
    }
  }

  /** Keeping the modes read so far and appending new ones grows the state. */
  lemma PrefixGrows(a: ParseState, b: ParseState)
    requires |a.modes| <= |b.modes| && b.modes[..|a.modes|] == a.modes
    ensures Grows(a, b)
  {
    forall k | 0 <= k < |a.modes|
      ensures Extends(a.modes[k], b.modes[k])
    {
      assert b.modes[k] == a.modes[k];
      assert a.modes[k].vectors[..|a.modes[k].vectors|] == a.modes[k].vectors;
    }
  }

  /** Appending a vector to one mode grows the state. */
  lemma AddVectorGrows(a: ParseState, b: ParseState, k: nat, v: ComplexModeVector)
    requires k < |a.modes| && b.modes == AddVector(a.modes, k, v)
    ensures Grows(a, b)
  {
    forall j | 0 <= j < |a.modes|
      ensures Extends(a.modes[j], b.modes[j])
    {
      if j == k {
        assert b.modes[j].vectors[..|a.modes[j].vectors|] == a.modes[j].vectors;
      } else {
        assert a.modes[j].vectors[..|a.modes[j].vectors|] == a.modes[j].vectors;
      }
    }
  }

  /** The loop from line `i` on. */
  function RunFrom(body: seq<string>, i: nat, st: ParseState, m: Matchers): (r: Result<ParseState>)
    requires i <= |body| && CurrentValid(st)
    ensures r.Ok? ==> CurrentValid(r.value)
    decreases |body| - i
  {
    if i == |body| then Ok(st)
    else
      var next :- Step(st, body[i], m);
      RunFrom(body, i + 1, next, m)
  }

  /** The position of the first mode without vectors, or the number of modes. */
  function FirstWithoutVectors(modes: seq<ComplexMode>): (r: nat)
    ensures r <= |modes|
    ensures r < |modes| ==> modes[r].vectors == []
    ensures forall k :: 0 <= k < r ==> modes[k].vectors != []
  {
    if modes == [] then 0
    else if modes[0].vectors == [] then 0
    else 1 + FirstWithoutVectors(modes[1..])
  }

  function ModeKey(mode: ComplexMode): real { mode.mode }

  /** The checks after the loop, then the sort by mode number. */
  function FinishModes(modes: seq<ComplexMode>, show: NumberFormatter): Result<seq<ComplexMode>>
  {
    if |modes| == 0 then FormatFailure("ComplexModalResult: mode rows are missing.")
    else
      var k := FirstWithoutVectors(modes);
      if k < |modes| then FormatFailure("ComplexModalResult: vectors are missing for mode " + show(modes[k].mode) + ".")
      else Ok(SortBy(modes, ModeKey))
  }

  function ComplexModesOf(body: seq<string>, m: Matchers, show: NumberFormatter): Result<seq<ComplexMode>>
  {
    var st :- RunFrom(body, 0, START, m);
    FinishModes(st.modes, show)
  }

  /** `parseComplexModalDat` on the lines before the section and the section's body. */
  function ComplexModalOf(before: seq<string>, body: seq<string>, m: Matchers, parse: NumberParser,
                          show: NumberFormatter): Result<ComplexModalFile>
  {
    var baseShape :- BaseShape.BaseShapeOf(Join(before, "\n"), parse);
    var modes :- ComplexModesOf(body, m, show);
    Ok(ComplexModalFile(baseShape, modes))
  }

  /** `parseComplexModalDat`: the base shape, the line loop with its current mode, then the checks and the sort. */
  method ParseComplexModalDat(before: seq<string>, body: seq<string>, m: Matchers, parse: NumberParser,
                              show: NumberFormatter) returns (r: Result<ComplexModalFile>)
    ensures r == ComplexModalOf(before, body, m, parse, show)
  {
    var baseShape := BaseShape.ParseBaseShapeInfo(Join(before, "\n"), parse);
    if baseShape.Err? {
      return Err(baseShape.error);
    }
    var st := ReadModes(body, m);
    if st.Err? {
      return Err(st.error);
    }
    var modes := CheckModes(st.value.modes, show);
    if modes.Err? {
      return Err(modes.error);
    }
    r := Ok(ComplexModalFile(baseShape.value, modes.value));
  }

  /** The loop of `parseComplexModalDat` over the section's lines. */
  method ReadModes(body: seq<string>, m: Matchers) returns (r: Result<ParseState>)
    ensures r == RunFrom(body, 0, START, m)
  {
    var modes: seq<ComplexMode> := [];
    var current: Option<nat> := None;
    for i := 0 to |body|
      invariant CurrentValid(ParseState(modes, current))
      invariant RunFrom(body, 0, START, m) == RunFrom(body, i, ParseState(modes, current), m)
    {
      ghost var st := ParseState(modes, current);
      assert RunFrom(body, i, st, m) == (var next :- Step(st, body[i], m); RunFrom(body, i + 1, next, m));
      var line := Trim(body[i]);
      if line == [] {
        continue;
      }
      var row := m.modeRow(line);
      if row.Some? {
        current := Some(|modes|);
        modes := modes + [NewMode(row.value)];
        continue;
      }
      if m.modeRowStart(line) {
        return FormatFailure(InvalidModeRow(line));
      }
      var header := m.modeHeader(line);
      if header.Some? {
        current := FindMode(modes, header.value);
        continue;
      }
      var vector := m.vectorRow(line);
      if current.Some? && vector.Some? {
        modes := AddVector(modes, current.value, vector.value);
        continue;
      }
      if m.vectorRowStart(line) {
        return FormatFailure(InvalidVectorRow(line));
      }
    }
    r := Ok(ParseState(modes, current));
  }

  /** The checks after the loop, in order, then the sort. */
  method CheckModes(modes: seq<ComplexMode>, show: NumberFormatter) returns (r: Result<seq<ComplexMode>>)
    ensures r == FinishModes(modes, show)
  {
    if |modes| == 0 {
      return FormatFailure("ComplexModalResult: mode rows are missing.");
    }
    for k := 0 to |modes|
      invariant forall j :: 0 <= j < k ==> modes[j].vectors != []
    {
      if modes[k].vectors == [] {
        FirstWithoutVectorsAt(modes, k);
        return FormatFailure("ComplexModalResult: vectors are missing for mode " + show(modes[k].mode) + ".");
      }
    }
    FirstWithoutVectorsAt(modes, |modes|);
    r := Ok(SortBy(modes, ModeKey));
  }

  lemma FirstWithoutVectorsAt(modes: seq<ComplexMode>, k: nat)
    requires k <= |modes| && (k < |modes| ==> modes[k].vectors == [])
    requires forall j :: 0 <= j < k ==> modes[j].vectors != []
    ensures FirstWithoutVectors(modes) == k
  {
  }

  // ---- what one line does ------------------------------------------------------------

  /** A mode row opens a new mode, without vectors, at the end, and makes it current. */
  lemma ModeRowOpensMode(st: ParseState, raw: string, m: Matchers)
    requires CurrentValid(st) && Trim(raw) != [] && m.modeRow(Trim(raw)).Some?
    ensures var r := Step(st, raw, m);
      r.Ok? && r.value.modes == st.modes + [NewMode(m.modeRow(Trim(raw)).value)]
      && r.value.current == Some(|st.modes|) && r.value.modes[|st.modes|].vectors == []
  {
  }

  /** A line that starts like a mode row but is not one is rejected. */
  lemma MalformedModeRowRejected(st: ParseState, raw: string, m: Matchers)
    requires CurrentValid(st) && Trim(raw) != []
    requires m.modeRow(Trim(raw)).None? && m.modeRowStart(Trim(raw))
    ensures Step(st, raw, m) == FormatFailure(InvalidModeRow(Trim(raw)))
  {
  }

  /** A "** N次" header makes the first mode numbered N current, or none when there is no such mode. */
  lemma HeaderSwitchesMode(st: ParseState, raw: string, m: Matchers)
    requires CurrentValid(st) && Trim(raw) != []
    requires m.modeRow(Trim(raw)).None? && !m.modeRowStart(Trim(raw)) && m.modeHeader(Trim(raw)).Some?
    ensures var n := m.modeHeader(Trim(raw)).value;
      var r := Step(st, raw, m);
      r.Ok? && r.value.modes == st.modes
      && (r.value.current.Some? <==> exists k :: 0 <= k < |st.modes| && st.modes[k].mode == n)
      && (r.value.current.Some? ==>
            (st.modes[r.value.current.value].mode == n
             && forall k :: 0 <= k < r.value.current.value ==> st.modes[k].mode != n))
  {
  }

  /** A vector row is appended to the current mode only; with no current mode it is rejected when it looks like one. */
  lemma VectorJoinsCurrentMode(st: ParseState, raw: string, m: Matchers)
    requires CurrentValid(st) && Trim(raw) != []
    requires m.modeRow(Trim(raw)).None? && !m.modeRowStart(Trim(raw)) && m.modeHeader(Trim(raw)).None?
    ensures var line := Trim(raw);
      var r := Step(st, raw, m);
      (st.current.Some? && m.vectorRow(line).Some? ==>
         r.Ok? && r.value.current == st.current && |r.value.modes| == |st.modes|
         && r.value.modes[st.current.value].vectors == st.modes[st.current.value].vectors + [m.vectorRow(line).value]
         && forall j :: 0 <= j < |st.modes| && j != st.current.value ==> r.value.modes[j] == st.modes[j])
      && ((st.current.None? || m.vectorRow(line).None?) && m.vectorRowStart(line) ==>
         r == FormatFailure(InvalidVectorRow(line)))
      && ((st.current.None? || m.vectorRow(line).None?) && !m.vectorRowStart(line) ==> r == Ok(st))
  {
  }

  /** Blank lines change nothing. */
  lemma BlankLineSkipped(st: ParseState, raw: string, m: Matchers)
    requires CurrentValid(st) && Trim(raw) == []
    ensures Step(st, raw, m) == Ok(st)
  {
  }

  // ---- what the whole section gives ---------------------------------------------------

  /** The number of lines from `i` on that are mode rows. */
  function ModeRowsFrom(body: seq<string>, i: nat, m: Matchers): nat
    requires i <= |body|
    decreases |body| - i
  {
    if i == |body| then 0
    else (if Trim(body[i]) != [] && m.modeRow(Trim(body[i])).Some? then 1 else 0) + ModeRowsFrom(body, i + 1, m)
  }

  /** Each mode row opens exactly one mode, and modes already read only gain vectors. */
  lemma {:induction false} RunCountsModes(body: seq<string>, i: nat, st: ParseState, m: Matchers)
    requires i <= |body| && CurrentValid(st)
    requires RunFrom(body, i, st, m).Ok?
    ensures var r := RunFrom(body, i, st, m).value;
      |r.modes| == |st.modes| + ModeRowsFrom(body, i, m) && Grows(st, r)
    decreases |body| - i
  {
    if i < |body| {
      var next := Step(st, body[i], m).value;
      StepGrows(st, body[i], m);
      RunCountsModes(body, i + 1, next, m);
      GrowsTransitive(st, next, RunFrom(body, i + 1, next, m).value);
    }
  }

  lemma GrowsTransitive(a: ParseState, b: ParseState, c: ParseState)
    requires Grows(a, b) && Grows(b, c)
    ensures Grows(a, c)
  {
    forall k | 0 <= k < |a.modes|
      ensures Extends(a.modes[k], c.modes[k])
    {
      var x, y, z := a.modes[k], b.modes[k], c.modes[k];
      assert z.vectors[..|y.vectors|][..|x.vectors|] == z.vectors[..|x.vectors|];
    }
  }

  /** Every failure of the section is a `FormatParseError`. */
  lemma {:induction false} RunErrorsAreFormat(body: seq<string>, i: nat, st: ParseState, m: Matchers)
    requires i <= |body| && CurrentValid(st)
    ensures RunFrom(body, i, st, m).Err? ==> RunFrom(body, i, st, m).error.FormatParseError?
    decreases |body| - i
  {
    if i < |body| && Step(st, body[i], m).Ok? {
      RunErrorsAreFormat(body, i + 1, Step(st, body[i], m).value, m);
    }
  }

  /**
   * A parsed section has at least one mode, every mode has vectors, the modes
   * are sorted by mode number (stably) and they are the modes the loop read,
   * one per mode row.
   */
  lemma ParsedModes(body: seq<string>, m: Matchers, show: NumberFormatter)
    requires ComplexModesOf(body, m, show).Ok?
    ensures var modes := ComplexModesOf(body, m, show).value;
      var read := RunFrom(body, 0, START, m).value.modes;
      |modes| > 0 && |modes| == ModeRowsFrom(body, 0, m)
      && (forall k :: 0 <= k < |modes| ==> modes[k].vectors != [])
      && SortedBy(modes, ModeKey)
      && multiset(modes) == multiset(read)
      && forall n :: WithKey(modes, ModeKey, n) == WithKey(read, ModeKey, n)
  {
    var read := RunFrom(body, 0, START, m).value.modes;
    RunCountsModes(body, 0, START, m);
    SortByIsSorted(read, ModeKey);
    SortByPermutes(read, ModeKey);
    forall n {
      SortByStable(read, ModeKey, n);
    }
    var modes := SortBy(read, ModeKey);
    forall k | 0 <= k < |modes|
      ensures modes[k].vectors != []
    {
      assert modes[k] in multiset(read);
    }
  }

  /** A section without mode rows is rejected once the loop is done. */
  lemma NoModeRowsRejected(body: seq<string>, m: Matchers, show: NumberFormatter)
    requires ModeRowsFrom(body, 0, m) == 0
    ensures ComplexModesOf(body, m, show).Err? && ComplexModesOf(body, m, show).error.FormatParseError?
  {
    RunErrorsAreFormat(body, 0, START, m);
    if RunFrom(body, 0, START, m).Ok? {
      RunCountsModes(body, 0, START, m);
    }
  }

  // ---- the serializer -------------------------------------------------------------------

  function OrZero(x: Option<real>): real
  {
    if x.Some? then x.value else 0.0
  }

  function ModeLine(mode: ComplexMode, fmt: NumberFormatter, show: NumberFormatter): string
  {
    show(mode.mode) + "次 " + fmt(mode.frequencyHz) + " " + fmt(mode.dampingRatioPercent)
    + " (" + fmt(OrZero(mode.eigenValueReal)) + ", " + fmt(OrZero(mode.eigenValueImag)) + ")"
  }

  function VectorLine(v: ComplexModeVector, fmt: NumberFormatter): string
  {
    v.component + " " + fmt(v.amplitude) + " " + fmt(v.phaseRad)
    + " (" + fmt(OrZero(v.complexReal)) + ", " + fmt(OrZero(v.complexImag)) + ")"
  }

  function HeaderLine(mode: ComplexMode, show: NumberFormatter): string
  {
    "** " + show(mode.mode) + "次"
  }

  function ModeLines(modes: seq<ComplexMode>, fmt: NumberFormatter, show: NumberFormatter): (r: seq<string>)
    ensures |r| == |modes| && forall k :: 0 <= k < |modes| ==> r[k] == ModeLine(modes[k], fmt, show)
  {
    seq(|modes|, k requires 0 <= k < |modes| => ModeLine(modes[k], fmt, show))
  }

  function VectorLines(vs: seq<ComplexModeVector>, fmt: NumberFormatter): (r: seq<string>)
    ensures |r| == |vs| && forall k :: 0 <= k < |vs| ==> r[k] == VectorLine(vs[k], fmt)
  {
    seq(|vs|, k requires 0 <= k < |vs| => VectorLine(vs[k], fmt))
  }

  /** The block of one mode: its header, one line per vector and a blank line. */
  function Block(mode: ComplexMode, fmt: NumberFormatter, show: NumberFormatter): seq<string>
  {
    [HeaderLine(mode, show)] + VectorLines(mode.vectors, fmt) + [""]
  }

  function Blocks(modes: seq<ComplexMode>, fmt: NumberFormatter, show: NumberFormatter): (r: seq<string>)
  {
    if modes == [] then [] else Blocks(modes[..|modes| - 1], fmt, show) + Block(modes[|modes| - 1], fmt, show)
  }

  const TABLE_HEAD := ["#ComplexModalResult", "** 複素固有値解析結果", "", "** 固有振動数 (減衰固有振動数 モード減衰(%))"]
  const VECTOR_HEAD := ["", "** 固有ベクトル (基準化振幅 位相角)", ""]

  /** The lines of `serializeComplexModalDat`, in order. */
  function ComplexModalLines(d: ComplexModalFile, fmt: NumberFormatter, show: NumberFormatter): seq<string>
  {
    ModalWrite.ShapeSection(d.baseShape, fmt, show) + TABLE_HEAD + ModeLines(d.modes, fmt, show)
    + VECTOR_HEAD + Blocks(d.modes, fmt, show) + ["#End_ComplexModalResult"]
  }

  /** `serializeComplexModalDat`: the lines joined by newlines, with a final newline. */
  method SerializeComplexModalDat(d: ComplexModalFile, fmt: NumberFormatter, show: NumberFormatter) returns (text: string)
    ensures text == Join(ComplexModalLines(d, fmt, show), "\n") + "\n"
  {
    var lines := ModalWrite.WriteShapeSection(d.baseShape, fmt, show);
    lines := lines + TABLE_HEAD;
    ghost var head := lines;
    for i := 0 to |d.modes|
      invariant lines == head + ModeLines(d.modes[..i], fmt, show)
    {
      assert ModeLines(d.modes[..i + 1], fmt, show) == ModeLines(d.modes[..i], fmt, show) + [ModeLine(d.modes[i], fmt, show)];
      lines := lines + [ModeLine(d.modes[i], fmt, show)];
    }
    assert d.modes[..|d.modes|] == d.modes;
    lines := lines + VECTOR_HEAD;
    var blocks := WriteBlocks(d.modes, fmt, show);
    lines := lines + blocks + ["#End_ComplexModalResult"];
    text := Join(lines, "\n") + "\n";
  }

  /** The per-mode blocks, one after the other. */
  method WriteBlocks(modes: seq<ComplexMode>, fmt: NumberFormatter, show: NumberFormatter) returns (lines: seq<string>)
    ensures lines == Blocks(modes, fmt, show)
  {
    lines := [];
    for i := 0 to |modes|
      invariant lines == Blocks(modes[..i], fmt, show)
    {
      var block := WriteBlock(modes[i], fmt, show);
      assert modes[..i + 1][..i] == modes[..i];
      lines := lines + block;
    }
    assert modes[..|modes|] == modes;
  }

  /** One block: a header, one pushed line per vector, a blank line. */
  method WriteBlock(mode: ComplexMode, fmt: NumberFormatter, show: NumberFormatter) returns (lines: seq<string>)
    ensures lines == Block(mode, fmt, show)
  {
    lines := [HeaderLine(mode, show)];
    for j := 0 to |mode.vectors|
      invariant lines == [HeaderLine(mode, show)] + VectorLines(mode.vectors[..j], fmt)
    {
      assert VectorLines(mode.vectors[..j + 1], fmt) == VectorLines(mode.vectors[..j], fmt) + [VectorLine(mode.vectors[j], fmt)];
      lines := lines + [VectorLine(mode.vectors[j], fmt)];
    }
    assert mode.vectors[..|mode.vectors|] == mode.vectors;
    lines := lines + [""];
  }

  /** The number of lines of the blocks: two per mode plus one per vector. */
  function BlockLength(modes: seq<ComplexMode>): nat
  {
    if modes == [] then 0 else BlockLength(modes[..|modes| - 1]) + |modes[|modes| - 1].vectors| + 2
  }

  /**
   * The block of mode `k` starts at its header after the blocks of the modes
   * before it, and its vector lines follow in order.
   */
  lemma {:induction false} BlocksLayout(modes: seq<ComplexMode>, fmt: NumberFormatter, show: NumberFormatter, k: nat)
    requires k < |modes|
    ensures var b := Blocks(modes, fmt, show);
      var s := BlockLength(modes[..k]);
      |b| == BlockLength(modes)
      && s + |modes[k].vectors| + 2 <= |b|
      && b[s] == HeaderLine(modes[k], show)
      && b[s + 1..s + 1 + |modes[k].vectors|] == VectorLines(modes[k].vectors, fmt)
      && b[s + 1 + |modes[k].vectors|] == ""
  {
    var init := modes[..|modes| - 1];
    if k == |modes| - 1 {
      BlocksLength(init, fmt, show);
      assert modes[..k] == init;
    } else {
      BlocksLayout(init, fmt, show, k);
      assert init[..k] == modes[..k];
      BlocksLength(modes, fmt, show);
    }
  }

  lemma {:induction false} BlocksLength(modes: seq<ComplexMode>, fmt: NumberFormatter, show: NumberFormatter)
    ensures |Blocks(modes, fmt, show)| == BlockLength(modes)
  {
    if modes != [] {
      BlocksLength(modes[..|modes| - 1], fmt, show);
    }
  }
}
