/*
 * `parseBaseShapeInfo` of src/io/baseShape.ts: the story count, the level
 * list and the mass centres read from the lines of a result file's header.
 *
 * The reader is a loop over the trimmed, non-empty lines that updates the
 * story, the level list, the mass-centre list and two flags. `ScanLines` is
 * the same loop written as a fold over the lines read so far; the method is
 * proved to compute it, and the lemmas below say what the fold computes.
 */
module BaseShape {
  import opened Results
  import opened Numbers
  import opened Strings
  import opened Building
  import opened Text

  /** The lines the reader looks at: trimmed, empty ones dropped. */
  function ShapeLines(text: string): (r: seq<string>)
    ensures forall k :: 0 <= k < |r| ==> r[k] != ""
  {
    NonEmpty(TrimAll(Lines(text)))
  }

  /** The state of the loop: `base.story`, `base.zLevel`, `base.massCenters` and `hasZLevel`; `hasStory` is `story.Some?`. */
  datatype ScanState = ScanState(story: Option<real>, zLevel: seq<real>, massCenters: seq<MassCenter>, hasZLevel: bool)

  const Initial := ScanState(None, [], [], false)

  predicate IsStoryLine(line: string) { SplitCsvLikeLine(line)[0] == "Story" }
  predicate IsZLevelLine(line: string) { SplitCsvLikeLine(line)[0] == "Zlebe" }
  predicate IsMassCenterLine(line: string) { StartsWith(SplitCsvLikeLine(line)[0], "MC") }

  /** A line the loop acts on; every other line is skipped. */
  predicate IsShapeLine(line: string)
  {
    IsStoryLine(line) || IsZLevelLine(line) || IsMassCenterLine(line)
  }

  /** The body of the loop for one line. */
  function ScanLine(st: ScanState, line: string, parse: NumberParser): (r: Result<ScanState>)
    ensures r.Ok? && !IsShapeLine(line) ==> r.value == st
    ensures r.Err? ==> r.error.FormatParseError?
  {
    ScanLineBody(st, line, parse)
  }

  /** A line sets the story exactly when it is a Story line with a value that converts. */
  lemma ScanLineStory(st: ScanState, line: string, parse: NumberParser)
    requires ScanLine(st, line, parse).Ok?
    ensures IsStoryLine(line) ==>
      (|SplitCsvLikeLine(line)| >= 2
       && parse(SplitCsvLikeLine(line)[1]).Some?
       && ScanLine(st, line, parse).value.story == Some(parse(SplitCsvLikeLine(line)[1]).value))
    ensures !IsStoryLine(line) ==> ScanLine(st, line, parse).value.story == st.story
  {
  }

  /** A Zlebe line replaces the levels; no other line touches them. */
  lemma ScanLineLevels(st: ScanState, line: string, parse: NumberParser)
    requires ScanLine(st, line, parse).Ok?
    ensures IsZLevelLine(line) ==>
      (ScanLine(st, line, parse).value.hasZLevel
       && ScanLine(st, line, parse).value.zLevel == ToNumberList(SplitCsvLikeLine(line)[1..], parse))
    ensures !IsZLevelLine(line) ==>
      ScanLine(st, line, parse).value.hasZLevel == st.hasZLevel && ScanLine(st, line, parse).value.zLevel == st.zLevel
  {
  }

  /** An MC line appends its mass centre; no other line touches the list. */
  lemma ScanLineCenters(st: ScanState, line: string, parse: NumberParser)
    requires ScanLine(st, line, parse).Ok?
    ensures IsMassCenterLine(line) && !IsStoryLine(line) && !IsZLevelLine(line) ==>
      ScanLine(st, line, parse).value.massCenters == st.massCenters + [CenterOf(line, parse)]
    ensures !(IsMassCenterLine(line) && !IsStoryLine(line) && !IsZLevelLine(line)) ==>
      ScanLine(st, line, parse).value.massCenters == st.massCenters
  {
    var tokens := SplitCsvLikeLine(line);
    var r := ScanLine(st, line, parse);
    if tokens[0] != "Story" && tokens[0] != "Zlebe" && StartsWith(tokens[0], "MC") {
      var values := ToNumberListStrict(tokens[1..], "BaseShapeInfo.MC", parse);
      assert values.Ok? && |values.value| >= 3;
      assert r.value.massCenters == st.massCenters + [MassCenter(values.value[0], values.value[1], values.value[2])];
      assert CenterOf(line, parse) == MassCenter(values.value[0], values.value[1], values.value[2]);
    } else if tokens[0] == "Story" || tokens[0] == "Zlebe" {
      assert r.value.massCenters == st.massCenters;
    } else {
      assert r.value == st;
    }
  }

  function ScanLineBody(st: ScanState, line: string, parse: NumberParser): Result<ScanState>
  {
    var tokens := SplitCsvLikeLine(line);
    if tokens[0] == "Story" then
      if |tokens| < 2 then FormatFailure("BaseShapeInfo: Story value is missing.")
      else
        var n :- ParseNumberToken(tokens[1], "BaseShapeInfo.Story", parse);
        Ok(st.(story := Some(n)))
    else if tokens[0] == "Zlebe" then
      var z :- ToNumberListStrict(tokens[1..], "BaseShapeInfo.Zlebe", parse);
      Ok(st.(zLevel := z, hasZLevel := true))
    else if StartsWith(tokens[0], "MC") then
      var values :- ToNumberListStrict(tokens[1..], "BaseShapeInfo.MC", parse);
      if |values| < 3 then FormatFailure("BaseShapeInfo: MC must contain layer,x,y.")
      else Ok(st.(massCenters := st.massCenters + [MassCenter(values[0], values[1], values[2])]))
    else Ok(st)
  }

  /** The loop run over `lines`, the last line taken last. */
  function ScanLines(lines: seq<string>, parse: NumberParser): (r: Result<ScanState>)
  {
    if lines == [] then Ok(Initial)
    else
      var st :- ScanLines(lines[..|lines| - 1], parse);
      ScanLine(st, lines[|lines| - 1], parse)
  }

  /** The checks after the loop. */
  function Finish(st: ScanState): (r: Result<BaseShapeInfo>)
    ensures r.Ok? <==> st.story.Some? && st.hasZLevel
    ensures r.Ok? ==> r.value == BaseShapeInfo(st.story, st.zLevel, st.massCenters)
    ensures r.Err? ==> r.error.FormatParseError?
  {
    if st.story.None? then FormatFailure("BaseShapeInfo: Story is required.")
    else if !st.hasZLevel then FormatFailure("BaseShapeInfo: Zlebe is required.")
    else Ok(BaseShapeInfo(st.story, st.zLevel, st.massCenters))
  }

  function BaseShapeOf(text: string, parse: NumberParser): Result<BaseShapeInfo>
  {
    var st :- ScanLines(ShapeLines(text), parse);
    Finish(st)
  }

  /** `parseBaseShapeInfo`. */
  method ParseBaseShapeInfo(text: string, parse: NumberParser) returns (r: Result<BaseShapeInfo>)
    ensures r == BaseShapeOf(text, parse)
  {
    var scanned := ScanShapeLines(ShapeLines(text), parse);
    if scanned.Err? {
      return Err(scanned.error);
    }
    r := Finish(scanned.value);
  }

  /** The loop of `parseBaseShapeInfo` over the reader's lines, with its locals held in one state. */
  method ScanShapeLines(lines: seq<string>, parse: NumberParser) returns (r: Result<ScanState>)
    ensures r == ScanLines(lines, parse)
  {
    var st := Initial;
    var i := 0;
    while i < |lines|
      invariant 0 <= i <= |lines|
      invariant ScanLines(lines[..i], parse) == Ok(st)
    {
      ScanStep(lines, i, parse);
      var next := ReadShapeLine(st, lines[i], parse);
      if next.Err? {
        ScanErrorStays(lines, i + 1, parse);
        return Err(next.error);
      }
      st := next.value;
      i := i + 1;
    }
    assert lines[..|lines|] == lines;
    r := Ok(st);
  }

  /** The body of the reader's loop for one line, from the state the earlier lines left. */
  method ReadShapeLine(st: ScanState, line: string, parse: NumberParser) returns (r: Result<ScanState>)
    ensures r == ScanLine(st, line, parse)
  {
    var tokens := SplitCsvLikeLine(line);
    if tokens[0] == "Story" {
      if |tokens| < 2 {
        return FormatFailure("BaseShapeInfo: Story value is missing.");
      }
      var n := ParseNumberToken(tokens[1], "BaseShapeInfo.Story", parse);
      if n.Err? {
        return Err(n.error);
      }
      return Ok(st.(story := Some(n.value)));
    }
    if tokens[0] == "Zlebe" {
      var z := ToNumberListStrict(tokens[1..], "BaseShapeInfo.Zlebe", parse);
      if z.Err? {
        return Err(z.error);
      }
      return Ok(st.(zLevel := z.value, hasZLevel := true));
    }
    if StartsWith(tokens[0], "MC") {
      var values := ToNumberListStrict(tokens[1..], "BaseShapeInfo.MC", parse);
      if values.Err? {
        return Err(values.error);
      }
      if |values.value| < 3 {
        return FormatFailure("BaseShapeInfo: MC must contain layer,x,y.");
      }
      return Ok(st.(massCenters := st.massCenters + [MassCenter(values.value[0], values.value[1], values.value[2])]));
    }
    return Ok(st);
  }

  /** Once a line fails, the whole scan fails with that line's error. */
  lemma {:induction false} ScanErrorStays(lines: seq<string>, i: nat, parse: NumberParser)
    requires i <= |lines| && ScanLines(lines[..i], parse).Err?
    ensures ScanLines(lines, parse) == ScanLines(lines[..i], parse)
    decreases |lines| - i
  {
    if i < |lines| {
      var front := lines[..|lines| - 1];
      assert front[..i] == lines[..i];
      ScanErrorStays(front, i, parse);
    } else {
      assert lines[..i] == lines;
    }
  }

  // ---- what the scan computes -------------------------------------------------------

  /** The value token of the last Story line, if there is one. */
  function LastStoryToken(lines: seq<string>): Option<string>
  {
    if lines == [] then None
    else if IsStoryLine(lines[|lines| - 1]) && |SplitCsvLikeLine(lines[|lines| - 1])| >= 2 then
      Some(SplitCsvLikeLine(lines[|lines| - 1])[1])
    else LastStoryToken(lines[..|lines| - 1])
  }

  /** The value tokens of the last Zlebe line, if there is one. */
  function LastZLevelTokens(lines: seq<string>): Option<seq<string>>
  {
    if lines == [] then None
    else if IsZLevelLine(lines[|lines| - 1]) then Some(SplitCsvLikeLine(lines[|lines| - 1])[1..])
    else LastZLevelTokens(lines[..|lines| - 1])
  }

  /** The mass centre an MC line names, when its numbers convert. */
  function CenterOf(line: string, parse: NumberParser): MassCenter
  {
    var values := ToNumberList(SplitCsvLikeLine(line)[1..], parse);
    if |values| >= 3 then MassCenter(values[0], values[1], values[2]) else MassCenter(0.0, 0.0, 0.0)
  }

  /** The mass centres of the MC lines, in line order. */
  function CentersOf(lines: seq<string>, parse: NumberParser): seq<MassCenter>
  {
    if lines == [] then []
    else if IsMassCenterLine(lines[|lines| - 1]) && !IsStoryLine(lines[|lines| - 1]) && !IsZLevelLine(lines[|lines| - 1]) then
      CentersOf(lines[..|lines| - 1], parse) + [CenterOf(lines[|lines| - 1], parse)]
    else CentersOf(lines[..|lines| - 1], parse)
  }

  /** The number of MC lines. */
  function CountCenterLines(lines: seq<string>): nat
  {
    if lines == [] then 0
    else
      var last := lines[|lines| - 1];
      CountCenterLines(lines[..|lines| - 1]) + (if IsMassCenterLine(last) && !IsStoryLine(last) && !IsZLevelLine(last) then 1 else 0)
  }

  /** One more line is one more step of the loop. */
  lemma ScanStep(lines: seq<string>, i: nat, parse: NumberParser)
    requires i < |lines|
    ensures ScanLines(lines[..i + 1], parse) ==
      (if ScanLines(lines[..i], parse).Err? then ScanLines(lines[..i], parse)
       else ScanLine(ScanLines(lines[..i], parse).value, lines[i], parse))
  {
    assert lines[..i + 1][..i] == lines[..i];
  }

  /** A successful scan holds the story of the last Story line. */
  lemma {:induction false} ScanStory(lines: seq<string>, parse: NumberParser, st: ScanState)
    requires ScanLines(lines, parse) == Ok(st)
    ensures LastStoryToken(lines).None? ==> st.story.None?
    ensures LastStoryToken(lines).Some? ==>
      parse(LastStoryToken(lines).value).Some? && st.story == Some(parse(LastStoryToken(lines).value).value)
  {
    if lines != [] {
      var front := lines[..|lines| - 1];
      var prev := ScanLines(front, parse).value;
      ScanStory(front, parse, prev);
      ScanLineStory(prev, lines[|lines| - 1], parse);
    }
  }

  /** A successful scan holds the levels of the last Zlebe line, and has levels only if there is one. */
  lemma {:induction false} ScanZLevel(lines: seq<string>, parse: NumberParser, st: ScanState)
    requires ScanLines(lines, parse) == Ok(st)
    ensures st.hasZLevel <==> LastZLevelTokens(lines).Some?
    ensures LastZLevelTokens(lines).Some? ==> st.zLevel == ToNumberList(LastZLevelTokens(lines).value, parse)
  {
    if lines != [] {
      var front := lines[..|lines| - 1];
      var prev := ScanLines(front, parse).value;
      ScanZLevel(front, parse, prev);
      ScanLineLevels(prev, lines[|lines| - 1], parse);
    }
  }

  /** A successful scan holds one mass centre per MC line, in line order. */
  lemma {:induction false} ScanCenters(lines: seq<string>, parse: NumberParser, st: ScanState)
    requires ScanLines(lines, parse) == Ok(st)
    ensures st.massCenters == CentersOf(lines, parse)
    ensures |st.massCenters| == CountCenterLines(lines)
  {
    if lines != [] {
      var front := lines[..|lines| - 1];
      var prev := ScanLines(front, parse).value;
      ScanCenters(front, parse, prev);
      ScanLineCenters(prev, lines[|lines| - 1], parse);
    }
  }

  /** Story and Zlebe are both required: a text without either is rejected. */
  lemma StoryAndLevelsRequired(text: string, parse: NumberParser)
    requires LastStoryToken(ShapeLines(text)).None? || LastZLevelTokens(ShapeLines(text)).None?
    ensures BaseShapeOf(text, parse).Err? && BaseShapeOf(text, parse).error.FormatParseError?
  {
    var lines := ShapeLines(text);
    if ScanLines(lines, parse).Ok? {
      ScanStory(lines, parse, ScanLines(lines, parse).value);
      ScanZLevel(lines, parse, ScanLines(lines, parse).value);
    } else {
      ScanIsFormatError(lines, parse);
    }
  }

  /** Every failure of the scan is a format error. */
  lemma {:induction false} ScanIsFormatError(lines: seq<string>, parse: NumberParser)
    ensures ScanLines(lines, parse).Err? ==> ScanLines(lines, parse).error.FormatParseError?
  {
    if lines != [] {
      ScanIsFormatError(lines[..|lines| - 1], parse);
    }
  }

  /** Every way `parseBaseShapeInfo` can fail is a format error. */
  lemma BaseShapeErrorIsFormat(text: string, parse: NumberParser)
    ensures BaseShapeOf(text, parse).Err? ==> BaseShapeOf(text, parse).error.FormatParseError?
  {
    ScanIsFormatError(ShapeLines(text), parse);
  }

  /** A Story line without a value makes the scan fail, wherever it stands. */
  lemma StoryWithoutValue(lines: seq<string>, i: nat, parse: NumberParser)
    requires i < |lines| && IsStoryLine(lines[i]) && |SplitCsvLikeLine(lines[i])| < 2
    ensures ScanLines(lines, parse).Err?
  {
    var upto := lines[..i + 1];
    assert upto[..i] == lines[..i];
    assert upto[i] == lines[i];
    assert ScanLines(upto, parse).Err?;
    ScanErrorStays(lines, i + 1, parse);
  }

  /** Only Story, Zlebe and MC lines: the others are skipped. */
  function ShapeLinesOnly(lines: seq<string>): (r: seq<string>)
    ensures forall k :: 0 <= k < |r| ==> IsShapeLine(r[k])
  {
    if lines == [] then []
    else if IsShapeLine(lines[|lines| - 1]) then ShapeLinesOnly(lines[..|lines| - 1]) + [lines[|lines| - 1]]
    else ShapeLinesOnly(lines[..|lines| - 1])
  }

  /** Dropping every line that is not a Story, Zlebe or MC line does not change the scan. */
  lemma {:induction false} OnlyShapeLinesMatter(lines: seq<string>, parse: NumberParser)
    ensures ScanLines(ShapeLinesOnly(lines), parse) == ScanLines(lines, parse)
  {
    if lines != [] {
      var front := lines[..|lines| - 1];
      var last := lines[|lines| - 1];
      OnlyShapeLinesMatter(front, parse);
      if IsShapeLine(last) {
        var kept := ShapeLinesOnly(front) + [last];
        assert kept[..|kept| - 1] == ShapeLinesOnly(front);
        assert kept[|kept| - 1] == last;
      }
    }
  }
}
