/*
 * The time-history response analysis of src/core/analysis/resp.ts: the
 * ground-wave and Newmark-parameter checks, the influence vectors, the
 * Newmark-β integration over the matrices the real eigen analysis leaves
 * behind, the absolute accelerations, the CSV header and record rows, and
 * the column maxima of the response file.
 *
 * The Cholesky factorisation of the effective stiffness is a parameter: a
 * function from a matrix to a solver for it, or to the error the library
 * raises.  Everything around the solve (the load vectors, the Newmark
 * update, the bookkeeping) is modelled as resp.ts writes it.
 */
module TimeHistory {
  import opened Results
  import opened Numbers
  import opened Strings
  import opened Building
  import opened LinAlg
  import opened StoryBlocks
  import opened MatrixAssembly
  import RealEigen
  import RealAnalysis

  // ---- the input checks ---------------------------------------------------------------------

  /** A ground motion: the time step, the sample times and the two ground accelerations. */
  datatype GroundWave = GroundWave(dt: real, time: seq<real>, accX: seq<real>, accY: seq<real>)

  /** A wave the analysis accepts: a positive step, two samples or more, one acceleration per sample. */
  predicate ValidWave(wave: GroundWave)
  {
    wave.dt > 0.0 && |wave.time| >= 2 && |wave.accX| == |wave.time| && |wave.accY| == |wave.time|
  }

  /** `validateWave`: accepts exactly the valid waves, and reports the first rule a wave breaks. */
  function ValidateWave(wave: GroundWave): (r: Result<()>)
    ensures r.Ok? <==> ValidWave(wave)
    ensures r.Err? ==> r.error.FormatParseError?
    ensures wave.dt <= 0.0 ==> r == FormatFailure("Resp analysis: wave.dt must be a positive number.")
    ensures wave.dt > 0.0 && |wave.time| < 2 ==> r == FormatFailure("Resp analysis: wave must include at least 2 time points.")
  {
    if wave.dt <= 0.0 then FormatFailure("Resp analysis: wave.dt must be a positive number.")
    else if |wave.time| < 2 then FormatFailure("Resp analysis: wave must include at least 2 time points.")
    else if |wave.accX| != |wave.time| || |wave.accY| != |wave.time| then
      FormatFailure("Resp analysis: wave arrays must have the same length.")
    else Ok(())
  }

  /** The options of a time-history analysis; an absent value takes its default. */
  datatype TimeHistoryOptions = TimeHistoryOptions(defaultDampingRatio: Option<real>, beta: Option<real>, gamma: Option<real>)

  /** `value ?? fallback`. */
  function OrDefault(value: Option<real>, fallback: real): real
  {
    if value.Some? then value.value else fallback
  }

  /** `beta ?? 0.25` and `gamma ?? 0.5`, accepted only when both are positive. */
  function NewmarkParameters(options: TimeHistoryOptions): (r: Result<(real, real)>)
    ensures r.Ok? <==> OrDefault(options.beta, 0.25) > 0.0 && OrDefault(options.gamma, 0.5) > 0.0
    ensures r.Ok? ==> r.value.0 == OrDefault(options.beta, 0.25) && r.value.1 == OrDefault(options.gamma, 0.5)
    ensures r.Err? ==> r == FormatFailure("Resp analysis: beta and gamma must be > 0.")
    ensures options.beta.None? && options.gamma.None? ==> r == Ok((0.25, 0.5))
  {
    var beta := OrDefault(options.beta, 0.25);
    var gamma := OrDefault(options.gamma, 0.5);
    if !(beta > 0.0 && gamma > 0.0) then FormatFailure("Resp analysis: beta and gamma must be > 0.")
    else Ok((beta, gamma))
  }

  // ---- the influence vectors and the ground acceleration -----------------------------------

  /** `createInfluenceVectors`: two zero vectors of 3n entries, then 1 at each story's X entry in rx and its Y entry in ry. */
  method CreateInfluenceVectors(storyCount: nat) returns (rx: seq<real>, ry: seq<real>)
    ensures |rx| == 3 * storyCount && |ry| == 3 * storyCount
    ensures forall k :: 0 <= k < 3 * storyCount ==> (rx[k] == 1.0 <==> k % 3 == 0) && (rx[k] == 0.0 <==> k % 3 != 0)
    ensures forall k :: 0 <= k < 3 * storyCount ==> (ry[k] == 1.0 <==> k % 3 == 1) && (ry[k] == 0.0 <==> k % 3 != 1)
    ensures rx == RealEigen.Influence(storyCount, X) && ry == RealEigen.Influence(storyCount, Y)
  {
    var dof := storyCount * 3;
    var x := new real[dof](_ => 0.0);
    var y := new real[dof](_ => 0.0);
    for i := 0 to storyCount
      invariant forall k :: 0 <= k < dof ==> x[k] == if k % 3 == 0 && k / 3 < i then 1.0 else 0.0
      invariant forall k :: 0 <= k < dof ==> y[k] == if k % 3 == 1 && k / 3 < i then 1.0 else 0.0
    {
      x[i * 3] := 1.0;
      y[i * 3 + 1] := 1.0;
    }
    rx, ry := x[..], y[..];
    forall k | 0 <= k < dof
      ensures rx[k] == RealEigen.Influence(storyCount, X)[k] && ry[k] == RealEigen.Influence(storyCount, Y)[k]
    {
      DofOf(k, storyCount);
      InfluenceAt(storyCount, k);
    }
  }

  /** The ground acceleration seen by every degree of freedom: `rx·agx + ry·agy`. */
  function GroundVector(rx: seq<real>, ry: seq<real>, agx: real, agy: real): (r: seq<real>)
    requires |rx| <= |ry|
    ensures |r| == |rx| && forall k :: 0 <= k < |rx| ==> r[k] == rx[k] * agx + ry[k] * agy
  {
    seq(|rx|, k requires 0 <= k < |rx| => rx[k] * agx + ry[k] * agy)
  }

  /** Through the influence vectors, the ground acceleration is agx on X entries, agy on Y entries and 0 on rotations. */
  lemma GroundVectorOfInfluence(storyCount: nat, agx: real, agy: real)
    ensures var g := GroundVector(RealEigen.Influence(storyCount, X), RealEigen.Influence(storyCount, Y), agx, agy);
      |g| == 3 * storyCount
      && forall s :: 0 <= s < storyCount ==> g[Dof(s, 0)] == agx && g[Dof(s, 1)] == agy && g[Dof(s, 2)] == 0.0
  {
    var g := GroundVector(RealEigen.Influence(storyCount, X), RealEigen.Influence(storyCount, Y), agx, agy);
    forall s | 0 <= s < storyCount
      ensures g[Dof(s, 0)] == agx && g[Dof(s, 1)] == agy && g[Dof(s, 2)] == 0.0
    {
      DofAxis(s, 0);
      DofAxis(s, 1);
      DofAxis(s, 2);
      InfluenceAt(storyCount, Dof(s, 0));
      InfluenceAt(storyCount, Dof(s, 1));
      InfluenceAt(storyCount, Dof(s, 2));
    }
  }

  /** The influence vectors entry by entry: 1 on the direction's entries, 0 elsewhere. */
  lemma InfluenceAt(storyCount: nat, k: nat)
    requires k < 3 * storyCount
    ensures RealEigen.Influence(storyCount, X)[k] == if k % 3 == 0 then 1.0 else 0.0
    ensures RealEigen.Influence(storyCount, Y)[k] == if k % 3 == 1 then 1.0 else 0.0
  {
    assert RealEigen.Offset(X) == 0 && RealEigen.Offset(Y) == 1;
  }

  /** Every index below 3n is the degree of freedom `k % 3` of story `k / 3 < n`. */
  lemma DofOf(k: nat, storyCount: nat)
    requires k < 3 * storyCount
    ensures k / 3 < storyCount && k % 3 < 3 && k == Dof(k / 3, k % 3)
  {
  }

  /** The degree of freedom of axis `axis` of story s has remainder `axis` and quotient s by 3. */
  lemma DofAxis(s: nat, axis: nat)
    requires axis < 3
    ensures Dof(s, axis) % 3 == axis && Dof(s, axis) / 3 == s
  {
  }

  /** The absolute acceleration of every degree of freedom: the relative one plus the ground term on X and Y. */
  function AbsoluteAcc(accRel: seq<real>, agx: real, agy: real): (r: seq<real>)
    ensures |r| == |accRel|
  {
    seq(|accRel|, k requires 0 <= k < |accRel| =>
      if k % 3 == 0 then accRel[k] + agx else if k % 3 == 1 then accRel[k] + agy else accRel[k])
  }

  /** The loop that fills `absoluteAcc` for one step, story by story. */
  method AbsoluteAcceleration(accRel: seq<real>, storyCount: nat, agx: real, agy: real) returns (acc: seq<real>)
    requires |accRel| == 3 * storyCount
    ensures acc == AbsoluteAcc(accRel, agx, agy)
  {
    var dof := 3 * storyCount;
    var a := new real[dof](_ => 0.0);
    for i := 0 to storyCount
      invariant forall k :: 0 <= k < dof ==> a[k] == if k / 3 < i then AbsoluteAcc(accRel, agx, agy)[k] else 0.0
    {
      var base := i * 3;
      a[base] := accRel[base] + agx;
      a[base + 1] := accRel[base + 1] + agy;
      a[base + 2] := accRel[base + 2];
    }
    acc := a[..];
  }

  /**
   * The absolute acceleration is the relative one plus the ground acceleration
   * the influence vectors spread: the X entries get agx, the Y entries agy,
   * the rotations nothing.
   */
  lemma AbsoluteAccIsRelativePlusGround(accRel: seq<real>, storyCount: nat, agx: real, agy: real)
    requires |accRel| == 3 * storyCount
    ensures AbsoluteAcc(accRel, agx, agy)
         == AddVectors(accRel, GroundVector(RealEigen.Influence(storyCount, X), RealEigen.Influence(storyCount, Y), agx, agy))
    ensures forall s :: 0 <= s < storyCount ==>
      AbsoluteAcc(accRel, agx, agy)[Dof(s, 0)] == accRel[Dof(s, 0)] + agx
      && AbsoluteAcc(accRel, agx, agy)[Dof(s, 1)] == accRel[Dof(s, 1)] + agy
      && AbsoluteAcc(accRel, agx, agy)[Dof(s, 2)] == accRel[Dof(s, 2)]
  {
    var rx, ry := RealEigen.Influence(storyCount, X), RealEigen.Influence(storyCount, Y);
    var g := GroundVector(rx, ry, agx, agy);
    forall k | 0 <= k < |accRel|
      ensures AbsoluteAcc(accRel, agx, agy)[k] == AddVectors(accRel, g)[k]
    {
      InfluenceAt(storyCount, k);
      assert g[k] == rx[k] * agx + ry[k] * agy;
    }
    forall s | 0 <= s < storyCount
      ensures Dof(s, 0) % 3 == 0 && Dof(s, 1) % 3 == 1 && Dof(s, 2) % 3 == 2
    {
      DofAxis(s, 0);
      DofAxis(s, 1);
      DofAxis(s, 2);
    }
  }

  /** `addVectors`: entry by entry, over the indices of the first vector. */
  function AddVectors(a: seq<real>, b: seq<real>): (r: seq<real>)
    requires |a| <= |b|
    ensures |r| == |a| && forall k :: 0 <= k < |a| ==> r[k] == a[k] + b[k]
  {
    seq(|a|, k requires 0 <= k < |a| => a[k] + b[k])
  }

  // ---- the header and the record rows --------------------------------------------------------

  /** The six column names of one story block: `AX, DX, AY, DY, AθZ, DθZ`, each with the story's suffix. */
  function StoryLabels(suffix: string): (r: seq<string>)
    ensures |r| == 6
  {
    ["AX_" + suffix, "DX_" + suffix, "AY_" + suffix, "DY_" + suffix, "AθZ_" + suffix, "DθZ_" + suffix]
  }

  /** The column names of story 1, which come first and in their own order. */
  const FIRST_STORY_LABELS: seq<string> := ["DX_1", "DY_1", "θZ_1", "AX_1", "AY_1"]

  /** The blocks of stories 2..n, in story order. */
  function MiddleLabels(storyCount: nat): (r: seq<string>)
    ensures |r| == if storyCount < 2 then 0 else 6 * (storyCount - 1)
  {
    if storyCount < 2 then [] else MiddleLabels(storyCount - 1) + StoryLabels(NatToString(storyCount))
  }

  /** The columns of a response file: time, story 1, stories 2..n, and the roof block `_R`. */
  function Header(storyCount: nat): seq<string>
  {
    ["Time(s)"] + (if storyCount >= 1 then FIRST_STORY_LABELS else []) + MiddleLabels(storyCount) + StoryLabels("R")
  }

  /** `buildHeader`, pushing the names block by block. */
  method BuildHeader(storyCount: nat) returns (header: seq<string>)
    ensures header == Header(storyCount)
  {
    header := ["Time(s)"];
    if storyCount >= 1 {
      header := header + ["DX_1"];
      header := header + ["DY_1"];
      header := header + ["θZ_1"];
      header := header + ["AX_1"];
      header := header + ["AY_1"];
    }
    var i := 2;
    while i <= storyCount
      invariant 2 <= i <= if storyCount >= 1 then storyCount + 1 else 2
      invariant header == ["Time(s)"] + (if storyCount >= 1 then FIRST_STORY_LABELS else []) + MiddleLabels(i - 1)
    {
      var suffix := NatToString(i);
      header := header + ["AX_" + suffix, "DX_" + suffix, "AY_" + suffix, "DY_" + suffix, "AθZ_" + suffix, "DθZ_" + suffix];
      i := i + 1;
    }
    if storyCount >= 1 {
      assert i - 1 == storyCount;
    }
    header := header + ["AX_R", "DX_R", "AY_R", "DY_R", "AθZ_R", "DθZ_R"];
    assert "AX_" + "R" == "AX_R" && "DX_" + "R" == "DX_R" && "AY_" + "R" == "AY_R" && "DY_" + "R" == "DY_R";
    assert "AθZ_" + "R" == "AθZ_R" && "DθZ_" + "R" == "DθZ_R";
  }

  /** The six values of one story block whose degrees of freedom start at `base`, in the order of `StoryLabels`. */
  function StoryValues(base: nat, disp: seq<real>, acc: seq<real>): (r: seq<real>)
    requires base + 3 <= |disp| && base + 3 <= |acc|
    ensures |r| == 6
  {
    [acc[base], disp[base], acc[base + 1], disp[base + 1], acc[base + 2], disp[base + 2]]
  }

  /** The blocks of stories 2..n. */
  function MiddleValues(storyCount: nat, disp: seq<real>, acc: seq<real>): (r: seq<real>)
    requires 3 * storyCount <= |disp| && 3 * storyCount <= |acc|
    ensures |r| == if storyCount < 2 then 0 else 6 * (storyCount - 1)
  {
    if storyCount < 2 then [] else MiddleValues(storyCount - 1, disp, acc) + StoryValues(3 * (storyCount - 1), disp, acc)
  }

  /** One record: the time, story 1's displacements and X/Y accelerations, stories 2..n, and the top story again. */
  function RecordRow(time: real, storyCount: nat, disp: seq<real>, acc: seq<real>): seq<real>
    requires storyCount >= 1 && 3 * storyCount <= |disp| && 3 * storyCount <= |acc|
  {
    [time] + [disp[0], disp[1], disp[2], acc[0], acc[1]] + MiddleValues(storyCount, disp, acc)
      + StoryValues(3 * (storyCount - 1), disp, acc)
  }

  /** `buildRecordRow`, pushing the values block by block. */
  method BuildRecordRow(time: real, storyCount: nat, disp: seq<real>, acc: seq<real>) returns (row: seq<real>)
    requires storyCount >= 1 && 3 * storyCount <= |disp| && 3 * storyCount <= |acc|
    ensures row == RecordRow(time, storyCount, disp, acc)
  {
    row := [time];
    row := row + [disp[0]];
    row := row + [disp[1]];
    row := row + [disp[2]];
    row := row + [acc[0]];
    row := row + [acc[1]];
    for i := 1 to storyCount
      invariant row == [time] + [disp[0], disp[1], disp[2], acc[0], acc[1]] + MiddleValues(i, disp, acc)
    {
      var base := i * 3;
      row := row + [acc[base], disp[base], acc[base + 1], disp[base + 1], acc[base + 2], disp[base + 2]];
    }
    var roof := (storyCount - 1) * 3;
    row := row + [acc[roof], disp[roof], acc[roof + 1], disp[roof + 1], acc[roof + 2], disp[roof + 2]];
  }

  /** Block j-1 of the middle labels is story j's, for 2 <= j <= n. */
  lemma {:induction false} MiddleLabelsAt(storyCount: nat, j: nat)
    requires 2 <= j <= storyCount
    ensures MiddleLabels(storyCount)[6 * (j - 2)..6 * (j - 1)] == StoryLabels(NatToString(j))
  {
    if j < storyCount {
      MiddleLabelsAt(storyCount - 1, j);
      var front := MiddleLabels(storyCount - 1);
      assert MiddleLabels(storyCount)[..|front|] == front;
    }
  }

  /** Block j-1 of the middle values is story j's, whose degrees of freedom start at 3(j-1). */
  lemma {:induction false} MiddleValuesAt(storyCount: nat, disp: seq<real>, acc: seq<real>, j: nat)
    requires 3 * storyCount <= |disp| && 3 * storyCount <= |acc| && 2 <= j <= storyCount
    ensures MiddleValues(storyCount, disp, acc)[6 * (j - 2)..6 * (j - 1)] == StoryValues(3 * (j - 1), disp, acc)
  {
    if j < storyCount {
      MiddleValuesAt(storyCount - 1, disp, acc, j);
      var front := MiddleValues(storyCount - 1, disp, acc);
      assert MiddleValues(storyCount, disp, acc)[..|front|] == front;
    }
  }

  /**
   * The header of an n-story file: 6n+6 columns, "Time(s)" first, story 1's
   * five names, story j's block at columns 6j-6..6j, and the roof block `_R`
   * last.  Without stories only the time and the roof block remain.
   */
  lemma HeaderLayout(storyCount: nat)
    ensures storyCount == 0 ==> Header(storyCount) == ["Time(s)"] + StoryLabels("R")
    ensures storyCount >= 1 ==> |Header(storyCount)| == 6 * storyCount + 6
    ensures Header(storyCount)[0] == "Time(s)"
    ensures storyCount >= 1 ==> Header(storyCount)[1..6] == FIRST_STORY_LABELS
    ensures forall j :: 2 <= j <= storyCount ==> Header(storyCount)[6 * j - 6..6 * j] == StoryLabels(NatToString(j))
    ensures storyCount >= 1 ==> Header(storyCount)[6 * storyCount..] == StoryLabels("R")
  {
    var h := Header(storyCount);
    var head := ["Time(s)"] + (if storyCount >= 1 then FIRST_STORY_LABELS else []);
    var middle := MiddleLabels(storyCount);
    assert h == head + middle + StoryLabels("R");
    forall j | 2 <= j <= storyCount
      ensures h[6 * j - 6..6 * j] == StoryLabels(NatToString(j))
    {
      MiddleLabelsAt(storyCount, j);
      assert h[6 * j - 6..6 * j] == middle[6 * (j - 2)..6 * (j - 1)];
    }
  }

  /**
   * A record of an n-story file: 6n+6 values, the time first, story 1's
   * displacements and X/Y accelerations, story j's block at 6j-6..6j, and the
   * top story's block again at the end.
   */
  lemma RecordRowLayout(time: real, storyCount: nat, disp: seq<real>, acc: seq<real>)
    requires storyCount >= 1 && 3 * storyCount <= |disp| && 3 * storyCount <= |acc|
    ensures |RecordRow(time, storyCount, disp, acc)| == 6 * storyCount + 6
    ensures RecordRow(time, storyCount, disp, acc)[0] == time
    ensures RecordRow(time, storyCount, disp, acc)[1..6] == [disp[0], disp[1], disp[2], acc[0], acc[1]]
    ensures forall j :: 2 <= j <= storyCount ==>
      RecordRow(time, storyCount, disp, acc)[6 * j - 6..6 * j] == StoryValues(3 * (j - 1), disp, acc)
    ensures RecordRow(time, storyCount, disp, acc)[6 * storyCount..] == StoryValues(3 * (storyCount - 1), disp, acc)
  {
    var row := RecordRow(time, storyCount, disp, acc);
    var middle := MiddleValues(storyCount, disp, acc);
    forall j | 2 <= j <= storyCount
      ensures row[6 * j - 6..6 * j] == StoryValues(3 * (j - 1), disp, acc)
    {
      MiddleValuesAt(storyCount, disp, acc, j);
      assert row[6 * j - 6..6 * j] == middle[6 * (j - 2)..6 * (j - 1)];
    }
  }

  /** Every record has as many values as the header has names, so each value sits under its own name. */
  lemma RecordMatchesHeader(time: real, storyCount: nat, disp: seq<real>, acc: seq<real>)
    requires storyCount >= 1 && 3 * storyCount <= |disp| && 3 * storyCount <= |acc|
    ensures |RecordRow(time, storyCount, disp, acc)| == |Header(storyCount)|
  {
    HeaderLayout(storyCount);
    RecordRowLayout(time, storyCount, disp, acc);
  }

  /** The roof block repeats the top story: the same quantities under `_R`, and for two stories or more the same values. */
  lemma RoofMirrorsTopStory(time: real, storyCount: nat, disp: seq<real>, acc: seq<real>)
    requires storyCount >= 2 && 3 * storyCount <= |disp| && 3 * storyCount <= |acc|
    ensures var row := RecordRow(time, storyCount, disp, acc);
      row[6 * storyCount..] == row[6 * storyCount - 6..6 * storyCount]
    ensures var h := Header(storyCount);
      h[6 * storyCount..] == StoryLabels("R") && h[6 * storyCount - 6..6 * storyCount] == StoryLabels(NatToString(storyCount))
  {
    HeaderLayout(storyCount);
    RecordRowLayout(time, storyCount, disp, acc);
  }

  // ---- the column maxima ---------------------------------------------------------------------

  /** Column i of the records. */
  function ColumnOf(records: seq<seq<real>>, i: nat): (c: seq<real>)
    requires forall k :: 0 <= k < |records| ==> i < |records[k]|
    ensures |c| == |records| && forall k :: 0 <= k < |records| ==> c[k] == records[k][i]
  {
    seq(|records|, k requires 0 <= k < |records| => records[k][i])
  }

  /**
   * The column maxima of `colCount` columns: an error when some record has
   * another length, otherwise for every column the largest magnitude in it,
   * starting from 0.
   */
  function ColumnMax(records: seq<seq<real>>, colCount: nat): (r: Result<seq<real>>)
    ensures r.Ok? <==> forall k :: 0 <= k < |records| ==> |records[k]| == colCount
    ensures r.Err? ==> r == FormatFailure("Resp analysis: internal row length mismatch.")
  {
    if exists k :: 0 <= k < |records| && |records[k]| != colCount then
      FormatFailure("Resp analysis: internal row length mismatch.")
    else
      Ok(seq(colCount, i requires 0 <= i < colCount => AbsMax(ColumnOf(records, i))))
  }

  /** Each column maximum bounds every magnitude in its column, is non-negative, and is attained when there are records. */
  lemma ColumnMaxIsMax(records: seq<seq<real>>, colCount: nat)
    requires ColumnMax(records, colCount).Ok?
    ensures var m := ColumnMax(records, colCount).value;
      |m| == colCount
      && (forall i :: 0 <= i < colCount ==> m[i] >= 0.0)
      && (forall k, i :: 0 <= k < |records| && 0 <= i < colCount ==> Abs(records[k][i]) <= m[i])
      && (records != [] ==> forall i :: 0 <= i < colCount ==> Attained(records, i, m[i]))
  {
    var m := ColumnMax(records, colCount).value;
    forall i | 0 <= i < colCount
      ensures m[i] >= 0.0
      ensures forall k :: 0 <= k < |records| ==> Abs(records[k][i]) <= m[i]
      ensures records != [] ==> Attained(records, i, m[i])
    {
      var column := ColumnOf(records, i);
      AbsMaxIsMax(column);
      if records != [] {
        var k :| 0 <= k < |records| && Abs(column[k]) == AbsMax(column);
        assert Abs(records[k][i]) == m[i];
      }
    }
  }

  /** Some record has magnitude `x` in column i. */
  predicate Attained(records: seq<seq<real>>, i: nat, x: real)
  {
    exists k :: 0 <= k < |records| && i < |records[k]| && Abs(records[k][i]) == x
  }

  /** The running maximum over one more value. */
  lemma AbsMaxAppend(values: seq<real>, x: real)
    ensures AbsMax(values + [x]) == Max(AbsMax(values), Abs(x))
  {
    assert (values + [x])[..|values|] == values;
  }

  /** One record's pass of the column-max loop: `columnMaxAbs[i] = max(columnMaxAbs[i], |row[i]|)`. */
  method UpdateColumnMax(columnMaxAbs: array<real>, row: seq<real>)
    requires |row| == columnMaxAbs.Length
    modifies columnMaxAbs
    ensures forall i :: 0 <= i < |row| ==> columnMaxAbs[i] == Max(old(columnMaxAbs[i]), Abs(row[i]))
  {
    for i := 0 to |row|
      invariant forall q :: 0 <= q < i ==> columnMaxAbs[q] == Max(old(columnMaxAbs[q]), Abs(row[q]))
      invariant forall q :: i <= q < |row| ==> columnMaxAbs[q] == old(columnMaxAbs[q])
    {
      columnMaxAbs[i] := Max(columnMaxAbs[i], Abs(row[i]));
    }
  }

  /** The column-max loop, which stops at the first record of another length. */
  method ColumnMaxAbs(records: seq<seq<real>>, colCount: nat) returns (r: Result<seq<real>>)
    ensures r == ColumnMax(records, colCount)
  {
    var columnMaxAbs := new real[colCount](_ => 0.0);
    for k := 0 to |records|
      invariant forall j :: 0 <= j < k ==> |records[j]| == colCount
      invariant forall i :: 0 <= i < colCount ==> columnMaxAbs[i] == AbsMax(ColumnOf(records[..k], i))
    {
      var row := records[k];
      if |row| != colCount {
        assert !(forall j :: 0 <= j < |records| ==> |records[j]| == colCount);
        return FormatFailure("Resp analysis: internal row length mismatch.");
      }
      UpdateColumnMax(columnMaxAbs, row);
      forall i | 0 <= i < colCount
        ensures columnMaxAbs[i] == AbsMax(ColumnOf(records[..k + 1], i))
      {
        ColumnStep(records, k, i);
        AbsMaxAppend(ColumnOf(records[..k], i), row[i]);
      }
    }
    assert records[..|records|] == records;
    var expected := seq(colCount, i requires 0 <= i < colCount => AbsMax(ColumnOf(records, i)));
    assert columnMaxAbs[..] == expected;
    r := Ok(columnMaxAbs[..]);
  }

  /** Column i of one more record. */
  lemma ColumnStep(records: seq<seq<real>>, k: nat, i: nat)
    requires k < |records| && forall j :: 0 <= j <= k ==> i < |records[j]|
    ensures ColumnOf(records[..k + 1], i) == ColumnOf(records[..k], i) + [records[k][i]]
  {
  }

  // ---- the Newmark-β integration ---------------------------------------------------------------

  /** The integration constants `a0..a5` of the average-acceleration family. */
  datatype Newmark = Newmark(a0: real, a1: real, a2: real, a3: real, a4: real, a5: real)

  /** The constants for β, γ and the time step dt. */
  function NewmarkConstants(beta: real, gamma: real, dt: real): Newmark
    requires beta > 0.0 && dt > 0.0
  {
    Newmark(1.0 / (beta * dt * dt), gamma / (beta * dt), 1.0 / (beta * dt), 1.0 / (2.0 * beta) - 1.0,
            gamma / beta - 1.0, dt * (gamma / (2.0 * beta) - 1.0))
  }

  /**
   * The three relations between the constants on which a Newmark step rests:
   * `dt·γ·a0 = a1`, `dt·γ·a2 = a4 + 1` and `dt(1-γ) - dt·γ·a3 = -a5`.
   */
  predicate Consistent(c: Newmark, gamma: real, dt: real)
  {
    dt * gamma * c.a0 == c.a1 && dt * gamma * c.a2 == c.a4 + 1.0 && dt * (1.0 - gamma) - dt * gamma * c.a3 == -c.a5
  }

  lemma QuotientTimes(x: real, y: real)
    requires y != 0.0
    ensures (x / y) * y == x
  {
  }

  /** `dt·γ / (b·dt) = γ / b`. */
  lemma CancelStep(dt: real, gamma: real, b: real)
    requires dt > 0.0 && b > 0.0
    ensures dt * gamma * (1.0 / (b * dt)) == gamma / b
  {
    var q := 1.0 / (b * dt);
    QuotientTimes(1.0, b * dt);
    assert q * (b * dt) == 1.0;
    assert (dt * gamma * q) * b == gamma * (q * (b * dt));
    QuotientTimes(gamma, b);
    var g := gamma / b;
    assert g * b == gamma;
    assert (dt * gamma * q) * b == g * b;
  }

  /** `γ · (1 / (2β)) = γ / (2β)`. */
  lemma TimesReciprocal(gamma: real, x: real)
    requires x > 0.0
    ensures gamma * (1.0 / x) == gamma / x
  {
    QuotientTimes(1.0, x);
    QuotientTimes(gamma, x);
    assert (gamma * (1.0 / x)) * x == gamma * ((1.0 / x) * x);
  }

  /** The constants of every positive β and time step are consistent. */
  lemma NewmarkConstantsConsistent(beta: real, gamma: real, dt: real)
    requires beta > 0.0 && dt > 0.0
    ensures Consistent(NewmarkConstants(beta, gamma, dt), gamma, dt)
  {
    var c := NewmarkConstants(beta, gamma, dt);
    assert beta * dt * dt == (beta * dt) * dt;
    CancelStep(dt, gamma, beta * dt);
    CancelStep(dt, gamma, beta);
    assert beta * dt == dt * beta;
    TimesReciprocal(gamma, 2.0 * beta);
    assert dt * gamma * c.a3 == dt * (gamma * (1.0 / (2.0 * beta))) - dt * gamma;
  }

  /** The effective stiffness row `k + a1·c + a0·m` of one degree of freedom. */
  function EffectiveRow(k: seq<real>, c: seq<real>, m: seq<real>, a1: real, a0: real): (r: seq<real>)
    requires |k| <= |c| && |k| <= |m|
    ensures |r| == |k|
  {
    seq(|k|, j requires 0 <= j < |k| => k[j] + a1 * c[j] + a0 * m[j])
  }

  /** The effective stiffness `K + a1·C + a0·M`. */
  function EffectiveStiffness(stiffness: seq<seq<real>>, damping: seq<seq<real>>, mass: seq<seq<real>>,
                              a1: real, a0: real, d: nat): (k: seq<seq<real>>)
    requires Square(stiffness, d) && Square(damping, d) && Square(mass, d)
    ensures Square(k, d)
  {
    seq(d, i requires 0 <= i < d => EffectiveRow(stiffness[i], damping[i], mass[i], a1, a0))
  }

  /** One row of the `kEff` loop. */
  method FillEffectiveRow(kEff: array2<real>, stiffness: seq<seq<real>>, damping: seq<seq<real>>,
                          mass: seq<seq<real>>, a1: real, a0: real, d: nat, i: nat)
    requires Square(stiffness, d) && Square(damping, d) && Square(mass, d) && i < d
    requires kEff.Length0 == d && kEff.Length1 == d
    modifies kEff
    ensures forall p, q :: 0 <= p < d && 0 <= q < d ==>
      kEff[p, q] == (if p == i then EffectiveStiffness(stiffness, damping, mass, a1, a0, d)[p][q] else old(kEff[p, q]))
  {
    ghost var row := EffectiveStiffness(stiffness, damping, mass, a1, a0, d)[i];
    assert row == EffectiveRow(stiffness[i], damping[i], mass[i], a1, a0);
    for j := 0 to d
      invariant forall p, q :: 0 <= p < d && 0 <= q < d ==>
        kEff[p, q] == (if p == i && q < j then row[q] else old(kEff[p, q]))
    {
      assert row[j] == stiffness[i][j] + a1 * damping[i][j] + a0 * mass[i][j];
      kEff[i, j] := stiffness[i][j] + a1 * damping[i][j] + a0 * mass[i][j];
    }
  }

  /** The `kEff` loop over a zero matrix. */
  method BuildEffectiveStiffness(stiffness: seq<seq<real>>, damping: seq<seq<real>>, mass: seq<seq<real>>,
                                 a1: real, a0: real, d: nat) returns (kEff: array2<real>)
    requires Square(stiffness, d) && Square(damping, d) && Square(mass, d)
    ensures fresh(kEff) && kEff.Length0 == d && kEff.Length1 == d
    ensures Rows(kEff) == EffectiveStiffness(stiffness, damping, mass, a1, a0, d)
  {
    kEff := new real[d, d]((_, _) => 0.0);
    for i := 0 to d
      invariant forall p, q :: 0 <= p < d && 0 <= q < d ==>
        kEff[p, q] == (if p < i then EffectiveStiffness(stiffness, damping, mass, a1, a0, d)[p][q] else 0.0)
    {
      FillEffectiveRow(kEff, stiffness, damping, mass, a1, a0, d, i);
    }
    var rows, spec := Rows(kEff), EffectiveStiffness(stiffness, damping, mass, a1, a0, d);
    forall p | 0 <= p < d
      ensures rows[p] == spec[p]
    {
      assert forall q :: 0 <= q < d ==> rows[p][q] == spec[p][q];
    }
  }

  /** The load of one step: `-M (rx·agx + ry·agy)`. */
  function LoadVector(mass: seq<seq<real>>, rx: seq<real>, ry: seq<real>, agx: real, agy: real): (p: seq<real>)
    requires |rx| <= |ry| && forall i :: 0 <= i < |mass| ==> |mass[i]| <= |rx|
    ensures |p| == |mass|
  {
    seq(|mass|, i requires 0 <= i < |mass| => -Dot(mass[i], GroundVector(rx, ry, agx, agy)))
  }

  /** `computeLoadVector`: the ground acceleration, through the mass matrix, negated entry by entry. */
  method ComputeLoadVector(mass: seq<seq<real>>, rx: seq<real>, ry: seq<real>, agx: real, agy: real)
    returns (p: seq<real>)
    requires |rx| <= |ry| && forall i :: 0 <= i < |mass| ==> |mass[i]| <= |rx|
    ensures p == LoadVector(mass, rx, ry, agx, agy)
  {
    var r := GroundVector(rx, ry, agx, agy);
    var load := MatVec(mass, r);
    var values := new real[|load|](i requires 0 <= i < |load| => load[i]);
    for i := 0 to values.Length
      invariant forall q :: 0 <= q < values.Length ==> values[q] == if q < i then -load[q] else load[q]
    {
      values[i] := -values[i];
    }
    p := values[..];
  }

  /** The displacement, velocity and relative acceleration of every degree of freedom. */
  datatype Kinematics = Kinematics(u: seq<real>, v: seq<real>, acc: seq<real>)

  predicate Sized(x: Kinematics, d: nat)
  {
    |x.u| == d && |x.v| == d && |x.acc| == d
  }

  /** `new Array(d).fill(0)`. */
  function Zeros(d: nat): (z: seq<real>)
    ensures |z| == d && forall i :: 0 <= i < d ==> z[i] == 0.0
  {
    seq(d, i requires 0 <= i < d => 0.0)
  }

  /** The smallest mass diagonal magnitude the analysis divides by. */
  const MIN_MASS_DIAGONAL: real := 0.000000000001

  /** Every diagonal entry of the mass matrix is at least 1e-12 in magnitude. */
  predicate DiagonalOk(mass: seq<seq<real>>)
    requires forall i :: 0 <= i < |mass| ==> i < |mass[i]|
  {
    forall i :: 0 <= i < |mass| ==> Abs(mass[i][i]) >= MIN_MASS_DIAGONAL
  }

  /**
   * The initial accelerations `(p - cv - ku)[i] / m_ii`, or the error for a
   * mass diagonal entry below 1e-12 in magnitude.  They satisfy each
   * diagonal equation `m_ii a_i + cv_i + ku_i = p_i`.
   */
  function InitialAcc(mass: seq<seq<real>>, p: seq<real>, cv: seq<real>, ku: seq<real>): (r: Result<seq<real>>)
    requires Square(mass, |p|) && |cv| == |p| && |ku| == |p|
    ensures r.Ok? <==> DiagonalOk(mass)
    ensures r.Err? ==> r == FormatFailure("Resp analysis: mass matrix diagonal includes zero value.")
    ensures r.Ok? ==> |r.value| == |p| && forall i :: 0 <= i < |p| ==> mass[i][i] * r.value[i] + cv[i] + ku[i] == p[i]
  {
    if !DiagonalOk(mass) then FormatFailure("Resp analysis: mass matrix diagonal includes zero value.")
    else
      var acc := Quotients(mass, p, cv, ku);
      QuotientsBalance(mass, p, cv, ku);
      Ok(acc)
  }

  /** `(p - cv - ku)[i] / m_ii` for every i. */
  function Quotients(mass: seq<seq<real>>, p: seq<real>, cv: seq<real>, ku: seq<real>): (acc: seq<real>)
    requires Square(mass, |p|) && |cv| == |p| && |ku| == |p| && DiagonalOk(mass)
    ensures |acc| == |p|
  {
    seq(|p|, i requires 0 <= i < |p| => (p[i] - cv[i] - ku[i]) / mass[i][i])
  }

  lemma QuotientsBalance(mass: seq<seq<real>>, p: seq<real>, cv: seq<real>, ku: seq<real>)
    requires Square(mass, |p|) && |cv| == |p| && |ku| == |p| && DiagonalOk(mass)
    ensures forall i :: 0 <= i < |p| ==> mass[i][i] * Quotients(mass, p, cv, ku)[i] + cv[i] + ku[i] == p[i]
  {
    forall i | 0 <= i < |p|
      ensures mass[i][i] * Quotients(mass, p, cv, ku)[i] + cv[i] + ku[i] == p[i]
    {
      QuotientTimes(p[i] - cv[i] - ku[i], mass[i][i]);
    }
  }

  /** The diagonal loop that starts the integration, stopping at the first negligible mass. */
  method InitialAcceleration(mass: seq<seq<real>>, p: seq<real>, cv: seq<real>, ku: seq<real>)
    returns (r: Result<seq<real>>)
    requires Square(mass, |p|) && |cv| == |p| && |ku| == |p|
    ensures r == InitialAcc(mass, p, cv, ku)
  {
    var dof := |p|;
    var accRel := new real[dof](_ => 0.0);
    for i := 0 to dof
      invariant forall q :: 0 <= q < i ==> Abs(mass[q][q]) >= MIN_MASS_DIAGONAL
      invariant forall q :: 0 <= q < dof ==> accRel[q] == if q < i then (p[q] - cv[q] - ku[q]) / mass[q][q] else 0.0
    {
      var mii := mass[i][i];
      if Abs(mii) < MIN_MASS_DIAGONAL {
        assert !DiagonalOk(mass);
        return FormatFailure("Resp analysis: mass matrix diagonal includes zero value.");
      }
      accRel[i] := (p[i] - cv[i] - ku[i]) / mii;
    }
    assert accRel[..] == Quotients(mass, p, cv, ku);
    r := Ok(accRel[..]);
  }

  /** A Cholesky solver of the effective stiffness: right-hand side to displacement. */
  type Solver = seq<real> -> seq<real>

  /** The solver returns vectors of the system's size. */
  ghost predicate Fits(solve: Solver, d: nat)
  {
    forall b :: |b| == d ==> |solve(b)| == d
  }

  /** The solver solves `k x = b` exactly. */
  ghost predicate Solves(solve: Solver, k: seq<seq<real>>)
  {
    Square(k, |k|) && Fits(solve, |k|) && forall b :: |b| == |k| ==> MatVec(k, solve(b)) == b
  }

  /**
   * What `new CholeskyDecomposition(kEff)` leaves behind: its solver and
   * whether the factorisation found the matrix positive definite.  The
   * library's `solve` raises an error on a factorisation that is not.
   */
  datatype Factorisation = Factorisation(solve: Solver, positiveDefinite: bool)

  /** The constructor of the factorisation, or the error it raises (a matrix that is not symmetric). */
  type Cholesky = seq<seq<real>> -> Result<Factorisation>

  /** The message of the library's error on solving with a factorisation that is not positive definite. */
  const NOT_POSITIVE_DEFINITE: string := "Matrix is not positive definite"

  /** Every solver the factorisation gives fits its matrix. */
  ghost predicate FactorFits(factor: Cholesky)
  {
    forall k :: factor(k).Ok? ==> Fits(factor(k).value.solve, |k|)
  }

  /** Every positive definite factorisation of a square matrix solves it exactly. */
  ghost predicate FactorSolves(factor: Cholesky)
  {
    forall k :: Square(k, |k|) && factor(k).Ok? && factor(k).value.positiveDefinite ==> Solves(factor(k).value.solve, k)
  }

  /** The matrices of an n-story model, its ground wave and the Newmark parameters. */
  datatype Integration = Integration(storyCount: nat, mass: seq<seq<real>>, damping: seq<seq<real>>,
                                     stiffness: seq<seq<real>>, wave: GroundWave, beta: real, gamma: real)

  predicate WellFormed(s: Integration)
  {
    var d := 3 * s.storyCount;
    s.storyCount >= 1 && Square(s.mass, d) && Square(s.damping, d) && Square(s.stiffness, d)
    && ValidWave(s.wave) && s.beta > 0.0 && s.gamma > 0.0
  }

  function Constants(s: Integration): Newmark
    requires WellFormed(s)
  {
    NewmarkConstants(s.beta, s.gamma, s.wave.dt)
  }

  function KEff(s: Integration): (k: seq<seq<real>>)
    requires WellFormed(s)
    ensures Square(k, 3 * s.storyCount)
  {
    EffectiveStiffness(s.stiffness, s.damping, s.mass, Constants(s).a1, Constants(s).a0, 3 * s.storyCount)
  }

  /** The load at step k. */
  function Load(s: Integration, k: nat): (p: seq<real>)
    requires WellFormed(s) && k < |s.wave.time|
    ensures |p| == 3 * s.storyCount
  {
    LoadVector(s.mass, RealEigen.Influence(s.storyCount, X), RealEigen.Influence(s.storyCount, Y),
               s.wave.accX[k], s.wave.accY[k])
  }

  /** The state at time 0: at rest, with the accelerations the diagonal equations give. */
  function Initial(s: Integration): (x: Kinematics)
    requires WellFormed(s) && DiagonalOk(s.mass)
    ensures Sized(x, 3 * s.storyCount)
  {
    var d := 3 * s.storyCount;
    var u, v := Zeros(d), Zeros(d);
    Kinematics(u, v, InitialAcc(s.mass, Load(s, 0), MatVec(s.damping, v), MatVec(s.stiffness, u)).value)
  }

  /** The Newmark update of one step under load p: solve for the displacement, then the acceleration and velocity. */
  function Advance(s: Integration, solve: Solver, x: Kinematics, p: seq<real>): (next: Kinematics)
    requires WellFormed(s) && Fits(solve, 3 * s.storyCount) && Sized(x, 3 * s.storyCount) && |p| == 3 * s.storyCount
    ensures Sized(next, 3 * s.storyCount)
  {
    Update(s, x, solve(NewmarkRhs(s, x, p)))
  }

  /** The mass term `a0·u + a2·v + a3·a` of the right-hand side. */
  function MassTerm(c: Newmark, x: Kinematics): (t: seq<real>)
    requires |x.v| == |x.u| && |x.acc| == |x.u|
    ensures |t| == |x.u|
  {
    AddVectors(Scale(x.u, c.a0), AddVectors(Scale(x.v, c.a2), Scale(x.acc, c.a3)))
  }

  /** The damping term `a1·u + a4·v + a5·a` of the right-hand side. */
  function DampingTerm(c: Newmark, x: Kinematics): (t: seq<real>)
    requires |x.v| == |x.u| && |x.acc| == |x.u|
    ensures |t| == |x.u|
  {
    AddVectors(Scale(x.u, c.a1), AddVectors(Scale(x.v, c.a4), Scale(x.acc, c.a5)))
  }

  /** The right-hand side `p + M·termM + C·termC` the solver is given. */
  function NewmarkRhs(s: Integration, x: Kinematics, p: seq<real>): (rhs: seq<real>)
    requires WellFormed(s) && Sized(x, 3 * s.storyCount) && |p| == 3 * s.storyCount
    ensures |rhs| == 3 * s.storyCount
  {
    var c := Constants(s);
    AddVectors(p, AddVectors(MatVec(s.mass, MassTerm(c, x)), MatVec(s.damping, DampingTerm(c, x))))
  }

  /** The acceleration `a0(u' - u) - a2·v - a3·a` at the solved displacement u'. */
  function NextAcc(c: Newmark, x: Kinematics, uNext: seq<real>): (a: seq<real>)
    requires |x.v| == |x.u| && |x.acc| == |x.u| && |uNext| == |x.u|
    ensures |a| == |x.u|
  {
    AddVectors(Scale(AddVectors(uNext, Scale(x.u, -1.0)), c.a0), AddVectors(Scale(x.v, -c.a2), Scale(x.acc, -c.a3)))
  }

  /** The new state from the solved displacement: acceleration, then velocity `v + dt((1-γ)a + γa')`. */
  function Update(s: Integration, x: Kinematics, uNext: seq<real>): (next: Kinematics)
    requires WellFormed(s) && Sized(x, 3 * s.storyCount) && |uNext| == 3 * s.storyCount
    ensures Sized(next, 3 * s.storyCount)
  {
    var accNext := NextAcc(Constants(s), x, uNext);
    Kinematics(uNext, NextVel(s.gamma, s.wave.dt, x, accNext), accNext)
  }

  /** The velocity `v + dt((1-γ)a + γa')` at the new acceleration a'. */
  function NextVel(gamma: real, dt: real, x: Kinematics, accNext: seq<real>): (v: seq<real>)
    requires |x.v| == |x.u| && |x.acc| == |x.u| && |accNext| == |x.u|
    ensures |v| == |x.u|
  {
    AddVectors(x.v, Scale(AddVectors(Scale(x.acc, 1.0 - gamma), Scale(accNext, gamma)), dt))
  }

  /** The state at step k. */
  function StateAt(s: Integration, solve: Solver, k: nat): (x: Kinematics)
    requires WellFormed(s) && DiagonalOk(s.mass) && Fits(solve, 3 * s.storyCount) && k < |s.wave.time|
    ensures Sized(x, 3 * s.storyCount)
    decreases k
  {
    if k == 0 then Initial(s) else Advance(s, solve, StateAt(s, solve, k - 1), Load(s, k))
  }

  /** The record of step k: its time, the displacements and the absolute accelerations. */
  function Record(s: Integration, solve: Solver, k: nat): seq<real>
    requires WellFormed(s) && DiagonalOk(s.mass) && Fits(solve, 3 * s.storyCount) && k < |s.wave.time|
  {
    var x := StateAt(s, solve, k);
    RecordRow(s.wave.time[k], s.storyCount, x.u, AbsoluteAcc(x.acc, s.wave.accX[k], s.wave.accY[k]))
  }

  /** One record per sample time. */
  function Records(s: Integration, solve: Solver): (r: seq<seq<real>>)
    requires WellFormed(s) && DiagonalOk(s.mass) && Fits(solve, 3 * s.storyCount)
    ensures |r| == |s.wave.time|
  {
    RecordsUpTo(s, solve, |s.wave.time|)
  }

  /** The records of the first n samples, in order. */
  function RecordsUpTo(s: Integration, solve: Solver, n: nat): (r: seq<seq<real>>)
    requires WellFormed(s) && DiagonalOk(s.mass) && Fits(solve, 3 * s.storyCount) && n <= |s.wave.time|
    ensures |r| == n
  {
    Tabulate((k: nat) => if k < |s.wave.time| then Record(s, solve, k) else [], n)
  }

  /** One more sample appends its record. */
  lemma RecordsUpToNext(s: Integration, solve: Solver, n: nat)
    requires WellFormed(s) && DiagonalOk(s.mass) && Fits(solve, 3 * s.storyCount) && n < |s.wave.time|
    ensures RecordsUpTo(s, solve, n + 1) == RecordsUpTo(s, solve, n) + [Record(s, solve, n)]
  {
  }

  /** `f(0), ..., f(n-1)`, built by appending as the integration loop pushes its rows. */
  function Tabulate<T>(f: nat -> T, n: nat): (r: seq<T>)
    ensures |r| == n
  {
    if n == 0 then [] else Tabulate(f, n - 1) + [f(n - 1)]
  }

  /** Entry k of the table is `f(k)`. */
  lemma {:induction false} TabulateAt<T>(f: nat -> T, n: nat, k: nat)
    requires k < n
    ensures Tabulate(f, n)[k] == f(k)
  {
    if k < n - 1 {
      TabulateAt(f, n - 1, k);
    }
  }

  /** Record k of the file is the record of sample k. */
  lemma RecordsAt(s: Integration, solve: Solver, k: nat)
    requires WellFormed(s) && DiagonalOk(s.mass) && Fits(solve, 3 * s.storyCount) && k < |s.wave.time|
    ensures |Records(s, solve)| == |s.wave.time| && Records(s, solve)[k] == Record(s, solve, k)
  {
    TabulateAt((k: nat) => if k < |s.wave.time| then Record(s, solve, k) else [], |s.wave.time|, k);
  }

  /** The `step > 0` branch of the integration loop. */
  method NewmarkStep(s: Integration, solve: Solver, x: Kinematics, p: seq<real>) returns (next: Kinematics)
    requires WellFormed(s) && Fits(solve, 3 * s.storyCount) && Sized(x, 3 * s.storyCount) && |p| == 3 * s.storyCount
    ensures next == Advance(s, solve, x, p)
  {
    var c := Constants(s);
    var massTerm := RealEigen.MatrixVector(s.mass, MassTerm(c, x));
    var dampingTerm := RealEigen.MatrixVector(s.damping, DampingTerm(c, x));
    var rhs := AddVectors(p, AddVectors(massTerm, dampingTerm));
    var uNext := solve(rhs);
    next := Update(s, x, uNext);
  }

  /** One pass of the integration loop, pushing the record of the step onto those before it. */
  method PushStep(s: Integration, solve: Solver, x: Kinematics, rx: seq<real>, ry: seq<real>, step: nat,
                  records: seq<seq<real>>) returns (next: Kinematics, pushed: seq<seq<real>>)
    requires WellFormed(s) && DiagonalOk(s.mass) && Fits(solve, 3 * s.storyCount) && step < |s.wave.time|
    requires rx == RealEigen.Influence(s.storyCount, X) && ry == RealEigen.Influence(s.storyCount, Y)
    requires x == StateAt(s, solve, if step == 0 then 0 else step - 1)
    requires records == RecordsUpTo(s, solve, step)
    ensures next == StateAt(s, solve, step) && pushed == RecordsUpTo(s, solve, step + 1)
  {
    var row;
    next, row := IntegrationStep(s, solve, x, rx, ry, step);
    RecordsUpToNext(s, solve, step);
    pushed := records + [row];
  }

  /** One pass of the integration loop: the state of this step and its record. */
  method IntegrationStep(s: Integration, solve: Solver, x: Kinematics, rx: seq<real>, ry: seq<real>, step: nat)
    returns (next: Kinematics, row: seq<real>)
    requires WellFormed(s) && DiagonalOk(s.mass) && Fits(solve, 3 * s.storyCount) && step < |s.wave.time|
    requires rx == RealEigen.Influence(s.storyCount, X) && ry == RealEigen.Influence(s.storyCount, Y)
    requires x == StateAt(s, solve, if step == 0 then 0 else step - 1)
    ensures next == StateAt(s, solve, step) && row == Record(s, solve, step)
  {
    var time := s.wave.time[step];
    var p := ComputeLoadVector(s.mass, rx, ry, s.wave.accX[step], s.wave.accY[step]);
    next := x;
    if step > 0 {
      next := NewmarkStep(s, solve, x, p);
    }
    var absoluteAcc := AbsoluteAcceleration(next.acc, s.storyCount, s.wave.accX[step], s.wave.accY[step]);
    row := BuildRecordRow(time, s.storyCount, next.u, absoluteAcc);
  }
}
