/*
 * The decision rules of scripts/accuracy-check.ts: a number metric compares
 * two lists by their largest relative difference, a label metric compares two
 * lists of labels position by position, a case fails when one of its metrics
 * fails, and the summary counts the cases. `exp3` stands for
 * `toExponential(3)` in the notes.
 */
module AccuracyCheck {
  import opened Results
  import opened Numbers
  import opened Strings
  import Compare

  datatype MetricStatus = Pass | Fail | Skip

  datatype CaseStatus = CasePass | CaseFail

  datatype CaseType = Analysis | Roundtrip

  datatype MetricReport = MetricReport(
    name: string,
    thresholdRel: Option<real>,
    status: MetricStatus,
    maxRel: Option<real>,
    maxAbs: Option<real>,
    referenceCount: nat,
    targetCount: nat,
    comparedCount: nat,
    note: string)

  datatype CaseReport = CaseReport(
    id: string,
    title: string,
    kind: CaseType,
    referencePath: string,
    targetPath: string,
    status: CaseStatus,
    metrics: seq<MetricReport>,
    notes: seq<string>)

  datatype Summary = Summary(totalCases: nat, passCases: nat, failCases: nat, overall: CaseStatus)

  // ---- number metrics ----------------------------------------------------------------

  /** The largest relative difference among the first `n` positions, 0 when there are none. */
  function MaxRelUpTo(reference: seq<real>, target: seq<real>, n: nat): (r: real)
    requires n <= |reference| && n <= |target|
    ensures r >= 0.0
    ensures forall i :: 0 <= i < n ==> Compare.RelDiff(reference[i], target[i]) <= r
    ensures r == 0.0 || exists i :: 0 <= i < n && r == Compare.RelDiff(reference[i], target[i])
  {
    if n == 0 then 0.0
    else Max(MaxRelUpTo(reference, target, n - 1), Compare.RelDiff(reference[n - 1], target[n - 1]))
  }

  /** The largest absolute difference among the first `n` positions, 0 when there are none. */
  function MaxAbsUpTo(reference: seq<real>, target: seq<real>, n: nat): (r: real)
    requires n <= |reference| && n <= |target|
    ensures r >= 0.0
    ensures forall i :: 0 <= i < n ==> Abs(reference[i] - target[i]) <= r
    ensures r == 0.0 || exists i :: 0 <= i < n && r == Abs(reference[i] - target[i])
  {
    if n == 0 then 0.0
    else Max(MaxAbsUpTo(reference, target, n - 1), Abs(reference[n - 1] - target[n - 1]))
  }

  function LengthNote(n: nat, m: nat): string
  {
    "長さ不一致 ref=" + NatToString(n) + ", target=" + NatToString(m)
  }

  /** The notes joined by " / ", or the fallback when there are none. */
  function NoteText(notes: seq<string>, fallback: string): string
  {
    Join(if notes == [] then [fallback] else notes, " / ")
  }

  /** The report of `numberMetric`; `requireSameLength` defaults to true. */
  function NumberMetricOf(name: string, reference: seq<real>, target: seq<real>, thresholdRel: real,
                          requireSameLength: Option<bool>, exp3: NumberFormatter): MetricReport
  {
    var requireSame := if requireSameLength.Some? then requireSameLength.value else true;
    var minLength := Min(|reference|, |target|);
    if |reference| == 0 && |target| == 0 then
      MetricReport(name, Some(thresholdRel), Skip, None, None, 0, 0, 0, "比較対象データなし")
    else if minLength == 0 then
      MetricReport(name, Some(thresholdRel), Fail, None, None, |reference|, |target|, 0, "片側データのみ存在")
    else
      var maxRel := MaxRelUpTo(reference, target, minLength);
      var maxAbs := MaxAbsUpTo(reference, target, minLength);
      var sameLength := |reference| == |target|;
      var lengthOk := if requireSame then sameLength else true;
      var notes := (if !sameLength then [LengthNote(|reference|, |target|)] else [])
        + (if maxRel > thresholdRel then ["最大相対誤差 " + exp3(maxRel) + " > " + exp3(thresholdRel)] else []);
      MetricReport(name, Some(thresholdRel), if lengthOk && maxRel <= thresholdRel then Pass else Fail,
                   Some(maxRel), Some(maxAbs), |reference|, |target|, minLength,
                   NoteText(notes, "許容範囲内"))
  }

  /** `numberMetric`: one pass over the common positions keeping the two maxima. */
  method NumberMetric(name: string, reference: seq<real>, target: seq<real>, thresholdRel: real,
                      requireSameLength: Option<bool>, exp3: NumberFormatter) returns (r: MetricReport)
    ensures r == NumberMetricOf(name, reference, target, thresholdRel, requireSameLength, exp3)
  {
    var requireSame := if requireSameLength.Some? then requireSameLength.value else true;
    var minLength := Min(|reference|, |target|);
    if |reference| == 0 && |target| == 0 {
      return MetricReport(name, Some(thresholdRel), Skip, None, None, 0, 0, 0, "比較対象データなし");
    }
    if minLength == 0 {
      return MetricReport(name, Some(thresholdRel), Fail, None, None, |reference|, |target|, 0, "片側データのみ存在");
    }
    var maxRel, maxAbs := Maxima(reference, target, minLength);
    var sameLength := |reference| == |target|;
    var lengthOk := if requireSame then sameLength else true;
    var pass := lengthOk && maxRel <= thresholdRel;
    var notes: seq<string> := [];
    if !sameLength {
      notes := notes + [LengthNote(|reference|, |target|)];
    }
    if maxRel > thresholdRel {
      notes := notes + ["最大相対誤差 " + exp3(maxRel) + " > " + exp3(thresholdRel)];
    }
    r := MetricReport(name, Some(thresholdRel), if pass then Pass else Fail, Some(maxRel), Some(maxAbs),
                      |reference|, |target|, minLength, NoteText(notes, "許容範囲内"));
  }

  /** The loop of `numberMetric`: the largest relative and absolute differences over the first `n` positions. */
  method Maxima(reference: seq<real>, target: seq<real>, n: nat) returns (maxRel: real, maxAbs: real)
    requires n <= |reference| && n <= |target|
    ensures maxRel == MaxRelUpTo(reference, target, n)
    ensures maxAbs == MaxAbsUpTo(reference, target, n)
  {
    maxRel, maxAbs := 0.0, 0.0;
    for i := 0 to n
      invariant maxRel == MaxRelUpTo(reference, target, i)
      invariant maxAbs == MaxAbsUpTo(reference, target, i)
    {
      var abs := Abs(reference[i] - target[i]);
      var rel := Compare.RelDiff(reference[i], target[i]);
      assert MaxAbsUpTo(reference, target, i + 1) == Max(MaxAbsUpTo(reference, target, i), abs);
      assert MaxRelUpTo(reference, target, i + 1) == Max(MaxRelUpTo(reference, target, i), rel);
      if abs > maxAbs { maxAbs := abs; }
      if rel > maxRel { maxRel := rel; }
    }
  }

  /**
   * The status of a number metric: SKIP exactly when both lists are empty,
   * FAIL when only one is, and otherwise PASS exactly when the lengths agree
   * (or need not) and the largest relative difference over the common
   * positions is within the threshold. The compared count is the shorter length.
   */
  lemma NumberMetricStatus(name: string, reference: seq<real>, target: seq<real>, thresholdRel: real,
                           requireSameLength: Option<bool>, exp3: NumberFormatter)
    ensures var r := NumberMetricOf(name, reference, target, thresholdRel, requireSameLength, exp3);
      var minLength := Min(|reference|, |target|);
      (r.status == Skip <==> |reference| == 0 && |target| == 0)
      && (minLength == 0 && (|reference| > 0 || |target| > 0) ==> r.status == Fail && r.maxRel.None?)
      && r.comparedCount == minLength
      && (r.status == Pass <==>
            minLength > 0
            && (|reference| == |target| || requireSameLength == Some(false))
            && forall i :: 0 <= i < minLength ==> Compare.RelDiff(reference[i], target[i]) <= thresholdRel)
      && (minLength > 0 ==> r.maxRel == Some(MaxRelUpTo(reference, target, minLength))
                            && r.maxAbs == Some(MaxAbsUpTo(reference, target, minLength)))
  {
    var minLength := Min(|reference|, |target|);
    if minLength > 0 {
      var m := MaxRelUpTo(reference, target, minLength);
      if m > thresholdRel {
        var i :| 0 <= i < minLength && m == Compare.RelDiff(reference[i], target[i]);
      }
    }
  }

  // ---- label metrics -----------------------------------------------------------------

  /** The positions below `n` where two label lists differ, in increasing order. */
  function MismatchesUpTo(reference: seq<string>, target: seq<string>, n: nat): seq<nat>
    requires n <= |reference| && n <= |target|
  {
    if n == 0 then []
    else MismatchesUpTo(reference, target, n - 1) + (if reference[n - 1] != target[n - 1] then [n - 1] else [])
  }

  /** The positions where two label lists differ, below the shorter length. */
  function Mismatches(reference: seq<string>, target: seq<string>): seq<nat>
  {
    MismatchesUpTo(reference, target, Min(|reference|, |target|))
  }

  /** The mismatch list holds each differing position below `n` once, in increasing order. */
  lemma {:induction false} MismatchesExactly(reference: seq<string>, target: seq<string>, n: nat)
    requires n <= |reference| && n <= |target|
    ensures var r := MismatchesUpTo(reference, target, n);
      (forall i: nat :: i in r <==> i < n && reference[i] != target[i])
      && (forall k :: 0 <= k < |r| ==> r[k] < n)
      && (forall j, k :: 0 <= j < k < |r| ==> r[j] < r[k])
  {
    if n > 0 {
      MismatchesExactly(reference, target, n - 1);
    }
  }

  function IndexList(xs: seq<nat>): (r: seq<string>)
    ensures |r| == |xs| && forall k :: 0 <= k < |xs| ==> r[k] == NatToString(xs[k])
  {
    seq(|xs|, k requires 0 <= k < |xs| => NatToString(xs[k]))
  }

  function MismatchNote(mismatches: seq<nat>): string
  {
    "ラベル不一致 index=" + Join(IndexList(mismatches[..Min(5, |mismatches|)]), ",")
  }

  /** The report of `labelMetric`; its note names at most the first five mismatches. */
  function LabelMetricOf(name: string, reference: seq<string>, target: seq<string>): MetricReport
  {
    var mismatches := Mismatches(reference, target);
    var sameLength := |reference| == |target|;
    var notes := (if !sameLength then [LengthNote(|reference|, |target|)] else [])
      + (if |mismatches| > 0 then [MismatchNote(mismatches)] else []);
    MetricReport(name, None, if sameLength && |mismatches| == 0 then Pass else Fail, None, None,
                 |reference|, |target|, Min(|reference|, |target|), NoteText(notes, "一致"))
  }

  /** `labelMetric`: one pass over the common positions collecting the mismatches. */
  method LabelMetric(name: string, reference: seq<string>, target: seq<string>) returns (r: MetricReport)
    ensures r == LabelMetricOf(name, reference, target)
  {
    var minLength := Min(|reference|, |target|);
    var mismatches: seq<nat> := [];
    for i := 0 to minLength
      invariant mismatches == MismatchesUpTo(reference, target, i)
    {
      if reference[i] != target[i] {
        mismatches := mismatches + [i];
      }
    }
    var sameLength := |reference| == |target|;
    var notes: seq<string> := [];
    if !sameLength {
      notes := notes + [LengthNote(|reference|, |target|)];
    }
    if |mismatches| > 0 {
      notes := notes + [MismatchNote(mismatches)];
    }
    r := MetricReport(name, None, if sameLength && |mismatches| == 0 then Pass else Fail, None, None,
                      |reference|, |target|, minLength, NoteText(notes, "一致"));
  }

  /** A label metric passes exactly when the two label lists are equal; it never skips. */
  lemma LabelMetricPassesIffEqual(name: string, reference: seq<string>, target: seq<string>)
    ensures LabelMetricOf(name, reference, target).status == Pass <==> reference == target
    ensures LabelMetricOf(name, reference, target).status != Skip
  {
    var n := Min(|reference|, |target|);
    MismatchesExactly(reference, target, n);
    var r := Mismatches(reference, target);
    if |reference| == |target| && r == [] {
      forall i | 0 <= i < |reference|
        ensures reference[i] == target[i]
      {
        assert i !in r;
      }
    }
    if r != [] {
      assert r[0] in r;
      assert reference[r[0]] != target[r[0]];
    }
  }

  // ---- cases ---------------------------------------------------------------------------

  /** `decideCaseStatus`: a case fails exactly when one of its metrics fails. */
  function DecideCaseStatus(metrics: seq<MetricReport>): (r: CaseStatus)
    ensures r == CaseFail <==> exists k :: 0 <= k < |metrics| && metrics[k].status == Fail
  {
    if |metrics| == 0 then CasePass
    else if metrics[0].status == Fail then CaseFail
    else
      var rest := DecideCaseStatus(metrics[1..]);
      assert forall k :: 1 <= k < |metrics| ==> metrics[k] == metrics[1..][k - 1];
      rest
  }

  /** A skipped or passed metric does not change the status of a case. */
  lemma SkipNeverFails(metrics: seq<MetricReport>, m: MetricReport)
    requires m.status != Fail
    ensures DecideCaseStatus(metrics + [m]) == DecideCaseStatus(metrics)
  {
    var all := metrics + [m];
    if DecideCaseStatus(all) == CaseFail {
      var k :| 0 <= k < |all| && all[k].status == Fail;
      assert k < |metrics| && metrics[k].status == Fail;
    }
    if DecideCaseStatus(metrics) == CaseFail {
      var k :| 0 <= k < |metrics| && metrics[k].status == Fail;
      assert all[k] == metrics[k];
    }
  }

  function CountStatus(cases: seq<CaseReport>, s: CaseStatus): (r: nat)
    ensures r <= |cases|
  {
    if |cases| == 0 then 0 else CountStatus(cases[..|cases| - 1], s) + (if cases[|cases| - 1].status == s then 1 else 0)
  }

  /** `summarizeCases`. */
  function SummarizeCases(cases: seq<CaseReport>): Summary
  {
    var passCases := CountStatus(cases, CasePass);
    var failCases := CountStatus(cases, CaseFail);
    Summary(|cases|, passCases, failCases, if failCases == 0 then CasePass else CaseFail)
  }

  /** Every case passes or fails: the two counts add up to the total. */
  lemma {:induction false} CountsAddUp(cases: seq<CaseReport>)
    ensures CountStatus(cases, CasePass) + CountStatus(cases, CaseFail) == |cases|
  {
    if |cases| > 0 {
      CountsAddUp(cases[..|cases| - 1]);
    }
  }

  /** No failing case leaves the failure count at zero. */
  lemma {:induction false} NoFailNoCount(cases: seq<CaseReport>)
    ensures CountStatus(cases, CaseFail) == 0 <==> forall k :: 0 <= k < |cases| ==> cases[k].status == CasePass
  {
    if |cases| > 0 {
      var init := cases[..|cases| - 1];
      NoFailNoCount(init);
      assert forall k :: 0 <= k < |init| ==> init[k] == cases[k];
    }
  }

  /** The summary: pass and fail counts add up to the total, and the run passes exactly when every case does. */
  lemma SummaryConsistent(cases: seq<CaseReport>)
    ensures var s := SummarizeCases(cases);
      s.totalCases == |cases| && s.passCases + s.failCases == s.totalCases
      && (s.overall == CasePass <==> forall k :: 0 <= k < |cases| ==> cases[k].status == CasePass)
  {
    CountsAddUp(cases);
    NoFailNoCount(cases);
  }

  // ---- columns -------------------------------------------------------------------------

  /** A header starts with one of the prefixes. */
  predicate HasSomePrefix(header: string, prefixes: seq<string>)
  {
    exists k :: 0 <= k < |prefixes| && StartsWith(header, prefixes[k])
  }

  /** The positions below `n` whose header starts with one of the prefixes, in increasing order. */
  function PickedUpTo(headers: seq<string>, prefixes: seq<string>, n: nat): seq<nat>
    requires n <= |headers|
  {
    if n == 0 then []
    else PickedUpTo(headers, prefixes, n - 1) + (if HasSomePrefix(headers[n - 1], prefixes) then [n - 1] else [])
  }

  /** `pickIndices`: one pass over the headers. */
  method PickIndices(headers: seq<string>, prefixes: seq<string>) returns (result: seq<nat>)
    ensures result == PickedUpTo(headers, prefixes, |headers|)
  {
    result := [];
    for i := 0 to |headers|
      invariant result == PickedUpTo(headers, prefixes, i)
    {
      if HasSomePrefix(headers[i], prefixes) {
        result := result + [i];
      }
    }
  }

  /** The picked positions are exactly the headers below `n` that start with a prefix, in increasing order. */
  lemma {:induction false} PickedExactly(headers: seq<string>, prefixes: seq<string>, n: nat)
    requires n <= |headers|
    ensures var r := PickedUpTo(headers, prefixes, n);
      (forall i: nat :: i in r <==> i < n && HasSomePrefix(headers[i], prefixes))
      && (forall k :: 0 <= k < |r| ==> r[k] < n)
      && (forall j, k :: 0 <= j < k < |r| ==> r[j] < r[k])
  {
    if n > 0 {
      PickedExactly(headers, prefixes, n - 1);
    }
  }
}
