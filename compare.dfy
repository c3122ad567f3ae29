/*
 * src/core/compare.ts: comparing two result files number by number.
 *
 * Two lists of equal length are compared position by position; a position is
 * reported when both its absolute difference exceeds `atol` and its relative
 * difference exceeds `rtol`. Lists of different lengths give a single length
 * issue. The texts are compared after parsing, so the comparisons here take
 * the parsed files; `show` is the number-to-text conversion of the messages.
 */
module Compare {
  import opened Results
  import opened Numbers
  import opened Strings
  import opened Building

  datatype CompareType = ModalType | ComplexType | RespType

  datatype Tolerance = Tolerance(rtol: real, atol: real)

  const DefaultTolerance := Tolerance(0.01, 0.000001)

  datatype IssueKind = LengthMismatch | ValueMismatch

  datatype Issue = Issue(
    kind: IssueKind,
    metric: string,
    index: Option<nat>,
    reference: Option<real>,
    target: Option<real>,
    abs: Option<real>,
    rel: Option<real>,
    message: string)

  datatype CompareResult = CompareResult(kind: CompareType, tolerance: Tolerance, issues: seq<Issue>)

  /** The scale of a relative difference: the larger magnitude, at least 1e-12. */
  function Scale(a: real, b: real): (r: real)
    ensures r >= Abs(a) && r >= Abs(b) && r >= 0.000000000001
    ensures r == Abs(a) || r == Abs(b) || r == 0.000000000001
  {
    Max(Max(Abs(a), Abs(b)), 0.000000000001)
  }

  /** `relDiff`. */
  function RelDiff(a: real, b: real): (r: real)
    ensures r >= 0.0
    ensures r == 0.0 <==> a == b
    ensures r * Scale(a, b) == Abs(a - b)
  {
    Abs(a - b) / Scale(a, b)
  }

  /** The relative difference does not depend on the order of its arguments and is at most 2. */
  lemma RelDiffSymmetricBounded(a: real, b: real)
    ensures RelDiff(a, b) == RelDiff(b, a)
    ensures RelDiff(a, b) <= 2.0
  {
    assert Abs(a - b) == Abs(b - a);
    assert Scale(a, b) == Scale(b, a);
    var s := Scale(a, b);
    assert Abs(a - b) <= 2.0 * s;
    QuotientAtMost(Abs(a - b), 2.0, s);
  }

  lemma QuotientAtMost(x: real, c: real, s: real)
    requires s > 0.0 && x <= c * s
    ensures x / s <= c
  {
    assert (c - x / s) * s == c * s - x;
  }

  /** A position is reported when it is off by more than both tolerances. */
  predicate Exceeds(a: real, b: real, tol: Tolerance)
  {
    Abs(a - b) > tol.atol && RelDiff(a, b) > tol.rtol
  }

  function LengthIssue(metric: string, n: nat, m: nat): Issue
  {
    Issue(LengthMismatch, metric, None, None, None, None, None,
          metric + ": length mismatch " + NatToString(n) + " != " + NatToString(m))
  }

  function ValueIssue(metric: string, i: nat, a: real, b: real, show: NumberFormatter): Issue
  {
    var abs := Abs(a - b);
    var rel := RelDiff(a, b);
    Issue(ValueMismatch, metric, Some(i), Some(a), Some(b), Some(abs), Some(rel),
          metric + "[" + NatToString(i) + "] mismatch ref=" + show(a) + " target=" + show(b)
          + " abs=" + show(abs) + " rel=" + show(rel))
  }

  /** Issue `issue` reports a position below `n` that exceeds the tolerances. */
  predicate ReportsMismatch(metric: string, reference: seq<real>, target: seq<real>, tol: Tolerance,
                            show: NumberFormatter, n: nat, issue: Issue)
    requires |reference| == |target| && n <= |reference|
  {
    issue.index.Some? && issue.index.value < n
    && Exceeds(reference[issue.index.value], target[issue.index.value], tol)
    && issue == ValueIssue(metric, issue.index.value, reference[issue.index.value], target[issue.index.value], show)
  }

  /** Position `i` is the position of one of the issues. */
  predicate Reported(issues: seq<Issue>, i: nat)
  {
    exists j :: 0 <= j < |issues| && issues[j].index == Some(i)
  }

  /** The value issues of the first `n` positions of two lists of equal length. */
  function ValueIssuesUpTo(metric: string, reference: seq<real>, target: seq<real>, tol: Tolerance,
                           show: NumberFormatter, n: nat): seq<Issue>
    requires |reference| == |target| && n <= |reference|
  {
    if n == 0 then []
    else
      var before := ValueIssuesUpTo(metric, reference, target, tol, show, n - 1);
      if Exceeds(reference[n - 1], target[n - 1], tol)
      then before + [ValueIssue(metric, n - 1, reference[n - 1], target[n - 1], show)]
      else before
  }

  /** Every value issue of the first `n` positions reports a position below `n` that exceeds the tolerances. */
  lemma {:induction false} ValueIssuesSound(metric: string, reference: seq<real>, target: seq<real>, tol: Tolerance,
                                            show: NumberFormatter, n: nat)
    requires |reference| == |target| && n <= |reference|
    ensures var r := ValueIssuesUpTo(metric, reference, target, tol, show, n);
      |r| <= n && forall j :: 0 <= j < |r| ==> ReportsMismatch(metric, reference, target, tol, show, n, r[j])
    decreases n
  {
    if n > 0 {
      ValueIssuesSound(metric, reference, target, tol, show, n - 1);
      var before := ValueIssuesUpTo(metric, reference, target, tol, show, n - 1);
      assert forall j :: 0 <= j < |before| ==> ReportsMismatch(metric, reference, target, tol, show, n, before[j]);
    }
  }

  /** The value issues of the first `n` positions come in increasing order of position. */
  lemma {:induction false} ValueIssuesOrdered(metric: string, reference: seq<real>, target: seq<real>, tol: Tolerance,
                                              show: NumberFormatter, n: nat)
    requires |reference| == |target| && n <= |reference|
    ensures var r := ValueIssuesUpTo(metric, reference, target, tol, show, n);
      forall j, k :: 0 <= j < k < |r| ==> r[j].index.Some? && r[k].index.Some? && r[j].index.value < r[k].index.value
    decreases n
  {
    if n > 0 {
      ValueIssuesOrdered(metric, reference, target, tol, show, n - 1);
      ValueIssuesSound(metric, reference, target, tol, show, n - 1);
    }
  }

  /** Every position below `n` that exceeds the tolerances has a value issue. */
  lemma {:induction false} ValueIssuesComplete(metric: string, reference: seq<real>, target: seq<real>, tol: Tolerance,
                                               show: NumberFormatter, n: nat)
    requires |reference| == |target| && n <= |reference|
    ensures var r := ValueIssuesUpTo(metric, reference, target, tol, show, n);
      forall i :: 0 <= i < n && Exceeds(reference[i], target[i], tol) ==> Reported(r, i)
    decreases n
  {
    if n > 0 {
      ValueIssuesComplete(metric, reference, target, tol, show, n - 1);
      var before := ValueIssuesUpTo(metric, reference, target, tol, show, n - 1);
      var r := ValueIssuesUpTo(metric, reference, target, tol, show, n);
      if Exceeds(reference[n - 1], target[n - 1], tol) {
        assert r == before + [ValueIssue(metric, n - 1, reference[n - 1], target[n - 1], show)];
        assert Reported(r, n - 1) by { assert r[|before|].index == Some(n - 1); }
        forall i | 0 <= i < n - 1 && Reported(before, i)
          ensures Reported(r, i)
        {
          var j :| 0 <= j < |before| && before[j].index == Some(i);
          assert r[j] == before[j];
        }
      }
    }
  }

  /** Without a position that exceeds the tolerances there is no issue. */
  lemma {:induction false} NothingExceedsNoIssues(metric: string, reference: seq<real>, target: seq<real>, tol: Tolerance,
                                                  show: NumberFormatter, n: nat)
    requires |reference| == |target| && n <= |reference|
    requires forall i :: 0 <= i < n ==> !Exceeds(reference[i], target[i], tol)
    ensures ValueIssuesUpTo(metric, reference, target, tol, show, n) == []
    decreases n
  {
    if n > 0 {
      NothingExceedsNoIssues(metric, reference, target, tol, show, n - 1);
    }
  }

  /** The issues `compareNumberArrays` reports. */
  function NumberIssues(metric: string, reference: seq<real>, target: seq<real>, tol: Tolerance,
                        show: NumberFormatter): seq<Issue>
  {
    if |reference| != |target| then [LengthIssue(metric, |reference|, |target|)]
    else ValueIssuesUpTo(metric, reference, target, tol, show, |reference|)
  }

  /** `compareNumberArrays`: one pass over the positions, pushing an issue per mismatch. */
  method CompareNumberArrays(metric: string, reference: seq<real>, target: seq<real>, tol: Tolerance,
                             show: NumberFormatter) returns (issues: seq<Issue>)
    ensures issues == NumberIssues(metric, reference, target, tol, show)
  {
    if |reference| != |target| {
      return [LengthIssue(metric, |reference|, |target|)];
    }
    issues := [];
    for i := 0 to |reference|
      invariant issues == ValueIssuesUpTo(metric, reference, target, tol, show, i)
    {
      var abs := Abs(reference[i] - target[i]);
      var rel := RelDiff(reference[i], target[i]);
      if abs > tol.atol && rel > tol.rtol {
        issues := issues + [ValueIssue(metric, i, reference[i], target[i], show)];
      }
    }
  }

  /** Lists of different lengths give exactly one issue, a length issue without a position. */
  lemma LengthMismatchAlone(metric: string, reference: seq<real>, target: seq<real>, tol: Tolerance, show: NumberFormatter)
    requires |reference| != |target|
    ensures var r := NumberIssues(metric, reference, target, tol, show);
      |r| == 1 && r[0].kind == LengthMismatch && r[0].metric == metric && r[0].index.None?
  {
  }

  /**
   * For lists of equal length, position `i` is reported if and only if it
   * exceeds both tolerances; every issue is a value issue of the metric at a
   * position below the length, and the positions increase.
   */
  lemma ValueIssuesExactly(metric: string, reference: seq<real>, target: seq<real>, tol: Tolerance, show: NumberFormatter)
    requires |reference| == |target|
    ensures var r := NumberIssues(metric, reference, target, tol, show);
      (forall i :: 0 <= i < |reference| ==>
         (Exceeds(reference[i], target[i], tol) <==> Reported(r, i)))
      && (forall j :: 0 <= j < |r| ==>
         r[j].kind == ValueMismatch && r[j].metric == metric && r[j].index.Some? && r[j].index.value < |reference|)
      && (forall j, k :: 0 <= j < k < |r| ==> r[j].index.value < r[k].index.value)
  {
    var r := NumberIssues(metric, reference, target, tol, show);
    ValueIssuesSound(metric, reference, target, tol, show, |reference|);
    ValueIssuesOrdered(metric, reference, target, tol, show, |reference|);
    ValueIssuesComplete(metric, reference, target, tol, show, |reference|);
    forall i | 0 <= i < |reference| && Reported(r, i)
      ensures Exceeds(reference[i], target[i], tol)
    {
      var j :| 0 <= j < |r| && r[j].index == Some(i);
      assert ReportsMismatch(metric, reference, target, tol, show, |reference|, r[j]);
    }
  }

  /** A list compared with itself has no issues when one of the tolerances is non-negative. */
  lemma IdenticalListsAgree(metric: string, xs: seq<real>, tol: Tolerance, show: NumberFormatter)
    requires tol.atol >= 0.0 || tol.rtol >= 0.0
    ensures NumberIssues(metric, xs, xs, tol, show) == []
  {
    assert forall i :: 0 <= i < |xs| ==> !Exceeds(xs[i], xs[i], tol);
    NothingExceedsNoIssues(metric, xs, xs, tol, show, |xs|);
  }

  /** [1, 2] against [1, 2.5] at rtol 0.01 gives one value issue, at position 1. */
  lemma OneValueMismatch(show: NumberFormatter)
    ensures var r := NumberIssues("demo.metric", [1.0, 2.0], [1.0, 2.5], Tolerance(0.01, 0.000001), show);
      |r| == 1 && r[0].kind == ValueMismatch && r[0].metric == "demo.metric" && r[0].index == Some(1)
  {
    var tol := Tolerance(0.01, 0.000001);
    assert !Exceeds(1.0, 1.0, tol);
    assert Scale(2.0, 2.5) == 2.5;
    assert RelDiff(2.0, 2.5) == 0.2;
    assert Exceeds(2.0, 2.5, tol);
    assert ValueIssuesUpTo("demo.metric", [1.0, 2.0], [1.0, 2.5], tol, show, 1) == [];
  }

  /** [10] against [10.000001] at rtol and atol 0.001 gives no issue. */
  lemma WithinTolerance(show: NumberFormatter)
    ensures NumberIssues("demo.metric", [10.0], [10.000001], Tolerance(0.001, 0.001), show) == []
  {
    assert Abs(10.0 - 10.000001) == 0.000001;
    assert !Exceeds(10.0, 10.000001, Tolerance(0.001, 0.001));
    assert ValueIssuesUpTo("demo.metric", [10.0], [10.000001], Tolerance(0.001, 0.001), show, 0) == [];
  }

  /** The tolerance of `compareByType`: each missing part falls back to its default. */
  function ResolveTolerance(rtol: Option<real>, atol: Option<real>): (r: Tolerance)
    ensures r.rtol == (if rtol.Some? then rtol.value else 0.01)
    ensures r.atol == (if atol.Some? then atol.value else 0.000001)
  {
    Tolerance(if rtol.Some? then rtol.value else DefaultTolerance.rtol,
              if atol.Some? then atol.value else DefaultTolerance.atol)
  }

  /** `compareModal`: frequencies, then the X and Y participation factors. */
  function CompareModal(reference: ModalResult, target: ModalResult, tol: Tolerance, show: NumberFormatter): seq<Issue>
  {
    NumberIssues("frequenciesHz", reference.frequenciesHz, target.frequenciesHz, tol, show)
    + NumberIssues("participationFactorX", reference.participationFactorX, target.participationFactorX, tol, show)
    + NumberIssues("participationFactorY", reference.participationFactorY, target.participationFactorY, tol, show)
  }

  function Frequencies(modes: seq<ComplexMode>): (r: seq<real>)
    ensures |r| == |modes| && forall k :: 0 <= k < |modes| ==> r[k] == modes[k].frequencyHz
  {
    seq(|modes|, k requires 0 <= k < |modes| => modes[k].frequencyHz)
  }

  function DampingRatios(modes: seq<ComplexMode>): (r: seq<real>)
    ensures |r| == |modes| && forall k :: 0 <= k < |modes| ==> r[k] == modes[k].dampingRatioPercent
  {
    seq(|modes|, k requires 0 <= k < |modes| => modes[k].dampingRatioPercent)
  }

  /** `compareComplex`: the mode frequencies, then the damping ratios. */
  function CompareComplex(reference: ComplexModalFile, target: ComplexModalFile, tol: Tolerance, show: NumberFormatter): seq<Issue>
  {
    NumberIssues("complex.frequenciesHz", Frequencies(reference.modes), Frequencies(target.modes), tol, show)
    + NumberIssues("complex.dampingRatio", DampingRatios(reference.modes), DampingRatios(target.modes), tol, show)
  }

  /** The first number of every record; a parsed record always has one. */
  function TimeColumn(records: seq<seq<real>>): (r: seq<real>)
    requires forall k :: 0 <= k < |records| ==> |records[k]| > 0
    ensures |r| == |records| && forall k :: 0 <= k < |records| ==> r[k] == records[k][0]
  {
    seq(|records|, k requires 0 <= k < |records| => records[k][0])
  }

  /** `compareResp`: the column maxima, then the time column. */
  function CompareResp(reference: RespFile, target: RespFile, tol: Tolerance, show: NumberFormatter): seq<Issue>
    requires forall k :: 0 <= k < |reference.records| ==> |reference.records[k]| > 0
    requires forall k :: 0 <= k < |target.records| ==> |target.records[k]| > 0
  {
    NumberIssues("resp.columnMaxAbs", reference.columnMaxAbs, target.columnMaxAbs, tol, show)
    + NumberIssues("resp.timeColumn", TimeColumn(reference.records), TimeColumn(target.records), tol, show)
  }

  /** Two parsed files of the same kind. */
  datatype ParsedPair =
    | ModalPair(modalRef: ModalDatFile, modalTarget: ModalDatFile)
    | ComplexPair(complexRef: ComplexModalFile, complexTarget: ComplexModalFile)
    | RespPair(respRef: RespFile, respTarget: RespFile)

  predicate RecordsHaveTime(p: ParsedPair)
  {
    p.RespPair? ==>
      (forall k :: 0 <= k < |p.respRef.records| ==> |p.respRef.records[k]| > 0)
      && (forall k :: 0 <= k < |p.respTarget.records| ==> |p.respTarget.records[k]| > 0)
  }

  function KindOf(p: ParsedPair): CompareType
  {
    match p
    case ModalPair(_, _) => ModalType
    case ComplexPair(_, _) => ComplexType
    case RespPair(_, _) => RespType
  }

  /** `compareByType` on the parsed files. */
  function CompareByType(p: ParsedPair, rtol: Option<real>, atol: Option<real>, show: NumberFormatter): (r: CompareResult)
    requires RecordsHaveTime(p)
    ensures r.kind == KindOf(p) && r.tolerance == ResolveTolerance(rtol, atol)
  {
    var tol := ResolveTolerance(rtol, atol);
    var issues := match p
      case ModalPair(a, b) => CompareModal(a.modal, b.modal, tol, show)
      case ComplexPair(a, b) => CompareComplex(a, b, tol, show)
      case RespPair(a, b) => CompareResp(a, b, tol, show);
    CompareResult(KindOf(p), tol, issues)
  }

  /** A parsed file compared with itself at the default tolerances has no issues. */
  lemma SelfComparisonClean(p: ParsedPair, show: NumberFormatter)
    requires RecordsHaveTime(p)
    requires match p
      case ModalPair(a, b) => a == b
      case ComplexPair(a, b) => a == b
      case RespPair(a, b) => a == b
    ensures CompareByType(p, None, None, show).issues == []
  {
    var tol := ResolveTolerance(None, None);
    match p
    case ModalPair(a, _) =>
      IdenticalListsAgree("frequenciesHz", a.modal.frequenciesHz, tol, show);
      IdenticalListsAgree("participationFactorX", a.modal.participationFactorX, tol, show);
      IdenticalListsAgree("participationFactorY", a.modal.participationFactorY, tol, show);
    case ComplexPair(a, _) =>
      IdenticalListsAgree("complex.frequenciesHz", Frequencies(a.modes), tol, show);
      IdenticalListsAgree("complex.dampingRatio", DampingRatios(a.modes), tol, show);
    case RespPair(a, _) =>
      IdenticalListsAgree("resp.columnMaxAbs", a.columnMaxAbs, tol, show);
      IdenticalListsAgree("resp.timeColumn", TimeColumn(a.records), tol, show);
  }
}
