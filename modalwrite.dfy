/*
 * The writer of src/io/modal.ts: `formatModeHeader` and the line layout of
 * `serializeModalDat`. `formatNumber` is the parameter `fmt`, and the plain
 * number-to-text conversion used for the story and the mass-centre layers is
 * the parameter `show`. Each method pushes lines in the order of `serializeModalDat` in src/io/modal.ts
 * and is proved to produce the lines its specification function lists.
 */
module ModalWrite {
  import opened Results
  import opened Numbers
  import opened Strings
  import opened Building

  /** The cells of the mode header: an empty cell, then "1次" to "n次". */
  function ModeLabels(n: nat): (r: seq<string>)
    ensures |r| == n + 1 && r[0] == ""
    ensures forall k :: 1 <= k <= n ==> r[k] == NatToString(k) + "次"
  {
    [""] + seq(n, k requires 0 <= k < n => NatToString(k + 1) + "次")
  }

  /** `formatModeHeader`. */
  method FormatModeHeader(n: nat) returns (r: string)
    ensures r == Join(ModeLabels(n), ",")
  {
    var labels := [""];
    for i := 0 to n
      invariant labels == ModeLabels(i)
    {
      assert ModeLabels(i + 1) == ModeLabels(i) + [NatToString(i + 1) + "次"];
      labels := labels + [NatToString(i + 1) + "次"];
    }
    r := Join(labels, ",");
  }

  /** The header splits back into its cells: an empty one, then one per mode. */
  lemma HeaderCells(n: nat)
    ensures Split(Join(ModeLabels(n), ","), ',') == ModeLabels(n)
  {
    var labels := ModeLabels(n);
    forall k | 0 <= k < |labels|
      ensures ',' !in labels[k]
    {
      if k > 0 {
        var digits := NatToString(k);
        assert labels[k] == digits + "次";
        assert forall j :: 0 <= j < |labels[k]| ==> labels[k][j] != ',' by {
          forall j | 0 <= j < |labels[k]|
            ensures labels[k][j] != ','
          {
            if j < |digits| {
              assert labels[k][j] == digits[j];
            } else {
              assert labels[k][j] == '次';
            }
          }
        }
      }
    }
    SplitJoin(labels, ',');
  }

  /** One formatted cell per number. */
  function Cells(xs: seq<real>, fmt: NumberFormatter): (r: seq<string>)
    ensures |r| == |xs|
    ensures forall k :: 0 <= k < |xs| ==> r[k] == fmt(xs[k])
  {
    seq(|xs|, k requires 0 <= k < |xs| => fmt(xs[k]))
  }

  /** `values.map(formatNumber).join(",")`. */
  function NumbersText(xs: seq<real>, fmt: NumberFormatter): string
  {
    Join(Cells(xs, fmt), ",")
  }

  /** The story cell: the story when there is one, else the number of mass centres. */
  function StoryText(b: BaseShapeInfo, show: NumberFormatter): string
  {
    if b.story.Some? then show(b.story.value) else NatToString(|b.massCenters|)
  }

  function CenterLine(c: MassCenter, fmt: NumberFormatter, show: NumberFormatter): string
  {
    "MC   ," + show(c.layer) + "," + fmt(c.x) + "," + fmt(c.y)
  }

  function EigenLine(row: EigenRow, fmt: NumberFormatter): string
  {
    row.rowLabel + "," + NumbersText(row.values, fmt)
  }

  function CenterLines(cs: seq<MassCenter>, fmt: NumberFormatter, show: NumberFormatter): (r: seq<string>)
    ensures |r| == |cs|
    ensures forall k :: 0 <= k < |cs| ==> r[k] == CenterLine(cs[k], fmt, show)
  {
    seq(|cs|, k requires 0 <= k < |cs| => CenterLine(cs[k], fmt, show))
  }

  function EigenLines(rows: seq<EigenRow>, fmt: NumberFormatter): (r: seq<string>)
    ensures |r| == |rows|
    ensures forall k :: 0 <= k < |rows| ==> r[k] == EigenLine(rows[k], fmt)
  {
    seq(|rows|, k requires 0 <= k < |rows| => EigenLine(rows[k], fmt))
  }

  /** The base-shape lines, up to the blank line that closes them. */
  function ShapeSection(b: BaseShapeInfo, fmt: NumberFormatter, show: NumberFormatter): seq<string>
  {
    ["#BaseShapeInfo", "Story," + StoryText(b, show), "Zlebe," + NumbersText(b.zLevel, fmt), "#MassCenter"]
    + CenterLines(b.massCenters, fmt, show) + [""]
  }

  /** The twelve lines of the modal section before its eigenvector rows. */
  function BodyHead(m: ModalResult, fmt: NumberFormatter): (r: seq<string>)
    ensures |r| == 12
  {
    var header := Join(ModeLabels(|m.frequenciesHz|), ",");
    ["〇固有振動数", header, "," + NumbersText(m.frequenciesHz, fmt),
     "刺激係数X," + NumbersText(m.participationFactorX, fmt),
     "刺激係数Y," + NumbersText(m.participationFactorY, fmt),
     "有効質量比X", NumbersText(m.effectiveMassRatioX, fmt),
     "有効質量比Y", NumbersText(m.effectiveMassRatioY, fmt),
     "", "〇固有ベクトル", header]
  }

  /** The lines between "#ModalResult" and "#End_ModalResult". */
  function ModalBody(m: ModalResult, fmt: NumberFormatter): (r: seq<string>)
    ensures |r| == 13 + |m.eigenVectors|
  {
    BodyHead(m, fmt) + EigenLines(m.eigenVectors, fmt) + [""]
  }

  /** The lines of `serializeModalDat`, in order. */
  function ModalDatLines(d: ModalDatFile, fmt: NumberFormatter, show: NumberFormatter): seq<string>
  {
    ShapeSection(d.baseShape, fmt, show) + ["#ModalResult"] + ModalBody(d.modal, fmt) + ["#End_ModalResult"]
  }

  /** The file is the base-shape lines, the start marker, the modal body and the end marker. */
  lemma SectionLayout(d: ModalDatFile, fmt: NumberFormatter, show: NumberFormatter)
    ensures var lines := ModalDatLines(d, fmt, show);
      var s := |ShapeSection(d.baseShape, fmt, show)|;
      |lines| == s + |ModalBody(d.modal, fmt)| + 2
      && lines[s] == "#ModalResult" && lines[|lines| - 1] == "#End_ModalResult"
      && lines[s + 1..|lines| - 1] == ModalBody(d.modal, fmt)
      && lines[..s] == ShapeSection(d.baseShape, fmt, show)
  {
    var lines := ModalDatLines(d, fmt, show);
    var shape := ShapeSection(d.baseShape, fmt, show);
    var body := ModalBody(d.modal, fmt);
    assert lines == shape + (["#ModalResult"] + body + ["#End_ModalResult"]);
    assert lines[|shape| + 1..|lines| - 1] == body;
  }

  /** `serializeModalDat`: the lines joined by newlines, with a final newline. */
  method SerializeModalDat(d: ModalDatFile, fmt: NumberFormatter, show: NumberFormatter) returns (text: string)
    ensures text == Join(ModalDatLines(d, fmt, show), "\n") + "\n"
  {
    var shape := WriteShapeSection(d.baseShape, fmt, show);
    var body := WriteModalBody(d.modal, fmt);
    var lines := shape + ["#ModalResult"] + body + ["#End_ModalResult"];
    text := Join(lines, "\n") + "\n";
  }

  /** The base-shape lines of `serializeModalDat`, one pushed per mass centre. */
  method WriteShapeSection(b: BaseShapeInfo, fmt: NumberFormatter, show: NumberFormatter) returns (lines: seq<string>)
    ensures lines == ShapeSection(b, fmt, show)
  {
    lines := ["#BaseShapeInfo", "Story," + StoryText(b, show), "Zlebe," + NumbersText(b.zLevel, fmt), "#MassCenter"];
    ghost var head := lines;
    for i := 0 to |b.massCenters|
      invariant lines == head + CenterLines(b.massCenters[..i], fmt, show)
    {
      assert CenterLines(b.massCenters[..i + 1], fmt, show)
        == CenterLines(b.massCenters[..i], fmt, show) + [CenterLine(b.massCenters[i], fmt, show)];
      lines := lines + [CenterLine(b.massCenters[i], fmt, show)];
    }
    assert b.massCenters[..|b.massCenters|] == b.massCenters;
    lines := lines + [""];
  }

  /** The modal lines of `serializeModalDat`, one pushed per eigenvector row. */
  method WriteModalBody(m: ModalResult, fmt: NumberFormatter) returns (lines: seq<string>)
    ensures lines == ModalBody(m, fmt)
  {
    var header := FormatModeHeader(|m.frequenciesHz|);
    lines := ["〇固有振動数", header, "," + NumbersText(m.frequenciesHz, fmt),
      "刺激係数X," + NumbersText(m.participationFactorX, fmt),
      "刺激係数Y," + NumbersText(m.participationFactorY, fmt),
      "有効質量比X", NumbersText(m.effectiveMassRatioX, fmt),
      "有効質量比Y", NumbersText(m.effectiveMassRatioY, fmt),
      "", "〇固有ベクトル", header];
    assert lines == BodyHead(m, fmt);
    for i := 0 to |m.eigenVectors|
      invariant lines == BodyHead(m, fmt) + EigenLines(m.eigenVectors[..i], fmt)
    {
      assert EigenLines(m.eigenVectors[..i + 1], fmt)
        == EigenLines(m.eigenVectors[..i], fmt) + [EigenLine(m.eigenVectors[i], fmt)];
      lines := lines + [EigenLine(m.eigenVectors[i], fmt)];
    }
    assert m.eigenVectors[..|m.eigenVectors|] == m.eigenVectors;
    lines := lines + [""];
  }
}
