/*
 * Writing a building model into the editor's form and reading the form back
 * (src/app/modelEditorState.ts, modelToEditorForm then buildModelFromEditorForm).
 *
 * Numbers go through an abstract formatter and parser that read each other
 * back. Names and memos are written as they are, so they must be texts the
 * form can hold: no comma or line break in a name, none of them padded by
 * white space. Under those conditions every valid model comes back as its
 * normalised form, and a model the form built comes back unchanged.
 */
module EditorRoundTrip {
  import opened Results
  import opened Numbers
  import opened Strings
  import opened Text
  import opened Building
  import opened ModalWrite
  import opened ModalRoundTrip
  import opened Values
  import opened EditorForm
  import Normalize
  import JsonValidator

  /** The names and memos of `m` survive the form's comma- and line-separated text. */
  predicate FormNames(m: BuildingModel)
  {
    (forall c :: c in m.wallCharaDB ==> NameCell(c.name) && MemoCell(c.memo))
    && (forall w :: w in m.walls ==> NameCell(w.name))
    && (forall d :: d in m.massDampers ==> NameCell(d.name))
  }

  /** A name the form holds is not blank, which the JSON reader demands of names. */
  lemma NameNotBlank(s: string)
    requires NameCell(s)
    ensures !IsBlank(s)
  {
    assert !IsWhitespace(s[0]);
  }

  // ---- one field at a time ----------------------------------------------------------

  lemma WCenterSection(ps: seq<Point>, fmt: NumberFormatter, parse: NumberParser)
    requires WritesNumerals(fmt) && ReadsBack(fmt, parse)
    ensures ParseEach(ToLines(Section(ps, PointWriter(fmt))), WCenterReader(parse)) == Ok(ps)
  {
    forall k | 0 <= k < |ps|
      ensures LineCell(PointWriter(fmt)(ps[k])) && WCenterReader(parse)(PointWriter(fmt)(ps[k]), k) == Ok(ps[k])
    {
      PointReadsBack(ps[k], k, fmt, parse);
    }
    SectionReadsBack(ps, PointWriter(fmt), WCenterReader(parse));
  }

  lemma FloorsSection(xs: seq<Floor>, fmt: NumberFormatter, parse: NumberParser)
    requires WritesNumerals(fmt) && ReadsBack(fmt, parse)
    requires forall f :: f in xs ==> IsInteger(f.layer) && |f.pos| >= 3
    ensures ParseEach(ToLines(Section(xs, FloorWriter(fmt))), FloorReader(parse)) == Ok(xs)
  {
    forall k | 0 <= k < |xs|
      ensures LineCell(FloorWriter(fmt)(xs[k])) && FloorReader(parse)(FloorWriter(fmt)(xs[k]), k) == Ok(xs[k])
    {
      assert xs[k] in xs;
      FloorReadsBack(xs[k], k, fmt, parse);
    }
    SectionReadsBack(xs, FloorWriter(fmt), FloorReader(parse));
  }

  lemma ColumnsSection(xs: seq<Column>, fmt: NumberFormatter, parse: NumberParser)
    requires WritesNumerals(fmt) && ReadsBack(fmt, parse)
    requires forall c :: c in xs ==> IsInteger(c.layer)
    ensures ParseEach(ToLines(Section(xs, ColumnWriter(fmt))), ColumnReader(parse)) == Ok(xs)
  {
    forall k | 0 <= k < |xs|
      ensures LineCell(ColumnWriter(fmt)(xs[k])) && ColumnReader(parse)(ColumnWriter(fmt)(xs[k]), k) == Ok(xs[k])
    {
      assert xs[k] in xs;
      ColumnReadsBack(xs[k], k, fmt, parse);
    }
    SectionReadsBack(xs, ColumnWriter(fmt), ColumnReader(parse));
  }

  lemma WallCharasSection(xs: seq<WallChara>, fmt: NumberFormatter, parse: NumberParser)
    requires WritesNumerals(fmt) && ReadsBack(fmt, parse)
    requires forall c :: c in xs ==> NameCell(c.name) && MemoCell(c.memo)
    ensures ParseEach(ToLines(Section(xs, WallCharaWriter(fmt))), WallCharaReader(parse)) == Ok(xs)
  {
    forall k | 0 <= k < |xs|
      ensures LineCell(WallCharaWriter(fmt)(xs[k])) && WallCharaReader(parse)(WallCharaWriter(fmt)(xs[k]), k) == Ok(xs[k])
    {
      assert xs[k] in xs;
      WallCharaReadsBack(xs[k], k, fmt, parse);
    }
    SectionReadsBack(xs, WallCharaWriter(fmt), WallCharaReader(parse));
  }

  lemma WallsSection(xs: seq<Wall>, fmt: NumberFormatter, parse: NumberParser)
    requires WritesNumerals(fmt) && ReadsBack(fmt, parse)
    requires forall w :: w in xs ==> IsInteger(w.layer) && NameCell(w.name)
    ensures ParseEach(ToLines(Section(xs, WallWriter(fmt))), WallReader(parse)) == Ok(xs)
  {
    forall k | 0 <= k < |xs|
      ensures LineCell(WallWriter(fmt)(xs[k])) && WallReader(parse)(WallWriter(fmt)(xs[k]), k) == Ok(xs[k])
    {
      assert xs[k] in xs;
      WallReadsBack(xs[k], k, fmt, parse);
    }
    SectionReadsBack(xs, WallWriter(fmt), WallReader(parse));
  }

  lemma MassDampersSection(xs: seq<MassDamper>, fmt: NumberFormatter, parse: NumberParser)
    requires WritesNumerals(fmt) && ReadsBack(fmt, parse)
    requires forall d :: d in xs ==> IsInteger(d.layer) && NameCell(d.name)
    ensures ParseEach(ToLines(Section(xs, MassDamperWriter(fmt))), MassDamperReader(parse)) == Ok(xs)
  {
    forall k | 0 <= k < |xs|
      ensures LineCell(MassDamperWriter(fmt)(xs[k])) && MassDamperReader(parse)(MassDamperWriter(fmt)(xs[k]), k) == Ok(xs[k])
    {
      assert xs[k] in xs;
      MassDamperReadsBack(xs[k], k, fmt, parse);
    }
    SectionReadsBack(xs, MassDamperWriter(fmt), MassDamperReader(parse));
  }

  lemma BraceDampersSection(xs: seq<BraceDamper>, fmt: NumberFormatter, parse: NumberParser)
    requires WritesNumerals(fmt) && ReadsBack(fmt, parse)
    requires forall d :: d in xs ==> IsInteger(d.layer)
    ensures ParseEach(ToLines(Section(xs, BraceDamperWriter(fmt))), BraceDamperReader(parse)) == Ok(xs)
  {
    forall k | 0 <= k < |xs|
      ensures LineCell(BraceDamperWriter(fmt)(xs[k])) && BraceDamperReader(parse)(BraceDamperWriter(fmt)(xs[k]), k) == Ok(xs[k])
    {
      assert xs[k] in xs;
      BraceDamperReadsBack(xs[k], k, fmt, parse);
    }
    SectionReadsBack(xs, BraceDamperWriter(fmt), BraceDamperReader(parse));
  }

  lemma PanelsSection(xs: seq<DXPanel>, fmt: NumberFormatter, parse: NumberParser)
    requires WritesNumerals(fmt) && ReadsBack(fmt, parse)
    requires forall p :: p in xs ==> IsInteger(p.layer) && |p.pos| >= 2
    ensures ParseEach(ToLines(Section(xs, PanelWriter(fmt))), PanelReader(parse)) == Ok(xs)
  {
    forall k | 0 <= k < |xs|
      ensures LineCell(PanelWriter(fmt)(xs[k])) && PanelReader(parse)(PanelWriter(fmt)(xs[k]), k) == Ok(xs[k])
    {
      assert xs[k] in xs;
      PanelReadsBack(xs[k], k, fmt, parse);
    }
    SectionReadsBack(xs, PanelWriter(fmt), PanelReader(parse));
  }

  // ---- the whole form -----------------------------------------------------------------

  /** The structure fields of a form written from `info` read back as `info`. */
  lemma StructInfoReadsBack(info: StructInfo, form: ModelEditorFormData, fmt: NumberFormatter, parse: NumberParser)
    requires WritesNumerals(fmt) && ReadsBack(fmt, parse)
    requires IsInteger(info.massN) && info.massN >= 1.0
    requires |info.zLevel| >= 1 && |info.weight| >= 1 && |info.wMoment| >= 1
    requires form.massN == fmt(info.massN) && form.structType == info.sType
    requires form.zLevel == NumbersText(info.zLevel, fmt) && form.weight == NumbersText(info.weight, fmt)
    requires form.wMoment == NumbersText(info.wMoment, fmt)
    requires form.wCenter == Section(info.wCenter, PointWriter(fmt))
    ensures FormStructInfo(form, parse) == Ok(info)
  {
    ReadBack(fmt, parse, info.massN);
    NumbersReadBack(info.zLevel, "structInfo.zLevel", fmt, parse);
    NumbersReadBack(info.weight, "structInfo.weight", fmt, parse);
    NumbersReadBack(info.wMoment, "structInfo.wMoment", fmt, parse);
    WCenterSection(info.wCenter, fmt, parse);
  }

  /** What a valid model offers the form: integer layers, a story count and non-empty value lists. */
  lemma ValidFormFields(m: BuildingModel)
    requires Normalize.ValidModel(m)
    ensures m.structInfo.Some? && IsInteger(m.structInfo.value.massN) && m.structInfo.value.massN >= 1.0
    ensures |m.structInfo.value.zLevel| >= 1 && |m.structInfo.value.weight| >= 1 && |m.structInfo.value.wMoment| >= 1
    ensures forall f :: f in m.floors ==> IsInteger(f.layer) && |f.pos| >= 3
    ensures forall c :: c in m.columns ==> IsInteger(c.layer)
    ensures forall w :: w in m.walls ==> IsInteger(w.layer)
    ensures forall d :: d in m.massDampers ==> IsInteger(d.layer)
    ensures forall d :: d in m.braceDampers ==> IsInteger(d.layer)
    ensures forall p :: p in m.dxPanels ==> IsInteger(p.layer) && |p.pos| >= 2
  {
  }

  /** The raw model read from the form a valid model writes is that model. */
  lemma FormModelReadsBack(m: BuildingModel, fmt: NumberFormatter, parse: NumberParser)
    requires WritesNumerals(fmt) && ReadsBack(fmt, parse)
    requires Normalize.ValidModel(m) && FormNames(m)
    ensures FormModel(ModelToEditorForm(m, fmt), parse) == Ok(m)
  {
    var form := ModelToEditorForm(m, fmt);
    ValidFormFields(m);
    StructInfoReadsBack(m.structInfo.value, form, fmt, parse);
    FloorsSection(m.floors, fmt, parse);
    ColumnsSection(m.columns, fmt, parse);
    WallCharasSection(m.wallCharaDB, fmt, parse);
    WallsSection(m.walls, fmt, parse);
    MassDampersSection(m.massDampers, fmt, parse);
    BraceDampersSection(m.braceDampers, fmt, parse);
    PanelsSection(m.dxPanels, fmt, parse);
  }

  /** The names of a model the form holds are all non-blank. */
  lemma FormNamesNotBlank(m: BuildingModel)
    requires FormNames(m)
    ensures forall c :: c in m.wallCharaDB ==> !IsBlank(c.name)
    ensures forall w :: w in m.walls ==> !IsBlank(w.name)
    ensures forall d :: d in m.massDampers ==> !IsBlank(d.name)
  {
    forall c | c in m.wallCharaDB ensures !IsBlank(c.name) {
      NameNotBlank(c.name);
    }
    forall w | w in m.walls ensures !IsBlank(w.name) {
      NameNotBlank(w.name);
    }
    forall d | d in m.massDampers ensures !IsBlank(d.name) {
      NameNotBlank(d.name);
    }
  }

  /** A model that normalises to `n` and whose names the form can hold is written into a form that builds `n`. */
  lemma FormBuildsNormalised(m: BuildingModel, n: BuildingModel, fmt: NumberFormatter, parse: NumberParser)
    requires WritesNumerals(fmt) && ReadsBack(fmt, parse)
    requires Normalize.NormalizeBuildingModel(m) == Ok(n) && FormNames(m)
    ensures BuildModelFromEditorForm(ModelToEditorForm(m, fmt), parse) == Ok(n)
  {
    Normalize.NormalizeAcceptsValid(m);
    FormModelReadsBack(m, fmt, parse);
    FormNamesNotBlank(m);
    JsonValidator.JsonRoundTrip(m, n, parse);
  }

  /** ... and the JSON of that form is the document of `n`. */
  lemma FormRoundTrip(m: BuildingModel, n: BuildingModel, fmt: NumberFormatter, parse: NumberParser)
    requires WritesNumerals(fmt) && ReadsBack(fmt, parse)
    requires Normalize.NormalizeBuildingModel(m) == Ok(n) && FormNames(m)
    ensures ModelEditorFormToJson(ModelToEditorForm(m, fmt), parse) == Ok(JsonValidator.DocumentValue(n))
  {
    FormBuildsNormalised(m, n, fmt, parse);
    BuiltModelNormalised(ModelToEditorForm(m, fmt), parse);
  }

  /** A model the form built is written into a form that builds it again. */
  lemma BuiltFormStable(form: ModelEditorFormData, m: BuildingModel, fmt: NumberFormatter, parse: NumberParser)
    requires WritesNumerals(fmt) && ReadsBack(fmt, parse)
    requires BuildModelFromEditorForm(form, parse) == Ok(m) && FormNames(m)
    ensures BuildModelFromEditorForm(ModelToEditorForm(m, fmt), parse) == Ok(m)
  {
    BuiltModelNormalised(form, parse);
    FormBuildsNormalised(m, m, fmt, parse);
  }
}
