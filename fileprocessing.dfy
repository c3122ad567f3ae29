/*
 * The file classification of src/app/fileProcessing.ts: the file type is
 * decided from the text's markers, the JSON signature, the file name and the
 * first non-blank character, in that order; a decoded file is parsed by the
 * parser of its type and summarised; failures are sorted into decode, format
 * and unexpected errors.
 *
 * Reading and decoding the bytes is the input `Decoding`. The five parsers
 * are the parameter `Parsers`: each maps the decoded text to a value or to a
 * `FormatParseError` / plain error, as the modules ModalDat, RespCsv,
 * JsonValidator and XmlReader describe for their parts.
 */
module FileProcessing {
  import opened Results
  import opened Numbers
  import opened Strings
  import opened Building
  import Summary
  import JsonValidator

  datatype FileType = XmlType | ModalType | ComplexType | RespType | JsonType | UnknownType

  datatype Encoding = ShiftJis | Utf8

  datatype DecodedText = DecodedText(text: string, encoding: Encoding, hasBom: bool, warnings: seq<string>)

  /** The outcome of reading and decoding the bytes: text, a `TextDecodingError`, or any other failure. */
  datatype Decoding = Decoded(decoded: DecodedText) | Undecodable(reason: string) | ReadFailed(reason: string)

  datatype Messages = Messages(
    unknownFormat: string,
    formatErrorPrefix: string,
    decodeErrorPrefix: string,
    decodeUnsupportedAction: string)

  datatype Parsers = Parsers(
    xml: string -> Result<BuildingModel>,
    modal: string -> Result<ModalDatFile>,
    complex: string -> Result<ComplexModalFile>,
    resp: string -> Result<Building.RespFile>,
    json: string -> Result<BuildingModel>)

  /** `bomRemoved` is present (and true) only for a decoded byte-order mark; `warnings` only when there are some. */
  datatype ReportBase = ReportBase(file: string, encoding: Encoding, bomRemoved: bool, warnings: Option<seq<string>>)

  datatype SuccessReport =
    | XmlReport(base: ReportBase, summary: Summary.BuildingModelSummary)
    | ModalReport(base: ReportBase, story: Option<real>, modeCount: nat, firstFrequencyHz: Option<real>)
    | ComplexReport(base: ReportBase, story: Option<real>, modeCount: nat, firstFrequencyHz: Option<real>)
    | RespReport(base: ReportBase, rows: nat, columns: nat, dt: real)
    | JsonReport(base: ReportBase, summary: Summary.BuildingModelSummary)
    | UnknownReport(base: ReportBase, message: string)

  datatype ErrorType = DecodeError | FormatError | UnexpectedError

  datatype ErrorReport = ErrorReport(file: string, fileType: FileType, errorType: ErrorType, error: string, action: Option<string>)

  datatype ProcessingResult = Success(report: SuccessReport) | Failure(failure: ErrorReport)

  // ---- type detection ------------------------------------------------------------

  const RESP_MARKER := "#Resp_Result"
  const COMPLEX_MARKER := "#ComplexModalResult"
  const MODAL_MARKER := "#ModalResult"
  const SIGNATURE_WINDOW := 4096

  predicate LooksLikeJson(text: string)
  {
    StartsWith(TrimStart(text), "{") || StartsWith(TrimStart(text), "[")
  }

  predicate LooksLikeXml(text: string)
  {
    StartsWith(TrimStart(text), "<")
  }

  /** `text.slice(0, 4096)`. */
  function Head(text: string): (r: string)
    ensures |r| == Min(SIGNATURE_WINDOW, |text|) && r == text[..|r|]
  {
    text[..Min(SIGNATURE_WINDOW, |text|)]
  }

  /** `hasBuildingModelJsonSignature`: the four keys and the format name all occur in the first 4096 characters. */
  predicate HasJsonSignature(text: string)
  {
    var head := Head(text);
    Contains(head, "\"format\"") && Contains(head, JsonValidator.FORMAT)
    && Contains(head, "\"version\"") && Contains(head, "\"model\"")
  }

  predicate HasMarker(text: string)
  {
    Contains(text, RESP_MARKER) || Contains(text, COMPLEX_MARKER) || Contains(text, MODAL_MARKER)
  }

  predicate NamedJson(fileName: string) { EndsWith(ToLower(fileName), ".json") }

  predicate NamedXml(fileName: string) { EndsWith(ToLower(fileName), ".xml") }

  /** `detectFileType`, test by test in the order fileProcessing.ts writes them. */
  function DetectFileType(fileName: string, text: string): FileType
  {
    var lowerName := ToLower(fileName);
    if Contains(text, RESP_MARKER) then RespType
    else if Contains(text, COMPLEX_MARKER) then ComplexType
    else if Contains(text, MODAL_MARKER) then ModalType
    else if HasJsonSignature(text) then JsonType
    else if EndsWith(lowerName, ".json") && LooksLikeJson(text) then JsonType
    else if EndsWith(lowerName, ".xml") && LooksLikeXml(text) then XmlType
    else if EndsWith(lowerName, ".json") then JsonType
    else if EndsWith(lowerName, ".xml") then XmlType
    else if LooksLikeXml(text) then XmlType
    else UnknownType
  }

  /** The same decision with the content checks next to the name checks left out. */
  function DetectByRank(fileName: string, text: string): FileType
  {
    if Contains(text, RESP_MARKER) then RespType
    else if Contains(text, COMPLEX_MARKER) then ComplexType
    else if Contains(text, MODAL_MARKER) then ModalType
    else if HasJsonSignature(text) || NamedJson(fileName) then JsonType
    else if NamedXml(fileName) || LooksLikeXml(text) then XmlType
    else UnknownType
  }

  /**
   * The name-and-content tests of `detectFileType` decide nothing the plain name
   * tests after them would not: detection is the ranked decision.
   */
  lemma DetectionIsRanked(fileName: string, text: string)
    ensures DetectFileType(fileName, text) == DetectByRank(fileName, text)
  {
    NamesExclusive(fileName);
  }

  /** A marker decides the type whatever the file is called, the response marker first. */
  lemma MarkersDecideFirst(fileName: string, otherName: string, text: string)
    requires HasMarker(text)
    ensures DetectFileType(fileName, text) == DetectFileType(otherName, text)
    ensures DetectFileType(fileName, text) in {RespType, ComplexType, ModalType}
    ensures Contains(text, RESP_MARKER) ==> DetectFileType(fileName, text) == RespType
  {
  }

  /** The JSON signature or a ".json" name (in any case) gives JSON unless a marker is present. */
  lemma JsonDetection(fileName: string, text: string)
    ensures !HasMarker(text) ==>
      (DetectFileType(fileName, text) == JsonType <==> HasJsonSignature(text) || NamedJson(fileName))
  {
    DetectionIsRanked(fileName, text);
  }

  /** XML is a ".xml" name or text starting with "<", when nothing ranked higher applies. */
  lemma XmlDetection(fileName: string, text: string)
    ensures DetectFileType(fileName, text) == XmlType <==>
      !HasMarker(text) && !HasJsonSignature(text) && !NamedJson(fileName)
      && (NamedXml(fileName) || LooksLikeXml(text))
  {
    DetectionIsRanked(fileName, text);
  }

  /** The file is unknown exactly when no test applies. */
  lemma UnknownDetection(fileName: string, text: string)
    ensures DetectFileType(fileName, text) == UnknownType <==>
      !HasMarker(text) && !HasJsonSignature(text) && !NamedJson(fileName)
      && !NamedXml(fileName) && !LooksLikeXml(text)
  {
    DetectionIsRanked(fileName, text);
  }

  const FORMAT_KEY := "\"format\""
  const VERSION_KEY := "\"version\""
  const MODEL_KEY := "\"model\""

  /** `JSON.stringify` of a document with the format, version 1 and an empty model. */
  const SIGNED_DOCUMENT := "{" + FORMAT_KEY + ":\"" + JsonValidator.FORMAT + "\"," + VERSION_KEY + ":1," + MODEL_KEY + ":{}}"

  /** The signed document is detected as JSON under a ".txt" name. */
  lemma SignatureWithoutJsonName()
    ensures DetectFileType("model.txt", SIGNED_DOCUMENT) == JsonType
  {
    SignedText("{", ":\"", "\",", ":1,", ":{}}");
  }

  /** Hash-free text holding the keys and the format name in order has the signature and no marker. */
  lemma SignedText(a: string, b: string, c: string, d: string, e: string)
    requires HashFree(a) && HashFree(b) && HashFree(c) && HashFree(d) && HashFree(e)
    requires |a + FORMAT_KEY + b + JsonValidator.FORMAT + c + VERSION_KEY + d + MODEL_KEY + e| <= SIGNATURE_WINDOW
    ensures var t := a + FORMAT_KEY + b + JsonValidator.FORMAT + c + VERSION_KEY + d + MODEL_KEY + e;
      HasJsonSignature(t) && !HasMarker(t)
  {
    var t := a + FORMAT_KEY + b + JsonValidator.FORMAT + c + VERSION_KEY + d + MODEL_KEY + e;
    assert Head(t) == t;
    KeysHashFree();
    ContainsFour(a, FORMAT_KEY, b, JsonValidator.FORMAT, c, VERSION_KEY, d, MODEL_KEY, e);
    HashFreeNine(a, FORMAT_KEY, b, JsonValidator.FORMAT, c, VERSION_KEY, d, MODEL_KEY, e);
    NoMarker(t);
  }

  /** Text without "#" holds no marker. */
  lemma NoMarker(t: string)
    requires HashFree(t)
    ensures !HasMarker(t)
  {
    NoHash(t, RESP_MARKER);
    NoHash(t, COMPLEX_MARKER);
    NoHash(t, MODAL_MARKER);
  }

  /** The keys and the format name hold no "#". */
  lemma KeysHashFree()
    ensures HashFree(FORMAT_KEY) && HashFree(VERSION_KEY) && HashFree(MODEL_KEY)
    ensures HashFree(JsonValidator.FORMAT)
  {
  }

  lemma ContainsFour(a: string, p: string, b: string, q: string, c: string, r: string, d: string, s: string, e: string)
    ensures var t := a + p + b + q + c + r + d + s + e;
      Contains(t, p) && Contains(t, q) && Contains(t, r) && Contains(t, s)
  {
    var t := a + p + b + q + c + r + d + s + e;
    assert t == a + p + (b + q + c + r + d + s + e);
    ContainsMiddle(a, p, b + q + c + r + d + s + e);
    assert t == a + p + b + q + (c + r + d + s + e);
    ContainsMiddle(a + p + b, q, c + r + d + s + e);
    assert t == a + p + b + q + c + r + (d + s + e);
    ContainsMiddle(a + p + b + q + c, r, d + s + e);
    ContainsMiddle(a + p + b + q + c + r + d, s, e);
  }

  lemma HashFreeNine(a: string, p: string, b: string, q: string, c: string, r: string, d: string, s: string, e: string)
    requires HashFree(a) && HashFree(p) && HashFree(b) && HashFree(q) && HashFree(c)
    requires HashFree(r) && HashFree(d) && HashFree(s) && HashFree(e)
    ensures HashFree(a + p + b + q + c + r + d + s + e)
  {
    HashFreeConcat(a, p);
    HashFreeConcat(a + p, b);
    HashFreeConcat(a + p + b, q);
    HashFreeConcat(a + p + b + q, c);
    HashFreeConcat(a + p + b + q + c, r);
    HashFreeConcat(a + p + b + q + c + r, d);
    HashFreeConcat(a + p + b + q + c + r + d, s);
    HashFreeConcat(a + p + b + q + c + r + d + s, e);
  }

  lemma HashFreeConcat(a: string, b: string)
    requires HashFree(a) && HashFree(b)
    ensures HashFree(a + b)
  {
    assert forall i :: |a| <= i < |a + b| ==> (a + b)[i] == b[i - |a|];
  }

  lemma ContainsMiddle(a: string, part: string, b: string)
    ensures Contains(a + part + b, part)
  {
    assert (a + part + b)[|a|..|a| + |part|] == part;
    ContainsAt(a + part + b, part, |a|);
  }

  predicate HashFree(t: string)
  {
    forall i :: 0 <= i < |t| ==> t[i] != '#'
  }

  /** Text without "#" holds nothing that starts with "#". */
  lemma {:induction false} NoHash(t: string, part: string)
    requires HashFree(t)
    requires |part| > 0 && part[0] == '#'
    ensures !Contains(t, part)
    decreases |t|
  {
    if |part| <= |t| {
      assert t[..|part|][0] == t[0];
    }
    if t != [] {
      assert HashFree(t[1..]) by {
        assert forall i :: 0 <= i < |t| - 1 ==> t[1..][i] == t[i + 1];
      }
      NoHash(t[1..], part);
    }
  }

  /** No name ends with both ".json" and ".xml". */
  lemma NamesExclusive(fileName: string)
    ensures !(NamedJson(fileName) && NamedXml(fileName))
  {
    var l := ToLower(fileName);
    if |l| >= 5 {
      assert l[|l| - 5..][4] == l[|l| - 1] == l[|l| - 4..][3];
    }
  }

  // ---- reports ---------------------------------------------------------------------

  /** `createReportBase`. */
  function CreateReportBase(fileName: string, decoded: DecodedText): (r: ReportBase)
    ensures r.file == fileName && r.encoding == decoded.encoding
    ensures r.bomRemoved <==> decoded.hasBom
    ensures r.warnings.Some? <==> decoded.warnings != []
    ensures r.warnings.Some? ==> r.warnings.value == decoded.warnings
  {
    ReportBase(fileName, decoded.encoding, decoded.hasBom, if |decoded.warnings| > 0 then Some(decoded.warnings) else None)
  }

  function FirstFrequency(freqs: seq<real>): Option<real>
  {
    if |freqs| > 0 then Some(freqs[0]) else None
  }

  /** The type a success report is labelled with. */
  function ReportType(r: SuccessReport): FileType
  {
    match r
    case XmlReport(_, _) => XmlType
    case ModalReport(_, _, _, _) => ModalType
    case ComplexReport(_, _, _, _) => ComplexType
    case RespReport(_, _, _, _) => RespType
    case JsonReport(_, _) => JsonType
    case UnknownReport(_, _) => UnknownType
  }

  /** `parseDecodedFile`: the parser of the detected type, then its summary; a parser failure is passed on. */
  function ParseDecodedFile(fileName: string, decoded: DecodedText, messages: Messages, parsers: Parsers): (r: Result<SuccessReport>)
    ensures r.Ok? ==> ReportType(r.value) == DetectFileType(fileName, decoded.text)
                      && r.value.base == CreateReportBase(fileName, decoded)
    ensures DetectFileType(fileName, decoded.text) == UnknownType ==>
      r == Ok(UnknownReport(CreateReportBase(fileName, decoded), messages.unknownFormat))
  {
    var base := CreateReportBase(fileName, decoded);
    var text := decoded.text;
    match DetectFileType(fileName, text)
    case XmlType =>
      var model :- parsers.xml(text);
      Ok(XmlReport(base, Summary.SummarizeBuildingModel(model)))
    case ModalType =>
      var modal :- parsers.modal(text);
      Ok(ModalReport(base, modal.baseShape.story, |modal.modal.frequenciesHz|, FirstFrequency(modal.modal.frequenciesHz)))
    case ComplexType =>
      var complex :- parsers.complex(text);
      Ok(ComplexReport(base, complex.baseShape.story, |complex.modes|,
                       if |complex.modes| > 0 then Some(complex.modes[0].frequencyHz) else None))
    case RespType =>
      var resp :- parsers.resp(text);
      Ok(RespReport(base, |resp.records|, |resp.header|, resp.meta.dt))
    case JsonType =>
      var model :- parsers.json(text);
      Ok(JsonReport(base, Summary.SummarizeBuildingModel(model)))
    case UnknownType =>
      Ok(UnknownReport(base, messages.unknownFormat))
  }

  /** The parser `parseDecodedFile` runs on a file of type `t`, reduced to its outcome's error. */
  function ParserError(parsers: Parsers, t: FileType, text: string): Option<Error>
  {
    match t
    case XmlType => if parsers.xml(text).Err? then Some(parsers.xml(text).error) else None
    case ModalType => if parsers.modal(text).Err? then Some(parsers.modal(text).error) else None
    case ComplexType => if parsers.complex(text).Err? then Some(parsers.complex(text).error) else None
    case RespType => if parsers.resp(text).Err? then Some(parsers.resp(text).error) else None
    case JsonType => if parsers.json(text).Err? then Some(parsers.json(text).error) else None
    case UnknownType => None
  }

  /** Parsing fails exactly when the parser of the detected type fails, and with its error. */
  lemma ParseFailsWithParser(fileName: string, decoded: DecodedText, messages: Messages, parsers: Parsers)
    ensures var e := ParserError(parsers, DetectFileType(fileName, decoded.text), decoded.text);
      var r := ParseDecodedFile(fileName, decoded, messages, parsers);
      (r.Err? <==> e.Some?) && (r.Err? ==> r.error == e.value)
  {
  }

  /** `processInputFile`: decoding failures first, then the parse; format errors keep the detected type. */
  function ProcessInputFile(fileName: string, read: Decoding, messages: Messages, parsers: Parsers): (r: ProcessingResult)
    ensures r.Failure? && r.failure.errorType != FormatError ==> r.failure.fileType == UnknownType
    ensures r.Failure? ==> r.failure.file == fileName
    ensures r.Failure? ==> (r.failure.action.Some? <==> r.failure.errorType == DecodeError)
  {
    match read
    case Undecodable(reason) =>
      Failure(ErrorReport(fileName, UnknownType, DecodeError, messages.decodeErrorPrefix + " " + reason,
                          Some(messages.decodeUnsupportedAction)))
    case ReadFailed(reason) =>
      Failure(ErrorReport(fileName, UnknownType, UnexpectedError, reason, None))
    case Decoded(decoded) =>
      var fileType := DetectFileType(fileName, decoded.text);
      match ParseDecodedFile(fileName, decoded, messages, parsers)
      case Ok(report) => Success(report)
      case Err(FormatParseError(message)) =>
        Failure(ErrorReport(fileName, fileType, FormatError, messages.formatErrorPrefix + " " + message, None))
      case Err(PlainError(message)) =>
        Failure(ErrorReport(fileName, UnknownType, UnexpectedError, message, None))
  }

  /**
   * The error classification: a decoding failure is a decode error, a
   * `FormatParseError` from the parser is a format error labelled with the
   * detected type, and every other failure is unexpected. A file that decodes
   * and parses is a success whose report has the detected type.
   */
  lemma ErrorClassification(fileName: string, read: Decoding, messages: Messages, parsers: Parsers)
    ensures var r := ProcessInputFile(fileName, read, messages, parsers);
      (r.Failure? && r.failure.errorType == DecodeError <==> read.Undecodable?)
      && (read.ReadFailed? ==> r == Failure(ErrorReport(fileName, UnknownType, UnexpectedError, read.reason, None)))
      && (read.Decoded? ==>
            var t := DetectFileType(fileName, read.decoded.text);
            var e := ParserError(parsers, t, read.decoded.text);
            (r.Success? <==> e.None?)
            && (r.Success? ==> ReportType(r.report) == t)
            && (r.Failure? && r.failure.errorType == FormatError <==> e.Some? && e.value.FormatParseError?)
            && (r.Failure? && r.failure.errorType == FormatError ==> r.failure.fileType == t))
  {
    if read.Decoded? {
      ParseFailsWithParser(fileName, read.decoded, messages, parsers);
    }
  }

  /** A decoded file of no known type is still a success, carrying the unknown-format message. */
  lemma UnknownIsSuccess(fileName: string, decoded: DecodedText, messages: Messages, parsers: Parsers)
    requires DetectFileType(fileName, decoded.text) == UnknownType
    ensures ProcessInputFile(fileName, Decoded(decoded), messages, parsers)
      == Success(UnknownReport(CreateReportBase(fileName, decoded), messages.unknownFormat))
  {
  }
}
