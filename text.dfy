/*
 * The line and token helpers of src/io/text.ts shared by the result-file
 * readers. Text decoding (bytes to text) is not part of this model.
 *
 * `parseNumberToken` and `toNumberListStrict` are imported by the readers
 * but are not among the shown sources; they are modelled here as the strict
 * counterparts of `toNumberList`: a token that does not convert to a finite
 * number is a `FormatParseError` naming the field.
 */
module Text {
  import opened Results
  import opened Numbers
  import opened Strings

  // ---- normalizeNewLines ---------------------------------------------------------

  /** `text.replace(/\r\n/g, "\n")`: matches are taken left to right without overlap. */
  function ReplaceCrLf(s: string): (r: string)
    ensures |r| <= |s|
  {
    if |s| >= 2 && s[0] == '\r' && s[1] == '\n' then "\n" + ReplaceCrLf(s[2..])
    else if s == [] then []
    else [s[0]] + ReplaceCrLf(s[1..])
  }

  /** `text.replace(/\r/g, "\n")`. */
  function ReplaceCr(s: string): (r: string)
    ensures |r| == |s|
    ensures forall i :: 0 <= i < |s| ==> r[i] == (if s[i] == '\r' then '\n' else s[i])
  {
    if s == [] then [] else [if s[0] == '\r' then '\n' else s[0]] + ReplaceCr(s[1..])
  }

  /** `normalizeNewLines`. */
  function NormalizeNewLines(s: string): (r: string)
  {
    ReplaceCr(ReplaceCrLf(s))
  }

  /**
   * The line-ending rule read in one pass: a CRLF pair and a lone CR each
   * become one LF, and every other character is kept.
   */
  function UnixLineEnds(s: string): string
  {
    if s == [] then []
    else if s[0] == '\r' then
      if |s| >= 2 && s[1] == '\n' then "\n" + UnixLineEnds(s[2..]) else "\n" + UnixLineEnds(s[1..])
    else [s[0]] + UnixLineEnds(s[1..])
  }

  /** The two replacements in sequence are the one-pass rule. */
  lemma {:induction false} NormalizeIsUnixLineEnds(s: string)
    ensures NormalizeNewLines(s) == UnixLineEnds(s)
  {
    if |s| >= 2 && s[0] == '\r' && s[1] == '\n' {
      NormalizeIsUnixLineEnds(s[2..]);
      assert ReplaceCrLf(s) == "\n" + ReplaceCrLf(s[2..]);
      assert ReplaceCr("\n" + ReplaceCrLf(s[2..])) == "\n" + ReplaceCr(ReplaceCrLf(s[2..]));
    } else if s != [] {
      NormalizeIsUnixLineEnds(s[1..]);
      assert ReplaceCrLf(s) == [s[0]] + ReplaceCrLf(s[1..]);
      assert ReplaceCr([s[0]] + ReplaceCrLf(s[1..])) == ReplaceCr([s[0]]) + ReplaceCr(ReplaceCrLf(s[1..]));
    }
  }

  /** The result holds no carriage return. */
  lemma NormalizeHasNoCr(s: string)
    ensures '\r' !in NormalizeNewLines(s)
  {
  }

  lemma {:induction false} ReplaceCrLfWithoutCr(s: string)
    requires '\r' !in s
    ensures ReplaceCrLf(s) == s
  {
    if s != [] {
      assert s[0] in s;
      assert forall c :: c in s[1..] ==> c in s;
      ReplaceCrLfWithoutCr(s[1..]);
    }
  }

  /** Text without a carriage return passes through unchanged. */
  lemma NormalizeWithoutCr(s: string)
    requires '\r' !in s
    ensures NormalizeNewLines(s) == s
  {
    ReplaceCrLfWithoutCr(s);
    assert forall i :: 0 <= i < |s| ==> s[i] != '\r';
  }

  /** Normalising twice is normalising once. */
  lemma NormalizeIdempotent(s: string)
    ensures NormalizeNewLines(NormalizeNewLines(s)) == NormalizeNewLines(s)
  {
    NormalizeHasNoCr(s);
    NormalizeWithoutCr(NormalizeNewLines(s));
  }

  /** The lines of a text after newline normalisation: `normalizeNewLines(text).split("\n")`. */
  function Lines(text: string): (r: seq<string>)
    ensures |r| >= 1
    ensures forall k :: 0 <= k < |r| ==> '\r' !in r[k] && '\n' !in r[k]
  {
    var t := NormalizeNewLines(text);
    SplitShape(t, '\n');
    NormalizeHasNoCr(text);
    SplitPiecesFrom(t, '\n', '\r');
    Split(t, '\n')
  }

  /** The pieces of a split hold no character the text does not hold. */
  lemma {:induction false} SplitPiecesFrom(s: string, sep: char, c: char)
    requires c !in s
    ensures forall k :: 0 <= k < |Split(s, sep)| ==> c !in Split(s, sep)[k]
    decreases |s|
  {
    var i := IndexOf(s, sep);
    if i < |s| {
      assert forall x :: x in s[i + 1..] ==> x in s;
      assert forall x :: x in s[..i] ==> x in s;
      SplitPiecesFrom(s[i + 1..], sep, c);
      var r := Split(s, sep);
      forall k | 0 <= k < |r| ensures c !in r[k] {
        if k > 0 { assert r[k] == Split(s[i + 1..], sep)[k - 1]; }
      }
    }
  }

  /** `toTrimmedLines`: every line trimmed. */
  function TrimmedLines(text: string): (r: seq<string>)
    ensures |r| == |Lines(text)|
    ensures forall k :: 0 <= k < |r| ==> r[k] == Trim(Lines(text)[k])
  {
    TrimAll(Lines(text))
  }

  function TrimAll(lines: seq<string>): (r: seq<string>)
    ensures |r| == |lines|
    ensures forall k :: 0 <= k < |r| ==> r[k] == Trim(lines[k])
  {
    seq(|lines|, k requires 0 <= k < |lines| => Trim(lines[k]))
  }

  /** Every trimmed line is trimmed. */
  lemma AllTrimmed(lines: seq<string>)
    ensures forall k :: 0 <= k < |lines| ==> IsTrimmed(TrimAll(lines)[k])
  {
    forall k | 0 <= k < |lines| {
      TrimIsTrimmed(lines[k]);
    }
  }

  /** The trimmed lines that are not empty, in order. */
  function NonEmpty(lines: seq<string>): (r: seq<string>)
    ensures |r| <= |lines|
    ensures forall k :: 0 <= k < |r| ==> r[k] != "" && r[k] in lines
  {
    if lines == [] then []
    else if lines[0] == "" then NonEmpty(lines[1..])
    else [lines[0]] + NonEmpty(lines[1..])
  }

  // ---- splitCsvLikeLine / toNumberList --------------------------------------------

  /** `splitCsvLikeLine`: the comma-separated pieces, each trimmed. */
  function SplitCsvLikeLine(line: string): (r: seq<string>)
    ensures |r| >= 1
  {
    TrimAll(Split(line, ','))
  }

  /** There is one token more than there are commas, and each is a trimmed piece between commas. */
  lemma SplitCsvShape(line: string)
    ensures |SplitCsvLikeLine(line)| == Count(line, ',') + 1 == |Split(line, ',')|
    ensures forall k :: 0 <= k < |SplitCsvLikeLine(line)| ==>
      SplitCsvLikeLine(line)[k] == Trim(Split(line, ',')[k]) && IsTrimmed(SplitCsvLikeLine(line)[k])
  {
    SplitShape(line, ',');
    AllTrimmed(Split(line, ','));
  }

  /** A line without commas is one token, the trimmed line. */
  lemma SplitWithoutComma(line: string)
    requires ',' !in line
    ensures SplitCsvLikeLine(line) == [Trim(line)]
  {
    assert IndexOf(line, ',') == |line|;
    assert Split(line, ',') == [line];
  }

  /** `toNumberList`: the tokens that convert to finite numbers, converted, in order. */
  function ToNumberList(tokens: seq<string>, parse: NumberParser): (r: seq<real>)
    ensures |r| <= |tokens|
  {
    if tokens == [] then []
    else
      var rest := ToNumberList(tokens[1..], parse);
      if parse(tokens[0]).Some? then [parse(tokens[0]).value] + rest else rest
  }

  /** Every number kept is the conversion of some token. */
  lemma {:induction false} ToNumberListFrom(tokens: seq<string>, parse: NumberParser)
    ensures forall x :: x in ToNumberList(tokens, parse) ==> exists t :: t in tokens && parse(t) == Some(x)
  {
    if tokens != [] {
      ToNumberListFrom(tokens[1..], parse);
      assert forall t :: t in tokens[1..] ==> t in tokens;
    }
  }

  /** The list of a concatenation is the concatenation of the lists. */
  lemma {:induction false} ToNumberListAppend(a: seq<string>, b: seq<string>, parse: NumberParser)
    ensures ToNumberList(a + b, parse) == ToNumberList(a, parse) + ToNumberList(b, parse)
  {
    if a != [] {
      assert (a + b)[1..] == a[1..] + b;
      assert (a + b)[0] == a[0];
      ToNumberListAppend(a[1..], b, parse);
    } else {
      assert a + b == b;
    }
  }

  /** When every token converts, nothing is dropped and the order is kept. */
  lemma {:induction false} ToNumberListAll(tokens: seq<string>, parse: NumberParser)
    requires forall k :: 0 <= k < |tokens| ==> parse(tokens[k]).Some?
    ensures |ToNumberList(tokens, parse)| == |tokens|
    ensures forall k :: 0 <= k < |tokens| ==> ToNumberList(tokens, parse)[k] == parse(tokens[k]).value
  {
    if tokens != [] {
      ToNumberListAll(tokens[1..], parse);
    }
  }

  /** When no token converts the list is empty. */
  lemma {:induction false} ToNumberListNone(tokens: seq<string>, parse: NumberParser)
    requires forall k :: 0 <= k < |tokens| ==> parse(tokens[k]).None?
    ensures ToNumberList(tokens, parse) == []
  {
    if tokens != [] {
      ToNumberListNone(tokens[1..], parse);
    }
  }

  // ---- strict conversions (not among the shown sources) -------------------------

  /** `parseNumberToken`: a token that converts, or a format error naming the field. */
  function ParseNumberToken(token: string, field: string, parse: NumberParser): (r: Result<real>)
    ensures r.Ok? <==> parse(token).Some?
    ensures r.Ok? ==> r.value == parse(token).value
    ensures r.Err? ==> r.error.FormatParseError?
  {
    if parse(token).Some? then Ok(parse(token).value)
    else FormatFailure(field + ": invalid number.")
  }

  /** `toNumberListStrict`: every token converted, or a format error. */
  function ToNumberListStrict(tokens: seq<string>, field: string, parse: NumberParser): (r: Result<seq<real>>)
    ensures r.Ok? ==> r.value == ToNumberList(tokens, parse)
    ensures r.Err? ==> r.error.FormatParseError?
  {
    if tokens == [] then Ok([])
    else
      var x :- ParseNumberToken(tokens[0], field, parse);
      var rest :- ToNumberListStrict(tokens[1..], field, parse);
      Ok([x] + rest)
  }

  /** The strict conversion succeeds exactly when every token converts, and then keeps every token in order. */
  lemma {:induction false} StrictAll(tokens: seq<string>, field: string, parse: NumberParser)
    ensures ToNumberListStrict(tokens, field, parse).Ok? <==> forall k :: 0 <= k < |tokens| ==> parse(tokens[k]).Some?
    ensures ToNumberListStrict(tokens, field, parse).Ok? ==>
      |ToNumberListStrict(tokens, field, parse).value| == |tokens|
      && forall k :: 0 <= k < |tokens| ==> ToNumberListStrict(tokens, field, parse).value[k] == parse(tokens[k]).value
  {
    if tokens != [] {
      StrictAll(tokens[1..], field, parse);
      if forall k :: 0 <= k < |tokens| ==> parse(tokens[k]).Some? {
        assert forall k :: 0 <= k < |tokens| - 1 ==> tokens[1..][k] == tokens[k + 1];
      }
      if ToNumberListStrict(tokens, field, parse).Ok? {
        ToNumberListAll(tokens, parse);
      }
    }
  }

  // ---- small sequence searches shared by the readers ------------------------------

  /** `lines.findIndex(line => line.includes(part))`, `|lines|` standing for -1. */
  function FindContaining(lines: seq<string>, part: string): (i: nat)
    ensures i <= |lines|
    ensures i < |lines| ==> Contains(lines[i], part)
    ensures forall k :: 0 <= k < i ==> !Contains(lines[k], part)
  {
    if lines == [] then 0 else if Contains(lines[0], part) then 0 else 1 + FindContaining(lines[1..], part)
  }

  /** `lines.findIndex(line => line.startsWith(prefix))`, `|lines|` standing for -1. */
  function FindStarting(lines: seq<string>, prefix: string): (i: nat)
    ensures i <= |lines|
    ensures i < |lines| ==> StartsWith(lines[i], prefix)
    ensures forall k :: 0 <= k < i ==> !StartsWith(lines[k], prefix)
  {
    if lines == [] then 0 else if StartsWith(lines[0], prefix) then 0 else 1 + FindStarting(lines[1..], prefix)
  }

  /** `tokens.findIndex(token => token === label)`, `|tokens|` standing for -1. */
  function FindEqual(tokens: seq<string>, field: string): (i: nat)
    ensures i <= |tokens|
    ensures i < |tokens| ==> tokens[i] == field
    ensures forall k :: 0 <= k < i ==> tokens[k] != field
  {
    if tokens == [] then 0 else if tokens[0] == field then 0 else 1 + FindEqual(tokens[1..], field)
  }
}
