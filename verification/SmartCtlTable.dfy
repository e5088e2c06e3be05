/** Rendering a list of ATA attributes the way smartctl does, and reading it back. */
module SmartCtlTable {
  import opened Sequences
  import opened Wrappers
  import opened SmartHealth
  import opened Text
  import opened OutputParsersUtils
  import opened Simplify
  import opened NvmeParser
  import opened NvmeHealth
  import opened SmartCtlOutputParser

  /** How a raw value may be written: with `0x` in hexadecimal, with a leading zero in octal, or else in decimal. */
  datatype RawForm = InDecimal | InHex(mark: char, digits: string) | InOctal(digits: string)

  /** How smartctl may lay one row out: the columns the parser ignores, zero padding, blanks, and `---` for 0. */
  datatype Layout = Layout(
    flag: string, kind: string, updated: string, failed: string, extra: seq<string>,
    idZeros: nat, valueZeros: nat, worstZeros: nat, thresholdZeros: nat, dashes: bool, raw: RawForm,
    lead: string, gaps: seq<string>)

  /** A line of the table: an attribute, or some text of fewer than ten words. */
  datatype Row = Row(attribute: Attribute, layout: Layout) | Scrap(text: string)

  /** The numbers of a row are natural, but need not fit where the parser puts them. */
  predicate AttributeOk(a: Attribute) {
    0 <= a.id && IsWord(a.name) && 0 <= a.value && 0 <= a.worst && 0 <= a.threshold && 0 <= a.rawVal
  }

  /** The limits of `unsigned long`, `int` and `long long`. */
  predicate Fits(a: Attribute) {
    && a.id <= 18_446_744_073_709_551_615
    && a.value <= 2_147_483_647 && a.worst <= 2_147_483_647 && a.threshold <= 2_147_483_647
    && a.rawVal <= 9_223_372_036_854_775_807
  }

  predicate RawFormOk(form: RawForm, n: int) {
    match form
    case InDecimal => true
    case InHex(mark, digits) =>
      && (mark == 'x' || mark == 'X') && digits != "" && Value(digits, 16) == n
      && forall i | 0 <= i < |digits| ::
           '0' <= digits[i] <= '9' || 'a' <= digits[i] <= 'f' || 'A' <= digits[i] <= 'F'
    case InOctal(digits) => Value(digits, 8) == n && forall i | 0 <= i < |digits| :: '0' <= digits[i] <= '7'
  }

  function RawText(form: RawForm, n: nat): string {
    match form
    case InDecimal => Decimal(n)
    case InHex(mark, digits) => ['0', mark] + digits
    case InOctal(digits) => "0" + digits
  }

  function Tokens(r: Row): seq<string>
    requires r.Row? && AttributeOk(r.attribute)
  {
    var a, l := r.attribute, r.layout;
    Left(r) + [l.kind, l.updated, l.failed, RawText(l.raw, a.rawVal)] + l.extra
  }

  function Left(r: Row): seq<string>
    requires r.Row? && AttributeOk(r.attribute)
  {
    var a, l := r.attribute, r.layout;
    [Zeros(l.idZeros) + Decimal(a.id), a.name, l.flag, Zeros(l.valueZeros) + Decimal(a.value),
     Zeros(l.worstZeros) + Decimal(a.worst), if l.dashes then "---" else Zeros(l.thresholdZeros) + Decimal(a.threshold)]
  }

  predicate LayoutOk(r: Row)
    requires r.Row?
  {
    var a, l := r.attribute, r.layout;
    && AttributeOk(a) && RawFormOk(l.raw, a.rawVal)
    && IsWord(l.flag) && IsWord(l.kind) && IsWord(l.updated) && IsWord(l.failed)
    && (forall w | w in l.extra :: IsWord(w))
    && (l.dashes ==> a.threshold == 0)
    && |l.gaps| == 10 + |l.extra| && GapsOk(l.gaps) && AllSpaces(l.lead)
  }

  predicate RowOk(r: Row) {
    match r
    case Row(_, _) => LayoutOk(r) && IsLine(RowText(r))
    case Scrap(text) => IsLine(text) && Trim(text) != "" && |Words(text)| < 10
  }

  function RowText(r: Row): string
    requires r.Row? ==> AttributeOk(r.attribute) && |r.layout.gaps| == 10 + |r.layout.extra|
  {
    if r.Scrap? then r.text else r.layout.lead + Spread(Tokens(r), r.layout.gaps)
  }

  /** What a line stands for: its attribute with an 8-bit identifier if the numbers fit, and otherwise nothing. */
  function Shown(r: Row): Option<Attribute> {
    if r.Row? && Fits(r.attribute) then Some(r.attribute.(id := r.attribute.id % 256)) else None
  }

  // ---- raw values -----------------------------------------------------------------------------------------

  lemma {:induction false} ZeroInFront(digits: string, base: nat)
    requires base > 0
    ensures Value("0" + digits, base) == Value(digits, base)
  {
    var s := "0" + digits;
    if digits == "" {
      ValueOfZero(base);
      assert s == "0";
    } else {
      assert s[..|s| - 1] == "0" + digits[..|digits| - 1];
      ZeroInFront(digits[..|digits| - 1], base);
    }
  }

  lemma {:induction false} OctalLength(s: string)
    requires forall i | 0 <= i < |s| :: '0' <= s[i] <= '7'
    ensures DigitsLength(s, 8) == |s|
  {
    if s != "" {
      OctalLength(s[1..]);
    }
  }

  lemma {:induction false} OctalReads(digits: string)
    requires forall i | 0 <= i < |digits| :: '0' <= digits[i] <= '7'
    ensures StrTo("0" + digits, 0) == Some(Value(digits, 8)) && IsWord("0" + digits)
  {
    var s := "0" + digits;
    OctalLength(s);
    ZeroInFront(digits, 8);
    StrToPlain(s, 0, 8);
  }

  lemma {:induction false} MarkedHexReads(mark: char, digits: string)
    requires (mark == 'x' || mark == 'X') && digits != ""
    requires forall i | 0 <= i < |digits| ::
               '0' <= digits[i] <= '9' || 'a' <= digits[i] <= 'f' || 'A' <= digits[i] <= 'F'
    ensures StrTo(['0', mark] + digits, 0) == Some(Value(digits, 16)) && IsWord(['0', mark] + digits)
  {
    var s := ['0', mark] + digits;
    HexDigits(digits);
    assert s[2..] == digits && s[2] == digits[0];
    StrToPrefixed(s, 0, 2, 16);
    MarkedHexIsWord(mark, digits);
  }

  lemma {:induction false} MarkedHexIsWord(mark: char, digits: string)
    requires mark == 'x' || mark == 'X'
    requires forall i | 0 <= i < |digits| ::
               '0' <= digits[i] <= '9' || 'a' <= digits[i] <= 'f' || 'A' <= digits[i] <= 'F'
    ensures IsWord(['0', mark] + digits)
  {
  }

  /** The digits of a number, with letters in lower or in upper case. */
  function Hexadecimal(n: nat, upper: bool): string {
    var digit := if n % 16 < 10 then '0' + (n % 16) as char
                 else if upper then 'A' + (n % 16 - 10) as char else 'a' + (n % 16 - 10) as char;
    if n < 16 then [digit] else Hexadecimal(n / 16, upper) + [digit]
  }

  /** Any number can be written in hexadecimal. */
  lemma {:induction false} HexadecimalIsForm(n: nat, mark: char, upper: bool)
    requires mark == 'x' || mark == 'X'
    ensures RawFormOk(InHex(mark, Hexadecimal(n, upper)), n)
  {
    var s := Hexadecimal(n, upper);
    if n < 16 {
      assert s[..0] == "";
    } else {
      HexadecimalIsForm(n / 16, mark, upper);
      assert s[..|s| - 1] == Hexadecimal(n / 16, upper);
    }
  }

  lemma {:induction false} RawReads(form: RawForm, n: nat)
    requires RawFormOk(form, n)
    ensures StrTo(RawText(form, n), 0) == Some(n) && IsWord(RawText(form, n))
  {
    match form
    case InDecimal => PaddedDecimal(0, n); assert Zeros(0) + Decimal(n) == Decimal(n);
    case InHex(mark, digits) => MarkedHexReads(mark, digits);
    case InOctal(digits) => OctalReads(digits);
  }

  // ---- one row ------------------------------------------------------------------------------------------

  lemma {:induction false} StoiPadded(k: nat, n: nat)
    ensures Stoi(Zeros(k) + Decimal(n)) == if n <= 2_147_483_647 then Some(n) else None
    ensures IsWord(Zeros(k) + Decimal(n))
  {
    PaddedDecimal(k, n);
  }

  lemma {:induction false} StoullPadded(k: nat, n: nat)
    ensures Stoull(Zeros(k) + Decimal(n)) == if n <= 18_446_744_073_709_551_615 then Some(n) else None
  {
    PaddedDecimal(k, n);
  }

  lemma {:induction false} StollRaw(form: RawForm, n: nat)
    requires RawFormOk(form, n)
    ensures Stoll(RawText(form, n), 0) == if n <= 9_223_372_036_854_775_807 then Some(n) else None
  {
    RawReads(form, n);
  }

  lemma {:induction false} ThresholdPadded(k: nat, n: nat)
    ensures Threshold(Zeros(k) + Decimal(n)) == if n <= 2_147_483_647 then Some(n) else None
  {
    StoiPadded(k, n);
    PaddedDecimal(k, n);
    assert IsDigit((Zeros(k) + Decimal(n))[0]) && !IsDigit("---"[0]);
  }

  predicate AllWords(words: seq<string>) {
    forall w | w in words :: IsWord(w)
  }

  lemma {:induction false} PaddedIsWord(k: nat, n: nat)
    ensures IsWord(Zeros(k) + Decimal(n))
  {
    PaddedDecimal(k, n);
  }

  lemma {:induction false} LeftAreWords(r: Row)
    requires r.Row? && LayoutOk(r)
    ensures AllWords(Left(r))
  {
    var a, l := r.attribute, r.layout;
    PaddedIsWord(l.idZeros, a.id);
    PaddedIsWord(l.valueZeros, a.value);
    PaddedIsWord(l.worstZeros, a.worst);
    PaddedIsWord(l.thresholdZeros, a.threshold);
    assert IsWord("---");
  }

  lemma {:induction false} TokensAreWords(r: Row)
    requires r.Row? && LayoutOk(r)
    ensures AllWords(Tokens(r))
  {
    LeftAreWords(r);
    RawReads(r.layout.raw, r.attribute.rawVal);
  }

  lemma {:induction false} ThresholdParses(r: Row)
    requires r.Row? && LayoutOk(r)
    ensures Threshold(Tokens(r)[5])
            == if r.attribute.threshold <= 2_147_483_647 then Some(r.attribute.threshold) else None
  {
    if !r.layout.dashes { ThresholdPadded(r.layout.thresholdZeros, r.attribute.threshold); }
  }

  lemma {:induction false} NumbersParse(r: Row)
    requires r.Row? && LayoutOk(r)
    ensures Stoi(Tokens(r)[3]) == if r.attribute.value <= 2_147_483_647 then Some(r.attribute.value) else None
    ensures Stoi(Tokens(r)[4]) == if r.attribute.worst <= 2_147_483_647 then Some(r.attribute.worst) else None
  {
    StoiPadded(r.layout.valueZeros, r.attribute.value);
    StoiPadded(r.layout.worstZeros, r.attribute.worst);
  }

  lemma {:induction false} EndsParse(r: Row)
    requires r.Row? && LayoutOk(r)
    ensures Stoull(Tokens(r)[0])
            == if r.attribute.id <= 18_446_744_073_709_551_615 then Some(r.attribute.id) else None
    ensures Stoll(Tokens(r)[9], 0)
            == if r.attribute.rawVal <= 9_223_372_036_854_775_807 then Some(r.attribute.rawVal) else None
  {
    StoullPadded(r.layout.idZeros, r.attribute.id);
    StollRaw(r.layout.raw, r.attribute.rawVal);
  }

  lemma {:induction false} TokensParse(r: Row)
    requires r.Row? && LayoutOk(r)
    ensures RowAttribute(Tokens(r)) == Shown(r)
  {
    ThresholdParses(r);
    NumbersParse(r);
    EndsParse(r);
    assert Tokens(r)[1] == r.attribute.name;
  }

  lemma {:induction false} RowWords(r: Row)
    requires r.Row? && LayoutOk(r)
    ensures Words(Trim(RowText(r))) == Tokens(r)
  {
    TokensAreWords(r);
    WordsOfSpread(Tokens(r), r.layout.gaps);
    WordsAfterSpaces(r.layout.lead, Spread(Tokens(r), r.layout.gaps));
    TrimWords(RowText(r));
  }

  /**
   A line reads back as the attribute it was rendered from, with the identifier cut to 8 bits, whatever the notation of
   the raw value; one with a number that does not fit, or of fewer than ten words, reads as nothing.
   */
  lemma {:induction false} RowParses(r: Row)
    requires RowOk(r)
    ensures ParsedRow(Trim(RowText(r))) == Shown(r)
    ensures Trim(RowText(r)) != ""
  {
    SimplifiedKeepsWords(Trim(RowText(r)));
    if r.Row? {
      RowWords(r);
      TokensParse(r);
    } else {
      TrimWords(r.text);
    }
  }

  // ---- the table ----------------------------------------------------------------------------------------

  predicate RowsOk(rows: seq<Row>) {
    forall i | 0 <= i < |rows| :: RowOk(rows[i])
  }

  function RowTexts(rows: seq<Row>): seq<string>
    requires RowsOk(rows)
  {
    seq(|rows|, i requires 0 <= i < |rows| => RowText(rows[i]))
  }

  /** The attributes the lines stand for, in order. */
  function Attributes(rows: seq<Row>): seq<Attribute> {
    if rows == [] then []
    else (if Shown(rows[0]).Some? then [Shown(rows[0]).value] else []) + Attributes(rows[1..])
  }

  lemma {:induction false} RowTextsHead(rows: seq<Row>)
    requires rows != [] && RowsOk(rows)
    ensures Trimmed(RowTexts(rows)) == [Trim(RowText(rows[0]))] + Trimmed(RowTexts(rows[1..]))
  {
  }

  lemma {:induction false} TableHead(row: string, rest: seq<string>)
    ensures TableAttributes([row] + rest)
            == (if ParsedRow(row).Some? then [ParsedRow(row).value] else []) + TableAttributes(rest)
  {
    assert ([row] + rest)[1..] == rest;
  }

  lemma {:induction false} RowsParse(rows: seq<Row>)
    requires RowsOk(rows)
    ensures TableAttributes(Trimmed(RowTexts(rows))) == Attributes(rows)
    ensures forall i | 0 <= i < |rows| :: Trimmed(RowTexts(rows))[i] != ""
  {
    if rows != [] {
      RowTextsHead(rows);
      RowParses(rows[0]);
      TableHead(Trim(RowText(rows[0])), Trimmed(RowTexts(rows[1..])));
      RowsParse(rows[1..]);
    }
  }

  lemma {:induction false} FromHeaderSkips(before: seq<string>, rest: seq<string>)
    requires forall i | 0 <= i < |before| :: before[i] != ATA_HEADER
    ensures FromHeader(before + [ATA_HEADER] + rest) == [ATA_HEADER] + rest
  {
    var lines := before + [ATA_HEADER] + rest;
    if before == [] {
      assert lines == [ATA_HEADER] + rest;
    } else {
      assert lines[1..] == before[1..] + [ATA_HEADER] + rest;
      FromHeaderSkips(before[1..], rest);
    }
  }

  lemma {:induction false} TakeFilledStops(rows: seq<string>, rest: seq<string>)
    requires (forall i | 0 <= i < |rows| :: rows[i] != "") && (rest == [] || rest[0] == "")
    ensures TakeFilled(rows + rest) == rows
  {
    if rows == [] {
      assert rows + rest == rest;
    } else {
      assert (rows + rest)[1..] == rows[1..] + rest;
      TakeFilledStops(rows[1..], rest);
    }
  }

  lemma {:induction false} DropFrontKeepsRows(lines: seq<string>)
    ensures TableRows(DropFront(lines)) == TableRows(lines)
    ensures forall l | l in DropFront(lines) :: l in lines
  {
    if lines != [] && lines[0] == "" {
      DropFrontKeepsRows(lines[1..]);
    }
  }

  lemma {:induction false} FromHeaderSnoc(lines: seq<string>)
    ensures FromHeader(lines + [""]) == if FromHeader(lines) == [] then [] else FromHeader(lines) + [""]
  {
    if lines == [] {
      assert (lines + [""])[1..] == [];
    } else {
      assert (lines + [""])[1..] == lines[1..] + [""];
      FromHeaderSnoc(lines[1..]);
    }
  }

  lemma {:induction false} TakeFilledSnoc(lines: seq<string>)
    ensures TakeFilled(lines + [""]) == TakeFilled(lines)
  {
    if lines != [] {
      assert (lines + [""])[1..] == lines[1..] + [""];
      TakeFilledSnoc(lines[1..]);
    }
  }

  lemma {:induction false} RowsSnoc(lines: seq<string>)
    ensures TableRows(lines + [""]) == TableRows(lines)
  {
    FromHeaderSnoc(lines);
    var table := FromHeader(lines);
    if |table| >= 2 {
      assert Tail(Tail(table + [""])) == Tail(Tail(table)) + [""];
      TakeFilledSnoc(Tail(Tail(table)));
    } else if |table| == 1 {
      assert Tail(Tail(table + [""])) == [];
    }
  }

  lemma {:induction false} DropBackKeepsRows(lines: seq<string>)
    ensures TableRows(DropBack(lines)) == TableRows(lines)
    ensures forall l | l in DropBack(lines) :: l in lines
  {
    if lines != [] && lines[|lines| - 1] == "" {
      var init := lines[..|lines| - 1];
      assert lines == init + [""];
      RowsSnoc(init);
      DropBackKeepsRows(init);
    }
  }

  /** The whole output: some lines, the header, the column titles, the table, and what follows a blank line. */
  function Output(before: seq<string>, header: string, titles: string, rows: seq<Row>, after: seq<string>): seq<string>
    requires RowsOk(rows)
  {
    before + [header, titles] + RowTexts(rows) + after
  }

  lemma {:induction false} OutputLines(before: seq<string>, header: string, titles: string, rows: seq<Row>,
      after: seq<string>)
    requires RowsOk(rows)
    ensures Trimmed(Output(before, header, titles, rows, after))
            == Trimmed(before) + [Trim(header)] + ([Trim(titles)] + (Trimmed(RowTexts(rows)) + Trimmed(after)))
  {
    var texts := RowTexts(rows);
    TrimmedConcat(before + [header, titles] + texts, after);
    TrimmedConcat(before + [header, titles], texts);
    TrimmedConcat(before, [header, titles]);
    assert Trimmed([header, titles]) == [Trim(header)] + [Trim(titles)];
    Associate(Trimmed(before), [Trim(header)], [Trim(titles)]);
    Associate(Trimmed(before) + [Trim(header)], [Trim(titles)], Trimmed(texts));
    Associate(Trimmed(before) + [Trim(header)], [Trim(titles)] + Trimmed(texts), Trimmed(after));
    Associate([Trim(titles)], Trimmed(texts), Trimmed(after));
  }

  lemma {:induction false} OutputRows(before: seq<string>, header: string, titles: string, rows: seq<Row>,
      after: seq<string>)
    requires RowsOk(rows)
    requires forall l | l in before :: Trim(l) != ATA_HEADER
    requires Trim(header) == ATA_HEADER && (after == [] || Trim(after[0]) == "")
    ensures TableRows(Trimmed(Output(before, header, titles, rows, after))) == Trimmed(RowTexts(rows))
  {
    var body := Trimmed(RowTexts(rows)) + Trimmed(after);
    OutputLines(before, header, titles, rows, after);
    forall i | 0 <= i < |before| ensures Trimmed(before)[i] != ATA_HEADER {
      assert before[i] in before;
    }
    FromHeaderSkips(Trimmed(before), [Trim(titles)] + body);
    RowsParse(rows);
    TakeFilledStops(Trimmed(RowTexts(rows)), Trimmed(after));
  }

  /**
   A rendered attribute table reads back as the attributes of those of its lines that stand for one, whatever the
   padding, the notation of the raw values and the text around it, as long as no line is taken for an earlier header or
   for an NVMe section.
   */
  lemma {:induction false} TableRoundTrip(before: seq<string>, header: string, titles: string, rows: seq<Row>,
      after: seq<string>)
    requires RowsOk(rows)
    requires forall l | l in before :: Trim(l) != ATA_HEADER
    requires Trim(header) == ATA_HEADER && (after == [] || Trim(after[0]) == "")
    requires forall l | l in Output(before, header, titles, rows, after) :: IsLine(l) && !Contains(Trim(l), NVME_MARKER)
    ensures ParsedAttributes(Unlines(Output(before, header, titles, rows, after))) == Some(Attributes(rows))
  {
    var output := Output(before, header, titles, rows, after);
    LinesOfUnlines(output);
    var trimmed := Trimmed(output);
    DropFrontKeepsRows(trimmed);
    DropBackKeepsRows(DropFront(trimmed));
    OutputRows(before, header, titles, rows, after);
    RowsParse(rows);
    forall l | l in CleanLines(Unlines(output)) ensures !Contains(l, NVME_MARKER) {
      var i :| 0 <= i < |trimmed| && trimmed[i] == l;
      assert output[i] in output;
    }
  }
}
