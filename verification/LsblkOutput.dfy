/** Rendering devices the way lsblk does, and reading them back. */
module LsblkOutput {
  import opened Wrappers
  import opened Text
  import opened OutputParsersUtils
  import opened Lsblk

  /** The columns the parser ignores, and the blanks. */
  datatype Layout = Layout(removable: string, readOnly: string, mounts: seq<string>, lead: string, gaps: seq<string>)

  /** A line below the header: a device, or text of fewer than six words, an empty line for instance. */
  datatype Row = Row(raw: RawEntry, layout: Layout) | Scrap(text: string)

  /** The numbers of a device are natural, but need not fit where the parser puts them. */
  predicate RawOk(raw: RawEntry) {
    IsWord(raw.name) && IsWord(raw.kind) && 0 <= raw.size && 0 <= raw.major && 0 <= raw.minor
  }

  /** The limits of `unsigned long long` and `int`. */
  predicate Fits(raw: RawEntry) {
    raw.size <= 18_446_744_073_709_551_615 && raw.major <= 2_147_483_647 && raw.minor <= 2_147_483_647
  }

  function Numbers(major: nat, minor: nat): string {
    Decimal(major) + ":" + Decimal(minor)
  }

  function Tokens(r: Row): seq<string>
    requires r.Row? && RawOk(r.raw)
  {
    [r.raw.name, Numbers(r.raw.major, r.raw.minor), r.layout.removable, Decimal(r.raw.size),
     r.layout.readOnly, r.raw.kind]
    + r.layout.mounts
  }

  predicate LayoutOk(r: Row)
    requires r.Row?
  {
    var l := r.layout;
    && RawOk(r.raw) && IsWord(l.removable) && IsWord(l.readOnly) && (forall w | w in l.mounts :: IsWord(w))
    && |l.gaps| == 6 + |l.mounts| && GapsOk(l.gaps) && AllSpaces(l.lead)
  }

  predicate RowOk(r: Row) {
    match r
    case Row(_, _) => LayoutOk(r) && IsLine(RowText(r))
    case Scrap(text) => IsLine(text) && |Words(text)| < 6
  }

  function RowText(r: Row): string
    requires r.Row? ==> RawOk(r.raw) && |r.layout.gaps| == 6 + |r.layout.mounts|
  {
    if r.Scrap? then r.text else r.layout.lead + Spread(Tokens(r), r.layout.gaps)
  }

  /** What a line stands for: its device if the numbers fit, and otherwise nothing. */
  function Shown(r: Row): Option<RawEntry> {
    if r.Row? && Fits(r.raw) then Some(r.raw) else None
  }

  lemma {:induction false} DecimalReads(n: nat)
    ensures IsWord(Decimal(n)) && AllDigits(Decimal(n)) && StrTo(Decimal(n), 10) == Some(n)
  {
    PaddedDecimal(0, n);
    assert Zeros(0) + Decimal(n) == Decimal(n);
  }

  lemma {:induction false} NumberReads(n: nat)
    ensures Stoull(Decimal(n)) == if n <= 18_446_744_073_709_551_615 then Some(n) else None
    ensures Stoi(Decimal(n)) == if n <= 2_147_483_647 then Some(n) else None
  {
    DecimalReads(n);
  }

  lemma {:induction false} NumbersSplit(major: nat, minor: nat)
    ensures IsWord(Numbers(major, minor)) && Split(Numbers(major, minor), ':') == [Decimal(major), Decimal(minor)]
  {
    var a, b := Decimal(major), Decimal(minor);
    DecimalReads(major);
    DecimalReads(minor);
    assert forall i | 0 <= i < |a| :: IsDigit(a[i]);
    assert forall i | 0 <= i < |b| :: IsDigit(b[i]);
    assert Numbers(major, minor) == a + [':'] + b;
    SplitFirst(a, ':', b);
    IndexOfNone(b, ':');
  }

  lemma {:induction false} TokensAreWords(r: Row)
    requires r.Row? && LayoutOk(r)
    ensures forall w | w in Tokens(r) :: IsWord(w)
  {
    NumbersSplit(r.raw.major, r.raw.minor);
    DecimalReads(r.raw.size);
  }

  lemma {:induction false} RowWords(r: Row)
    requires r.Row? && LayoutOk(r)
    ensures Words(Trim(RowText(r))) == Tokens(r)
  {
    TokensAreWords(r);
    WordsOfSpread(Tokens(r), r.layout.gaps);
    WordsAfterSpaces(r.layout.lead, Spread(Tokens(r), r.layout.gaps));
    TrimWords(RowText(r));
  }

  lemma {:induction false} TokensParse(line: string, r: Row)
    requires r.Row? && LayoutOk(r) && Words(line) == Tokens(r)
    ensures ParsedLine(line) == Shown(r)
  {
    var raw := r.raw;
    NumbersSplit(raw.major, raw.minor);
    NumberReads(raw.size);
    NumberReads(raw.major);
    NumberReads(raw.minor);
  }

  /** A line reads back as its device, and as nothing if a number does not fit or there are fewer than six words. */
  lemma {:induction false} RowParses(r: Row)
    requires RowOk(r)
    ensures ParsedLine(Trim(RowText(r))) == Shown(r)
    ensures r.Row? ==> Trim(RowText(r)) != ""
  {
    if r.Row? {
      RowWords(r);
      TokensParse(Trim(RowText(r)), r);
    } else {
      TrimWords(r.text);
    }
  }

  predicate RowsOk(rows: seq<Row>) {
    forall i | 0 <= i < |rows| :: RowOk(rows[i])
  }

  function Texts(rows: seq<Row>): seq<string>
    requires RowsOk(rows)
  {
    seq(|rows|, i requires 0 <= i < |rows| => RowText(rows[i]))
  }

  /** The devices the lines stand for, in order. */
  function Raws(rows: seq<Row>): seq<RawEntry> {
    if rows == [] then [] else (if Shown(rows[0]).Some? then [Shown(rows[0]).value] else []) + Raws(rows[1..])
  }

  lemma {:induction false} HeadParses(line: string, lines: seq<string>)
    ensures RawEntries([line] + lines)
            == (if line != "" && ParsedLine(line).Some? then [ParsedLine(line).value] else []) + RawEntries(lines)
  {
    assert ([line] + lines)[1..] == lines;
  }

  lemma {:induction false} TextsHead(rows: seq<Row>)
    requires rows != [] && RowsOk(rows)
    ensures Trimmed(Texts(rows)) == [Trim(RowText(rows[0]))] + Trimmed(Texts(rows[1..]))
  {
  }

  lemma {:induction false} RowsParse(rows: seq<Row>)
    requires RowsOk(rows)
    ensures RawEntries(Trimmed(Texts(rows))) == Raws(rows)
  {
    if rows != [] {
      TextsHead(rows);
      RowParses(rows[0]);
      HeadParses(Trim(RowText(rows[0])), Trimmed(Texts(rows[1..])));
      RowsParse(rows[1..]);
    }
  }

  lemma {:induction false} EmptySnoc(lines: seq<string>)
    ensures RawEntries(lines + [""]) == RawEntries(lines)
  {
    if lines == [] {
      assert (lines + [""])[1..] == [];
    } else {
      assert (lines + [""])[1..] == lines[1..] + [""];
      EmptySnoc(lines[1..]);
    }
  }

  /** The empty lines that are dropped behind a listing are no devices. */
  lemma {:induction false} DropBackKeepsEntries(header: string, lines: seq<string>)
    requires header != ""
    ensures DropBack([header] + lines) == [header] + DropBack(lines)
    ensures RawEntries(DropBack(lines)) == RawEntries(lines)
  {
    if lines != [] && lines[|lines| - 1] == "" {
      var init := lines[..|lines| - 1];
      assert lines == init + [""];
      assert ([header] + lines)[..|lines|] == [header] + init;
      EmptySnoc(init);
      DropBackKeepsEntries(header, init);
    }
  }

  lemma {:induction false} DropFrontBlank(blank: seq<string>, rest: seq<string>)
    requires (forall i | 0 <= i < |blank| :: blank[i] == "") && rest != [] && rest[0] != ""
    ensures DropFront(blank + rest) == rest
  {
    if blank == [] {
      assert blank + rest == rest;
    } else {
      assert (blank + rest)[1..] == blank[1..] + rest;
      DropFrontBlank(blank[1..], rest);
    }
  }

  lemma {:induction false} TextsAreLines(rows: seq<Row>)
    requires RowsOk(rows)
    ensures forall l | l in Texts(rows) :: IsLine(l)
  {
    forall l | l in Texts(rows) ensures IsLine(l) {
      var i :| 0 <= i < |rows| && RowText(rows[i]) == l;
      assert RowOk(rows[i]);
    }
  }

  lemma {:induction false} ListingTrimmed(before: seq<string>, header: string, texts: seq<string>)
    ensures Trimmed(before + [header] + texts) == Trimmed(before) + ([Trim(header)] + Trimmed(texts))
  {
    TrimmedConcat(before + [header], texts);
    TrimmedConcat(before, [header]);
    assert Trimmed([header]) == [Trim(header)];
  }

  /**
   A listing reads back as the devices it lists, whatever the padding and the other columns; empty lines above the
   header, and lines below it that are no device, do not count.
   */
  lemma {:induction false} ListingRoundTrip(before: seq<string>, header: string, rows: seq<Row>)
    requires forall l | l in before :: IsLine(l) && Trim(l) == ""
    requires IsLine(header) && Trim(header) != "" && RowsOk(rows)
    ensures Rows(Unlines(before + [header] + Texts(rows))) == Raws(rows)
  {
    var lines := [Trim(header)] + Trimmed(Texts(rows));
    ListingTrimmed(before, header, Texts(rows));
    TextsAreLines(rows);
    LinesOfUnlines(before + [header] + Texts(rows));
    forall i | 0 <= i < |before| ensures Trimmed(before)[i] == "" {
      assert before[i] in before;
    }
    DropFrontBlank(Trimmed(before), lines);
    DropBackKeepsEntries(Trim(header), Trimmed(Texts(rows)));
    RowsParse(rows);
  }
}
