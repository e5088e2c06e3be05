/** Rendering an NVMe health section the way smartctl does, and reading it back. */
module NvmeSection {
  import opened Wrappers
  import opened Text
  import opened OutputParsersUtils
  import opened Simplify
  import opened NvmeParser
  import opened NvmeHealth
  import opened SmartCtlOutputParser

  /** A line of the section: `key:`, a gap, the value, with blanks around it; or some text with no key. */
  datatype Row = Row(key: string, val: string, lead: string, gap: string, trail: string) | Scrap(text: string)

  /** Words with one space between them. */
  predicate Tidy(s: string) {
    s != "" && !IsSpace(s[0]) && !IsSpace(s[|s| - 1]) && IsTidy(s)
  }

  predicate AllGaps(s: string) {
    forall i | 0 <= i < |s| :: s[i] == ' ' || s[i] == '\t'
  }

  /** The blanks that may stand around a line. */
  predicate AllBlank(s: string) {
    forall c | c in s :: c == ' ' || c == '\t' || c == '\r'
  }

  predicate RowOk(r: Row) {
    match r
    case Row(_, _, _, _, _) =>
      && Tidy(r.key) && ':' !in r.key && Tidy(r.val)
      && AllBlank(r.lead) && AllGaps(r.gap) && AllBlank(r.trail)
      && IsLine(RowText(r))
    case Scrap(text) => Trim(text) != "" && (':' !in text || Trim(text)[0] == ':') && IsLine(text)
  }

  /** The line without the blanks around it. */
  function Body(r: Row): string {
    if r.Scrap? then Trim(r.text) else r.key + [':'] + (r.gap + r.val)
  }

  function RowText(r: Row): string {
    if r.Scrap? then r.text else r.lead + Body(r) + r.trail
  }

  /** What a line stands for. */
  function Shown(r: Row): seq<Entry> {
    if r.Scrap? then [] else [Entry(r.key, r.val)]
  }

  // ---- one line -----------------------------------------------------------------------------------------

  lemma {:induction false} CollapseTidy(s: string, last: bool)
    requires IsTidy(s)
    requires last ==> s == "" || s[0] != ' '
    ensures Collapse(s, last) == s
  {
    if s != "" {
      assert s == [s[0]] + s[1..];
      assert |s| > 1 ==> s[1..][0] == s[1];
      CollapseTidy(s[1..], s[0] == ' ');
    }
  }

  lemma {:induction false} CollapseGap(gap: string, s: string)
    requires AllGaps(gap)
    ensures Collapse(gap + s, true) == Collapse(s, true)
  {
    if gap == "" {
      assert gap + s == s;
    } else {
      assert (gap + s)[1..] == gap[1..] + s;
      CollapseGap(gap[1..], s);
    }
  }

  lemma {:induction false} SimplifiedTidy(gap: string, s: string)
    requires AllGaps(gap) && Tidy(s)
    ensures Simplified(gap + s) == s
  {
    CollapseGap(gap, s);
    CollapseTidy(s, true);
  }

  lemma {:induction false} TrimFrontChars(s: string)
    ensures forall c | c in TrimFront(s) :: c in s
  {
    if s != "" && IsBlank(s[0]) { TrimFrontChars(s[1..]); }
  }

  lemma {:induction false} TrimBackChars(s: string)
    ensures forall c | c in TrimBack(s) :: c in s
  {
    if s != "" && IsBlank(s[|s| - 1]) { TrimBackChars(s[..|s| - 1]); }
  }

  lemma {:induction false} ScrapParses(text: string)
    requires Trim(text) != "" && (':' !in text || Trim(text)[0] == ':')
    ensures EntryOf(Trim(text)) == []
  {
    TrimFrontChars(text);
    TrimBackChars(TrimFront(text));
    if ':' !in text {
      IndexOfNone(Trim(text), ':');
    } else {
      assert Trim(text)[..0] == "" && Simplified("") == "";
    }
  }

  lemma {:induction false} FilledParses(r: Row)
    requires r.Row? && RowOk(r)
    ensures Trim(RowText(r)) == Body(r) && EntryOf(Body(r)) == [Entry(r.key, r.val)]
  {
    var s := Body(r);
    assert s[0] == r.key[0] && s[|s| - 1] == r.val[|r.val| - 1];
    TrimPadded(r.lead, s, r.trail);
    assert forall j | 0 <= j < |r.key| :: s[j] == r.key[j] && r.key[j] in r.key;
    IndexOfFirst(s, ':', |r.key|);
    assert s[..|r.key|] == "" + r.key && s[|r.key| + 1..] == r.gap + r.val;
    SimplifiedTidy("", r.key);
    SimplifiedTidy(r.gap, r.val);
  }

  lemma {:induction false} RowParses(r: Row)
    requires RowOk(r)
    ensures Trim(RowText(r)) == Body(r) && Body(r) != "" && EntryOf(Body(r)) == Shown(r)
  {
    if r.Scrap? { ScrapParses(r.text); } else { FilledParses(r); }
  }

  // ---- the section --------------------------------------------------------------------------------------

  predicate RowsOk(rows: seq<Row>) {
    forall i | 0 <= i < |rows| :: RowOk(rows[i])
  }

  function Texts(rows: seq<Row>): seq<string> {
    seq(|rows|, i requires 0 <= i < |rows| => RowText(rows[i]))
  }

  /** The entries the lines stand for, in order. */
  function Entries(rows: seq<Row>): seq<Entry> {
    if rows == [] then [] else Shown(rows[0]) + Entries(rows[1..])
  }

  lemma {:induction false} RowsParse(rows: seq<Row>, rest: seq<string>)
    requires RowsOk(rows) && (rest == [] || rest[0] == "")
    ensures EntriesOf(Trimmed(Texts(rows)) + rest) == Entries(rows)
  {
    if rows == [] {
      assert Trimmed(Texts(rows)) + rest == rest;
    } else {
      var more := Trimmed(Texts(rows[1..])) + rest;
      RowParses(rows[0]);
      TextsHead(rows, rest);
      EntriesHead(Body(rows[0]), more);
      RowsParse(rows[1..], rest);
    }
  }

  lemma {:induction false} TextsHead(rows: seq<Row>, rest: seq<string>)
    requires rows != [] && Trim(RowText(rows[0])) == Body(rows[0])
    ensures Trimmed(Texts(rows)) + rest == [Body(rows[0])] + (Trimmed(Texts(rows[1..])) + rest)
  {
    assert Trimmed(Texts(rows)) == [Body(rows[0])] + Trimmed(Texts(rows[1..]));
  }

  lemma {:induction false} EntriesHead(line: string, rest: seq<string>)
    requires line != ""
    ensures EntriesOf([line] + rest) == EntryOf(line) + EntriesOf(rest)
  {
    assert ([line] + rest)[1..] == rest;
  }

  lemma {:induction false} EmptyHasNoMarker()
    ensures !Contains("", NVME_MARKER)
  {
    assert |NVME_MARKER| > 0;
  }

  lemma {:induction false} FromMarkerSkips(before: seq<string>, rest: seq<string>)
    requires forall i | 0 <= i < |before| :: !Contains(before[i], NVME_MARKER)
    requires rest != [] && Contains(rest[0], NVME_MARKER)
    ensures FromMarker(before + rest) == rest
  {
    if before == [] {
      assert before + rest == rest;
    } else {
      assert (before + rest)[1..] == before[1..] + rest;
      FromMarkerSkips(before[1..], rest);
    }
  }

  lemma {:induction false} DropFrontKeepsEntries(lines: seq<string>)
    ensures FromMarker(DropFront(lines)) == FromMarker(lines)
  {
    EmptyHasNoMarker();
    if lines != [] && lines[0] == "" {
      DropFrontKeepsEntries(lines[1..]);
    }
  }

  lemma {:induction false} FromMarkerSnoc(lines: seq<string>)
    ensures FromMarker(lines + [""]) == if FromMarker(lines) == [] then [] else FromMarker(lines) + [""]
  {
    EmptyHasNoMarker();
    if lines == [] {
      assert (lines + [""])[1..] == [];
    } else {
      assert (lines + [""])[1..] == lines[1..] + [""];
      FromMarkerSnoc(lines[1..]);
    }
  }

  lemma {:induction false} EntriesSnoc(lines: seq<string>)
    ensures EntriesOf(lines + [""]) == EntriesOf(lines)
  {
    if lines != [] {
      assert (lines + [""])[1..] == lines[1..] + [""];
      EntriesSnoc(lines[1..]);
    }
  }

  lemma {:induction false} DropBackKeepsEntries(lines: seq<string>)
    ensures HealthEntries(DropBack(lines)) == HealthEntries(lines)
  {
    if lines != [] && lines[|lines| - 1] == "" {
      var init := lines[..|lines| - 1];
      assert lines == init + [""];
      FromMarkerSnoc(init);
      var section := FromMarker(init);
      if section != [] {
        assert Tail(section + [""]) == Tail(section) + [""];
        EntriesSnoc(Tail(section));
      }
      DropBackKeepsEntries(init);
    }
  }

  lemma {:induction false} CleaningKeepsFilled(lines: seq<string>, line: string)
    requires line in lines && line != ""
    ensures line in DropBack(DropFront(lines))
  {
    DropFrontKeepsFilled(lines, line);
    DropBackKeepsFilled(DropFront(lines), line);
  }

  lemma {:induction false} DropFrontKeepsFilled(lines: seq<string>, line: string)
    requires line in lines && line != ""
    ensures line in DropFront(lines)
  {
    if lines[0] == "" {
      DropFrontKeepsFilled(lines[1..], line);
    }
  }

  lemma {:induction false} DropBackKeepsFilled(lines: seq<string>, line: string)
    requires line in lines && line != ""
    ensures line in DropBack(lines)
  {
    if lines[|lines| - 1] == "" {
      assert lines == lines[..|lines| - 1] + [""];
      DropBackKeepsFilled(lines[..|lines| - 1], line);
    }
  }

  /** The whole output: some lines, the header of the section, its lines, and what follows a blank line. */
  function Output(before: seq<string>, header: string, rows: seq<Row>, after: seq<string>): seq<string> {
    before + [header] + Texts(rows) + after
  }

  lemma {:induction false} OutputEntries(before: seq<string>, header: string, rows: seq<Row>, after: seq<string>)
    requires RowsOk(rows) && Contains(Trim(header), NVME_MARKER) && (after == [] || Trim(after[0]) == "")
    requires forall i | 0 <= i < |before| :: !Contains(Trim(before[i]), NVME_MARKER)
    ensures HealthEntries(Trimmed(Output(before, header, rows, after))) == Entries(rows)
  {
    var rest := [Trim(header)] + (Trimmed(Texts(rows)) + Trimmed(after));
    assert Trimmed(Output(before, header, rows, after)) == Trimmed(before) + rest;
    FromMarkerSkips(Trimmed(before), rest);
    assert Tail(rest) == Trimmed(Texts(rows)) + Trimmed(after);
    RowsParse(rows, Trimmed(after));
  }

  /**
   A rendered health section reads back entry by entry, whatever the padding and whatever text surrounds it; lines
   without a colon, or with nothing before it, do not count.  The parser gives those entries as attributes unless a
   value is no 64-bit number.
   */
  lemma {:induction false} SectionRoundTrip(before: seq<string>, header: string, rows: seq<Row>, after: seq<string>)
    requires RowsOk(rows) && Contains(Trim(header), NVME_MARKER) && (after == [] || Trim(after[0]) == "")
    requires forall i | 0 <= i < |before| :: !Contains(Trim(before[i]), NVME_MARKER)
    requires forall l | l in Output(before, header, rows, after) :: IsLine(l)
    ensures ParsedAttributes(Unlines(Output(before, header, rows, after)))
            == if AllParse(Entries(rows)) then Some(Patched(RawAttributes(Entries(rows)))) else None
  {
    var output := Output(before, header, rows, after);
    var trimmed := Trimmed(output);
    LinesOfUnlines(output);
    DropFrontKeepsEntries(trimmed);
    DropBackKeepsEntries(DropFront(trimmed));
    OutputEntries(before, header, rows, after);
    EmptyHasNoMarker();
    assert trimmed[|before|] == Trim(header);
    CleaningKeepsFilled(trimmed, Trim(header));
  }

  /**
   Where a value is a grouped number, the attribute has that number, its position as an 8-bit identifier, and the key
   with underscores as its name; only the spare has a value and a worst, the number cut to 32 bits.
   */
  lemma {:induction false} NumberComesBack(entries: seq<Entry>, i: nat, groups: seq<string>, x: Suffix)
    requires i < |entries| && AllParse(entries) && entries[i].val == Joined(groups, ' ') + SuffixText(x)
    requires groups != [] && forall g | g in groups :: IsGroup(g)
    ensures Value(Flat(groups), 10) <= INT64_MAX
    ensures var n, a, key := Value(Flat(groups), 10), RawAttributes(entries)[i], entries[i].key;
            && a.rawVal == n && a.id == (i + 1) % 256 && a.threshold == 0
            && a.value == a.worst == (if key == "Available Spare" then ToInt32(n) else 0)
            && |a.name| == |key|
            && (forall k | 0 <= k < |key| :: a.name[k] == if key[k] == ' ' then '_' else key[k])
  {
    GroupedValueParses(groups, x);
  }

  /** One value of 2^63 or more, however grouped, makes the whole parse throw. */
  lemma {:induction false} HugeValueThrows(before: seq<string>, header: string, rows: seq<Row>, after: seq<string>,
                                           i: nat, groups: seq<string>, x: Suffix)
    requires RowsOk(rows) && Contains(Trim(header), NVME_MARKER) && (after == [] || Trim(after[0]) == "")
    requires forall i | 0 <= i < |before| :: !Contains(Trim(before[i]), NVME_MARKER)
    requires forall l | l in Output(before, header, rows, after) :: IsLine(l)
    requires i < |Entries(rows)| && Entries(rows)[i].val == Joined(groups, ' ') + SuffixText(x)
    requires groups != [] && (forall g | g in groups :: IsGroup(g)) && Value(Flat(groups), 10) > INT64_MAX
    ensures ParsedAttributes(Unlines(Output(before, header, rows, after))) == None
  {
    SectionRoundTrip(before, header, rows, after);
    GroupedValueParses(groups, x);
  }

  /** A section with the single line `Power Cycles: 9223372036854775808`. */
  lemma {:induction false} HugeOutput() returns (output: string)
    ensures ParsedAttributes(output) == None
  {
    var n: nat := INT64_MAX + 1;
    var row := Row("Power Cycles", Decimal(n), "", " ", "");
    DecimalDigits(n);
    HugeRowOk(row, n);
    OneRowThrows(row, Decimal(n));
    output := Unlines(Output([], NVME_MARKER, [row], []));
  }

  lemma {:induction false} OneEntry(row: Row)
    requires row.Row?
    ensures Entries([row]) == [Entry(row.key, row.val)]
  {
    assert [row][1..] == [];
  }

  lemma {:induction false} OneRowThrows(row: Row, digits: string)
    requires row.Row? && RowOk(row) && row.val == digits && IsGroup(digits) && Value(digits, 10) > INT64_MAX
    ensures ParsedAttributes(Unlines(Output([], NVME_MARKER, [row], []))) == None
  {
    JoinedOne(digits);
    assert OccursAt(NVME_MARKER, NVME_MARKER, 0);
    OneRowLines(row);
    OneEntry(row);
    HugeValueThrows([], NVME_MARKER, [row], [], 0, [digits], Plain);
  }

  lemma {:induction false} HugeRowOk(row: Row, n: nat)
    requires row == Row("Power Cycles", Decimal(n), "", " ", "")
    ensures RowOk(row)
  {
    var digits := Decimal(n);
    DecimalDigits(n);
    DigitsTidy(digits);
    DigitsLine(digits);
    KeyTidy();
    assert RowText(row) == "Power Cycles: " + digits;
    assert '\n' !in "Power Cycles: ";
  }

  lemma {:induction false} KeyTidy()
    ensures Tidy("Power Cycles") && ':' !in "Power Cycles"
  {
  }

  lemma {:induction false} DigitsTidy(digits: string)
    requires digits != "" && AllDigits(digits)
    ensures Tidy(digits)
  {
    assert forall i | 0 <= i < |digits| :: IsDigit(digits[i]);
  }

  lemma {:induction false} DigitsLine(digits: string)
    requires AllDigits(digits)
    ensures IsLine(digits)
  {
    assert forall i | 0 <= i < |digits| :: IsDigit(digits[i]);
  }

  lemma {:induction false} JoinedOne(g: string)
    ensures Joined([g], ' ') + SuffixText(Plain) == g && Flat([g]) == g
  {
    assert [g][1..] == [];
  }

  lemma {:induction false} MarkerIsLine()
    ensures IsLine(NVME_MARKER)
  {
  }

  lemma {:induction false} OneRowLines(row: Row)
    requires IsLine(RowText(row))
    ensures forall l | l in Output([], NVME_MARKER, [row], []) :: IsLine(l)
  {
    MarkerIsLine();
    assert Texts([row]) == [RowText(row)];
    assert Output([], NVME_MARKER, [row], []) == [NVME_MARKER, RowText(row)];
  }
}
