/** DmesgParser.cpp: the disks a kernel log reports errors of. */
module DmesgParser {
  import opened Text
  import opened OutputParsersUtils
  import opened Lsblk

  /** The devices the error patterns capture in a line, in pattern order. */
  type Patterns = string -> seq<string>

  type ErrorMap = map<string, set<string>>

  /** Every pattern holds some literal text, so none matches the empty line. */
  predicate NeedText(patterns: Patterns) {
    patterns("") == []
  }

  function PhysicalDevice(entries: seq<Entry>, device: string): string {
    if IsListed(entries, device) && DiskOf(entries, device) != "" then DiskOf(entries, device) else device
  }

  /** Entry `i` is the first one that lists the device. */
  predicate ListsFirst(entries: seq<Entry>, i: int, device: string) {
    0 <= i < |entries| && device in entries[i].partitions && forall j | 0 <= j < i :: device !in entries[j].partitions
  }

  /** An error of the device counts for the disk whose entry lists it first, and for the device if none does. */
  ghost predicate ChargedTo(entries: seq<Entry>, device: string, disk: string) {
    || (exists i :: ListsFirst(entries, i, device) && entries[i].name != "" && disk == entries[i].name)
    || (disk == device && forall i | ListsFirst(entries, i, device) :: entries[i].name == "")
  }

  lemma {:induction false} ChargedExactly(entries: seq<Entry>, device: string, disk: string)
    ensures ChargedTo(entries, device, disk) <==> disk == PhysicalDevice(entries, device)
  {
    var n := FirstHolder(entries, device);
    assert forall i | ListsFirst(entries, i, device) :: i == n;
    assert n < |entries| ==> ListsFirst(entries, n, device);
  }

  method PhysicalDeviceFor(entries: seq<Entry>, device: string) returns (disk: string)
    ensures disk == PhysicalDevice(entries, device)
    ensures forall i | ListsFirst(entries, i, device) ::
              disk == if entries[i].name == "" then device else entries[i].name
    ensures (forall i | 0 <= i < |entries| :: device !in entries[i].partitions) ==> disk == device
  {
    var known := IsPartition(entries, device);
    if known {
      var physical := DiskForPartition(entries, device);
      disk := if physical == "" then device else physical;
    } else {
      disk := device;
    }
    ChargedExactly(entries, device, disk);
  }

  function Lookup(errors: ErrorMap, disk: string): set<string> {
    if disk in errors then errors[disk] else {}
  }

  /** errors[disk].insert(line) */
  function Insert(errors: ErrorMap, disk: string, line: string): ErrorMap {
    errors[disk := Lookup(errors, disk) + {line}]
  }

  /** The disks of the first `n` captures in a line. */
  function DisksOf(patterns: Patterns, entries: seq<Entry>, line: string): set<string> {
    set k | 0 <= k < |patterns(line)| :: PhysicalDevice(entries, patterns(line)[k])
  }

  /** The lines that report a disk. */
  function Reports(patterns: Patterns, entries: seq<Entry>, lines: seq<string>, disk: string): set<string> {
    set line | line in lines && disk in DisksOf(patterns, entries, line)
  }

  /** A map that holds exactly the disks reported in the lines, each with exactly the lines that report it. */
  ghost predicate Collects(errors: ErrorMap, patterns: Patterns, entries: seq<Entry>, lines: seq<string>) {
    forall disk :: Agrees(errors, disk, Reports(patterns, entries, lines, disk))
  }

  predicate Agrees(errors: ErrorMap, disk: string, reports: set<string>) {
    Lookup(errors, disk) == reports && (disk in errors <==> reports != {})
  }

  /** There is only one such map. */
  lemma {:induction false} CollectedMapIsUnique(a: ErrorMap, b: ErrorMap, patterns: Patterns, entries: seq<Entry>,
      lines: seq<string>)
    requires Collects(a, patterns, entries, lines) && Collects(b, patterns, entries, lines)
    ensures a == b
  {
    forall disk ensures disk in a <==> disk in b {
      assert Agrees(a, disk, Reports(patterns, entries, lines, disk));
      assert Agrees(b, disk, Reports(patterns, entries, lines, disk));
    }
    forall disk | disk in a ensures a[disk] == b[disk] {
      assert Agrees(a, disk, Reports(patterns, entries, lines, disk));
      assert Agrees(b, disk, Reports(patterns, entries, lines, disk));
    }
  }

  /** The inner loop of `parse`, on one line. */
  function LineErrors(errors: ErrorMap, entries: seq<Entry>, devices: seq<string>, line: string): ErrorMap
    decreases |devices|
  {
    if devices == [] then errors
    else LineErrors(Insert(errors, PhysicalDevice(entries, devices[0]), line), entries, devices[1..], line)
  }

  function LinesErrors(errors: ErrorMap, patterns: Patterns, entries: seq<Entry>, lines: seq<string>): ErrorMap
    decreases |lines|
  {
    if lines == [] then errors
    else LinesErrors(LineErrors(errors, entries, patterns(lines[0]), lines[0]), patterns, entries, lines[1..])
  }

  function ParsedErrors(output: string, patterns: Patterns, entries: seq<Entry>): ErrorMap {
    LinesErrors(map[], patterns, entries, CleanLines(output))
  }

  method ParseLine(errors: ErrorMap, line: string, patterns: Patterns, entries: seq<Entry>) returns (result: ErrorMap)
    ensures result == LineErrors(errors, entries, patterns(line), line)
  {
    result := errors;
    var devices := patterns(line);
    while devices != []
      invariant LineErrors(result, entries, devices, line) == LineErrors(errors, entries, patterns(line), line)
      decreases |devices|
    {
      var disk := PhysicalDeviceFor(entries, devices[0]);
      result := Insert(result, disk, line);
      devices := devices[1..];
    }
  }

  method Parse(output: string, patterns: Patterns, entries: seq<Entry>) returns (errors: ErrorMap)
    ensures errors == ParsedErrors(output, patterns, entries)
  {
    errors := map[];
    var lines := Clean(output);
    while lines != []
      invariant LinesErrors(errors, patterns, entries, lines) == ParsedErrors(output, patterns, entries)
      decreases |lines|
    {
      errors := ParseLine(errors, lines[0], patterns, entries);
      lines := lines[1..];
    }
  }

  // ---- what the map holds -------------------------------------------------------------------------------

  predicate Captured(entries: seq<Entry>, devices: seq<string>, disk: string) {
    exists k :: 0 <= k < |devices| && PhysicalDevice(entries, devices[k]) == disk
  }

  lemma {:induction false} LineErrorsAt(errors: ErrorMap, entries: seq<Entry>, devices: seq<string>, line: string,
      disk: string)
    ensures var after := LineErrors(errors, entries, devices, line);
            && Lookup(after, disk) == Lookup(errors, disk) + (if Captured(entries, devices, disk) then {line} else {})
            && (disk in after <==> disk in errors || Captured(entries, devices, disk))
    decreases |devices|
  {
    if devices != [] {
      var first := PhysicalDevice(entries, devices[0]);
      assert Captured(entries, devices, disk) <==> first == disk || Captured(entries, devices[1..], disk) by {
        if Captured(entries, devices, disk) && first != disk {
          var k :| 0 <= k < |devices| && PhysicalDevice(entries, devices[k]) == disk;
          assert devices[1..][k - 1] == devices[k];
        }
        if Captured(entries, devices[1..], disk) {
          var k :| 0 <= k < |devices[1..]| && PhysicalDevice(entries, devices[1..][k]) == disk;
          assert devices[1..][k] == devices[k + 1];
        }
      }
      LineErrorsAt(Insert(errors, first, line), entries, devices[1..], line, disk);
    }
  }

  lemma {:induction false} ReportsHead(patterns: Patterns, entries: seq<Entry>, lines: seq<string>, disk: string)
    requires lines != []
    ensures Reports(patterns, entries, lines, disk)
            == (if disk in DisksOf(patterns, entries, lines[0]) then {lines[0]} else {})
               + Reports(patterns, entries, lines[1..], disk)
  {
    assert lines == [lines[0]] + lines[1..];
  }

  lemma {:induction false} LinesErrorsAt(errors: ErrorMap, patterns: Patterns, entries: seq<Entry>, lines: seq<string>,
      disk: string)
    ensures var after := LinesErrors(errors, patterns, entries, lines);
            var reports := Reports(patterns, entries, lines, disk);
            && Lookup(after, disk) == Lookup(errors, disk) + reports
            && (disk in after <==> disk in errors || reports != {})
    decreases |lines|
  {
    if lines != [] {
      LineErrorsAt(errors, entries, patterns(lines[0]), lines[0], disk);
      ReportsHead(patterns, entries, lines, disk);
      LinesErrorsAt(LineErrors(errors, entries, patterns(lines[0]), lines[0]), patterns, entries, lines[1..], disk);
    }
  }

  lemma {:induction false} DropFrontReports(patterns: Patterns, entries: seq<Entry>, lines: seq<string>, disk: string)
    requires NeedText(patterns)
    ensures Reports(patterns, entries, DropFront(lines), disk) == Reports(patterns, entries, lines, disk)
  {
    if lines != [] && lines[0] == "" {
      ReportsHead(patterns, entries, lines, disk);
      DropFrontReports(patterns, entries, lines[1..], disk);
    }
  }

  lemma {:induction false} ReportsConcat(patterns: Patterns, entries: seq<Entry>, a: seq<string>, b: seq<string>,
      disk: string)
    ensures Reports(patterns, entries, a + b, disk)
            == Reports(patterns, entries, a, disk) + Reports(patterns, entries, b, disk)
  {
  }

  lemma {:induction false} DropBackReports(patterns: Patterns, entries: seq<Entry>, lines: seq<string>, disk: string)
    requires NeedText(patterns)
    ensures Reports(patterns, entries, DropBack(lines), disk) == Reports(patterns, entries, lines, disk)
  {
    if lines != [] && lines[|lines| - 1] == "" {
      var init := lines[..|lines| - 1];
      assert lines == init + [""];
      ReportsConcat(patterns, entries, init, [""], disk);
      ReportsHead(patterns, entries, [""], disk);
      assert [""][1..] == [];
      DropBackReports(patterns, entries, init, disk);
    }
  }

  /** The map holds exactly the lines that report a disk; the empty lines `clean` drops at the ends do not count. */
  lemma {:induction false} ParsedErrorsCollect(output: string, patterns: Patterns, entries: seq<Entry>)
    requires NeedText(patterns)
    ensures Collects(ParsedErrors(output, patterns, entries), patterns, entries, Trimmed(Lines(output)))
  {
    var lines := Trimmed(Lines(output));
    forall disk ensures Agrees(ParsedErrors(output, patterns, entries), disk, Reports(patterns, entries, lines, disk)) {
      LinesErrorsAt(map[], patterns, entries, CleanLines(output), disk);
      DropFrontReports(patterns, entries, lines, disk);
      DropBackReports(patterns, entries, DropFront(lines), disk);
    }
  }
}

/** LinGeneralAnalyzer.cpp: errors accumulate over journal readings and are replaced by dmesg readings. */
module LinGeneralAnalyzer {
  import opened Health
  import opened Text
  import opened OutputParsersUtils
  import opened Lsblk
  import opened DmesgParser

  datatype CommandResult = CommandResult(output: string, success: bool)

  /** What `Refresh` reads: the journal, which gives what is new, or on the fallback the whole ring buffer. */
  datatype Reading = Journal(output: string) | Fallback(output: string)

  function Merge(errors: ErrorMap, more: ErrorMap): ErrorMap {
    map disk | disk in errors.Keys + more.Keys :: Lookup(errors, disk) + Lookup(more, disk)
  }

  lemma {:induction false} MergeStep(errors: ErrorMap, more: ErrorMap, disk: string)
    requires disk in more
    ensures Merge(errors[disk := Lookup(errors, disk) + more[disk]], more - {disk}) == Merge(errors, more)
  {
    var a, b := Merge(errors[disk := Lookup(errors, disk) + more[disk]], more - {disk}), Merge(errors, more);
    assert a.Keys == b.Keys;
    forall d | d in a ensures a[d] == b[d] {
    }
  }

  lemma {:induction false} MergeNothing(errors: ErrorMap)
    ensures Merge(errors, map[]) == errors
  {
    assert forall disk | disk in errors :: Merge(errors, map[])[disk] == errors[disk];
  }

  /** The merging loop of `Refresh`; the order of the disks does not matter. */
  method MergeAll(errors: ErrorMap, more: ErrorMap) returns (result: ErrorMap)
    ensures result == Merge(errors, more)
  {
    result := errors;
    var rest, left := more, more.Keys;
    while left != {}
      invariant left == rest.Keys
      invariant Merge(result, rest) == Merge(errors, more)
      decreases left
    {
      var disk :| disk in left;
      MergeStep(result, rest, disk);
      result := result[disk := Lookup(result, disk) + rest[disk]];
      rest, left := rest - {disk}, left - {disk};
    }
    MergeNothing(result);
    assert rest == map[];
  }

  function AfterReading(errors: ErrorMap, reading: Reading, patterns: Patterns, entries: seq<Entry>): ErrorMap {
    match reading
    case Journal(output) => Merge(errors, ParsedErrors(output, patterns, entries))
    case Fallback(output) => ParsedErrors(output, patterns, entries)
  }

  function AfterReadings(readings: seq<Reading>, patterns: Patterns, entries: seq<Entry>): ErrorMap {
    if readings == [] then map[]
    else
      var n := |readings| - 1;
      AfterReading(AfterReadings(readings[..n], patterns, entries), readings[n], patterns, entries)
  }

  function DiskStatus(errors: ErrorMap, disk: string): Health {
    if disk in errors then Bad else Good
  }

  // ---- a run of refreshes is one parse ------------------------------------------------------------------

  /** Two outputs joined on a line boundary. */
  function Join(a: string, b: string): string {
    if a == "" || a[|a| - 1] == '\n' then a + b else a + "\n" + b
  }

  lemma {:induction false} LinesJoin(a: string, b: string)
    ensures Lines(Join(a, b)) == Lines(a) + Lines(b)
  {
    if a == "" || a[|a| - 1] == '\n' {
      LinesConcat(a, b);
    } else {
      LinesConcat(a + "\n", b);
      FinalNewline(a);
    }
  }

  /** The last fallback output and all journal outputs since. */
  function SinceFallback(readings: seq<Reading>): string {
    if readings == [] then ""
    else
      var n := |readings| - 1;
      match readings[n]
      case Fallback(output) => output
      case Journal(output) => Join(SinceFallback(readings[..n]), output)
  }

  lemma {:induction false} MergeParsed(a: string, b: string, patterns: Patterns, entries: seq<Entry>)
    requires NeedText(patterns)
    ensures Merge(ParsedErrors(a, patterns, entries), ParsedErrors(b, patterns, entries))
            == ParsedErrors(Join(a, b), patterns, entries)
  {
    var merged := Merge(ParsedErrors(a, patterns, entries), ParsedErrors(b, patterns, entries));
    var linesA, linesB, lines := Trimmed(Lines(a)), Trimmed(Lines(b)), Trimmed(Lines(Join(a, b)));
    ParsedErrorsCollect(a, patterns, entries);
    ParsedErrorsCollect(b, patterns, entries);
    ParsedErrorsCollect(Join(a, b), patterns, entries);
    LinesJoin(a, b);
    assert lines == linesA + linesB;
    forall disk ensures Agrees(merged, disk, Reports(patterns, entries, lines, disk)) {
      ReportsConcat(patterns, entries, linesA, linesB, disk);
      assert Agrees(ParsedErrors(a, patterns, entries), disk, Reports(patterns, entries, linesA, disk));
      assert Agrees(ParsedErrors(b, patterns, entries), disk, Reports(patterns, entries, linesB, disk));
    }
    CollectedMapIsUnique(merged, ParsedErrors(Join(a, b), patterns, entries), patterns, entries, lines);
  }

  /** Incremental equals batch. */
  lemma {:induction false} RunEqualsBatch(readings: seq<Reading>, patterns: Patterns, entries: seq<Entry>)
    requires NeedText(patterns)
    ensures AfterReadings(readings, patterns, entries) == ParsedErrors(SinceFallback(readings), patterns, entries)
  {
    if readings != [] {
      var n := |readings| - 1;
      RunEqualsBatch(readings[..n], patterns, entries);
      match readings[n] {
        case Fallback(output) =>
        case Journal(output) => MergeParsed(SinceFallback(readings[..n]), output, patterns, entries);
      }
    }
  }

  /** Some line of the output names a device whose errors count for the disk. */
  ghost predicate Mentions(output: string, patterns: Patterns, entries: seq<Entry>, disk: string) {
    exists line :: line in Trimmed(Lines(output)) &&
      exists device :: device in patterns(line) && ChargedTo(entries, device, disk)
  }

  lemma {:induction false} NamedIn(patterns: Patterns, entries: seq<Entry>, line: string, disk: string)
    ensures disk in DisksOf(patterns, entries, line)
            <==> exists device :: device in patterns(line) && ChargedTo(entries, device, disk)
  {
    forall device ensures ChargedTo(entries, device, disk) <==> disk == PhysicalDevice(entries, device) {
      ChargedExactly(entries, device, disk);
    }
    if device :| device in patterns(line) && ChargedTo(entries, device, disk) {
      var k :| 0 <= k < |patterns(line)| && patterns(line)[k] == device;
    }
  }

  lemma {:induction false} ParsedMentions(output: string, patterns: Patterns, entries: seq<Entry>, disk: string)
    requires NeedText(patterns)
    ensures disk in ParsedErrors(output, patterns, entries) <==> Mentions(output, patterns, entries, disk)
  {
    var lines := Trimmed(Lines(output));
    ParsedErrorsCollect(output, patterns, entries);
    var reports := Reports(patterns, entries, lines, disk);
    assert Agrees(ParsedErrors(output, patterns, entries), disk, reports);
    forall line | line in lines
      ensures line in reports <==> exists device :: device in patterns(line) && ChargedTo(entries, device, disk)
    {
      NamedIn(patterns, entries, line, disk);
    }
    if reports != {} {
      var line :| line in reports;
    }
  }

  /** A disk is bad exactly when some line since the last fallback names a device whose errors count for it. */
  lemma {:induction false} BadExactly(readings: seq<Reading>, patterns: Patterns, entries: seq<Entry>, disk: string)
    requires NeedText(patterns)
    ensures DiskStatus(AfterReadings(readings, patterns, entries), disk) == Bad
            <==> Mentions(SinceFallback(readings), patterns, entries, disk)
  {
    RunEqualsBatch(readings, patterns, entries);
    ParsedMentions(SinceFallback(readings), patterns, entries, disk);
  }

  lemma {:induction false} AfterOneMore(readings: seq<Reading>, reading: Reading, patterns: Patterns,
      entries: seq<Entry>)
    ensures AfterReadings(readings + [reading], patterns, entries)
            == AfterReading(AfterReadings(readings, patterns, entries), reading, patterns, entries)
  {
    assert (readings + [reading])[..|readings + [reading]| - 1] == readings;
  }

  /** One more reading keeps a bad disk bad exactly when it is no fallback, or the fallback reports the disk again. */
  lemma {:induction false} StaysBadExactly(readings: seq<Reading>, reading: Reading, patterns: Patterns,
      entries: seq<Entry>, disk: string)
    requires NeedText(patterns) && DiskStatus(AfterReadings(readings, patterns, entries), disk) == Bad
    ensures DiskStatus(AfterReadings(readings + [reading], patterns, entries), disk) == Bad
            <==> reading.Journal? || Mentions(reading.output, patterns, entries, disk)
  {
    AfterOneMore(readings, reading, patterns, entries);
    ParsedMentions(reading.output, patterns, entries, disk);
  }

  /**
   So "once a disk reports an error it stays BAD for the lifetime of the agent process" is not so: after any readings,
   one failure of journalctl with nothing left in the ring buffer forgets every error.
   */
  lemma {:induction false} BadCanBeForgotten(readings: seq<Reading>, output: string, patterns: Patterns,
      entries: seq<Entry>, disk: string)
    requires NeedText(patterns) && Mentions(output, patterns, entries, disk)
    ensures DiskStatus(AfterReadings(readings + [Journal(output)], patterns, entries), disk) == Bad
    ensures DiskStatus(AfterReadings(readings + [Journal(output)] + [Fallback("")], patterns, entries), disk) == Good
  {
    AfterOneMore(readings, Journal(output), patterns, entries);
    AfterOneMore(readings + [Journal(output)], Fallback(""), patterns, entries);
    ParsedMentions(output, patterns, entries, disk);
    ParsedMentions("", patterns, entries, disk);
  }

  /** A line the kernel logs, without the time stamp; the last error pattern captures the device in it. */
  const KERNEL_LINE := "EXT4-fs error " + "(device sda): " + "ext4_lookup:1855"

  lemma {:induction false} OneLine(text: string)
    requires text != "" && IsLine(text) && !IsBlank(text[0]) && !IsBlank(text[|text| - 1])
    ensures Trimmed(Lines(text)) == [text]
  {
    IndexOfNone(text, '\n');
    assert Trim(text) == text;
  }

  lemma {:induction false} KernelLineIsLine()
    ensures IsLine(KERNEL_LINE) && !IsBlank(KERNEL_LINE[0]) && !IsBlank(KERNEL_LINE[|KERNEL_LINE| - 1])
  {
    var head, middle, end := "EXT4-fs error ", "(device sda): ", "ext4_lookup:1855";
    assert KERNEL_LINE == head + middle + end;
    assert IsLine(head) && IsLine(middle) && IsLine(end);
    assert KERNEL_LINE[0] == head[0] && KERNEL_LINE[|KERNEL_LINE| - 1] == end[|end| - 1];
  }

  /** For instance: a file-system error on sda, read from the journal once and gone with the next refresh. */
  lemma {:induction false} ErrorOnSdaIsForgotten(patterns: Patterns)
    requires NeedText(patterns) && patterns(KERNEL_LINE) == ["sda"]
    ensures DiskStatus(AfterReadings([] + [Journal(KERNEL_LINE)], patterns, []), "sda") == Bad
    ensures DiskStatus(AfterReadings([] + [Journal(KERNEL_LINE)] + [Fallback("")], patterns, []), "sda") == Good
  {
    KernelLineIsLine();
    MentionsOwnLine(KERNEL_LINE, patterns, "sda");
    BadCanBeForgotten([], KERNEL_LINE, patterns, [], "sda");
  }

  lemma {:induction false} MentionsOwnLine(line: string, patterns: Patterns, disk: string)
    requires line != "" && IsLine(line) && !IsBlank(line[0]) && !IsBlank(line[|line| - 1]) && patterns(line) == [disk]
    ensures Mentions(line, patterns, [], disk)
  {
    OneLine(line);
    assert line in Trimmed(Lines(line)) && disk in patterns(line) && ChargedTo([], disk, disk);
  }

  /**
   An error of a partition makes its disk bad: the one whose entry lists the partition first.
   */
  lemma {:induction false} PartitionErrorIsDisks(readings: seq<Reading>, patterns: Patterns, entries: seq<Entry>,
      line: string, partition: string, i: nat)
    requires NeedText(patterns) && line in Trimmed(Lines(SinceFallback(readings))) && partition in patterns(line)
    requires i < |entries| && partition in entries[i].partitions && entries[i].name != ""
    requires forall j | 0 <= j < i :: partition !in entries[j].partitions
    ensures DiskStatus(AfterReadings(readings, patterns, entries), entries[i].name) == Bad
  {
    assert ListsFirst(entries, i, partition);
    assert ChargedTo(entries, partition, entries[i].name);
    BadExactly(readings, patterns, entries, entries[i].name);
  }

  /**
   In the terms of the listing: if a row of the partition comes below the row of the first device whose partition it can
   be, its errors make that device bad.
   */
  lemma {:induction false} ListedPartitionErrorIsDisks(readings: seq<Reading>, patterns: Patterns, listing: string,
      line: string, partition: string, i: nat, k: nat)
    requires NeedText(patterns) && line in Trimmed(Lines(SinceFallback(readings))) && partition in patterns(line)
    requires FirstDevice(Rows(listing), partition, i) && ListedBelow(Rows(listing), partition, i, k)
    ensures DiskStatus(AfterReadings(readings, patterns, AddRows([], Rows(listing))), Devices(Rows(listing))[i].name)
            == Bad
  {
    var raws, entries := Rows(listing), AddRows([], Rows(listing));
    var lines := CleanLines(listing);
    RowsNamed(if lines == [] then [] else lines[1..]);
    AddRowsFiled([], raws);
    EntriesAreDevices(raws);
    FiledExactly(raws, partition, i);
    forall j: nat | j < i ensures partition !in entries[j].partitions {
      FiledExactly(raws, partition, j);
    }
    PartitionErrorIsDisks(readings, patterns, entries, line, partition, i);
  }

  /** Between fallbacks no line is forgotten, so a bad disk stays bad. */
  lemma {:induction false} BadStaysBad(readings: seq<Reading>, more: seq<Reading>, patterns: Patterns,
      entries: seq<Entry>, disk: string)
    requires forall i | 0 <= i < |more| :: more[i].Journal?
    ensures var before := AfterReadings(readings, patterns, entries);
            var after := AfterReadings(readings + more, patterns, entries);
            && Lookup(before, disk) <= Lookup(after, disk)
            && (DiskStatus(before, disk) == Bad ==> DiskStatus(after, disk) == Bad)
    decreases |more|
  {
    if more == [] {
      assert readings + more == readings;
    } else {
      var init := more[..|more| - 1];
      assert (readings + more)[..|readings + more| - 1] == readings + init;
      assert (readings + more)[|readings + more| - 1] == more[|more| - 1];
      BadStaysBad(readings, init, patterns, entries, disk);
    }
  }

  // ---- the probe ----------------------------------------------------------------------------------------

  class LinGeneralAnalyzer {
    var errors: ErrorMap
    ghost var readings: seq<Reading>  // what the refreshes have read so far
    const entries: seq<Entry>
    const useJournalctl: bool
    const patterns: Patterns

    ghost predicate Valid()
      reads this
    {
      NeedText(patterns) && errors == AfterReadings(readings, patterns, entries)
    }

    constructor (entries: seq<Entry>, useJournalctl: bool, patterns: Patterns)
      requires NeedText(patterns)
      ensures Valid() && readings == []
      ensures this.entries == entries && this.useJournalctl == useJournalctl && this.patterns == patterns
    {
      errors := map[];
      readings := [];
      this.entries, this.useJournalctl, this.patterns := entries, useJournalctl, patterns;
    }

    /** The two command results are what the commands would print now; dmesg's is only used on the fallback. */
    method Refresh(journal: CommandResult, dmesg: CommandResult)
      requires Valid()
      modifies this
      ensures Valid()
      ensures readings == old(readings) + [if useJournalctl && journal.success then Journal(journal.output)
                                           else Fallback(dmesg.output)]
    {
      var usedJournalctl := useJournalctl && journal.success;
      var output := if usedJournalctl then journal.output else dmesg.output;
      ghost var reading := if usedJournalctl then Journal(output) else Fallback(output);
      AfterOneMore(readings, reading, patterns, entries);
      var newErrors := DmesgParser.Parse(output, patterns, entries);
      if usedJournalctl {
        errors := MergeAll(errors, newErrors);
      } else {
        errors := newErrors;
      }
      readings := readings + [reading];
    }

    /** Bad exactly if some line read since the last fallback reports the disk, and good otherwise. */
    method GetStatus(disk: string) returns (status: Health)
      requires Valid()
      ensures status == if Mentions(SinceFallback(readings), patterns, entries, disk) then Bad else Good
    {
      BadExactly(readings, patterns, entries, disk);
      status := if disk in errors then Bad else Good;
    }
  }
}
