/** LsblkOutputParser.cpp, and the partition lookup of LinuxDiskCollector.cpp. */
module Lsblk {
  import opened Wrappers
  import opened Text
  import opened OutputParsersUtils

  datatype RawEntry = RawEntry(name: string, kind: string, size: int, major: int, minor: int)

  datatype Entry = Entry(name: string, kind: string, size: int, partitions: set<string>, major: int, minor: int)

  function FromRaw(raw: RawEntry): Entry {
    Entry(raw.name, raw.kind, raw.size, {}, raw.major, raw.minor)
  }

  /** parseLine; the name of the device, its numbers `major:minor`, its size and its type are columns 0, 1, 3, 5. */
  function ParsedLine(line: string): Option<RawEntry> {
    var cols := Words(line);
    if |cols| < 6 then None
    else
      var numbers := Split(cols[1], ':');
      if |numbers| != 2 then None
      else
        var size, major, minor := Stoull(cols[3]), Stoi(numbers[0]), Stoi(numbers[1]);
        if size.None? || major.None? || minor.None? then None
        else Some(RawEntry(cols[0], cols[5], size.value, major.value, minor.value))
  }

  predicate IsPrefix(p: string, s: string) {
    |p| <= |s| && s[..|p|] == p
  }

  predicate StartsWithDigit(s: string) {
    s != "" && IsDigit(s[0])
  }

  predicate IsPartitionSuffix(suffix: string) {
    StartsWithDigit(suffix) || (|suffix| > 1 && suffix[0] == 'p' && IsDigit(suffix[1]))
  }

  predicate IsPartitionOfDisk(partition: string, disk: string) {
    && |partition| > |disk|
    && IsPrefix(disk, partition)
    && IsPartitionSuffix(partition[|disk|..])
  }

  /** find_if over the entries. */
  function FirstMatch(entries: seq<Entry>, partition: string): (i: nat)
    ensures i <= |entries|
    ensures i < |entries| ==> IsPartitionOfDisk(partition, entries[i].name)
    ensures forall j | 0 <= j < i :: !IsPartitionOfDisk(partition, entries[j].name)
  {
    if entries == [] || IsPartitionOfDisk(partition, entries[0].name) then 0
    else
      assert forall j | 0 < j <= FirstMatch(entries[1..], partition) ::
        j < |entries| ==> entries[j] == entries[1..][j - 1];
      1 + FirstMatch(entries[1..], partition)
  }

  predicate IsTopLevel(kind: string) {
    kind == "disk" || (kind != "part" && IsPrefix("raid", kind))
  }

  function WithPartition(entries: seq<Entry>, i: nat, partition: string): seq<Entry>
    requires i < |entries|
  {
    entries[i := entries[i].(partitions := entries[i].partitions + {partition})]
  }

  /** What one row does to the entries. */
  function AddRow(entries: seq<Entry>, raw: RawEntry): seq<Entry> {
    if IsTopLevel(raw.kind) then entries + [FromRaw(raw)]
    else if raw.kind != "part" then entries
    else
      var i := FirstMatch(entries, raw.name);
      if i == |entries| then entries else WithPartition(entries, i, raw.name)
  }

  function AddRows(entries: seq<Entry>, raws: seq<RawEntry>): seq<Entry>
    decreases |raws|
  {
    if raws == [] then entries else AddRows(AddRow(entries, raws[0]), raws[1..])
  }

  /** The rows that parse. */
  function RawEntries(lines: seq<string>): seq<RawEntry> {
    if lines == [] then []
    else
      var raw := if lines[0] == "" then None else ParsedLine(lines[0]);
      (if raw.Some? then [raw.value] else []) + RawEntries(lines[1..])
  }

  /** The rows below the header. */
  function Rows(output: string): seq<RawEntry> {
    var lines := CleanLines(output);
    RawEntries(if lines == [] then [] else lines[1..])
  }

  /** The search loop. */
  method FindDisk(entries: seq<Entry>, partition: string) returns (i: nat)
    ensures i == FirstMatch(entries, partition)
  {
    i := 0;
    while i < |entries| && !IsPartitionOfDisk(partition, entries[i].name)
      invariant i <= |entries|
      invariant i + FirstMatch(entries[i..], partition) == FirstMatch(entries, partition)
    {
      assert entries[i..][1..] == entries[i + 1..];
      i := i + 1;
    }
  }

  /** The body of the parse loop. */
  method ParseRow(entries: seq<Entry>, raw: RawEntry) returns (result: seq<Entry>)
    ensures result == AddRow(entries, raw)
  {
    result := entries;
    if raw.kind == "disk" {
      result := result + [FromRaw(raw)];
    } else if raw.kind == "part" {
      var i := FindDisk(entries, raw.name);
      if i != |entries| {
        result := result[i := result[i].(partitions := result[i].partitions + {raw.name})];
      }
    } else if IsPrefix("raid", raw.kind) {
      result := result + [FromRaw(raw)];
    }
  }

  /** One step of RawEntries, done on the entries. */
  lemma {:induction false} AddLine(entries: seq<Entry>, lines: seq<string>)
    requires lines != []
    ensures var raw := if lines[0] == "" then None else ParsedLine(lines[0]);
            AddRows(entries, RawEntries(lines))
            == AddRows(if raw.Some? then AddRow(entries, raw.value) else entries, RawEntries(lines[1..]))
  {
    var raw := if lines[0] == "" then None else ParsedLine(lines[0]);
    if raw.Some? {
      assert ([raw.value] + RawEntries(lines[1..]))[1..] == RawEntries(lines[1..]);
    } else {
      assert [] + RawEntries(lines[1..]) == RawEntries(lines[1..]);
    }
  }

  method Parse(output: string) returns (entries: seq<Entry>)
    ensures entries == AddRows([], Rows(output))
  {
    entries := [];
    var lines := Clean(output);
    if lines != [] {
      lines := lines[1..];
    }
    while lines != []
      invariant AddRows(entries, RawEntries(lines)) == AddRows([], Rows(output))
      decreases |lines|
    {
      AddLine(entries, lines);
      if lines[0] != "" {
        var raw := ParsedLine(lines[0]);
        if raw.Some? {
          entries := ParseRow(entries, raw.value);
        }
      }
      lines := lines[1..];
    }
  }

  /** The pairs the two lookups of the collector range over, in order: an entry that lists the device. */
  function FirstHolder(entries: seq<Entry>, device: string): (i: nat)
    ensures i <= |entries|
    ensures i < |entries| ==> device in entries[i].partitions
    ensures forall j | 0 <= j < i :: device !in entries[j].partitions
  {
    if entries == [] || device in entries[0].partitions then 0
    else
      assert forall j | 0 < j <= FirstHolder(entries[1..], device) ::
        j < |entries| ==> entries[j] == entries[1..][j - 1];
      1 + FirstHolder(entries[1..], device)
  }

  predicate IsListed(entries: seq<Entry>, device: string) {
    FirstHolder(entries, device) < |entries|
  }

  function DiskOf(entries: seq<Entry>, device: string): string {
    var i := FirstHolder(entries, device);
    if i < |entries| then entries[i].name else ""
  }

  method IsPartition(entries: seq<Entry>, device: string) returns (found: bool)
    ensures found <==> exists i :: 0 <= i < |entries| && device in entries[i].partitions
    ensures found <==> IsListed(entries, device)
  {
    for i := 0 to |entries|
      invariant forall j | 0 <= j < i :: device !in entries[j].partitions
    {
      if device in entries[i].partitions {
        return true;
      }
    }
    found := false;
  }

  method DiskForPartition(entries: seq<Entry>, device: string) returns (disk: string)
    ensures disk == DiskOf(entries, device)
  {
    for i := 0 to |entries|
      invariant forall j | 0 <= j < i :: device !in entries[j].partitions
    {
      if device in entries[i].partitions {
        assert FirstHolder(entries, device) == i;
        return entries[i].name;
      }
    }
    disk := "";
  }

  // ---- where partitions land ----------------------------------------------------------------------------

  /** A partition sits in the first entry that matches it, if anywhere, and every name is a word. */
  ghost predicate Filed(entries: seq<Entry>) {
    && (forall i | 0 <= i < |entries| :: entries[i].name != "")
    && (forall i, p | 0 <= i < |entries| && p in entries[i].partitions :: FirstMatch(entries, p) == i)
  }

  lemma {:induction false} FirstMatchAppend(entries: seq<Entry>, e: Entry, p: string)
    requires FirstMatch(entries, p) < |entries|
    ensures FirstMatch(entries + [e], p) == FirstMatch(entries, p)
  {
    var i, k := FirstMatch(entries, p), FirstMatch(entries + [e], p);
    assert (entries + [e])[i] == entries[i];
    assert k <= i;
  }

  predicate SameNames(a: seq<Entry>, b: seq<Entry>) {
    |a| == |b| && forall i | 0 <= i < |a| :: a[i].name == b[i].name
  }

  lemma {:induction false} FirstMatchNames(a: seq<Entry>, b: seq<Entry>, p: string)
    requires SameNames(a, b)
    ensures FirstMatch(a, p) == FirstMatch(b, p)
  {
    var i, k := FirstMatch(a, p), FirstMatch(b, p);
    assert i <= k && k <= i;
  }

  lemma {:induction false} AddRowFiled(entries: seq<Entry>, raw: RawEntry)
    requires Filed(entries) && raw.name != ""
    ensures Filed(AddRow(entries, raw))
  {
    var after := AddRow(entries, raw);
    if IsTopLevel(raw.kind) {
      forall i, p | 0 <= i < |after| && p in after[i].partitions ensures FirstMatch(after, p) == i {
        FirstMatchAppend(entries, FromRaw(raw), p);
      }
    } else {
      forall i, p | 0 <= i < |after| && p in after[i].partitions ensures FirstMatch(after, p) == i {
        FirstMatchNames(entries, after, p);
      }
    }
  }

  predicate Named(raws: seq<RawEntry>) {
    forall i | 0 <= i < |raws| :: raws[i].name != ""
  }

  lemma {:induction false} AddRowsFiled(entries: seq<Entry>, raws: seq<RawEntry>)
    requires Filed(entries) && Named(raws)
    ensures Filed(AddRows(entries, raws))
    decreases |raws|
  {
    if raws != [] {
      AddRowFiled(entries, raws[0]);
      AddRowsFiled(AddRow(entries, raws[0]), raws[1..]);
    }
  }

  lemma {:induction false} WordsAreWords(s: string)
    ensures forall i | 0 <= i < |Words(s)| :: IsWord(Words(s)[i])
    decreases |s|
  {
    if s != "" {
      WordsAreWords(if IsSpace(s[0]) then s[1..] else s[WordLength(s)..]);
    }
  }

  lemma {:induction false} RowsNamed(lines: seq<string>)
    ensures Named(RawEntries(lines))
  {
    if lines != [] {
      WordsAreWords(lines[0]);
      RowsNamed(lines[1..]);
    }
  }

  /**
   However often its row repeats and whatever else is listed, a partition is in at most one entry, that is the
   first one whose disk it matches, `diskForPartition` returns its name, and `isPartition` agrees.
   */
  lemma {:induction false} PartitionsAreFiled(output: string, device: string)
    ensures var entries := AddRows([], Rows(output));
            && (forall i | 0 <= i < |entries| && device in entries[i].partitions :: i == FirstMatch(entries, device))
            && (IsListed(entries, device) ==> DiskOf(entries, device) == entries[FirstMatch(entries, device)].name)
            && (IsListed(entries, device) <==> DiskOf(entries, device) != "")
  {
    var lines := CleanLines(output);
    RowsNamed(if lines == [] then [] else lines[1..]);
    AddRowsFiled([], Rows(output));
  }

  // ---- which partitions are listed ----------------------------------------------------------------------

  /** Entries, and with them partitions, are only ever added. */
  predicate Extends(a: seq<Entry>, b: seq<Entry>) {
    |a| <= |b| && forall i | 0 <= i < |a| :: a[i].name == b[i].name && a[i].partitions <= b[i].partitions
  }

  lemma {:induction false} AddRowsExtends(entries: seq<Entry>, raws: seq<RawEntry>)
    ensures Extends(entries, AddRows(entries, raws))
    decreases |raws|
  {
    if raws != [] {
      AddRowsExtends(AddRow(entries, raws[0]), raws[1..]);
    }
  }

  /** A partition is listed exactly when one of its rows comes below a disk it matches. */
  lemma {:induction false} ListedExactly(entries: seq<Entry>, raws: seq<RawEntry>, p: string)
    requires FirstHolder(entries, p) == |entries|
    ensures IsListed(AddRows(entries, raws), p)
            <==> exists k :: 0 <= k < |raws| && FilesAt(entries, raws, p, k)
    decreases |raws|
  {
    if raws != [] {
      var next, rest := AddRow(entries, raws[0]), raws[1..];
      if FilesAt(entries, raws, p, 0) {
        FiledIsListed(entries, raws, p);
      } else {
        NotFiledYet(entries, raws, p);
        ListedExactly(next, rest, p);
        if k :| 0 <= k < |raws| && FilesAt(entries, raws, p, k) {
          FilesLater(entries, raws, p, k - 1);
        }
        if k :| 0 <= k < |rest| && FilesAt(next, rest, p, k) {
          FilesLater(entries, raws, p, k);
        }
      }
    }
  }

  lemma {:induction false} FiledIsListed(entries: seq<Entry>, raws: seq<RawEntry>, p: string)
    requires raws != [] && FilesAt(entries, raws, p, 0)
    ensures IsListed(AddRows(entries, raws), p)
  {
    var i, next := FirstMatch(entries, p), AddRow(entries, raws[0]);
    assert raws[..0] == [];
    assert p in next[i].partitions;
    AddRowsExtends(next, raws[1..]);
    assert p in AddRows(entries, raws)[i].partitions;
  }

  lemma {:induction false} NotFiledYet(entries: seq<Entry>, raws: seq<RawEntry>, p: string)
    requires raws != [] && FirstHolder(entries, p) == |entries| && !FilesAt(entries, raws, p, 0)
    ensures FirstHolder(AddRow(entries, raws[0]), p) == |AddRow(entries, raws[0])|
  {
    assert raws[..0] == [];
  }

  lemma {:induction false} FilesLater(entries: seq<Entry>, raws: seq<RawEntry>, p: string, k: nat)
    requires k + 1 < |raws|
    ensures FilesAt(AddRow(entries, raws[0]), raws[1..], p, k) <==> FilesAt(entries, raws, p, k + 1)
  {
    assert raws[..k + 1][1..] == raws[1..][..k] && raws[..k + 1][0] == raws[0];
  }

  /** Row `k` is a row of partition `p`, and some disk above it matches. */
  predicate FilesAt(entries: seq<Entry>, raws: seq<RawEntry>, p: string, k: int)
    requires 0 <= k < |raws|
  {
    && raws[k].kind == "part" && raws[k].name == p
    && var above := AddRows(entries, raws[..k]);
       FirstMatch(above, p) < |above|
  }

  // ---- the listing, row by row ----------------------------------------------------------------------------

  predicate IsDevice(raw: RawEntry) {
    raw.kind == "disk" || (|raw.kind| >= 4 && raw.kind[..4] == "raid")
  }

  /** The rows of disks and RAID volumes. */
  function Devices(raws: seq<RawEntry>): seq<RawEntry> {
    if raws == [] then []
    else
      var n := |raws| - 1;
      Devices(raws[..n]) + if IsDevice(raws[n]) then [raws[n]] else []
  }

  lemma {:induction false} AddRowsSnoc(entries: seq<Entry>, raws: seq<RawEntry>, raw: RawEntry)
    ensures AddRows(entries, raws + [raw]) == AddRow(AddRows(entries, raws), raw)
    decreases |raws|
  {
    if raws == [] {
      assert ([] + [raw])[1..] == [];
    } else {
      assert (raws + [raw])[1..] == raws[1..] + [raw];
      AddRowsSnoc(AddRow(entries, raws[0]), raws[1..], raw);
    }
  }

  lemma {:induction false} LastRow(raws: seq<RawEntry>)
    requires raws != []
    ensures AddRows([], raws) == AddRow(AddRows([], raws[..|raws| - 1]), raws[|raws| - 1])
  {
    AddRowsSnoc([], raws[..|raws| - 1], raws[|raws| - 1]);
    assert raws == raws[..|raws| - 1] + [raws[|raws| - 1]];
  }

  /** The entry and the row are about the same device. */
  predicate EntryOf(e: Entry, raw: RawEntry) {
    e.name == raw.name && e.kind == raw.kind && e.size == raw.size && e.major == raw.major && e.minor == raw.minor
  }

  lemma {:induction false} DeviceIsTopLevel(raw: RawEntry)
    ensures IsTopLevel(raw.kind) <==> IsDevice(raw)
    ensures IsDevice(raw) ==> raw.kind != "part"
  {
    assert "part"[0] == 'p' && "raid"[0] == 'r' && |"raid"| == 4;
    assert "disk"[0] == 'd';
  }

  /** The entries are the disks and RAID volumes of the listing, in its order. */
  lemma {:induction false} EntriesAreDevices(raws: seq<RawEntry>)
    ensures |AddRows([], raws)| == |Devices(raws)|
    ensures forall i | 0 <= i < |Devices(raws)| :: EntryOf(AddRows([], raws)[i], Devices(raws)[i])
  {
    if raws != [] {
      EntriesAreDevices(raws[..|raws| - 1]);
      LastRow(raws);
      DeviceIsTopLevel(raws[|raws| - 1]);
    }
  }

  /** A partition's name is its disk's name followed by a digit, or by `p` and a digit, and by anything after that. */
  lemma {:induction false} MatchExactly(partition: string, disk: string)
    ensures IsPartitionOfDisk(partition, disk)
            <==> exists suffix :: partition == disk + suffix && suffix != "" &&
                   ('0' <= suffix[0] <= '9' || (suffix[0] == 'p' && |suffix| > 1 && '0' <= suffix[1] <= '9'))
  {
    if IsPartitionOfDisk(partition, disk) {
      assert partition == disk + partition[|disk|..];
    }
    if suffix :| partition == disk + suffix && suffix != "" &&
                   ('0' <= suffix[0] <= '9' || (suffix[0] == 'p' && |suffix| > 1 && '0' <= suffix[1] <= '9')) {
      assert partition[|disk|..] == suffix && partition[..|disk|] == disk;
    }
  }

  /** Among the first devices of the listing, device `i` is the first one whose partition `p` can be. */
  predicate FirstDevice(raws: seq<RawEntry>, p: string, i: int) {
    && 0 <= i < |Devices(raws)| && IsPartitionOfDisk(p, Devices(raws)[i].name)
    && forall j | 0 <= j < i :: !IsPartitionOfDisk(p, Devices(raws)[j].name)
  }

  /** Row `k` is one of partition `p`, and device `i` is above it. */
  predicate ListedBelow(raws: seq<RawEntry>, p: string, i: int, k: int) {
    0 <= k < |raws| && raws[k].kind == "part" && raws[k].name == p && i < |Devices(raws[..k])|
  }

  lemma {:induction false} DevicesOfPrefix(raws: seq<RawEntry>, k: nat)
    requires k <= |raws|
    ensures Devices(raws[..k]) <= Devices(raws)
  {
    if k < |raws| {
      var n := |raws| - 1;
      DevicesOfPrefix(raws[..n], k);
      assert raws[..n][..k] == raws[..k];
    } else {
      assert raws[..k] == raws;
    }
  }

  lemma {:induction false} BelowSnoc(raws: seq<RawEntry>, p: string, i: nat)
    requires raws != []
    ensures var n := |raws| - 1;
            (exists k :: ListedBelow(raws, p, i, k))
            <==> (exists k :: ListedBelow(raws[..n], p, i, k)) || ListedBelow(raws, p, i, n)
  {
    var n := |raws| - 1;
    forall k | 0 <= k < n ensures ListedBelow(raws, p, i, k) <==> ListedBelow(raws[..n], p, i, k) {
      assert raws[..n][..k] == raws[..k];
    }
  }

  lemma {:induction false} MatchesAlike(raws: seq<RawEntry>, p: string, i: nat)
    requires i < |Devices(raws)|
    ensures FirstMatch(AddRows([], raws), p) == i <==> FirstDevice(raws, p, i)
  {
    EntriesAreDevices(raws);
  }

  /**
   A partition is in the entry of a device exactly when the device is the first of the listing whose partition it can
   be, and a row of the partition comes below the device's row.
   */
  lemma {:induction false} FiledExactly(raws: seq<RawEntry>, p: string, i: nat)
    requires i < |Devices(raws)|
    ensures |AddRows([], raws)| == |Devices(raws)|
    ensures p in AddRows([], raws)[i].partitions
            <==> FirstDevice(raws, p, i) && exists k :: ListedBelow(raws, p, i, k)
  {
    var n := |raws| - 1;
    var init, last := raws[..n], raws[n];
    EntriesAreDevices(raws);
    EntriesAreDevices(init);
    LastRow(raws);
    DeviceIsTopLevel(last);
    BelowSnoc(raws, p, i);
    if i < |Devices(init)| {
      FiledExactly(init, p, i);
      SameFirst(raws, p, i);
      MatchesAlike(init, p, i);
    } else {
      NothingBelowLast(raws, p, i);
    }
  }

  lemma {:induction false} SameFirst(raws: seq<RawEntry>, p: string, i: nat)
    requires raws != [] && i < |Devices(raws[..|raws| - 1])|
    ensures FirstDevice(raws, p, i) <==> FirstDevice(raws[..|raws| - 1], p, i)
  {
  }

  lemma {:induction false} NothingBelowLast(raws: seq<RawEntry>, p: string, i: nat)
    requires raws != [] && i >= |Devices(raws[..|raws| - 1])|
    ensures forall k :: !ListedBelow(raws, p, i, k)
  {
    forall k | 0 <= k < |raws| ensures |Devices(raws[..k])| <= i {
      DevicesOfPrefix(raws[..|raws| - 1], k);
      assert raws[..|raws| - 1][..k] == raws[..k];
    }
  }

  // ---- when the match is unique -------------------------------------------------------------------------

  /** A disk name continued like this matches some partition of the shorter disk. */
  predicate Ambiguous(extension: string) {
    StartsWithDigit(extension) || extension == "p" || (|extension| > 1 && extension[0] == 'p' && IsDigit(extension[1]))
  }

  lemma {:induction false} ExtensionWitness(shorter: string, extension: string) returns (partition: string)
    requires extension != "" && Ambiguous(extension)
    ensures IsPartitionOfDisk(partition, shorter) && IsPartitionOfDisk(partition, shorter + extension)
  {
    var longer := shorter + extension;
    partition := longer + "1";
    assert partition[..|longer|] == longer && partition[|longer|..] == "1";
    assert partition[..|shorter|] == shorter && partition[|shorter|..] == extension + "1";
  }

  /** Two names, one continuing the other, share a partition exactly when the continuation is ambiguous. */
  lemma {:induction false} SharedPartition(shorter: string, extension: string, partition: string)
    requires extension != ""
    requires IsPartitionOfDisk(partition, shorter) && IsPartitionOfDisk(partition, shorter + extension)
    ensures Ambiguous(extension)
  {
    var longer := shorter + extension;
    var suffix := partition[|shorter|..];
    assert suffix[..|extension|] == extension by {
      assert partition[..|longer|][|shorter|..] == extension;
    }
    assert suffix[0] == extension[0];
    if |extension| > 1 {
      assert suffix[1] == extension[1];
    } else {
      assert extension == [extension[0]];
    }
  }

  lemma {:induction false} PrefixesOfOneName(a: string, b: string, partition: string) returns (extension: string)
    requires IsPrefix(a, partition) && IsPrefix(b, partition) && |a| <= |b|
    ensures b == a + extension
  {
    extension := b[|a|..];
    assert b[..|a|] == partition[..|b|][..|a|];
    assert b == b[..|a|] + b[|a|..];
  }

  ghost predicate SharePartition(a: string, b: string) {
    exists p :: IsPartitionOfDisk(p, a) && IsPartitionOfDisk(p, b)
  }

  /** `b` is `a` continued by a digit, by `p` alone, or by `p` and a digit. */
  predicate Continues(a: string, b: string) {
    |a| < |b| && IsPrefix(a, b) && Ambiguous(b[|a|..])
  }

  /** Two different disks can claim the same partition exactly when one name continues the other ambiguously. */
  lemma {:induction false} MatchUniqueExactly(a: string, b: string)
    requires a != b
    ensures SharePartition(a, b) <==> Continues(a, b) || Continues(b, a)
  {
    if SharePartition(a, b) {
      var p :| IsPartitionOfDisk(p, a) && IsPartitionOfDisk(p, b);
      if |a| <= |b| { SharedExtension(a, b, p); } else { SharedExtension(b, a, p); }
    }
    if Continues(a, b) {
      assert b == a + b[|a|..];
      var p := ExtensionWitness(a, b[|a|..]);
    }
    if Continues(b, a) {
      assert a == b + a[|b|..];
      var p := ExtensionWitness(b, a[|b|..]);
    }
  }

  lemma {:induction false} SharedExtension(a: string, b: string, p: string)
    requires a != b && |a| <= |b| && IsPartitionOfDisk(p, a) && IsPartitionOfDisk(p, b)
    ensures Continues(a, b)
  {
    var extension := PrefixesOfOneName(a, b, p);
    assert a + "" == a;
    SharedPartition(a, extension, p);
    assert b[|a|..] == extension;
  }

  /** Without ambiguous names, the entry a partition is filed under is the only one with a name it matches. */
  lemma {:induction false} OnlyMatch(output: string, device: string, i: nat, j: nat)
    requires var entries := AddRows([], Rows(output));
             && i < |entries| && j < |entries| && device in entries[i].partitions
             && IsPartitionOfDisk(device, entries[j].name)
             && forall k, m | 0 <= k < |entries| && 0 <= m < |entries| :: !Continues(entries[k].name, entries[m].name)
    ensures var entries := AddRows([], Rows(output));
            entries[i].name == entries[j].name && DiskOf(entries, device) == entries[j].name
  {
    var entries := AddRows([], Rows(output));
    PartitionsAreFiled(output, device);
    if entries[i].name != entries[j].name {
      MatchUniqueExactly(entries[i].name, entries[j].name);
    }
  }
}
