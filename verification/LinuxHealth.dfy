/** What the Linux agent publishes, traced back to the kernel log and the SMART tables it has read. */
module LinuxHealth {
  import opened Health
  import opened SmartHealth
  import opened Aggregation
  import opened Lsblk
  import opened DmesgParser
  import K = LinGeneralAnalyzer

  /** What is known of the disks: the kernel log since the last fallback, and the cached SMART tables. */
  datatype Evidence = Evidence(
    log: string, patterns: Patterns, entries: seq<Entry>, tables: map<string, seq<Attribute>>)

  /** An attribute of the disk's cached table proves it bad. */
  predicate TableCondemns(e: Evidence, disk: string) {
    disk in e.tables && exists a :: a in e.tables[disk] && AttributeVerdict(a) == Bad
  }

  /** A line of the log reports the disk. */
  ghost predicate LogCondemns(e: Evidence, disk: string) {
    K.Mentions(e.log, e.patterns, e.entries, disk)
  }

  ghost predicate Condemned(e: Evidence, disk: string) {
    LogCondemns(e, disk) || TableCondemns(e, disk)
  }

  ghost function KernelHealth(e: Evidence, disk: string): Health {
    if LogCondemns(e, disk) then Bad else Good
  }

  function SmartHealthOf(e: Evidence, disk: string): Health {
    if disk in e.tables then TableVerdict(e.tables[disk]) else Unknown
  }

  lemma {:induction false} TableIsBadExactly(e: Evidence, disk: string)
    ensures SmartHealthOf(e, disk) == Bad <==> TableCondemns(e, disk)
  {
    if disk in e.tables {
      TableVerdictIsWorstAttribute(e.tables[disk], CheckStatus);
    }
  }

  /** The two probes answer what their GetStatus says. */
  ghost predicate Answers(e: Evidence, disks: seq<string>, kernel: ProbeEntry, smart: ProbeEntry) {
    forall d | d in disks ::
      kernel.cache.Answer(d).health == KernelHealth(e, d) && smart.cache.Answer(d).health == SmartHealthOf(e, d)
  }

  /**
   The published overall health is bad exactly when, for some disk, a line of the kernel log since the last fallback
   reports it or an attribute of its cached SMART table proves it bad.
   */
  lemma {:induction false} OverallBadExactly(e: Evidence, disks: seq<string>, kernel: ProbeEntry, smart: ProbeEntry)
    requires Answers(e, disks, kernel, smart)
    ensures Aggregate(disks, [kernel, smart]).overall == Bad
            <==> exists d :: d in disks && Condemned(e, d)
  {
    var entries := [kernel, smart];
    OverallIsMaximum(disks, entries, CheckStatus);
    forall d | d in disks
      ensures (exists p :: p in entries && p.cache.Answer(d).health == Bad)
              <==> Condemned(e, d)
    {
      TableIsBadExactly(e, d);
      assert kernel in entries && smart in entries;
    }
  }

  /** The same disk by disk. */
  lemma {:induction false} DiskBadExactly(e: Evidence, disk: string, kernel: ProbeEntry, smart: ProbeEntry)
    requires Answers(e, [disk], kernel, smart)
    ensures InfoOf(disk, [kernel, smart]).health == Bad <==> Condemned(e, disk)
  {
    var entries := [kernel, smart];
    DiskHealthIsMaximum(disk, entries, CheckStatus);
    TableIsBadExactly(e, disk);
    assert disk in [disk] && kernel in entries && smart in entries;
  }

  /** What the two probe objects know. */
  ghost function EvidenceOf(kernel: K.LinGeneralAnalyzer, smart: SmartHealthAnalyzer): Evidence
    reads kernel, smart
  {
    Evidence(K.SinceFallback(kernel.readings), kernel.patterns, kernel.entries, smart.cachedSmartData)
  }

  /** Asks the kernel-log probe about every disk. */
  method AskKernel(kernel: K.LinGeneralAnalyzer, disks: seq<string>) returns (cache: ProbeCache)
    requires kernel.Valid()
    ensures forall d | d in disks ::
              cache.Answer(d).health
              == if K.Mentions(K.SinceFallback(kernel.readings), kernel.patterns, kernel.entries, d) then Bad else Good
  {
    var answers: map<string, ProbeStatus> := map[];
    for i := 0 to |disks|
      invariant forall d | d in disks[..i] ::
                  && d in answers
                  && answers[d].health
                     == if K.Mentions(K.SinceFallback(kernel.readings), kernel.patterns, kernel.entries, d)
                        then Bad else Good
    {
      var status := kernel.GetStatus(disks[i]);
      answers := answers[disks[i] := ProbeStatus(status, "")];
      assert disks[..i + 1] == disks[..i] + [disks[i]];
    }
    assert disks[..|disks|] == disks;
    cache := ProbeCache(answers);
  }

  /** Asks the SMART probe about every disk. */
  method AskSmart(smart: SmartHealthAnalyzer, disks: seq<string>, vendorOf: string -> string)
    returns (cache: ProbeCache)
    ensures forall d | d in disks ::
              cache.Answer(d).health
              == if d in smart.cachedSmartData then TableVerdict(smart.cachedSmartData[d]) else Unknown
  {
    var answers: map<string, ProbeStatus> := map[];
    for i := 0 to |disks|
      invariant forall d | d in disks[..i] ::
                  && d in answers
                  && answers[d].health
                     == if d in smart.cachedSmartData then TableVerdict(smart.cachedSmartData[d]) else Unknown
    {
      var status := smart.GetStatus(disks[i], vendorOf(disks[i]));
      answers := answers[disks[i] := ProbeStatus(status, "")];
      assert disks[..i + 1] == disks[..i] + [disks[i]];
    }
    assert disks[..|disks|] == disks;
    cache := ProbeCache(answers);
  }

  /** publishFromCache with the two probes of the Linux agent. */
  method LinuxReport(kernel: K.LinGeneralAnalyzer, smart: SmartHealthAnalyzer, disks: seq<string>,
      vendorOf: string -> string)
    returns (report: StatusReport)
    requires kernel.Valid()
    ensures report.overall == Bad
            <==> exists d :: d in disks && Condemned(EvidenceOf(kernel, smart), d)
  {
    var log := AskKernel(kernel, disks);
    var tables := AskSmart(smart, disks, vendorOf);
    var kernelEntry := ProbeEntry(RefreshPolicy(3_600_000, true), log, 0);
    var smartEntry := ProbeEntry(RefreshPolicy(14_400_000, false), tables, 0);
    var entries := new ProbeEntry[2](i => kernelEntry);
    entries[1] := smartEntry;
    assert entries[..] == [kernelEntry, smartEntry];
    report := PublishFromCache(entries, disks);
    OverallBadExactly(EvidenceOf(kernel, smart), disks, kernelEntry, smartEntry);
  }
}
