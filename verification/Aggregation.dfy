/** Probe caches, the passes that refresh them, and the report published from them (agent main.cpp). */
module Aggregation {
  import opened Health

  /** One probe's answer for one disk; `rawData` stands for its JSON value. */
  datatype ProbeStatus = ProbeStatus(health: Health, rawData: string)

  /** What a probe answers for each disk since its last refresh. */
  datatype ProbeCache = ProbeCache(answers: map<string, ProbeStatus>) {
    function Answer(disk: string): ProbeStatus {
      if disk in answers then answers[disk] else ProbeStatus(Unknown, "")
    }
  }

  datatype RefreshPolicy = RefreshPolicy(interval: nat, proactiveCollection: bool)

  /** ProbeEntry; `lastRefresh` is a reading of the steady clock, 0 (its epoch) before the first refresh. */
  datatype ProbeEntry = ProbeEntry(policy: RefreshPolicy, cache: ProbeCache, lastRefresh: int)

  datatype DiskInfo = DiskInfo(name: string, health: Health, statuses: seq<ProbeStatus>)

  /** What publishFromCache hands to setStatusData. */
  datatype StatusReport = StatusReport(overall: Health, disks: seq<DiskInfo>)

  function Healths(statuses: seq<ProbeStatus>): (hs: seq<Health>) {
    seq(|statuses|, i requires 0 <= i < |statuses| => statuses[i].health)
  }

  function DiskStatuses(disk: string, entries: seq<ProbeEntry>): seq<ProbeStatus> {
    seq(|entries|, i requires 0 <= i < |entries| => entries[i].cache.Answer(disk))
  }

  function InfoOf(disk: string, entries: seq<ProbeEntry>): DiskInfo {
    var statuses := DiskStatuses(disk, entries);
    DiskInfo(disk, WorstOf(Healths(statuses)), statuses)
  }

  function Infos(disks: seq<string>, entries: seq<ProbeEntry>): seq<DiskInfo> {
    seq(|disks|, i requires 0 <= i < |disks| => InfoOf(disks[i], entries))
  }

  function InfoHealths(infos: seq<DiskInfo>): seq<Health> {
    seq(|infos|, i requires 0 <= i < |infos| => infos[i].health)
  }

  /** The pure aggregate of the probe caches. */
  function Aggregate(disks: seq<string>, entries: seq<ProbeEntry>): StatusReport {
    var infos := Infos(disks, entries);
    StatusReport(WorstOf(InfoHealths(infos)), infos)
  }

  /** publishFromCache, up to the call of setStatusData. */
  method PublishFromCache(entries: array<ProbeEntry>, disks: seq<string>) returns (report: StatusReport)
    ensures report == Aggregate(disks, entries[..])
  {
    var diskInfos: seq<DiskInfo> := [];
    for d := 0 to |disks|
      invariant diskInfos == Infos(disks[..d], entries[..])
    {
      var statuses: seq<ProbeStatus> := [];
      var healths: seq<Health> := [];
      for e := 0 to entries.Length
        invariant statuses == DiskStatuses(disks[d], entries[..e])
        invariant healths == Healths(statuses)
      {
        statuses := statuses + [entries[e].cache.Answer(disks[d])];
        healths := healths + [statuses[|statuses| - 1].health];
      }
      assert entries[..entries.Length] == entries[..];
      var health := CalculateCumulativeStatus(healths);
      diskInfos := diskInfos + [DiskInfo(disks[d], health, statuses)];
    }
    assert disks[..|disks|] == disks;
    var overall := CalculateCumulativeStatus(InfoHealths(diskInfos));
    report := StatusReport(overall, diskInfos);
  }

  /** Two levels of folding give the maximum over every disk and every probe. */
  lemma {:induction false} OverallIsMaximum(disks: seq<string>, entries: seq<ProbeEntry>, bound: Health)
    ensures Severity(Aggregate(disks, entries).overall) <= Severity(bound)
            <==> forall d, e | d in disks && e in entries :: Severity(e.cache.Answer(d).health) <= Severity(bound)
  {
    var infos := Infos(disks, entries);
    var healths := InfoHealths(infos);
    WorstOfIsMaximum(healths, bound);
    forall d | d in disks
      ensures InfoOf(d, entries).health in healths
      ensures Severity(InfoOf(d, entries).health) <= Severity(bound)
              <==> forall e | e in entries :: Severity(e.cache.Answer(d).health) <= Severity(bound)
    {
      var i :| 0 <= i < |disks| && disks[i] == d;
      assert healths[i] == InfoOf(d, entries).health;
      DiskHealthIsMaximum(d, entries, bound);
    }
    forall h | h in healths ensures exists d :: d in disks && h == InfoOf(d, entries).health {
      var i :| 0 <= i < |healths| && healths[i] == h;
      assert disks[i] in disks;
    }
  }

  lemma {:induction false} DiskHealthIsMaximum(disk: string, entries: seq<ProbeEntry>, bound: Health)
    ensures Severity(InfoOf(disk, entries).health) <= Severity(bound)
            <==> forall e | e in entries :: Severity(e.cache.Answer(disk).health) <= Severity(bound)
  {
    var healths := Healths(DiskStatuses(disk, entries));
    WorstOfIsMaximum(healths, bound);
    forall e | e in entries ensures e.cache.Answer(disk).health in healths {
      var i :| 0 <= i < |entries| && entries[i] == e;
      assert healths[i] == e.cache.Answer(disk).health;
    }
    forall h | h in healths ensures exists e :: e in entries && h == e.cache.Answer(disk).health {
      var i :| 0 <= i < |healths| && healths[i] == h;
      assert entries[i] in entries;
    }
  }

  /** Some probe has found the disk in this state of health. */
  predicate Found(entries: seq<ProbeEntry>, disk: string, health: Health) {
    exists e :: e in entries && disk in e.cache.answers && e.cache.answers[disk].health == health
  }

  /** A disk is as bad as the worst any probe has found it, and unknown if no probe has found anything out. */
  lemma {:induction false} DiskHealthExactly(disk: string, entries: seq<ProbeEntry>)
    ensures InfoOf(disk, entries).health
            == if Found(entries, disk, Bad) then Bad
               else if Found(entries, disk, CheckStatus) then CheckStatus
               else if Found(entries, disk, Good) then Good else Unknown
  {
    DiskHealthIsMaximum(disk, entries, CheckStatus);
    DiskHealthIsMaximum(disk, entries, Good);
    DiskHealthIsMaximum(disk, entries, Unknown);
  }

  /** The same over all disks. */
  lemma {:induction false} OverallExactly(disks: seq<string>, entries: seq<ProbeEntry>)
    ensures Aggregate(disks, entries).overall
            == if exists d :: d in disks && Found(entries, d, Bad) then Bad
               else if exists d :: d in disks && Found(entries, d, CheckStatus) then CheckStatus
               else if exists d :: d in disks && Found(entries, d, Good) then Good else Unknown
  {
    OverallIsMaximum(disks, entries, CheckStatus);
    OverallIsMaximum(disks, entries, Good);
    OverallIsMaximum(disks, entries, Unknown);
  }

  /** The report lists the disks in their order, and under each the answers of the probes in theirs. */
  lemma {:induction false} ReportShowsAnswers(disks: seq<string>, entries: seq<ProbeEntry>, i: nat, j: nat)
    requires i < |disks| && j < |entries|
    ensures var infos := Aggregate(disks, entries).disks;
            && |infos| == |disks| && infos[i].name == disks[i] && |infos[i].statuses| == |entries|
            && infos[i].statuses[j] == if disks[i] in entries[j].cache.answers then entries[j].cache.answers[disks[i]]
                                       else ProbeStatus(Unknown, "")
  {
  }

  /** Two entries give the same answer for every disk. */
  predicate AnswersAlike(a: ProbeEntry, b: ProbeEntry, disks: seq<string>) {
    forall d | d in disks :: a.cache.Answer(d) == b.cache.Answer(d)
  }

  lemma {:induction false} SameInfosExactly(disk: string, a: seq<ProbeEntry>, b: seq<ProbeEntry>)
    requires |a| == |b|
    ensures InfoOf(disk, a) == InfoOf(disk, b)
            <==> forall i | 0 <= i < |a| :: a[i].cache.Answer(disk) == b[i].cache.Answer(disk)
  {
    var sa, sb := DiskStatuses(disk, a), DiskStatuses(disk, b);
    if forall i | 0 <= i < |a| :: a[i].cache.Answer(disk) == b[i].cache.Answer(disk) {
      assert sa == sb;
    }
    if InfoOf(disk, a) == InfoOf(disk, b) {
      forall i | 0 <= i < |a| ensures a[i].cache.Answer(disk) == b[i].cache.Answer(disk) {
        assert sa[i] == sb[i];
      }
    }
  }

  /** The report shows every answer of every entry, and nothing else about them. */
  lemma {:induction false} SameAggregateExactly(disks: seq<string>, a: seq<ProbeEntry>, b: seq<ProbeEntry>)
    requires |a| == |b|
    ensures Aggregate(disks, a) == Aggregate(disks, b) <==> forall i: nat | i < |a| :: AnswersAlike(a[i], b[i], disks)
  {
    if forall i: nat | i < |a| :: AnswersAlike(a[i], b[i], disks) {
      forall d: nat | d < |disks| ensures InfoOf(disks[d], a) == InfoOf(disks[d], b) {
        SameInfosExactly(disks[d], a, b);
      }
      assert Infos(disks, a) == Infos(disks, b);
    }
    if Aggregate(disks, a) == Aggregate(disks, b) {
      forall i: nat, d | i < |a| && d in disks ensures a[i].cache.Answer(d) == b[i].cache.Answer(d) {
        var k :| 0 <= k < |disks| && disks[k] == d;
        assert Infos(disks, a)[k] == Infos(disks, b)[k];
        SameInfosExactly(d, a, b);
      }
    }
  }

  /** Whether a stale-probe pass that read the clock as `now` refreshes the entry. */
  predicate Due(e: ProbeEntry, now: int, proactiveOnly: bool) {
    (proactiveOnly ==> e.policy.proactiveCollection) && now - e.lastRefresh >= e.policy.interval
  }

  function Refreshed(e: ProbeEntry, collected: ProbeCache, now: int): ProbeEntry {
    e.(cache := collected, lastRefresh := now)
  }

  /** What a probe's refresh would do now: what it would have collected, and whether it would throw after that. */
  datatype Attempt = Attempt(collected: ProbeCache, throws: bool)

  /** An entry whose refresh threw: it keeps what was collected, and its old time. */
  function Interrupted(e: ProbeEntry, collected: ProbeCache): ProbeEntry {
    e.(cache := collected)
  }

  /**
   refreshStaleProbes.  `reached` is how many entries the loop has dealt with; if that is not all of them, the refresh
   of the next one threw, the exception leaves the function, and `anyRefreshed` is lost.
   */
  method RefreshStaleProbes(entries: array<ProbeEntry>, attempts: seq<Attempt>, now: int, proactiveOnly: bool)
    returns (anyRefreshed: bool, reached: nat)
    requires |attempts| == entries.Length
    modifies entries
    ensures reached <= entries.Length
    ensures forall i | 0 <= i < reached :: Due(old(entries[i]), now, proactiveOnly) ==> !attempts[i].throws
    ensures reached < entries.Length ==> Due(old(entries[reached]), now, proactiveOnly) && attempts[reached].throws
    ensures forall i | 0 <= i < entries.Length ::
              entries[i] == if i > reached || !Due(old(entries[i]), now, proactiveOnly) then old(entries[i])
                            else if i == reached then Interrupted(old(entries[i]), attempts[i].collected)
                            else Refreshed(old(entries[i]), attempts[i].collected, now)
    ensures reached == entries.Length ==>
              (anyRefreshed <==> exists i :: 0 <= i < entries.Length && Due(old(entries[i]), now, proactiveOnly))
    ensures reached == entries.Length ==>
              forall i | 0 <= i < entries.Length && entries[i].policy.interval > 0 ::
                !Due(entries[i], now, proactiveOnly)
  {
    anyRefreshed := false;
    reached := 0;
    while reached < entries.Length
      invariant reached <= entries.Length
      invariant forall j | 0 <= j < reached :: Due(old(entries[j]), now, proactiveOnly) ==> !attempts[j].throws
      invariant forall j | 0 <= j < reached ::
                  entries[j] == if Due(old(entries[j]), now, proactiveOnly)
                                then Refreshed(old(entries[j]), attempts[j].collected, now)
                                else old(entries[j])
      invariant forall j | reached <= j < entries.Length :: entries[j] == old(entries[j])
      invariant anyRefreshed <==> exists j :: 0 <= j < reached && Due(old(entries[j]), now, proactiveOnly)
    {
      if Due(entries[reached], now, proactiveOnly) {
        if attempts[reached].throws {
          entries[reached] := Interrupted(entries[reached], attempts[reached].collected);
          return;
        }
        entries[reached] := Refreshed(entries[reached], attempts[reached].collected, now);
        anyRefreshed := true;
      }
      reached := reached + 1;
    }
  }

  /** refreshAllProbes; `reached` is as above. */
  method RefreshAllProbes(entries: array<ProbeEntry>, attempts: seq<Attempt>, now: int) returns (reached: nat)
    requires |attempts| == entries.Length
    modifies entries
    ensures reached <= entries.Length
    ensures forall i | 0 <= i < reached :: !attempts[i].throws
    ensures reached < entries.Length ==> attempts[reached].throws
    ensures forall i | 0 <= i < entries.Length ::
              entries[i] == if i > reached then old(entries[i])
                            else if i == reached then Interrupted(old(entries[i]), attempts[i].collected)
                            else Refreshed(old(entries[i]), attempts[i].collected, now)
  {
    reached := 0;
    while reached < entries.Length
      invariant reached <= entries.Length
      invariant forall j | 0 <= j < reached :: !attempts[j].throws
      invariant forall j | 0 <= j < reached :: entries[j] == Refreshed(old(entries[j]), attempts[j].collected, now)
      invariant forall j | reached <= j < entries.Length :: entries[j] == old(entries[j])
    {
      if attempts[reached].throws {
        entries[reached] := Interrupted(entries[reached], attempts[reached].collected);
        return;
      }
      entries[reached] := Refreshed(entries[reached], attempts[reached].collected, now);
      reached := reached + 1;
    }
  }
}
