/** Health verdicts: the severity order, the worst-of fold and the SMART analyzer. */
module Health {

  /** GeneralHealth::Health; the constructors are listed from best known to worst. */
  datatype Health = Unknown | Good | CheckStatus | Bad

  function Severity(h: Health): nat {
    match h
    case Unknown => 0
    case Good => 1
    case CheckStatus => 2
    case Bad => 3
  }

  function Worse(a: Health, b: Health): Health {
    if Severity(b) > Severity(a) then b else a
  }

  /** The worst of a list of verdicts, `Unknown` for the empty list. */
  function WorstOf(statuses: seq<Health>): Health {
    if statuses == [] then Unknown else Worse(WorstOf(statuses[..|statuses| - 1]), statuses[|statuses| - 1])
  }

  /** DiscStatusCalculator::CalculateCumulativeStatus. */
  method CalculateCumulativeStatus(statuses: seq<Health>) returns (overall: Health)
    ensures overall == WorstOf(statuses)
    ensures forall i | 0 <= i < |statuses| :: Severity(statuses[i]) <= Severity(overall)
    ensures overall == Unknown || overall in statuses
  {
    overall := Unknown;
    for i := 0 to |statuses|
      invariant overall == WorstOf(statuses[..i])
      invariant forall j | 0 <= j < i :: Severity(statuses[j]) <= Severity(overall)
      invariant overall == Unknown || overall in statuses
    {
      assert statuses[..i + 1][..i] == statuses[..i];
      if Severity(statuses[i]) > Severity(overall) {
        overall := statuses[i];
      }
    }
    assert statuses[..|statuses|] == statuses;
  }

  /** The fold is the least upper bound of its arguments, whatever their order. */
  lemma {:induction false} WorstOfIsMaximum(statuses: seq<Health>, bound: Health)
    ensures Severity(WorstOf(statuses)) <= Severity(bound)
            <==> forall h | h in statuses :: Severity(h) <= Severity(bound)
    ensures WorstOf(statuses) == Unknown || WorstOf(statuses) in statuses
  {
    if statuses != [] {
      var init, last := statuses[..|statuses| - 1], statuses[|statuses| - 1];
      WorstOfIsMaximum(init, bound);
      assert statuses == init + [last];
    }
  }

  lemma {:induction false} SeverityInjective(a: Health, b: Health)
    requires Severity(a) == Severity(b)
    ensures a == b
  {
  }

  /** Only the set of verdicts matters: order and repetition do not. */
  lemma {:induction false} WorstOfDependsOnElements(a: seq<Health>, b: seq<Health>)
    requires forall h :: h in a <==> h in b
    ensures WorstOf(a) == WorstOf(b)
  {
    WorstOfIsMaximum(a, WorstOf(b));
    WorstOfIsMaximum(b, WorstOf(b));
    WorstOfIsMaximum(b, WorstOf(a));
    WorstOfIsMaximum(a, WorstOf(a));
    SeverityInjective(WorstOf(a), WorstOf(b));
  }

  lemma {:induction false} WorstOfMonotone(a: seq<Health>, b: seq<Health>)
    requires forall h | h in a :: h in b
    ensures Severity(WorstOf(a)) <= Severity(WorstOf(b))
  {
    WorstOfIsMaximum(a, WorstOf(b));
    WorstOfIsMaximum(b, WorstOf(b));
  }
}

/** SmartHealthAnalyzer.cpp and VendorProfile.h. */
module SmartHealth {
  import opened Wrappers
  import opened Health

  /** SmartData::Attribute; `id` is an 8-bit and `rawVal` a 64-bit value in the program. */
  datatype Attribute = Attribute(id: int, name: string, value: int, worst: int, threshold: int, rawVal: int)

  datatype TestStatus = TestStatus(running: bool, percentRemaining: int, lastResult: string)

  /** The position of the first disk whose data cannot be read, or the number of disks. */
  function FirstUnreadable(disks: seq<string>, readData: string -> Option<seq<Attribute>>): (n: nat)
    ensures n <= |disks|
    ensures n < |disks| ==> readData(disks[n]).None?
    ensures forall i | 0 <= i < n :: readData(disks[i]).Some?
  {
    if disks == [] || readData(disks[0]).None? then 0 else 1 + FirstUnreadable(disks[1..], readData)
  }

  function DataOf(readData: string -> Option<seq<Attribute>>, disk: string): seq<Attribute> {
    if readData(disk).Some? then readData(disk).value else []
  }

  /** A cache after some disks have been read. */
  function Filled<V>(cache: map<string, V>, disks: seq<string>, read: string -> V): map<string, V> {
    cache + map d | d in disks :: read(d)
  }

  lemma {:induction false} FilledStep<V>(cache: map<string, V>, disks: seq<string>, i: nat, read: string -> V)
    requires i < |disks|
    ensures Filled(cache, disks[..i + 1], read) == Filled(cache, disks[..i], read)[disks[i] := read(disks[i])]
  {
    assert disks[..i + 1] == disks[..i] + [disks[i]];
  }

  datatype Profile = GenericProfile | SamsungProfile | SeagateProfile

  function ProfileFor(vendor: string): Profile {
    if vendor == "Samsung" then SamsungProfile
    else if vendor == "Seagate" then SeagateProfile
    else GenericProfile
  }

  /** Masking with 0xFFFFFFFF keeps the value modulo 2^32, for negative values too. */
  function InterpretRawValue(profile: Profile, id: int, rawVal: int): int {
    match profile
    case GenericProfile => rawVal
    case SamsungProfile => if id == 0x01 || id == 0x07 then rawVal % 0x1_0000_0000 else rawVal
    case SeagateProfile => if id == 0x01 || id == 0x07 || id == 0xC3 then rawVal % 0x1_0000_0000 else rawVal
  }

  predicate IsCriticalAta(id: int, name: string) {
    || (id == 0x05 && name == "Reallocated_Sector_Ct")
    || (id == 0x0A && name == "Spin_Retry_Count")
    || (id == 0xC4 && name == "Reallocated_Event_Count")
    || (id == 0xC5 && name == "Current_Pending_Sector")
    || (id == 0xC6 && name == "Offline_Uncorrectable")
  }

  predicate IsCriticalNvme(name: string) {
    name == "Critical_Warning" || name == "Media_and_Data_Integrity_Errors"
  }

  predicate IsNvmePercentageUsed(name: string) {
    name == "Percentage_Used"
  }

  const PROXIMITY_PERCENT := 15
  const NVME_WEAR_WARNING_PERCENT := 90

  /** No vendor masks an attribute that is critical. */
  lemma {:induction false} CriticalIsUnmasked(profile: Profile, a: Attribute)
    requires IsCriticalAta(a.id, a.name)
    ensures InterpretRawValue(profile, a.id, a.rawVal) == a.rawVal
  {
  }

  /** The attribute by itself proves the disk bad. */
  predicate ProvesBad(a: Attribute) {
    || (a.threshold > 0 && 0 < a.value <= a.threshold)
    || (IsCriticalNvme(a.name) && a.rawVal > 0)
    || (IsNvmePercentageUsed(a.name) && a.rawVal >= 100)
  }

  /** The attribute is within max(1, 15 %) above its threshold. */
  predicate NearThreshold(a: Attribute) {
    && a.threshold > 0
    && a.threshold < a.value
    && (a.value <= a.threshold + 1 || a.value <= a.threshold + a.threshold * PROXIMITY_PERCENT / 100)
  }

  predicate Suspicious(a: Attribute) {
    || (IsCriticalAta(a.id, a.name) && a.rawVal > 0)
    || (IsNvmePercentageUsed(a.name) && a.rawVal >= NVME_WEAR_WARNING_PERCENT)
    || NearThreshold(a)
  }

  /** What one attribute says about the disk, with no vendor in sight. */
  function AttributeVerdict(a: Attribute): Health {
    if ProvesBad(a) then Bad else if Suspicious(a) then CheckStatus else Good
  }

  function AttributeVerdicts(attributes: seq<Attribute>): seq<Health> {
    seq(|attributes|, i requires 0 <= i < |attributes| => AttributeVerdict(attributes[i]))
  }

  /** The verdict of a whole table: `Good` unless some attribute says worse. */
  function TableVerdict(attributes: seq<Attribute>): Health {
    WorstOf([Good] + AttributeVerdicts(attributes))
  }

  /** The probe object: what it read last for each disk. */
  class SmartHealthAnalyzer {
    var cachedSmartData: map<string, seq<Attribute>>
    var cachedTestStatus: map<string, TestStatus>

    constructor ()
      ensures cachedSmartData == map[] && cachedTestStatus == map[]
    {
      cachedSmartData, cachedTestStatus := map[], map[];
    }

    /**
     `readData` and `readTest` stand for the SMART tool: what its output for a disk parses to now, nothing if the
     parser throws.  `read` is how many disks the loop has dealt with; if that is not all of them, reading the next
     one threw, and the exception leaves the method.
     */
    method Refresh(disks: seq<string>, readData: string -> Option<seq<Attribute>>, readTest: string -> TestStatus)
      returns (read: nat)
      modifies this
      ensures read == FirstUnreadable(disks, readData)
      ensures cachedSmartData == Filled(old(cachedSmartData), disks[..read], d => DataOf(readData, d))
      ensures cachedTestStatus == Filled(old(cachedTestStatus), disks[..read], readTest)
    {
      read := 0;
      while read < |disks|
        invariant read <= FirstUnreadable(disks, readData)
        invariant cachedSmartData == Filled(old(cachedSmartData), disks[..read], d => DataOf(readData, d))
        invariant cachedTestStatus == Filled(old(cachedTestStatus), disks[..read], readTest)
      {
        var data := readData(disks[read]);
        if data.None? {
          return;
        }
        FilledStep(old(cachedSmartData), disks, read, d => DataOf(readData, d));
        FilledStep(old(cachedTestStatus), disks, read, readTest);
        cachedSmartData := cachedSmartData[disks[read] := data.value];
        cachedTestStatus := cachedTestStatus[disks[read] := readTest(disks[read])];
        read := read + 1;
      }
    }

    /** The body of the loop of GetStatus; `Bad` where the program returns at once. */
    method Judge(a: Attribute, profile: Profile, worst: Health) returns (verdict: Health)
      requires worst == Good || worst == CheckStatus
      ensures verdict == Worse(worst, AttributeVerdict(a))
    {
      verdict := worst;
      if a.threshold > 0 && a.value > 0 && a.value <= a.threshold {
        return Bad;
      }
      if IsCriticalAta(a.id, a.name) {
        CriticalIsUnmasked(profile, a);
        var interpreted := InterpretRawValue(profile, a.id, a.rawVal);
        if interpreted > 0 {
          verdict := Worse(verdict, CheckStatus);
        }
      }
      if IsCriticalNvme(a.name) && a.rawVal > 0 {
        return Bad;
      }
      if IsNvmePercentageUsed(a.name) {
        if a.rawVal >= 100 {
          return Bad;
        }
        if a.rawVal >= NVME_WEAR_WARNING_PERCENT {
          verdict := Worse(verdict, CheckStatus);
        }
      }
      assert !ProvesBad(a);
      var near := IsNear(a);
      if near {
        verdict := Worse(verdict, CheckStatus);
      }
    }

    /** The third layer of GetStatus. */
    method IsNear(a: Attribute) returns (near: bool)
      ensures near <==> NearThreshold(a)
    {
      near := false;
      if a.threshold > 0 && a.value > a.threshold {
        var margin := a.threshold * PROXIMITY_PERCENT / 100;
        near := a.value <= a.threshold + (if margin < 1 then 1 else margin);
      }
    }

    /** The early-return loop computes the worst verdict of the cached table. */
    method GetStatus(disk: string, vendor: string) returns (status: Health)
      ensures status == if disk in cachedSmartData then TableVerdict(cachedSmartData[disk]) else Unknown
    {
      if disk !in cachedSmartData {
        return Unknown;
      }
      var attributes := cachedSmartData[disk];
      var profile := ProfileFor(vendor);
      var worst := Good;
      assert AttributeVerdicts(attributes[..0]) == [] && WorstOf([Good]) == Good;
      for i := 0 to |attributes|
        invariant worst == TableVerdict(attributes[..i])
        invariant worst == Good || worst == CheckStatus
      {
        TableVerdictStep(attributes, i);
        worst := Judge(attributes[i], profile, worst);
        if worst == Bad {
          TableVerdictOfBad(attributes, attributes[i]);
          return Bad;
        }
      }
      assert attributes[..|attributes|] == attributes;
      return worst;
    }
  }

  lemma {:induction false} TableVerdictStep(attributes: seq<Attribute>, i: nat)
    requires i < |attributes|
    ensures TableVerdict(attributes[..i + 1]) == Worse(TableVerdict(attributes[..i]), AttributeVerdict(attributes[i]))
  {
    var longer := [Good] + AttributeVerdicts(attributes[..i + 1]);
    assert longer[..|longer| - 1] == [Good] + AttributeVerdicts(attributes[..i]);
  }

  lemma {:induction false} TableVerdictOfBad(attributes: seq<Attribute>, a: Attribute)
    requires a in attributes && AttributeVerdict(a) == Bad
    ensures TableVerdict(attributes) == Bad
  {
    var verdicts := [Good] + AttributeVerdicts(attributes);
    var i :| 0 <= i < |attributes| && attributes[i] == a;
    assert verdicts[i + 1] == Bad;
    WorstOfIsMaximum(verdicts, WorstOf(verdicts));
    SeverityInjective(WorstOf(verdicts), Bad);
  }

  /** A table is at least as bad as a bound allows exactly when no single attribute exceeds it. */
  lemma {:induction false} VerdictsOf(attributes: seq<Attribute>)
    ensures forall h :: h in AttributeVerdicts(attributes) <==> exists a :: a in attributes && AttributeVerdict(a) == h
  {
    forall a | a in attributes ensures AttributeVerdict(a) in AttributeVerdicts(attributes) {
      var i :| 0 <= i < |attributes| && attributes[i] == a;
      assert AttributeVerdicts(attributes)[i] == AttributeVerdict(a);
    }
    forall h | h in AttributeVerdicts(attributes) ensures exists a :: a in attributes && AttributeVerdict(a) == h {
      var i :| 0 <= i < |attributes| && AttributeVerdicts(attributes)[i] == h;
      assert attributes[i] in attributes;
    }
  }

  lemma {:induction false} TableVerdictIsWorstAttribute(attributes: seq<Attribute>, bound: Health)
    requires bound != Unknown
    ensures Severity(TableVerdict(attributes)) <= Severity(bound)
            <==> forall a | a in attributes :: Severity(AttributeVerdict(a)) <= Severity(bound)
  {
    WorstOfIsMaximum([Good] + AttributeVerdicts(attributes), bound);
    VerdictsOf(attributes);
  }

  lemma {:induction false} BadAtSomePosition(attributes: seq<Attribute>)
    ensures TableVerdict(attributes) == Bad
            <==> exists i :: 0 <= i < |attributes| && AttributeVerdict(attributes[i]) == Bad
  {
    TableVerdictIsWorstAttribute(attributes, CheckStatus);
    if a :| a in attributes && AttributeVerdict(a) == Bad {
      var i :| 0 <= i < |attributes| && attributes[i] == a;
    }
    if i :| 0 <= i < |attributes| && AttributeVerdict(attributes[i]) == Bad {
      assert attributes[i] in attributes;
    }
  }

  /** Adding attributes never improves the verdict; reordering or repeating them never changes it. */
  lemma {:induction false} TableVerdictMonotone(fewer: seq<Attribute>, more: seq<Attribute>)
    requires forall a | a in fewer :: a in more
    ensures Severity(TableVerdict(fewer)) <= Severity(TableVerdict(more))
    ensures (forall a | a in more :: a in fewer) ==> TableVerdict(fewer) == TableVerdict(more)
  {
    TableVerdictKnown(more);
    TableVerdictKnown(fewer);
    TableVerdictIsWorstAttribute(fewer, TableVerdict(more));
    TableVerdictIsWorstAttribute(more, TableVerdict(more));
    TableVerdictIsWorstAttribute(more, TableVerdict(fewer));
    TableVerdictIsWorstAttribute(fewer, TableVerdict(fewer));
    if forall a | a in more :: a in fewer {
      SeverityInjective(TableVerdict(fewer), TableVerdict(more));
    }
  }

  lemma {:induction false} TableVerdictKnown(attributes: seq<Attribute>)
    ensures TableVerdict(attributes) != Unknown
  {
    var verdicts := [Good] + AttributeVerdicts(attributes);
    WorstOfIsMaximum(verdicts, WorstOf(verdicts));
    assert verdicts[0] == Good;
  }

  // ---- the verdict in the terms of the two standards -------------------------------------------------------

  lemma {:induction false} BadByItself(a: Attribute)
    ensures AttributeVerdict(a) == Bad
            <==> (0 < a.value <= a.threshold)
                 || ((a.name == "Critical_Warning" || a.name == "Media_and_Data_Integrity_Errors") && a.rawVal > 0)
                 || (a.name == "Percentage_Used" && a.rawVal >= 100)
  {
  }

  lemma {:induction false} SuspiciousByItself(a: Attribute)
    ensures AttributeVerdict(a) == CheckStatus || AttributeVerdict(a) == Bad
            <==> AttributeVerdict(a) == Bad
                 || (a.rawVal > 0 && ((a.id == 5 && a.name == "Reallocated_Sector_Ct")
                                     || (a.id == 10 && a.name == "Spin_Retry_Count")
                                     || (a.id == 196 && a.name == "Reallocated_Event_Count")
                                     || (a.id == 197 && a.name == "Current_Pending_Sector")
                                     || (a.id == 198 && a.name == "Offline_Uncorrectable")))
                 || (a.name == "Percentage_Used" && a.rawVal >= 90)
                 || (0 < a.threshold < a.value
                     && a.value - a.threshold <= if a.threshold * 15 / 100 < 1 then 1 else a.threshold * 15 / 100)
  {
  }

  /**
   A table is bad exactly when one attribute has a positive value at or below its threshold, one of the two critical
   NVMe fields is above zero, or the wear of an NVMe drive has reached 100 %.
   */
  lemma {:induction false} TableBadExactly(attributes: seq<Attribute>)
    ensures TableVerdict(attributes) == Bad
            <==> exists a :: a in attributes &&
                   ((0 < a.value <= a.threshold)
                    || ((a.name == "Critical_Warning" || a.name == "Media_and_Data_Integrity_Errors") && a.rawVal > 0)
                    || (a.name == "Percentage_Used" && a.rawVal >= 100))
  {
    TableVerdictIsWorstAttribute(attributes, CheckStatus);
    forall a ensures AttributeVerdict(a) == Bad
                     <==> (0 < a.value <= a.threshold)
                          || ((a.name == "Critical_Warning" || a.name == "Media_and_Data_Integrity_Errors")
                              && a.rawVal > 0)
                          || (a.name == "Percentage_Used" && a.rawVal >= 100)
    {
      BadByItself(a);
    }
  }

  /**
   A table that is not bad is to be checked exactly when one of the five critical ATA attributes, named and numbered as
   in the standard, is above zero, the wear of an NVMe drive has reached 90 %, or a value is less than 15 % of its
   threshold, but at least one step, above that threshold.  Otherwise it is good.
   */
  lemma {:induction false} TableSuspiciousExactly(attributes: seq<Attribute>)
    requires TableVerdict(attributes) != Bad
    ensures TableVerdict(attributes) == CheckStatus || TableVerdict(attributes) == Good
    ensures TableVerdict(attributes) == CheckStatus
            <==> exists a :: a in attributes &&
                   ((a.rawVal > 0 && ((a.id == 5 && a.name == "Reallocated_Sector_Ct")
                                        || (a.id == 10 && a.name == "Spin_Retry_Count")
                                        || (a.id == 196 && a.name == "Reallocated_Event_Count")
                                        || (a.id == 197 && a.name == "Current_Pending_Sector")
                                        || (a.id == 198 && a.name == "Offline_Uncorrectable")))
                    || (a.name == "Percentage_Used" && a.rawVal >= 90)
                    || (0 < a.threshold < a.value
                        && a.value - a.threshold <= if a.threshold * 15 / 100 < 1 then 1 else a.threshold * 15 / 100))
  {
    TableVerdictKnown(attributes);
    TableVerdictIsWorstAttribute(attributes, CheckStatus);
    TableVerdictIsWorstAttribute(attributes, Good);
    forall a | a in attributes { SuspiciousByItself(a); }
  }
}
