/**
 A run in which a manual refresh leaves the stored status behind the probe caches: the first probe has been refreshed
 when the second one throws, and nobody publishes.
 */
module PublicationFailure {
  import opened Wrappers
  import opened Health
  import opened Aggregation
  import opened Publication
  import opened PublicationTheorems
  import NvmeSection
  import SmartCtlOutputParser

  // ---- runs, one step at a time -------------------------------------------------------------------

  /** Thread `t` is at `th`, the other threads are as in `others`. */
  function At(others: map<Tid, Thread>, t: Tid, th: Thread, mem: Shared, locks: map<Mutex, Tid>): State {
    State(mem, others[t := th], locks)
  }

  lemma {:induction false} Takes(others: map<Tid, Thread>, t: Tid, th: Thread, mem: Shared, locks: map<Mutex, Tid>,
      env: Env)
    requires Reachable(At(others, t, th, mem, locks)) && !mem.ended && !Idle(th)
    requires Wants(t, th).Some? && Wants(t, th).value.0 !in locks
    ensures Reachable(At(others, t, Wants(t, th).value.1, mem, locks[Wants(t, th).value.0 := t]))
  {
    var s := At(others, t, th, mem, locks);
    Reaches(s, Run(t, env));
    assert s.threads[t := Wants(t, th).value.1] == others[t := Wants(t, th).value.1];
  }

  lemma {:induction false} Moves(others: map<Tid, Thread>, t: Tid, th: Thread, mem: Shared, locks: map<Mutex, Tid>,
      env: Env)
    requires Reachable(At(others, t, th, mem, locks)) && !mem.ended && !Idle(th)
    requires Wants(t, th).None? && MoveOf(mem, t, th, env).wakes.NoOne?
    ensures var mv := MoveOf(mem, t, th, env);
            Reachable(At(others, t, mv.next, mv.mem, if mv.gives.Some? then locks - {mv.gives.value} else locks))
  {
    var s := At(others, t, th, mem, locks);
    Reaches(s, Run(t, env));
    assert s.threads[t := MoveOf(mem, t, th, env).next] == others[t := MoveOf(mem, t, th, env).next];
  }

  /** A move that only advances the program counter. */
  lemma {:induction false} Goes(others: map<Tid, Thread>, t: Tid, th: Thread, mem: Shared, locks: map<Mutex, Tid>,
      env: Env,
                                mem': Shared, next: Thread)
    requires Reachable(At(others, t, th, mem, locks)) && !mem.ended && !Idle(th)
    requires Wants(t, th).None? && MoveOf(mem, t, th, env) == Go(mem', next)
    ensures Reachable(At(others, t, next, mem', locks))
  {
    Moves(others, t, th, mem, locks, env);
  }

  lemma {:induction false} TakeAndGive(locks: map<Mutex, Tid>, m: Mutex, t: Tid)
    requires m !in locks
    ensures locks[m := t] - {m} == locks
  {
  }

  /** A thread takes a mutex, makes one move and gives it back. */
  lemma {:induction false} Guarded(others: map<Tid, Thread>, t: Tid, th: Thread, mem: Shared, locks: map<Mutex, Tid>,
      env: Env,
                                   m: Mutex, at: Thread, mem': Shared, next: Thread)
    requires Reachable(At(others, t, th, mem, locks)) && !mem.ended && !Idle(th) && !Idle(at)
    requires Wants(t, th) == Some((m, at)) && m !in locks
    requires Wants(t, at).None? && MoveOf(mem, t, at, env) == Give(mem', m, next)
    ensures Reachable(At(others, t, next, mem', locks))
  {
    Takes(others, t, th, mem, locks, env);
    Moves(others, t, at, mem, locks[m := t], env);
    TakeAndGive(locks, m, t);
  }

  // ---- a publication without clients --------------------------------------------------------------

  /** What a publication without clients leaves. */
  function PublishedTo(mem: Shared, stamp: nat): Shared {
    var stored := StoreReport(mem, Aggregate(mem.disks, mem.probes), stamp);
    stored.(published := stored.published + [stored.status])
  }

  lemma {:induction false} Reports(others: map<Tid, Thread>, t: Tid, job: Job, mem: Shared, locks: map<Mutex, Tid>,
      env: Env)
    requires Reachable(At(others, t, Publisher(job, Summarise), mem, locks)) && !mem.ended
    ensures Reachable(At(others, t, Publisher(job, WantStore(Aggregate(mem.disks, mem.probes))), mem, locks))
  {
    Goes(others, t, Publisher(job, Summarise), mem, locks, env, mem,
         Publisher(job, WantStore(Aggregate(mem.disks, mem.probes))));
  }

  lemma {:induction false} Stores(others: map<Tid, Thread>, t: Tid, job: Job, mem: Shared, locks: map<Mutex, Tid>,
      env: Env)
    requires Reachable(At(others, t, Publisher(job, Summarise), mem, locks)) && !mem.ended && DataMutex !in locks
    ensures Reachable(At(others, t, Publisher(job, WantBuild),
                         StoreReport(mem, Aggregate(mem.disks, mem.probes), env.stamp), locks))
  {
    var report := Aggregate(mem.disks, mem.probes);
    Reports(others, t, job, mem, locks, env);
    Guarded(others, t, Publisher(job, WantStore(report)), mem, locks, env, DataMutex, Publisher(job, Store(report)),
            StoreReport(mem, report, env.stamp), Publisher(job, WantBuild));
  }

  lemma {:induction false} Builds(others: map<Tid, Thread>, t: Tid, job: Job, mem: Shared, locks: map<Mutex, Tid>,
      env: Env)
    requires Reachable(At(others, t, Publisher(job, WantBuild), mem, locks)) && !mem.ended && DataMutex !in locks
    ensures Reachable(At(others, t, Publisher(job, WantPush(mem.status)), mem, locks))
  {
    Guarded(others, t, Publisher(job, WantBuild), mem, locks, env, DataMutex, Publisher(job, Build),
            mem, Publisher(job, WantPush(mem.status)));
  }

  lemma {:induction false} ScansNobody(others: map<Tid, Thread>, t: Tid, job: Job, event: Snapshot, mem: Shared,
      locks: map<Mutex, Tid>, env: Env)
    requires Reachable(At(others, t, Pusher(job, event, 0, Scan), mem, locks[SseMutex := t])) && !mem.ended
    requires SseMutex !in locks && mem.clients == []
    ensures Reachable(At(others, t, Publisher(job, Published), mem, locks))
  {
    Moves(others, t, Pusher(job, event, 0, Scan), mem, locks[SseMutex := t], env);
  }

  lemma {:induction false} Pushes(others: map<Tid, Thread>, t: Tid, job: Job, event: Snapshot, mem: Shared,
      locks: map<Mutex, Tid>, env: Env)
    requires Reachable(At(others, t, Publisher(job, WantPush(event)), mem, locks)) && !mem.ended
    requires SseMutex !in locks && mem.clients == []
    ensures Reachable(At(others, t, Publisher(job, Published), mem.(published := mem.published + [event]), locks))
  {
    var held, pushed := locks[SseMutex := t], mem.(published := mem.published + [event]);
    Takes(others, t, Publisher(job, WantPush(event)), mem, locks, env);
    Goes(others, t, Pusher(job, event, 0, StartPush), mem, held, env, pushed, Pusher(job, event, 0, Scan));
    ScansNobody(others, t, job, event, pushed, locks, env);
  }

  lemma {:induction false} Publishes(others: map<Tid, Thread>, t: Tid, job: Job, mem: Shared, locks: map<Mutex, Tid>,
      env: Env)
    requires Reachable(At(others, t, Publisher(job, Summarise), mem, locks)) && !mem.ended
    requires DataMutex !in locks && SseMutex !in locks && mem.clients == []
    ensures Reachable(At(others, t, Publisher(job, Published), PublishedTo(mem, env.stamp), locks))
  {
    var stored := StoreReport(mem, Aggregate(mem.disks, mem.probes), env.stamp);
    Stores(others, t, job, mem, locks, env);
    Builds(others, t, job, stored, locks, env);
    Pushes(others, t, job, stored.status, stored, locks, env);
  }

  // ---- start-up -----------------------------------------------------------------------------------

  const SLEEPING: map<Tid, Thread> := map[REFRESHER := Refresher(NotStarted)]
  const WORKING: map<Tid, Thread> := map[MAIN := Main(Listening), REFRESHER := Refresher(LoopHead)]
  const PROBES_HELD: map<Mutex, Tid> := map[ProbeMutex := MAIN]

  /** Two probes; only the first one is collected at start-up. */
  predicate TwoProbes(probes: seq<ProbeEntry>, now: int) {
    |probes| == 2 && Due(probes[0], now, true) && !Due(probes[1], now, true)
  }

  function Begun(disks: seq<string>, probes: seq<ProbeEntry>, now: int): Shared {
    Initial(disks, probes, now).mem
  }

  function Collected(disks: seq<string>, probes: seq<ProbeEntry>, now: int, first: ProbeCache): Shared
    requires |probes| == 2
  {
    WriteProbe(Begun(disks, probes, now), 0, Refreshed(probes[0], first, now))
  }

  function Quiet(collected: ProbeCache): Env {
    Env(collected, false, 0, false)
  }

  lemma {:induction false} BeginsToCollect(disks: seq<string>, probes: seq<ProbeEntry>, now: int, env: Env)
    ensures Reachable(At(SLEEPING, MAIN, Publisher(StartUp, Collect(now, 0, false)), Begun(disks, probes, now),
                         PROBES_HELD))
  {
    var s, mem := Initial(disks, probes, now), Begun(disks, probes, now);
    assert IsRun(s, []) && After(s, []) == s;
    assert s == At(SLEEPING, MAIN, Publisher(StartUp, WantProbes), mem, map[]);
    Takes(SLEEPING, MAIN, Publisher(StartUp, WantProbes), mem, map[], env);
    assert map[][ProbeMutex := MAIN] == PROBES_HELD;
    Goes(SLEEPING, MAIN, Publisher(StartUp, BeginCollect), mem, PROBES_HELD, env, mem,
         Publisher(StartUp, Collect(now, 0, false)));
  }

  lemma {:induction false} CollectsFirst(disks: seq<string>, probes: seq<ProbeEntry>, now: int, first: ProbeCache)
    requires TwoProbes(probes, now)
    ensures Reachable(At(SLEEPING, MAIN, Publisher(StartUp, Summarise), Collected(disks, probes, now, first),
                         PROBES_HELD))
  {
    var env, mem, written := Quiet(first), Begun(disks, probes, now), Collected(disks, probes, now, first);
    BeginsToCollect(disks, probes, now, env);
    Goes(SLEEPING, MAIN, Publisher(StartUp, Collect(now, 0, false)), mem, PROBES_HELD, env, written,
         Publisher(StartUp, Collect(now, 1, true)));
    Goes(SLEEPING, MAIN, Publisher(StartUp, Collect(now, 1, true)), written, PROBES_HELD, env, written,
         Publisher(StartUp, Collect(now, 2, true)));
    Goes(SLEEPING, MAIN, Publisher(StartUp, Collect(now, 2, true)), written, PROBES_HELD, env, written,
         Publisher(StartUp, Summarise));
  }

  /** The agent listens, and a POST /api/v1/refresh has come in on thread 2. */
  lemma {:induction false} StartsUp(disks: seq<string>, probes: seq<ProbeEntry>, now: int, first: ProbeCache)
    requires TwoProbes(probes, now)
    ensures Reachable(At(WORKING, 2, Handler(WantRefresh), PublishedTo(Collected(disks, probes, now, first), 0), map[]))
  {
    var env, mem := Quiet(first), PublishedTo(Collected(disks, probes, now, first), 0);
    CollectsFirst(disks, probes, now, first);
    Publishes(SLEEPING, MAIN, StartUp, Collected(disks, probes, now, first), PROBES_HELD, env);
    LeavesScope(mem, env);
    StartsRefresher(mem, env);
    AcceptsRefresh(mem);
  }

  lemma {:induction false} AcceptsRefresh(mem: Shared)
    requires Reachable(State(mem, WORKING, map[])) && !mem.ended
    ensures Reachable(At(WORKING, 2, Handler(WantRefresh), mem, map[]))
  {
    Reaches(State(mem, WORKING, map[]), Accept(2, PostRefresh));
  }

  lemma {:induction false} LeavesScope(mem: Shared, env: Env)
    requires Reachable(At(SLEEPING, MAIN, Publisher(StartUp, Published), mem, PROBES_HELD)) && !mem.ended
    ensures Reachable(At(SLEEPING, MAIN, Main(StartRefresher), mem, map[]))
  {
    Moves(SLEEPING, MAIN, Publisher(StartUp, Published), mem, PROBES_HELD, env);
    assert PROBES_HELD - {ProbeMutex} == map[];
  }

  lemma {:induction false} StartsRefresher(mem: Shared, env: Env)
    requires Reachable(At(SLEEPING, MAIN, Main(StartRefresher), mem, map[])) && !mem.ended
    ensures Reachable(State(mem, WORKING, map[]))
  {
    var s := At(SLEEPING, MAIN, Main(StartRefresher), mem, map[]);
    Reaches(s, Run(MAIN, env));
    assert Step(s, Run(MAIN, env)) == State(mem, WORKING, map[]);
  }

  // ---- the refresh that throws --------------------------------------------------------------------

  const REFRESHING: map<Mutex, Tid> := map[RefreshMutex := 2]
  const REFRESHING_PROBES: map<Mutex, Tid> := map[RefreshMutex := 2, ProbeMutex := 2]

  lemma {:induction false} Admits(mem: Shared, env: Env)
    requires Reachable(At(WORKING, 2, Handler(WantRefresh), mem, map[])) && !mem.ended
    requires mem.now - mem.lastManualRefresh == REFRESH_COOLDOWN_SECONDS * MS_PER_SECOND
    ensures Reachable(At(WORKING, 2, Publisher(ManualRefresh(mem.now), WantProbes), mem, REFRESHING))
  {
    Takes(WORKING, 2, Handler(WantRefresh), mem, map[], env);
    assert map[][RefreshMutex := 2] == REFRESHING;
    Goes(WORKING, 2, Handler(CheckCooldown), mem, REFRESHING, env, mem, Publisher(ManualRefresh(mem.now), WantProbes));
  }

  lemma {:induction false} AdmitsRefresh(mem: Shared, env: Env)
    requires Reachable(At(WORKING, 2, Handler(WantRefresh), mem, map[])) && !mem.ended
    requires mem.now - mem.lastManualRefresh == REFRESH_COOLDOWN_SECONDS * MS_PER_SECOND
    ensures Reachable(At(WORKING, 2, Publisher(ManualRefresh(mem.now), Collect(mem.now, 0, false)), mem,
                         REFRESHING_PROBES))
  {
    var job := ManualRefresh(mem.now);
    Admits(mem, env);
    Takes(WORKING, 2, Publisher(job, WantProbes), mem, REFRESHING, env);
    assert REFRESHING[ProbeMutex := 2] == REFRESHING_PROBES;
    Goes(WORKING, 2, Publisher(job, BeginCollect), mem, REFRESHING_PROBES, env, mem,
         Publisher(job, Collect(mem.now, 0, false)));
  }

  /** What the refresh leaves when the first probe completes and the second one throws at once. */
  function Failed(mem: Shared, second: ProbeCache): Shared
    requires |mem.probes| == 2
  {
    ThrowAt(WriteProbe(mem, 0, Refreshed(mem.probes[0], second, mem.now)),
            ManualRefresh(mem.now), 1, mem.probes[1].cache)
  }

  lemma {:induction false} FirstProbeCompletes(mem: Shared, second: ProbeCache)
    requires |mem.probes| == 2 && !mem.ended
    requires Reachable(At(WORKING, 2, Publisher(ManualRefresh(mem.now), Collect(mem.now, 0, false)), mem,
                          REFRESHING_PROBES))
    ensures Reachable(At(WORKING, 2, Publisher(ManualRefresh(mem.now), Collect(mem.now, 1, true)),
                         WriteProbe(mem, 0, Refreshed(mem.probes[0], second, mem.now)), REFRESHING_PROBES))
  {
    var job := ManualRefresh(mem.now);
    Goes(WORKING, 2, Publisher(job, Collect(mem.now, 0, false)), mem, REFRESHING_PROBES, Quiet(second),
         WriteProbe(mem, 0, Refreshed(mem.probes[0], second, mem.now)), Publisher(job, Collect(mem.now, 1, true)));
  }

  lemma {:induction false} SecondProbeThrows(mem: Shared, second: ProbeCache)
    requires |mem.probes| == 2 && !mem.ended
    requires Reachable(At(WORKING, 2, Publisher(ManualRefresh(mem.now), Collect(mem.now, 0, false)), mem,
                          REFRESHING_PROBES))
    ensures Reachable(At(WORKING, 2, Publisher(ManualRefresh(mem.now), Threw), Failed(mem, second), REFRESHING_PROBES))
  {
    var job := ManualRefresh(mem.now);
    FirstProbeCompletes(mem, second);
    Goes(WORKING, 2, Publisher(job, Collect(mem.now, 1, true)),
         WriteProbe(mem, 0, Refreshed(mem.probes[0], second, mem.now)),
         REFRESHING_PROBES, Env(mem.probes[1].cache, true, 0, false), Failed(mem, second), Publisher(job, Threw));
  }

  lemma {:induction false} Unwinds(mem: Shared, at: int, env: Env)
    requires Reachable(At(WORKING, 2, Publisher(ManualRefresh(at), Threw), mem, REFRESHING_PROBES)) && !mem.ended
    ensures Reachable(At(WORKING, 2, Finished, mem, map[]))
  {
    Moves(WORKING, 2, Publisher(ManualRefresh(at), Threw), mem, REFRESHING_PROBES, env);
    assert REFRESHING_PROBES - {ProbeMutex} == REFRESHING;
    Answers(mem, env);
  }

  lemma {:induction false} Answers(mem: Shared, env: Env)
    requires Reachable(At(WORKING, 2, Handler(RefreshFailed), mem, REFRESHING)) && !mem.ended
    ensures Reachable(At(WORKING, 2, Finished, mem, map[]))
  {
    Moves(WORKING, 2, Handler(RefreshFailed), mem, REFRESHING, env);
    assert REFRESHING - {RefreshMutex} == map[];
  }

  /** The answer 500 has gone out; nobody holds anything. */
  lemma {:induction false} RefreshFails(disks: seq<string>, probes: seq<ProbeEntry>, now: int, first: ProbeCache,
      second: ProbeCache)
    returns (s: State)
    requires TwoProbes(probes, now)
    ensures s == At(WORKING, 2, Finished, Failed(PublishedTo(Collected(disks, probes, now, first), 0), second), map[])
    ensures Reachable(s)
  {
    var mem := PublishedTo(Collected(disks, probes, now, first), 0);
    var failed := Failed(mem, second);
    StartsUp(disks, probes, now, first);
    AdmitsRefresh(mem, Quiet(second));
    SecondProbeThrows(mem, second);
    Unwinds(failed, mem.now, Quiet(second));
    s := At(WORKING, 2, Finished, failed, map[]);
  }

  /** The first entry answers otherwise than the status says. */
  lemma {:induction false} FailedIsBehind(mem: Shared, stamp: nat, second: ProbeCache, disk: string)
    requires |mem.probes| == 2 && disk in mem.disks && second.Answer(disk) != mem.probes[0].cache.Answer(disk)
    ensures var failed := Failed(PublishedTo(mem, stamp), second);
            failed.status.report != Aggregate(failed.disks, failed.probes)
  {
    var failed := Failed(PublishedTo(mem, stamp), second);
    assert failed.probes[0].cache == second;
    assert !AnswersAlike(mem.probes[0], failed.probes[0], mem.disks);
    SameAggregateExactly(mem.disks, mem.probes, failed.probes);
  }

  /**
   Whatever the disks, if the first probe's answer for one of them has changed since start-up when a manual refresh
   throws in the second probe, the agent comes to rest with a status that is not the aggregate of its caches, and
   the cooldown does not keep the next manual refresh from being admitted.
   */
  lemma {:induction false} FailedRefreshLeavesStatusBehind(
      disks: seq<string>, probes: seq<ProbeEntry>, now: int, first: ProbeCache, second: ProbeCache, disk: string)
    returns (s: State)
    requires TwoProbes(probes, now) && disk in disks && first.Answer(disk) != second.Answer(disk)
    ensures Reachable(s) && AtRest(s) && s.mem.status.report != Aggregate(s.mem.disks, s.mem.probes)
    ensures s.locks == map[] && s.mem.manualRefreshes == []
    ensures (s.mem.now - s.mem.lastManualRefresh) / MS_PER_SECOND >= REFRESH_COOLDOWN_SECONDS
  {
    s := RefreshFails(disks, probes, now, first, second);
    FailedIsBehind(Collected(disks, probes, now, first), 0, second, disk);
  }

  // ---- the input ----------------------------------------------------------------------------------

  const HOUR_MS := 3_600_000

  /** The probes of the Linux agent, just constructed: kernel log and SMART, with their refresh policies. */
  function LinuxProbes(): seq<ProbeEntry> {
    [ProbeEntry(RefreshPolicy(HOUR_MS, true), ProbeCache(map[]), 0),
     ProbeEntry(RefreshPolicy(4 * HOUR_MS, false), ProbeCache(map[]), 0)]
  }

  /**
   An agent that starts an hour after boot on a machine with one disk: the kernel log reports the disk's first error
   between start-up and a manual refresh, and smartctl prints a value of 2^63, on which the SMART parser throws.
   */
  lemma {:induction false} HugeValueLeavesStatusBehind() returns (output: string, s: State)
    ensures SmartCtlOutputParser.ParsedAttributes(output) == None
    ensures Reachable(s) && AtRest(s) && s.mem.status.report != Aggregate(s.mem.disks, s.mem.probes)
    ensures s.mem.disks == [DISK] && s.mem.probes != [] && s.mem.probes[0].cache == KernelSays(Bad)
    ensures s.mem.status.report.overall != Bad
  {
    output := NvmeSection.HugeOutput();
    LinuxProbesAreTwo();
    s := RefreshFails([DISK], LinuxProbes(), HOUR_MS, KernelSays(Good), KernelSays(Bad));
    var started := Collected([DISK], LinuxProbes(), HOUR_MS, KernelSays(Good));
    FailedIsBehind(started, 0, KernelSays(Bad), DISK);
    StartedGood(started.probes);
  }

  const DISK := "nvme0n1"

  function KernelSays(health: Health): ProbeCache {
    ProbeCache(map[DISK := ProbeStatus(health, "")])
  }

  lemma {:induction false} LinuxProbesAreTwo()
    ensures TwoProbes(LinuxProbes(), HOUR_MS)
  {
  }

  lemma {:induction false} StartedGood(probes: seq<ProbeEntry>)
    requires |probes| == 2 && probes[0].cache == KernelSays(Good) && probes[1].cache == ProbeCache(map[])
    ensures Aggregate([DISK], probes).overall != Bad
  {
    OverallIsMaximum([DISK], probes, Good);
    assert probes == [probes[0], probes[1]];
  }
}
