/** What a refresh pass does, from the moment it reads the clock to the moment it gives g_probeMutex back. */
module PublicationPasses {
  import opened Aggregation
  import opened Publication
  import opened PublicationFrames
  import opened PublicationLocks
  import opened PublicationStatus
  import opened PublicationTheorems

  /** What a pass that read the clock as `started` is for: all entries, the stale ones, or the stale proactive ones. */
  predicate IsStale(e: ProbeEntry, job: Job, started: int) {
    match job
    case ManualRefresh(_) => true
    case Background => started - e.lastRefresh >= e.policy.interval
    case StartUp => e.policy.proactiveCollection && started - e.lastRefresh >= e.policy.interval
    case NewClient => false
  }

  predicate SomeStale(entries: seq<ProbeEntry>, n: nat, job: Job, started: int)
    requires n <= |entries|
  {
    exists i: nat :: i < n && IsStale(entries[i], job, started)
  }

  // ---- in every reachable state --------------------------------------------------------------------------

  /** The pass has nothing left to do for the entry. */
  predicate UpToDate(e: ProbeEntry, job: Job, started: int) {
    match job
    case ManualRefresh(_) => e.lastRefresh == started
    case Background => e.policy.interval == 0 || started - e.lastRefresh < e.policy.interval
    case StartUp =>
      e.policy.proactiveCollection ==> e.policy.interval == 0 || started - e.lastRefresh < e.policy.interval
    case NewClient => false
  }

  predicate CollectedOk(mem: Shared, th: Thread) {
    th.Publisher? ==>
      && (th.job == NewClient ==> !th.publisher.BeginCollect? && !th.publisher.Collect? && !th.publisher.Threw?)
      && (th.publisher.Collect? ==>
            && th.publisher.next <= |mem.probes|
            && forall i: nat | i < th.publisher.next :: UpToDate(mem.probes[i], th.job, th.publisher.started))
  }

  ghost predicate PassesOk(s: State) {
    forall t | t in s.threads :: CollectedOk(s.mem, s.threads[t])
  }

  lemma {:induction false} CollectKeepsPass(mem: Shared, job: Job, started: int, next: nat, any: bool, env: Env)
    requires next < |mem.probes| && CollectedOk(mem, Publisher(job, Collect(started, next, any)))
    ensures var mv := CollectStep(mem, job, started, next, any, env); CollectedOk(mv.mem, mv.next)
  {
  }

  lemma {:induction false} PublisherKeepsPass(mem: Shared, t: Tid, job: Job, at: PublisherAt, env: Env)
    requires CollectedOk(mem, Publisher(job, at)) && Wants(t, Publisher(job, at)).None?
    ensures CollectedOk(PublisherStep(mem, job, at, env).mem, PublisherStep(mem, job, at, env).next)
  {
    if at.Collect? && at.next < |mem.probes| {
      CollectKeepsPass(mem, job, at.started, at.next, at.any, env);
    }
  }

  lemma {:induction false} OutsiderKeepsPass(mem: Shared, t: Tid, th: Thread, env: Env)
    requires !th.Publisher? && Wants(t, th).None? && !Idle(th)
    ensures var next := MoveOf(mem, t, th, env).next;
            next.Publisher? ==> next.publisher.WantProbes? || next.publisher.Published?
  {
  }

  lemma {:induction false} MoverKeepsPass(mem: Shared, t: Tid, th: Thread, env: Env)
    requires CollectedOk(mem, th) && Wants(t, th).None? && !Idle(th)
    ensures CollectedOk(MoveOf(mem, t, th, env).mem, MoveOf(mem, t, th, env).next)
  {
    if th.Publisher? {
      PublisherKeepsPass(mem, t, th.job, th.publisher, env);
    } else {
      OutsiderKeepsPass(mem, t, th, env);
    }
  }

  lemma {:induction false} AcquireKeepsPass(mem: Shared, t: Tid, th: Thread)
    requires CollectedOk(mem, th) && Wants(t, th).Some?
    ensures CollectedOk(mem, Wants(t, th).value.1)
  {
  }

  /** The caches are only written under g_probeMutex. */
  lemma {:induction false} OthersKeepCaches(s: State, t: Tid, env: Env, u: Tid)
    requires LocksOk(s) && CanRun(s, t) && Wants(t, s.threads[t]).None?
    requires u in s.threads && u != t && InProbeScope(s.threads[u])
    ensures var mem' := MoveOf(s.mem, t, s.threads[t], env).mem;
            SameCaches(s.mem, mem') && mem'.published == s.mem.published
  {
    assert Holds(u, s.threads[u], ProbeMutex);
    if InProbeScope(s.threads[t]) {
      assert Holds(t, s.threads[t], ProbeMutex);
      OneHolder(s, t, u, ProbeMutex);
    }
    OutsidersKeepStatus(s.mem, t, s.threads[t], env);
  }

  lemma {:induction false} NudgedPass(mem: Shared, th: Thread, start: bool)
    requires CollectedOk(mem, th)
    ensures CollectedOk(mem, Nudged(th, start))
  {
  }

  lemma {:induction false} OthersKeepPass(s: State, t: Tid, env: Env, u: Tid)
    requires LocksOk(s) && PassesOk(s) && CanRun(s, t) && Wants(t, s.threads[t]).None?
    requires u in s.threads && u != t
    ensures CollectedOk(RunThread(s, t, env).mem, RunThread(s, t, env).threads[u])
  {
    var mv := MoveOf(s.mem, t, s.threads[t], env);
    assert CollectedOk(s.mem, s.threads[u]);
    if InProbeScope(s.threads[u]) {
      OthersKeepCaches(s, t, env, u);
    }
    NudgedPass(mv.mem, s.threads[u], mv.wakes.Start?);
  }

  lemma {:induction false} RunKeepsPasses(s: State, t: Tid, env: Env)
    requires LocksOk(s) && PassesOk(s) && CanRun(s, t)
    ensures PassesOk(RunThread(s, t, env))
  {
    var s' := RunThread(s, t, env);
    assert CollectedOk(s.mem, s.threads[t]);
    if Wants(t, s.threads[t]).Some? {
      AcquireKeepsPass(s.mem, t, s.threads[t]);
    } else {
      MoverKeepsPass(s.mem, t, s.threads[t], env);
      forall u | u in s'.threads ensures CollectedOk(s'.mem, s'.threads[u]) {
        if u != t { OthersKeepPass(s, t, env, u); }
      }
    }
  }

  lemma {:induction false} PassesKept(s: State, a: Action)
    requires LocksOk(s) && PassesOk(s) && Enabled(s, a)
    ensures PassesOk(Step(s, a))
  {
    if a.Run? {
      RunKeepsPasses(s, a.t, a.env);
    } else {
      var s' := Step(s, a);
      forall u | u in s'.threads ensures CollectedOk(s'.mem, s'.threads[u]) {
        assert u in s.threads ==> CollectedOk(s.mem, s.threads[u]);
      }
    }
  }

  lemma {:induction false} RunPasses(s: State, actions: seq<Action>)
    requires Reachable(s) && PassesOk(s) && IsRun(s, actions)
    ensures PassesOk(After(s, actions))
    decreases |actions|
  {
    if actions != [] {
      ReachableInv(s);
      PassesKept(s, actions[0]);
      Reaches(s, actions[0]);
      RunPasses(Step(s, actions[0]), actions[1..]);
    }
  }

  lemma {:induction false} ReachablePasses(s: State)
    requires Reachable(s)
    ensures PassesOk(s)
  {
    var disks, probes, now, actions :|
      IsRun(Initial(disks, probes, now), actions) && s == After(Initial(disks, probes, now), actions);
    assert IsRun(Initial(disks, probes, now), []);
    RunPasses(Initial(disks, probes, now), actions);
  }

  /**
   In every reachable state a pass has left nothing to do behind its loop variable: no stale entry of the background
   pass, no stale proactive entry at start-up, no entry without the pass's own time in a manual refresh.
   */
  lemma {:induction false} NothingStaleBehind(s: State, t: Tid, job: Job, started: int, next: nat, any: bool, i: nat)
    requires Reachable(s) && t in s.threads && s.threads[t] == Publisher(job, Collect(started, next, any)) && i < next
    ensures next <= |s.mem.probes| && job != NewClient
    ensures var e := s.mem.probes[i];
            && (job == Background ==> e.policy.interval == 0 || started - e.lastRefresh < e.policy.interval)
            && (job == StartUp && e.policy.proactiveCollection ==>
                  e.policy.interval == 0 || started - e.lastRefresh < e.policy.interval)
            && (job.ManualRefresh? ==> e.lastRefresh == started)
  {
    ReachablePasses(s);
    assert CollectedOk(s.mem, s.threads[t]);
    assert UpToDate(s.mem.probes[i], job, started);
  }

  // ---- over a whole pass ----------------------------------------------------------------------------------

  /** How a pass found the agent, and what the probes have answered it so far. */
  datatype Pass = Pass(job: Job, started: int, before: Shared, got: seq<ProbeCache>)

  /** The first `next` entries are done, the others as the pass found them. */
  predicate Collected(p: Pass, probes: seq<ProbeEntry>, next: nat) {
    && |probes| == |p.before.probes| && next <= |probes| && (p.job != NewClient ==> |p.got| == next)
    && forall i: nat | i < |probes| ::
         probes[i] == if i < next && IsStale(p.before.probes[i], p.job, p.started)
                      then ProbeEntry(p.before.probes[i].policy, p.got[i], p.started) else p.before.probes[i]
  }

  /** Some entry was stale when the pass began. */
  predicate Publishes(p: Pass) {
    p.job == Background ==> SomeStale(p.before.probes, |p.before.probes|, Background, p.started)
  }

  /** The refresh of the entry the pass came to last threw. */
  predicate Broken(p: Pass, probes: seq<ProbeEntry>) {
    && |probes| == |p.before.probes| && p.job != NewClient && 0 < |p.got| <= |probes|
    && forall i: nat | i < |probes| ::
         var e := p.before.probes[i];
         probes[i] == if i >= |p.got| || !IsStale(e, p.job, p.started) then e
                      else ProbeEntry(e.policy, p.got[i], if i == |p.got| - 1 then e.lastRefresh else p.started)
  }

  /** The stored status is the aggregate of the entries. */
  predicate Reported(mem: Shared) {
    mem.status.report == Aggregate(mem.disks, mem.probes)
  }

  predicate Finished(p: Pass, mem: Shared) {
    && Collected(p, mem.probes, |mem.probes|)
    && (if Publishes(p) then mem.published == p.before.published + [mem.status] && Reported(mem)
        else mem.published == p.before.published && mem.status == p.before.status)
  }

  /** Where the pass is while its thread is at `th`. */
  predicate PassAt(p: Pass, mem: Shared, th: Thread) {
    match th
    case Publisher(job, at) =>
      && job == p.job
      && (match at
          case WantProbes => false
          case BeginCollect => false
          case Collect(started, next, any) =>
            && job != NewClient && started == p.started && Collected(p, mem.probes, next)
            && (any <==> SomeStale(p.before.probes, next, job, started))
            && mem.published == p.before.published && mem.status == p.before.status
          case Threw => mem.published == p.before.published && Broken(p, mem.probes)
          case Published => Finished(p, mem)
          case Summarise => Unpublished(p, mem)
          case WantStore(report) => report == Aggregate(mem.disks, mem.probes) && Unpublished(p, mem)
          case Store(report) => report == Aggregate(mem.disks, mem.probes) && Unpublished(p, mem)
          case WantBuild => Reported(mem) && Unpublished(p, mem)
          case Build => Reported(mem) && Unpublished(p, mem)
          case WantPush(event) => event == mem.status && Reported(mem) && Unpublished(p, mem))
    case Pusher(job, event, _, at) =>
      && job == p.job && event == mem.status
      && (if at.StartPush? then Reported(mem) && Unpublished(p, mem) else Publishes(p) && Finished(p, mem))
    case _ => false
  }

  predicate Unpublished(p: Pass, mem: Shared) {
    Publishes(p) && Collected(p, mem.probes, |mem.probes|) && mem.published == p.before.published
  }

  predicate Asks(mem: Shared, th: Thread) {
    th.Publisher? && th.publisher.Collect? && th.publisher.next < |mem.probes|
  }

  /** The pass after its thread has moved. */
  function Further(p: Pass, mem: Shared, th: Thread, env: Env): Pass {
    if Asks(mem, th) then p.(got := p.got + [env.collected]) else p
  }

  lemma {:induction false} StaleSnoc(entries: seq<ProbeEntry>, n: nat, job: Job, started: int)
    requires n < |entries|
    ensures SomeStale(entries, n + 1, job, started)
            <==> SomeStale(entries, n, job, started) || IsStale(entries[n], job, started)
  {
  }

  lemma {:induction false} StaleIsWanted(mem: Shared, p: Pass, next: nat)
    requires next < |mem.probes| && Collected(p, mem.probes, next) && p.job != NewClient
    ensures mem.probes[next] == p.before.probes[next]
    ensures Wanted(mem, p.job, p.started, next) <==> IsStale(p.before.probes[next], p.job, p.started)
  {
  }

  /** One more entry is done. */
  lemma {:induction false} CollectedSnoc(p: Pass, probes: seq<ProbeEntry>, next: nat, collected: ProbeCache)
    requires next < |probes| && Collected(p, probes, next) && p.job != NewClient
    ensures var e := p.before.probes[next];
            var e' := if IsStale(e, p.job, p.started) then ProbeEntry(e.policy, collected, p.started) else e;
            Collected(p.(got := p.got + [collected]), probes[next := e'], next + 1)
  {
    var got := p.got + [collected];
    forall i: nat | i < next ensures got[i] == p.got[i] {
    }
  }

  lemma {:induction false} ThrowBreaks(p: Pass, probes: seq<ProbeEntry>, next: nat, collected: ProbeCache)
    requires next < |probes| && Collected(p, probes, next) && p.job != NewClient
    requires IsStale(p.before.probes[next], p.job, p.started)
    ensures var e := p.before.probes[next];
            Broken(p.(got := p.got + [collected]), probes[next := e.(cache := collected)])
  {
    var got := p.got + [collected];
    forall i: nat | i < next ensures got[i] == p.got[i] {
    }
  }

  lemma {:induction false} CollectGoesOn(p: Pass, mem: Shared, job: Job, started: int, next: nat, any: bool, env: Env)
    requires next < |mem.probes| && PassAt(p, mem, Publisher(job, Collect(started, next, any)))
    ensures var mv := CollectStep(mem, job, started, next, any, env);
            PassAt(p.(got := p.got + [env.collected]), mv.mem, mv.next)
  {
    StaleSnoc(p.before.probes, next, job, started);
    StaleIsWanted(mem, p, next);
    CollectedSnoc(p, mem.probes, next, env.collected);
    if !Wanted(mem, job, started, next) {
      assert mem.probes[next := mem.probes[next]] == mem.probes;
    } else if env.throws {
      ThrowBreaks(p, mem.probes, next, env.collected);
    }
  }

  lemma {:induction false} PublisherGoesOn(p: Pass, mem: Shared, t: Tid, job: Job, at: PublisherAt, env: Env)
    requires PassAt(p, mem, Publisher(job, at)) && Wants(t, Publisher(job, at)).None? && !at.Published? && !at.Threw?
    ensures var mv := PublisherStep(mem, job, at, env);
            PassAt(Further(p, mem, Publisher(job, at), env), mv.mem, mv.next)
  {
    if at.Collect? && at.next < |mem.probes| {
      CollectGoesOn(p, mem, job, at.started, at.next, at.any, env);
    }
  }

  lemma {:induction false} PusherGoesOn(p: Pass, mem: Shared, job: Job, event: Snapshot, k: nat, at: PusherAt)
    requires PassAt(p, mem, Pusher(job, event, k, at))
    ensures var mv := PusherStep(mem, job, event, k, at); PassAt(p, mv.mem, mv.next)
  {
    PusherFrame(mem, job, event, k, at);
  }

  lemma {:induction false} MoveGoesOn(p: Pass, mem: Shared, t: Tid, th: Thread, env: Env)
    requires PassAt(p, mem, th) && Wants(t, th).None?
    requires InProbeScope(MoveOf(mem, t, th, env).next) && !(th.Publisher? && th.publisher.Threw?)
    ensures PassAt(Further(p, mem, th, env), MoveOf(mem, t, th, env).mem, MoveOf(mem, t, th, env).next)
  {
    match th
    case Publisher(job, at) => PublisherGoesOn(p, mem, t, job, at, env);
    case Pusher(job, event, k, at) => PusherGoesOn(p, mem, job, event, k, at);
  }

  lemma {:induction false} AcquireGoesOn(p: Pass, mem: Shared, t: Tid, th: Thread)
    requires PassAt(p, mem, th) && Wants(t, th).Some?
    ensures PassAt(p, mem, Wants(t, th).value.1) && !Asks(mem, th)
  {
  }

  lemma {:induction false} SameCachesSamePass(p: Pass, mem: Shared, mem': Shared, th: Thread)
    requires PassAt(p, mem, th) && SameCaches(mem, mem') && mem'.published == mem.published
    ensures PassAt(p, mem', th)
  {
  }

  /** Thread `t` holds g_probeMutex. */
  predicate InPass(s: State, t: Tid) {
    ProbeMutex in s.locks && s.locks[ProbeMutex] == t
  }

  predicate InPassAllAlong(s: State, actions: seq<Action>, t: Tid)
    requires IsRun(s, actions)
    decreases |actions|
  {
    InPass(s, t) && (actions == [] || InPassAllAlong(Step(s, actions[0]), actions[1..], t))
  }

  /** What the probes answer to thread `t` in a run, in order. */
  function Answered(s: State, actions: seq<Action>, t: Tid): seq<ProbeCache>
    requires IsRun(s, actions)
    decreases |actions|
  {
    if actions == [] then []
    else
      var a := actions[0];
      (if a.Run? && a.t == t && Asks(s.mem, s.threads[t]) then [a.env.collected] else [])
      + Answered(Step(s, a), actions[1..], t)
  }

  lemma {:induction false} OwnStepGoesOn(p: Pass, s: State, t: Tid, env: Env)
    requires LocksOk(s) && StatusOk(s) && CanRun(s, t) && InPass(s, t) && InPass(RunThread(s, t, env), t)
    requires LocksOk(RunThread(s, t, env)) && PassAt(p, s.mem, s.threads[t])
    ensures PassAt(Further(p, s.mem, s.threads[t], env), RunThread(s, t, env).mem, RunThread(s, t, env).threads[t])
  {
    var th, s' := s.threads[t], RunThread(s, t, env);
    assert Holds(t, s'.threads[t], ProbeMutex);
    assert ScopeOk(s.mem, th);
    if Wants(t, th).Some? {
      AcquireGoesOn(p, s.mem, t, th);
    } else {
      MoveGoesOn(p, s.mem, t, th, env);
    }
  }

  lemma {:induction false} ScopeNotNudged(th: Thread, start: bool)
    requires InProbeScope(th)
    ensures Nudged(th, start) == th
  {
  }

  lemma {:induction false} OthersLetPassBe(p: Pass, s: State, a: Action, t: Tid)
    requires LocksOk(s) && Enabled(s, a) && InPass(s, t) && t in s.threads && PassAt(p, s.mem, s.threads[t])
    requires a.Run? ==> a.t != t
    ensures t in Step(s, a).threads && PassAt(p, Step(s, a).mem, Step(s, a).threads[t])
  {
    var th := s.threads[t];
    ScopeNotNudged(th, true);
    ScopeNotNudged(th, false);
    if a.Run? && Wants(a.t, s.threads[a.t]).None? {
      OthersKeepCaches(s, a.t, a.env, t);
    }
    SameCachesSamePass(p, s.mem, Step(s, a).mem, th);
  }

  /** The pass after a step of anyone. */
  function Onward(p: Pass, s: State, a: Action, t: Tid): Pass {
    if a.Run? && a.t == t && t in s.threads then Further(p, s.mem, s.threads[t], a.env) else p
  }

  /** One step of anyone, with the pass still under way after it. */
  lemma {:induction false} StepGoesOn(p: Pass, s: State, a: Action, t: Tid)
    requires Inv(s) && Enabled(s, a) && InPass(s, t) && InPass(Step(s, a), t) && t in s.threads
    requires PassAt(p, s.mem, s.threads[t])
    ensures t in Step(s, a).threads
    ensures PassAt(Onward(p, s, a, t), Step(s, a).mem, Step(s, a).threads[t])
  {
    StepInv(s, a);
    if a.Run? && a.t == t {
      OwnStepGoesOn(p, s, t, a.env);
    } else {
      OthersLetPassBe(p, s, a, t);
    }
  }

  lemma {:induction false} AnsweredHead(p: Pass, s: State, actions: seq<Action>, t: Tid)
    requires IsRun(s, actions) && actions != [] && t in s.threads
    ensures p.(got := p.got + Answered(s, actions, t))
            == var p1 := Onward(p, s, actions[0], t);
               p1.(got := p1.got + Answered(Step(s, actions[0]), actions[1..], t))
  {
    var a, rest := actions[0], Answered(Step(s, actions[0]), actions[1..], t);
    if a.Run? && a.t == t && Asks(s.mem, s.threads[t]) {
      assert p.got + ([a.env.collected] + rest) == p.got + [a.env.collected] + rest;
    } else {
      assert [] + rest == rest;
    }
  }

  lemma {:induction false} PassGoesOn(p: Pass, s: State, actions: seq<Action>, t: Tid)
    requires Reachable(s) && IsRun(s, actions) && InPassAllAlong(s, actions, t)
    requires t in s.threads && PassAt(p, s.mem, s.threads[t])
    ensures t in After(s, actions).threads
    ensures PassAt(p.(got := p.got + Answered(s, actions, t)), After(s, actions).mem, After(s, actions).threads[t])
    decreases |actions|
  {
    if actions == [] {
      assert p.got + [] == p.got;
    } else {
      AnsweredHead(p, s, actions, t);
      ReachableInv(s);
      StepGoesOn(p, s, actions[0], t);
      Reaches(s, actions[0]);
      PassGoesOn(Onward(p, s, actions[0], t), Step(s, actions[0]), actions[1..], t);
    }
  }

  // ---- what a pass has done in the end --------------------------------------------------------------------

  /** From `s` on thread `t` holds g_probeMutex during a run and gives it back in the step after that. */
  predicate HoldsDuring(s: State, t: Tid, during: seq<Action>, last: Env) {
    && IsRun(s, during) && InPassAllAlong(s, during, t)
    && CanRun(After(s, during), t) && !InPass(RunThread(After(s, during), t, last), t)
  }

  function Released(s: State, t: Tid, during: seq<Action>, last: Env): State
    requires HoldsDuring(s, t, during, last)
  {
    RunThread(After(s, during), t, last)
  }

  /** Where the thread of a pass goes on. */
  predicate GoesOnAt(job: Job, th: Thread) {
    match job
    case StartUp => th == Main(StartRefresher)
    case Background => th == Refresher(LoopHead)
    case ManualRefresh(at) => th == Handler(RecordRefresh(at))
    case NewClient => th == Subscriber(WantRequest)
  }

  lemma {:induction false} LeavingScope(p: Pass, mem: Shared, t: Tid, th: Thread, env: Env)
    requires PassAt(p, mem, th) && Wants(t, th).None? && !InProbeScope(MoveOf(mem, t, th, env).next)
    ensures MoveOf(mem, t, th, env).mem == mem
    ensures th == Publisher(p.job, Published) || (th == Publisher(p.job, Threw) && p.job.ManualRefresh?)
    ensures var next := MoveOf(mem, t, th, env).next;
            if th == Publisher(p.job, Threw) then next == Handler(RefreshFailed) else GoesOnAt(p.job, next)
  {
  }

  lemma {:induction false} PassEnds(p: Pass, s: State, t: Tid, during: seq<Action>, last: Env)
    requires Reachable(s) && HoldsDuring(s, t, during, last) && t in s.threads && PassAt(p, s.mem, s.threads[t])
    ensures var end := Released(s, t, during, last);
            var p' := p.(got := p.got + Answered(s, during, t));
            && t in end.threads
            && (if end.threads[t] == Handler(RefreshFailed) then
                  Broken(p', end.mem.probes) && end.mem.published == p.before.published && p.job.ManualRefresh?
                else Finished(p', end.mem) && GoesOnAt(p.job, end.threads[t]))
  {
    var s2 := After(s, during);
    PassGoesOn(p, s, during, t);
    RunReaches(s, during);
    ReachableInv(s2);
    StepInv(s2, Run(t, last));
    NotHolding(RunThread(s2, t, last), t);
    var p' := p.(got := p.got + Answered(s, during, t));
    if Wants(t, s2.threads[t]).Some? {
      AcquireGoesOn(p', s2.mem, t, s2.threads[t]);
    } else {
      LeavingScope(p', s2.mem, t, s2.threads[t], last);
    }
  }

  lemma {:induction false} NotHolding(s: State, t: Tid)
    requires LocksOk(s) && t in s.threads && !InPass(s, t)
    ensures !InProbeScope(s.threads[t])
  {
    if InProbeScope(s.threads[t]) {
      assert Holds(t, s.threads[t], ProbeMutex);
    }
  }

  /** The pass of thread `t` begins with its next step: it reads the clock. */
  predicate IsPass(s: State, t: Tid, job: Job, first: Env, during: seq<Action>, last: Env) {
    && CanRun(s, t) && s.threads[t] == Publisher(job, BeginCollect)
    && HoldsDuring(RunThread(s, t, first), t, during, last)
  }

  lemma {:induction false} PassFromBegin(s: State, t: Tid, job: Job, first: Env, during: seq<Action>, last: Env)
    requires Reachable(s) && IsPass(s, t, job, first, during, last)
    ensures var s1 := RunThread(s, t, first);
            var end, p := Released(s1, t, during, last), Pass(job, s.mem.now, s.mem, Answered(s1, during, t));
            && job != NewClient && t in end.threads
            && (if end.threads[t] == Handler(RefreshFailed) then
                  Broken(p, end.mem.probes) && end.mem.published == s.mem.published && job.ManualRefresh?
                else Finished(p, end.mem) && GoesOnAt(job, end.threads[t]))
  {
    var s1, p := RunThread(s, t, first), Pass(job, s.mem.now, s.mem, []);
    ReachablePasses(s);
    assert CollectedOk(s.mem, s.threads[t]);
    Reaches(s, Run(t, first));
    assert PassAt(p, s1.mem, s1.threads[t]);
    PassEnds(p, s1, t, during, last);
    assert [] + Answered(s1, during, t) == Answered(s1, during, t);
  }

  /**
   A pass that ends without an exception has refreshed exactly what was to be refreshed when it began: those entries
   hold what their probes answered and the pass's time, all others are as they were.  One event has been published, that
   of the stored status, or nothing at all if a background pass found nothing stale.
   */
  lemma {:induction false} PassRefreshesExactly(s: State, t: Tid, job: Job, first: Env, during: seq<Action>, last: Env)
    requires Reachable(s) && IsPass(s, t, job, first, during, last)
    requires var end := Released(RunThread(s, t, first), t, during, last);
             t in end.threads && end.threads[t] != Handler(RefreshFailed)
    ensures var got := Answered(RunThread(s, t, first), during, t);
            var before, after := s.mem, Released(RunThread(s, t, first), t, during, last).mem;
            && |after.probes| == |before.probes| == |got|
            && (forall i: nat | i < |before.probes| ::
                  after.probes[i]
                  == if IsStale(before.probes[i], job, before.now)
                     then before.probes[i].(cache := got[i], lastRefresh := before.now) else before.probes[i])
            && (if job == Background && forall e | e in before.probes :: !IsStale(e, job, before.now)
                then after.published == before.published && after.status == before.status
                else after.published == before.published + [after.status]
                     && after.status.report == Aggregate(after.disks, after.probes))
            && GoesOnAt(job, Released(RunThread(s, t, first), t, during, last).threads[t])
  {
    PassFromBegin(s, t, job, first, during, last);
    StaleAmong(s.mem.probes, job, s.mem.now);
  }

  lemma {:induction false} StaleAmong(entries: seq<ProbeEntry>, job: Job, started: int)
    ensures SomeStale(entries, |entries|, job, started) <==> exists e :: e in entries && IsStale(e, job, started)
  {
    if e :| e in entries && IsStale(e, job, started) {
      var i :| 0 <= i < |entries| && entries[i] == e;
    }
    if i: nat :| i < |entries| && IsStale(entries[i], job, started) {
      assert entries[i] in entries;
    }
  }

  /** A background pass leaves no entry that was due at its start, provided its interval is positive. */
  lemma {:induction false} BackgroundPassLeavesNothingDue(s: State, first: Env, during: seq<Action>, last: Env,
      e: ProbeEntry)
    requires Reachable(s) && IsPass(s, REFRESHER, Background, first, during, last)
    requires e in Released(RunThread(s, REFRESHER, first), REFRESHER, during, last).mem.probes
    ensures e.policy.interval > 0 ==> s.mem.now - e.lastRefresh < e.policy.interval
  {
    PassFromBegin(s, REFRESHER, Background, first, during, last);
    var after := Released(RunThread(s, REFRESHER, first), REFRESHER, during, last).mem.probes;
    var i :| 0 <= i < |after| && after[i] == e;
  }

  /**
   A manual refresh that throws has refreshed the entries before that of the throwing probe; that one keeps its time
   and what its probe had collected by then, the entries behind it are untouched, and nothing is published.
   */
  lemma {:induction false} FailedPassStopsThere(s: State, t: Tid, job: Job, first: Env, during: seq<Action>, last: Env)
    returns (k: nat)
    requires Reachable(s) && IsPass(s, t, job, first, during, last)
    requires var end := Released(RunThread(s, t, first), t, during, last);
             t in end.threads && end.threads[t] == Handler(RefreshFailed)
    ensures var got := Answered(RunThread(s, t, first), during, t);
            var before, after := s.mem, Released(RunThread(s, t, first), t, during, last).mem;
            && job.ManualRefresh? && |after.probes| == |before.probes| && k < |before.probes| && |got| == k + 1
            && (forall i: nat | i < k ::
                  after.probes[i] == before.probes[i].(cache := got[i], lastRefresh := before.now))
            && after.probes[k] == before.probes[k].(cache := got[k])
            && (forall i: nat | k < i < |before.probes| :: after.probes[i] == before.probes[i])
            && after.published == before.published
  {
    PassFromBegin(s, t, job, first, during, last);
    k := |Answered(RunThread(s, t, first), during, t)| - 1;
  }

  /** A client that connects makes the agent publish its caches as they are, and then asks for a background pass. */
  lemma {:induction false} ConnectPublishesCaches(s: State, t: Tid, during: seq<Action>, last: Env)
    requires Reachable(s) && t in s.threads && s.threads[t] == Publisher(NewClient, Summarise)
    requires HoldsDuring(s, t, during, last)
    ensures t in Released(s, t, during, last).threads
    ensures Released(s, t, during, last).threads[t] == Subscriber(WantRequest)
    ensures var after := Released(s, t, during, last).mem;
            && after.probes == s.mem.probes && after.published == s.mem.published + [after.status]
            && after.status.report == Aggregate(after.disks, after.probes)
  {
    PassEnds(Pass(NewClient, s.mem.now, s.mem, []), s, t, during, last);
  }
}
