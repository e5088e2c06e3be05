/** From every reachable state in which a background refresh is requested, the agent can get to its next pass. */
module PublicationLiveness {
  import opened Aggregation
  import opened Publication
  import opened PublicationFrames
  import opened PublicationLocks
  import opened PublicationProgress
  import opened PublicationTheorems
  import opened PublicationScopes

  // ---- the refresher is there ---------------------------------------------------------------------

  /** The refresher is not done while the agent runs, and nobody requests a pass before it has started. */
  predicate StandsBy(s: State) {
    && REFRESHER in s.threads
    && (s.threads[REFRESHER] == Refresher(NotStarted) ==> !s.mem.refreshRequested)
    && (s.threads[REFRESHER] == Finished ==> !s.mem.running)
  }

  lemma {:induction false} BackgroundGoesOn(mem: Shared, at: PublisherAt, env: Env)
    ensures !PublisherStep(mem, Background, at, env).next.Finished?
  {
  }

  lemma {:induction false} RefresherStandsBy(mem: Shared, th: Thread, env: Env)
    requires RoleFits(REFRESHER, RoleOf(th), mem.heap) && Wants(REFRESHER, th).None? && !Idle(th)
    ensures var mv := MoveOf(mem, REFRESHER, th, env);
            mv.next != Refresher(NotStarted) && (mv.next.Finished? ==> !mv.mem.running)
  {
    match th
    case Publisher(job, at) => BackgroundGoesOn(mem, at, env);
    case Pusher(job, event, k, at) =>
    case Refresher(at) =>
  }

  lemma {:induction false} OthersLetStandBy(s: State, t: Tid, env: Env)
    requires RolesOk(s) && StandsBy(s) && CanRun(s, t) && t != REFRESHER && Wants(t, s.threads[t]).None?
    ensures StandsBy(RunThread(s, t, env))
  {
    var th, mv := s.threads[t], MoveOf(s.mem, t, s.threads[t], env);
    assert RoleFits(t, RoleOf(th), s.mem.heap);
    MoveRequests(s.mem, t, th, env);
    NudgedRole(s.threads[REFRESHER], mv.wakes.Start?);
    if s.threads[REFRESHER] == Refresher(NotStarted) {
      assert t == MAIN;
    }
  }

  lemma {:induction false} StepStandsBy(s: State, a: Action)
    requires RolesOk(s) && StandsBy(s) && Enabled(s, a)
    ensures StandsBy(Step(s, a))
  {
    if a.Run? && Wants(a.t, s.threads[a.t]).None? {
      assert RoleFits(a.t, RoleOf(s.threads[a.t]), s.mem.heap);
      if a.t == REFRESHER {
        RefresherStandsBy(s.mem, s.threads[a.t], a.env);
      } else {
        OthersLetStandBy(s, a.t, a.env);
      }
    }
  }

  lemma {:induction false} RunStandsBy(s: State, actions: seq<Action>)
    requires Reachable(s) && StandsBy(s) && IsRun(s, actions)
    ensures StandsBy(After(s, actions))
    decreases |actions|
  {
    if actions != [] {
      ReachableInv(s);
      StepStandsBy(s, actions[0]);
      Reaches(s, actions[0]);
      RunStandsBy(Step(s, actions[0]), actions[1..]);
    }
  }

  lemma {:induction false} ReachableStandsBy(s: State)
    requires Reachable(s)
    ensures StandsBy(s)
  {
    var disks, probes, now, actions :|
      IsRun(Initial(disks, probes, now), actions) && s == After(Initial(disks, probes, now), actions);
    assert IsRun(Initial(disks, probes, now), []);
    RunStandsBy(Initial(disks, probes, now), actions);
  }

  // ---- what all owners together still have to do ---------------------------------------------------

  ghost function OwedSteps(s: State, owners: set<Tid>): nat
    requires owners <= s.threads.Keys
  {
    if owners == {} then 0
    else
      var t :| t in owners;
      ScopeSteps(s.mem, t, s.threads[t]) + OwedSteps(s, owners - {t})
  }

  lemma {:induction false} OwedStepsOf(s: State, owners: set<Tid>, t: Tid)
    requires owners <= s.threads.Keys && t in owners
    ensures OwedSteps(s, owners) == ScopeSteps(s.mem, t, s.threads[t]) + OwedSteps(s, owners - {t})
    decreases owners
  {
    var u :| u in owners && OwedSteps(s, owners) == ScopeSteps(s.mem, u, s.threads[u]) + OwedSteps(s, owners - {u});
    if u != t {
      OwedStepsOf(s, owners - {u}, t);
      OwedStepsOf(s, owners - {t}, u);
      assert owners - {u} - {t} == owners - {t} - {u};
    }
  }

  /** Fewer owners with shorter scopes owe less. */
  lemma {:induction false} OwedStepsFall(s: State, owners: set<Tid>, s': State, owners': set<Tid>)
    requires owners <= s.threads.Keys && owners' <= s'.threads.Keys && owners' <= owners
    requires forall t | t in owners' :: ScopeSteps(s'.mem, t, s'.threads[t]) <= ScopeSteps(s.mem, t, s.threads[t])
    ensures OwedSteps(s', owners') <= OwedSteps(s, owners)
    decreases owners
  {
    if owners == {} {
      assert owners' == {};
    } else {
      var t :| t in owners;
      OwedStepsFall(s, owners - {t}, s', owners' - {t});
      OwedStepsOf(s, owners, t);
      if t in owners' {
        OwedStepsOf(s', owners', t);
      } else {
        assert owners' - {t} == owners';
      }
    }
  }

  lemma {:induction false} OwnersAreThreads(s: State)
    requires LocksOk(s)
    ensures Owners(s) <= s.threads.Keys
  {
    forall t | t in Owners(s) ensures t in s.threads {
      OwnersHold(s, t);
    }
  }

  /** When an owner runs, nobody becomes an owner who was none. */
  lemma {:induction false} OwnersRemain(s: State, u: Tid, env: Env)
    requires CanRun(s, u) && u in Owners(s)
    ensures Owners(RunThread(s, u, env)) <= Owners(s)
  {
    var s' := RunThread(s, u, env);
    forall t | t in Owners(s') ensures t in Owners(s) {
      var m :| m in s'.locks && s'.locks[m] == t;
      assert t == u || (m in s.locks && s.locks[m] == t);
    }
  }

  /** When an owner runs, the owners together owe less. */
  lemma {:induction false} OwnerPays(s: State, u: Tid, env: Env)
    requires Reachable(s) && CanRun(s, u) && u in Owners(s)
    ensures Owners(s) <= s.threads.Keys && Owners(RunThread(s, u, env)) <= RunThread(s, u, env).threads.Keys
    ensures OwedSteps(RunThread(s, u, env), Owners(RunThread(s, u, env))) < OwedSteps(s, Owners(s))
  {
    var s' := RunThread(s, u, env);
    ReachableInv(s);
    StepInv(s, Run(u, env));
    OwnersAreThreads(s);
    OwnersAreThreads(s');
    OwnersRemain(s, u, env);
    OwnersHold(s, u);
    ScopeStepsPositive(s.mem, u, s.threads[u]);
    forall t | t in Owners(s') ensures ScopeSteps(s'.mem, t, s'.threads[t]) <= ScopeSteps(s.mem, t, s.threads[t]) {
      ScopesEnd(s, Run(u, env), t);
    }
    OwedStepsOf(s, Owners(s), u);
    OwedStepsFall(s, Owners(s) - {u}, s', Owners(s') - {u});
    if u in Owners(s') {
      OwedStepsOf(s', Owners(s'), u);
      ScopesEnd(s, Run(u, env), u);
    } else {
      assert Owners(s') - {u} == Owners(s');
    }
  }

  // ---- a run to the pass --------------------------------------------------------------------------

  /** No probe throws and no connection closes. */
  const CALM := Env(ProbeCache(map[]), false, 0, false)

  lemma {:induction false} CalmPublisherLives(mem: Shared, job: Job, at: PublisherAt)
    ensures PublisherStep(mem, job, at, CALM).mem.ended == mem.ended
  {
  }

  lemma {:induction false} CalmMoveLives(mem: Shared, t: Tid, th: Thread)
    ensures MoveOf(mem, t, th, CALM).mem.ended == mem.ended
  {
    match th
    case Main(at) => MainFrame(mem, at);
    case Handler(at) => HandlerFrame(mem, at);
    case Publisher(job, at) => CalmPublisherLives(mem, job, at);
    case Pusher(job, event, k, at) => PusherFrame(mem, job, event, k, at);
    case Subscriber(at) => SubscriberFrame(mem, t, at);
    case Drainer(at) => DrainerFrame(mem, t, at, CALM);
    case Refresher(at) => RefresherFrame(mem, at);
    case Stopper(at) => StopperFrame(mem, at);
    case Finished =>
  }

  /** Nobody stops the agent while holding a mutex. */
  lemma {:induction false} OwnerKeepsRunning(mem: Shared, t: Tid, th: Thread, env: Env)
    requires HoldsAny(t, th)
    ensures MoveOf(mem, t, th, env).mem.running == mem.running
  {
    match th
    case Handler(at) => HandlerFrame(mem, at);
    case Publisher(job, at) => PublisherFrame(mem, job, at, env);
    case Pusher(job, event, k, at) => PusherFrame(mem, job, event, k, at);
    case Subscriber(at) => SubscriberFrame(mem, t, at);
    case Drainer(at) => DrainerFrame(mem, t, at, env);
    case Refresher(at) => RefresherFrame(mem, at);
    case Stopper(at) =>
  }

  /** The state after a step is one from which the pass is nearer. */
  ghost predicate Nearer(s: State, s': State) {
    && RequestPending(s) && RequestPending(s') && !s'.mem.ended
    && Owners(s) <= s.threads.Keys && Owners(s') <= s'.threads.Keys
    && var steps, steps' := StepsToPass(s.mem, s.threads[REFRESHER]), StepsToPass(s'.mem, s'.threads[REFRESHER]);
       steps' < steps || (steps' <= steps && OwedSteps(s', Owners(s')) < OwedSteps(s, Owners(s)))
  }

  lemma {:induction false} RefresherGetsNearer(s: State)
    requires Reachable(s) && RequestPending(s) && CanRun(s, REFRESHER)
    requires s.threads[REFRESHER] != Publisher(Background, BeginCollect)
    ensures Nearer(s, RunThread(s, REFRESHER, CALM))
  {
    ReachableInv(s);
    StepInv(s, Run(REFRESHER, CALM));
    RefresherStepApproaches(s, CALM);
    OwnersAreThreads(s);
    OwnersAreThreads(RunThread(s, REFRESHER, CALM));
    CalmMoveLives(s.mem, REFRESHER, s.threads[REFRESHER]);
  }

  lemma {:induction false} TimeOutGetsNearer(s: State)
    requires Reachable(s) && RequestPending(s) && !s.mem.ended && s.threads[REFRESHER] == Refresher(Waiting)
    ensures Nearer(s, Step(s, TimeOut))
  {
    ReachableInv(s);
    OwnersAreThreads(s);
    TimeOutIsNearer(s);
  }

  lemma {:induction false} TimeOutIsNearer(s: State)
    requires RequestPending(s) && !s.mem.ended && s.threads[REFRESHER] == Refresher(Waiting)
    requires Owners(s) <= s.threads.Keys
    ensures Nearer(s, Step(s, TimeOut))
  {
    assert StepsToPass(s.mem, Refresher(TimedOut)) < StepsToPass(s.mem, Refresher(Waiting));
  }

  lemma {:induction false} OwnerGetsNearer(s: State, u: Tid)
    requires Reachable(s) && RequestPending(s) && CanRun(s, u) && u in Owners(s) && u != REFRESHER
    ensures Nearer(s, RunThread(s, u, CALM))
  {
    ReachableInv(s);
    OwnersHold(s, u);
    OwnerKeepsRunning(s.mem, u, s.threads[u], CALM);
    CalmMoveLives(s.mem, u, s.threads[u]);
    RefresherApproachesPass(s, Run(u, CALM));
    OwnerPays(s, u, CALM);
  }

  lemma {:induction false} WaitingRefresher(s: State)
    requires Reachable(s) && RequestPending(s) && Idle(s.threads[REFRESHER])
    ensures s.threads[REFRESHER] == Refresher(Waiting)
  {
    ReachableInv(s);
    ReachableStandsBy(s);
    assert RoleFits(REFRESHER, RoleOf(s.threads[REFRESHER]), s.mem.heap);
  }

  lemma {:induction false} BlockingOwner(s: State, t: Tid) returns (u: Tid)
    requires Reachable(s) && !s.mem.ended && t in s.threads && !Idle(s.threads[t]) && !CanRun(s, t)
    ensures u in Owners(s) && CanRun(s, u) && u != t
  {
    ReachableInv(s);
    var m;
    u, m := BlockedThreadHasRunnableHolder(s, t);
    assert s.locks[m] == u;
  }

  lemma {:induction false} SomeStepGetsNearer(s: State) returns (a: Action)
    requires Reachable(s) && RequestPending(s) && !s.mem.ended
    requires s.threads[REFRESHER] != Publisher(Background, BeginCollect)
    ensures Enabled(s, a) && Nearer(s, Step(s, a))
  {
    if CanRun(s, REFRESHER) {
      RefresherGetsNearer(s);
      a := Run(REFRESHER, CALM);
    } else if Idle(s.threads[REFRESHER]) {
      WaitingRefresher(s);
      TimeOutGetsNearer(s);
      a := TimeOut;
    } else {
      var u := BlockingOwner(s, REFRESHER);
      OwnerGetsNearer(s, u);
      a := Run(u, CALM);
    }
  }

  /**
   From every reachable state of a running agent in which a background refresh is requested, some continuation begins
   a stale-probe pass, with steps of the refresher, of owners of mutexes, and the expiry of the refresher's wait only.
   */
  lemma {:induction false} PassIsPossible(s: State) returns (later: seq<Action>)
    requires Reachable(s) && RequestPending(s) && !s.mem.ended
    ensures IsRun(s, later) && PassesBegun(s, later) >= 1
    decreases StepsToPass(s.mem, s.threads[REFRESHER]), OwedSteps(s, Owners(s) * s.threads.Keys)
  {
    if s.threads[REFRESHER] == Publisher(Background, BeginCollect) {
      later := [Run(REFRESHER, CALM)];
      assert later[1..] == [];
    } else {
      var a := SomeStepGetsNearer(s);
      var s' := Step(s, a);
      Reaches(s, a);
      assert Owners(s) * s.threads.Keys == Owners(s) && Owners(s') * s'.threads.Keys == Owners(s');
      var rest := PassIsPossible(s');
      later := [a] + rest;
      assert later[1..] == rest;
    }
  }
}
