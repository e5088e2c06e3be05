/** What every run of the agent keeps, whatever the interleaving. */
module PublicationTheorems {
  import opened Aggregation
  import opened Publication
  import opened PublicationFrames
  import opened PublicationLocks
  import opened PublicationStreams
  import opened PublicationStatus
  import opened PublicationProgress

  ghost predicate Inv(s: State) {
    RolesOk(s) && LocksOk(s) && StreamsOk(s) && StatusOk(s) && WakeUpsOk(s) && RequestsOk(s) && CooldownOk(s)
  }

  lemma {:induction false} InitialInv(disks: seq<string>, probes: seq<ProbeEntry>, now: int)
    ensures Inv(Initial(disks, probes, now))
  {
  }

  lemma {:induction false} StepInv(s: State, a: Action)
    requires Inv(s) && Enabled(s, a)
    ensures Inv(Step(s, a))
  {
    RolesKept(s, a);
    LocksKept(s, a);
    StreamsKept(s, a);
    StatusKept(s, a);
    WakeUpsKept(s, a);
    RequestsKept(s, a);
    CooldownKept(s, a);
  }

  lemma {:induction false} RunInv(s: State, actions: seq<Action>)
    requires Inv(s) && IsRun(s, actions)
    ensures Inv(After(s, actions))
    decreases |actions|
  {
    if actions != [] {
      StepInv(s, actions[0]);
      RunInv(Step(s, actions[0]), actions[1..]);
    }
  }

  /** A state that some run of an agent reaches. */
  ghost predicate Reachable(s: State) {
    exists disks, probes, now, actions ::
      IsRun(Initial(disks, probes, now), actions) && s == After(Initial(disks, probes, now), actions)
  }

  lemma {:induction false} ReachableInv(s: State)
    requires Reachable(s)
    ensures Inv(s)
  {
    var disks, probes, now, actions :|
      IsRun(Initial(disks, probes, now), actions) && s == After(Initial(disks, probes, now), actions);
    InitialInv(disks, probes, now);
    RunInv(Initial(disks, probes, now), actions);
  }

  lemma {:induction false} RunSnoc(s: State, actions: seq<Action>, a: Action)
    requires IsRun(s, actions) && Enabled(After(s, actions), a)
    ensures IsRun(s, actions + [a]) && After(s, actions + [a]) == Step(After(s, actions), a)
    decreases |actions|
  {
    if actions == [] {
      assert [] + [a] == [a] && [a][1..] == [];
    } else {
      assert (actions + [a])[1..] == actions[1..] + [a];
      RunSnoc(Step(s, actions[0]), actions[1..], a);
    }
  }

  lemma {:induction false} Reaches(s: State, a: Action)
    requires Reachable(s) && Enabled(s, a)
    ensures Reachable(Step(s, a))
  {
    var disks, probes, now, actions :|
      IsRun(Initial(disks, probes, now), actions) && s == After(Initial(disks, probes, now), actions);
    RunSnoc(Initial(disks, probes, now), actions, a);
  }

  lemma {:induction false} RunReaches(s: State, actions: seq<Action>)
    requires Reachable(s) && IsRun(s, actions)
    ensures Reachable(After(s, actions))
    decreases |actions|
  {
    if actions != [] {
      Reaches(s, actions[0]);
      RunReaches(Step(s, actions[0]), actions[1..]);
    }
  }

  // ---- streams ---------------------------------------------------------------------------------------

  /** What was published since the client registered. */
  function Since(mem: Shared, c: Client): seq<Snapshot>
    requires c.registeredAt.Some? && c.registeredAt.value <= |mem.published|
  {
    mem.published[c.registeredAt.value..]
  }

  /** A push is under way: its event is in the history, and it walks the list. */
  predicate Pushing(s: State) {
    SseMutex in s.locks && s.locks[SseMutex] in s.threads
    && s.threads[s.locks[SseMutex]].Pusher? && !s.threads[s.locks[SseMutex]].pusher.StartPush?
  }

  /**
   In every interleaving a live client has been given, or will find in its queue, exactly what was published
   since it registered, in order; only the clients that a push under way has not reached lack its event, and just
   that.  A dead client was given a prefix.  At most 16 clients are listed, every live one among them.
   */
  lemma {:induction false} EveryClientGetsEveryEvent(s: State, c: Tid)
    requires Reachable(s) && c in s.mem.heap && s.mem.heap[c].registeredAt.Some?
    ensures |s.mem.clients| <= 16
    ensures s.mem.heap[c].registeredAt.value <= |s.mem.published| && s.mem.heap[c].cursor <= |s.mem.heap[c].pending|
    ensures var client := s.mem.heap[c];
            var stream, since := Stream(client), Since(s.mem, client);
            && (client.alive ==> c in s.mem.clients)
            && (forall i | 0 <= i < |s.mem.clients| && s.mem.clients[i] == c ::
                  if i < PushCursor(s) then stream == since else since != [] && stream == since[..|since| - 1])
            && client.delivered <= since
    ensures PushCursor(s) < |s.mem.clients| ==> Pushing(s)
  {
    ReachableInv(s);
    StreamOfClient(s, c);
  }

  lemma {:induction false} StreamOfClient(s: State, c: Tid)
    requires StreamsOk(s) && c in s.mem.heap && s.mem.heap[c].registeredAt.Some?
    ensures |s.mem.clients| <= MAX_SSE_CLIENTS
    ensures s.mem.heap[c].registeredAt.value <= |s.mem.published| && s.mem.heap[c].cursor <= |s.mem.heap[c].pending|
    ensures var client, since := s.mem.heap[c], Since(s.mem, s.mem.heap[c]);
            && (client.alive ==> c in s.mem.clients)
            && (forall i | 0 <= i < |s.mem.clients| && s.mem.clients[i] == c ::
                  if i < PushCursor(s) then Stream(client) == since
                  else since != [] && Stream(client) == since[..|since| - 1])
            && client.delivered <= since
  {
    forall i | 0 <= i < |s.mem.clients| && s.mem.clients[i] == c
      ensures ListedOk(s.mem.heap[c], s.mem.published, if i < PushCursor(s) then 0 else 1)
    {
    }
    if c in s.mem.clients {
      var i :| 0 <= i < |s.mem.clients| && s.mem.clients[i] == c;
      ListedStream(s.mem, c, if i < PushCursor(s) then 0 else 1);
    } else {
      assert UnlistedOk(s.mem.heap[c], s.mem.published);
    }
  }

  lemma {:induction false} ListedStream(mem: Shared, c: Tid, lagging: nat)
    requires c in mem.heap && ListedOk(mem.heap[c], mem.published, lagging) && lagging <= 1
    ensures var client := mem.heap[c];
            && client.registeredAt.value <= |mem.published|
            && client.delivered <= Since(mem, client)
            && |Since(mem, client)| >= lagging
            && Stream(client) == Since(mem, client)[..|Since(mem, client)| - lagging]
  {
    var client := mem.heap[c];
    assert mem.published[client.registeredAt.value..|mem.published| - lagging]
        == Since(mem, client)[..|Since(mem, client)| - lagging];
    assert client.delivered <= Stream(client);
  }

  /** Nothing published is taken back, nothing delivered to `c` is, and `c` does not register twice. */
  predicate Grew(mem: Shared, mem': Shared, c: Tid) {
    && mem.published <= mem'.published
    && c in mem.heap && c in mem'.heap
    && mem.heap[c].delivered <= mem'.heap[c].delivered
    && (mem.heap[c].registeredAt.Some? ==> mem'.heap[c].registeredAt == mem.heap[c].registeredAt)
  }

  lemma {:induction false} MoveGrows(s: State, t: Tid, env: Env, c: Tid)
    requires StreamsOk(s) && CanRun(s, t) && Wants(t, s.threads[t]).None? && c in s.mem.heap
    ensures Grew(s.mem, MoveOf(s.mem, t, s.threads[t], env).mem, c)
  {
    var th := s.threads[t];
    if c == t && th == Subscriber(Register) {
      assert PlaceOk(s.mem, t, th);
    } else {
      MoveRemembers(s.mem, t, th, env, c);
    }
  }

  lemma {:induction false} StepGrows(s: State, a: Action, c: Tid)
    requires StreamsOk(s) && Enabled(s, a) && c in s.mem.heap
    ensures Grew(s.mem, Step(s, a).mem, c)
  {
    if a.Run? && Wants(a.t, s.threads[a.t]).None? {
      MoveGrows(s, a.t, a.env, c);
    }
  }

  /** The history is append-only. */
  lemma {:induction false} HistoryOnlyGrows(s: State, actions: seq<Action>, c: Tid)
    requires Reachable(s) && IsRun(s, actions) && c in s.mem.heap
    ensures Grew(s.mem, After(s, actions).mem, c)
    decreases |actions|
  {
    if actions != [] {
      ReachableInv(s);
      StepGrows(s, actions[0], c);
      Reaches(s, actions[0]);
      HistoryOnlyGrows(Step(s, actions[0]), actions[1..], c);
    }
  }

  // ---- snapshots -------------------------------------------------------------------------------------

  /** g_probeMutex is free, and the publication at start-up is over. */
  predicate AtRest(s: State) {
    ProbeMutex !in s.locks && MAIN in s.threads && s.threads[MAIN] != Publisher(StartUp, WantProbes)
  }

  /**
   Whenever g_probeMutex is free after start-up, the stored status is the aggregate of the probe entries as the last
   completed publication found them, and it has a time.  It is that of the present entries exactly when those written
   since by passes that threw answer as they did then, in particular when no refresh has thrown since.
   */
  lemma {:induction false} StatusMatchesCaches(s: State)
    requires Reachable(s) && AtRest(s)
    ensures s.mem.status.report == Aggregate(s.mem.disks, s.mem.reported) && |s.mem.reported| == |s.mem.probes|
    ensures s.mem.status.lastRefreshed.Some?
    ensures forall i: nat | i < |s.mem.probes| && i !in s.mem.unreported :: s.mem.probes[i] == s.mem.reported[i]
    ensures s.mem.status.report == Aggregate(s.mem.disks, s.mem.probes)
            <==> forall i: nat | i < |s.mem.probes| && i in s.mem.unreported ::
                   AnswersAlike(s.mem.probes[i], s.mem.reported[i], s.mem.disks)
    ensures !s.mem.thrown ==> s.mem.unreported == {} && s.mem.status.report == Aggregate(s.mem.disks, s.mem.probes)
  {
    ReachableInv(s);
    BasedExactly(s.mem);
  }

  lemma {:induction false} BasedExactly(mem: Shared)
    requires Based(mem)
    ensures mem.status.report == Aggregate(mem.disks, mem.probes)
            <==> forall i: nat | i < |mem.probes| && i in mem.unreported ::
                   AnswersAlike(mem.probes[i], mem.reported[i], mem.disks)
  {
    SameAggregateExactly(mem.disks, mem.probes, mem.reported);
    forall i: nat | i < |mem.probes| && i !in mem.unreported
      ensures AnswersAlike(mem.probes[i], mem.reported[i], mem.disks)
    {
    }
  }

  /**
   Then also every live client's stream is empty or ends with the stored status; it is not empty once the client's
   on-connect callback is over.
   */
  lemma {:induction false} StreamsEndWithStatus(s: State, c: Tid)
    requires Reachable(s) && AtRest(s) && c in s.mem.heap && s.mem.heap[c].alive && s.mem.heap[c].registeredAt.Some?
    ensures var stream := Stream(s.mem.heap[c]);
            && (stream != [] ==> stream[|stream| - 1] == s.mem.status)
            && (c in s.threads && (s.threads[c].Drainer? || s.threads[c] == Subscriber(WantRequest)) ==> stream != [])
  {
    ReachableInv(s);
    NobodyPushes(s);
    StreamIsCurrent(s, c);
    IsServed(s, c);
  }

  lemma {:induction false} IsServed(s: State, c: Tid)
    requires StatusOk(s) && c in s.mem.heap && s.mem.heap[c].registeredAt.Some?
    ensures c in s.threads && (s.threads[c].Drainer? || s.threads[c] == Subscriber(WantRequest)) ==>
              s.mem.heap[c].registeredAt.value < |s.mem.published|
  {
    if c in s.threads {
      assert ServedOk(s.mem, c, s.threads[c]);
    }
  }

  /** The thread that pushes holds g_probeMutex. */
  lemma {:induction false} NobodyPushes(s: State)
    requires LocksOk(s) && ProbeMutex !in s.locks
    ensures PushCursor(s) == |s.mem.clients|
  {
    forall t | t in s.threads ensures !s.threads[t].Pusher? {
      assert s.threads[t].Pusher? ==> Holds(t, s.threads[t], ProbeMutex);
    }
  }

  lemma {:induction false} StreamIsCurrent(s: State, c: Tid)
    requires StreamsOk(s) && PushCursor(s) == |s.mem.clients|
    requires c in s.mem.heap && s.mem.heap[c].alive && s.mem.heap[c].registeredAt.Some?
    ensures s.mem.heap[c].registeredAt.value <= |s.mem.published|
    ensures Stream(s.mem.heap[c]) == s.mem.published[s.mem.heap[c].registeredAt.value..]
  {
    assert c in s.mem.clients;
    var i :| 0 <= i < |s.mem.clients| && s.mem.clients[i] == c;
    assert ListedOk(s.mem.heap[c], s.mem.published, 0);
  }

  // ---- progress --------------------------------------------------------------------------------------

  /** Each thread of the chain waits for the next one. */
  predicate IsWaitingChain(s: State, chain: seq<Tid>) {
    |chain| >= 2 && forall i | 0 <= i < |chain| - 1 :: WaitsFor(s, chain[i], chain[i + 1])
  }

  /** No reachable state has a circular wait, and while anyone waits for a mutex some owner of a mutex can step. */
  lemma {:induction false} NoDeadlock(s: State, t: Tid) returns (u: Tid, m: Mutex)
    requires Reachable(s) && !s.mem.ended && t in s.threads && Wants(t, s.threads[t]).Some? && !CanRun(s, t)
    ensures m in s.locks && s.locks[m] == u && CanRun(s, u)
    ensures forall chain: seq<Tid> | IsWaitingChain(s, chain) :: chain[0] != chain[|chain| - 1]
  {
    ReachableInv(s);
    WantingIsNotIdle(t, s.threads[t]);
    u, m := BlockedThreadHasRunnableHolder(s, t);
    forall chain: seq<Tid> | IsWaitingChain(s, chain) ensures chain[0] != chain[|chain| - 1] {
      NoCircularWait(s, chain);
    }
  }

  lemma {:induction false} WantingIsNotIdle(t: Tid, th: Thread)
    requires Wants(t, th).Some?
    ensures !Idle(th)
  {
  }

  /** A drain thread that sleeps while its queue holds something is about to be notified by a thread that can step. */
  lemma {:induction false} NoLostWakeUp(s: State, t: Tid)
    requires Reachable(s) && !s.mem.ended && t in s.threads
    requires s.threads[t] == Drainer(Asleep) && Find(s.mem.heap, t).pending != []
    ensures exists u :: AboutToSignal(s.threads, u, t) && CanRun(s, u)
    ensures ClientMutex(t) in s.locks
  {
    ReachableInv(s);
    assert DrainerOk(s, t);
    var u :| AboutToSignal(s.threads, u, t);
    SignallerCanRun(s, u, t);
  }

  lemma {:induction false} SignallerCanRun(s: State, u: Tid, t: Tid)
    requires LocksOk(s) && !s.mem.ended && AboutToSignal(s.threads, u, t)
    ensures CanRun(s, u) && ClientMutex(t) in s.locks
  {
    assert Holds(u, s.threads[u], ClientMutex(t));
  }

  /** The background thread begins a stale-probe pass. */
  predicate PassBegins(s: State, a: Action) {
    a.Run? && a.t == REFRESHER && REFRESHER in s.threads && s.threads[REFRESHER] == Publisher(Background, BeginCollect)
  }

  function PassesBegun(s: State, actions: seq<Action>): nat
    requires IsRun(s, actions)
    decreases |actions|
  {
    if actions == [] then 0
    else (if PassBegins(s, actions[0]) then 1 else 0) + PassesBegun(Step(s, actions[0]), actions[1..])
  }

  lemma {:induction false} CoveredNeedsPass(s: State, actions: seq<Action>)
    requires Reachable(s) && IsRun(s, actions) && PassesBegun(s, actions) == 0
    ensures After(s, actions).mem.covered == s.mem.covered && After(s, actions).mem.requests >= s.mem.requests
    decreases |actions|
  {
    if actions != [] {
      ReachableInv(s);
      StepCovers(s, actions[0]);
      Reaches(s, actions[0]);
      CoveredNeedsPass(Step(s, actions[0]), actions[1..]);
    }
  }

  lemma {:induction false} StepCovers(s: State, a: Action)
    requires RolesOk(s) && StatusOk(s) && Enabled(s, a) && !PassBegins(s, a)
    ensures Step(s, a).mem.covered == s.mem.covered && Step(s, a).mem.requests >= s.mem.requests
  {
    if a.Run? && Wants(a.t, s.threads[a.t]).None? {
      assert RoleFits(a.t, RoleOf(s.threads[a.t]), s.mem.heap);
      MoveRequests(s.mem, a.t, s.threads[a.t], a.env);
      RefresherCovers(s.mem, a.t, s.threads[a.t], a.env);
    }
  }

  lemma {:induction false} RefresherCovers(mem: Shared, t: Tid, th: Thread, env: Env)
    requires th != Publisher(Background, BeginCollect)
    ensures MoveOf(mem, t, th, env).mem.covered == mem.covered
  {
    match th
    case Main(at) => MainFrame(mem, at);
    case Handler(at) => HandlerFrame(mem, at);
    case Publisher(job, at) => PublisherFrame(mem, job, at, env);
    case Pusher(job, event, k, at) => PusherFrame(mem, job, event, k, at);
    case Subscriber(at) => SubscriberFrame(mem, t, at);
    case Drainer(at) => DrainerFrame(mem, t, at, env);
    case Refresher(at) => RefresherFrame(mem, at);
    case Stopper(at) => StopperFrame(mem, at);
    case Finished =>
  }

  /**
   A background refresh requested at any moment, even in the middle of a pass, is followed by a pass that begins
   after it, unless the agent stops: until that pass the request flag stays up or the refresher is on its way
   to the pass, and it never sleeps on a raised flag without a thread about to notify it.
   */
  lemma {:induction false} EveryRequestGetsItsPass(s: State, t: Tid, env: Env, later: seq<Action>)
    requires Reachable(s) && CanRun(s, t) && s.threads[t] == Subscriber(SetRequest)
    requires IsRun(RunThread(s, t, env), later)
    ensures var s2 := RunThread(s, t, env);
            var s3 := After(s2, later);
            PassesBegun(s2, later) == 0 && s3.mem.running ==>
              && REFRESHER in s3.threads
              && (s3.mem.refreshRequested || AboutToPass(s3.threads[REFRESHER]))
              && (s3.threads[REFRESHER] == Refresher(Waiting) ==> exists u :: AboutToNotifyRefresher(s3.threads, u))
  {
    ReachableInv(s);
    var s2 := RunThread(s, t, env);
    Reaches(s, Run(t, env));
    if PassesBegun(s2, later) == 0 && After(s2, later).mem.running {
      UncoveredStaysPending(s2, later);
    }
  }

  lemma {:induction false} UncoveredStaysPending(s: State, later: seq<Action>)
    requires Reachable(s) && s.mem.covered < s.mem.requests && IsRun(s, later) && PassesBegun(s, later) == 0
    requires After(s, later).mem.running
    ensures REFRESHER in After(s, later).threads
    ensures After(s, later).mem.refreshRequested || AboutToPass(After(s, later).threads[REFRESHER])
    ensures After(s, later).threads[REFRESHER] == Refresher(Waiting) ==>
              exists u :: AboutToNotifyRefresher(After(s, later).threads, u)
  {
    CoveredNeedsPass(s, later);
    RunReaches(s, later);
    ReachableInv(After(s, later));
  }

  /** How far the refresher is from beginning its next pass while a request is pending. */
  function StepsToPass(mem: Shared, th: Thread): nat {
    match th
    case Refresher(at) =>
      (match at
       case CheckRunning => 2
       case ClearRequest => 3
       case CheckRequest => 4
       case TimedOut => 4
       case WantWait => 5
       case Notified => 5
       case LoopHead => 6
       case Waiting => 6
       case ParkRefresher => 7
       case NotStarted => 7)
    case Publisher(_, at) =>
      (match at
       case BeginCollect => 0
       case Threw => 0
       case WantProbes => 1
       case Published => 7
       case WantPush(_) => 10 + 5 * MAX_SSE_CLIENTS
       case Build => 11 + 5 * MAX_SSE_CLIENTS
       case WantBuild => 12 + 5 * MAX_SSE_CLIENTS
       case Store(_) => 13 + 5 * MAX_SSE_CLIENTS
       case WantStore(_) => 14 + 5 * MAX_SSE_CLIENTS
       case Summarise => 15 + 5 * MAX_SSE_CLIENTS
       case Collect(_, next, _) => 16 + 5 * MAX_SSE_CLIENTS + (if next < |mem.probes| then |mem.probes| - next else 0))
    case Pusher(_, _, k, at) =>
      var rest := 5 * (if k < |mem.clients| then |mem.clients| - k else 0);
      (match at
       case StartPush => 9 + rest
       case Scan => 8 + rest
       case WantClient(_) => 7 + rest
       case Append(_) => 6 + rest
       case Signal(_) => 5 + rest
       case Leave(_) => 4 + rest)
    case _ => 0
  }

  ghost predicate RequestPending(s: State) {
    s.mem.running && REFRESHER in s.threads && (s.mem.refreshRequested || AboutToPass(s.threads[REFRESHER]))
  }

  /**
   While a request is pending and the agent runs, each step of the refresher brings its next pass nearer and no
   step of anyone else takes it further away.
   */
  lemma {:induction false} RefresherApproachesPass(s: State, a: Action)
    requires Reachable(s) && RequestPending(s) && Enabled(s, a) && !PassBegins(s, a)
    requires Step(s, a).mem.running
    ensures RequestPending(Step(s, a))
    ensures StepsToPass(Step(s, a).mem, Step(s, a).threads[REFRESHER]) <= StepsToPass(s.mem, s.threads[REFRESHER])
    ensures a.Run? && a.t == REFRESHER ==>
              StepsToPass(Step(s, a).mem, Step(s, a).threads[REFRESHER]) < StepsToPass(s.mem, s.threads[REFRESHER])
  {
    ReachableInv(s);
    if a.Run? && a.t == REFRESHER {
      RefresherStepApproaches(s, a.env);
    } else if a.Run? && Wants(a.t, s.threads[a.t]).None? {
      OthersDoNotDelay(s, a.t, a.env);
    } else {
      QuietStepsDoNotDelay(s, a);
    }
  }

  function RefresherSteps(actions: seq<Action>): nat {
    if actions == [] then 0
    else (if actions[0].Run? && actions[0].t == REFRESHER then 1 else 0) + RefresherSteps(actions[1..])
  }

  /** g_running is never set again. */
  lemma {:induction false} StoppedForGood(s: State, actions: seq<Action>)
    requires Reachable(s) && IsRun(s, actions) && After(s, actions).mem.running
    ensures s.mem.running
    decreases |actions|
  {
    if actions != [] {
      ReachableInv(s);
      Reaches(s, actions[0]);
      StoppedForGood(Step(s, actions[0]), actions[1..]);
      StepStopsForGood(s, actions[0]);
    }
  }

  lemma {:induction false} StepStopsForGood(s: State, a: Action)
    requires RolesOk(s) && Enabled(s, a) && Step(s, a).mem.running
    ensures s.mem.running
  {
    if a.Run? && Wants(a.t, s.threads[a.t]).None? {
      assert RoleFits(a.t, RoleOf(s.threads[a.t]), s.mem.heap);
      MoveRequests(s.mem, a.t, s.threads[a.t], a.env);
    }
  }

  /**
   A pending request costs the refresher a bounded number of steps before its next pass, whatever anyone else does.
   */
  lemma {:induction false} PassComesWithinBound(s: State, actions: seq<Action>)
    requires Reachable(s) && RequestPending(s) && IsRun(s, actions)
    requires PassesBegun(s, actions) == 0 && After(s, actions).mem.running
    ensures RefresherSteps(actions) <= StepsToPass(s.mem, s.threads[REFRESHER])
    decreases |actions|
  {
    if actions != [] {
      var a, s1 := actions[0], Step(s, actions[0]);
      Reaches(s, a);
      StoppedForGood(s1, actions[1..]);
      RefresherApproachesPass(s, a);
      PassComesWithinBound(s1, actions[1..]);
    }
  }

  lemma {:induction false} QuietStepsDoNotDelay(s: State, a: Action)
    requires RequestPending(s) && Enabled(s, a)
    requires a.Run? ==> a.t != REFRESHER && Wants(a.t, s.threads[a.t]).Some?
    ensures RequestPending(Step(s, a))
    ensures StepsToPass(Step(s, a).mem, Step(s, a).threads[REFRESHER]) <= StepsToPass(s.mem, s.threads[REFRESHER])
  {
  }

  lemma {:induction false} RefresherStepApproaches(s: State, env: Env)
    requires RolesOk(s) && StreamsOk(s) && StatusOk(s) && RequestsOk(s) && RequestPending(s) && CanRun(s, REFRESHER)
    requires s.threads[REFRESHER] != Publisher(Background, BeginCollect)
    ensures var s' := RunThread(s, REFRESHER, env);
            RequestPending(s') && StepsToPass(s'.mem, s'.threads[REFRESHER]) < StepsToPass(s.mem, s.threads[REFRESHER])
  {
    assert PlaceOk(s.mem, REFRESHER, s.threads[REFRESHER]);
    assert RoleFits(REFRESHER, RoleOf(s.threads[REFRESHER]), s.mem.heap);
    assert ScopeOk(s.mem, s.threads[REFRESHER]);
    if Wants(REFRESHER, s.threads[REFRESHER]).None? {
      RefresherMoveApproaches(s.mem, s.threads[REFRESHER], env);
    } else {
      AcquireApproaches(s.mem, s.threads[REFRESHER]);
    }
  }

  /** One step nearer, with the request still pending. */
  predicate Approaches(mem: Shared, th: Thread, mv: Move) {
    && StepsToPass(mv.mem, mv.next) < StepsToPass(mem, th)
    && (mv.mem.refreshRequested || AboutToPass(mv.next))
  }

  lemma {:induction false} PublisherApproaches(mem: Shared, at: PublisherAt, env: Env)
    requires Wants(REFRESHER, Publisher(Background, at)).None? && |mem.clients| <= MAX_SSE_CLIENTS
    requires mem.refreshRequested && at != BeginCollect && at != Threw
    ensures Approaches(mem, Publisher(Background, at), PublisherStep(mem, Background, at, env))
  {
    PublisherFrame(mem, Background, at, env);
  }

  lemma {:induction false} PusherApproaches(mem: Shared, event: Snapshot, k: nat, at: PusherAt)
    requires Wants(REFRESHER, Pusher(Background, event, k, at)).None?
            && PlaceOk(mem, REFRESHER, Pusher(Background, event, k, at))
    requires mem.refreshRequested
    ensures Approaches(mem, Pusher(Background, event, k, at), PusherStep(mem, Background, event, k, at))
  {
    PusherFrame(mem, Background, event, k, at);
  }

  lemma {:induction false} RefresherMoveApproaches(mem: Shared, th: Thread, env: Env)
    requires RoleFits(REFRESHER, RoleOf(th), mem.heap) && Wants(REFRESHER, th).None? && !Idle(th)
    requires PlaceOk(mem, REFRESHER, th) && |mem.clients| <= MAX_SSE_CLIENTS
    requires mem.running && (mem.refreshRequested || AboutToPass(th))
    requires th == Refresher(ParkRefresher) ==> !mem.refreshRequested
    requires th != Publisher(Background, BeginCollect) && th != Publisher(Background, Threw)
    ensures var mv := MoveOf(mem, REFRESHER, th, env); Approaches(mem, th, mv) && mv.mem.running
  {
    match th
    case Publisher(job, at) =>
      PublisherFrame(mem, job, at, env);
      PublisherApproaches(mem, at, env);
    case Pusher(job, event, k, at) =>
      PusherFrame(mem, job, event, k, at);
      PusherApproaches(mem, event, k, at);
    case Refresher(at) =>
      RefresherFrame(mem, at);
  }

  lemma {:induction false} AcquireApproaches(mem: Shared, th: Thread)
    requires RoleFits(REFRESHER, RoleOf(th), mem.heap) && Wants(REFRESHER, th).Some?
    requires |mem.clients| <= MAX_SSE_CLIENTS
    requires mem.refreshRequested || AboutToPass(th)
    ensures var next := Wants(REFRESHER, th).value.1;
            StepsToPass(mem, next) < StepsToPass(mem, th) && (mem.refreshRequested || AboutToPass(next))
  {
  }

  lemma {:induction false} OthersDoNotDelay(s: State, t: Tid, env: Env)
    requires RolesOk(s) && LocksOk(s) && RequestPending(s) && t != REFRESHER && CanRun(s, t)
            && Wants(t, s.threads[t]).None?
    requires RunThread(s, t, env).mem.running
    ensures var s' := RunThread(s, t, env);
            && RequestPending(s')
            && StepsToPass(s'.mem, s'.threads[REFRESHER]) <= StepsToPass(s.mem, s.threads[REFRESHER])
  {
    var th, refresher := s.threads[t], s.threads[REFRESHER];
    var mv := MoveOf(s.mem, t, th, env);
    assert RoleFits(t, RoleOf(th), s.mem.heap);
    MoveRequests(s.mem, t, th, env);
    MoveKeepsProbeCount(s.mem, t, th, env);
    if refresher.Pusher? {
      if Holds(t, th, SseMutex) { OneHolder(s, t, REFRESHER, SseMutex); }
      OthersKeepList(s.mem, t, th, env);
    }
    SameDistance(s.mem, mv.mem, refresher);
  }

  lemma {:induction false} SameDistance(mem: Shared, mem': Shared, th: Thread)
    requires |mem'.probes| == |mem.probes| && (th.Pusher? ==> mem'.clients == mem.clients)
    ensures StepsToPass(mem', th) == StepsToPass(mem, th)
  {
  }

  lemma {:induction false} MoveKeepsProbeCount(mem: Shared, t: Tid, th: Thread, env: Env)
    ensures |MoveOf(mem, t, th, env).mem.probes| == |mem.probes|
  {
    match th
    case Main(at) => MainFrame(mem, at);
    case Handler(at) => HandlerFrame(mem, at);
    case Publisher(job, at) => PublisherFrame(mem, job, at, env);
    case Pusher(job, event, k, at) => PusherFrame(mem, job, event, k, at);
    case Subscriber(at) => SubscriberFrame(mem, t, at);
    case Drainer(at) => DrainerFrame(mem, t, at, env);
    case Refresher(at) => RefresherFrame(mem, at);
    case Stopper(at) => StopperFrame(mem, at);
    case Finished =>
  }

  /** Manual refreshes are carried out at least ten minutes apart. */
  lemma {:induction false} ManualRefreshesAreSpaced(s: State, i: nat, j: nat)
    requires Reachable(s) && i < j < |s.mem.manualRefreshes|
    ensures s.mem.manualRefreshes[j] - s.mem.manualRefreshes[i] >= (j - i) * 600_000
  {
    ReachableInv(s);
    SpacingAdds(s.mem.manualRefreshes, i, j);
  }

  /**
   A manual refresh is let in exactly when none that was carried out was let in during the last ten minutes; one that
   threw does not count.
   */
  lemma {:induction false} AdmittedExactly(s: State, t: Tid, env: Env)
    requires Reachable(s) && CanRun(s, t) && s.threads[t] == Handler(CheckCooldown)
    ensures var s' := RunThread(s, t, env);
            s'.mem == s.mem
            && s'.threads[t] == if forall at | at in s.mem.manualRefreshes :: s.mem.now - at >= 600_000
                                then Publisher(ManualRefresh(s.mem.now), WantProbes) else Handler(WantStatus)
  {
    ReachableInv(s);
    CooldownIsOver(s);
  }

  /** A manual refresh that was carried out counts from the moment it was let in. */
  lemma {:induction false} CompletedRefreshCounts(s: State, t: Tid, env: Env, at: int)
    requires Reachable(s) && CanRun(s, t) && s.threads[t] == Handler(RecordRefresh(at))
    ensures RunThread(s, t, env).mem.manualRefreshes == s.mem.manualRefreshes + [at] && at <= s.mem.now
    ensures RunThread(s, t, env).threads[t] == Handler(WantStatus)
  {
    ReachableInv(s);
    assert AdmittedOk(s.mem, s.threads[t]);
  }

  lemma {:induction false} CooldownIsOver(s: State)
    requires CooldownOk(s)
    ensures (s.mem.now - s.mem.lastManualRefresh) / MS_PER_SECOND >= REFRESH_COOLDOWN_SECONDS
            <==> forall at | at in s.mem.manualRefreshes :: s.mem.now - at >= 600_000
  {
    var times := s.mem.manualRefreshes;
    forall at | at in times ensures at <= s.mem.lastManualRefresh {
      var i :| 0 <= i < |times| && times[i] == at;
      SpacingAdds(times, i, |times| - 1);
    }
    assert times != [] ==> times[|times| - 1] in times;
  }

  lemma {:induction false} SpacingAdds(times: seq<int>, i: nat, j: nat)
    requires SpacedOut(times) && i <= j < |times|
    ensures times[j] - times[i] >= (j - i) * COOLDOWN_MS
  {
    if i < j {
      SpacingAdds(times, i, j - 1);
      assert times[j - 1] + COOLDOWN_MS <= times[j - 1 + 1];
    }
  }
}
