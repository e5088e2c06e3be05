/** The stored status always catches up with the probe caches before g_probeMutex is free. */
module PublicationStatus {
  import opened Wrappers
  import opened Aggregation
  import opened Publication
  import opened PublicationFrames
  import opened PublicationLocks
  import opened PublicationStreams

  /** The stored status was made from `reported`, from which only unreported entries differ. */
  predicate Based(mem: Shared) {
    && mem.status.report == Aggregate(mem.disks, mem.reported) && mem.status.lastRefreshed.Some?
    && |mem.probes| == |mem.reported|
    && (forall i: nat | i < |mem.probes| && i !in mem.unreported :: mem.probes[i] == mem.reported[i])
  }

  /** The stored status is what was published last. */
  predicate Announced(mem: Shared) {
    mem.published != [] && mem.published[|mem.published| - 1] == mem.status
  }

  /** Without an exception every entry has been reported. */
  predicate Settled(mem: Shared) {
    Based(mem) && Announced(mem) && (!mem.thrown ==> mem.unreported == {})
  }

  /** The stored status knows every entry. */
  predicate Current(mem: Shared) {
    Based(mem) && mem.unreported == {} && !mem.thrown
  }

  /** What the holder of g_probeMutex has established so far. */
  predicate ScopeOk(mem: Shared, th: Thread) {
    match th
    case Publisher(job, at) =>
      (match at
       case WantProbes => true
       case BeginCollect => job != StartUp ==> Settled(mem)
       case Collect(_, _, any) =>
         && (job != StartUp ==> Based(mem) && Announced(mem))
         && (job != StartUp && !any ==> Settled(mem))
       case Threw => mem.thrown && (if job.ManualRefresh? then Settled(mem) else mem.ended)
       case Summarise => true
       case WantStore(report) => report == Aggregate(mem.disks, mem.probes)
       case Store(report) => report == Aggregate(mem.disks, mem.probes)
       case WantBuild => Current(mem)
       case Build => Current(mem)
       case WantPush(event) => Current(mem) && event == mem.status
       case Published => Settled(mem))
    case Pusher(_, event, _, at) => Current(mem) && event == mem.status && (at != StartPush ==> Announced(mem))
    case _ => true
  }

  /** A client's thread past its on-connect callback has seen something published since it registered. */
  predicate ServedOk(mem: Shared, t: Tid, th: Thread) {
    var at := Find(mem.heap, t).registeredAt;
    match th
    case Publisher(job, p) => job == NewClient ==> at.Some? && (p == Published ==> at.value < |mem.published|)
    case Pusher(job, _, _, p) => job == NewClient ==> at.Some? && (p != StartPush ==> at.value < |mem.published|)
    case Subscriber(p) => !p.WantRegister? && !p.Register? ==> at.Some? && at.value < |mem.published|
    case Drainer(_) => at.Some? && at.value < |mem.published|
    case _ => true
  }

  ghost predicate StatusOk(s: State) {
    && MAIN in s.threads
    && (ProbeMutex !in s.locks && s.threads[MAIN] != Publisher(StartUp, WantProbes) ==> Settled(s.mem))
    && (forall t | t in s.threads :: ScopeOk(s.mem, s.threads[t]))
    && (forall t | t in s.threads :: ServedOk(s.mem, t, s.threads[t]))
  }

  // ---- one move ------------------------------------------------------------------------------------

  lemma {:induction false} CollectKeepsScope(mem: Shared, job: Job, started: int, next: nat, any: bool, env: Env)
    requires next < |mem.probes| && ScopeOk(mem, Publisher(job, Collect(started, next, any)))
    ensures var mv := CollectStep(mem, job, started, next, any, env); ScopeOk(mv.mem, mv.next)
  {
    if Wanted(mem, job, started, next) && env.throws {
      ThrowKeepsScope(mem, job, next, env.collected);
    }
  }

  lemma {:induction false} ThrowKeepsScope(mem: Shared, job: Job, i: nat, collected: ProbeCache)
    requires i < |mem.probes| && (job != StartUp ==> Based(mem) && Announced(mem))
    ensures ScopeOk(ThrowAt(mem, job, i, collected), Publisher(job, Threw))
  {
  }

  lemma {:induction false} PublisherKeepsScope(mem: Shared, t: Tid, job: Job, at: PublisherAt, env: Env)
    requires Wants(t, Publisher(job, at)).None? && ScopeOk(mem, Publisher(job, at))
    ensures var mv := PublisherStep(mem, job, at, env);
            ScopeOk(mv.mem, mv.next) && (mv.gives == Some(ProbeMutex) ==> Settled(mv.mem))
  {
    match at
    case Collect(started, next, any) =>
      if next < |mem.probes| { CollectKeepsScope(mem, job, started, next, any, env); }
    case Store(report) => StoreKeepsScope(mem, job, report, env);
    case BeginCollect => BeginKeepsScope(mem, job, env);
    case _ => ReportKeepsScope(mem, t, job, at, env);
  }

  lemma {:induction false} ReportKeepsScope(mem: Shared, t: Tid, job: Job, at: PublisherAt, env: Env)
    requires Wants(t, Publisher(job, at)).None? && ScopeOk(mem, Publisher(job, at))
    requires !at.BeginCollect? && !at.Collect? && !at.Store?
    ensures var mv := PublisherStep(mem, job, at, env);
            ScopeOk(mv.mem, mv.next) && (mv.gives == Some(ProbeMutex) ==> Settled(mv.mem))
  {
  }

  lemma {:induction false} StoreKeepsScope(mem: Shared, job: Job, report: StatusReport, env: Env)
    requires ScopeOk(mem, Publisher(job, Store(report)))
    ensures var mv := PublisherStep(mem, job, Store(report), env);
            ScopeOk(mv.mem, mv.next) && mv.gives != Some(ProbeMutex)
  {
  }

  lemma {:induction false} BeginKeepsScope(mem: Shared, job: Job, env: Env)
    requires ScopeOk(mem, Publisher(job, BeginCollect))
    ensures ScopeOk(PublisherStep(mem, job, BeginCollect, env).mem, PublisherStep(mem, job, BeginCollect, env).next)
  {
    if job != StartUp {
      assert Settled(mem.(covered := mem.requests));
    }
  }

  lemma {:induction false} PusherKeepsScope(mem: Shared, job: Job, event: Snapshot, k: nat, at: PusherAt)
    requires ScopeOk(mem, Pusher(job, event, k, at))
    ensures var mv := PusherStep(mem, job, event, k, at);
            ScopeOk(mv.mem, mv.next) && mv.gives != Some(ProbeMutex)
  {
    PusherFrame(mem, job, event, k, at);
  }

  /** Outside the scope there is nothing to establish. */
  lemma {:induction false} OutsideScopeOk(mem: Shared, th: Thread)
    requires !InProbeScope(th)
    ensures ScopeOk(mem, th)
  {
  }

  /** Outsiders get into the scope only by taking g_probeMutex. */
  predicate StaysOutside(mv: Move) {
    !InProbeScope(mv.next) && mv.gives != Some(ProbeMutex)
  }

  lemma {:induction false} HandlerStaysOutside(mem: Shared, at: HandlerAt)
    ensures StaysOutside(HandlerStep(mem, at))
  {
  }

  lemma {:induction false} SubscriberStaysOutside(mem: Shared, t: Tid, at: SubscriberAt)
    ensures StaysOutside(SubscriberStep(mem, t, at))
  {
  }

  lemma {:induction false} DrainerStaysOutside(mem: Shared, t: Tid, at: DrainerAt, env: Env)
    ensures StaysOutside(DrainerStep(mem, t, at, env))
  {
  }

  lemma {:induction false} RefresherStaysOutside(mem: Shared, at: RefresherAt)
    ensures StaysOutside(RefresherStep(mem, at))
  {
  }

  lemma {:induction false} OutsiderKeepsScope(mem: Shared, t: Tid, th: Thread, env: Env)
    requires !th.Publisher? && !th.Pusher?
    ensures var mv := MoveOf(mem, t, th, env);
            ScopeOk(mv.mem, mv.next) && mv.gives != Some(ProbeMutex)
  {
    if !InProbeScope(MoveOf(mem, t, th, env).next) {
      OutsideScopeOk(MoveOf(mem, t, th, env).mem, MoveOf(mem, t, th, env).next);
    }
    match th
    case Main(at) =>
    case Handler(at) => HandlerStaysOutside(mem, at);
    case Subscriber(at) => SubscriberStaysOutside(mem, t, at);
    case Drainer(at) => DrainerStaysOutside(mem, t, at, env);
    case Refresher(at) => RefresherStaysOutside(mem, at);
    case Stopper(at) =>
    case Finished =>
  }

  lemma {:induction false} MoveKeepsScope(mem: Shared, t: Tid, th: Thread, env: Env)
    requires Wants(t, th).None? && !Idle(th) && ScopeOk(mem, th)
    ensures var mv := MoveOf(mem, t, th, env);
            ScopeOk(mv.mem, mv.next) && (mv.gives == Some(ProbeMutex) ==> Settled(mv.mem))
  {
    match th
    case Publisher(job, at) => PublisherKeepsScope(mem, t, job, at, env);
    case Pusher(job, event, k, at) => PusherKeepsScope(mem, job, event, k, at);
    case _ => OutsiderKeepsScope(mem, t, th, env);
  }

  /** What the scope has established rests on the caches, the status and the history only. */
  lemma {:induction false} SameStatusSameScope(mem: Shared, mem': Shared, th: Thread)
    requires SameCaches(mem, mem') && mem'.published == mem.published
    ensures ScopeOk(mem, th) ==> ScopeOk(mem', th)
    ensures Settled(mem') <==> Settled(mem)
  {
  }

  /** Outside g_probeMutex nobody touches the caches, the status or the history. */
  lemma {:induction false} OutsidersKeepStatus(mem: Shared, t: Tid, th: Thread, env: Env)
    requires Wants(t, th).None? && !InProbeScope(th)
    ensures var mem' := MoveOf(mem, t, th, env).mem; SameCaches(mem, mem') && mem'.published == mem.published
  {
    match th
    case Main(at) => MainFrame(mem, at);
    case Handler(at) => HandlerFrame(mem, at);
    case Publisher(_, _) =>
    case Subscriber(at) => SubscriberFrame(mem, t, at);
    case Drainer(at) => DrainerFrame(mem, t, at, env);
    case Refresher(at) => RefresherFrame(mem, at);
    case Stopper(at) => StopperFrame(mem, at);
    case Finished =>
  }

  /** What was published and delivered stays, and so does the time at which client `u` registered. */
  predicate Remembers(mem: Shared, mem': Shared, u: Tid) {
    && mem.published <= mem'.published
    && (u in mem.heap ==> u in mem'.heap)
    && Find(mem.heap, u).delivered <= Find(mem'.heap, u).delivered
    && Find(mem.heap, u).registeredAt == Find(mem'.heap, u).registeredAt
  }

  lemma {:induction false} PublisherRemembers(mem: Shared, job: Job, at: PublisherAt, env: Env, u: Tid)
    ensures Remembers(mem, PublisherStep(mem, job, at, env).mem, u)
  {
    PublisherFrame(mem, job, at, env);
  }

  lemma {:induction false} PusherRemembers(mem: Shared, job: Job, event: Snapshot, k: nat, at: PusherAt, u: Tid)
    ensures Remembers(mem, PusherStep(mem, job, event, k, at).mem, u)
  {
  }

  lemma {:induction false} SetRemembers(mem: Shared, c: Tid, client: Client, u: Tid)
    requires Find(mem.heap, c).delivered <= client.delivered && Find(mem.heap, c).registeredAt == client.registeredAt
    ensures Remembers(mem, SetClient(mem, c, client), u)
  {
  }

  lemma {:induction false} DrainerRemembers(mem: Shared, t: Tid, at: DrainerAt, env: Env, u: Tid)
    ensures Remembers(mem, DrainerStep(mem, t, at, env).mem, u)
  {
    var client := Find(mem.heap, t);
    if at.HangUp? {
      SetRemembers(mem, t, client.(alive := false), u);
    } else if at.Deliver? {
      SetRemembers(mem, t, Delivered(client), u);
    }
  }

  lemma {:induction false} SubscriberRemembers(mem: Shared, t: Tid, at: SubscriberAt, u: Tid)
    requires u != t || !at.Register?
    ensures Remembers(mem, SubscriberStep(mem, t, at).mem, u)
  {
  }

  lemma {:induction false} StopperRemembers(mem: Shared, at: StopperAt, u: Tid)
    ensures Remembers(mem, StopperStep(mem, at).mem, u)
  {
  }

  lemma {:induction false} MoveRemembers(mem: Shared, t: Tid, th: Thread, env: Env, u: Tid)
    requires !(u == t && th == Subscriber(Register))
    ensures Remembers(mem, MoveOf(mem, t, th, env).mem, u)
  {
    match th
    case Publisher(job, at) => PublisherRemembers(mem, job, at, env, u);
    case Pusher(job, event, k, at) => PusherRemembers(mem, job, event, k, at, u);
    case Subscriber(at) => SubscriberRemembers(mem, t, at, u);
    case Drainer(at) => DrainerRemembers(mem, t, at, env, u);
    case Stopper(at) => StopperRemembers(mem, at, u);
    case Main(at) => MainFrame(mem, at);
    case Handler(at) => HandlerFrame(mem, at);
    case Refresher(at) => RefresherFrame(mem, at);
    case Finished =>
  }

  lemma {:induction false} SubscriberStaysServed(mem: Shared, t: Tid, at: SubscriberAt)
    requires Wants(t, Subscriber(at)).None? && ServedOk(mem, t, Subscriber(at))
    ensures var mv := SubscriberStep(mem, t, at); ServedOk(mv.mem, t, mv.next)
  {
  }

  lemma {:induction false} MoveKeepsServed(mem: Shared, t: Tid, th: Thread, env: Env)
    requires Wants(t, th).None? && !Idle(th) && ServedOk(mem, t, th)
    requires Find(mem.heap, t).registeredAt.Some? ==> Find(mem.heap, t).registeredAt.value <= |mem.published|
    ensures var mv := MoveOf(mem, t, th, env); ServedOk(mv.mem, t, mv.next)
  {
    var mv := MoveOf(mem, t, th, env);
    match th
    case Publisher(job, at) =>
      MoveRemembers(mem, t, th, env, t);
      RememberedIsServed(mem, mv.mem, t, mv.next);
    case Pusher(job, event, k, at) =>
      MoveRemembers(mem, t, th, env, t);
      RememberedIsServed(mem.(published := mv.mem.published), mv.mem, t, mv.next);
    case Subscriber(at) => SubscriberStaysServed(mem, t, at);
    case Drainer(at) =>
      MoveRemembers(mem, t, th, env, t);
      RememberedIsServed(mem, mv.mem, t, mv.next);
    case _ => UnservedRoles(mem, t, th, env);
  }

  lemma {:induction false} UnservedRoles(mem: Shared, t: Tid, th: Thread, env: Env)
    requires th.Main? || th.Handler? || th.Refresher? || th.Stopper?
    ensures var mv := MoveOf(mem, t, th, env); ServedOk(mv.mem, t, mv.next)
  {
  }

  // ---- steps ---------------------------------------------------------------------------------------

  lemma {:induction false} RegisteredInPast(s: State, c: Tid)
    requires StreamsOk(s)
    ensures Find(s.mem.heap, c).registeredAt.Some? ==> Find(s.mem.heap, c).registeredAt.value <= |s.mem.published|
  {
    if c in s.mem.clients {
      var i :| 0 <= i < |s.mem.clients| && s.mem.clients[i] == c;
    }
  }

  lemma {:induction false} StatusKept(s: State, a: Action)
    requires RolesOk(s) && LocksOk(s) && StreamsOk(s) && StatusOk(s) && Enabled(s, a)
    ensures StatusOk(Step(s, a))
  {
    match a
    case Run(t, env) =>
      if Wants(t, s.threads[t]).Some? { AcquireKeepsStatus(s, t, env); } else { MoveKeepsStatus(s, t, env); }
    case Accept(t, request) => AcceptKeepsStatus(s, t, request);
    case Advance(_) => AdvanceKeepsStatus(s, a);
    case WakeSpuriously(t) => WakeKeepsStatus(s, t);
    case TimeOut => NudgeKeepsStatus(s, REFRESHER, Refresher(TimedOut));
  }

  lemma {:induction false} WakeKeepsStatus(s: State, t: Tid)
    requires StatusOk(s) && Enabled(s, WakeSpuriously(t))
    ensures StatusOk(Step(s, WakeSpuriously(t)))
  {
    assert ScopeOk(s.mem, s.threads[t]) && ServedOk(s.mem, t, s.threads[t]);
    NudgedStays(s.mem, t, s.threads[t], false);
    NudgeKeepsStatus(s, t, Nudged(s.threads[t], false));
  }

  lemma {:induction false} AdvanceKeepsStatus(s: State, a: Action)
    requires StatusOk(s) && Enabled(s, a) && a.Advance?
    ensures StatusOk(Step(s, a))
  {
    var s' := Step(s, a);
    forall t | t in s.threads ensures ScopeOk(s'.mem, s.threads[t]) && ServedOk(s'.mem, t, s.threads[t]) {
      assert ScopeOk(s.mem, s.threads[t]) && ServedOk(s.mem, t, s.threads[t]);
    }
  }

  lemma {:induction false} NudgeKeepsStatus(s: State, t: Tid, th: Thread)
    requires StatusOk(s) && t in s.threads && ServedOk(s.mem, t, th) && ScopeOk(s.mem, th)
    requires Idle(s.threads[t])
    ensures StatusOk(s.(threads := s.threads[t := th]))
  {
  }

  lemma {:induction false} AcceptKeepsStatus(s: State, t: Tid, request: Request)
    requires StatusOk(s) && Enabled(s, Accept(t, request))
    ensures StatusOk(Step(s, Accept(t, request)))
  {
    var s' := Step(s, Accept(t, request));
    SameStatusSameScope(s.mem, s'.mem, FirstThread(request));
    OutsideScopeOk(s'.mem, FirstThread(request));
    forall u | u in s.threads && u != t ensures ServedOk(s'.mem, u, s'.threads[u]) && ScopeOk(s'.mem, s'.threads[u]) {
      AcceptStays(s, t, request, u);
    }
  }

  lemma {:induction false} AcceptStays(s: State, t: Tid, request: Request, u: Tid)
    requires StatusOk(s) && Enabled(s, Accept(t, request)) && u in s.threads
    ensures var s' := Step(s, Accept(t, request)); ServedOk(s'.mem, u, s.threads[u]) && ScopeOk(s'.mem, s.threads[u])
  {
    var s' := Step(s, Accept(t, request));
    assert ServedOk(s.mem, u, s.threads[u]) && ScopeOk(s.mem, s.threads[u]);
    assert Find(s'.mem.heap, u) == Find(s.mem.heap, u);
    RememberedIsServed(s.mem, s'.mem, u, s.threads[u]);
    SameStatusSameScope(s.mem, s'.mem, s.threads[u]);
  }

  lemma {:induction false} AcquireKeepsStatus(s: State, t: Tid, env: Env)
    requires RolesOk(s) && LocksOk(s) && StatusOk(s) && CanRun(s, t) && Wants(t, s.threads[t]).Some?
    ensures StatusOk(RunThread(s, t, env))
  {
    var s' := RunThread(s, t, env);
    assert RoleFits(t, RoleOf(s.threads[t]), s.mem.heap);
    AcquireKeepsPlace(s, t);
    forall u | u in s'.threads ensures ScopeOk(s'.mem, s'.threads[u]) && ServedOk(s'.mem, u, s'.threads[u]) {
      assert ScopeOk(s.mem, s.threads[u]) && ServedOk(s.mem, u, s.threads[u]);
    }
  }

  lemma {:induction false} AcquireKeepsPlace(s: State, t: Tid)
    requires RolesOk(s) && StatusOk(s) && CanRun(s, t) && Wants(t, s.threads[t]).Some?
    ensures var th := Wants(t, s.threads[t]).value.1;
            && ScopeOk(s.mem, th) && ServedOk(s.mem, t, th)
            && th != Publisher(StartUp, WantProbes)
  {
    var th := s.threads[t];
    assert ServedOk(s.mem, t, th) && ScopeOk(s.mem, th);
    if th.Publisher? && th.publisher.WantProbes? && th.job != StartUp {
      assert RoleFits(t, RoleOf(th), s.mem.heap);
      assert RoleFits(MAIN, RoleOf(s.threads[MAIN]), s.mem.heap);
    }
  }

  lemma {:induction false} MoveKeepsStatus(s: State, t: Tid, env: Env)
    requires RolesOk(s) && LocksOk(s) && StreamsOk(s) && StatusOk(s) && CanRun(s, t) && Wants(t, s.threads[t]).None?
    ensures StatusOk(RunThread(s, t, env))
  {
    var s' := RunThread(s, t, env);
    MoverStaysServed(s, t, env);
    MoveSettles(s, t, env);
    forall u | u in s'.threads ensures ScopeOk(s'.mem, s'.threads[u]) && ServedOk(s'.mem, u, s'.threads[u]) {
      if u != t { OthersStayServed(s, t, env, u); }
    }
  }

  lemma {:induction false} MoverStaysServed(s: State, t: Tid, env: Env)
    requires StreamsOk(s) && StatusOk(s) && CanRun(s, t) && Wants(t, s.threads[t]).None?
    ensures var s' := RunThread(s, t, env); ScopeOk(s'.mem, s'.threads[t]) && ServedOk(s'.mem, t, s'.threads[t])
  {
    var th := s.threads[t];
    assert ScopeOk(s.mem, th) && ServedOk(s.mem, t, th);
    MoveKeepsScope(s.mem, t, th, env);
    RegisteredInPast(s, t);
    MoveKeepsServed(s.mem, t, th, env);
  }

  /** Whoever leaves g_probeMutex leaves the status settled. */
  lemma {:induction false} MoveSettles(s: State, t: Tid, env: Env)
    requires RolesOk(s) && LocksOk(s) && StatusOk(s) && CanRun(s, t) && Wants(t, s.threads[t]).None?
    ensures var s' := RunThread(s, t, env);
            && MAIN in s'.threads
            && (ProbeMutex !in s'.locks && s'.threads[MAIN] != Publisher(StartUp, WantProbes) ==> Settled(s'.mem))
  {
    var th := s.threads[t];
    var mv := MoveOf(s.mem, t, th, env);
    assert ScopeOk(s.mem, th) && RoleFits(t, RoleOf(th), s.mem.heap);
    MoveKeepsScope(s.mem, t, th, env);
    MoveKeepsGuards(s.mem, t, th, env, ProbeMutex);
    MoveKeepsRole(s.mem, t, th, env);
    if !InProbeScope(th) {
      OutsidersKeepStatus(s.mem, t, th, env);
      SameStatusSameScope(s.mem, mv.mem, th);
    }
  }

  lemma {:induction false} OthersStayServed(s: State, t: Tid, env: Env, u: Tid)
    requires LocksOk(s) && StatusOk(s) && CanRun(s, t) && Wants(t, s.threads[t]).None? && u in s.threads && u != t
    ensures var s' := RunThread(s, t, env);
            ScopeOk(s'.mem, s'.threads[u]) && ServedOk(s'.mem, u, s'.threads[u])
  {
    var mv := MoveOf(s.mem, t, s.threads[t], env);
    OthersKeepScope(s, t, env, u);
    OthersKeepServed(s, t, env, u);
    NudgedStays(mv.mem, u, s.threads[u], mv.wakes.Start?);
  }

  lemma {:induction false} NudgedStays(mem: Shared, u: Tid, th: Thread, start: bool)
    requires ScopeOk(mem, th) && ServedOk(mem, u, th)
    ensures ScopeOk(mem, Nudged(th, start)) && ServedOk(mem, u, Nudged(th, start))
  {
  }

  lemma {:induction false} OthersKeepServed(s: State, t: Tid, env: Env, u: Tid)
    requires StatusOk(s) && t in s.threads && u in s.threads && u != t
    ensures ServedOk(MoveOf(s.mem, t, s.threads[t], env).mem, u, s.threads[u])
  {
    assert ServedOk(s.mem, u, s.threads[u]);
    MoveRemembers(s.mem, t, s.threads[t], env, u);
    RememberedIsServed(s.mem, MoveOf(s.mem, t, s.threads[t], env).mem, u, s.threads[u]);
  }

  lemma {:induction false} RememberedIsServed(mem: Shared, mem': Shared, u: Tid, th: Thread)
    requires ServedOk(mem, u, th) && Remembers(mem, mem', u)
    ensures ServedOk(mem', u, th)
  {
  }

  lemma {:induction false} OthersKeepScope(s: State, t: Tid, env: Env, u: Tid)
    requires LocksOk(s) && StatusOk(s) && CanRun(s, t) && Wants(t, s.threads[t]).None? && u in s.threads && u != t
    ensures ScopeOk(MoveOf(s.mem, t, s.threads[t], env).mem, s.threads[u])
  {
    var th, other := s.threads[t], s.threads[u];
    assert ScopeOk(s.mem, other);
    if !InProbeScope(other) {
      OutsideScopeOk(MoveOf(s.mem, t, th, env).mem, other);
    } else {
      if InProbeScope(th) { OneHolder(s, t, u, ProbeMutex); }
      OutsidersKeepStatus(s.mem, t, th, env);
      SameStatusSameScope(s.mem, MoveOf(s.mem, t, th, env).mem, other);
    }
  }
}
