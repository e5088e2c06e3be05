/** Which thread runs what, mutual exclusion, the lock order and the absence of deadlock. */
module PublicationLocks {
  import opened Wrappers
  import opened Publication
  import opened PublicationFrames

  // ---- which thread may be where ----------------------------------------------------------------

  datatype Role = MainRole | RefresherRole | HandlerRole | EventsRole | Done

  function JobRole(job: Job): Role {
    match job
    case StartUp => MainRole
    case Background => RefresherRole
    case ManualRefresh(_) => HandlerRole
    case NewClient => EventsRole
  }

  function RoleOf(th: Thread): Role {
    match th
    case Main(_) => MainRole
    case Handler(_) => HandlerRole
    case Publisher(job, _) => JobRole(job)
    case Pusher(job, _, _, _) => JobRole(job)
    case Subscriber(_) => EventsRole
    case Drainer(_) => EventsRole
    case Refresher(_) => RefresherRole
    case Stopper(_) => HandlerRole
    case Finished => Done
  }

  predicate RoleFits(t: Tid, role: Role, heap: map<Tid, Client>) {
    match role
    case MainRole => t == MAIN
    case RefresherRole => t == REFRESHER
    case HandlerRole => t != MAIN && t != REFRESHER
    case EventsRole => t != MAIN && t != REFRESHER && t in heap
    case Done => true
  }

  /** main() has not reached listen() yet. */
  predicate StartingUp(th: Thread) {
    th == Main(StartRefresher) || ((th.Publisher? || th.Pusher?) && th.job == StartUp)
  }

  predicate RolesOk(s: State) {
    && MAIN in s.threads
    && REFRESHER in s.threads
    && (forall t | t in s.threads :: RoleFits(t, RoleOf(s.threads[t]), s.mem.heap))
    && (StartingUp(s.threads[MAIN]) ==> forall t | t in s.threads :: t == MAIN || t == REFRESHER)
    && (StartingUp(s.threads[MAIN]) <==> s.threads[REFRESHER] == Refresher(NotStarted))
  }

  /** A move keeps the thread's role unless it ends the thread, and only main() starts the refresher. */
  predicate KeepsRole(th: Thread, mv: Move) {
    && (RoleOf(mv.next) == RoleOf(th) || RoleOf(mv.next) == Done)
    && (mv.wakes.Start? <==> th == Main(StartRefresher))
    && (mv.wakes.Start? ==> mv.wakes.t == REFRESHER)
    && (StartingUp(mv.next) <==> StartingUp(th) && th != Main(StartRefresher))
    && mv.next != Refresher(NotStarted)
  }

  lemma {:induction false} PublisherKeepsRole(mem: Shared, job: Job, at: PublisherAt, env: Env)
    ensures KeepsRole(Publisher(job, at), PublisherStep(mem, job, at, env))
  {
  }

  lemma {:induction false} PusherKeepsRole(mem: Shared, job: Job, event: Snapshot, k: nat, at: PusherAt)
    ensures KeepsRole(Pusher(job, event, k, at), PusherStep(mem, job, event, k, at))
  {
  }

  lemma {:induction false} SubscriberKeepsRole(mem: Shared, t: Tid, at: SubscriberAt)
    ensures KeepsRole(Subscriber(at), SubscriberStep(mem, t, at))
  {
  }

  lemma {:induction false} DrainerKeepsRole(mem: Shared, t: Tid, at: DrainerAt, env: Env)
    ensures KeepsRole(Drainer(at), DrainerStep(mem, t, at, env))
  {
  }

  lemma {:induction false} RefresherKeepsRole(mem: Shared, at: RefresherAt)
    requires at != NotStarted
    ensures KeepsRole(Refresher(at), RefresherStep(mem, at))
  {
  }

  lemma {:induction false} MainKeepsRole(mem: Shared, at: MainAt)
    ensures KeepsRole(Main(at), MainStep(mem, at))
  {
  }

  lemma {:induction false} HandlerKeepsRole(mem: Shared, at: HandlerAt)
    ensures KeepsRole(Handler(at), HandlerStep(mem, at))
  {
  }

  lemma {:induction false} StopperKeepsRole(mem: Shared, at: StopperAt)
    ensures KeepsRole(Stopper(at), StopperStep(mem, at))
  {
  }

  lemma {:induction false} MoveKeepsRole(mem: Shared, t: Tid, th: Thread, env: Env)
    requires Wants(t, th).None? && !Idle(th)
    ensures KeepsRole(th, MoveOf(mem, t, th, env))
  {
    match th
    case Main(at) => MainKeepsRole(mem, at);
    case Handler(at) => HandlerKeepsRole(mem, at);
    case Publisher(job, at) => PublisherKeepsRole(mem, job, at, env);
    case Pusher(job, event, k, at) => PusherKeepsRole(mem, job, event, k, at);
    case Subscriber(at) => SubscriberKeepsRole(mem, t, at);
    case Drainer(at) => DrainerKeepsRole(mem, t, at, env);
    case Refresher(at) => RefresherKeepsRole(mem, at);
    case Stopper(at) => StopperKeepsRole(mem, at);
  }

  lemma {:induction false} RolesKept(s: State, a: Action)
    requires RolesOk(s) && Enabled(s, a)
    ensures RolesOk(Step(s, a))
  {
    match a
    case Run(t, env) => RunKeepsRoles(s, t, env);
    case Accept(t, request) => AcceptKeepsRoles(s, t, request);
    case WakeSpuriously(t) => WakeKeepsRoles(s, t, Nudged(s.threads[t], false));
    case TimeOut => WakeKeepsRoles(s, REFRESHER, Refresher(TimedOut));
    case Advance(_) =>
  }

  lemma {:induction false} AcceptKeepsRoles(s: State, t: Tid, request: Request)
    requires RolesOk(s) && Enabled(s, Accept(t, request))
    ensures RolesOk(Step(s, Accept(t, request)))
  {
    var s' := Step(s, Accept(t, request));
    forall u | u in s'.threads ensures RoleFits(u, RoleOf(s'.threads[u]), s'.mem.heap) {
      assert u != t ==> RoleFits(u, RoleOf(s.threads[u]), s.mem.heap);
    }
  }

  lemma {:induction false} WakeKeepsRoles(s: State, t: Tid, th: Thread)
    requires RolesOk(s) && t in s.threads && RoleOf(th) == RoleOf(s.threads[t]) && !StartingUp(th)
    requires th != Refresher(NotStarted) && s.threads[t] != Refresher(NotStarted) && !StartingUp(s.threads[t])
    ensures RolesOk(s.(threads := s.threads[t := th]))
  {
    forall u | u in s.threads ensures RoleFits(u, RoleOf(s.threads[t := th][u]), s.mem.heap) {
      assert RoleFits(u, RoleOf(s.threads[u]), s.mem.heap);
    }
  }

  lemma {:induction false} RunKeepsRoles(s: State, t: Tid, env: Env)
    requires RolesOk(s) && CanRun(s, t)
    ensures RolesOk(RunThread(s, t, env))
  {
    if Wants(t, s.threads[t]).None? {
      MoveKeepsRole(s.mem, t, s.threads[t], env);
      MoveTouches(s.mem, t, s.threads[t], env);
      NudgeKeepsRoles(s, t, MoveOf(s.mem, t, s.threads[t], env));
    }
  }

  lemma {:induction false} NudgedRole(th: Thread, start: bool)
    ensures RoleOf(Nudged(th, start)) == RoleOf(th)
    ensures StartingUp(Nudged(th, start)) <==> StartingUp(th)
    ensures Nudged(th, start) == Refresher(NotStarted) <==> th == Refresher(NotStarted) && !start
  {
  }

  lemma {:induction false} NudgeKeepsRoles(s: State, t: Tid, mv: Move)
    requires RolesOk(s) && t in s.threads && s.mem.heap.Keys <= mv.mem.heap.Keys
    requires KeepsRole(s.threads[t], mv) && s.threads[t] != Refresher(NotStarted)
    ensures RolesOk(State(mv.mem, Nudge(s.threads, mv.wakes)[t := mv.next], s.locks))
  {
    var threads := Nudge(s.threads, mv.wakes)[t := mv.next];
    assert RoleFits(t, RoleOf(s.threads[t]), s.mem.heap);
    forall u | u in threads ensures RoleFits(u, RoleOf(threads[u]), mv.mem.heap) {
      assert RoleFits(u, RoleOf(s.threads[u]), s.mem.heap);
      NudgedRole(s.threads[u], mv.wakes.Start?);
    }
    NudgeKeepsStart(s, t, mv);
  }

  lemma {:induction false} NudgeKeepsStart(s: State, t: Tid, mv: Move)
    requires RolesOk(s) && t in s.threads && KeepsRole(s.threads[t], mv) && s.threads[t] != Refresher(NotStarted)
    ensures var threads := Nudge(s.threads, mv.wakes)[t := mv.next];
            && (StartingUp(threads[MAIN]) ==> forall u | u in threads :: u == MAIN || u == REFRESHER)
            && (StartingUp(threads[MAIN]) <==> threads[REFRESHER] == Refresher(NotStarted))
  {
    assert RoleFits(t, RoleOf(s.threads[t]), s.mem.heap);
    NudgedRole(s.threads[MAIN], mv.wakes.Start?);
    NudgedRole(s.threads[REFRESHER], mv.wakes.Start?);
  }

  // ---- lock ownership -----------------------------------------------------------------------------

  /** The owner of each held mutex is the one thread whose guards hold it. */
  ghost predicate LocksOk(s: State) {
    && (forall m | m in s.locks :: s.locks[m] in s.threads && Holds(s.locks[m], s.threads[s.locks[m]], m))
    && (forall t, m {:trigger Holds(t, s.threads[t], m)} | t in s.threads && Holds(t, s.threads[t], m) ::
          m in s.locks && s.locks[m] == t)
  }

  lemma {:induction false} OneHolder(s: State, t: Tid, u: Tid, m: Mutex)
    requires LocksOk(s) && t in s.threads && u in s.threads
    requires Holds(t, s.threads[t], m) && Holds(u, s.threads[u], m)
    ensures t == u
  {
  }

  /** A move gives back a mutex the thread holds, or none, and takes none. */
  predicate KeepsGuards(t: Tid, th: Thread, mv: Move, m: Mutex) {
    && (Holds(t, mv.next, m) <==> Holds(t, th, m) && mv.gives != Some(m))
    && (mv.gives == Some(m) ==> Holds(t, th, m))
  }

  lemma {:induction false} PublisherGuards(mem: Shared, t: Tid, job: Job, at: PublisherAt, env: Env, m: Mutex)
    requires Wants(t, Publisher(job, at)).None?
    ensures KeepsGuards(t, Publisher(job, at), PublisherStep(mem, job, at, env), m)
  {
  }

  lemma {:induction false} PusherGuards(mem: Shared, t: Tid, job: Job, event: Snapshot, k: nat, at: PusherAt, m: Mutex)
    requires Wants(t, Pusher(job, event, k, at)).None?
    ensures KeepsGuards(t, Pusher(job, event, k, at), PusherStep(mem, job, event, k, at), m)
  {
  }

  lemma {:induction false} SubscriberGuards(mem: Shared, t: Tid, at: SubscriberAt, m: Mutex)
    requires Wants(t, Subscriber(at)).None?
    ensures KeepsGuards(t, Subscriber(at), SubscriberStep(mem, t, at), m)
  {
  }

  lemma {:induction false} DrainerGuards(mem: Shared, t: Tid, at: DrainerAt, env: Env, m: Mutex)
    requires Wants(t, Drainer(at)).None? && at != Asleep
    ensures KeepsGuards(t, Drainer(at), DrainerStep(mem, t, at, env), m)
  {
  }

  lemma {:induction false} RefresherGuards(mem: Shared, t: Tid, at: RefresherAt, m: Mutex)
    requires Wants(t, Refresher(at)).None? && !Idle(Refresher(at))
    ensures KeepsGuards(t, Refresher(at), RefresherStep(mem, at), m)
  {
  }

  lemma {:induction false} HandlerGuards(mem: Shared, t: Tid, at: HandlerAt, m: Mutex)
    requires Wants(t, Handler(at)).None?
    ensures KeepsGuards(t, Handler(at), HandlerStep(mem, at), m)
  {
  }

  lemma {:induction false} StopperGuards(mem: Shared, t: Tid, at: StopperAt, m: Mutex)
    requires Wants(t, Stopper(at)).None?
    ensures KeepsGuards(t, Stopper(at), StopperStep(mem, at), m)
  {
  }

  lemma {:induction false} MoveKeepsGuards(mem: Shared, t: Tid, th: Thread, env: Env, m: Mutex)
    requires Wants(t, th).None? && !Idle(th)
    ensures KeepsGuards(t, th, MoveOf(mem, t, th, env), m)
  {
    match th
    case Main(_) =>
    case Handler(at) => HandlerGuards(mem, t, at, m);
    case Publisher(job, at) => PublisherGuards(mem, t, job, at, env, m);
    case Pusher(job, event, k, at) => PusherGuards(mem, t, job, event, k, at, m);
    case Subscriber(at) => SubscriberGuards(mem, t, at, m);
    case Drainer(at) => DrainerGuards(mem, t, at, env, m);
    case Refresher(at) => RefresherGuards(mem, t, at, m);
    case Stopper(at) => StopperGuards(mem, t, at, m);
  }

  lemma {:induction false} AcquireKeepsGuards(t: Tid, th: Thread, m: Mutex)
    requires Wants(t, th).Some?
    ensures Holds(t, Wants(t, th).value.1, m) <==> Holds(t, th, m) || m == Wants(t, th).value.0
  {
  }

  lemma {:induction false} NudgeKeepsGuards(t: Tid, th: Thread, start: bool, m: Mutex)
    ensures Holds(t, Nudged(th, start), m) <==> Holds(t, th, m)
  {
  }

  lemma {:induction false} LocksKept(s: State, a: Action)
    requires LocksOk(s) && Enabled(s, a)
    ensures LocksOk(Step(s, a))
  {
    var s' := Step(s, a);
    match a
    case Run(t, env) => RunKeepsLocks(s, t, env);
    case WakeSpuriously(t) =>
      forall m { NudgeKeepsGuards(t, s.threads[t], false, m); }
    case _ =>
  }

  lemma {:induction false} RunKeepsLocks(s: State, t: Tid, env: Env)
    requires LocksOk(s) && CanRun(s, t)
    ensures LocksOk(RunThread(s, t, env))
  {
    var th := s.threads[t];
    if Wants(t, th).Some? {
      forall m { AcquireKeepsGuards(t, th, m); }
    } else {
      forall m ensures KeepsGuards(t, th, MoveOf(s.mem, t, th, env), m) { MoveKeepsGuards(s.mem, t, th, env, m); }
      GuardsKeepLocks(s, t, MoveOf(s.mem, t, th, env));
    }
  }

  lemma {:induction false} GuardsKeepLocks(s: State, t: Tid, mv: Move)
    requires LocksOk(s) && t in s.threads && forall m :: KeepsGuards(t, s.threads[t], mv, m)
    ensures LocksOk(State(mv.mem, Nudge(s.threads, mv.wakes)[t := mv.next],
                          if mv.gives.Some? then s.locks - {mv.gives.value} else s.locks))
  {
    var threads := Nudge(s.threads, mv.wakes)[t := mv.next];
    var locks := if mv.gives.Some? then s.locks - {mv.gives.value} else s.locks;
    forall m | m in locks ensures locks[m] in threads && Holds(locks[m], threads[locks[m]], m) {
      assert KeepsGuards(t, s.threads[t], mv, m);
      NudgeKeepsGuards(s.locks[m], s.threads[s.locks[m]], mv.wakes.Start?, m);
    }
    forall u, m | u in threads && Holds(u, threads[u], m) ensures m in locks && locks[m] == u {
      assert KeepsGuards(t, s.threads[t], mv, m);
      NudgeKeepsGuards(u, s.threads[u], mv.wakes.Start?, m);
    }
  }

  // ---- deadlock freedom ---------------------------------------------------------------------------

  function Rank(m: Mutex): nat {
    match m
    case RefreshMutex => 0
    case ProbeMutex => 1
    case DataMutex => 2
    case SseMutex => 3
    case ClientMutex(_) => 4
    case BgMutex => 5
  }

  /** Every thread acquires in rising rank, and g_bgMutex is only taken and held alone. */
  lemma {:induction false} LocksRise(t: Tid, th: Thread, held: Mutex)
    requires Holds(t, th, held)
    ensures Wants(t, th).Some? ==> Rank(held) < Rank(Wants(t, th).value.0) && Wants(t, th).value.0 != BgMutex
    ensures held == BgMutex ==> Wants(t, th).None?
    ensures !Idle(th)
  {
  }

  /** Thread `t` waits for a mutex that thread `u` owns. */
  predicate WaitsFor(s: State, t: Tid, u: Tid) {
    && t in s.threads
    && Wants(t, s.threads[t]).Some?
    && Wants(t, s.threads[t]).value.0 in s.locks
    && s.locks[Wants(t, s.threads[t]).value.0] == u
  }

  function WantedBy(s: State, t: Tid): Mutex {
    if t in s.threads && Wants(t, s.threads[t]).Some? then Wants(t, s.threads[t]).value.0 else BgMutex
  }

  /** Along a chain of waiting threads the wanted mutexes rise, so no chain closes and none is longer than six. */
  lemma {:induction false} NoCircularWait(s: State, chain: seq<Tid>)
    requires LocksOk(s)
    requires |chain| >= 2 && forall i | 0 <= i < |chain| - 1 :: WaitsFor(s, chain[i], chain[i + 1])
    ensures Rank(WantedBy(s, chain[|chain| - 2])) >= Rank(WantedBy(s, chain[0])) + |chain| - 2
    ensures chain[0] != chain[|chain| - 1]
    ensures |chain| <= 6
  {
    var n := |chain| - 1;
    assert WaitsFor(s, chain[n - 1], chain[n]) && WaitsFor(s, chain[0], chain[1]);
    LocksRise(chain[n], s.threads[chain[n]], WantedBy(s, chain[n - 1]));
    if n > 1 {
      assert WaitsFor(s, chain[n - 2], chain[n - 1]);
      NoCircularWait(s, chain[..n]);
      LocksRise(chain[n - 1], s.threads[chain[n - 1]], WantedBy(s, chain[n - 2]));
    }
  }

  /** If any thread is blocked on a mutex, some lock holder can step. */
  lemma {:induction false} BlockedThreadHasRunnableHolder(s: State, t: Tid) returns (u: Tid, m: Mutex)
    requires LocksOk(s) && !s.mem.ended
    requires t in s.threads && Wants(t, s.threads[t]).Some? && Wants(t, s.threads[t]).value.0 in s.locks
    ensures u in s.threads && Holds(u, s.threads[u], m) && CanRun(s, u)
    decreases 5 - Rank(Wants(t, s.threads[t]).value.0)
  {
    m := Wants(t, s.threads[t]).value.0;
    u := s.locks[m];
    LocksRise(u, s.threads[u], m);
    if !CanRun(s, u) {
      u, m := BlockedThreadHasRunnableHolder(s, u);
    }
  }
}
