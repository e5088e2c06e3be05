/** No lost work: wake-ups for pushed events, background-refresh requests, and the manual-refresh cooldown. */
module PublicationProgress {
  import opened Wrappers
  import opened Publication
  import opened PublicationFrames
  import opened PublicationLocks
  import opened PublicationStreams

  // ---- wake-ups of the drain threads -----------------------------------------------------------------

  /** Thread `u` is about to notify client `c`. */
  predicate AboutToSignal(threads: map<Tid, Thread>, u: Tid, c: Tid) {
    u in threads && threads[u].Pusher? && threads[u].pusher == Signal(c)
  }

  ghost predicate DrainerOk(s: State, t: Tid) {
    t in s.threads ==>
      && (s.threads[t] == Drainer(Park) ==> Find(s.mem.heap, t).pending == [])
      && (s.threads[t] == Drainer(Asleep) && Find(s.mem.heap, t).pending != [] ==>
            exists u :: AboutToSignal(s.threads, u, t))
  }

  ghost predicate WakeUpsOk(s: State) {
    forall t | t in s.threads :: DrainerOk(s, t)
  }

  /** Another thread's queue changes only under its mutex, by a thread that goes on to notify it. */
  lemma {:induction false} MovePending(mem: Shared, t: Tid, th: Thread, env: Env, c: Tid)
    requires t != c
    ensures var mv := MoveOf(mem, t, th, env);
            || Find(mv.mem.heap, c).pending == Find(mem.heap, c).pending
            || (Holds(t, th, ClientMutex(c)) && mv.next.Pusher? && mv.next.pusher == Signal(c))
  {
    if c != Touched(mem, t, th) {
      MoveTouches(mem, t, th, env);
    } else if th.Stopper? {
    }
  }

  lemma {:induction false} MoverWakeUp(mem: Shared, t: Tid, th: Thread, env: Env)
    requires !Idle(th) && (th == Drainer(Park) ==> Find(mem.heap, t).pending == [])
    ensures var mv := MoveOf(mem, t, th, env);
            mv.next == Drainer(Park) || mv.next == Drainer(Asleep) ==> Find(mv.mem.heap, t).pending == []
  {
  }

  lemma {:induction false} WakeUpsKept(s: State, a: Action)
    requires LocksOk(s) && StreamsOk(s) && WakeUpsOk(s) && Enabled(s, a)
    ensures WakeUpsOk(Step(s, a))
  {
    var s' := Step(s, a);
    forall t | t in s'.threads ensures DrainerOk(s', t) {
      if t in s.threads {
        assert DrainerOk(s, t);
        match a
        case Run(u, env) =>
          if Wants(u, s.threads[u]).Some? {
            AcquireKeepsDrainer(s, u, env, t);
          } else {
            MoveKeepsDrainer(s, u, env, t);
          }
        case _ => OthersKeepDrainer(s, a, t);
      }
    }
  }

  lemma {:induction false} OthersKeepDrainer(s: State, a: Action, t: Tid)
    requires StreamsOk(s) && Enabled(s, a) && !a.Run? && t in s.threads && DrainerOk(s, t)
    ensures DrainerOk(Step(s, a), t)
  {
    if a.Accept? {
      assert a.t !in s.mem.heap;
    }
    SignalsKept(s.threads, Step(s, a).threads, t);
  }

  /** Nobody who is about to notify the client goes elsewhere. */
  lemma {:induction false} SignalsKept(threads: map<Tid, Thread>, threads': map<Tid, Thread>, t: Tid)
    requires forall u | u in threads && threads[u].Pusher? :: u in threads' && threads'[u] == threads[u]
    ensures forall u | AboutToSignal(threads, u, t) :: AboutToSignal(threads', u, t)
  {
  }

  lemma {:induction false} AcquireKeepsDrainer(s: State, u: Tid, env: Env, t: Tid)
    requires LocksOk(s) && CanRun(s, u) && Wants(u, s.threads[u]).Some? && t in s.threads && DrainerOk(s, t)
    ensures DrainerOk(RunThread(s, u, env), t)
  {
    var s' := RunThread(s, u, env);
    forall v | AboutToSignal(s.threads, v, t) ensures AboutToSignal(s'.threads, v, t) {
    }
  }

  lemma {:induction false} MoveKeepsDrainer(s: State, u: Tid, env: Env, t: Tid)
    requires LocksOk(s) && CanRun(s, u) && Wants(u, s.threads[u]).None? && t in s.threads && DrainerOk(s, t)
    ensures DrainerOk(RunThread(s, u, env), t)
  {
    var s', th := RunThread(s, u, env), s.threads[u];
    if u == t {
      MoverWakeUp(s.mem, t, th, env);
    } else {
      MovePending(s.mem, u, th, env, t);
      if s.threads[t] == Drainer(Park) && Holds(u, th, ClientMutex(t)) {
        OneHolder(s, u, t, ClientMutex(t));
      }
      if !(th.Pusher? && th.pusher == Signal(t)) && s.threads[t] == Drainer(Asleep) {
        if Find(s'.mem.heap, t).pending == Find(s.mem.heap, t).pending {
          forall v | AboutToSignal(s.threads, v, t) ensures AboutToSignal(s'.threads, v, t) {
          }
        } else {
          assert AboutToSignal(s'.threads, u, t);
        }
      }
    }
  }

  // ---- background-refresh requests ---------------------------------------------------------------------

  /** The refresher has taken over the requests made so far but has not begun its pass. */
  predicate AboutToPass(th: Thread) {
    || th == Refresher(CheckRunning)
    || th == Publisher(Background, WantProbes)
    || th == Publisher(Background, BeginCollect)
  }

  predicate AboutToNotifyRefresher(threads: map<Tid, Thread>, u: Tid) {
    u in threads && threads[u] == Subscriber(NotifyRequest)
  }

  ghost predicate RequestsOk(s: State) {
    && REFRESHER in s.threads
    && s.mem.covered <= s.mem.requests
    && (s.mem.covered < s.mem.requests && s.mem.running ==> s.mem.refreshRequested || AboutToPass(s.threads[REFRESHER]))
    && (s.threads[REFRESHER] == Refresher(ParkRefresher) ==> !s.mem.refreshRequested)
    && (s.threads[REFRESHER] == Refresher(Waiting) && s.mem.refreshRequested ==>
          exists u :: AboutToNotifyRefresher(s.threads, u))
  }

  /** Only a request raises the flag, only the refresher lowers it, and the counters follow. */
  lemma {:induction false} MoveRequests(mem: Shared, t: Tid, th: Thread, env: Env)
    requires RoleFits(t, RoleOf(th), mem.heap) && Wants(t, th).None? && !Idle(th)
    ensures var mem' := MoveOf(mem, t, th, env).mem;
            && (mem'.running ==> mem.running)
            && (th == Subscriber(SetRequest) ==> mem' == mem.(refreshRequested := true, requests := mem.requests + 1))
            && (th != Subscriber(SetRequest) ==>
                  mem'.requests == mem.requests && (mem'.refreshRequested ==> mem.refreshRequested))
            && (t != REFRESHER ==>
                  mem'.covered == mem.covered && (mem.refreshRequested ==> mem'.refreshRequested))
  {
    match th
    case Main(at) => MainFrame(mem, at);
    case Handler(at) => HandlerFrame(mem, at);
    case Publisher(job, at) => PublisherFrame(mem, job, at, env);
    case Pusher(job, event, k, at) => PusherFrame(mem, job, event, k, at);
    case Subscriber(at) => SubscriberFrame(mem, t, at);
    case Drainer(at) => DrainerFrame(mem, t, at, env);
    case Refresher(at) => RefresherFrame(mem, at);
    case Stopper(at) => StopperFrame(mem, at);
    case Finished =>
  }

  /** What the refresher owes: an uncovered request has its flag up or is being taken over. */
  predicate Owes(mem: Shared, th: Thread) {
    && mem.covered <= mem.requests
    && (th == Refresher(ParkRefresher) || th == Refresher(Waiting) ==> !mem.refreshRequested)
    && (mem.covered < mem.requests && mem.running ==> mem.refreshRequested || AboutToPass(th))
  }

  lemma {:induction false} RefresherOwes(mem: Shared, at: RefresherAt)
    requires Owes(mem, Refresher(at)) && Wants(REFRESHER, Refresher(at)).None? && !Idle(Refresher(at))
    ensures Owes(RefresherStep(mem, at).mem, RefresherStep(mem, at).next)
  {
  }

  lemma {:induction false} PublisherOwes(mem: Shared, job: Job, at: PublisherAt, env: Env)
    requires Owes(mem, Publisher(job, at)) && Wants(REFRESHER, Publisher(job, at)).None? && job == Background
    ensures Owes(PublisherStep(mem, job, at, env).mem, PublisherStep(mem, job, at, env).next)
  {
    PublisherFrame(mem, job, at, env);
  }

  lemma {:induction false} RefresherMove(mem: Shared, th: Thread, env: Env)
    requires RoleFits(REFRESHER, RoleOf(th), mem.heap) && Wants(REFRESHER, th).None? && !Idle(th)
    requires Owes(mem, th)
    ensures var mv := MoveOf(mem, REFRESHER, th, env); Owes(mv.mem, mv.next)
  {
    match th
    case Publisher(job, at) => PublisherOwes(mem, job, at, env);
    case Pusher(job, event, k, at) =>
      PusherFrame(mem, job, event, k, at);
    case Refresher(at) => RefresherOwes(mem, at);
    case _ =>
  }

  lemma {:induction false} RequestsKept(s: State, a: Action)
    requires RolesOk(s) && LocksOk(s) && RequestsOk(s) && Enabled(s, a)
    ensures RequestsOk(Step(s, a))
  {
    match a
    case Run(t, env) =>
      if Wants(t, s.threads[t]).Some? { AcquireKeepsRequests(s, t, env); }
      else if t == REFRESHER { RefresherKeepsRequests(s, env); }
      else { MoveKeepsRequests(s, t, env); }
    case _ =>
      var s' := Step(s, a);
      forall u | AboutToNotifyRefresher(s.threads, u) ensures AboutToNotifyRefresher(s'.threads, u) {
      }
  }

  lemma {:induction false} AcquireKeepsRequests(s: State, t: Tid, env: Env)
    requires RequestsOk(s) && CanRun(s, t) && Wants(t, s.threads[t]).Some?
    ensures RequestsOk(RunThread(s, t, env))
  {
    var s' := RunThread(s, t, env);
    forall u | AboutToNotifyRefresher(s.threads, u) ensures AboutToNotifyRefresher(s'.threads, u) {
    }
  }

  lemma {:induction false} RefresherKeepsRequests(s: State, env: Env)
    requires RolesOk(s) && RequestsOk(s) && CanRun(s, REFRESHER) && Wants(REFRESHER, s.threads[REFRESHER]).None?
    ensures RequestsOk(RunThread(s, REFRESHER, env))
  {
    RefresherMove(s.mem, s.threads[REFRESHER], env);
  }

  lemma {:induction false} MoveKeepsRequests(s: State, t: Tid, env: Env)
    requires RolesOk(s) && LocksOk(s) && RequestsOk(s)
    requires t != REFRESHER && CanRun(s, t) && Wants(t, s.threads[t]).None?
    ensures RequestsOk(RunThread(s, t, env))
  {
    if s.threads[t] == Subscriber(SetRequest) {
      RaisingKeepsRequests(s, t, env);
    } else {
      QuietKeepsRequests(s, t, env);
    }
  }

  lemma {:induction false} RaisingKeepsRequests(s: State, t: Tid, env: Env)
    requires RolesOk(s) && LocksOk(s) && RequestsOk(s)
    requires t != REFRESHER && CanRun(s, t) && s.threads[t] == Subscriber(SetRequest)
    ensures RequestsOk(RunThread(s, t, env))
  {
    SubscriberFrame(s.mem, t, SetRequest);
    if s.threads[REFRESHER] == Refresher(ParkRefresher) {
      OneHolder(s, t, REFRESHER, BgMutex);
    }
    assert AboutToNotifyRefresher(RunThread(s, t, env).threads, t);
  }

  lemma {:induction false} QuietKeepsRequests(s: State, t: Tid, env: Env)
    requires RolesOk(s) && LocksOk(s) && RequestsOk(s) && t != REFRESHER
    requires CanRun(s, t) && Wants(t, s.threads[t]).None? && s.threads[t] != Subscriber(SetRequest)
    ensures RequestsOk(RunThread(s, t, env))
  {
    var th, mv := s.threads[t], MoveOf(s.mem, t, s.threads[t], env);
    assert RoleFits(t, RoleOf(th), s.mem.heap);
    MoveRequests(s.mem, t, th, env);
    NudgedRefresher(s.threads[REFRESHER], mv.wakes.Start?);
    if th != Subscriber(NotifyRequest) {
      var threads := RunThread(s, t, env).threads;
      forall u | AboutToNotifyRefresher(s.threads, u) ensures AboutToNotifyRefresher(threads, u) {
      }
    }
  }

  /** A notification, or its start, takes nothing over from the refresher. */
  lemma {:induction false} NudgedRefresher(th: Thread, start: bool)
    ensures AboutToPass(th) ==> AboutToPass(Nudged(th, start))
    ensures Nudged(th, start) == Refresher(ParkRefresher) ==> th == Refresher(ParkRefresher)
    ensures Nudged(th, start) == Refresher(Waiting) ==> th == Refresher(Waiting) && start
  {
  }

  // ---- the cooldown of manual refreshes -----------------------------------------------------------------

  const COOLDOWN_MS := REFRESH_COOLDOWN_SECONDS * MS_PER_SECOND

  /** The clock reading with which a thread's manual refresh was admitted. */
  function Admitted(th: Thread): Option<int> {
    match th
    case Publisher(ManualRefresh(at), _) => Some(at)
    case Pusher(ManualRefresh(at), _, _, _) => Some(at)
    case Handler(RecordRefresh(at)) => Some(at)
    case _ => None
  }

  predicate AdmittedOk(mem: Shared, th: Thread) {
    Admitted(th).Some? ==> mem.lastManualRefresh + COOLDOWN_MS <= Admitted(th).value <= mem.now
  }

  predicate SpacedOut(times: seq<int>) {
    forall i | 0 <= i < |times| - 1 :: times[i] + COOLDOWN_MS <= times[i + 1]
  }

  predicate CooldownOk(s: State) {
    && SpacedOut(s.mem.manualRefreshes)
    && (s.mem.manualRefreshes != [] ==> s.mem.manualRefreshes[|s.mem.manualRefreshes| - 1] == s.mem.lastManualRefresh)
    && (s.mem.manualRefreshes == [] ==> s.mem.lastManualRefresh + COOLDOWN_MS <= s.mem.now)
    && (forall t | t in s.threads :: AdmittedOk(s.mem, s.threads[t]))
  }

  predicate Records(th: Thread) {
    th.Handler? && th.handler.RecordRefresh?
  }

  lemma {:induction false} MoveCooldown(mem: Shared, t: Tid, th: Thread, env: Env)
    requires AdmittedOk(mem, th) && Wants(t, th).None?
    ensures var mem' := MoveOf(mem, t, th, env).mem;
            && mem'.now == mem.now
            && (Records(th) ==>
                  && mem'.lastManualRefresh == th.handler.at
                  && mem'.manualRefreshes == mem.manualRefreshes + [th.handler.at])
            && (!Records(th) ==> SameCooldown(mem, mem'))
  {
    match th
    case Main(at) => MainFrame(mem, at);
    case Handler(at) => HandlerFrame(mem, at);
    case Publisher(job, at) => PublisherFrame(mem, job, at, env);
    case Pusher(job, event, k, at) => PusherFrame(mem, job, event, k, at);
    case Subscriber(at) => SubscriberFrame(mem, t, at);
    case Drainer(at) => DrainerFrame(mem, t, at, env);
    case Refresher(at) => RefresherFrame(mem, at);
    case Stopper(at) => StopperFrame(mem, at);
    case Finished =>
  }

  lemma {:induction false} PublisherAdmitted(mem: Shared, job: Job, at: PublisherAt, env: Env)
    ensures var next := PublisherStep(mem, job, at, env).next;
            Admitted(next).Some? ==> Admitted(next) == Admitted(Publisher(job, at))
  {
  }

  lemma {:induction false} PusherAdmitted(mem: Shared, job: Job, event: Snapshot, k: nat, at: PusherAt)
    ensures Admitted(PusherStep(mem, job, event, k, at).next) == Admitted(Pusher(job, event, k, at))
  {
  }

  lemma {:induction false} HandlerAdmitted(mem: Shared, at: HandlerAt)
    requires AdmittedOk(mem, Handler(at))
    ensures AdmittedOk(HandlerStep(mem, at).mem, HandlerStep(mem, at).next)
  {
  }

  lemma {:induction false} MoveAdmitted(mem: Shared, t: Tid, th: Thread, env: Env)
    requires AdmittedOk(mem, th) && Wants(t, th).None?
    ensures var mv := MoveOf(mem, t, th, env); AdmittedOk(mv.mem, mv.next)
  {
    MoveCooldown(mem, t, th, env);
    match th
    case Publisher(job, at) => PublisherAdmitted(mem, job, at, env);
    case Pusher(job, event, k, at) => PusherAdmitted(mem, job, event, k, at);
    case Handler(at) => HandlerAdmitted(mem, at);
    case _ =>
  }

  lemma {:induction false} CooldownKept(s: State, a: Action)
    requires LocksOk(s) && CooldownOk(s) && Enabled(s, a)
    ensures CooldownOk(Step(s, a))
  {
    match a
    case Run(t, env) => RunKeepsCooldown(s, t, env);
    case Advance(_) =>
      var s' := Step(s, a);
      forall t | t in s'.threads ensures AdmittedOk(s'.mem, s'.threads[t]) { assert AdmittedOk(s.mem, s.threads[t]); }
    case _ =>
  }

  lemma {:induction false} RunKeepsCooldown(s: State, t: Tid, env: Env)
    requires LocksOk(s) && CooldownOk(s) && CanRun(s, t)
    ensures CooldownOk(RunThread(s, t, env))
  {
    var s', th := RunThread(s, t, env), s.threads[t];
    assert AdmittedOk(s.mem, th);
    if Wants(t, th).None? {
      MoveCooldown(s.mem, t, th, env);
      MoveAdmitted(s.mem, t, th, env);
    }
    forall u | u in s'.threads ensures AdmittedOk(s'.mem, s'.threads[u]) {
      if u != t {
        assert AdmittedOk(s.mem, s.threads[u]);
        OthersStayAdmitted(s, t, env, u);
      }
    }
  }

  lemma {:induction false} OthersStayAdmitted(s: State, t: Tid, env: Env, u: Tid)
    requires LocksOk(s) && CanRun(s, t) && u in s.threads && u != t
    requires AdmittedOk(s.mem, s.threads[u]) && AdmittedOk(s.mem, s.threads[t])
    ensures AdmittedOk(RunThread(s, t, env).mem, RunThread(s, t, env).threads[u])
  {
    if Wants(t, s.threads[t]).None? {
      MoveCooldown(s.mem, t, s.threads[t], env);
    }
    if Records(s.threads[t]) && Admitted(s.threads[u]).Some? {
      OneHolder(s, t, u, RefreshMutex);
    }
  }
}
