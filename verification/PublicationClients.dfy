/** The life of a client: it is let in, given what is published, and dead when its connection or the agent ends. */
module PublicationClients {
  import opened Wrappers
  import opened Publication
  import opened PublicationFrames
  import opened PublicationLocks
  import opened PublicationStreams
  import opened PublicationStatus
  import opened PublicationProgress
  import opened PublicationTheorems
  import opened PublicationScopes

  // ---- letting in -----------------------------------------------------------------------------------------

  function LiveClients(mem: Shared): set<Tid> {
    set c | c in mem.heap && mem.heap[c].registeredAt.Some? && mem.heap[c].alive
  }

  function Members(clients: seq<Tid>): set<Tid> {
    set c | c in clients
  }

  lemma {:induction false} DistinctCount(clients: seq<Tid>)
    requires forall i, j | 0 <= i < j < |clients| :: clients[i] != clients[j]
    ensures |Members(clients)| == |clients|
  {
    if clients == [] {
      assert Members(clients) == {};
    } else {
      var n := |clients| - 1;
      DistinctCount(clients[..n]);
      assert clients == clients[..n] + [clients[n]];
      assert Members(clients) == Members(clients[..n]) + {clients[n]};
    }
  }

  /** The clients kept when the dead ones are dropped are the live ones. */
  lemma {:induction false} KeptAreLive(s: State)
    requires StreamsOk(s)
    ensures var kept := AliveClients(s.mem.clients, s.mem.heap);
            Members(kept) == LiveClients(s.mem) && |kept| == |LiveClients(s.mem)|
    ensures |LiveClients(s.mem)| <= 16
  {
    var kept := AliveClients(s.mem.clients, s.mem.heap);
    AliveClientsKeeps(s.mem.clients, s.mem.heap);
    DistinctCount(kept);
    forall c | c in s.mem.clients ensures c in s.mem.heap && s.mem.heap[c].registeredAt.Some? {
      var i :| 0 <= i < |s.mem.clients| && s.mem.clients[i] == c;
      assert ListedOk(s.mem.heap[c], s.mem.published, if i < PushCursor(s) then 0 else 1);
    }
    assert Members(kept) == LiveClients(s.mem);
  }

  /**
   A client that asks to be let in is refused exactly when sixteen are alive.  Otherwise it joins them with an empty
   stream; no other client changes, and the list then holds the live clients and no one else.
   */
  lemma {:induction false} LetInExactly(s: State, t: Tid, env: Env)
    requires Reachable(s) && CanRun(s, t) && s.threads[t] == Subscriber(Register)
    ensures var mem, mem' := s.mem, RunThread(s, t, env).mem;
            && t !in LiveClients(mem)
            && Members(mem'.clients) == LiveClients(mem')
            && (if |LiveClients(mem)| == 16 then
                  RunThread(s, t, env).threads[t] == Finished && mem'.heap == mem.heap
                else
                  && RunThread(s, t, env).threads[t] == Publisher(NewClient, WantProbes)
                  && mem'.heap == mem.heap[t := Client(Some(|mem.published|), true, [], 0, [])])
  {
    ReachableInv(s);
    assert PlaceOk(s.mem, t, s.threads[t]);
    KeptAreLive(s);
    Joins(s.mem, t);
  }

  lemma {:induction false} Joins(mem: Shared, t: Tid)
    requires t in mem.heap && mem.heap[t] == FreshClient()
    requires var kept := AliveClients(mem.clients, mem.heap);
             Members(kept) == LiveClients(mem) && |kept| == |LiveClients(mem)| <= 16
    ensures var mv := SubscriberStep(mem, t, Register);
            && Members(mv.mem.clients) == LiveClients(mv.mem)
            && mv.wakes.NoOne?
            && (if |LiveClients(mem)| == 16 then mv.next == Finished && mv.mem.heap == mem.heap
                else mv.next == Publisher(NewClient, WantProbes)
                     && mv.mem.heap == mem.heap[t := Client(Some(|mem.published|), true, [], 0, [])])
  {
    var kept, mem' := AliveClients(mem.clients, mem.heap), SubscriberStep(mem, t, Register).mem;
    if |kept| < 16 {
      assert Members(kept + [t]) == Members(kept) + {t};
      assert LiveClients(mem') == LiveClients(mem) + {t};
    }
  }

  lemma {:induction false} TwoSteps(s: State, a: Action, b: Action)
    requires Enabled(s, a) && Enabled(Step(s, a), b)
    ensures IsRun(s, [a, b]) && After(s, [a, b]) == Step(Step(s, a), b)
  {
    var s1, s2 := Step(s, a), Step(Step(s, a), b);
    assert [b][1..] == [] && IsRun(s2, []) && After(s2, []) == s2;
    assert IsRun(s1, [b]) && After(s1, [b]) == s2;
    assert [a, b][1..] == [b];
  }

  /** A request comes in on a new thread, which takes the first mutex it wants. */
  predicate ComesIn(s: State, t: Tid, request: Request, m: Mutex) {
    Enabled(s, Accept(t, request)) && m !in s.locks
  }

  /** GET /api/v1/events, with the list of clients free: the client is let in unless sixteen are alive. */
  lemma {:induction false} ConnectingLetsIn(s: State, t: Tid, env: Env)
    requires Reachable(s) && ComesIn(s, t, GetEvents, SseMutex)
    ensures IsRun(s, [Accept(t, GetEvents), Run(t, env)])
    ensures var s2 := After(s, [Accept(t, GetEvents), Run(t, env)]);
            && CanRun(s2, t)
            && (t in LiveClients(RunThread(s2, t, env).mem) <==> |LiveClients(s.mem)| < 16)
  {
    var s1 := Step(s, Accept(t, GetEvents));
    TwoSteps(s, Accept(t, GetEvents), Run(t, env));
    Reaches(s, Accept(t, GetEvents));
    Reaches(s1, Run(t, env));
    LetInExactly(Step(s1, Run(t, env)), t, env);
    ReachableInv(s);
    SameLiveClients(s, t);
    KeptAreLive(s);
  }

  lemma {:induction false} SameLiveClients(s: State, t: Tid)
    requires StreamsOk(s) && t !in s.threads
    ensures LiveClients(SetClient(s.mem, t, FreshClient())) == LiveClients(s.mem)
  {
    assert t !in s.mem.heap;
  }

  /** POST /api/v1/refresh, with nobody else at it: a refresh begins if and only if the last ten minutes saw none. */
  lemma {:induction false} PostingRefreshes(s: State, t: Tid, env: Env)
    requires Reachable(s) && ComesIn(s, t, PostRefresh, RefreshMutex)
    ensures IsRun(s, [Accept(t, PostRefresh), Run(t, env)])
    ensures var s2 := After(s, [Accept(t, PostRefresh), Run(t, env)]);
            && CanRun(s2, t)
            && (RunThread(s2, t, env).threads[t] == Publisher(ManualRefresh(s.mem.now), WantProbes)
                <==> forall at | at in s.mem.manualRefreshes :: s.mem.now - at >= 600_000)
  {
    var s1 := Step(s, Accept(t, PostRefresh));
    TwoSteps(s, Accept(t, PostRefresh), Run(t, env));
    Reaches(s, Accept(t, PostRefresh));
    Reaches(s1, Run(t, env));
    AdmittedExactly(Step(s1, Run(t, env)), t, env);
  }

  /** A signal to stop makes the agent stop with its first step, whoever holds what. */
  lemma {:induction false} StopSignalStops(s: State, t: Tid, env: Env)
    requires Enabled(s, Accept(t, StopSignal))
    ensures IsRun(s, [Accept(t, StopSignal), Run(t, env)])
    ensures !After(s, [Accept(t, StopSignal), Run(t, env)]).mem.running
  {
    TwoSteps(s, Accept(t, StopSignal), Run(t, env));
  }

  // ---- giving out -----------------------------------------------------------------------------------------

  /** The client has a first event its drain thread has not given it, and its connection stands. */
  predicate Undelivered(mem: Shared, c: Tid) {
    c in mem.heap && mem.heap[c].alive && mem.heap[c].cursor < |mem.heap[c].pending|
  }

  /** How many steps of its own a drain thread is away from giving out the next event. */
  function StepsToEvent(at: DrainerAt): nat {
    match at
    case Deliver => 1
    case TestAlive => 2
    case CheckQueue => 3
    case WantQueue => 4
    case Woken => 4
    case Connected => 5
    case Asleep => 5
    case Park => 6
    case HangUp => 7
    case HangUpNotify => 7
  }

  /** The thread drains, and has not found its connection closed. */
  predicate Drains(th: Thread) {
    th.Drainer? && th.drainer != HangUp && th.drainer != HangUpNotify
  }

  /** What the next event is, in the history. */
  function NextEvent(mem: Shared, c: Tid): Option<Snapshot> {
    if c in mem.heap && mem.heap[c].registeredAt.Some?
       && mem.heap[c].registeredAt.value + |mem.heap[c].delivered| < |mem.published|
    then Some(mem.published[mem.heap[c].registeredAt.value + |mem.heap[c].delivered|]) else None
  }

  lemma {:induction false} PendingIsNext(s: State, c: Tid)
    requires StreamsOk(s) && Undelivered(s.mem, c) && s.mem.heap[c].registeredAt.Some?
    ensures NextEvent(s.mem, c) == Some(s.mem.heap[c].pending[s.mem.heap[c].cursor])
  {
    var client := s.mem.heap[c];
    StreamOfClient(s, c);
    assert c in s.mem.clients;
    var i :| 0 <= i < |s.mem.clients| && s.mem.clients[i] == c;
    var n := |client.delivered|;
    assert Stream(client)[n] == client.pending[client.cursor];
    assert Since(s.mem, client)[n] == s.mem.published[client.registeredAt.value + n];
  }

  lemma {:induction false} OwnDrainStep(mem: Shared, t: Tid, at: DrainerAt, env: Env)
    requires Undelivered(mem, t) && Drains(Drainer(at)) && Wants(t, Drainer(at)).None? && at != Asleep && at != Park
    requires at == Connected ==> !env.hangUp
    ensures var mv := DrainerStep(mem, t, at, env);
            if at == Deliver then
              mv.mem.heap[t].delivered == mem.heap[t].delivered + [mem.heap[t].pending[mem.heap[t].cursor]]
            else mv.mem == mem && Drains(mv.next) && StepsToEvent(mv.next.drainer) < StepsToEvent(at)
  {
  }

  /** A run in which the client's connection is not found closed. */
  predicate StaysOpen(actions: seq<Action>, t: Tid) {
    forall a | a in actions :: a.Run? && a.t == t ==> !a.env.hangUp
  }

  lemma {:induction false} OthersLeaveQueue(s: State, a: Action, t: Tid)
    requires LocksOk(s) && StreamsOk(s) && Enabled(s, a) && t in s.threads && s.threads[t].Drainer?
    requires Undelivered(s.mem, t) && (a.Run? ==> a.t != t) && Find(Step(s, a).mem.heap, t).alive
    ensures Undelivered(Step(s, a).mem, t)
    ensures Step(s, a).mem.heap[t].delivered == s.mem.heap[t].delivered
    ensures Step(s, a).mem.heap[t].registeredAt == s.mem.heap[t].registeredAt
  {
    if a.Run? && Wants(a.t, s.threads[a.t]).None? {
      OthersOnlyAppend(s.mem, a.t, s.threads[a.t], a.env, t);
    } else if a.Accept? {
      assert a.t !in s.mem.heap;
    }
  }

  lemma {:induction false} OthersOnlyAppend(mem: Shared, u: Tid, th: Thread, env: Env, t: Tid)
    requires u != t && t in mem.heap
    ensures var heap' := MoveOf(mem, u, th, env).mem.heap;
            && t in heap' && mem.heap[t].pending <= heap'[t].pending
            && heap'[t].cursor == mem.heap[t].cursor && heap'[t].delivered == mem.heap[t].delivered
            && heap'[t].registeredAt == mem.heap[t].registeredAt
  {
    if Touched(mem, u, th) != t {
      MoveTouches(mem, u, th, env);
    }
  }

  lemma {:induction false} NudgedDrains(th: Thread, start: bool)
    requires Drains(th)
    ensures Drains(Nudged(th, start)) && StepsToEvent(Nudged(th, start).drainer) <= StepsToEvent(th.drainer)
  {
  }

  /** The event is given out, or the thread is not further away from it than before, and nearer if `nearer`. */
  predicate Advances(s: State, s': State, t: Tid, next: Snapshot, nearer: bool)
    requires t in s.mem.heap && t in s'.mem.heap && t in s.threads && t in s'.threads && Drains(s.threads[t])
  {
    || s'.mem.heap[t].delivered == s.mem.heap[t].delivered + [next]
    || (&& s'.mem.heap[t].delivered == s.mem.heap[t].delivered && Undelivered(s'.mem, t) && Drains(s'.threads[t])
        && var steps, steps' := StepsToEvent(s.threads[t].drainer), StepsToEvent(s'.threads[t].drainer);
           steps' <= steps && (nearer ==> steps' < steps))
  }

  lemma {:induction false} OwnStepAdvances(s: State, t: Tid, env: Env)
    requires CanRun(s, t) && Drains(s.threads[t]) && Undelivered(s.mem, t) && DrainerOk(s, t) && !env.hangUp
    ensures t in RunThread(s, t, env).mem.heap
    ensures Advances(s, RunThread(s, t, env), t, s.mem.heap[t].pending[s.mem.heap[t].cursor], true)
  {
    if Wants(t, s.threads[t]).None? {
      OwnDrainStep(s.mem, t, s.threads[t].drainer, env);
    }
  }

  lemma {:induction false} OthersStepAdvances(s: State, a: Action, t: Tid, next: Snapshot)
    requires LocksOk(s) && StreamsOk(s) && Enabled(s, a) && t in s.threads && Drains(s.threads[t])
    requires Undelivered(s.mem, t) && (a.Run? ==> a.t != t) && Find(Step(s, a).mem.heap, t).alive
    ensures t in Step(s, a).mem.heap && t in Step(s, a).threads
    ensures Advances(s, Step(s, a), t, next, false)
  {
    OthersLeaveQueue(s, a, t);
    NudgedDrains(s.threads[t], true);
    NudgedDrains(s.threads[t], false);
  }

  /**
   While its connection stands, a client with an undelivered event comes nearer to it with each step of its drain
   thread, and no step of anyone else takes it further away.  What it is given is the next event of the history.
   */
  lemma {:induction false} DrainGoesOn(s: State, a: Action, t: Tid)
    requires Reachable(s) && Enabled(s, a) && t in s.threads && Drains(s.threads[t]) && Undelivered(s.mem, t)
    requires Find(Step(s, a).mem.heap, t).alive && (a.Run? && a.t == t ==> !a.env.hangUp)
    ensures t in Step(s, a).mem.heap && t in Step(s, a).threads && NextEvent(s.mem, t).Some?
    ensures Advances(s, Step(s, a), t, NextEvent(s.mem, t).value, a.Run? && a.t == t)
  {
    ReachableInv(s);
    assert ServedOk(s.mem, t, s.threads[t]) && DrainerOk(s, t);
    PendingIsNext(s, t);
    if a.Run? && a.t == t {
      OwnStepAdvances(s, t, a.env);
    } else {
      OthersStepAdvances(s, a, t, NextEvent(s.mem, t).value);
    }
  }

  /** Thread `t` is alive in every state of the run. */
  predicate AliveAllAlong(s: State, actions: seq<Action>, t: Tid)
    requires IsRun(s, actions)
    decreases |actions|
  {
    Find(s.mem.heap, t).alive && (actions == [] || AliveAllAlong(Step(s, actions[0]), actions[1..], t))
  }

  /** In any run, five steps of its drain thread give a client its next event, unless the connection ends before. */
  lemma {:induction false} EventComesWithinFiveSteps(s: State, actions: seq<Action>, t: Tid)
    requires Reachable(s) && IsRun(s, actions) && t in s.threads && Drains(s.threads[t]) && Undelivered(s.mem, t)
    requires AliveAllAlong(s, actions, t) && StaysOpen(actions, t)
    requires StepsOf(actions, t) >= 5
    ensures t in After(s, actions).mem.heap && NextEvent(s.mem, t).Some?
    ensures s.mem.heap[t].delivered + [NextEvent(s.mem, t).value] <= After(s, actions).mem.heap[t].delivered
  {
    NotParked(s, t);
    EventComesWithinSteps(s, actions, t);
  }

  lemma {:induction false} NotParked(s: State, t: Tid)
    requires Reachable(s) && t in s.threads && Drains(s.threads[t]) && Undelivered(s.mem, t)
    ensures StepsToEvent(s.threads[t].drainer) <= 5
  {
    ReachableInv(s);
    assert DrainerOk(s, t);
    NotParkedHere(s, t);
  }

  lemma {:induction false} NotParkedHere(s: State, t: Tid)
    requires t in s.threads && DrainerOk(s, t) && Drains(s.threads[t]) && Undelivered(s.mem, t)
    ensures StepsToEvent(s.threads[t].drainer) <= 5
  {
  }

  lemma {:induction false} EventComesWithinSteps(s: State, actions: seq<Action>, t: Tid)
    requires Reachable(s) && IsRun(s, actions) && t in s.threads && Drains(s.threads[t]) && Undelivered(s.mem, t)
    requires AliveAllAlong(s, actions, t) && StaysOpen(actions, t)
    requires StepsOf(actions, t) >= StepsToEvent(s.threads[t].drainer)
    ensures t in After(s, actions).mem.heap && NextEvent(s.mem, t).Some?
    ensures s.mem.heap[t].delivered + [NextEvent(s.mem, t).value] <= After(s, actions).mem.heap[t].delivered
    decreases |actions|
  {
    var a, s1, rest := actions[0], Step(s, actions[0]), actions[1..];
    assert a in actions && forall b | b in rest :: b in actions;
    Reaches(s, a);
    DrainGoesOn(s, a, t);
    if s1.mem.heap[t].delivered == s.mem.heap[t].delivered {
      ReachableInv(s);
      StepGrows(s, a, t);
      SameNext(s, s1, t);
      EventComesWithinSteps(s1, rest, t);
    } else {
      HistoryOnlyGrows(s1, rest, t);
    }
  }

  lemma {:induction false} SameNext(s: State, s1: State, t: Tid)
    requires Grew(s.mem, s1.mem, t) && NextEvent(s.mem, t).Some?
    requires s1.mem.heap[t].delivered == s.mem.heap[t].delivered
    ensures NextEvent(s1.mem, t) == NextEvent(s.mem, t)
  {
  }

  // ---- the end --------------------------------------------------------------------------------------------

  /** Stopper `k` positions into the list. */
  function Stopped(th: Thread): nat {
    match th
    case Stopper(StopScan(k)) => k
    case Stopper(StopNotify(k)) => k + 1
    case _ => 0
  }

  /** What a thread at this place says about the clients and about the agent. */
  predicate EndOk(mem: Shared, t: Tid, th: Thread) {
    && (th == Drainer(HangUpNotify) || (th.Finished? && t in mem.heap && mem.heap[t].registeredAt.Some?) ==>
          t in mem.heap && !mem.heap[t].alive)
    && (RoleOf(th) != EventsRole && RoleOf(th) != Done ==> Find(mem.heap, t).registeredAt.None?)
    && (th.Stopper? && !th.stopper.StopRequested? ==> !mem.running)
    && (th == Main(ListenReturned) ==> !mem.running)
    && (forall i: nat | i < Stopped(th) && i < |mem.clients| :: !Find(mem.heap, mem.clients[i]).alive)
  }

  ghost predicate EndsOk(s: State) {
    forall t | t in s.threads :: EndOk(s.mem, t, s.threads[t])
  }

  /** The dead stay dead, and a stopped agent stays stopped. */
  predicate StaysEnded(mem: Shared, mem': Shared) {
    && (mem'.running ==> mem.running)
    && (forall c | c in mem.heap && !mem.heap[c].alive :: c in mem'.heap && !mem'.heap[c].alive)
  }

  lemma {:induction false} StopperStaysEnded(mem: Shared, at: StopperAt)
    ensures StaysEnded(mem, StopperStep(mem, at).mem)
  {
  }

  lemma {:induction false} DrainerStaysEnded(mem: Shared, t: Tid, at: DrainerAt, env: Env)
    ensures StaysEnded(mem, DrainerStep(mem, t, at, env).mem)
  {
  }

  lemma {:induction false} SubscriberStaysEnded(mem: Shared, t: Tid, at: SubscriberAt)
    ensures StaysEnded(mem, SubscriberStep(mem, t, at).mem)
  {
  }

  lemma {:induction false} PusherStaysEnded(mem: Shared, job: Job, event: Snapshot, k: nat, at: PusherAt)
    ensures StaysEnded(mem, PusherStep(mem, job, event, k, at).mem)
  {
  }

  lemma {:induction false} MoveStaysEnded(mem: Shared, t: Tid, th: Thread, env: Env)
    requires Wants(t, th).None?
    ensures StaysEnded(mem, MoveOf(mem, t, th, env).mem)
  {
    match th
    case Main(at) => MainFrame(mem, at);
    case Handler(at) => HandlerFrame(mem, at);
    case Publisher(job, at) => PublisherFrame(mem, job, at, env);
    case Pusher(job, event, k, at) => PusherStaysEnded(mem, job, event, k, at);
    case Subscriber(at) => SubscriberStaysEnded(mem, t, at);
    case Drainer(at) => DrainerStaysEnded(mem, t, at, env);
    case Refresher(at) => RefresherFrame(mem, at);
    case Stopper(at) => StopperStaysEnded(mem, at);
    case Finished =>
  }

  // The mover itself.

  lemma {:induction false} StopperEnds(mem: Shared, t: Tid, at: StopperAt)
    requires EndOk(mem, t, Stopper(at)) && Wants(t, Stopper(at)).None?
    requires forall i, j | 0 <= i < j < |mem.clients| :: mem.clients[i] != mem.clients[j]
    requires at.StopScan? && at.k < |mem.clients| ==> mem.clients[at.k] in mem.heap
    requires at.StopScan? && at.k < |mem.clients| ==> mem.clients[at.k] != t
    ensures EndOk(StopperStep(mem, at).mem, t, StopperStep(mem, at).next)
  {
  }

  lemma {:induction false} DrainerEnds(mem: Shared, t: Tid, at: DrainerAt, env: Env)
    requires EndOk(mem, t, Drainer(at)) && t in mem.heap
    ensures EndOk(DrainerStep(mem, t, at, env).mem, t, DrainerStep(mem, t, at, env).next)
  {
  }

  lemma {:induction false} SubscriberEnds(mem: Shared, t: Tid, at: SubscriberAt)
    requires EndOk(mem, t, Subscriber(at)) && Wants(t, Subscriber(at)).None? && PlaceOk(mem, t, Subscriber(at))
    ensures EndOk(SubscriberStep(mem, t, at).mem, t, SubscriberStep(mem, t, at).next)
  {
  }

  /** The other threads. */
  lemma {:induction false} OthersEnd(mem: Shared, t: Tid, th: Thread, env: Env)
    requires EndOk(mem, t, th) && Wants(t, th).None? && !Idle(th)
    requires !th.Stopper? && !th.Drainer? && !th.Subscriber?
    ensures EndOk(MoveOf(mem, t, th, env).mem, t, MoveOf(mem, t, th, env).next)
  {
    var mv := MoveOf(mem, t, th, env);
    MoveKeepsRole(mem, t, th, env);
    MoveRemembers(mem, t, th, env, t);
    MoveStaysEnded(mem, t, th, env);
    OtherPlaces(mem, t, th, env);
  }

  lemma {:induction false} OtherPlaces(mem: Shared, t: Tid, th: Thread, env: Env)
    requires Wants(t, th).None? && !Idle(th) && !th.Stopper? && !th.Drainer? && !th.Subscriber?
    ensures var mv := MoveOf(mem, t, th, env);
            && !mv.next.Stopper? && !mv.next.Drainer?
            && (mv.next.Finished? ==> RoleOf(th) != EventsRole)
            && (mv.next == Main(ListenReturned) ==> !mv.mem.running)
  {
  }

  lemma {:induction false} MoverEnds(s: State, t: Tid, env: Env)
    requires RolesOk(s) && StreamsOk(s) && EndsOk(s) && CanRun(s, t) && Wants(t, s.threads[t]).None?
    ensures EndOk(RunThread(s, t, env).mem, t, RunThread(s, t, env).threads[t])
  {
    var th := s.threads[t];
    assert EndOk(s.mem, t, th) && RoleFits(t, RoleOf(th), s.mem.heap) && PlaceOk(s.mem, t, th);
    match th
    case Stopper(at) =>
      if at.StopScan? && at.k < |s.mem.clients| {
        assert ListedOk(s.mem.heap[s.mem.clients[at.k]], s.mem.published, if at.k < PushCursor(s) then 0 else 1);
      }
      StopperEnds(s.mem, t, at);
    case Drainer(at) => DrainerEnds(s.mem, t, at, env);
    case Subscriber(at) => SubscriberEnds(s.mem, t, at);
    case _ => OthersEnd(s.mem, t, th, env);
  }

  lemma {:induction false} OthersStayEnded(s: State, t: Tid, env: Env, u: Tid)
    requires LocksOk(s) && StreamsOk(s) && EndsOk(s) && CanRun(s, t) && Wants(t, s.threads[t]).None?
    requires u in s.threads && u != t
    ensures EndOk(RunThread(s, t, env).mem, u, s.threads[u])
  {
    var th, mem' := s.threads[t], MoveOf(s.mem, t, s.threads[t], env).mem;
    assert EndOk(s.mem, u, s.threads[u]);
    MoveStaysEnded(s.mem, t, th, env);
    MoveRemembers(s.mem, t, th, env, u);
    if Stopped(s.threads[u]) > 0 {
      assert Holds(u, s.threads[u], SseMutex);
      if Holds(t, th, SseMutex) { OneHolder(s, t, u, SseMutex); }
      OthersKeepList(s.mem, t, th, env);
      ListedAreKnown(s);
    }
  }

  lemma {:induction false} ListedAreKnown(s: State)
    requires StreamsOk(s)
    ensures forall i | 0 <= i < |s.mem.clients| :: s.mem.clients[i] in s.mem.heap
  {
  }

  lemma {:induction false} NudgedEnd(mem: Shared, u: Tid, th: Thread, start: bool)
    requires EndOk(mem, u, th)
    ensures EndOk(mem, u, Nudged(th, start))
  {
  }

  lemma {:induction false} RunKeepsEnds(s: State, t: Tid, env: Env)
    requires RolesOk(s) && LocksOk(s) && StreamsOk(s) && EndsOk(s) && CanRun(s, t)
    ensures EndsOk(RunThread(s, t, env))
  {
    var s' := RunThread(s, t, env);
    assert EndOk(s.mem, t, s.threads[t]);
    if Wants(t, s.threads[t]).Some? {
      AcquireKeepsEnd(s.mem, t, s.threads[t]);
    } else {
      MoverEnds(s, t, env);
      forall u | u in s'.threads ensures EndOk(s'.mem, u, s'.threads[u]) {
        if u != t {
          OthersStayEnded(s, t, env, u);
          NudgedEnd(s'.mem, u, s.threads[u], MoveOf(s.mem, t, s.threads[t], env).wakes.Start?);
        }
      }
    }
  }

  lemma {:induction false} AcquireKeepsEnd(mem: Shared, t: Tid, th: Thread)
    requires EndOk(mem, t, th) && Wants(t, th).Some?
    ensures EndOk(mem, t, Wants(t, th).value.1)
  {
  }

  lemma {:induction false} NewcomerKeepsEnd(mem: Shared, t: Tid, u: Tid, th: Thread)
    requires EndOk(mem, u, th) && t !in mem.heap && u != t
    requires forall i | 0 <= i < |mem.clients| :: mem.clients[i] in mem.heap
    ensures EndOk(SetClient(mem, t, FreshClient()), u, th)
  {
  }

  lemma {:induction false} AcceptKeepsEnds(s: State, t: Tid, request: Request)
    requires StreamsOk(s) && EndsOk(s) && Enabled(s, Accept(t, request))
    ensures EndsOk(Step(s, Accept(t, request)))
  {
    var s' := Step(s, Accept(t, request));
    ListedAreKnown(s);
    assert t !in s.mem.heap;
    forall u | u in s.threads ensures EndOk(s'.mem, u, s.threads[u]) {
      assert EndOk(s.mem, u, s.threads[u]);
      NewcomerKeepsEnd(s.mem, t, u, s.threads[u]);
    }
  }

  lemma {:induction false} EndsKept(s: State, a: Action)
    requires RolesOk(s) && LocksOk(s) && StreamsOk(s) && EndsOk(s) && Enabled(s, a)
    ensures EndsOk(Step(s, a))
  {
    match a
    case Run(t, env) => RunKeepsEnds(s, t, env);
    case Accept(t, request) => AcceptKeepsEnds(s, t, request);
    case _ => QuietKeepsEnds(s, a);
  }

  lemma {:induction false} QuietKeepsEnds(s: State, a: Action)
    requires EndsOk(s) && Enabled(s, a) && !a.Run? && !a.Accept?
    ensures EndsOk(Step(s, a))
  {
    var s' := Step(s, a);
    forall u | u in s'.threads ensures EndOk(s'.mem, u, s'.threads[u]) {
      assert EndOk(s.mem, u, s.threads[u]);
      NudgedEnd(s.mem, u, s.threads[u], false);
      ClockKeepsEnd(s.mem, s'.mem.now, u, s'.threads[u]);
    }
  }

  lemma {:induction false} ClockKeepsEnd(mem: Shared, now: int, u: Tid, th: Thread)
    ensures EndOk(mem.(now := now), u, th) <==> EndOk(mem, u, th)
  {
  }

  lemma {:induction false} RunEnds(s: State, actions: seq<Action>)
    requires Reachable(s) && EndsOk(s) && IsRun(s, actions)
    ensures EndsOk(After(s, actions))
    decreases |actions|
  {
    if actions != [] {
      ReachableInv(s);
      EndsKept(s, actions[0]);
      Reaches(s, actions[0]);
      RunEnds(Step(s, actions[0]), actions[1..]);
    }
  }

  lemma {:induction false} ReachableEnds(s: State)
    requires Reachable(s)
    ensures EndsOk(s)
  {
    var disks, probes, now, actions :|
      IsRun(Initial(disks, probes, now), actions) && s == After(Initial(disks, probes, now), actions);
    assert IsRun(Initial(disks, probes, now), []);
    RunEnds(Initial(disks, probes, now), actions);
  }

  /**
   A client that is alive has a thread that serves it: its drain thread, before that has found the connection closed, or
   the thread of its on-connect callback.
   */
  lemma {:induction false} LiveClientIsServed(s: State, c: Tid)
    requires Reachable(s) && c in LiveClients(s.mem)
    ensures c in s.threads && RoleOf(s.threads[c]) == EventsRole && s.threads[c] != Drainer(HangUpNotify)
  {
    ReachableInv(s);
    ReachableEnds(s);
    assert c in s.mem.heap.Keys;
    assert EndOk(s.mem, c, s.threads[c]);
  }

  /** When stop() has gone through its list, the agent is stopping and not one of the clients let in so far is alive. */
  lemma {:induction false} StopKillsAllClients(s: State, t: Tid, k: nat)
    requires Reachable(s) && t in s.threads && s.threads[t] == Stopper(StopScan(k)) && k >= |s.mem.clients|
    ensures LiveClients(s.mem) == {} && !s.mem.running
  {
    ReachableInv(s);
    ReachableEnds(s);
    assert EndOk(s.mem, t, s.threads[t]);
    ListedAreDead(s, t, k);
  }

  lemma {:induction false} ListedAreDead(s: State, t: Tid, k: nat)
    requires StreamsOk(s) && EndOk(s.mem, t, Stopper(StopScan(k))) && k >= |s.mem.clients|
    ensures LiveClients(s.mem) == {}
  {
    forall c | c in s.mem.heap && s.mem.heap[c].registeredAt.Some? ensures !s.mem.heap[c].alive {
      StreamOfClient(s, c);
      if c in s.mem.clients {
        var i :| 0 <= i < |s.mem.clients| && s.mem.clients[i] == c;
        assert i < Stopped(Stopper(StopScan(k)));
      }
    }
  }

  /** Once listen() has returned, the agent is stopping. */
  lemma {:induction false} ListenReturnedMeansStopping(s: State)
    requires Reachable(s) && MAIN in s.threads && s.threads[MAIN] == Main(ListenReturned)
    ensures !s.mem.running
  {
    ReachableEnds(s);
    assert EndOk(s.mem, MAIN, s.threads[MAIN]);
  }
}
