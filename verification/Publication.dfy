/**
 The agent's publication protocol as a step system.  Every thread of the agent (main, the background
 refresher, one worker per HTTP request) has a program counter; one step takes a mutex, or makes one
 access under it, or gives it back.  A worker that serves GET /api/v1/events turns into the drain thread
 of the client it made, so a client is named by its thread.
 */
module Publication {
  import opened Wrappers
  import opened Health
  import opened Aggregation

  type Tid = nat

  const MAIN: Tid := 0
  const REFRESHER: Tid := 1
  const MAX_SSE_CLIENTS := 16
  const REFRESH_COOLDOWN_SECONDS := 600
  const MS_PER_SECOND := 1000

  datatype Mutex = RefreshMutex | ProbeMutex | DataMutex | SseMutex | ClientMutex(client: Tid) | BgMutex

  /** What buildStatusJson serialises, and so also the payload of one SSE event. */
  datatype Snapshot = Snapshot(report: StatusReport, lastRefreshed: Option<nat>)

  /** SseClient.  `cursor` is the drain loop's iterator over `pending`; `delivered` is what the sink was given. */
  datatype Client = Client(
    registeredAt: Option<nat>, alive: bool, pending: seq<Snapshot>, cursor: nat, delivered: seq<Snapshot>)

  /** On whose behalf a thread collects and publishes under g_probeMutex. */
  datatype Job = StartUp | Background | ManualRefresh(at: int) | NewClient

  // Program counters.  A state called Want... is about to take a mutex.

  /** main(), from the end of its initial publication on. */
  datatype MainAt = StartRefresher | Listening | ListenReturned

  /**
   POST /api/v1/refresh up to its status answer, or the library's answer 500 to an exception; GET /api/v1/status
   starts at WantStatus.
   */
  datatype HandlerAt = WantRefresh | CheckCooldown | RecordRefresh(at: int) | RefreshFailed | WantStatus | ReadStatus

  /**
   The scope of g_probeMutex: probe refresh, publishFromCache, setStatusData, buildStatusJson.  `Threw` is the way
   out when a probe's refresh throws.
   */
  datatype PublisherAt =
    | WantProbes | BeginCollect | Collect(started: int, next: nat, any: bool) | Threw
    | Summarise | WantStore(report: StatusReport) | Store(report: StatusReport) | WantBuild | Build
    | WantPush(event: Snapshot) | Published

  /** pushSseEvent, inside that scope. */
  datatype PusherAt =
    | StartPush
    | Scan
    | WantClient(client: Tid)
    | Append(client: Tid)
    | Signal(client: Tid)
    | Leave(client: Tid)

  /** GET /api/v1/events: registration and, after the publication, requestBackgroundRefresh. */
  datatype SubscriberAt = WantRegister | Register | WantRequest | SetRequest | NotifyRequest

  /** The content provider of GET /api/v1/events and its releaser. */
  datatype DrainerAt =
    | Connected | WantQueue | CheckQueue | Park | Asleep | Woken | TestAlive | Deliver | HangUp | HangUpNotify

  /** The background thread outside its publications. */
  datatype RefresherAt =
    | NotStarted | LoopHead | WantWait | CheckRequest | ParkRefresher | Waiting | Notified | TimedOut
    | ClearRequest | CheckRunning

  /** HttpServer::stop() as called on a signal. */
  datatype StopperAt = StopRequested | WantStop | StopScan(k: nat) | StopNotify(k: nat)

  datatype Thread =
    | Main(main: MainAt)
    | Handler(handler: HandlerAt)
    | Publisher(job: Job, publisher: PublisherAt)
    | Pusher(job: Job, event: Snapshot, k: nat, pusher: PusherAt)
    | Subscriber(subscriber: SubscriberAt)
    | Drainer(drainer: DrainerAt)
    | Refresher(refresher: RefresherAt)
    | Stopper(stopper: StopperAt)
    | Finished

  /** Everything the threads share, apart from the mutexes. */
  datatype Shared = Shared(
    disks: seq<string>,
    now: int,                     // steady clock, in milliseconds
    running: bool,                // g_running
    ended: bool,                  // an exception nobody catches has ended the process
    probes: seq<ProbeEntry>,
    status: Snapshot,             // overallHealth, disks, lastRefreshed
    lastManualRefresh: int,       // lastRefreshTime
    refreshRequested: bool,       // g_refreshRequested
    clients: seq<Tid>,            // sseClients
    heap: map<Tid, Client>,       // every SseClient ever made
    // history
    published: seq<Snapshot>,     // events passed to pushSseEvent, in the order it took sseMutex
    requests: nat,                // background refreshes requested so far
    covered: nat,                 // of those, the ones made before the latest stale-probe pass began
    manualRefreshes: seq<int>,    // clock readings of the manual refreshes carried out to the end
    reported: seq<ProbeEntry>,    // the entries that the stored status was made from
    unreported: set<nat>,         // positions of the entries written since
    thrown: bool)                 // whether a probe's refresh has thrown since

  datatype State = State(
    mem: Shared,
    threads: map<Tid, Thread>,
    locks: map<Mutex, Tid>)       // owners of the mutexes that are held

  /** What the environment contributes to a step; a refresh that `throws` may have collected for some disks. */
  datatype Env = Env(collected: ProbeCache, throws: bool, stamp: nat, hangUp: bool)

  datatype Request = GetStatus | PostRefresh | GetEvents | StopSignal

  datatype Action =
    | Advance(elapsed: nat)
    | Accept(t: Tid, request: Request)
    | Run(t: Tid, env: Env)
    | WakeSpuriously(t: Tid)
    | TimeOut

  function Initial(disks: seq<string>, probes: seq<ProbeEntry>, now: int): State {
    State(Shared(disks, now, true, false, probes, Snapshot(StatusReport(Unknown, []), None),
                 now - REFRESH_COOLDOWN_SECONDS * MS_PER_SECOND, false, [], map[], [], 0, 0, [], probes, {}, false),
          map[MAIN := Publisher(StartUp, WantProbes), REFRESHER := Refresher(NotStarted)], map[])
  }

  // ---- locks ---------------------------------------------------------------------------------

  /** The mutex a thread must take for its next step, and where it is then. */
  function Wants(t: Tid, th: Thread): Option<(Mutex, Thread)> {
    match th
    case Handler(WantRefresh) => Some((RefreshMutex, Handler(CheckCooldown)))
    case Handler(WantStatus) => Some((DataMutex, Handler(ReadStatus)))
    case Publisher(job, WantProbes) =>
      Some((ProbeMutex, Publisher(job, if job == NewClient then Summarise else BeginCollect)))
    case Publisher(job, WantStore(report)) => Some((DataMutex, Publisher(job, Store(report))))
    case Publisher(job, WantBuild) => Some((DataMutex, Publisher(job, Build)))
    case Publisher(job, WantPush(event)) => Some((SseMutex, Pusher(job, event, 0, StartPush)))
    case Pusher(job, event, k, WantClient(c)) => Some((ClientMutex(c), Pusher(job, event, k, Append(c))))
    case Subscriber(WantRegister) => Some((SseMutex, Subscriber(Register)))
    case Subscriber(WantRequest) => Some((BgMutex, Subscriber(SetRequest)))
    case Drainer(WantQueue) => Some((ClientMutex(t), Drainer(CheckQueue)))
    case Drainer(Woken) => Some((ClientMutex(t), Drainer(CheckQueue)))
    case Refresher(WantWait) => Some((BgMutex, Refresher(CheckRequest)))
    case Refresher(Notified) => Some((BgMutex, Refresher(CheckRequest)))
    case Refresher(TimedOut) => Some((BgMutex, Refresher(ClearRequest)))
    case Stopper(WantStop) => Some((SseMutex, Stopper(StopScan(0))))
    case _ => None
  }

  /** The thread is inside the scope of g_probeMutex. */
  predicate InProbeScope(th: Thread) {
    th.Pusher? || (th.Publisher? && !th.publisher.WantProbes?)
  }

  /** The thread is inside the part of the content provider that holds its client's mutex. */
  predicate AtQueue(th: Thread) {
    th.Drainer? && (th.drainer.CheckQueue? || th.drainer.Park? || th.drainer.TestAlive? || th.drainer.Deliver?)
  }

  /** The mutexes a thread's guards are holding. */
  predicate Holds(t: Tid, th: Thread, m: Mutex) {
    match m
    case RefreshMutex =>
      || (th.Handler? && (th.handler.CheckCooldown? || th.handler.RecordRefresh? || th.handler.RefreshFailed?))
      || ((th.Publisher? || th.Pusher?) && th.job.ManualRefresh?)
    case ProbeMutex => InProbeScope(th)
    case DataMutex =>
      (th.Handler? && th.handler.ReadStatus?) || (th.Publisher? && (th.publisher.Store? || th.publisher.Build?))
    case SseMutex =>
      || th.Pusher?
      || (th.Subscriber? && th.subscriber.Register?)
      || (th.Stopper? && (th.stopper.StopScan? || th.stopper.StopNotify?))
    case ClientMutex(c) =>
      || (th.Pusher? && (th.pusher == Append(c) || th.pusher == Signal(c) || th.pusher == Leave(c)))
      || (AtQueue(th) && t == c)
    case BgMutex =>
      || (th.Subscriber? && th.subscriber.SetRequest?)
      || (th.Refresher? && (th.refresher.CheckRequest? || th.refresher.ParkRefresher? || th.refresher.ClearRequest?))
  }

  /** Asleep on a condition variable, not begun, or done: no step of its own. */
  predicate Idle(th: Thread) {
    th.Finished? || th == Drainer(Asleep) || th == Refresher(Waiting) || th == Refresher(NotStarted)
  }

  /** A thread can step unless the process has ended, the thread is idle, or the mutex it wants is taken. */
  predicate CanRun(s: State, t: Tid) {
    && !s.mem.ended
    && t in s.threads
    && !Idle(s.threads[t])
    && (Wants(t, s.threads[t]).Some? ==> Wants(t, s.threads[t]).value.0 !in s.locks)
  }

  predicate Enabled(s: State, a: Action) {
    && !s.mem.ended
    && match a
       case Advance(_) => true
       case Accept(t, _) => t !in s.threads && MAIN in s.threads && s.threads[MAIN] == Main(Listening)
       case Run(t, _) => CanRun(s, t)
       case WakeSpuriously(t) =>
         t in s.threads && (s.threads[t] == Drainer(Asleep) || s.threads[t] == Refresher(Waiting))
       case TimeOut => REFRESHER in s.threads && s.threads[REFRESHER] == Refresher(Waiting)
  }

  // ---- steps ---------------------------------------------------------------------------------

  datatype Wakes = NoOne | Notify(t: Tid) | Start(t: Tid)

  /** One step of a thread that needs no mutex it does not have. */
  datatype Move = Move(mem: Shared, next: Thread, gives: Option<Mutex>, wakes: Wakes)

  function Go(mem: Shared, next: Thread): Move {
    Move(mem, next, None, NoOne)
  }

  function Give(mem: Shared, m: Mutex, next: Thread): Move {
    Move(mem, next, Some(m), NoOne)
  }

  function FreshClient(): Client {
    Client(None, true, [], 0, [])
  }

  function Find(heap: map<Tid, Client>, c: Tid): Client {
    if c in heap then heap[c] else FreshClient()
  }

  function SetClient(mem: Shared, c: Tid, client: Client): Shared {
    mem.(heap := mem.heap[c := client])
  }

  function MainStep(mem: Shared, at: MainAt): Move {
    match at
    case StartRefresher => Move(mem, Main(Listening), None, Start(REFRESHER))
    case Listening => Go(mem.(running := false), Main(ListenReturned))
    case ListenReturned => Move(mem, Finished, None, Notify(REFRESHER))
  }

  /** The cooldown of POST /api/v1/refresh, which a refresh that threw does not start; the status handlers only read. */
  function HandlerStep(mem: Shared, at: HandlerAt): Move {
    match at
    case CheckCooldown =>
      if (mem.now - mem.lastManualRefresh) / MS_PER_SECOND >= REFRESH_COOLDOWN_SECONDS
      then Go(mem, Publisher(ManualRefresh(mem.now), WantProbes))
      else Give(mem, RefreshMutex, Handler(WantStatus))
    case RecordRefresh(now) =>
      Give(mem.(lastManualRefresh := now, manualRefreshes := mem.manualRefreshes + [now]),
           RefreshMutex, Handler(WantStatus))
    case RefreshFailed => Give(mem, RefreshMutex, Finished)
    case ReadStatus => Give(mem, DataMutex, Finished)
    case _ => Go(mem, Handler(at))
  }

  /** The end of the scope that held g_probeMutex. */
  function AfterPublishing(job: Job): Thread {
    match job
    case StartUp => Main(StartRefresher)
    case Background => Refresher(LoopHead)
    case ManualRefresh(at) => Handler(RecordRefresh(at))
    case NewClient => Subscriber(WantRequest)
  }

  /** The entry at `i` is replaced, and the stored status knows nothing of it. */
  function WriteProbe(mem: Shared, i: nat, e: ProbeEntry): Shared
    requires i < |mem.probes|
  {
    mem.(probes := mem.probes[i := e], unreported := mem.unreported + {i})
  }

  /** A refresh of the entry at `i` that throws: its time stays, and nobody catches outside the HTTP library. */
  function ThrowAt(mem: Shared, job: Job, i: nat, collected: ProbeCache): Shared
    requires i < |mem.probes|
  {
    WriteProbe(mem, i, Interrupted(mem.probes[i], collected)).(thrown := true, ended := !job.ManualRefresh?)
  }

  /** The entry at `i` has to be refreshed by the pass of this job. */
  predicate Wanted(mem: Shared, job: Job, started: int, i: nat)
    requires i < |mem.probes|
  {
    job.ManualRefresh? || Due(mem.probes[i], started, job == StartUp)
  }

  /** The status is stored, made from the entries as they are. */
  function StoreReport(mem: Shared, report: StatusReport, stamp: nat): Shared {
    mem.(status := Snapshot(report, Some(stamp)), reported := mem.probes, unreported := {}, thrown := false)
  }

  /** One turn of the loop of refreshAllProbes (manual) or refreshStaleProbes. */
  function CollectStep(mem: Shared, job: Job, started: int, next: nat, any: bool, env: Env): Move
    requires next < |mem.probes|
  {
    if !Wanted(mem, job, started, next) then Go(mem, Publisher(job, Collect(started, next + 1, any)))
    else if env.throws then Go(ThrowAt(mem, job, next, env.collected), Publisher(job, Threw))
    else Go(WriteProbe(mem, next, Refreshed(mem.probes[next], env.collected, started)),
            Publisher(job, Collect(started, next + 1, true)))
  }

  /** The scope of g_probeMutex: the entries are refreshed, then the report is made and stored. */
  function PublisherStep(mem: Shared, job: Job, at: PublisherAt, env: Env): Move {
    match at
    case BeginCollect =>
      Go(if job == Background then mem.(covered := mem.requests) else mem, Publisher(job, Collect(mem.now, 0, false)))
    case Collect(started, next, any) =>
      if next < |mem.probes| then CollectStep(mem, job, started, next, any, env)
      else Go(mem, Publisher(job, if job == Background && !any then Published else Summarise))
    case Summarise => Go(mem, Publisher(job, WantStore(Aggregate(mem.disks, mem.probes))))
    case Store(report) => Give(StoreReport(mem, report, env.stamp), DataMutex, Publisher(job, WantBuild))
    case Build => Give(mem, DataMutex, Publisher(job, WantPush(mem.status)))
    case Published => Give(mem, ProbeMutex, AfterPublishing(job))
    case Threw =>
      if job.ManualRefresh? then Give(mem, ProbeMutex, Handler(RefreshFailed)) else Go(mem, Publisher(job, at))
    case _ => Go(mem, Publisher(job, at))
  }

  /** The loop of pushSseEvent; `k` is its iterator. */
  function PusherStep(mem: Shared, job: Job, event: Snapshot, k: nat, at: PusherAt): Move {
    match at
    case StartPush => Go(mem.(published := mem.published + [event]), Pusher(job, event, k, Scan))
    case Scan =>
      if k >= |mem.clients| then Give(mem, SseMutex, Publisher(job, Published))
      else if !Find(mem.heap, mem.clients[k]).alive then
        Go(mem.(clients := mem.clients[..k] + mem.clients[k + 1..]), Pusher(job, event, k, Scan))
      else Go(mem, Pusher(job, event, k, WantClient(mem.clients[k])))
    case Append(c) =>
      var client := Find(mem.heap, c);
      Go(SetClient(mem, c, client.(pending := client.pending + [event])), Pusher(job, event, k, Signal(c)))
    case Signal(c) => Move(mem, Pusher(job, event, k, Leave(c)), None, Notify(c))
    case Leave(c) => Give(mem, ClientMutex(c), Pusher(job, event, k + 1, Scan))
    case WantClient(_) => Go(mem, Pusher(job, event, k, at))
  }

  /** remove_if(!alive). */
  function AliveClients(clients: seq<Tid>, heap: map<Tid, Client>): seq<Tid> {
    if clients == [] then []
    else
      var c := clients[|clients| - 1];
      AliveClients(clients[..|clients| - 1], heap) + (if Find(heap, c).alive then [c] else [])
  }

  function SubscriberStep(mem: Shared, t: Tid, at: SubscriberAt): Move {
    match at
    case Register =>
      var kept := AliveClients(mem.clients, mem.heap);
      if |kept| >= MAX_SSE_CLIENTS then Give(mem.(clients := kept), SseMutex, Finished)
      else
        var client := Find(mem.heap, t).(registeredAt := Some(|mem.published|));
        Give(SetClient(mem.(clients := kept + [t]), t, client), SseMutex, Publisher(NewClient, WantProbes))
    case SetRequest =>
      Give(mem.(refreshRequested := true, requests := mem.requests + 1), BgMutex, Subscriber(NotifyRequest))
    case NotifyRequest => Move(mem, Drainer(Connected), None, Notify(REFRESHER))
    case _ => Go(mem, Subscriber(at))
  }

  /** The content provider; `hangUp` says that the HTTP library found the connection closed. */
  function DrainerStep(mem: Shared, t: Tid, at: DrainerAt, env: Env): Move {
    var client := Find(mem.heap, t);
    match at
    case Connected => Go(mem, Drainer(if env.hangUp then HangUp else WantQueue))
    case CheckQueue => Go(mem, Drainer(if client.pending != [] || !client.alive then TestAlive else Park))
    case Park => Give(mem, ClientMutex(t), Drainer(Asleep))
    case TestAlive => if !client.alive then Give(mem, ClientMutex(t), Drainer(HangUp)) else Go(mem, Drainer(Deliver))
    case Deliver =>
      if client.cursor < |client.pending| then
        Go(SetClient(mem, t, client.(delivered := client.delivered + [client.pending[client.cursor]],
                                     cursor := client.cursor + 1)), Drainer(Deliver))
      else Give(SetClient(mem, t, client.(pending := [], cursor := 0)), ClientMutex(t), Drainer(Connected))
    case HangUp => Go(SetClient(mem, t, client.(alive := false)), Drainer(HangUpNotify))
    case HangUpNotify => Go(mem, Finished)
    case _ => Go(mem, Drainer(at))
  }

  function RefresherStep(mem: Shared, at: RefresherAt): Move {
    match at
    case LoopHead => Go(mem, if mem.running then Refresher(WantWait) else Finished)
    case CheckRequest =>
      Go(mem, Refresher(if !mem.running || mem.refreshRequested then ClearRequest else ParkRefresher))
    case ParkRefresher => Give(mem, BgMutex, Refresher(Waiting))
    case ClearRequest => Give(mem.(refreshRequested := false), BgMutex, Refresher(CheckRunning))
    case CheckRunning => Go(mem, if mem.running then Publisher(Background, WantProbes) else Finished)
    case _ => Go(mem, Refresher(at))
  }

  function StopperStep(mem: Shared, at: StopperAt): Move {
    match at
    case StopRequested => Go(mem.(running := false), Stopper(WantStop))
    case StopScan(k) =>
      if k >= |mem.clients| then Give(mem, SseMutex, Finished)
      else
        var c := mem.clients[k];
        Go(SetClient(mem, c, Find(mem.heap, c).(alive := false)), Stopper(StopNotify(k)))
    case StopNotify(k) =>
      Move(mem, Stopper(StopScan(k + 1)), None, if k < |mem.clients| then Notify(mem.clients[k]) else NoOne)
    case WantStop => Go(mem, Stopper(at))
  }

  function MoveOf(mem: Shared, t: Tid, th: Thread, env: Env): Move {
    match th
    case Main(at) => MainStep(mem, at)
    case Handler(at) => HandlerStep(mem, at)
    case Publisher(job, at) => PublisherStep(mem, job, at, env)
    case Pusher(job, event, k, at) => PusherStep(mem, job, event, k, at)
    case Subscriber(at) => SubscriberStep(mem, t, at)
    case Drainer(at) => DrainerStep(mem, t, at, env)
    case Refresher(at) => RefresherStep(mem, at)
    case Stopper(at) => StopperStep(mem, at)
    case Finished => Go(mem, th)
  }

  /** A thread that notify or thread creation reaches; anyone not waiting for it is unaffected. */
  function Nudged(th: Thread, start: bool): Thread {
    if start then (if th == Refresher(NotStarted) then Refresher(LoopHead) else th)
    else if th == Drainer(Asleep) then Drainer(Woken)
    else if th == Refresher(Waiting) then Refresher(Notified)
    else th
  }

  function Nudge(threads: map<Tid, Thread>, w: Wakes): map<Tid, Thread> {
    if w.NoOne? || w.t !in threads then threads else threads[w.t := Nudged(threads[w.t], w.Start?)]
  }

  function RunThread(s: State, t: Tid, env: Env): State
    requires CanRun(s, t)
  {
    var th := s.threads[t];
    var wanted := Wants(t, th);
    if wanted.Some? then State(s.mem, s.threads[t := wanted.value.1], s.locks[wanted.value.0 := t])
    else
      var mv := MoveOf(s.mem, t, th, env);
      State(mv.mem, Nudge(s.threads, mv.wakes)[t := mv.next],
            if mv.gives.Some? then s.locks - {mv.gives.value} else s.locks)
  }

  function FirstThread(request: Request): Thread {
    match request
    case GetStatus => Handler(WantStatus)
    case PostRefresh => Handler(WantRefresh)
    case GetEvents => Subscriber(WantRegister)
    case StopSignal => Stopper(StopRequested)
  }

  function Step(s: State, a: Action): State
    requires Enabled(s, a)
  {
    match a
    case Advance(elapsed) => s.(mem := s.mem.(now := s.mem.now + elapsed))
    case Accept(t, request) =>
      State(if request == GetEvents then SetClient(s.mem, t, FreshClient()) else s.mem,
            s.threads[t := FirstThread(request)], s.locks)
    case Run(t, env) => RunThread(s, t, env)
    case WakeSpuriously(t) => s.(threads := Nudge(s.threads, Notify(t)))
    case TimeOut => s.(threads := s.threads[REFRESHER := Refresher(TimedOut)])
  }

  // ---- runs ----------------------------------------------------------------------------------

  predicate IsRun(s: State, actions: seq<Action>)
    decreases |actions|
  {
    actions == [] || (Enabled(s, actions[0]) && IsRun(Step(s, actions[0]), actions[1..]))
  }

  function After(s: State, actions: seq<Action>): State
    requires IsRun(s, actions)
    decreases |actions|
  {
    if actions == [] then s else After(Step(s, actions[0]), actions[1..])
  }
}
