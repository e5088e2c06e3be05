/** Event streams: every live client is given exactly what was published since it registered. */
module PublicationStreams {
  import opened Wrappers
  import opened Publication
  import opened PublicationFrames
  import opened PublicationLocks

  /** What the client has been given, followed by what still waits for it. */
  function Stream(c: Client): seq<Snapshot> {
    c.delivered + (if c.cursor <= |c.pending| then c.pending[c.cursor..] else [])
  }

  /** A listed client; `lagging` says that the push in progress has not reached it. */
  predicate ListedOk(c: Client, published: seq<Snapshot>, lagging: nat) {
    && c.registeredAt.Some?
    && c.registeredAt.value + lagging <= |published|
    && c.cursor <= |c.pending|
    && Stream(c) == published[c.registeredAt.value..|published| - lagging]
  }

  /** A client that is not registered yet, or that was dropped from the list because it died. */
  predicate UnlistedOk(c: Client, published: seq<Snapshot>) {
    && c.cursor <= |c.pending|
    && match c.registeredAt
       case None => Stream(c) == []
       case Some(at) => !c.alive && at <= |published| && Stream(c) <= published[at..]
  }

  /** The number of listed clients that already have the latest published event. */
  function Reached(mem: Shared, th: Thread): nat {
    match th
    case Pusher(_, _, k, at) => if at.StartPush? then |mem.clients| else if at.Signal? || at.Leave? then k + 1 else k
    case _ => |mem.clients|
  }

  function PushCursor(s: State): nat {
    if SseMutex in s.locks && s.locks[SseMutex] in s.threads then Reached(s.mem, s.threads[s.locks[SseMutex]])
    else |s.mem.clients|
  }

  ghost predicate StreamsAt(mem: Shared, cursor: nat) {
    && |mem.clients| <= MAX_SSE_CLIENTS
    && (forall i, j | 0 <= i < j < |mem.clients| :: mem.clients[i] != mem.clients[j])
    && (forall i | 0 <= i < |mem.clients| ::
          mem.clients[i] in mem.heap && ListedOk(mem.heap[mem.clients[i]], mem.published, if i < cursor then 0 else 1))
    && (forall c | c in mem.heap && c !in mem.clients :: UnlistedOk(mem.heap[c], mem.published))
  }

  /** What a thread's program counter says about the list and its own client. */
  predicate PlaceOk(mem: Shared, t: Tid, th: Thread) {
    match th
    case Pusher(_, event, k, at) =>
      && k <= |mem.clients|
      && (at.StartPush? ==> k == 0)
      && (!at.StartPush? ==> mem.published != [] && mem.published[|mem.published| - 1] == event)
      && (!at.StartPush? && !at.Scan? ==> k < |mem.clients| && mem.clients[k] == at.client)
    case Subscriber(at) => at.WantRegister? || at.Register? ==> t in mem.heap && mem.heap[t] == FreshClient()
    case _ => true
  }

  ghost predicate StreamsOk(s: State) {
    && s.mem.heap.Keys <= s.threads.Keys
    && StreamsAt(s.mem, PushCursor(s))
    && forall t | t in s.threads :: PlaceOk(s.mem, t, s.threads[t])
  }

  // ---- the moves of the threads that touch the list, the queues or the history --------------------

  lemma {:induction false} AliveClientsKeeps(clients: seq<Tid>, heap: map<Tid, Client>)
    requires forall i, j | 0 <= i < j < |clients| :: clients[i] != clients[j]
    ensures var kept := AliveClients(clients, heap);
            && |kept| <= |clients|
            && (forall i, j | 0 <= i < j < |kept| :: kept[i] != kept[j])
            && (forall c :: c in kept <==> c in clients && Find(heap, c).alive)
  {
    if clients != [] {
      AliveClientsKeeps(clients[..|clients| - 1], heap);
      assert clients == clients[..|clients| - 1] + [clients[|clients| - 1]];
    }
  }

  lemma {:induction false} PusherKeepsStreams(mem: Shared, t: Tid, th: Thread, env: Env)
    requires th.Pusher? && Wants(t, th).None?
    requires StreamsAt(mem, Reached(mem, th)) && PlaceOk(mem, t, th)
    ensures var mv := MoveOf(mem, t, th, env); StreamsAt(mv.mem, Reached(mv.mem, mv.next))
  {
    PusherEffect(mem, t, th, env);
    if th.pusher == StartPush {
      StartPushKeepsStreams(mem, th.event);
    } else if th.pusher == Scan {
      if th.k < |mem.clients| && !Find(mem.heap, mem.clients[th.k]).alive { ScanKeepsStreams(mem, th.k); }
    } else if th.pusher.Append? {
      AppendKeepsStreams(mem, th.event, th.k);
    }
  }

  lemma {:induction false} PusherEffect(mem: Shared, t: Tid, th: Thread, env: Env)
    requires th.Pusher? && Wants(t, th).None? && PlaceOk(mem, t, th)
    ensures var mv := MoveOf(mem, t, th, env);
            match th.pusher
            case StartPush =>
              mv.mem == mem.(published := mem.published + [th.event]) && Reached(mv.mem, mv.next) == 0
            case Scan =>
              if th.k < |mem.clients| && !Find(mem.heap, mem.clients[th.k]).alive
              then mv.mem == mem.(clients := RemoveAt(mem.clients, th.k)) && Reached(mv.mem, mv.next) == th.k
              else mv.mem == mem && Reached(mem, mv.next) == Reached(mem, th)
            case Append(c) =>
              && Reached(mv.mem, mv.next) == th.k + 1
              && mv.mem == SetClient(mem, c, Find(mem.heap, c).(pending := Find(mem.heap, c).pending + [th.event]))
            case _ => mv.mem == mem && Reached(mem, mv.next) == Reached(mem, th)
  {
  }

  lemma {:induction false} PusherKeepsPlace(mem: Shared, t: Tid, job: Job, event: Snapshot, k: nat, at: PusherAt)
    requires Wants(t, Pusher(job, event, k, at)).None? && PlaceOk(mem, t, Pusher(job, event, k, at))
    ensures var mv := PusherStep(mem, job, event, k, at); PlaceOk(mv.mem, t, mv.next)
  {
  }

  lemma {:induction false} StartPushKeepsStreams(mem: Shared, event: Snapshot)
    requires StreamsAt(mem, |mem.clients|)
    ensures StreamsAt(mem.(published := mem.published + [event]), 0)
  {
    var more := mem.published + [event];
    forall c | c in mem.heap && ListedOk(mem.heap[c], mem.published, 0) ensures ListedOk(mem.heap[c], more, 1) {
      var at := mem.heap[c].registeredAt.value;
      assert more[at..|more| - 1] == mem.published[at..];
    }
    forall c | c in mem.heap && UnlistedOk(mem.heap[c], mem.published) ensures UnlistedOk(mem.heap[c], more) {
      if mem.heap[c].registeredAt.Some? {
        var at := mem.heap[c].registeredAt.value;
        assert more[at..] == mem.published[at..] + [event];
      }
    }
  }

  function RemoveAt(clients: seq<Tid>, k: nat): seq<Tid>
    requires k < |clients|
  {
    clients[..k] + clients[k + 1..]
  }

  lemma {:induction false} RemoveAtElements(clients: seq<Tid>, k: nat)
    requires k < |clients| && forall i, j | 0 <= i < j < |clients| :: clients[i] != clients[j]
    ensures forall i | 0 <= i < |clients| - 1 :: RemoveAt(clients, k)[i] == clients[if i < k then i else i + 1]
    ensures forall c :: c in RemoveAt(clients, k) <==> c in clients && c != clients[k]
  {
    forall c | c in clients && c != clients[k] ensures c in RemoveAt(clients, k) {
      var i :| 0 <= i < |clients| && clients[i] == c;
      assert c == RemoveAt(clients, k)[if i < k then i else i - 1];
    }
  }

  lemma {:induction false} ScanKeepsStreams(mem: Shared, k: nat)
    requires StreamsAt(mem, k) && k < |mem.clients| && !Find(mem.heap, mem.clients[k]).alive
    ensures StreamsAt(mem.(clients := RemoveAt(mem.clients, k)), k)
  {
    RemoveAtElements(mem.clients, k);
    DroppedIsUnlisted(mem, k);
  }

  lemma {:induction false} DroppedIsUnlisted(mem: Shared, k: nat)
    requires StreamsAt(mem, k) && k < |mem.clients| && !Find(mem.heap, mem.clients[k]).alive
    ensures UnlistedOk(mem.heap[mem.clients[k]], mem.published)
  {
    assert ListedOk(mem.heap[mem.clients[k]], mem.published, 1);
    var at := mem.heap[mem.clients[k]].registeredAt.value;
    assert mem.published[at..|mem.published| - 1] <= mem.published[at..];
  }

  lemma {:induction false} AppendKeepsStreams(mem: Shared, event: Snapshot, k: nat)
    requires StreamsAt(mem, k) && k < |mem.clients|
    requires mem.published != [] && mem.published[|mem.published| - 1] == event
    ensures var client := Find(mem.heap, mem.clients[k]);
            StreamsAt(SetClient(mem, mem.clients[k], client.(pending := client.pending + [event])), k + 1)
  {
    var client := mem.heap[mem.clients[k]];
    assert ListedOk(client, mem.published, 1);
    GivenIsListed(client, mem.published, event);
    CaughtUp(mem, k, client.(pending := client.pending + [event]));
  }

  lemma {:induction false} CaughtUp(mem: Shared, k: nat, client: Client)
    requires StreamsAt(mem, k) && k < |mem.clients| && ListedOk(client, mem.published, 0)
    ensures StreamsAt(SetClient(mem, mem.clients[k], client), k + 1)
  {
  }

  /** A client that lags by one event is up to date once it has that event. */
  lemma {:induction false} GivenIsListed(client: Client, published: seq<Snapshot>, event: Snapshot)
    requires ListedOk(client, published, 1) && published[|published| - 1] == event
    ensures ListedOk(client.(pending := client.pending + [event]), published, 0)
  {
    var at, n := client.registeredAt.value, |published|;
    assert (client.pending + [event])[client.cursor..] == client.pending[client.cursor..] + [event];
    assert published[at..n] == published[at..n - 1] + [event];
  }

  lemma {:induction false} PruneKeepsStreams(mem: Shared)
    requires StreamsAt(mem, |mem.clients|)
    ensures var kept := AliveClients(mem.clients, mem.heap); StreamsAt(mem.(clients := kept), |kept|)
  {
    AliveClientsKeeps(mem.clients, mem.heap);
    var kept := AliveClients(mem.clients, mem.heap);
    forall c | c in mem.clients ensures c in mem.heap && ListedOk(mem.heap[c], mem.published, 0) {
      var i :| 0 <= i < |mem.clients| && mem.clients[i] == c;
    }
    forall i | 0 <= i < |kept| ensures kept[i] in mem.heap && ListedOk(mem.heap[kept[i]], mem.published, 0) {
      assert kept[i] in kept;
    }
    forall c | c in mem.heap && c !in kept ensures UnlistedOk(mem.heap[c], mem.published) {
      assert c in mem.clients ==> !mem.heap[c].alive && ListedOk(mem.heap[c], mem.published, 0);
    }
  }

  lemma {:induction false} AddKeepsStreams(mem: Shared, t: Tid)
    requires StreamsAt(mem, |mem.clients|) && |mem.clients| < MAX_SSE_CLIENTS
    requires t in mem.heap && mem.heap[t] == FreshClient()
    ensures var client := FreshClient().(registeredAt := Some(|mem.published|));
            var added := SetClient(mem.(clients := mem.clients + [t]), t, client);
            StreamsAt(added, |added.clients|)
  {
    assert forall i | 0 <= i < |mem.clients| :: mem.clients[i] != t;
    assert ListedOk(FreshClient().(registeredAt := Some(|mem.published|)), mem.published, 0);
  }

  lemma {:induction false} RegisterKeepsStreams(mem: Shared, t: Tid)
    requires StreamsAt(mem, |mem.clients|) && t in mem.heap && mem.heap[t] == FreshClient()
    ensures var mv := SubscriberStep(mem, t, Register); StreamsAt(mv.mem, |mv.mem.clients|)
  {
    PruneKeepsStreams(mem);
    var kept := AliveClients(mem.clients, mem.heap);
    if |kept| < MAX_SSE_CLIENTS {
      AddKeepsStreams(mem.(clients := kept), t);
    }
  }

  /** A client may be replaced by one with the same stream, dead if the old one was. */
  lemma {:induction false} SetKeepsStreams(mem: Shared, c: Tid, client: Client, cursor: nat)
    requires StreamsAt(mem, cursor) && c in mem.heap
    requires client.registeredAt == mem.heap[c].registeredAt && (client.alive ==> mem.heap[c].alive)
    requires client.cursor <= |client.pending| && Stream(client) == Stream(mem.heap[c])
    ensures StreamsAt(SetClient(mem, c, client), cursor)
  {
  }

  lemma {:induction false} CursorInQueue(mem: Shared, c: Tid, cursor: nat)
    requires StreamsAt(mem, cursor) && c in mem.heap
    ensures mem.heap[c].cursor <= |mem.heap[c].pending|
  {
    if c in mem.clients {
      var i :| 0 <= i < |mem.clients| && mem.clients[i] == c;
    }
  }

  /** Killing a client changes no stream. */
  lemma {:induction false} KillKeepsStreams(mem: Shared, c: Tid, cursor: nat)
    requires StreamsAt(mem, cursor) && c in mem.heap
    ensures StreamsAt(SetClient(mem, c, mem.heap[c].(alive := false)), cursor)
  {
    CursorInQueue(mem, c, cursor);
    SetKeepsStreams(mem, c, mem.heap[c].(alive := false), cursor);
  }

  /** Delivering moves events from the queue to the sink and changes no stream. */
  lemma {:induction false} DeliverKeepsStreams(mem: Shared, t: Tid, env: Env, cursor: nat)
    requires StreamsAt(mem, cursor) && t in mem.heap
    ensures StreamsAt(DrainerStep(mem, t, Deliver, env).mem, cursor)
  {
    CursorInQueue(mem, t, cursor);
    DeliveryKeepsStream(mem.heap[t]);
    DeliverMove(mem, t, env);
    SetKeepsStreams(mem, t, Delivered(mem.heap[t]), cursor);
  }

  lemma {:induction false} DeliverMove(mem: Shared, t: Tid, env: Env)
    requires t in mem.heap
    ensures DrainerStep(mem, t, Deliver, env).mem == SetClient(mem, t, Delivered(mem.heap[t]))
  {
  }

  /** One event goes from the queue to the sink; a drained queue is cleared. */
  function Delivered(client: Client): Client {
    if client.cursor < |client.pending|
    then client.(delivered := client.delivered + [client.pending[client.cursor]], cursor := client.cursor + 1)
    else client.(pending := [], cursor := 0)
  }

  lemma {:induction false} DeliveryKeepsStream(client: Client)
    requires client.cursor <= |client.pending|
    ensures Stream(Delivered(client)) == Stream(client)
  {
    if client.cursor < |client.pending| {
      assert client.pending[client.cursor..] == [client.pending[client.cursor]] + client.pending[client.cursor + 1..];
    }
  }

  /** A thread that holds sseMutex moves the push cursor with it. */
  lemma {:induction false} HolderKeepsStreams(mem: Shared, t: Tid, th: Thread, env: Env)
    requires Holds(t, th, SseMutex) && Wants(t, th).None?
    requires StreamsAt(mem, Reached(mem, th)) && PlaceOk(mem, t, th)
    ensures var mv := MoveOf(mem, t, th, env);
            StreamsAt(mv.mem, Reached(mv.mem, mv.next)) && PlaceOk(mv.mem, t, mv.next)
  {
    match th
    case Pusher(job, event, k, at) =>
      PusherKeepsStreams(mem, t, th, env);
      PusherKeepsPlace(mem, t, job, event, k, at);
    case Subscriber(_) => RegisterKeepsStreams(mem, t);
    case Stopper(at) => StopperKeepsStreams(mem, at);
  }

  lemma {:induction false} StopperKeepsStreams(mem: Shared, at: StopperAt)
    requires StreamsAt(mem, |mem.clients|) && (at.StopScan? || at.StopNotify?)
    ensures var mv := StopperStep(mem, at);
            StreamsAt(mv.mem, |mv.mem.clients|) && (mv.next.Stopper? || mv.next.Finished?)
  {
    if at.StopScan? && at.k < |mem.clients| {
      KillKeepsStreams(mem, mem.clients[at.k], |mem.clients|);
    }
  }

  /** Any other thread leaves the list and the history alone. */
  lemma {:induction false} OthersKeepList(mem: Shared, t: Tid, th: Thread, env: Env)
    requires !Holds(t, th, SseMutex) && Wants(t, th).None? && !Idle(th)
    ensures var mv := MoveOf(mem, t, th, env);
            && mv.mem.clients == mem.clients && mv.mem.published == mem.published
            && (th != Drainer(HangUp) && th != Drainer(Deliver) ==> mv.mem.heap == mem.heap)
  {
    match th
    case Main(at) => MainFrame(mem, at);
    case Handler(at) => HandlerFrame(mem, at);
    case Publisher(job, at) => PublisherFrame(mem, job, at, env);
    case Subscriber(at) => SubscriberFrame(mem, t, at);
    case Drainer(at) => DrainerFrame(mem, t, at, env);
    case Refresher(at) => RefresherFrame(mem, at);
    case Stopper(at) => StopperFrame(mem, at);
    case Finished =>
  }

  /** A thread gets to push, or to register, only by taking sseMutex. */
  lemma {:induction false} OthersStayOutside(mem: Shared, t: Tid, th: Thread, env: Env)
    requires !Holds(t, th, SseMutex) && Wants(t, th).None? && !Idle(th)
    ensures var mv := MoveOf(mem, t, th, env);
            && !mv.next.Pusher?
            && (mv.next.Subscriber? ==> !mv.next.subscriber.WantRegister? && !mv.next.subscriber.Register?)
  {
  }

  lemma {:induction false} OthersKeepStreams(mem: Shared, t: Tid, th: Thread, env: Env, cursor: nat)
    requires !Holds(t, th, SseMutex) && Wants(t, th).None? && !Idle(th)
    requires StreamsAt(mem, cursor) && RoleFits(t, RoleOf(th), mem.heap)
    ensures StreamsAt(MoveOf(mem, t, th, env).mem, cursor)
  {
    if th == Drainer(HangUp) {
      KillKeepsStreams(mem, t, cursor);
    } else if th == Drainer(Deliver) {
      DeliverKeepsStreams(mem, t, env, cursor);
    } else {
      OthersKeepList(mem, t, th, env);
    }
  }

  // ---- steps and runs -----------------------------------------------------------------------------

  lemma {:induction false} StreamsKept(s: State, a: Action)
    requires RolesOk(s) && LocksOk(s) && StreamsOk(s) && Enabled(s, a)
    ensures StreamsOk(Step(s, a))
  {
    match a
    case Run(t, env) => RunKeepsStreams(s, t, env);
    case Accept(t, request) => AcceptKeepsStreams(s, t, request);
    case WakeSpuriously(t) => WakeKeepsStreams(s, t);
    case TimeOut => TimeOutKeepsStreams(s);
    case Advance(elapsed) => AdvanceKeepsStreams(s, elapsed);
  }

  lemma {:induction false} RunKeepsStreams(s: State, t: Tid, env: Env)
    requires RolesOk(s) && LocksOk(s) && StreamsOk(s) && CanRun(s, t)
    ensures StreamsOk(RunThread(s, t, env))
  {
    if Wants(t, s.threads[t]).Some? {
      AcquireKeepsStreams(s, t, env);
    } else {
      MoveKeepsStreams(s, t, env);
    }
  }

  lemma {:induction false} WakeKeepsStreams(s: State, t: Tid)
    requires LocksOk(s) && StreamsOk(s) && Enabled(s, WakeSpuriously(t))
    ensures StreamsOk(Step(s, WakeSpuriously(t)))
  {
  }

  lemma {:induction false} TimeOutKeepsStreams(s: State)
    requires LocksOk(s) && StreamsOk(s) && Enabled(s, TimeOut)
    ensures StreamsOk(Step(s, TimeOut))
  {
  }

  lemma {:induction false} AdvanceKeepsStreams(s: State, elapsed: nat)
    requires StreamsOk(s) && Enabled(s, Advance(elapsed))
    ensures StreamsOk(Step(s, Advance(elapsed)))
  {
    var mem' := s.mem.(now := s.mem.now + elapsed);
    forall t | t in s.threads ensures PlaceOk(mem', t, s.threads[t]) {
      assert PlaceOk(s.mem, t, s.threads[t]);
    }
  }

  lemma {:induction false} AcceptKeepsStreams(s: State, t: Tid, request: Request)
    requires LocksOk(s) && StreamsOk(s) && Enabled(s, Accept(t, request))
    ensures StreamsOk(Step(s, Accept(t, request)))
  {
    var s' := Step(s, Accept(t, request));
    assert t !in s.mem.heap;
    if request == GetEvents {
      NewClientKeepsStreams(s.mem, t, PushCursor(s));
    }
    AcceptKeepsCursor(s, t, request);
    forall u | u in s'.threads ensures PlaceOk(s'.mem, u, s'.threads[u]) {
      assert u != t ==> PlaceOk(s.mem, u, s.threads[u]);
    }
  }

  lemma {:induction false} AcceptKeepsCursor(s: State, t: Tid, request: Request)
    requires LocksOk(s) && Enabled(s, Accept(t, request))
    ensures PushCursor(Step(s, Accept(t, request))) == PushCursor(s)
  {
    if SseMutex in s.locks {
      assert s.locks[SseMutex] in s.threads;
    }
  }

  lemma {:induction false} NewClientKeepsStreams(mem: Shared, t: Tid, cursor: nat)
    requires StreamsAt(mem, cursor) && t !in mem.heap
    ensures StreamsAt(SetClient(mem, t, FreshClient()), cursor)
  {
    assert forall i | 0 <= i < |mem.clients| :: mem.clients[i] != t;
  }

  lemma {:induction false} AcquireKeepsStreams(s: State, t: Tid, env: Env)
    requires LocksOk(s) && StreamsOk(s) && CanRun(s, t) && Wants(t, s.threads[t]).Some?
    ensures StreamsOk(RunThread(s, t, env))
  {
    var s' := RunThread(s, t, env);
    assert PlaceOk(s.mem, t, s.threads[t]);
    AcquireKeepsGuards(t, s.threads[t], SseMutex);
    assert PushCursor(s') == PushCursor(s);
  }

  /** The other threads stay where they may be. */
  lemma {:induction false} OthersStayPlaced(s: State, t: Tid, env: Env, u: Tid)
    requires LocksOk(s) && StreamsOk(s) && CanRun(s, t) && Wants(t, s.threads[t]).None?
    requires u in s.threads && u != t
    ensures PlaceOk(MoveOf(s.mem, t, s.threads[t], env).mem, u, s.threads[u])
  {
    var th, other := s.threads[t], s.threads[u];
    assert PlaceOk(s.mem, t, th) && PlaceOk(s.mem, u, other);
    if other.Pusher? {
      assert Holds(u, other, SseMutex) && !Holds(t, th, SseMutex);
      OthersKeepList(s.mem, t, th, env);
    } else if other.Subscriber? {
      if other.subscriber.WantRegister? || other.subscriber.Register? {
        MoveTouches(s.mem, t, th, env);
      }
    }
  }

  lemma {:induction false} MoveKeepsStreams(s: State, t: Tid, env: Env)
    requires RolesOk(s) && LocksOk(s) && StreamsOk(s) && CanRun(s, t) && Wants(t, s.threads[t]).None?
    ensures StreamsOk(RunThread(s, t, env))
  {
    MoveKeepsStreamsAt(s, t, env);
    MoveKeepsKeys(s, t, env);
    MoveKeepsPlaces(s, t, env);
  }

  lemma {:induction false} MoveKeepsKeys(s: State, t: Tid, env: Env)
    requires StreamsOk(s) && CanRun(s, t) && Wants(t, s.threads[t]).None?
    ensures RunThread(s, t, env).mem.heap.Keys <= RunThread(s, t, env).threads.Keys
  {
    assert PlaceOk(s.mem, t, s.threads[t]);
    MoveTouches(s.mem, t, s.threads[t], env);
  }

  lemma {:induction false} MoveKeepsPlaces(s: State, t: Tid, env: Env)
    requires RolesOk(s) && LocksOk(s) && StreamsOk(s) && CanRun(s, t) && Wants(t, s.threads[t]).None?
    ensures forall u | u in RunThread(s, t, env).threads ::
              PlaceOk(RunThread(s, t, env).mem, u, RunThread(s, t, env).threads[u])
  {
    var mv := MoveOf(s.mem, t, s.threads[t], env);
    MoveKeepsStreamsAt(s, t, env);
    forall u | u in s.threads && u != t ensures PlaceOk(mv.mem, u, Nudge(s.threads, mv.wakes)[u]) {
      OthersStayPlaced(s, t, env, u);
    }
  }

  lemma {:induction false} MoveKeepsStreamsAt(s: State, t: Tid, env: Env)
    requires RolesOk(s) && LocksOk(s) && StreamsOk(s) && CanRun(s, t) && Wants(t, s.threads[t]).None?
    ensures var s' := RunThread(s, t, env);
            StreamsAt(s'.mem, PushCursor(s')) && PlaceOk(s'.mem, t, s'.threads[t])
  {
    var th := s.threads[t];
    MoveKeepsGuards(s.mem, t, th, env, SseMutex);
    assert PlaceOk(s.mem, t, th) && RoleFits(t, RoleOf(th), s.mem.heap);
    if Holds(t, th, SseMutex) {
      HolderKeepsStreams(s.mem, t, th, env);
    } else {
      OthersKeepStreams(s.mem, t, th, env, PushCursor(s));
      OthersStayOutside(s.mem, t, th, env);
      CursorUnmoved(s, t, env);
    }
  }

  /** The push cursor belongs to the owner of sseMutex. */
  lemma {:induction false} CursorUnmoved(s: State, t: Tid, env: Env)
    requires LocksOk(s) && CanRun(s, t) && Wants(t, s.threads[t]).None? && !Holds(t, s.threads[t], SseMutex)
    ensures PushCursor(RunThread(s, t, env)) == PushCursor(s)
  {
    MoveKeepsGuards(s.mem, t, s.threads[t], env, SseMutex);
    OthersKeepList(s.mem, t, s.threads[t], env);
    OthersStayOutside(s.mem, t, s.threads[t], env);
  }
}
