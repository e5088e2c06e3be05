/** What each kind of thread leaves alone when it moves. */
module PublicationFrames {
  import opened Aggregation
  import opened Publication

  /** The list of clients, their queues and the history of events. */
  predicate SameStreams(mem: Shared, mem': Shared) {
    mem'.clients == mem.clients && mem'.heap == mem.heap && mem'.published == mem.published
  }

  /** The probe caches, and what is known of the status made from them. */
  predicate SameCaches(mem: Shared, mem': Shared) {
    && mem'.disks == mem.disks && mem'.probes == mem.probes && mem'.status == mem.status
    && mem'.reported == mem.reported && mem'.unreported == mem.unreported && mem'.thrown == mem.thrown
    && mem'.ended == mem.ended
  }

  /** The requests for background passes. */
  predicate SameRequests(mem: Shared, mem': Shared) {
    && mem'.running == mem.running && mem'.refreshRequested == mem.refreshRequested
    && mem'.requests == mem.requests && mem'.covered == mem.covered
  }

  /** The clock and the cooldown of manual refreshes. */
  predicate SameCooldown(mem: Shared, mem': Shared) {
    && mem'.now == mem.now && mem'.lastManualRefresh == mem.lastManualRefresh
    && mem'.manualRefreshes == mem.manualRefreshes
  }

  lemma {:induction false} MainFrame(mem: Shared, at: MainAt)
    ensures var mem' := MainStep(mem, at).mem;
            && SameStreams(mem, mem') && SameCaches(mem, mem') && SameCooldown(mem, mem')
            && mem' == mem.(running := mem'.running) && (mem'.running ==> mem.running)
  {
  }

  lemma {:induction false} HandlerFrame(mem: Shared, at: HandlerAt)
    ensures var mem' := HandlerStep(mem, at).mem;
            && SameStreams(mem, mem') && SameCaches(mem, mem') && SameRequests(mem, mem') && mem'.now == mem.now
            && (!at.RecordRefresh? ==> mem' == mem)
  {
  }

  lemma {:induction false} WriteFrame(mem: Shared, i: nat, e: ProbeEntry)
    requires i < |mem.probes|
    ensures var mem' := WriteProbe(mem, i, e);
            && SameStreams(mem, mem') && SameCooldown(mem, mem') && SameRequests(mem, mem')
            && |mem'.probes| == |mem.probes|
  {
  }

  lemma {:induction false} CollectFrame(mem: Shared, job: Job, started: int, next: nat, any: bool, env: Env)
    requires next < |mem.probes|
    ensures var mem' := CollectStep(mem, job, started, next, any, env).mem;
            && SameStreams(mem, mem') && SameCooldown(mem, mem') && SameRequests(mem, mem')
            && |mem'.probes| == |mem.probes|
  {
    if Wanted(mem, job, started, next) {
      WriteFrame(mem, next, if env.throws then Interrupted(mem.probes[next], env.collected)
                            else Refreshed(mem.probes[next], env.collected, started));
    }
  }

  lemma {:induction false} PublisherFrame(mem: Shared, job: Job, at: PublisherAt, env: Env)
    ensures var mem' := PublisherStep(mem, job, at, env).mem;
            && SameStreams(mem, mem') && SameCooldown(mem, mem')
            && SameRequests(mem, mem'.(covered := mem.covered)) && |mem'.probes| == |mem.probes|
            && mem'.covered == (if at.BeginCollect? && job == Background then mem.requests else mem.covered)
  {
    if at.Collect? && at.next < |mem.probes| {
      CollectFrame(mem, job, at.started, at.next, at.any, env);
    }
  }

  lemma {:induction false} PusherFrame(mem: Shared, job: Job, event: Snapshot, k: nat, at: PusherAt)
    ensures var mem' := PusherStep(mem, job, event, k, at).mem;
            SameCaches(mem, mem') && SameRequests(mem, mem') && SameCooldown(mem, mem')
  {
    PusherWrites(mem, job, event, k, at);
  }

  /** A pusher writes the list, the queues and the history. */
  lemma {:induction false} PusherWrites(mem: Shared, job: Job, event: Snapshot, k: nat, at: PusherAt)
    ensures var mem' := PusherStep(mem, job, event, k, at).mem;
            mem' == mem.(clients := mem'.clients, heap := mem'.heap, published := mem'.published)
  {
  }

  lemma {:induction false} SubscriberFrame(mem: Shared, t: Tid, at: SubscriberAt)
    ensures var mem' := SubscriberStep(mem, t, at).mem;
            && (at.Register? ==> mem' == mem.(clients := mem'.clients, heap := mem'.heap))
            && (at.SetRequest? ==> mem' == mem.(refreshRequested := true, requests := mem.requests + 1))
            && (!at.Register? && !at.SetRequest? ==> mem' == mem)
  {
  }

  lemma {:induction false} DrainerFrame(mem: Shared, t: Tid, at: DrainerAt, env: Env)
    ensures var mem' := DrainerStep(mem, t, at, env).mem;
            && mem' == mem.(heap := mem'.heap)
            && (!at.Deliver? && !at.HangUp? ==> mem' == mem)
  {
  }

  lemma {:induction false} RefresherFrame(mem: Shared, at: RefresherAt)
    ensures var mem' := RefresherStep(mem, at).mem;
            && mem' == mem.(refreshRequested := mem'.refreshRequested)
            && (mem'.refreshRequested ==> mem.refreshRequested)
  {
  }

  lemma {:induction false} StopperFrame(mem: Shared, at: StopperAt)
    ensures var mem' := StopperStep(mem, at).mem;
            && mem' == mem.(running := mem'.running, heap := mem'.heap) && (mem'.running ==> mem.running)
            && (at.StopRequested? ==> mem'.heap == mem.heap)
  {
  }

  // ---- clients --------------------------------------------------------------------------------

  /** The one client a move may change. */
  function Touched(mem: Shared, t: Tid, th: Thread): Tid {
    match th
    case Pusher(_, _, _, Append(c)) => c
    case Stopper(StopScan(k)) => if k < |mem.clients| then mem.clients[k] else t
    case _ => t
  }

  /** No client is forgotten, and none but `c` changes. */
  predicate OnlyTouches(mem: Shared, mem': Shared, c: Tid) {
    && mem.heap.Keys <= mem'.heap.Keys <= mem.heap.Keys + {c}
    && (forall u | u in mem.heap && u != c :: mem'.heap[u] == mem.heap[u])
  }

  lemma {:induction false} PusherTouches(mem: Shared, t: Tid, job: Job, event: Snapshot, k: nat, at: PusherAt)
    ensures OnlyTouches(mem, PusherStep(mem, job, event, k, at).mem, Touched(mem, t, Pusher(job, event, k, at)))
  {
  }

  lemma {:induction false} SubscriberTouches(mem: Shared, t: Tid, at: SubscriberAt)
    ensures OnlyTouches(mem, SubscriberStep(mem, t, at).mem, t)
  {
  }

  lemma {:induction false} DrainerTouches(mem: Shared, t: Tid, at: DrainerAt, env: Env)
    ensures OnlyTouches(mem, DrainerStep(mem, t, at, env).mem, t)
  {
  }

  lemma {:induction false} StopperTouches(mem: Shared, t: Tid, at: StopperAt)
    ensures OnlyTouches(mem, StopperStep(mem, at).mem, Touched(mem, t, Stopper(at)))
  {
  }

  lemma {:induction false} MoveTouches(mem: Shared, t: Tid, th: Thread, env: Env)
    ensures OnlyTouches(mem, MoveOf(mem, t, th, env).mem, Touched(mem, t, th))
  {
    match th
    case Main(at) => MainFrame(mem, at);
    case Handler(at) => HandlerFrame(mem, at);
    case Publisher(job, at) => PublisherFrame(mem, job, at, env);
    case Pusher(job, event, k, at) => PusherTouches(mem, t, job, event, k, at);
    case Subscriber(at) => SubscriberTouches(mem, t, at);
    case Drainer(at) => DrainerTouches(mem, t, at, env);
    case Refresher(at) => RefresherFrame(mem, at);
    case Stopper(at) => StopperTouches(mem, t, at);
    case Finished =>
  }
}
