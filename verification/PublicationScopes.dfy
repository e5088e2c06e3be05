/**
 Whoever holds a mutex gives it back after a bounded number of its own steps, so a pending request can get its pass.
 */
module PublicationScopes {
  import opened Publication
  import opened PublicationFrames
  import opened PublicationLocks
  import opened PublicationStreams
  import opened PublicationStatus
  import opened PublicationTheorems

  // ---- owners -------------------------------------------------------------------------------------

  /** The thread holds some mutex. */
  predicate HoldsAny(t: Tid, th: Thread) {
    || Holds(t, th, RefreshMutex) || InProbeScope(th) || Holds(t, th, DataMutex) || Holds(t, th, SseMutex)
    || AtQueue(th) || Holds(t, th, BgMutex)
  }

  lemma {:induction false} HoldsAnyExactly(t: Tid, th: Thread)
    ensures HoldsAny(t, th) <==> exists m :: Holds(t, th, m)
  {
    if m :| Holds(t, th, m) {
      assert HoldsAny(t, th);
    }
    if AtQueue(th) {
      assert Holds(t, th, ClientMutex(t));
    }
    if InProbeScope(th) {
      assert Holds(t, th, ProbeMutex);
    }
  }

  /** The threads that hold a mutex. */
  function Owners(s: State): set<Tid> {
    s.locks.Values
  }

  lemma {:induction false} OwnersHold(s: State, t: Tid)
    requires LocksOk(s)
    ensures t in Owners(s) <==> t in s.threads && HoldsAny(t, s.threads[t])
  {
    if t in Owners(s) {
      var m :| m in s.locks && s.locks[m] == t;
      assert Holds(t, s.threads[t], m);
      HoldsAnyExactly(t, s.threads[t]);
    }
    if t in s.threads && HoldsAny(t, s.threads[t]) {
      HoldsAnyExactly(t, s.threads[t]);
      var m :| Holds(t, s.threads[t], m);
      assert s.locks[m] == t;
    }
  }

  // ---- how long a scope can last ------------------------------------------------------------------

  function Slack(n: nat, k: nat): nat {
    if k < n then n - k else 0
  }

  const PUSH_STEPS := 5 * MAX_SSE_CLIENTS

  /** A bound on the steps a thread takes until it holds no mutex, if it holds one now. */
  function ScopeSteps(mem: Shared, t: Tid, th: Thread): nat {
    match th
    case Handler(at) => if at.CheckCooldown? then 19 + PUSH_STEPS + |mem.probes| else 1
    case Publisher(_, at) =>
      if at.WantProbes? then 18 + PUSH_STEPS + |mem.probes|
      else if at.BeginCollect? then 17 + PUSH_STEPS + |mem.probes|
      else if at.Threw? then 2
      else StepsToPass(mem, th)
    case Pusher(_, _, _, _) => StepsToPass(mem, th)
    case Drainer(at) =>
      var client := Find(mem.heap, t);
      var left := Slack(|client.pending|, client.cursor);
      if at.CheckQueue? then 3 + left else if at.TestAlive? then 2 + left else 1 + left
    case Refresher(at) => if at.CheckRequest? then 2 else 1
    case Stopper(at) =>
      if at.StopScan? then 1 + 2 * Slack(|mem.clients|, at.k)
      else if at.StopNotify? then 2 + 2 * Slack(|mem.clients|, at.k + 1)
      else 1
    case _ => 1
  }

  lemma {:induction false} ScopeStepsPositive(mem: Shared, t: Tid, th: Thread)
    ensures HoldsAny(t, th) ==> ScopeSteps(mem, t, th) > 0
  {
  }

  /** A step leads out of the scope, or nearer to its end. */
  predicate Shrinks(mem: Shared, t: Tid, th: Thread, mem': Shared, next: Thread) {
    HoldsAny(t, next) ==> ScopeSteps(mem', t, next) < ScopeSteps(mem, t, th)
  }

  lemma {:induction false} PublisherShrinks(mem: Shared, t: Tid, job: Job, at: PublisherAt, env: Env)
    requires Wants(t, Publisher(job, at)).None? && (at.Threw? ==> job.ManualRefresh?)
    ensures var mv := PublisherStep(mem, job, at, env); Shrinks(mem, t, Publisher(job, at), mv.mem, mv.next)
  {
    PublisherFrame(mem, job, at, env);
  }

  lemma {:induction false} PusherShrinks(mem: Shared, t: Tid, job: Job, event: Snapshot, k: nat, at: PusherAt)
    requires Wants(t, Pusher(job, event, k, at)).None? && PlaceOk(mem, t, Pusher(job, event, k, at))
    ensures var mv := PusherStep(mem, job, event, k, at); Shrinks(mem, t, Pusher(job, event, k, at), mv.mem, mv.next)
  {
  }

  lemma {:induction false} DrainerShrinks(mem: Shared, t: Tid, at: DrainerAt, env: Env)
    requires AtQueue(Drainer(at))
    ensures var mv := DrainerStep(mem, t, at, env); Shrinks(mem, t, Drainer(at), mv.mem, mv.next)
  {
  }

  lemma {:induction false} StopperShrinks(mem: Shared, t: Tid, at: StopperAt)
    requires at.StopScan? || at.StopNotify?
    ensures var mv := StopperStep(mem, at); Shrinks(mem, t, Stopper(at), mv.mem, mv.next)
  {
    StopperFrame(mem, at);
  }

  lemma {:induction false} OthersShrink(mem: Shared, t: Tid, th: Thread, env: Env)
    requires HoldsAny(t, th) && Wants(t, th).None? && (th.Handler? || th.Subscriber? || th.Refresher?)
    ensures var mv := MoveOf(mem, t, th, env); Shrinks(mem, t, th, mv.mem, mv.next)
  {
  }

  lemma {:induction false} MoveShrinks(mem: Shared, t: Tid, th: Thread, env: Env)
    requires HoldsAny(t, th) && Wants(t, th).None? && PlaceOk(mem, t, th) && ScopeOk(mem, th) && !mem.ended
    ensures var mv := MoveOf(mem, t, th, env); Shrinks(mem, t, th, mv.mem, mv.next)
  {
    match th
    case Publisher(job, at) => PublisherShrinks(mem, t, job, at, env);
    case Pusher(job, event, k, at) => PusherShrinks(mem, t, job, event, k, at);
    case Drainer(at) => DrainerShrinks(mem, t, at, env);
    case Stopper(at) => StopperShrinks(mem, t, at);
    case _ => OthersShrink(mem, t, th, env);
  }

  lemma {:induction false} AcquireShrinks(mem: Shared, t: Tid, th: Thread)
    requires HoldsAny(t, th) && Wants(t, th).Some? && |mem.clients| <= MAX_SSE_CLIENTS
    ensures Shrinks(mem, t, th, mem, Wants(t, th).value.1)
  {
  }

  // ---- nobody else prolongs a scope ---------------------------------------------------------------

  predicate SameQueue(mem: Shared, mem': Shared, c: Tid) {
    && Find(mem'.heap, c).pending == Find(mem.heap, c).pending
    && Find(mem'.heap, c).cursor == Find(mem.heap, c).cursor
  }

  lemma {:induction false} StopperKeepsQueue(mem: Shared, at: StopperAt, c: Tid)
    ensures SameQueue(mem, StopperStep(mem, at).mem, c)
  {
  }

  lemma {:induction false} OthersKeepQueue(mem: Shared, t: Tid, th: Thread, env: Env, c: Tid)
    requires t != c && !Holds(t, th, ClientMutex(c))
    ensures SameQueue(mem, MoveOf(mem, t, th, env).mem, c)
  {
    if c != Touched(mem, t, th) {
      MoveTouches(mem, t, th, env);
    } else {
      StopperKeepsQueue(mem, th.stopper, c);
    }
  }

  /** What a scope's length rests on. */
  lemma {:induction false} SameScope(mem: Shared, mem': Shared, t: Tid, th: Thread)
    requires |mem'.probes| == |mem.probes|
    requires th.Pusher? || th.Stopper? ==> mem'.clients == mem.clients
    requires th.Drainer? ==> SameQueue(mem, mem', t)
    ensures ScopeSteps(mem', t, th) == ScopeSteps(mem, t, th)
  {
  }

  lemma {:induction false} MoveKeepsScopeSteps(s: State, u: Tid, env: Env, t: Tid)
    requires LocksOk(s) && CanRun(s, u) && Wants(u, s.threads[u]).None?
    requires t in s.threads && t != u && HoldsAny(t, s.threads[t])
    ensures ScopeSteps(MoveOf(s.mem, u, s.threads[u], env).mem, t, s.threads[t]) == ScopeSteps(s.mem, t, s.threads[t])
  {
    var th, other := s.threads[t], s.threads[u];
    var mem' := MoveOf(s.mem, u, other, env).mem;
    MoveKeepsProbeCount(s.mem, u, other, env);
    if th.Drainer? {
      assert Holds(t, th, ClientMutex(t));
      if Holds(u, other, ClientMutex(t)) { OneHolder(s, t, u, ClientMutex(t)); }
      OthersKeepQueue(s.mem, u, other, env, t);
    }
    if th.Pusher? || th.Stopper? {
      assert Holds(t, th, SseMutex);
      if Holds(u, other, SseMutex) { OneHolder(s, t, u, SseMutex); }
      OthersKeepList(s.mem, u, other, env);
    }
    SameScope(s.mem, mem', t, th);
  }

  lemma {:induction false} HolderNotNudged(t: Tid, th: Thread, start: bool)
    requires HoldsAny(t, th)
    ensures Nudged(th, start) == th && !Idle(th)
  {
  }

  /** A step of someone else neither moves an owner of a mutex nor prolongs its scope. */
  lemma {:induction false} OthersKeepScopeSteps(s: State, a: Action, t: Tid)
    requires LocksOk(s) && StreamsOk(s) && Enabled(s, a) && t in s.threads && HoldsAny(t, s.threads[t])
    requires a.Run? ==> a.t != t
    ensures t in Step(s, a).threads && Step(s, a).threads[t] == s.threads[t]
    ensures ScopeSteps(Step(s, a).mem, t, s.threads[t]) == ScopeSteps(s.mem, t, s.threads[t])
  {
    HolderNotNudged(t, s.threads[t], true);
    HolderNotNudged(t, s.threads[t], false);
    if a.Run? && Wants(a.t, s.threads[a.t]).None? {
      MoveKeepsScopeSteps(s, a.t, a.env, t);
    } else {
      if a.Accept? {
        assert a.t !in s.mem.heap;
      }
      SameScope(s.mem, Step(s, a).mem, t, s.threads[t]);
    }
  }

  /** An owner's own step ends its scope or brings the end nearer. */
  lemma {:induction false} OwnStepShrinks(s: State, t: Tid, env: Env)
    requires StreamsOk(s) && StatusOk(s) && CanRun(s, t) && HoldsAny(t, s.threads[t])
    ensures var s' := RunThread(s, t, env); Shrinks(s.mem, t, s.threads[t], s'.mem, s'.threads[t])
  {
    var th := s.threads[t];
    assert PlaceOk(s.mem, t, th) && ScopeOk(s.mem, th);
    if Wants(t, th).Some? {
      AcquireShrinks(s.mem, t, th);
    } else {
      MoveShrinks(s.mem, t, th, env);
    }
  }

  /**
   A thread that holds a mutex comes nearer, with each of its steps, to holding none, and no step of anyone else
   moves it away from there.
   */
  lemma {:induction false} ScopesEnd(s: State, a: Action, t: Tid)
    requires Reachable(s) && Enabled(s, a) && t in Owners(s) && t in Owners(Step(s, a))
    ensures t in s.threads && t in Step(s, a).threads
    ensures var before := ScopeSteps(s.mem, t, s.threads[t]);
            var after := ScopeSteps(Step(s, a).mem, t, Step(s, a).threads[t]);
            0 < after <= before && (a.Run? && a.t == t ==> after < before)
  {
    ReachableInv(s);
    StepInv(s, a);
    OwnersHold(s, t);
    OwnersHold(Step(s, a), t);
    ScopeStepsPositive(Step(s, a).mem, t, Step(s, a).threads[t]);
    if a.Run? && a.t == t {
      OwnStepShrinks(s, t, a.env);
    } else {
      OthersKeepScopeSteps(s, a, t);
    }
  }

  /** The steps of `t` in a run. */
  function StepsOf(actions: seq<Action>, t: Tid): nat {
    if actions == [] then 0 else (if actions[0].Run? && actions[0].t == t then 1 else 0) + StepsOf(actions[1..], t)
  }

  /** The thread owns a mutex all along the run. */
  predicate OwnsAllAlong(s: State, actions: seq<Action>, t: Tid)
    requires IsRun(s, actions)
    decreases |actions|
  {
    t in Owners(s) && (actions == [] || OwnsAllAlong(Step(s, actions[0]), actions[1..], t))
  }

  /** In any run, a thread takes fewer steps than this bound before it owns no mutex. */
  lemma {:induction false} ScopesAreBounded(s: State, actions: seq<Action>, t: Tid)
    requires Reachable(s) && IsRun(s, actions) && OwnsAllAlong(s, actions, t)
    ensures t in s.threads && StepsOf(actions, t) < ScopeSteps(s.mem, t, s.threads[t])
    decreases |actions|
  {
    ReachableInv(s);
    OwnersHold(s, t);
    ScopeStepsPositive(s.mem, t, s.threads[t]);
    if actions != [] {
      ScopesEnd(s, actions[0], t);
      Reaches(s, actions[0]);
      ScopesAreBounded(Step(s, actions[0]), actions[1..], t);
    }
  }

  // ---- the refresher of an agent that stops ---------------------------------------------------------------

  /** A bound on the steps the refresher takes until it is done, once the agent is stopping. */
  function StepsToEnd(mem: Shared, th: Thread): nat {
    match th
    case Refresher(at) =>
      (match at
       case LoopHead => 1
       case CheckRunning => 1
       case ClearRequest => 2
       case NotStarted => 2
       case TimedOut => 3
       case CheckRequest => 3
       case WantWait => 4
       case Notified => 4
       case Waiting => 5
       case ParkRefresher => 6)
    case Publisher(_, _) => ScopeSteps(mem, REFRESHER, th)
    case Pusher(_, _, _, _) => ScopeSteps(mem, REFRESHER, th)
    case _ => 0
  }

  lemma {:induction false} RefresherNearsEnd(mem: Shared, at: RefresherAt)
    requires Wants(REFRESHER, Refresher(at)).None? && !Idle(Refresher(at)) && !mem.running
    ensures var mv := RefresherStep(mem, at); StepsToEnd(mv.mem, mv.next) < StepsToEnd(mem, Refresher(at))
  {
  }

  lemma {:induction false} AcquireNearsEnd(mem: Shared, th: Thread)
    requires RoleFits(REFRESHER, RoleOf(th), mem.heap) && Wants(REFRESHER, th).Some? && |mem.clients| <= MAX_SSE_CLIENTS
    ensures StepsToEnd(mem, Wants(REFRESHER, th).value.1) < StepsToEnd(mem, th)
  {
  }

  lemma {:induction false} ScopeNearsEnd(mem: Shared, th: Thread, env: Env)
    requires RoleFits(REFRESHER, RoleOf(th), mem.heap) && Wants(REFRESHER, th).None? && InProbeScope(th)
    requires PlaceOk(mem, REFRESHER, th) && ScopeOk(mem, th) && !mem.ended
    ensures var mv := MoveOf(mem, REFRESHER, th, env); StepsToEnd(mv.mem, mv.next) < StepsToEnd(mem, th)
  {
    MoveShrinks(mem, REFRESHER, th, env);
    ScopeLeft(mem, th, env);
  }

  lemma {:induction false} ScopeLeft(mem: Shared, th: Thread, env: Env)
    requires Wants(REFRESHER, th).None? && InProbeScope(th) && th.job == Background
    ensures var next := MoveOf(mem, REFRESHER, th, env).next;
            InProbeScope(next) || (next == Refresher(LoopHead) && th == Publisher(Background, Published))
  {
  }

  lemma {:induction false} OwnStepNearsEnd(s: State, env: Env)
    requires RolesOk(s) && StreamsOk(s) && StatusOk(s) && CanRun(s, REFRESHER) && !s.mem.running
    ensures var s' := RunThread(s, REFRESHER, env);
            StepsToEnd(s'.mem, s'.threads[REFRESHER]) < StepsToEnd(s.mem, s.threads[REFRESHER])
  {
    var th := s.threads[REFRESHER];
    assert RoleFits(REFRESHER, RoleOf(th), s.mem.heap) && PlaceOk(s.mem, REFRESHER, th) && ScopeOk(s.mem, th);
    if Wants(REFRESHER, th).Some? {
      AcquireNearsEnd(s.mem, th);
    } else if InProbeScope(th) {
      ScopeNearsEnd(s.mem, th, env);
    } else {
      RefresherNearsEnd(s.mem, th.refresher);
    }
  }

  lemma {:induction false} NudgedNearsEnd(mem: Shared, th: Thread, start: bool)
    requires !InProbeScope(th)
    ensures StepsToEnd(mem, Nudged(th, start)) <= StepsToEnd(mem, th)
  {
  }

  lemma {:induction false} SameEnd(mem: Shared, mem': Shared, th: Thread)
    requires |mem'.probes| == |mem.probes| && !InProbeScope(th)
    ensures StepsToEnd(mem', th) == StepsToEnd(mem, th)
  {
  }

  lemma {:induction false} OthersLeaveEnd(s: State, a: Action)
    requires LocksOk(s) && StreamsOk(s) && Enabled(s, a) && REFRESHER in s.threads && (a.Run? ==> a.t != REFRESHER)
    ensures REFRESHER in Step(s, a).threads
    ensures StepsToEnd(Step(s, a).mem, Step(s, a).threads[REFRESHER]) <= StepsToEnd(s.mem, s.threads[REFRESHER])
  {
    var th := s.threads[REFRESHER];
    if InProbeScope(th) {
      OthersKeepScopeSteps(s, a, REFRESHER);
    } else {
      NudgedNearsEnd(s.mem, th, true);
      NudgedNearsEnd(s.mem, th, false);
      if a.Run? && Wants(a.t, s.threads[a.t]).None? { MoveKeepsProbeCount(s.mem, a.t, s.threads[a.t], a.env); }
      assert |Step(s, a).mem.probes| == |s.mem.probes|;
      SameEnd(s.mem, Step(s, a).mem, Nudged(th, true));
      SameEnd(s.mem, Step(s, a).mem, Nudged(th, false));
      SameEnd(s.mem, Step(s, a).mem, th);
    }
  }

  /**
   Once the agent is stopping, the refresher ends after a bounded number of its own steps, whatever anyone else does:
   it finishes a pass it is in, and begins no other.
   */
  lemma {:induction false} StoppedRefresherEnds(s: State, actions: seq<Action>)
    requires Reachable(s) && IsRun(s, actions) && !s.mem.running
    ensures REFRESHER in s.threads && REFRESHER in After(s, actions).threads
    ensures StepsOf(actions, REFRESHER) + StepsToEnd(After(s, actions).mem, After(s, actions).threads[REFRESHER])
            <= StepsToEnd(s.mem, s.threads[REFRESHER])
    decreases |actions|
  {
    ReachableInv(s);
    if actions != [] {
      var a := actions[0];
      if Step(s, a).mem.running { StepStopsForGood(s, a); }
      if a.Run? && a.t == REFRESHER {
        OwnStepNearsEnd(s, a.env);
      } else {
        OthersLeaveEnd(s, a);
      }
      Reaches(s, a);
      StoppedRefresherEnds(Step(s, a), actions[1..]);
    }
  }

  /** A refresher that has no steps left is done. */
  lemma {:induction false} NoStepsLeft(s: State)
    requires Reachable(s) && REFRESHER in s.threads && StepsToEnd(s.mem, s.threads[REFRESHER]) == 0
    ensures s.threads[REFRESHER].Finished?
  {
    ReachableInv(s);
    assert RoleFits(REFRESHER, RoleOf(s.threads[REFRESHER]), s.mem.heap);
    EndIsReached(s.mem, s.threads[REFRESHER]);
  }

  lemma {:induction false} EndIsReached(mem: Shared, th: Thread)
    requires RoleFits(REFRESHER, RoleOf(th), mem.heap) && StepsToEnd(mem, th) == 0
    ensures th.Finished?
  {
    ScopeStepsPositive(mem, REFRESHER, th);
  }
}
