/** What the loop does without being asked, and what it does not do. */
module PoolRequests {
  import opened Int32
  import opened Counting
  import opened PoolMachine
  import opened PoolInvariants
  import opened PoolScaling
  import opened PoolSelfCorrection
  import opened PoolTheorems

  // ----- A paused pool

  predicate InScale(l: Loop) {
    l.Scaling? || l.Sizing? || l.Sized? || l.CreatesRead? || l.Spawning?
  }

  predicate NoResume(schedule: seq<Action>) {
    SetActive(true) !in schedule
  }

  lemma PausedStep(s: State, a: Action)
    requires !s.mem.isActive && !InScale(s.loop) && a != SetActive(true)
    ensures var t := Step(s, a);
      && !t.mem.isActive && !InScale(t.loop)
      && t.hist.creates.spawned == s.hist.creates.spawned && t.hist.deletes.spawned == s.hist.deletes.spawned
  {
    hide ToInt32, CreateNext, DeleteNext, CleanupNext;
    match a
    case LoopStep(wake) => LoopFrame(s, wake);
    case CreateStep(g, ok, name, cid) => CreateControlFrame(s, g, ok, name, cid); OtherStep(s, a);
    case DeleteStep(g, ok, name) => DeleteFrame(s, g, ok, name); OtherStep(s, a);
    case CleanupStep(g, timeout) => CleanupFrame(s, g, timeout);
    case _ =>
  }

  /** From any state of a paused pool whose loop is not inside Scale: until the pool is resumed, whatever
      else happens, the loop does not enter Scale and no create and no delete is started. */
  lemma {:induction false} PausedStaysIdle(s: State, schedule: seq<Action>)
    requires !s.mem.isActive && !InScale(s.loop) && NoResume(schedule)
    ensures var t := Exec(s, schedule);
      && !t.mem.isActive && !InScale(t.loop)
      && t.hist.creates.spawned == s.hist.creates.spawned && t.hist.deletes.spawned == s.hist.deletes.spawned
    decreases |schedule|
  {
    hide Step, InScale;
    if schedule != [] {
      var n := |schedule| - 1;
      assert schedule[n] in schedule && NoResume(schedule[..n]);
      PausedStaysIdle(s, schedule[..n]);
      PausedStep(Exec(s, schedule[..n]), schedule[n]);
    }
  }

  /** An active pool that is not stopping does call Scale, with the count that the loop has read. */
  lemma ActiveScales(s: State, wake: Wake)
    requires s.loop.Read?
    ensures InScale(Step(s, LoopStep(wake)).loop) <==> s.mem.isActive
    ensures s.mem.isActive ==> Step(s, LoopStep(wake)).loop == Scaling(s.loop.desired)
  {
  }

  // ----- Tokens

  /** The step puts a token into the channel, or finds one there. */
  predicate Asks(s: State, a: Action) {
    (a.LoopStep? && s.loop.Starting?) || (a.Trigger? && a.caller in s.gs.callers)
  }

  /** The step wakes the loop with a token. */
  predicate Wakes(s: State, a: Action) {
    a == LoopStep(Token) && s.loop.Selecting? && s.mem.scaleTrigger
  }

  function CountAsks(s: State, schedule: seq<Action>): nat
    decreases |schedule|
  {
    if schedule == [] then 0
    else
      var n := |schedule| - 1;
      CountAsks(s, schedule[..n]) + if Asks(Exec(s, schedule[..n]), schedule[n]) then 1 else 0
  }

  function CountWakes(s: State, schedule: seq<Action>): nat
    decreases |schedule|
  {
    if schedule == [] then 0
    else
      var n := |schedule| - 1;
      CountWakes(s, schedule[..n]) + if Wakes(Exec(s, schedule[..n]), schedule[n]) then 1 else 0
  }

  function TokensIn(s: State): nat {
    if s.mem.scaleTrigger then 1 else 0
  }

  lemma TokenStep(s: State, a: Action)
    ensures TokensIn(Step(s, a)) + (if Wakes(s, a) then 1 else 0) <= TokensIn(s) + (if Asks(s, a) then 1 else 0)
    ensures Asks(s, a) ==> TokensIn(Step(s, a)) == 1
  {
    hide ToInt32, CreateNext, DeleteNext, CleanupNext;
    match a
    case CreateStep(g, ok, name, cid) => CreateControlFrame(s, g, ok, name, cid);
    case DeleteStep(g, ok, name) => DeleteFrame(s, g, ok, name);
    case CleanupStep(g, timeout) => CleanupFrame(s, g, timeout);
    case _ =>
  }

  /** Each call of TriggerScale wakes the loop at most once: the loop begins no round with a token that
      nobody has put there, and requests that come while a token is there are merged. */
  lemma {:induction false} TokensAreSpent(replicas: int, schedule: seq<Action>)
    ensures var s := Exec(Init(replicas), schedule);
      CountWakes(Init(replicas), schedule) + TokensIn(s) <= CountAsks(Init(replicas), schedule)
    decreases |schedule|
  {
    hide Step, Asks, Wakes;
    if schedule != [] {
      var n := |schedule| - 1;
      TokensAreSpent(replicas, schedule[..n]);
      TokenStep(Exec(Init(replicas), schedule[..n]), schedule[n]);
    }
  }

  // ----- Time limits that are not reached

  /** No cleanup goroutine runs into its time limit. */
  predicate CleanupsInTime(schedule: seq<Action>) {
    forall a | a in schedule :: !(a.CleanupStep? && a.timeout)
  }

  ghost predicate ExitedFirst(cleanups: Cleanups, cancelled: set<Name>, started: set<Name>, exited: set<Name>) {
    && (forall g | g in cleanups && cleanups[g].phase != Waiting :: cleanups[g].name in exited)
    && (forall n | n in cancelled && n in started :: n in exited)
  }

  ghost predicate InTime(s: State) {
    ExitedFirst(s.gs.cleanups, s.hist.cancelled, s.hist.started, s.hist.exited)
  }

  lemma CreateInTime(s: State, g: Gid, ok: bool, name: Name, cid: nat)
    requires Leases(s) && InTime(s)
    ensures InTime(CreateNext(s, g, ok, name, cid))
  {
    hide ToInt32;
  }

  lemma CleanupStepInTime(s: State, g: Gid)
    requires Leases(s) && InTime(s)
    ensures InTime(CleanupNext(s, g, false))
  {
  }

  lemma StepInTime(s: State, a: Action)
    requires Inv(s) && InTime(s) && !(a.CleanupStep? && a.timeout)
    ensures InTime(Step(s, a))
  {
    hide CreateNext, DeleteNext, CleanupNext, LoopNext, SpawnNext, LeasesOwned;
    match a
    case LoopStep(wake) => LoopHistory(s, wake);
    case CreateStep(g, ok, name, cid) => CreateInTime(s, g, ok, name, cid);
    case DeleteStep(g, ok, name) => DeleteFrame(s, g, ok, name);
    case CleanupStep(g, timeout) => CleanupStepInTime(s, g);
    case _ => OtherFrame(s, a);
  }

  lemma LoopHistory(s: State, wake: Wake)
    ensures var t := LoopNext(s, wake);
      && t.gs.cleanups == s.gs.cleanups && t.hist.cancelled == s.hist.cancelled
      && t.hist.started == s.hist.started && t.hist.exited == s.hist.exited
  {
    hide ToInt32;
    if !s.loop.Spawning? {
      LoopFrame(s, wake);
    }
  }

  lemma {:induction false} RunInTime(replicas: int, schedule: seq<Action>)
    requires CleanupsInTime(schedule)
    ensures InTime(Exec(Init(replicas), schedule))
    decreases |schedule|
  {
    hide Step, Inv;
    if schedule != [] {
      var n := |schedule| - 1;
      RunInTime(replicas, schedule[..n]);
      Reachable(replicas, schedule[..n]);
      StepInTime(Exec(Init(replicas), schedule[..n]), schedule[n]);
    }
  }

  /** Also while the pool is stopping a lease is cancelled only if its VM never started or has exited, as
      long as no cleanup goroutine runs into its time limit. */
  lemma LeaseOutlivesVmInTime(replicas: int, schedule: seq<Action>, n: Name)
    requires CleanupsInTime(schedule)
    ensures var s := Exec(Init(replicas), schedule);
      n in s.hist.cancelled ==> n !in s.hist.started || n in s.hist.exited
  {
    RunInTime(replicas, schedule);
  }

  /** Stop runs into none of its time limits. */
  predicate StopInTime(schedule: seq<Action>) {
    forall a | a in schedule :: !(a.StopStep? && a.timeout)
  }

  predicate PastLoop(stop: Stop) {
    stop.LoopAwaited? || stop.Draining? || stop.StopReturned?
  }

  /** Stop has waited as it should. */
  predicate Waited(s: State) {
    (PastLoop(s.gs.stop) ==> s.loop.Exited?) && (s.gs.stop.StopReturned? ==> s.gs.stop.clean)
  }

  lemma WaitedStep(s: State, a: Action)
    requires Waited(s) && !(a.StopStep? && a.timeout)
    ensures Waited(Step(s, a))
  {
    hide ToInt32, CreateNext, DeleteNext, CleanupNext;
    match a
    case LoopStep(wake) => if !s.loop.Spawning? { LoopFrame(s, wake); }
    case CreateStep(g, ok, name, cid) => CreateControlFrame(s, g, ok, name, cid);
    case DeleteStep(g, ok, name) => DeleteFrame(s, g, ok, name);
    case CleanupStep(g, timeout) => CleanupFrame(s, g, timeout);
    case _ =>
  }

  /** Unless it runs into a time limit, Stop looks at the machines only after the loop has exited, and
      returns cleanly. */
  lemma {:induction false} StopWaitsForLoop(replicas: int, schedule: seq<Action>)
    requires StopInTime(schedule)
    ensures var s := Exec(Init(replicas), schedule);
      (PastLoop(s.gs.stop) ==> s.loop.Exited?) && (s.gs.stop.StopReturned? ==> s.gs.stop.clean)
    decreases |schedule|
  {
    hide Step, PastLoop;
    if schedule != [] {
      var n := |schedule| - 1;
      StopWaitsForLoop(replicas, schedule[..n]);
      WaitedStep(Exec(Init(replicas), schedule[..n]), schedule[n]);
    } else {
      StartsWaited(replicas);
    }
  }

  lemma StartsWaited(replicas: int)
    ensures Waited(Init(replicas))
  {
  }

  /** So no create and no delete is started after that. */
  lemma NoneStartedAfterStop(replicas: int, before: seq<Action>, after: seq<Action>)
    requires StopInTime(before) && PastLoop(Exec(Init(replicas), before).gs.stop)
    ensures var s := Exec(Init(replicas), before);
      var t := Exec(s, after);
      && t.hist.creates.spawned == s.hist.creates.spawned && t.hist.deletes.spawned == s.hist.deletes.spawned
  {
    StopWaitsForLoop(replicas, before);
    ExitedForGood(Exec(Init(replicas), before), after);
  }

  predicate PastSignal(stop: Stop) {
    !stop.NotStopped? && !stop.Cancelled?
  }

  lemma SignalStep(s: State, a: Action)
    requires PastSignal(s.gs.stop) ==> s.mem.stopCh || s.loop.Exited?
    ensures var t := Step(s, a); PastSignal(t.gs.stop) ==> t.mem.stopCh || t.loop.Exited?
  {
    hide ToInt32, CreateNext, DeleteNext, CleanupNext;
    match a
    case LoopStep(wake) => if !s.loop.Spawning? { LoopFrame(s, wake); }
    case CreateStep(g, ok, name, cid) => CreateControlFrame(s, g, ok, name, cid);
    case DeleteStep(g, ok, name) => DeleteFrame(s, g, ok, name);
    case CleanupStep(g, timeout) => CleanupFrame(s, g, timeout);
    case _ =>
  }

  /** Once Stop has signalled, the signal is there until the loop has exited. */
  lemma {:induction false} SignalIsNotLost(replicas: int, schedule: seq<Action>)
    ensures var s := Exec(Init(replicas), schedule); PastSignal(s.gs.stop) ==> s.mem.stopCh || s.loop.Exited?
    decreases |schedule|
  {
    hide Step;
    if schedule != [] {
      var n := |schedule| - 1;
      SignalIsNotLost(replicas, schedule[..n]);
      SignalStep(Exec(Init(replicas), schedule[..n]), schedule[n]);
    }
  }

  lemma ExitedStep(s: State, a: Action)
    requires s.loop.Exited?
    ensures var t := Step(s, a);
      && t.loop.Exited?
      && t.hist.creates.spawned == s.hist.creates.spawned && t.hist.deletes.spawned == s.hist.deletes.spawned
  {
    if !a.LoopStep? {
      OtherStep(s, a);
    }
  }

  lemma {:induction false} ExitedForGood(s: State, schedule: seq<Action>)
    requires s.loop.Exited?
    ensures var t := Exec(s, schedule);
      && t.loop.Exited?
      && t.hist.creates.spawned == s.hist.creates.spawned && t.hist.deletes.spawned == s.hist.deletes.spawned
    decreases |schedule|
  {
    hide Step;
    if schedule != [] {
      var n := |schedule| - 1;
      ExitedForGood(s, schedule[..n]);
      ExitedStep(Exec(s, schedule[..n]), schedule[n]);
    }
  }

  // ----- A new pool

  lemma NewPoolIsActive(n: nat)
    requires n < TWO_31
    ensures var s := Init(n); !s.mem.ctxDone && s.mem.isActive && s.mem.replicas == n
  {
    FitsInt32(n);
  }

  /** A new pool that is configured with n machines gets them: after any quiet run that drains it, one
      round and any quiet run that drains it again, it has exactly n, and the next round starts nothing. */
  lemma ConfiguredSizeIsReached(n: nat, drain: seq<Action>, round: seq<Action>, next: seq<Action>)
    requires n < TWO_31
    requires QuietRun(Init(n), drain) && Settled(Exec(Init(n), drain))
    requires var u := Step(Exec(Init(n), drain), LoopStep(Timer)); QuietRun(u, round) && Settled(Exec(u, round))
    requires var u := Step(Exec(Init(n), drain), LoopStep(Timer));
      QuietRun(Step(Exec(u, round), LoopStep(Timer)), next)
    ensures var u := Step(Exec(Init(n), drain), LoopStep(Timer));
      var v := Exec(u, round);
      var w := Exec(Step(v, LoopStep(Timer)), next);
      && |v.mem.machines| == n
      && (w.loop.Spawning? ==> Ups(w.loop.plan) == 0 && Downs(w.loop.plan) == 0)
      && (Settled(w) ==> |w.mem.machines| == n)
  {
    hide Step, Settled, QuietRun;
    NewPoolIsActive(n);
    assert Exec(Init(n), []) == Init(n);
    SelfCorrection(n, [], drain, round, next);
  }
}
