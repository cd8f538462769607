/** A pool whose context is cancelled winds down: every run ends, with nothing left over. */
module PoolShutdown {
  import opened Int32
  import opened Counting
  import opened PoolMachine
  import opened PoolInvariants
  import opened PoolScaling
  import opened PoolSelfCorrection

  /** Anything but a new call of SetReplicas, Pause or Resume. */
  predicate Winding(a: Action) {
    !a.Store? && !a.SetActive?
  }

  predicate WindingRun(schedule: seq<Action>) {
    forall a | a in schedule :: Winding(a)
  }

  /** No goroutine of the pool is alive, no call is under way, and Stop has returned. */
  ghost predicate Ended(s: State) {
    && s.gs.creates == map[] && s.gs.deletes == map[] && s.gs.cleanups == map[]
    && s.gs.callers == {} && s.loop.Exited? && s.gs.stop.StopReturned?
  }

  // ----- The measure

  /** With a cancelled context the loop leaves its stop check only to return. */
  function LoopLeft(l: Loop): nat {
    match l
    case Passed => 12
    case Read(_) => 11
    case Scaling(_) => 10
    case Sizing(_) => 9
    case Sized(_, _) => 8
    case CreatesRead(_, _, _) => 7
    case Spawning(_, _) => 6
    case Starting => 5
    case Selecting => 4
    case Got => 3
    case Exited => 0
  }

  function StopLeft(p: Stop): nat {
    match p
    case NotStopped => 6
    case Cancelled => 5
    case Signalled => 4
    case LoopAwaited => 3
    case Draining(_, zeroSeen) => if zeroSeen then 1 else 2
    case StopReturned(_) => 0
  }

  ghost predicate Closer(s: State, t: State)
    requires s.hist.exited <= s.hist.started && t.hist.exited <= t.hist.started
  {
    var before := LoopLeft(s.loop) + StopLeft(s.gs.stop);
    var after := LoopLeft(t.loop) + StopLeft(t.gs.stop);
    after < before || (after == before && Work(t) < Work(s))
  }

  /** Goroutines other than the loop and Stop move neither. */
  lemma ProgressIsCloser(s: State, t: State)
    requires s.hist.exited <= s.hist.started && t.hist.exited <= t.hist.started
    requires Progress(s, t) && t.loop == s.loop && t.gs.stop == s.gs.stop
    ensures Closer(s, t)
  {
    hide Work;
  }

  lemma LoopWinds(s: State, wake: Wake)
    requires Sane(s) && s.mem.ctxDone && LoopNext(s, wake) != s
    ensures var t := LoopNext(s, wake); t.hist.exited <= t.hist.started && Closer(s, t)
  {
    hide Work, SpawnNext;
    if s.loop.Spawning? {
      SpawnProgress(s);
      SpawnStays(s);
    } else {
      LoopFrame(s, wake);
    }
  }

  lemma SpawnStays(s: State)
    requires s.loop.Spawning?
    ensures var t := SpawnNext(s, s.loop.plan, s.loop.done);
      t.gs.stop == s.gs.stop && (t.loop.Spawning? || t.loop.Selecting?)
  {
    hide ToInt32;
  }

  lemma StopWinds(s: State, timeout: bool)
    requires Sane(s) && StopNext(s, timeout) != s
    ensures var t := StopNext(s, timeout);
      && t.loop == s.loop && t.hist == s.hist && StopLeft(t.gs.stop) < StopLeft(s.gs.stop)
  {
  }

  lemma OtherWinds(s: State, a: Action)
    requires Sane(s) && Winding(a) && TouchesNoGoroutine(a) && Step(s, a) != s
    ensures var t := Step(s, a); t.hist.exited <= t.hist.started && Closer(s, t)
  {
    hide Weigh, SpawnWork, LoopLeft, StopNext;
    match a
    case VmExit(n) =>
      assert s.hist.started - (s.hist.exited + {n}) == s.hist.started - s.hist.exited - {n};
    case Trigger(c) =>
    case StopStep(timeout) => StopWinds(s, timeout);
  }

  /** Every step of a cancelled pool that changes anything brings it closer to its end. */
  lemma WindsDown(s: State, a: Action)
    requires Sane(s) && s.mem.ctxDone && Winding(a) && Step(s, a) != s
    ensures var t := Step(s, a); t.hist.exited <= t.hist.started && Closer(s, t)
  {
    hide Closer, Progress, CreateNext, DeleteNext, CleanupNext, LoopNext, StopNext;
    match a
    case LoopStep(wake) => LoopWinds(s, wake);
    case CreateStep(g, ok, name, cid) =>
      CreateProgress(s, g, ok, name, cid);
      CreateControlFrame(s, g, ok, name, cid);
      ProgressIsCloser(s, Step(s, a));
    case DeleteStep(g, ok, name) =>
      DeleteProgress(s, g, ok, name);
      DeleteFrame(s, g, ok, name);
      ProgressIsCloser(s, Step(s, a));
    case CleanupStep(g, timeout) =>
      CleanupProgress(s, g, timeout);
      CleanupFrame(s, g, timeout);
      ProgressIsCloser(s, Step(s, a));
    case _ => OtherWinds(s, a);
  }

  // ----- Until the end something can move

  lemma CleanupGoesOn(s: State, g: Gid)
    requires g in s.gs.cleanups && s.mem.ctxDone
    ensures CleanupNext(s, g, true) != s
  {
    var t := CleanupNext(s, g, true);
    assert g !in t.gs.cleanups || t.gs.cleanups[g] != s.gs.cleanups[g];
  }

  lemma LoopGoesOn(s: State)
    requires !s.loop.Exited? && s.mem.ctxDone
    ensures LoopNext(s, ContextDone) != s
  {
    assert LoopNext(s, ContextDone).loop != s.loop;
  }

  lemma StopGoesOn(s: State)
    requires !s.gs.stop.StopReturned?
    ensures StopNext(s, true) != s
  {
    assert StopNext(s, true).gs.stop != s.gs.stop;
  }

  /** Unless the pool has ended, some step changes it. */
  lemma CanWind(s: State) returns (a: Action)
    requires s.mem.ctxDone && !Ended(s)
    ensures Winding(a) && Step(s, a) != s
  {
    hide CreateNext, DeleteNext, CleanupNext, LoopNext, StopNext;
    if g :| g in s.gs.creates {
      var n := FreshNumber(s.hist.owner.Keys);
      a := CreateStep(g, true, n, 0);
      CreateMoves(s, g, n);
    } else if g :| g in s.gs.deletes {
      var n := 0;
      if s.mem.machines != map[] {
        n :| n in s.mem.machines;
      }
      a := DeleteStep(g, true, n);
      DeleteMoves(s, g, n);
    } else if g :| g in s.gs.cleanups {
      a := CleanupStep(g, true);
      CleanupGoesOn(s, g);
    } else if c :| c in s.gs.callers {
      a := Trigger(c);
      assert c !in Step(s, a).gs.callers;
    } else if !s.loop.Exited? {
      a := LoopStep(ContextDone);
      LoopGoesOn(s);
    } else {
      a := StopStep(true);
      StopGoesOn(s);
    }
  }

  // ----- The end

  /** With no create and no cleanup alive the map is empty and every lease is cancelled. */
  lemma NothingIsLeft(s: State)
    requires Inv(s) && s.gs.creates == map[] && s.gs.cleanups == map[]
    ensures s.mem.machines == map[] && s.hist.cancelled == s.hist.owner.Keys
    ensures s.hist.inserted == s.hist.takenBy.Keys + s.hist.unmapped
  {
    hide Counts, LeaseBook, Control;
    forall n ensures n !in s.mem.machines && (n in s.hist.owner ==> n in s.hist.cancelled) {
      NobodyHolds(s.gs.creates, s.gs.cleanups, if n in s.hist.owner then s.hist.owner[n] else 0, n);
    }
  }

  lemma NobodyHolds(cs: Creates, ks: Cleanups, g: Gid, n: Name)
    requires cs == map[] && ks == map[]
    ensures !Holds(cs, ks, g, n) && !OwnsEntry(cs, ks, g, n)
  {
  }

  lemma StaysCancelled(s: State, a: Action)
    requires s.mem.ctxDone
    ensures Step(s, a).mem.ctxDone
  {
    hide ToInt32;
    match a
    case CreateStep(g, ok, name, cid) => CreateControlFrame(s, g, ok, name, cid);
    case DeleteStep(g, ok, name) => DeleteFrame(s, g, ok, name);
    case CleanupStep(g, timeout) => CleanupFrame(s, g, timeout);
    case _ =>
  }

  lemma {:induction false} WindOn(s: State) returns (schedule: seq<Action>)
    requires Inv(s) && s.mem.ctxDone
    ensures WindingRun(schedule) && Inv(Exec(s, schedule)) && Ended(Exec(s, schedule))
    decreases LoopLeft(s.loop) + StopLeft(s.gs.stop), (InvIsSane(s); Work(s))
  {
    hide Inv, Step, Work, Ended;
    if Ended(s) {
      schedule := [];
    } else {
      var a := CanWind(s);
      InvIsSane(s);
      WindsDown(s, a);
      StepKeeps(s, a);
      StaysCancelled(s, a);
      var rest := WindOn(Step(s, a));
      schedule := [a] + rest;
      FirstStep(s, a, rest);
    }
  }

  lemma FirstStep(s: State, a: Action, rest: seq<Action>)
    ensures Exec(s, [a] + rest) == Exec(Step(s, a), rest)
  {
    hide Step;
    assert Exec(s, [a]) == Step(Exec(s, []), a);
    ExecAppend(s, [a], rest);
  }

  /** From every reachable state of a cancelled pool: some run winds down to the end, by WindsDown
      every run does, and at the end no machine is in the map, every lease ever acquired is cancelled,
      and every machine ever inserted has left the map once. */
  lemma PoolWindsDown(replicas: int, before: seq<Action>) returns (schedule: seq<Action>)
    requires Exec(Init(replicas), before).mem.ctxDone
    ensures var t := Exec(Exec(Init(replicas), before), schedule);
      && WindingRun(schedule) && Ended(t)
      && t.mem.machines == map[] && t.hist.cancelled == t.hist.owner.Keys
      && t.hist.inserted == t.hist.takenBy.Keys + t.hist.unmapped && t.hist.takenBy.Keys !! t.hist.unmapped
  {
    hide Exec;
    var s := Exec(Init(replicas), before);
    Reachable(replicas, before);
    schedule := WindOn(s);
    NothingIsLeft(Exec(s, schedule));
  }
}
