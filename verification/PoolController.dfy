/** Pool itself: the code of server/pool.go over the fields it shares, one atomic step at a time,
    with any steps of other goroutines in between. */
module PoolController {
  import opened Int32
  import opened Counting
  import opened Options
  import opened PoolMachine
  import opened PoolInvariants
  import opened PoolScaling
  import opened PoolTheorems
  import opened PoolOutside

  datatype Thread = TheLoop | Creator(g: Gid) | Deleter(g: Gid) | Cleaner(g: Gid) | Caller(c: Gid) | TheStopper

  predicate StepOf(t: Thread, a: Action) {
    match t
    case TheLoop => a.LoopStep?
    case Creator(g) => a.CreateStep? && a.g == g
    case Deleter(g) => a.DeleteStep? && a.g == g
    case Cleaner(g) => a.CleanupStep? && a.g == g
    case Caller(c) => (a.Store? || a.Trigger?) && a.caller == c
    case TheStopper => a.StopStep?
  }

  /** The other threads do not touch a goroutine's own record. */
  ghost predicate SameRecord(t: Thread, before: Goroutines, after: Goroutines) {
    match t
    case TheLoop => true
    case Creator(g) => g in before.creates ==> g in after.creates && after.creates[g] == before.creates[g]
    case Deleter(g) => g in before.deletes ==> g in after.deletes && after.deletes[g] == before.deletes[g]
    case Cleaner(g) => g in before.cleanups ==> g in after.cleanups && after.cleanups[g] == before.cleanups[g]
    case Caller(c) => c in before.callers <==> c in after.callers
    case TheStopper => after.stop == before.stop
  }

  lemma OtherKeepsRecord(s: State, t: Thread, a: Action)
    requires GidsFresh(s.gs) && !StepOf(t, a)
    ensures SameRecord(t, s.gs, Step(s, a).gs)
  {
    hide ToInt32, CreateNext, DeleteNext, CleanupNext, LoopNext;
    match a
    case LoopStep(wake) => LoopKeepsRecords(s, wake);
    case CreateStep(g, ok, name, cid) => CreateKeepsRecords(s, g, ok, name, cid);
    case DeleteStep(g, ok, name) => DeleteKeepsRecords(s, g, ok, name);
    case CleanupStep(g, timeout) => CleanupKeepsRecords(s, g, timeout);
    case _ =>
  }

  lemma DeleteKeepsRecords(s: State, g: Gid, ok: bool, name: Name)
    ensures var t := DeleteNext(s, g, ok, name);
      && t.gs == s.gs.(deletes := t.gs.deletes)
      && (forall h | h in s.gs.deletes && h != g :: h in t.gs.deletes && t.gs.deletes[h] == s.gs.deletes[h])
  {
    DeleteFrame(s, g, ok, name);
  }

  lemma CleanupKeepsRecords(s: State, g: Gid, timeout: bool)
    ensures var t := CleanupNext(s, g, timeout);
      && t.gs == s.gs.(cleanups := t.gs.cleanups)
      && (forall h | h in s.gs.cleanups && h != g :: h in t.gs.cleanups && t.gs.cleanups[h] == s.gs.cleanups[h])
  {
    CleanupFrame(s, g, timeout);
  }

  lemma LoopKeepsRecords(s: State, wake: Wake)
    requires GidsFresh(s.gs)
    ensures var t := LoopNext(s, wake);
      && (forall g | g in s.gs.creates :: g in t.gs.creates && t.gs.creates[g] == s.gs.creates[g])
      && (forall g | g in s.gs.deletes :: g in t.gs.deletes && t.gs.deletes[g] == s.gs.deletes[g])
      && t.gs.cleanups == s.gs.cleanups && t.gs.stop == s.gs.stop && t.gs.callers == s.gs.callers
  {
    if !s.loop.Spawning? {
      LoopFrame(s, wake);
    }
  }

  lemma CreateKeepsRecords(s: State, g: Gid, ok: bool, name: Name, cid: nat)
    requires GidsFresh(s.gs)
    ensures var t := CreateNext(s, g, ok, name, cid);
      && t.gs.deletes == s.gs.deletes && t.gs.stop == s.gs.stop && t.gs.callers == s.gs.callers
      && (forall h | h in s.gs.creates && h != g :: h in t.gs.creates && t.gs.creates[h] == s.gs.creates[h])
      && (forall h | h in s.gs.cleanups :: h in t.gs.cleanups && t.gs.cleanups[h] == s.gs.cleanups[h])
  {
    hide ToInt32;
  }

  lemma {:induction false} OthersKeepRecord(s: State, t: Thread, others: seq<Action>)
    requires Inv(s) && forall i | 0 <= i < |others| :: !StepOf(t, others[i])
    ensures SameRecord(t, s.gs, Exec(s, others).gs) && Grows(s, Exec(s, others))
    decreases |others|
  {
    RunGrows(s, others);
    if others != [] {
      var n := |others| - 1;
      OthersKeepRecord(s, t, others[..n]);
      RunKeeps(s, others[..n]);
      OtherKeepsRecord(Exec(s, others[..n]), t, others[n]);
    }
  }

  /** The calls stop each of the machines once, and do nothing else. */
  ghost predicate StopsEach(calls: seq<ExternalCall>, names: set<Name>) {
    && (forall i | 0 <= i < |calls| ::
          calls[i].service == StopVm && calls[i].name.Some? && calls[i].name.value in names)
    && (forall i, j | 0 <= i < j < |calls| :: calls[i].name != calls[j].name)
    && (forall n | n in names :: exists i :: 0 <= i < |calls| && calls[i].name == Some(n))
  }

  lemma NoStops()
    ensures StopsEach([], {})
  {
  }

  lemma OneMoreStop(calls: seq<ExternalCall>, names: set<Name>, n: Name, ok: bool)
    requires StopsEach(calls, names) && n !in names
    ensures StopsEach(calls + [ExternalCall(StopVm, Some(n), ok)], names + {n})
  {
    var more := calls + [ExternalCall(StopVm, Some(n), ok)];
    assert more[|calls|].name == Some(n);
    forall m | m in names + {n} ensures exists i :: 0 <= i < |more| && more[i].name == Some(m) {
      if m in names {
        var i :| 0 <= i < |calls| && calls[i].name == Some(m);
        assert more[i].name == Some(m);
      }
    }
  }

  class Pool {
    var machines: map<Name, Machine>
    var pendingCreates: int
    var pendingDeletes: int
    var replicas: int
    var isActive: bool
    var scaleTrigger: bool       // the one-slot channel holds a token
    var stopCh: bool
    var ctxDone: bool
    var goroutines: Goroutines   // what the Go runtime keeps for this pool

    ghost const initial: int
    ghost var loop: Loop
    var hist: History            // what has happened outside: leases, VMs
    ghost var schedule: seq<Action>

    ghost function Abs(): State
      reads this
    {
      State(Memory(machines, pendingCreates, pendingDeletes, replicas, isActive, scaleTrigger, stopCh, ctxDone),
            goroutines, loop, hist)
    }

    /** The fields are what the schedule so far makes of a new pool. */
    ghost predicate Valid()
      reads this
    {
      Abs() == Exec(Init(initial), schedule)
    }

    constructor (config: int)
      ensures Valid() && Abs() == Init(config) && schedule == [] && initial == config
    {
      machines, pendingCreates, pendingDeletes := map[], 0, 0;
      replicas := ToInt32(config);
      isActive, scaleTrigger, stopCh, ctxDone := true, false, false, false;
      goroutines := Goroutines(map[], map[], map[], 0, {}, NotStopped);
      initial, loop, hist, schedule := config, Starting, Init(config).hist, [];
    }

    /** Other threads run: the schedule grows by any steps but those of `mine`. The body stands for
        the case in which they take none; callers know only the contract. */
    method Interference(ghost mine: Thread)
      requires Valid()
      modifies this
      ensures Valid() && old(schedule) <= schedule
      ensures forall i | |old(schedule)| <= i < |schedule| :: !StepOf(mine, schedule[i])
    {
    }

    /** Interference as the loop sees it: the others cannot move the loop or spawn. */
    method Yield()
      requires Valid()
      modifies this
      ensures Valid() && old(schedule) <= schedule && NoLoop(schedule[|old(schedule)|..])
      ensures loop == old(loop)
      ensures hist.creates.spawned == old(hist.creates.spawned) && hist.deletes.spawned == old(hist.deletes.spawned)
      ensures hist.readAt == old(hist.readAt) && old(hist.stores) <= hist.stores
    {
      Interference(TheLoop);
      ghost var others := schedule[|old(schedule)|..];
      assert schedule == old(schedule) + others;
      ExecAppend(Init(initial), old(schedule), others);
      OthersShrink(old(Abs()), others);
    }

    /** Interference as a goroutine sees it: its own record stays, and nothing done is undone. */
    method YieldAs(ghost mine: Thread)
      requires Valid()
      modifies this
      ensures Valid() && old(schedule) <= schedule
      ensures SameRecord(mine, old(goroutines), goroutines) && Grows(old(Abs()), Abs())
    {
      hide Exec, Step, Inv, Grows, SameRecord;
      Interference(mine);
      ghost var others := schedule[|old(schedule)|..];
      assert schedule == old(schedule) + others;
      ExecAppend(Init(initial), old(schedule), others);
      Reachable(initial, old(schedule));
      OthersKeepRecord(old(Abs()), mine, others);
    }

    /** Records a step that the fields have just made. */
    ghost method Record(a: Action, before: State)
      requires before == Exec(Init(initial), schedule) && Abs() == Step(before, a)
      modifies `schedule
      ensures Valid() && schedule == old(schedule) + [a]
    {
      ExecStep(Init(initial), schedule, a);
      schedule := schedule + [a];
    }

    /** The send that never blocks: by Run at its start, or by a caller of SetReplicas. */
    method TriggerScale(caller: Option<Gid>)
      requires Valid() && if caller.None? then loop == Starting else caller.value in goroutines.callers
      modifies this
      ensures Valid() && scaleTrigger
      ensures schedule == old(schedule) + [if caller.None? then LoopStep(Timer) else Trigger(caller.value)]
      ensures loop == if caller.None? then Selecting else old(loop)
      ensures replicas == old(replicas) && hist == old(hist)
    {
      ghost var before := Abs();
      scaleTrigger := true;
      if caller.None? {
        loop := Selecting;
      } else {
        goroutines := goroutines.(callers := goroutines.callers - {caller.value});
      }
      Record(if caller.None? then LoopStep(Timer) else Trigger(caller.value), before);
    }

    method StoreReplicas(count: int, c: Gid)
      requires Valid() && c !in goroutines.callers
      modifies this
      ensures Valid() && schedule == old(schedule) + [Store(count, c)]
      ensures c in goroutines.callers && replicas == ToInt32(count)
    {
      ghost var before := Abs();
      replicas := ToInt32(count);
      goroutines := goroutines.(callers := goroutines.callers + {c});
      hist := hist.(stores := hist.stores + 1);
      Record(Store(count, c), before);
    }

    /** Stores the count as an int32, which it is in the state `stored` right after, and makes sure the
        loop will look, whatever runs in between. c is the calling goroutine. */
    method SetReplicas(count: int, c: Gid) returns (ghost stored: State, ghost at: nat)
      requires Valid() && c !in goroutines.callers
      modifies this
      ensures Valid() && old(schedule) + [Store(count, c)] <= schedule
      ensures at == |old(schedule)| + 1 && ReadAt(stored, at) && stored.mem.replicas == ToInt32(count)
      ensures scaleTrigger && RequestNotLost(Abs())
    {
      hide Exec, Step, Init, Grows;
      StoreReplicas(count, c);
      stored, at := Abs(), |schedule|;
      ghost var first := schedule;
      assert first[..at] == first;
      YieldAs(Caller(c));
      TriggerScale(Some(c));
      assert schedule[..at] == first;
    }

    /** Pausing keeps the loop from calling Scale. */
    method Pause()
      requires Valid()
      modifies this
      ensures Valid() && !isActive
      ensures schedule == old(schedule) + (if old(isActive) then [SetActive(false)] else [])
    {
      if !isActive {
        return;
      }
      ghost var before := Abs();
      isActive := false;
      Record(SetActive(false), before);
    }

    method Resume()
      requires Valid()
      modifies this
      ensures Valid() && isActive
      ensures schedule == old(schedule) + (if old(isActive) then [] else [SetActive(true)])
    {
      if isActive {
        return;
      }
      ghost var before := Abs();
      isActive := true;
      Record(SetActive(true), before);
    }

    method ScaleUp(count: nat, ghost plan: Plan)
      requires Valid() && loop == Spawning(plan, 0) && count == Ups(plan)
      modifies this
      ensures Valid() && old(schedule) <= schedule && loop == Spawning(plan, count)
      ensures hist.creates.spawned == old(hist.creates.spawned) + count
      ensures hist.deletes.spawned == old(hist.deletes.spawned) && hist.readAt == old(hist.readAt)
    {
      hide Exec, Init;
      for i := 0 to count
        invariant Valid() && old(schedule) <= schedule && loop == Spawning(plan, i)
        invariant hist.readAt == old(hist.readAt)
        invariant hist.creates.spawned == old(hist.creates.spawned) + i
        invariant hist.deletes.spawned == old(hist.deletes.spawned)
      {
        ghost var before := Abs();
        pendingCreates := ToInt32(pendingCreates + 1);
        goroutines := goroutines.(creates := goroutines.creates[goroutines.nextGid := Spawned],
                                  nextGid := goroutines.nextGid + 1);
        hist := hist.(creates := hist.creates.(spawned := hist.creates.spawned + 1));
        loop := Spawning(plan, i + 1);
        Record(LoopStep(Timer), before);
        Yield();
      }
    }

    method SpawnDelete(ghost i: nat, ghost plan: Plan)
      requires Valid() && loop == Spawning(plan, i) && Ups(plan) <= i < Downs(plan)
      modifies this
      ensures Valid() && schedule == old(schedule) + [LoopStep(Timer)] && loop == Spawning(plan, i + 1)
      ensures hist == old(hist).(deletes := old(hist.deletes).(spawned := old(hist.deletes.spawned) + 1))
    {
      ghost var before := Abs();
      pendingDeletes := ToInt32(pendingDeletes + 1);
      goroutines := goroutines.(deletes := goroutines.deletes[goroutines.nextGid := DeleteSpawned],
                                nextGid := goroutines.nextGid + 1);
      hist := hist.(deletes := hist.deletes.(spawned := hist.deletes.spawned + 1));
      loop := Spawning(plan, i + 1);
      Record(LoopStep(Timer), before);
    }

    method ScaleDown(wanted: nat, curSize: nat, ghost plan: Plan)
      requires Valid() && loop == Spawning(plan, 0) && Ups(plan) == 0
      requires plan.size == curSize && wanted == plan.effective - plan.desired
      modifies this
      ensures Valid() && old(schedule) <= schedule && loop == Spawning(plan, Downs(plan))
      ensures hist.deletes.spawned == old(hist.deletes.spawned) + Downs(plan)
      ensures hist.creates.spawned == old(hist.creates.spawned) && hist.readAt == old(hist.readAt)
    {
      var count := wanted;
      if count > curSize {
        count := curSize;
      }
      assert count == Downs(plan);
      for i := 0 to count
        invariant hist.readAt == old(hist.readAt)
        invariant Valid() && old(schedule) <= schedule && loop == Spawning(plan, i)
        invariant hist.deletes.spawned == old(hist.deletes.spawned) + i
        invariant hist.creates.spawned == old(hist.creates.spawned)
      {
        SpawnDelete(i, plan);
        Yield();
      }
    }

    method GetCurrentSize(ghost desired: int) returns (size: nat)
      requires Valid() && loop == Sizing(desired)
      modifies this
      ensures Valid() && schedule == old(schedule) + [LoopStep(Timer)]
      ensures size == |old(machines)| && loop == Sized(desired, size)
      ensures hist == old(hist)
    {
      ghost var before := Abs();
      size := |machines|;
      loop := Sized(desired, size);
      Record(LoopStep(Timer), before);
    }

    method LoadPendingCreates(ghost desired: int, ghost size: nat) returns (creates: int)
      requires Valid() && loop == Sized(desired, size)
      modifies this
      ensures Valid() && schedule == old(schedule) + [LoopStep(Timer)]
      ensures creates == old(pendingCreates) && loop == CreatesRead(desired, size, creates)
      ensures hist == old(hist)
    {
      ghost var before := Abs();
      creates := pendingCreates;
      loop := CreatesRead(desired, size, creates);
      Record(LoopStep(Timer), before);
    }

    method LoadPendingDeletes(ghost desired: int, ghost size: nat, ghost creates: int) returns (deletes: int)
      requires Valid() && loop == CreatesRead(desired, size, creates)
      modifies this
      ensures Valid() && schedule == old(schedule) + [LoopStep(Timer)]
      ensures deletes == old(pendingDeletes) && loop == Spawning(Plan(desired, size, size + creates - deletes), 0)
      ensures hist == old(hist)
    {
      ghost var before := Abs();
      deletes := pendingDeletes;
      loop := Spawning(Plan(desired, size, size + creates - deletes), 0);
      Record(LoopStep(Timer), before);
    }

    /** The state in which the call read the size, and where the schedule passed through it. */
    ghost predicate ReadAt(first: State, at: nat)
      reads this
    {
      at <= |schedule| && first == Exec(Init(initial), schedule[..at])
    }

    /** The three reads of Scale, at three moments. */
    method Measure(desiredReplicas: int) returns (curSize: nat, effectiveSize: int, ghost first: State, ghost at: nat)
      requires Valid() && loop == Sizing(desiredReplicas)
      modifies this
      ensures Valid() && old(schedule) <= schedule
      ensures loop == Spawning(Plan(desiredReplicas, curSize, effectiveSize), 0)
      ensures at == |old(schedule)| && first == old(Abs()) && ReadAt(first, at)
      ensures curSize == |first.mem.machines|
      ensures |first.gs.creates| < TWO_31 && |first.gs.deletes| < TWO_31 ==> WithinStaleBound(first, effectiveSize)
      ensures hist.creates.spawned == old(hist.creates.spawned) && hist.deletes.spawned == old(hist.deletes.spawned)
      ensures hist.readAt == old(hist.readAt)
    {
      hide Exec, Step, Init, WithinStaleBound;
      first, at := Abs(), |schedule|;
      curSize := GetCurrentSize(desiredReplicas);
      Yield();
      ghost var others1 := schedule[at + 1..];
      ghost var n := |schedule|;
      var creates := LoadPendingCreates(desiredReplicas, curSize);
      Yield();
      ghost var others2 := schedule[n + 1..];
      var deletes := LoadPendingDeletes(desiredReplicas, curSize, creates);
      effectiveSize := curSize + creates - deletes;
      assert schedule == old(schedule) + [LoopStep(Timer)] + others1 + [LoopStep(Timer)] + others2 + [LoopStep(Timer)];
      ReadsTaken(old(schedule), others1, others2, first, Abs());
      assert schedule[..at] == old(schedule);
    }

    method StartGoroutines(delta: int, curSize: nat, ghost plan: Plan)
      requires Valid() && loop == Spawning(plan, 0)
      requires plan.size == curSize && delta == plan.desired - plan.effective
      modifies this
      ensures Valid() && old(schedule) <= schedule && loop == Spawning(plan, Ups(plan) + Downs(plan))
      ensures hist.creates.spawned == old(hist.creates.spawned) + Ups(plan)
      ensures hist.deletes.spawned == old(hist.deletes.spawned) + Downs(plan)
      ensures hist.readAt == old(hist.readAt)
    {
      if delta > 0 {
        ScaleUp(delta, plan);
      } else if delta < 0 {
        ScaleDown(-delta, curSize, plan);
      }
    }

    /** One call of Scale by the loop. When the context is live it starts exactly the creates and
        deletes that take the effective size to the desired size, or as far as the machines it saw
        allow; the effective size is within the stale-read bound of the state `first` in which the
        size was read, which the schedule passed through during the call. */
    method Scale(desiredReplicas: int)
      returns (cancelled: bool, curSize: nat, effectiveSize: int, ghost first: State, ghost at: nat)
      requires Valid() && loop == Scaling(desiredReplicas)
      modifies this
      ensures Valid() && old(schedule) <= schedule && loop == Selecting
      ensures cancelled == old(ctxDone)
      ensures cancelled ==> schedule == old(schedule) + [LoopStep(Timer)] && hist == old(hist) && ctxDone
      ensures !cancelled ==>
        var plan := Plan(desiredReplicas, curSize, effectiveSize);
        && hist.creates.spawned == old(hist.creates.spawned) + Ups(plan)
        && hist.deletes.spawned == old(hist.deletes.spawned) + Downs(plan)
      ensures !cancelled ==> at > |old(schedule)| && ReadAt(first, at) && curSize == |first.mem.machines|
      ensures !cancelled && |first.gs.creates| < TWO_31 && |first.gs.deletes| < TWO_31 ==>
        WithinStaleBound(first, effectiveSize)
      ensures hist.readAt == old(hist.readAt)
    {
      hide Exec, Step, Init, WithinStaleBound, NoLoop, SameRecord;
      cancelled, curSize, effectiveSize, first, at := ctxDone, 0, 0, Abs(), 0;
      CheckContext(desiredReplicas);
      if cancelled {
        return;
      }
      Yield();
      curSize, effectiveSize, first, at := Measure(desiredReplicas);
      ghost var measured := schedule;
      Yield();
      ghost var plan := Plan(desiredReplicas, curSize, effectiveSize);
      StartGoroutines(desiredReplicas - effectiveSize, curSize, plan);
      Return(plan);
      assert schedule[..at] == measured[..at];
    }

    method CheckContext(ghost desired: int)
      requires Valid() && loop == Scaling(desired)
      modifies this
      ensures Valid() && schedule == old(schedule) + [LoopStep(Timer)]
      ensures loop == if old(ctxDone) then Selecting else Sizing(desired)
      ensures hist == old(hist) && ctxDone == old(ctxDone)
    {
      ghost var before := Abs();
      loop := if ctxDone then Selecting else Sizing(desired);
      Record(LoopStep(Timer), before);
    }

    method Return(ghost plan: Plan)
      requires Valid() && loop == Spawning(plan, Ups(plan) + Downs(plan))
      modifies this
      ensures Valid() && schedule == old(schedule) + [LoopStep(Timer)]
      ensures loop == Selecting && hist == old(hist)
    {
      ghost var before := Abs();
      loop := Selecting;
      Record(LoopStep(Timer), before);
    }

    /** The select statement of Run, for a case that is ready. */
    method Select(wake: Wake) returns (exited: bool)
      requires Valid() && loop == Selecting
      requires match wake
        case Token => scaleTrigger
        case Timer => true
        case StopSignal => stopCh
        case ContextDone => ctxDone
      modifies this
      ensures Valid() && schedule == old(schedule) + [LoopStep(wake)] && hist == old(hist)
      ensures exited <==> wake.StopSignal? || wake.ContextDone?
      ensures loop == if exited then Exited else Got
      ensures scaleTrigger == (old(scaleTrigger) && !wake.Token?) && stopCh == (old(stopCh) && !wake.StopSignal?)
    {
      hide Exec, Init;
      ghost var before := Abs();
      match wake {
        case Token =>
          scaleTrigger, loop := false, Got;
        case Timer =>
          loop := Got;
        case StopSignal =>
          stopCh, loop := false, Exited;
        case ContextDone =>
          loop := Exited;
      }
      Record(LoopStep(wake), before);
      exited := wake == StopSignal || wake == ContextDone;
    }

    /** The check whether to stop, which does not block. */
    method CheckStop() returns (exited: bool)
      requires Valid() && loop == Got
      modifies this
      ensures Valid() && schedule == old(schedule) + [LoopStep(Timer)] && hist == old(hist)
      ensures exited <==> old(ctxDone) || old(stopCh)
      ensures loop == if exited then Exited else Passed
    {
      hide Exec, Init;
      ghost var before := Abs();
      exited := ctxDone || stopCh;
      if !ctxDone && stopCh {
        stopCh := false;
      }
      loop := if exited then Exited else Passed;
      Record(LoopStep(Timer), before);
    }

    /** A stop signal or a done context ends the loop at once, anything else if the check, at a moment
        of its own, finds one of the two. */
    method Receive(wake: Wake) returns (exited: bool, ghost checked: State, ghost at: nat)
      requires Valid() && loop == Selecting
      requires match wake
        case Token => scaleTrigger
        case Timer => true
        case StopSignal => stopCh
        case ContextDone => ctxDone
      modifies this
      ensures Valid() && old(schedule) <= schedule && old(hist.stores) <= hist.stores
      ensures loop == if exited then Exited else Passed
      ensures wake.StopSignal? || wake.ContextDone? ==> exited && schedule == old(schedule) + [LoopStep(wake)]
      ensures wake.Token? || wake.Timer? ==>
        && |old(schedule)| < at && ReadAt(checked, at) && checked.loop == Got
        && (exited <==> checked.mem.ctxDone || checked.mem.stopCh)
    {
      hide Exec, Init;
      checked, at := Abs(), 0;
      exited := Select(wake);
      if exited {
        return;
      }
      Yield();
      checked, at := Abs(), |schedule|;
      exited := CheckStop();
      assert schedule[..at] + [LoopStep(Timer)] == schedule;
    }

    method LoadReplicas() returns (desired: int)
      requires Valid() && loop == Passed
      modifies this
      ensures Valid() && schedule == old(schedule) + [LoopStep(Timer)]
      ensures desired == old(replicas) && loop == Read(desired)
      ensures hist == old(hist).(readAt := old(hist.stores), lastRead := desired)
    {
      ghost var before := Abs();
      desired := replicas;
      loop := Read(desired);
      hist := hist.(readAt := hist.stores, lastRead := desired);
      Record(LoopStep(Timer), before);
    }

    method CheckActive(ghost desired: int) returns (active: bool)
      requires Valid() && loop == Read(desired)
      modifies this
      ensures Valid() && schedule == old(schedule) + [LoopStep(Timer)]
      ensures active == old(isActive) && loop == if active then Scaling(desired) else Selecting
      ensures hist == old(hist)
    {
      ghost var before := Abs();
      active := isActive;
      loop := if active then Scaling(desired) else Selecting;
      Record(LoopStep(Timer), before);
    }

    /** Reads the replica count and then, in the state `read`, whether the pool is active; a paused pool
        goes back to waiting. */
    method ReadReplicas() returns (desired: int, active: bool, ghost read: State, ghost at: nat)
      requires Valid() && loop == Passed
      modifies this
      ensures Valid() && old(schedule) <= schedule
      ensures desired == old(replicas) && loop == if active then Scaling(desired) else Selecting
      ensures |old(schedule)| < at && ReadAt(read, at) && schedule == schedule[..at] + [LoopStep(Timer)]
      ensures active == read.mem.isActive && read.loop == Read(desired)
      ensures hist == read.hist && hist.readAt >= old(hist.stores)
      ensures hist.creates.spawned == old(hist.creates.spawned) && hist.deletes.spawned == old(hist.deletes.spawned)
    {
      hide Exec, Step, Init;
      desired := LoadReplicas();
      Yield();
      read, at := Abs(), |schedule|;
      active := CheckActive(desired);
      assert schedule[..at] + [LoopStep(Timer)] == schedule;
    }

    /** What an iteration that went on has done: in the state `read` it looked whether the pool was
        active. A paused pool, or one whose context was done by then, has started nothing since. Otherwise
        Scale was called for the count read, with the given plan, and has started what that says. */
    ghost predicate Iterated(read: State, at: nat, plan: Option<Plan>)
      reads this
    {
      && ReadAt(read, at) && at < |schedule| && read.loop.Read?
      && (!read.mem.isActive ==> plan.None? && schedule == schedule[..at] + [LoopStep(Timer)])
      && (read.mem.isActive ==> plan.Some? || ctxDone)
      && (plan.Some? ==> plan.value.desired == read.loop.desired)
      && hist.creates.spawned == read.hist.creates.spawned + (if plan.Some? then Ups(plan.value) else 0)
      && hist.deletes.spawned == read.hist.deletes.spawned + (if plan.Some? then Downs(plan.value) else 0)
    }

    /** One iteration of Run. Unless the loop exits, it has read the outcome of every store that was
        made before the iteration began, has called Scale if and only if the pool was active, and waits
        again. */
    method RunOnce(wake: Wake)
      returns (exited: bool, ghost checked: State, ghost at: nat, ghost read: State, ghost readAt: nat,
               ghost plan: Option<Plan>)
      requires Valid() && loop == Selecting
      requires match wake
        case Token => scaleTrigger
        case Timer => true
        case StopSignal => stopCh
        case ContextDone => ctxDone
      modifies this
      ensures Valid() && old(schedule) <= schedule
      ensures loop == if exited then Exited else Selecting
      ensures !exited ==> hist.readAt >= old(hist.stores)
      ensures exited <==> wake.StopSignal? || wake.ContextDone? || checked.mem.ctxDone || checked.mem.stopCh
      ensures wake.Token? || wake.Timer? ==> |old(schedule)| < at && ReadAt(checked, at) && checked.loop == Got
      ensures !exited ==> at < readAt && Iterated(read, readAt, plan)
    {
      hide Exec, Init, Step, WithinStaleBound;
      read, readAt, plan := Abs(), 0, None;
      exited, checked, at := Receive(wake);
      if exited {
        return;
      }
      ghost var before := schedule;
      Yield();
      var desired, active;
      desired, active, read, readAt := ReadReplicas();
      ghost var passed := schedule;
      if active {
        plan := CallScale(desired);
      }
      assert schedule[..at] == before[..at] && schedule[..readAt] == passed[..readAt];
    }

    method CallScale(desired: int) returns (ghost plan: Option<Plan>)
      requires Valid() && loop == Scaling(desired)
      modifies this
      ensures Valid() && old(schedule) < schedule && loop == Selecting
      ensures plan.Some? || ctxDone
      ensures plan.Some? ==> plan.value.desired == desired
      ensures hist.creates.spawned == old(hist.creates.spawned) + if plan.Some? then Ups(plan.value) else 0
      ensures hist.deletes.spawned == old(hist.deletes.spawned) + if plan.Some? then Downs(plan.value) else 0
      ensures hist.readAt == old(hist.readAt)
    {
      hide Exec, Init, Step, WithinStaleBound, NoLoop;
      Yield();
      var cancelled, size, effective, first, measuredAt := Scale(desired);
      plan := if cancelled then None else Some(Plan(desired, size, effective));
    }

    /** stringid.New: a name no lease has. */
    method NewName() returns (name: Name)
      ensures name !in hist.owner
    {
      ghost var another := FreshNumber(hist.owner.Keys);
      name :| name !in hist.owner;
    }

    /** A create goroutine whose next external call succeeds. cid matters in the step that takes it. */
    method CreateGoesOn(g: Gid, name: Name, cid: nat)
      requires Valid() && g in goroutines.creates
      requires match goroutines.creates[g]
        case Checked => name !in hist.owner
        case Leased(n) => n == name
        case Booting(n, c) => n == name && c == cid
        case Started(n, c) => n == name && c == cid
        case _ => false
      modifies this
      ensures Valid() && schedule == old(schedule) + [CreateStep(g, true, name, cid)]
      ensures g in goroutines.creates
      ensures match old(goroutines.creates[g])
        case Checked => goroutines.creates[g] == Leased(name) && hist.owner == old(hist.owner)[name := g]
        case Leased(_) => goroutines.creates[g] == Booting(name, cid) && hist.cidOf == old(hist.cidOf)[name := cid]
        case Booting(_, _) => goroutines.creates[g] == Started(name, cid) && hist.started == old(hist.started) + {name}
        case _ => goroutines.creates[g] == Inserted(name, cid) && machines == old(machines)[name := Machine(cid)]
    {
      ghost var before := Abs();
      var next;
      if goroutines.creates[g].Checked? {
        next := Leased(name);
        hist := hist.(owner := hist.owner[name := g]);
      } else if goroutines.creates[g].Leased? {
        next := Booting(name, cid);
        hist := hist.(cidOf := hist.cidOf[name := cid]);
      } else if goroutines.creates[g].Booting? {
        next := Started(name, cid);
        hist := hist.(started := hist.started + {name});
      } else {
        next := Inserted(name, cid);
        machines := machines[name := Machine(cid)];
        hist := hist.(inserted := hist.inserted + {name});
      }
      goroutines := goroutines.(creates := goroutines.creates[g := next]);
      Record(CreateStep(g, true, name, cid), before);
    }

    /** An external call fails while the lease is held: the deferred function cancels the lease. */
    method FailWithLease(g: Gid, name: Name, outside: Outside)
      requires Valid() && g in goroutines.creates
      requires goroutines.creates[g] == Leased(name) ||
               (goroutines.creates[g].Booting? && goroutines.creates[g].name == name)
      modifies this, outside
      ensures Valid() && old(schedule) <= schedule
      ensures g in goroutines.creates && goroutines.creates[g] == Returned(Failed)
      ensures name in hist.cancelled
      ensures Calls(old(outside.calls), outside.calls, outside.answers, [], Some(name))
    {
      hide Exec, Step, Init, Grows;
      StartFailing(g, name);
      YieldAs(Creator(g));
      var ok := outside.Call(CancelLease, Some(name));
      CancelOwnLease(g, name);
    }

    method StartFailing(g: Gid, name: Name)
      requires Valid() && g in goroutines.creates
      requires goroutines.creates[g] == Leased(name) ||
               (goroutines.creates[g].Booting? && goroutines.creates[g].name == name)
      modifies this
      ensures Valid() && schedule == old(schedule) + [CreateStep(g, false, name, 0)]
      ensures g in goroutines.creates && goroutines.creates[g] == Failing(name)
    {
      ghost var before := Abs();
      goroutines := goroutines.(creates := goroutines.creates[g := Failing(name)]);
      Record(CreateStep(g, false, name, 0), before);
    }

    method CancelOwnLease(g: Gid, name: Name)
      requires Valid() && g in goroutines.creates && goroutines.creates[g] == Failing(name)
      modifies this
      ensures Valid() && schedule == old(schedule) + [CreateStep(g, false, name, 0)]
      ensures g in goroutines.creates && goroutines.creates[g] == Returned(Failed)
      ensures hist == Cancel(old(hist), name)
    {
      ghost var before := Abs();
      goroutines := goroutines.(creates := goroutines.creates[g := Returned(Failed)]);
      hist := Cancel(hist, name);
      Record(CreateStep(g, false, name, 0), before);
    }

    /** cleanupWg.Add and the go statement that hand the lease and the map entry to a new goroutine. */
    method RegisterCleanup(g: Gid) returns (cleaner: Gid)
      requires Valid() && g in goroutines.creates && goroutines.creates[g].Inserted?
      modifies this
      ensures Valid() && schedule == old(schedule) + [CreateStep(g, true, 0, 0)]
      ensures g in goroutines.creates && goroutines.creates[g] == Returned(Succeeded)
      ensures cleaner !in old(goroutines.cleanups)
      ensures goroutines.cleanups ==
        old(goroutines.cleanups)[cleaner := Cleanup(old(goroutines.creates[g].name), Waiting)]
      ensures hist == old(hist).(owner := old(hist.owner)[old(goroutines.creates[g].name) := cleaner])
      ensures machines == old(machines)
    {
      ghost var before := Abs();
      GidFacts(initial, schedule);
      var name := goroutines.creates[g].name;
      cleaner := goroutines.nextGid;
      goroutines := goroutines.(creates := goroutines.creates[g := Returned(Succeeded)],
                                cleanups := goroutines.cleanups[cleaner := Cleanup(name, Waiting)],
                                nextGid := cleaner + 1);
      hist := hist.(owner := hist.owner[name := cleaner]);
      Record(CreateStep(g, true, 0, 0), before);
    }

    lemma GidFacts(replicas: int, run: seq<Action>)
      ensures var gs := Exec(Init(replicas), run).gs; gs.nextGid !in gs.creates && gs.nextGid !in gs.cleanups
    {
      Reachable(replicas, run);
    }

    lemma EntryFacts(replicas: int, run: seq<Action>, g: Gid)
      ensures var s := Exec(Init(replicas), run);
        g in s.gs.creates && s.gs.creates[g].Inserted? ==>
          var n := s.gs.creates[g].name;
          && n in s.hist.inserted
          && (if n in s.mem.machines then s.mem.machines[n] == Machine(s.gs.creates[g].cid) else n in s.hist.takenBy)
    {
      Reachable(replicas, run);
    }

    lemma LeaseFacts(replicas: int, run: seq<Action>, g: Gid)
      ensures var s := Exec(Init(replicas), run);
        g in s.gs.creates && HoldsLease(s.gs.creates[g]) ==>
          s.gs.creates[g].name in s.hist.owner && s.gs.creates[g].name !in s.hist.cancelled
    {
      Reachable(replicas, run);
    }

    /** The snapshot and the log file of a machine, before it gets its CID. */
    method PrepareMachine(g: Gid, name: Name, cid: nat, outside: Outside)
      returns (err: bool, ghost tried: seq<ExternalCall>)
      requires Valid() && g in goroutines.creates && goroutines.creates[g] == Leased(name)
      modifies this, outside
      ensures Valid() && old(schedule) <= schedule
      ensures g in goroutines.creates && goroutines.creates[g] == if err then Returned(Failed) else Booting(name, cid)
      ensures err ==> name in hist.cancelled
      ensures Attempted(tried, [CreateSnapshot, CreateLogFile], name, err)
      ensures Calls(old(outside.calls), outside.calls, outside.answers, tried, if err then Some(name) else None)
    {
      hide Exec, Step, Init, Attempted, Calls;
      err, tried := outside.Attempt([CreateSnapshot, CreateLogFile], name);
      if err {
        ghost var calls := outside.calls;
        FailWithLease(g, name, outside);
        CallsMore(old(outside.calls), calls, outside.calls, outside.answers, tried, [], Some(name));
        assert tried + [] == tried;
      } else {
        CreateGoesOn(g, name, cid);
      }
    }

    /** From the new VM to its cleanup goroutine. */
    method StartMachine(g: Gid, name: Name, cid: nat, known: bool, outside: Outside)
      returns (err: bool, cleaner: Gid, ghost tried: seq<ExternalCall>)
      requires Valid() && g in goroutines.creates && goroutines.creates[g] == Booting(name, cid)
      modifies this, outside
      ensures Valid() && old(schedule) <= schedule
      ensures g in goroutines.creates && goroutines.creates[g] == Returned(if err then Failed else Succeeded)
      ensures err ==> name in hist.cancelled
      ensures !err ==> HandedOver(name, cid, cleaner)
      ensures Attempted(tried, StartPlan(known), name, err)
      ensures Calls(old(outside.calls), outside.calls, outside.answers, tried, if err then Some(name) else None)
    {
      hide Exec, Step, Init, Attempted, Calls, Grows;
      cleaner := 0;
      err, tried := outside.Attempt(StartPlan(known), name);
      if err {
        ghost var calls := outside.calls;
        FailWithLease(g, name, outside);
        CallsMore(old(outside.calls), calls, outside.calls, outside.answers, tried, [], Some(name));
        assert tried + [] == tried;
      } else {
        CreateGoesOn(g, name, cid);
        YieldAs(Creator(g));
        cleaner := InsertMachine(g, name, cid);
      }
    }

    /** The part of createMachine that runs under the lease. */
    method BootMachine(g: Gid, name: Name, cid: nat, known: bool, outside: Outside)
      returns (err: bool, cleaner: Gid, ghost tried: seq<ExternalCall>)
      requires Valid() && g in goroutines.creates && goroutines.creates[g] == Leased(name)
      modifies this, outside
      ensures Valid() && old(schedule) <= schedule
      ensures g in goroutines.creates && goroutines.creates[g] == Returned(if err then Failed else Succeeded)
      ensures err ==> name in hist.cancelled
      ensures !err ==> HandedOver(name, cid, cleaner)
      ensures Attempted(tried, [CreateSnapshot, CreateLogFile] + StartPlan(known), name, err)
      ensures Calls(old(outside.calls), outside.calls, outside.answers, tried, if err then Some(name) else None)
    {
      hide Exec, Step, Init, Attempted, Calls, Grows;
      cleaner := 0;
      err, tried := PrepareMachine(g, name, cid, outside);
      if err {
        AttemptFailed(tried, [CreateSnapshot, CreateLogFile], StartPlan(known), name);
        return;
      }
      YieldAs(Creator(g));
      ghost var calls, more := outside.calls, [];
      err, cleaner, more := StartMachine(g, name, cid, known, outside);
      AttemptedMore(tried, more, [CreateSnapshot, CreateLogFile], StartPlan(known), name, err);
      CallsMore(old(outside.calls), calls, outside.calls, outside.answers, tried, more,
                if err then Some(name) else None);
      tried := tried + more;
    }

    /** The VM runs: its machine enters the map and gets its cleanup goroutine. */
    method InsertMachine(g: Gid, name: Name, cid: nat) returns (cleaner: Gid)
      requires Valid() && g in goroutines.creates && goroutines.creates[g] == Started(name, cid)
      modifies this
      ensures Valid() && old(schedule) <= schedule
      ensures g in goroutines.creates && goroutines.creates[g] == Returned(Succeeded)
      ensures HandedOver(name, cid, cleaner)
    {
      hide Exec, Step, Init, Grows;
      CreateGoesOn(g, name, cid);
      YieldAs(Creator(g));
      LeaseFacts(initial, schedule, g);
      EntryFacts(initial, schedule, g);
      cleaner := RegisterCleanup(g);
    }

    /** n was put in the map, with its CID, and is there unless a delete has taken it; its lease is not
        cancelled, and a waiting cleanup goroutine is answerable for both. */
    predicate HandedOver(n: Name, cid: nat, cleaner: Gid)
      reads this
    {
      && n in hist.inserted && (if n in machines then machines[n] == Machine(cid) else n in hist.takenBy)
      && n !in hist.cancelled
      && cleaner in goroutines.cleanups && goroutines.cleanups[cleaner] == Cleanup(n, Waiting)
      && n in hist.owner && hist.owner[n] == cleaner
    }

    /** Creates a machine under a fresh lease, failing if and only if an external call does: those made are
        the ones of the plan up to the first that fails. An error leaves no lease behind: it is cancelled,
        or was never taken. Success hands the lease and the map entry to the one cleanup goroutine it has
        started. */
    method CreateMachine(g: Gid, cid: nat, known: bool, outside: Outside)
      returns (err: bool, lease: Option<Name>, cleaner: Gid, ghost name: Name, ghost tried: seq<ExternalCall>)
      requires Valid() && g in goroutines.creates && goroutines.creates[g] == Checked
      modifies this, outside
      ensures Valid() && old(schedule) <= schedule
      ensures g in goroutines.creates && goroutines.creates[g] == Returned(if err then Failed else Succeeded)
      ensures lease == if err && |tried| <= 2 then None else Some(name)
      ensures lease.Some? ==> lease.value !in old(hist.owner)
      ensures err && lease.Some? ==> lease.value in hist.cancelled
      ensures !err ==> lease.Some? && HandedOver(lease.value, cid, cleaner)
      ensures Attempted(tried, CreatePlan(known), name, err)
      ensures Calls(old(outside.calls), outside.calls, outside.answers, tried, if err then lease else None)
    {
      hide Exec, Step, Init, Grows, Calls;
      var rest := [CreateSnapshot, CreateLogFile] + StartPlan(known);
      var runnerName := NewName();
      name, lease, cleaner := runnerName, None, 0;
      err, tried := outside.Attempt([EnsureImage, WithLease], runnerName);
      if err {
        AttemptFailed(tried, [EnsureImage, WithLease], rest, name);
        CreateFails(g);
        return;
      }
      lease := Some(runnerName);
      CreateGoesOn(g, runnerName, cid);
      YieldAs(Creator(g));
      ghost var more, calls := [], outside.calls;
      err, cleaner, more := BootMachine(g, runnerName, cid, known, outside);
      AttemptedMore(tried, more, [EnsureImage, WithLease], rest, name, err);
      CallsMore(old(outside.calls), calls, outside.calls, outside.answers, tried, more, if err then lease else None);
      tried := tried + more;
    }

    /** An external call fails before there is a lease. */
    method CreateFails(g: Gid)
      requires Valid() && g in goroutines.creates && goroutines.creates[g] == Checked
      modifies this
      ensures Valid() && schedule == old(schedule) + [CreateStep(g, false, 0, 0)]
      ensures g in goroutines.creates && goroutines.creates[g] == Returned(Failed)
    {
      ghost var before := Abs();
      goroutines := goroutines.(creates := goroutines.creates[g := Returned(Failed)]);
      Record(CreateStep(g, false, 0, 0), before);
    }

    /** The critical section of deleteMachine: some machine leaves the map. */
    method TakeMachine(g: Gid) returns (name: Name)
      requires Valid() && g in goroutines.deletes && goroutines.deletes[g] == DeleteChecked && machines != map[]
      modifies this
      ensures Valid() && schedule == old(schedule) + [DeleteStep(g, true, name)]
      ensures name in old(machines) && machines == old(machines) - {name}
      ensures g in goroutines.deletes && goroutines.deletes[g] == Took(name)
    {
      ghost var before := Abs();
      name :| name in machines;
      machines := machines - {name};
      goroutines := goroutines.(deletes := goroutines.deletes[g := Took(name)]);
      hist := hist.(takenBy := hist.takenBy[name := g]);
      Record(DeleteStep(g, true, name), before);
    }

    /** A delete goroutine has its outcome; the counter decrement is still due. */
    method DeleteReturns(g: Gid, err: bool)
      requires Valid() && g in goroutines.deletes
      requires goroutines.deletes[g].Took? || (goroutines.deletes[g].DeleteChecked? && machines == map[] && err)
      modifies this
      ensures Valid() && old(schedule) < schedule
      ensures g in goroutines.deletes && goroutines.deletes[g] == DeleteReturned(if err then Failed else Succeeded)
      ensures machines == old(machines) && hist == old(hist)
    {
      ghost var before := Abs();
      goroutines := goroutines.(deletes := goroutines.deletes[g := DeleteReturned(if err then Failed else Succeeded)]);
      Record(DeleteStep(g, !err, 0), before);
    }

    /** Removes some machine from the map before stopping it; fails if there is none, or if StopVMM of
        just that machine does. The machine it took is out of the map for good, and it alone has taken
        it. */
    method DeleteMachine(g: Gid, outside: Outside) returns (err: bool, target: Option<Name>)
      requires Valid() && g in goroutines.deletes && goroutines.deletes[g] == DeleteChecked
      modifies this, outside
      ensures Valid() && old(schedule) <= schedule
      ensures g in goroutines.deletes && goroutines.deletes[g] == DeleteReturned(if err then Failed else Succeeded)
      ensures target.None? <==> old(machines) == map[]
      ensures target.None? ==> err && outside.calls == old(outside.calls)
      ensures target.Some? ==>
        && target.value in old(machines) && target.value !in machines
        && target.value in hist.takenBy && hist.takenBy[target.value] == g
        && outside.calls == old(outside.calls) + [ExternalCall(StopVm, target, !err)]
        && err == !outside.answers(|old(outside.calls)|)
    {
      if machines == map[] {
        DeleteReturns(g, true);
        return true, None;
      }
      var name := TakeMachine(g);
      YieldAs(Deleter(g));
      TookFacts(initial, schedule, g);
      var ok := outside.Call(StopVm, Some(name));
      DeleteReturns(g, !ok);
      return !ok, Some(name);
    }

    /** The deferred decrement, and the end of a create goroutine. */
    method FinishCreate(g: Gid, outcome: Outcome)
      requires Valid() && g in goroutines.creates && goroutines.creates[g] == Returned(outcome)
      modifies this
      ensures Valid() && schedule == old(schedule) + [CreateStep(g, true, 0, 0)]
      ensures goroutines.creates == old(goroutines.creates) - {g} && pendingCreates == ToInt32(|goroutines.creates|)
      ensures hist == old(hist).(creates := Finish(old(hist.creates), outcome))
    {
      ghost var before := Abs();
      pendingCreates := ToInt32(pendingCreates - 1);
      goroutines := goroutines.(creates := goroutines.creates - {g});
      hist := hist.(creates := Finish(hist.creates, outcome));
      Record(CreateStep(g, true, 0, 0), before);
      CounterFacts(initial, schedule);
    }

    method FinishDelete(g: Gid, outcome: Outcome)
      requires Valid() && g in goroutines.deletes && goroutines.deletes[g] == DeleteReturned(outcome)
      modifies this
      ensures Valid() && schedule == old(schedule) + [DeleteStep(g, true, 0)]
      ensures goroutines.deletes == old(goroutines.deletes) - {g} && pendingDeletes == ToInt32(|goroutines.deletes|)
      ensures hist == old(hist).(deletes := Finish(old(hist.deletes), outcome))
    {
      ghost var before := Abs();
      pendingDeletes := ToInt32(pendingDeletes - 1);
      goroutines := goroutines.(deletes := goroutines.deletes - {g});
      hist := hist.(deletes := Finish(hist.deletes, outcome));
      Record(DeleteStep(g, true, 0), before);
      CounterFacts(initial, schedule);
    }

    lemma CounterFacts(replicas: int, run: seq<Action>)
      ensures var s := Exec(Init(replicas), run);
        s.mem.pendingCreates == ToInt32(|s.gs.creates|) && s.mem.pendingDeletes == ToInt32(|s.gs.deletes|)
    {
      Reachable(replicas, run);
    }

    /** The goroutine that scaleUp starts, from its context check to its end. */
    method RunCreate(g: Gid, cid: nat, known: bool, outside: Outside)
      returns (outcome: Outcome, ghost name: Name, ghost tried: seq<ExternalCall>)
      requires Valid() && g in goroutines.creates && goroutines.creates[g] == Spawned
      modifies this, outside
      ensures Valid() && old(schedule) <= schedule && g !in goroutines.creates
      ensures outcome == Skipped <==> old(ctxDone)
      ensures outcome == Skipped ==> outside.calls == old(outside.calls)
      ensures outcome != Skipped ==>
        && Attempted(tried, CreatePlan(known), name, outcome == Failed)
        && Calls(old(outside.calls), outside.calls, outside.answers, tried,
                 if outcome == Failed && |tried| > 2 then Some(name) else None)
      ensures pendingCreates == ToInt32(|goroutines.creates|)
    {
      hide Exec, Step, Init, Attempted, Calls, Grows;
      name, tried := 0, [];
      CheckCreate(g);
      if goroutines.creates[g].Checked? {
        YieldAs(Creator(g));
        var err, lease, cleaner;
        err, lease, cleaner, name, tried := CreateMachine(g, cid, known, outside);
        outcome := if err then Failed else Succeeded;
      } else {
        outcome := Skipped;
      }
      YieldAs(Creator(g));
      FinishCreate(g, outcome);
    }

    method CheckCreate(g: Gid)
      requires Valid() && g in goroutines.creates && goroutines.creates[g] == Spawned
      modifies this
      ensures Valid() && schedule == old(schedule) + [CreateStep(g, true, 0, 0)]
      ensures g in goroutines.creates && goroutines.creates[g] == if old(ctxDone) then Returned(Skipped) else Checked
    {
      ghost var before := Abs();
      goroutines := goroutines.(creates := goroutines.creates[g := if ctxDone then Returned(Skipped) else Checked]);
      Record(CreateStep(g, true, 0, 0), before);
    }

    /** The goroutine that scaleDown starts, from its context check to its end. */
    method RunDelete(g: Gid, outside: Outside) returns (outcome: Outcome, target: Option<Name>)
      requires Valid() && g in goroutines.deletes && goroutines.deletes[g] == DeleteSpawned
      modifies this, outside
      ensures Valid() && old(schedule) <= schedule && g !in goroutines.deletes
      ensures outcome == Skipped <==> old(ctxDone)
      ensures outside.calls == old(outside.calls) +
        if target.Some? then [ExternalCall(StopVm, target, outcome == Succeeded)] else []
      ensures outcome == Skipped ==> target.None?
      ensures outcome == Succeeded ==> target.Some? && target.value in hist.takenBy && hist.takenBy[target.value] == g
      ensures pendingDeletes == ToInt32(|goroutines.deletes|)
    {
      hide Exec, Step, Init;
      target := None;
      CheckDelete(g);
      if goroutines.deletes[g].DeleteChecked? {
        YieldAs(Deleter(g));
        var err;
        err, target := DeleteMachine(g, outside);
        outcome := if err then Failed else Succeeded;
      } else {
        outcome := Skipped;
      }
      YieldAs(Deleter(g));
      FinishDelete(g, outcome);
    }

    method CheckDelete(g: Gid)
      requires Valid() && g in goroutines.deletes && goroutines.deletes[g] == DeleteSpawned
      modifies this
      ensures Valid() && schedule == old(schedule) + [DeleteStep(g, true, 0)]
      ensures g in goroutines.deletes
      ensures goroutines.deletes[g] == if old(ctxDone) then DeleteReturned(Skipped) else DeleteChecked
    {
      ghost var before := Abs();
      var next := if ctxDone then DeleteReturned(Skipped) else DeleteChecked;
      goroutines := goroutines.(deletes := goroutines.deletes[g := next]);
      Record(DeleteStep(g, true, 0), before);
    }

    lemma TookFacts(replicas: int, run: seq<Action>, g: Gid)
      ensures var s := Exec(Init(replicas), run);
        g in s.gs.deletes && s.gs.deletes[g].Took? ==>
          var n := s.gs.deletes[g].name;
          n in s.hist.takenBy && s.hist.takenBy[n] == g && n !in s.mem.machines
    {
      Reachable(replicas, run);
    }

    lemma CleanupFacts(replicas: int, run: seq<Action>, g: Gid)
      ensures var s := Exec(Init(replicas), run);
        g in s.gs.cleanups ==>
          var k := s.gs.cleanups[g];
          && (CleanupHoldsLease(k) <==> k.name !in s.hist.cancelled)
          && (!BeforeUnmap(k) ==> k.name !in s.mem.machines)
    {
      Reachable(replicas, run);
    }

    /** Unmaps the machine if it is still in the map. */
    method Unmap(g: Gid)
      requires Valid() && g in goroutines.cleanups && goroutines.cleanups[g].phase == Woken
      modifies this
      ensures Valid() && schedule == old(schedule) + [CleanupStep(g, false)]
      ensures g in goroutines.cleanups && goroutines.cleanups[g] == Cleanup(old(goroutines.cleanups[g].name), Unmapped)
      ensures machines == old(machines) - {old(goroutines.cleanups[g].name)}
    {
      ghost var before := Abs();
      var name := goroutines.cleanups[g].name;
      if name in machines {
        machines := machines - {name};
        hist := hist.(unmapped := hist.unmapped + {name});
      }
      assert machines == before.mem.machines - {name};
      goroutines := goroutines.(cleanups := goroutines.cleanups[g := Cleanup(name, Unmapped)]);
      Record(CleanupStep(g, false), before);
    }

    /** A runner that was never registered is not removed. */
    method DeleteGitHubRunner(g: Gid, registered: bool, outside: Outside)
      requires Valid() && g in goroutines.cleanups && goroutines.cleanups[g].phase == Unmapped
      modifies this, outside
      ensures outside.calls == old(outside.calls) +
        Removing(if registered then Some(old(goroutines.cleanups[g].name)) else None,
                 outside.answers(|old(outside.calls)|))
      ensures Valid() && schedule == old(schedule) + [CleanupStep(g, false)]
      ensures g in goroutines.cleanups
      ensures goroutines.cleanups[g] == Cleanup(old(goroutines.cleanups[g].name), RunnerGone)
    {
      if registered {
        var ok := outside.Call(RemoveRunner, Some(goroutines.cleanups[g].name));
      }
      ghost var before := Abs();
      goroutines := goroutines.(cleanups := goroutines.cleanups[g := Cleanup(goroutines.cleanups[g].name, RunnerGone)]);
      Record(CleanupStep(g, false), before);
    }

    method CancelLeaseOf(g: Gid, outside: Outside)
      requires Valid() && g in goroutines.cleanups && goroutines.cleanups[g].phase == RunnerGone
      modifies this, outside
      ensures outside.calls == old(outside.calls) +
        Canceling(Some(old(goroutines.cleanups[g].name)), outside.answers(|old(outside.calls)|))
      ensures Valid() && schedule == old(schedule) + [CleanupStep(g, false)]
      ensures g in goroutines.cleanups && goroutines.cleanups[g] == Cleanup(old(goroutines.cleanups[g].name), LeaseGone)
      ensures hist == Cancel(old(hist), old(goroutines.cleanups[g].name))
    {
      ghost var before := Abs();
      var name := goroutines.cleanups[g].name;
      var ok := outside.Call(CancelLease, Some(name));
      goroutines := goroutines.(cleanups := goroutines.cleanups[g := Cleanup(name, LeaseGone)]);
      hist := Cancel(hist, name);
      Record(CleanupStep(g, false), before);
    }

    /** What the cleanup goroutine does once its wait is over: the entry leaves the map if a delete
        has not taken it, the runner is removed from GitHub, and the lease, not cancelled by anyone before, is
        cancelled, whether or not removing the runner failed. */
    method CleanUp(g: Gid, registered: bool, outside: Outside) returns (name: Name, ghost beforeCancel: set<Name>)
      requires Valid() && g in goroutines.cleanups && goroutines.cleanups[g].phase == Woken
      modifies this, outside
      ensures Valid() && old(schedule) <= schedule
      ensures name == old(goroutines.cleanups[g].name)
      ensures g in goroutines.cleanups && goroutines.cleanups[g] == Cleanup(name, LeaseGone)
      ensures name !in machines
      ensures CleanedUp(old(outside.calls), outside.calls, outside.answers, name, registered)
      ensures name !in beforeCancel && hist.cancelled == beforeCancel + {name}
    {
      hide Exec, Step, Init, Grows, CleanedUp, Removing, Canceling;
      name := goroutines.cleanups[g].name;
      Unmap(g);
      YieldAs(Cleaner(g));
      DeleteGitHubRunner(g, registered, outside);
      ghost var calls := outside.calls;
      YieldAs(Cleaner(g));
      CleanupFacts(initial, schedule, g);
      beforeCancel := hist.cancelled;
      CancelLeaseOf(g, outside);
      CleanedUpBy(old(outside.calls), calls, outside.calls, outside.answers, name, registered);
      CleanupFacts(initial, schedule, g);
    }

    /** The wait of the cleanup goroutine. At the moment of the state `seen` it is over if the VM has
        exited, or, by the time limit, if the pool is stopping; otherwise it goes on. */
    method AwaitExit(g: Gid) returns (woken: bool, ghost seen: State, ghost at: nat)
      requires Valid() && g in goroutines.cleanups && goroutines.cleanups[g].phase == Waiting
      modifies this
      ensures Valid() && old(schedule) <= schedule && |old(schedule)| <= at && ReadAt(seen, at)
      ensures woken <==> old(goroutines.cleanups[g].name) in seen.hist.exited || seen.mem.ctxDone
      ensures g in goroutines.cleanups
      ensures goroutines.cleanups[g] == Cleanup(old(goroutines.cleanups[g].name), if woken then Woken else Waiting)
    {
      hide Exec, Init, Grows;
      YieldAs(Cleaner(g));
      var name := goroutines.cleanups[g].name;
      seen, at := Abs(), |schedule|;
      ghost var before := schedule;
      woken := name in hist.exited || ctxDone;
      if woken {
        goroutines := goroutines.(cleanups := goroutines.cleanups[g := Cleanup(name, Woken)]);
        Record(CleanupStep(g, name !in hist.exited), seen);
      }
      assert schedule[..at] == before;
    }

    /** cleanupWg.Done and the end of the cleanup goroutine. */
    method FinishCleanup(g: Gid)
      requires Valid() && g in goroutines.cleanups && goroutines.cleanups[g].phase == LeaseGone
      modifies this
      ensures Valid() && schedule == old(schedule) + [CleanupStep(g, false)]
      ensures goroutines.cleanups == old(goroutines.cleanups) - {g} && hist == old(hist) && machines == old(machines)
    {
      ghost var before := Abs();
      goroutines := goroutines.(cleanups := goroutines.cleanups - {g});
      Record(CleanupStep(g, false), before);
    }

    /** The cleanup goroutine, from one look of its wait on. Nothing is done before the VM has exited or the
        pool is stopping; after that the entry, the runner and the lease go, and the goroutine ends. */
    method RunCleanup(g: Gid, registered: bool, outside: Outside)
      returns (woken: bool, name: Name, ghost seen: State, ghost at: nat)
      requires Valid() && g in goroutines.cleanups && goroutines.cleanups[g].phase == Waiting
      modifies this, outside
      ensures Valid() && old(schedule) <= schedule
      ensures name == old(goroutines.cleanups[g].name)
      ensures |old(schedule)| <= at && ReadAt(seen, at) && (woken <==> name in seen.hist.exited || seen.mem.ctxDone)
      ensures !woken ==>
        && g in goroutines.cleanups && goroutines.cleanups[g] == Cleanup(name, Waiting)
        && outside.calls == old(outside.calls)
      ensures woken ==> g !in goroutines.cleanups && name !in machines && name in hist.cancelled
      ensures woken ==> CleanedUp(old(outside.calls), outside.calls, outside.answers, name, registered)
    {
      hide Exec, Step, Init, CleanedUp, Grows;
      name := goroutines.cleanups[g].name;
      woken, seen, at := AwaitExit(g);
      ghost var before := schedule;
      if woken {
        YieldAs(Cleaner(g));
        ghost var beforeCancel;
        name, beforeCancel := CleanUp(g, registered, outside);
        YieldAs(Cleaner(g));
        CleanupFacts(initial, schedule, g);
        FinishCleanup(g);
      }
      assert schedule[..at] == before[..at];
    }

    /** One step of Stop that has nothing to wait for. */
    method StopGoesOn()
      requires Valid() && (goroutines.stop.NotStopped? || goroutines.stop.Cancelled? || goroutines.stop.LoopAwaited?)
      modifies this
      ensures Valid() && schedule == old(schedule) + [StopStep(false)]
      ensures goroutines == old(goroutines).(stop := goroutines.stop)
      ensures match old(goroutines.stop)
        case NotStopped => goroutines.stop == Cancelled && ctxDone
        case Cancelled => goroutines.stop == Signalled && stopCh && ctxDone == old(ctxDone)
        case _ => goroutines.stop == Draining(old(machines).Keys, false) && ctxDone == old(ctxDone)
    {
      ghost var before := Abs();
      if goroutines.stop.NotStopped? {
        ctxDone := true;
        goroutines := goroutines.(stop := Cancelled);
      } else if goroutines.stop.Cancelled? {
        stopCh := true;
        goroutines := goroutines.(stop := Signalled);
      } else {
        goroutines := goroutines.(stop := Draining(machines.Keys, false));
      }
      Record(StopStep(false), before);
    }

    /** Waits, for a time, until the loop has exited; the time is up if and only if it has not. */
    method AwaitLoop()
      requires Valid() && goroutines.stop == Signalled
      modifies this
      ensures Valid() && old(schedule) < schedule && goroutines.stop == LoopAwaited
      ensures old(ctxDone) ==> ctxDone
      ensures schedule[|schedule| - 1] == StopStep(!loop.Exited?)
    {
      YieldAs(TheStopper);
      ghost var before := Abs();
      ghost var timeout := !loop.Exited?;
      goroutines := goroutines.(stop := LoopAwaited);
      Record(StopStep(timeout), before);
    }

    /** Waits, for a time, until the cleanup WaitGroup is at zero. It ends in the state `last`, which the
        schedule passed through, and cleanly if and only if the WaitGroup is at zero there. */
    method AwaitCleanups() returns (clean: bool, ghost last: State, ghost at: nat)
      requires Valid() && goroutines.stop.Draining? && !goroutines.stop.zeroSeen && ctxDone
      modifies this
      ensures Valid() && old(schedule) <= schedule && ctxDone && goroutines.stop == StopReturned(clean)
      ensures at >= |old(schedule)| && ReadAt(last, at) && last.mem.ctxDone
      ensures clean <==> last.gs.cleanups == map[]
    {
      YieldAs(TheStopper);
      ghost var before := Abs();
      clean, last, at := goroutines.cleanups == map[], before, |schedule|;
      if !clean {
        goroutines := goroutines.(stop := StopReturned(false));
        Record(StopStep(true), before);
        assert schedule[..at] + [StopStep(true)] == schedule;
        return;
      }
      ghost var passed := schedule;
      goroutines := goroutines.(stop := Draining(goroutines.stop.stopped, true));
      Record(StopStep(false), before);
      YieldAs(TheStopper);
      before := Abs();
      goroutines := goroutines.(stop := StopReturned(true));
      Record(StopStep(false), before);
      assert schedule[..at] == passed;
    }

    /** The loop over the machines that Stop has seen: StopVMM is called for each of them once, whether or
        not it fails for others. */
    method StopMachines(names: set<Name>, outside: Outside) returns (ghost calls: seq<ExternalCall>)
      requires Valid() && goroutines.stop == Draining(names, false)
      modifies this, outside
      ensures Valid() && old(schedule) <= schedule && goroutines.stop == old(goroutines.stop)
      ensures old(ctxDone) ==> ctxDone
      ensures outside.calls == old(outside.calls) + calls && StopsEach(calls, names)
    {
      hide Exec, Step, Init, StopsEach;
      calls := [];
      var rest := names;
      assert names - rest == {} && StopsEach(calls, {}) by { NoStops(); }
      while rest != {}
        invariant Valid() && old(schedule) <= schedule && goroutines.stop == old(goroutines.stop)
        invariant old(ctxDone) ==> ctxDone
        invariant rest <= names && outside.calls == old(outside.calls) + calls && StopsEach(calls, names - rest)
        decreases |rest|
      {
        var name :| name in rest;
        var ok := outside.Call(StopVm, Some(name));
        OneMoreStop(calls, names - rest, name, ok);
        assert names - rest + {name} == names - (rest - {name});
        rest, calls := rest - {name}, calls + [ExternalCall(StopVm, Some(name), ok)];
        YieldAs(TheStopper);
      }
      assert names - rest == names;
    }

    /** Stop cancels the context before anything else, calls StopVMM once for each of exactly the
        machines that are in the map in the state `seen`, and ends its wait in the state `last`,
        cleanly if and only if no cleanup goroutine is alive there. What may be left over then is the
        business of WaitGroupZero and StopMayReturnEarly. */
    method Stop(outside: Outside)
      returns (clean: bool, ghost seen: State, ghost seenAt: nat, ghost calls: seq<ExternalCall>,
               ghost last: State, ghost at: nat)
      requires Valid() && goroutines.stop == NotStopped
      modifies this, outside
      ensures Valid() && old(schedule) + [StopStep(false)] <= schedule
      ensures ctxDone && goroutines.stop == StopReturned(clean)
      ensures seenAt > |old(schedule)| && ReadAt(seen, seenAt)
      ensures outside.calls == old(outside.calls) + calls && StopsEach(calls, seen.mem.machines.Keys)
      ensures at > seenAt && ReadAt(last, at) && last.mem.ctxDone && (clean <==> last.gs.cleanups == map[])
    {
      hide Exec, Step, Init, StopsEach;
      StopGoesOn();
      YieldAs(TheStopper);
      StopGoesOn();
      AwaitLoop();
      YieldAs(TheStopper);
      seen, seenAt := Abs(), |schedule|;
      ghost var before := schedule;
      assert before[..seenAt] == before;
      StopGoesOn();
      calls := StopMachines(goroutines.stop.stopped, outside);
      clean, last, at := AwaitCleanups();
      assert schedule[..seenAt] == before;
    }

    /** The three reads of Scale in this run are those of AfterReads. */
    lemma ReadsTaken(atFirst: seq<Action>, others1: seq<Action>, others2: seq<Action>, first: State, end: State)
      requires first == Exec(Init(initial), atFirst) && first.loop.Sizing?
      requires NoLoop(others1) && NoLoop(others2)
      requires end == Exec(Init(initial),
        atFirst + [LoopStep(Timer)] + others1 + [LoopStep(Timer)] + others2 + [LoopStep(Timer)])
      ensures end == AfterReads(first, others1, others2)
      ensures end.loop.Spawning?
      ensures |first.gs.creates| < TWO_31 && |first.gs.deletes| < TWO_31 ==>
        WithinStaleBound(first, end.loop.plan.effective)
    {
      var s := Init(initial);
      ExecStep(s, atFirst, LoopStep(Timer));
      ExecAppend(s, atFirst + [LoopStep(Timer)], others1);
      ExecStep(s, atFirst + [LoopStep(Timer)] + others1, LoopStep(Timer));
      ExecAppend(s, atFirst + [LoopStep(Timer)] + others1 + [LoopStep(Timer)], others2);
      ExecStep(s, atFirst + [LoopStep(Timer)] + others1 + [LoopStep(Timer)] + others2, LoopStep(Timer));
      ReadsAre(first, others1, others2);
      if |first.gs.creates| < TWO_31 && |first.gs.deletes| < TWO_31 {
        StaleReadBound(initial, atFirst, others1, others2);
      }
    }
  }
}
