/** Safety of the pool over all schedules: counters, leases, map entries, shutdown, scale requests. */
module PoolTheorems {
  import opened Int32
  import opened Counting
  import opened PoolMachine
  import opened PoolInvariants
  import opened PoolScaling

  // ----- Counters

  lemma FitsInt32(n: nat)
    ensures ToInt32(n) == n <==> n < TWO_31
  {
    ToInt32Congruent(n);
  }

  /** The pending counters are the numbers of live goroutines exactly as long as those fit an int32,
      and every goroutine ever spawned succeeded, failed, was skipped or is alive. */
  lemma CounterExactness(replicas: int, schedule: seq<Action>)
    ensures var s := Exec(Init(replicas), schedule);
      && (s.mem.pendingCreates == |s.gs.creates| <==> |s.gs.creates| < TWO_31)
      && (s.mem.pendingDeletes == |s.gs.deletes| <==> |s.gs.deletes| < TWO_31)
      && s.hist.creates.spawned ==
           s.hist.creates.succeeded + s.hist.creates.failed + s.hist.creates.skipped + |s.gs.creates|
      && s.hist.deletes.spawned ==
           s.hist.deletes.succeeded + s.hist.deletes.failed + s.hist.deletes.skipped + |s.gs.deletes|
  {
    Reachable(replicas, schedule);
    var s := Exec(Init(replicas), schedule);
    FitsInt32(|s.gs.creates|);
    FitsInt32(|s.gs.deletes|);
  }

  // ----- Leases

  ghost predicate SomeoneHolds(s: State, n: Name) {
    exists g :: Holds(s.gs.creates, s.gs.cleanups, g, n)
  }

  /** Leases acquired = leases cancelled + leases held by creates + leases held by cleanups, and no
      cancel function is called twice. */
  lemma LeaseConservation(replicas: int, schedule: seq<Action>)
    ensures var s := Exec(Init(replicas), schedule);
      && |s.hist.owner| ==
           s.hist.cancelCalls + Count(s.gs.creates, HoldsLease) + Count(s.gs.cleanups, CleanupHoldsLease)
      && s.hist.cancelCalls == |s.hist.cancelled|
      && s.hist.cancelled <= s.hist.owner.Keys
  {
    Reachable(replicas, schedule);
  }

  lemma OneHolder(cs: Creates, ks: Cleanups, owner: map<Name, Gid>, cancelled: set<Name>, n: Name, g: Gid, h: Gid)
    requires LeasesOwned(cs, ks, owner, cancelled) && Holds(cs, ks, g, n) && Holds(cs, ks, h, n)
    ensures g == h && n !in cancelled
  {
  }

  /** A lease is either cancelled or held, and no two goroutines hold the same one. */
  lemma LeaseHeldOnce(replicas: int, schedule: seq<Action>, n: Name)
    ensures var s := Exec(Init(replicas), schedule);
      && (n in s.hist.owner ==> (n in s.hist.cancelled <==> !SomeoneHolds(s, n)))
      && (forall g, h | Holds(s.gs.creates, s.gs.cleanups, g, n) && Holds(s.gs.creates, s.gs.cleanups, h, n) :: g == h)
      && s.gs.creates.Keys !! s.gs.cleanups.Keys
  {
    Reachable(replicas, schedule);
    var s := Exec(Init(replicas), schedule);
    if n in s.hist.owner && n !in s.hist.cancelled {
      assert Holds(s.gs.creates, s.gs.cleanups, s.hist.owner[n], n);
    }
    forall g, h | Holds(s.gs.creates, s.gs.cleanups, g, n) && Holds(s.gs.creates, s.gs.cleanups, h, n)
      ensures g == h && n !in s.hist.cancelled
    {
      OneHolder(s.gs.creates, s.gs.cleanups, s.hist.owner, s.hist.cancelled, n, g, h);
    }
  }

  /** While the pool is not stopping, a lease is cancelled only if its VM never started or has exited. */
  lemma LeaseOutlivesVm(replicas: int, schedule: seq<Action>, n: Name)
    ensures var s := Exec(Init(replicas), schedule);
      !s.mem.ctxDone && n in s.hist.cancelled ==> n !in s.hist.started || n in s.hist.exited
  {
    Reachable(replicas, schedule);
  }

  // ----- Map entries

  predicate Owns(s: State, g: Gid, n: Name) {
    OwnsEntry(s.gs.creates, s.gs.cleanups, g, n)
  }

  lemma EntrySizes(s: State)
    requires Inv(s)
    ensures |s.mem.machines| == |s.hist.inserted| - |s.hist.takenBy| - |s.hist.unmapped|
  {
    hide Leases, EntriesOwned, TakesOwned, CidsRecorded, UnmapsOwned, Counts, LeaseBook, Control;
    assert |s.mem.machines| == |s.mem.machines.Keys| && |s.hist.takenBy| == |s.hist.takenBy.Keys|;
  }

  lemma OwnerOf(s: State, n: Name) returns (g: Gid)
    requires Inv(s) && n in s.mem.machines
    ensures Owns(s, g, n)
  {
    hide VmsTracked, TakesOwned, UnmapsOwned, Counts, LeaseBook, Control;
    g := s.hist.owner[n];
    assert OwnsEntry(s.gs.creates, s.gs.cleanups, s.hist.owner[n], n);
  }

  lemma OneOwner(s: State, g: Gid, h: Gid, n: Name)
    requires Inv(s) && Owns(s, g, n) && Owns(s, h, n)
    ensures g == h
  {
    hide VmsTracked, Entries, Counts, LeaseBook, Control;
    OneHolder(s.gs.creates, s.gs.cleanups, s.hist.owner, s.hist.cancelled, n, g, h);
  }

  /** Every entry of the map has exactly one live owner, and the size of the map is what was
      inserted less what deletes took and cleanups unmapped. */
  lemma EntryOwnership(replicas: int, schedule: seq<Action>)
    ensures var s := Exec(Init(replicas), schedule);
      && |s.mem.machines| == |s.hist.inserted| - |s.hist.takenBy| - |s.hist.unmapped|
      && (forall n | n in s.mem.machines :: exists g :: Owns(s, g, n))
      && (forall n, g, h | Owns(s, g, n) && Owns(s, h, n) :: g == h)
  {
    hide Exec, Inv;
    Reachable(replicas, schedule);
    var s := Exec(Init(replicas), schedule);
    EntrySizes(s);
    forall n | n in s.mem.machines ensures exists g :: Owns(s, g, n) {
      var g := OwnerOf(s, n);
    }
    forall n, g, h | Owns(s, g, n) && Owns(s, h, n) ensures g == h {
      OneOwner(s, g, h, n);
    }
  }

  /** Nothing that has happened is undone: removals from the map, cancels, exits and shutdown last. */
  ghost predicate Grows(s: State, t: State) {
    && (forall n | n in s.hist.takenBy :: n in t.hist.takenBy && t.hist.takenBy[n] == s.hist.takenBy[n])
    && s.hist.unmapped <= t.hist.unmapped
    && s.hist.inserted <= t.hist.inserted
    && s.hist.cancelled <= t.hist.cancelled
    && (s.mem.ctxDone ==> t.mem.ctxDone)
  }

  lemma CreateGrows(s: State, g: Gid, ok: bool, name: Name, cid: nat)
    ensures var t := CreateNext(s, g, ok, name, cid);
      && t.hist.takenBy == s.hist.takenBy && t.hist.unmapped == s.hist.unmapped && t.mem.ctxDone == s.mem.ctxDone
      && s.hist.inserted <= t.hist.inserted && s.hist.cancelled <= t.hist.cancelled
  {
  }

  lemma DeleteGrows(s: State, g: Gid, ok: bool, name: Name)
    requires s.mem.machines.Keys !! s.hist.takenBy.Keys
    ensures Grows(s, DeleteNext(s, g, ok, name))
  {
    DeleteFrame(s, g, ok, name);
  }

  lemma StepGrows(s: State, a: Action)
    requires s.mem.machines.Keys !! s.hist.takenBy.Keys
    ensures Grows(s, Step(s, a))
  {
    match a
    case LoopStep(wake) =>
      if !s.loop.Spawning? { LoopFrame(s, wake); }
    case CreateStep(g, ok, name, cid) => CreateGrows(s, g, ok, name, cid);
    case DeleteStep(g, ok, name) => DeleteGrows(s, g, ok, name);
    case CleanupStep(g, timeout) => CleanupFrame(s, g, timeout);
    case _ =>
  }

  lemma {:induction false} RunGrows(s: State, schedule: seq<Action>)
    requires Inv(s)
    ensures Grows(s, Exec(s, schedule))
    decreases |schedule|
  {
    if schedule != [] {
      var n := |schedule| - 1;
      RunGrows(s, schedule[..n]);
      RunKeeps(s, schedule[..n]);
      StepGrows(Exec(s, schedule[..n]), schedule[n]);
    }
  }

  /** An entry that has left the map never comes back. */
  lemma NeverReappears(replicas: int, before: seq<Action>, after: seq<Action>, n: Name)
    requires var s := Exec(Init(replicas), before); n in s.hist.inserted && n !in s.mem.machines
    ensures n !in Exec(Exec(Init(replicas), before), after).mem.machines
  {
    var s := Exec(Init(replicas), before);
    Reachable(replicas, before);
    RunKeeps(s, after);
    RunGrows(s, after);
  }

  /** No two delete goroutines take the same machine, however far apart they run. */
  lemma TakenOnce(replicas: int, before: seq<Action>, after: seq<Action>, n: Name, g: Gid, h: Gid)
    requires var s := Exec(Init(replicas), before); g in s.gs.deletes && s.gs.deletes[g] == Took(n)
    requires var t := Exec(Exec(Init(replicas), before), after); h in t.gs.deletes && t.gs.deletes[h] == Took(n)
    ensures g == h
  {
    var s := Exec(Init(replicas), before);
    Reachable(replicas, before);
    RunKeeps(s, after);
    RunGrows(s, after);
  }

  // ----- Shutdown

  /** A create that has passed its context check and may still insert a machine. */
  predicate MayInsert(c: Create) {
    c.Checked? || c.Leased? || c.Booting? || c.Started?
  }

  lemma CreateInsertBudget(s: State, g: Gid, ok: bool, name: Name, cid: nat)
    requires s.mem.ctxDone
    ensures var t := CreateNext(s, g, ok, name, cid);
      |t.hist.inserted| + Count(t.gs.creates, MayInsert) <= |s.hist.inserted| + Count(s.gs.creates, MayInsert)
  {
    if g in s.gs.creates {
      var t := CreateNext(s, g, ok, name, cid);
      if s.gs.creates[g].Returned? {
        CountRemove(s.gs.creates, MayInsert, g);
      } else {
        CountUpdate(s.gs.creates, MayInsert, g, t.gs.creates[g]);
        assert t.gs.creates == s.gs.creates[g := t.gs.creates[g]];
      }
    }
  }

  lemma InsertBudget(s: State, a: Action)
    requires s.mem.ctxDone && GidsFresh(s.gs)
    ensures var t := Step(s, a);
      |t.hist.inserted| + Count(t.gs.creates, MayInsert) <= |s.hist.inserted| + Count(s.gs.creates, MayInsert)
  {
    match a
    case CreateStep(g, ok, name, cid) => CreateInsertBudget(s, g, ok, name, cid);
    case LoopStep(wake) =>
      if s.loop.Spawning? {
        CountAdd(s.gs.creates, MayInsert, s.gs.nextGid, Spawned);
      } else {
        LoopFrame(s, wake);
      }
    case DeleteStep(g, ok, name) => DeleteFrame(s, g, ok, name);
    case CleanupStep(g, timeout) => CleanupFrame(s, g, timeout);
    case _ =>
  }

  lemma {:induction false} InsertBudgetOverRun(s: State, schedule: seq<Action>)
    requires Inv(s) && s.mem.ctxDone
    ensures var t := Exec(s, schedule);
      |t.hist.inserted| + Count(t.gs.creates, MayInsert) <= |s.hist.inserted| + Count(s.gs.creates, MayInsert)
    decreases |schedule|
  {
    if schedule != [] {
      var n := |schedule| - 1;
      InsertBudgetOverRun(s, schedule[..n]);
      RunKeeps(s, schedule[..n]);
      RunGrows(s, schedule[..n]);
      InsertBudget(Exec(s, schedule[..n]), schedule[n]);
    }
  }

  /** From the moment the context is cancelled, at most as many machines are inserted as creates had
      already passed their context check. */
  lemma InsertsAfterCancel(replicas: int, before: seq<Action>, after: seq<Action>)
    requires Exec(Init(replicas), before).mem.ctxDone
    ensures var s := Exec(Init(replicas), before);
      |Exec(s, after).hist.inserted| - |s.hist.inserted| <= Count(s.gs.creates, MayInsert)
  {
    Reachable(replicas, before);
    InsertBudgetOverRun(Exec(Init(replicas), before), after);
  }

  ghost predicate BeforeInsert(s: State, n: Name) {
    exists g :: g in s.gs.creates && s.gs.creates[g].Started? && s.gs.creates[g].name == n
  }

  ghost predicate BeforeRegister(s: State, n: Name) {
    exists g :: g in s.gs.creates && s.gs.creates[g].Inserted? && s.gs.creates[g].name == n
  }

  /** When the cleanup WaitGroup is at zero, every entry left in the map belongs to a create between
      its insert and its cleanupWg.Add, and the leases of started machines that are not cancelled are
      exactly those of creates between their start and their cleanupWg.Add. */
  lemma WaitGroupZero(replicas: int, schedule: seq<Action>, n: Name)
    requires Exec(Init(replicas), schedule).gs.cleanups == map[]
    ensures var s := Exec(Init(replicas), schedule);
      && (n in s.mem.machines ==> BeforeRegister(s, n))
      && (n in s.hist.started && n !in s.hist.cancelled <==> BeforeInsert(s, n) || BeforeRegister(s, n))
  {
    hide Exec, Counts, LeaseBook, Control, CidsRecorded, TakesOwned, UnmapsOwned;
    Reachable(replicas, schedule);
    var s := Exec(Init(replicas), schedule);
    if n in s.mem.machines {
      assert OwnsEntry(s.gs.creates, s.gs.cleanups, s.hist.owner[n], n);
    }
    if n in s.hist.started && n !in s.hist.cancelled {
      assert Holds(s.gs.creates, s.gs.cleanups, s.hist.owner[n], n);
    }
  }

  // ----- Scale requests

  /** If the loop waits with no token and no caller is between its store and its trigger, then the
      loop has read the stored replica count. */
  lemma NoRequestLost(replicas: int, schedule: seq<Action>)
    ensures var s := Exec(Init(replicas), schedule);
      && RequestNotLost(s)
      && (s.loop.Selecting? && !s.mem.scaleTrigger && s.gs.callers == {} ==> s.hist.lastRead == s.mem.replicas)
  {
    Reachable(replicas, schedule);
  }

  lemma {:induction false} TokenStays(s: State, schedule: seq<Action>)
    requires NoLoop(schedule) && s.mem.scaleTrigger
    ensures Exec(s, schedule).mem.scaleTrigger
    decreases |schedule|
  {
    hide Step;
    if schedule != [] {
      var n := |schedule| - 1;
      TokenStays(s, schedule[..n]);
      StepKeepsToken(Exec(s, schedule[..n]), schedule[n]);
    }
  }

  lemma StepKeepsToken(s: State, a: Action)
    requires !a.LoopStep? && s.mem.scaleTrigger
    ensures Step(s, a).mem.scaleTrigger
  {
    hide ToInt32;
    match a
    case CreateStep(g, ok, name, cid) => CreateControlFrame(s, g, ok, name, cid);
    case DeleteStep(g, ok, name) => DeleteFrame(s, g, ok, name);
    case CleanupStep(g, timeout) => CleanupFrame(s, g, timeout);
    case _ =>
  }

  /** The loop waits and a token is there. Others run; the loop takes the token; others run; the loop
      checks whether to stop; others run; the loop moves on. If it is not to stop at that check, it then
      has the value stored last of all, at whatever moment. */
  lemma TokenIsServed(s: State, waiting: seq<Action>, first: seq<Action>, second: seq<Action>)
    requires s.loop.Selecting? && s.mem.scaleTrigger && NoLoop(waiting) && NoLoop(first) && NoLoop(second)
    ensures var got := Step(Exec(s, waiting), LoopStep(Token));
      var checked := Exec(got, first);
      var ready := Exec(Go(checked), second);
      var t := Go(ready);
      && got.loop == Got && !got.mem.scaleTrigger
      && (checked.mem.ctxDone || checked.mem.stopCh ==> t.loop == Exited)
      && (!checked.mem.ctxDone && !checked.mem.stopCh ==>
            && t.loop == Read(ready.mem.replicas) && t.hist.lastRead == ready.mem.replicas
            && t.hist.readAt == ready.hist.stores >= s.hist.stores)
  {
    hide Exec;
    var took := Exec(s, waiting);
    OthersShrink(s, waiting);
    TokenStays(s, waiting);
    var got := Step(took, LoopStep(Token));
    OthersShrink(got, first);
    OthersShrink(Go(Exec(got, first)), second);
  }

  /** One more action of a run from the initial state. */
  lemma Then(replicas: int, schedule: seq<Action>, s: State, a: Action) returns (longer: seq<Action>, t: State)
    requires s == Exec(Init(replicas), schedule)
    ensures t == Exec(Init(replicas), longer) == Step(s, a)
  {
    longer, t := schedule + [a], Step(s, a);
    ExecStep(Init(replicas), schedule, a);
  }

  lemma FirstRead() returns (schedule: seq<Action>, s: State)
    ensures s == Exec(Init(1), schedule)
    ensures s == Init(1).(mem := s.mem, loop := Read(1), hist := s.hist)
    ensures s.mem == Init(1).mem && s.hist == Init(1).hist
  {
    schedule, s := [], Init(1);
    schedule, s := Then(1, schedule, s, LoopStep(Token));
    schedule, s := Then(1, schedule, s, LoopStep(Token));
    schedule, s := Then(1, schedule, s, LoopStep(Token));
    schedule, s := Then(1, schedule, s, LoopStep(Token));
  }

  lemma FirstPlan() returns (schedule: seq<Action>, s: State)
    ensures s == Exec(Init(1), schedule)
    ensures s == Init(1).(loop := Spawning(Plan(1, 0, 0), 0), hist := s.hist)
    ensures s.hist.owner == map[] && s.hist.started == s.hist.exited == s.hist.cancelled == {}
  {
    hide Exec;
    schedule, s := FirstRead();
    schedule, s := Then(1, schedule, s, LoopStep(Token));
    schedule, s := Then(1, schedule, s, LoopStep(Token));
    schedule, s := Then(1, schedule, s, LoopStep(Token));
    schedule, s := Then(1, schedule, s, LoopStep(Token));
    schedule, s := Then(1, schedule, s, LoopStep(Token));
  }

  /** The first Scale of a pool of one replica starts one create. */
  lemma FirstCreate() returns (schedule: seq<Action>, s: State)
    ensures s == Exec(Init(1), schedule)
    ensures s.gs == Goroutines(map[0 := Spawned], map[], map[], 1, {}, NotStopped)
    ensures !s.mem.ctxDone && !s.mem.stopCh && s.mem.machines == map[] && s.hist.owner == map[]
    ensures s.hist.started == s.hist.exited == s.hist.cancelled == {} && s.loop == Spawning(Plan(1, 0, 0), 1)
  {
    hide Exec;
    schedule, s := FirstPlan();
    schedule, s := Then(1, schedule, s, LoopStep(Token));
  }

  lemma CreateStartsVm() returns (schedule: seq<Action>, s: State)
    ensures s == Exec(Init(1), schedule)
    ensures s.gs == Goroutines(map[0 := Started(7, 3)], map[], map[], 1, {}, NotStopped)
    ensures !s.mem.ctxDone && !s.mem.stopCh && s.mem.machines == map[]
    ensures s.hist.started == {7} && s.hist.exited == s.hist.cancelled == {}
    ensures s.loop == Spawning(Plan(1, 0, 0), 1)
  {
    schedule, s := FirstCreate();
    schedule, s := Then(1, schedule, s, CreateStep(0, true, 7, 3));
    schedule, s := Then(1, schedule, s, CreateStep(0, true, 7, 3));
    schedule, s := Then(1, schedule, s, CreateStep(0, true, 7, 3));
    schedule, s := Then(1, schedule, s, CreateStep(0, true, 7, 3));
    assert s.gs.creates == map[0 := Started(7, 3)];
  }

  lemma RunExits() returns (schedule: seq<Action>, s: State)
    ensures s == Exec(Init(1), schedule)
    ensures s.gs == Goroutines(map[0 := Started(7, 3)], map[], map[], 1, {}, Cancelled)
    ensures s.mem.machines == map[] && s.loop == Exited
    ensures s.hist.started == {7} && s.hist.exited == s.hist.cancelled == {}
  {
    schedule, s := CreateStartsVm();
    schedule, s := Then(1, schedule, s, StopStep(false));
    schedule, s := Then(1, schedule, s, LoopStep(Token));
    schedule, s := Then(1, schedule, s, LoopStep(ContextDone));
  }

  /** Stop can see the WaitGroup at zero and return cleanly, and a create that had passed its context
      check then puts a running machine, which Stop has not stopped, in the map. */
  lemma StopMayReturnEarly() returns (schedule: seq<Action>)
    ensures var s := Exec(Init(1), schedule);
      && s.gs.stop == StopReturned(true)
      && s.mem.machines == map[7 := Machine(3)]
      && 7 in s.hist.started && 7 !in s.hist.exited && 7 !in s.hist.cancelled
  {
    hide Exec;
    var s;
    schedule, s := RunExits();
    schedule, s := Then(1, schedule, s, StopStep(false));
    schedule, s := Then(1, schedule, s, StopStep(false));
    schedule, s := Then(1, schedule, s, StopStep(false));
    schedule, s := Then(1, schedule, s, StopStep(false));
    assert s.gs.stop == Draining({}, true);
    schedule, s := Then(1, schedule, s, StopStep(false));
    schedule, s := Then(1, schedule, s, CreateStep(0, true, 7, 3));
  }
}
