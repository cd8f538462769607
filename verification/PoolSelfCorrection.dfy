/** From any reachable state, one undisturbed Scale brings the pool to its desired size. */
module PoolSelfCorrection {
  import opened Int32
  import opened Counting
  import opened PoolMachine
  import opened PoolInvariants
  import opened PoolScaling

  /** The replica count stays, the pool stays active and is not stopped, creates do not fail, and no
      VM exits that is in the map or on its way there. StopVMM may fail. The loop does not start
      another round. */
  predicate Quiet(s: State, a: Action) {
    match a
    case LoopStep(_) => !s.loop.Selecting?
    case CreateStep(_, ok, _, _) => ok
    case DeleteStep(_, _, _) => true
    case CleanupStep(_, _) => true
    case VmExit(n) => n in s.hist.takenBy || n in s.hist.unmapped
    case Trigger(_) => true
    case Store(_, _) => false
    case SetActive(_) => false
    case StopStep(_) => false
  }

  predicate QuietRun(s: State, schedule: seq<Action>)
    decreases |schedule|
  {
    schedule == [] ||
    (QuietRun(s, schedule[..|schedule| - 1])
     && Quiet(Exec(s, schedule[..|schedule| - 1]), schedule[|schedule| - 1]))
  }

  /** No create and no delete is alive, no cleanup can move, and the loop waits. */
  ghost predicate Settled(s: State) {
    && s.gs.creates == map[]
    && s.gs.deletes == map[]
    && (forall g | g in s.gs.cleanups ::
          s.gs.cleanups[g].phase == Waiting && s.gs.cleanups[g].name !in s.hist.exited)
    && s.loop.Selecting?
  }

  // ----- Draining terminates

  function CleanupRank(k: Cleanup): nat {
    match k.phase
    case Waiting => 5
    case Woken => 4
    case Unmapped => 3
    case RunnerGone => 2
    case LeaseGone => 1
  }

  function LoopRank(l: Loop): nat {
    match l
    case Starting => 9
    case Got => 8
    case Passed => 7
    case Read(_) => 6
    case Scaling(_) => 5
    case Sizing(_) => 4
    case Sized(_, _) => 3
    case CreatesRead(_, _, _) => 2
    case Spawning(_, _) => 1
    case Selecting => 0
    case Exited => 0
  }

  /** What the goroutines that Scale has yet to start will do. */
  function SpawnWork(l: Loop): nat {
    if l.Spawning? && l.done < Ups(l.plan) + Downs(l.plan)
    then 14 * (Ups(l.plan) + Downs(l.plan) - l.done) else 0
  }

  ghost function Work(s: State): nat
    requires s.hist.exited <= s.hist.started
  {
    Weigh(s.gs.creates, CreateRank) + Weigh(s.gs.deletes, DeleteRank) + Weigh(s.gs.cleanups, CleanupRank)
    + SpawnWork(s.loop) + |s.gs.callers| + |s.hist.started - s.hist.exited|
  }

  ghost predicate Sane(s: State) {
    && GidsFresh(s.gs)
    && s.hist.exited <= s.hist.started
    && (forall g | g in s.gs.creates && s.gs.creates[g].Booting? :: s.gs.creates[g].name !in s.hist.started)
  }

  lemma InvIsSane(s: State)
    requires Inv(s)
    ensures Sane(s)
  {
  }

  ghost predicate Progress(s: State, t: State)
    requires s.hist.exited <= s.hist.started && t.hist.exited <= t.hist.started
  {
    LoopRank(t.loop) < LoopRank(s.loop) || (LoopRank(t.loop) == LoopRank(s.loop) && Work(t) < Work(s))
  }

  lemma CreateKeepsRest(s: State, g: Gid, ok: bool, name: Name, cid: nat)
    requires g in s.gs.creates
    ensures var t := CreateNext(s, g, ok, name, cid);
      && t.loop == s.loop && t.gs.callers == s.gs.callers && t.gs.deletes == s.gs.deletes
      && t.hist.exited == s.hist.exited
      && (if s.gs.creates[g].Booting? && ok then t.hist.started == s.hist.started + {s.gs.creates[g].name}
          else t.hist.started == s.hist.started)
      && (!s.gs.creates[g].Inserted? ==> t.gs.cleanups == s.gs.cleanups)
      && (s.gs.creates[g].Inserted? ==>
            t.gs.cleanups == s.gs.cleanups[s.gs.nextGid := Cleanup(s.gs.creates[g].name, Waiting)])
  {
  }

  lemma CreateFrames(s: State, g: Gid, ok: bool, name: Name, cid: nat)
    requires Sane(s) && g in s.gs.creates
    ensures var t := CreateNext(s, g, ok, name, cid);
      && t.loop == s.loop && t.gs.callers == s.gs.callers && t.gs.deletes == s.gs.deletes
      && t.hist.exited == s.hist.exited && s.hist.started <= t.hist.started
      && |t.hist.started - t.hist.exited|
           <= |s.hist.started - s.hist.exited| + (if s.gs.creates[g].Booting? then 1 else 0)
      && (!s.gs.creates[g].Inserted? ==> t.gs.cleanups == s.gs.cleanups)
      && (s.gs.creates[g].Inserted? ==>
            t.gs.cleanups == s.gs.cleanups[s.gs.nextGid := Cleanup(s.gs.creates[g].name, Waiting)])
  {
    hide CreateNext;
    var t := CreateNext(s, g, ok, name, cid);
    CreateKeepsRest(s, g, ok, name, cid);
    if s.gs.creates[g].Booting? && ok {
      var n := s.gs.creates[g].name;
      assert t.hist.started - t.hist.exited == s.hist.started - s.hist.exited + {n};
    }
  }

  lemma CreateProgress(s: State, g: Gid, ok: bool, name: Name, cid: nat)
    requires Sane(s) && CreateNext(s, g, ok, name, cid) != s
    ensures var t := CreateNext(s, g, ok, name, cid); t.hist.exited <= t.hist.started && Progress(s, t)
  {
    CreateFrames(s, g, ok, name, cid);
    CreateWork(s, g, ok, name, cid);
    if s.gs.creates[g].Inserted? {
      WeighAdd(s.gs.cleanups, CleanupRank, s.gs.nextGid, Cleanup(s.gs.creates[g].name, Waiting));
    }
  }

  lemma DeleteProgress(s: State, g: Gid, ok: bool, name: Name)
    requires Sane(s) && DeleteNext(s, g, ok, name) != s
    ensures var t := DeleteNext(s, g, ok, name); t.hist.exited <= t.hist.started && Progress(s, t)
  {
    DeleteFrame(s, g, ok, name);
    DeleteWork(s, g, ok, name);
  }

  lemma CleanupProgress(s: State, g: Gid, timeout: bool)
    requires Sane(s) && CleanupNext(s, g, timeout) != s
    ensures var t := CleanupNext(s, g, timeout); t.hist.exited <= t.hist.started && Progress(s, t)
  {
    hide Weigh, LoopRank, SpawnWork;
    var t := CleanupNext(s, g, timeout);
    CleanupFrame(s, g, timeout);
    if s.gs.cleanups[g].phase == LeaseGone {
      WeighRemove(s.gs.cleanups, CleanupRank, g);
    } else {
      WeighUpdate(s.gs.cleanups, CleanupRank, g, t.gs.cleanups[g]);
      assert t.gs.cleanups == s.gs.cleanups[g := t.gs.cleanups[g]];
    }
  }

  lemma SpawnProgress(s: State)
    requires Sane(s) && s.loop.Spawning?
    ensures var t := SpawnNext(s, s.loop.plan, s.loop.done); t.hist.exited <= t.hist.started && Progress(s, t)
  {
    hide Weigh, ToInt32;
    WeighAdd(s.gs.creates, CreateRank, s.gs.nextGid, Spawned);
    WeighAdd(s.gs.deletes, DeleteRank, s.gs.nextGid, DeleteSpawned);
  }

  lemma LoopProgress(s: State, wake: Wake)
    requires Sane(s) && !s.loop.Selecting? && LoopNext(s, wake) != s
    ensures var t := LoopNext(s, wake); t.hist.exited <= t.hist.started && Progress(s, t)
  {
    hide Weigh, SpawnNext, SpawnWork;
    if s.loop.Spawning? {
      SpawnProgress(s);
    } else {
      LoopFrame(s, wake);
    }
  }

  /** Every quiet step that changes anything decreases a well-founded measure. */
  lemma QuietDecreases(s: State, a: Action)
    requires Sane(s) && Quiet(s, a) && Step(s, a) != s
    ensures Step(s, a).hist.exited <= Step(s, a).hist.started && Progress(s, Step(s, a))
  {
    match a
    case LoopStep(wake) => LoopProgress(s, wake);
    case CreateStep(g, ok, name, cid) => CreateProgress(s, g, ok, name, cid);
    case DeleteStep(g, ok, name) => DeleteProgress(s, g, ok, name);
    case CleanupStep(g, timeout) => CleanupProgress(s, g, timeout);
    case VmExit(n) =>
      if n in s.hist.started {
        assert s.hist.started - (s.hist.exited + {n}) == s.hist.started - s.hist.exited - {n};
      }
    case Trigger(c) =>
  }

  /** Unless the pool has settled, some quiet step changes the state. */
  lemma QuietEnabled(s: State) returns (a: Action)
    requires Control(s) && !s.mem.ctxDone && !Settled(s)
    ensures Quiet(s, a) && Step(s, a) != s
  {
    var ks := s.gs.cleanups;
    if g :| g in s.gs.creates {
      var n := FreshNumber(s.hist.owner.Keys);
      a := CreateStep(g, true, n, 0);
      CreateMoves(s, g, n);
    } else if g :| g in s.gs.deletes {
      var n := 0;
      if s.mem.machines != map[] {
        n :| n in s.mem.machines;
      }
      a := DeleteStep(g, true, n);
      DeleteMoves(s, g, n);
    } else if g :| g in ks && !(ks[g].phase == Waiting && ks[g].name !in s.hist.exited) {
      a := CleanupStep(g, false);
      CleanupMoves(s, g);
    } else {
      a := LoopStep(Timer);
    }
  }

  lemma CreateMoves(s: State, g: Gid, n: Name)
    requires g in s.gs.creates && n !in s.hist.owner
    ensures CreateNext(s, g, true, n, 0) != s
  {
    var t := CreateNext(s, g, true, n, 0);
    assert g !in t.gs.creates || t.gs.creates[g] != s.gs.creates[g];
  }

  lemma DeleteMoves(s: State, g: Gid, n: Name)
    requires g in s.gs.deletes && (s.mem.machines == map[] || n in s.mem.machines)
    ensures DeleteNext(s, g, true, n) != s
  {
    var t := DeleteNext(s, g, true, n);
    assert g !in t.gs.deletes || t.gs.deletes[g] != s.gs.deletes[g];
  }

  lemma CleanupMoves(s: State, g: Gid)
    requires g in s.gs.cleanups && !(s.gs.cleanups[g].phase == Waiting && s.gs.cleanups[g].name !in s.hist.exited)
    ensures CleanupNext(s, g, false) != s
  {
    var t := CleanupNext(s, g, false);
    assert g !in t.gs.cleanups || t.gs.cleanups[g] != s.gs.cleanups[g];
  }

  lemma {:induction false} QuietRunPrepend(s: State, a: Action, rest: seq<Action>)
    requires Quiet(s, a) && QuietRun(Step(s, a), rest)
    ensures QuietRun(s, [a] + rest) && Exec(s, [a] + rest) == Exec(Step(s, a), rest)
    decreases |rest|
  {
    assert Exec(s, [a]) == Step(Exec(s, []), a);
    ExecAppend(s, [a], rest);
    if rest == [] {
      assert [a] + rest == [a] && [a][..0] == [];
      assert QuietRun(s, []);
    } else {
      var n := |rest| - 1;
      QuietRunPrepend(s, a, rest[..n]);
      assert ([a] + rest)[..|rest|] == [a] + rest[..n];
    }
  }

  lemma QuietKeepsLive(s: State, a: Action)
    requires Quiet(s, a)
    ensures var m := Step(s, a).mem;
      m.ctxDone == s.mem.ctxDone && m.isActive == s.mem.isActive && m.replicas == s.mem.replicas
  {
    match a
    case CreateStep(g, ok, name, cid) => CreateControlFrame(s, g, ok, name, cid);
    case DeleteStep(g, ok, name) => DeleteFrame(s, g, ok, name);
    case CleanupStep(g, timeout) => CleanupFrame(s, g, timeout);
    case LoopStep(wake) => if !s.loop.Spawning? { LoopFrame(s, wake); }
    case _ =>
  }

  /** So every reachable state of a pool that is not stopping can be drained. */
  lemma {:induction false} Drain(s: State) returns (schedule: seq<Action>)
    requires Inv(s) && !s.mem.ctxDone
    ensures QuietRun(s, schedule) && Settled(Exec(s, schedule))
    decreases LoopRank(s.loop), (InvIsSane(s); Work(s))
  {
    if Settled(s) {
      schedule := [];
    } else {
      var a := QuietEnabled(s);
      InvIsSane(s);
      QuietDecreases(s, a);
      StepKeeps(s, a);
      QuietKeepsLive(s, a);
      var rest := Drain(Step(s, a));
      QuietRunPrepend(s, a, rest);
      schedule := [a] + rest;
    }
  }

  // ----- One Scale and a drain reach the target

  function Max(a: int, b: int): int {
    if a > b then a else b
  }

  /** A round of the loop that began in a settled state of the given size: what has been decided, and
      that creates to come and deletes to come lead from the present size to the target. */
  ghost predicate OnCourse(s: State, desired: int, size: nat) {
    var m := |s.mem.machines|;
    var ups := Count(s.gs.creates, Undecided);
    var downs := Count(s.gs.deletes, UndecidedDelete);
    var idle := s.gs.creates == map[] && s.gs.deletes == map[] && m == size;
    match s.loop
    case Got => idle
    case Passed => idle
    case Read(r) => idle && r == desired
    case Scaling(r) => idle && r == desired
    case Sizing(r) => idle && r == desired
    case Sized(r, c) => idle && r == desired && c == size
    case CreatesRead(r, c, pc) => idle && r == desired && c == size && pc == 0
    case Spawning(p, done) =>
      && p == Plan(desired, size, size)
      && (if desired >= size then s.gs.deletes == map[] && done <= Ups(p) && m + ups + Ups(p) - done == desired
          else s.gs.creates == map[] && done <= Downs(p) && m - downs - (Downs(p) - done) == Max(desired, 0))
    case Selecting =>
      || (s.gs.deletes == map[] && desired >= 0 && m + ups == desired)
      || (s.gs.creates == map[] && m - downs == Max(desired, 0))
    case Starting => false
    case Exited => false
  }

  /** No VM exits under the pool's feet. */
  ghost predicate Undisturbed(s: State, desired: int) {
    && !s.mem.ctxDone && s.mem.isActive && s.mem.replicas == desired
    && (forall n | n in s.mem.machines :: n !in s.hist.exited)
    && (forall g | g in s.gs.creates && s.gs.creates[g].Started? :: s.gs.creates[g].name !in s.hist.exited)
  }

  lemma CreateInserts(s: State, g: Gid, name: Name, cid: nat)
    requires g in s.gs.creates
    ensures var t := CreateNext(s, g, true, name, cid);
      var c := s.gs.creates[g];
      && t.hist.exited == s.hist.exited
      && t.mem.machines.Keys == s.mem.machines.Keys + (if c.Started? then {c.name} else {})
  {
    hide ToInt32;
  }

  lemma CreateMoved(s: State, g: Gid, name: Name, cid: nat)
    requires g in s.gs.creates
    ensures var t := CreateNext(s, g, true, name, cid);
      var c := s.gs.creates[g];
      && (forall h | h in t.gs.creates && h != g :: h in s.gs.creates && s.gs.creates[h] == t.gs.creates[h])
      && (g in t.gs.creates && t.gs.creates[g].Started? ==> c.Booting? && t.gs.creates[g].name == c.name)
  {
    hide ToInt32;
  }

  lemma CreateUndisturbed(s: State, g: Gid, name: Name, cid: nat, desired: int)
    requires Undisturbed(s, desired) && g in s.gs.creates
    requires s.gs.creates[g].Booting? ==> s.gs.creates[g].name !in s.hist.exited
    ensures Undisturbed(CreateNext(s, g, true, name, cid), desired)
  {
    hide CreateNext;
    CreateInserts(s, g, name, cid);
    CreateMoved(s, g, name, cid);
    CreateControlFrame(s, g, true, name, cid);
  }

  /** A create that is not made to fail moves from the undecided ones to the map, or neither changes. */
  lemma CreateDelta(s: State, g: Gid, name: Name, cid: nat)
    requires g in s.gs.creates
    requires s.gs.creates[g].Started? ==> s.gs.creates[g].name !in s.mem.machines
    ensures var t := CreateNext(s, g, true, name, cid);
      |t.mem.machines| + Count(t.gs.creates, Undecided)
        == |s.mem.machines| + Count(s.gs.creates, Undecided)
           - (if s.gs.creates[g].Spawned? && s.mem.ctxDone then 1 else 0)
  {
    hide ToInt32, Count;
    var t := CreateNext(s, g, true, name, cid);
    if s.gs.creates[g].Returned? {
      CountRemove(s.gs.creates, Undecided, g);
    } else {
      CountUpdate(s.gs.creates, Undecided, g, t.gs.creates[g]);
      assert t.gs.creates == s.gs.creates[g := t.gs.creates[g]];
    }
  }

  lemma CreateOnCourse(s: State, g: Gid, name: Name, cid: nat, desired: int, size: nat)
    requires OnCourse(s, desired, size) && !s.mem.ctxDone && g in s.gs.creates
    requires s.gs.creates[g].Started? ==> s.gs.creates[g].name !in s.mem.machines
    ensures OnCourse(CreateNext(s, g, true, name, cid), desired, size)
  {
    CreateDelta(s, g, name, cid);
    CreateControlFrame(s, g, true, name, cid);
  }

  /** A delete of a pool with a machine for every undecided delete takes one of them, or nothing changes. */
  lemma DeleteDelta(s: State, g: Gid, ok: bool, name: Name)
    requires g in s.gs.deletes && !s.mem.ctxDone
    requires |s.mem.machines| >= Count(s.gs.deletes, UndecidedDelete)
    ensures var t := DeleteNext(s, g, ok, name);
      |t.mem.machines| - Count(t.gs.deletes, UndecidedDelete)
        == |s.mem.machines| - Count(s.gs.deletes, UndecidedDelete)
  {
    hide ToInt32, Count;
    var t := DeleteNext(s, g, ok, name);
    CountRemove(s.gs.deletes, UndecidedDelete, g);
    if !s.gs.deletes[g].DeleteReturned? {
      CountUpdate(s.gs.deletes, UndecidedDelete, g, t.gs.deletes[g]);
      assert t.gs.deletes == s.gs.deletes[g := t.gs.deletes[g]];
    }
    if name in s.mem.machines {
      SizeRemove(s.mem.machines, name);
    }
  }

  lemma DeleteOnCourse(s: State, g: Gid, ok: bool, name: Name, desired: int, size: nat)
    requires OnCourse(s, desired, size) && !s.mem.ctxDone && g in s.gs.deletes
    ensures OnCourse(DeleteNext(s, g, ok, name), desired, size)
  {
    DeleteDelta(s, g, ok, name);
    DeleteFrame(s, g, ok, name);
  }

  lemma InvFresh(s: State)
    requires Inv(s)
    ensures GidsFresh(s.gs) && LoopSound(s)
  {
  }

  lemma SpawnOnCourse(s: State, desired: int, size: nat)
    requires GidsFresh(s.gs) && OnCourse(s, desired, size) && s.loop.Spawning?
    ensures OnCourse(SpawnNext(s, s.loop.plan, s.loop.done), desired, size)
  {
    hide ToInt32, Count, GidsFresh;
    SpawnCounts(s);
  }

  lemma SpawnCounts(s: State)
    requires GidsFresh(s.gs)
    ensures Count(s.gs.creates[s.gs.nextGid := Spawned], Undecided) == Count(s.gs.creates, Undecided) + 1
    ensures Count(s.gs.deletes[s.gs.nextGid := DeleteSpawned], UndecidedDelete)
      == Count(s.gs.deletes, UndecidedDelete) + 1
  {
    hide Count;
    CountAdd(s.gs.creates, Undecided, s.gs.nextGid, Spawned);
    CountAdd(s.gs.deletes, UndecidedDelete, s.gs.nextGid, DeleteSpawned);
  }

  lemma LoopOnCourse(s: State, wake: Wake, desired: int, size: nat)
    requires Inv(s) && OnCourse(s, desired, size) && Undisturbed(s, desired) && !s.loop.Selecting?
    ensures OnCourse(LoopNext(s, wake), desired, size)
  {
    hide Inv, SpawnNext;
    InvFresh(s);
    if s.loop.Spawning? {
      SpawnOnCourse(s, desired, size);
    } else {
      CountersAt(s);
    }
  }

  lemma CleanupStandsStill(s: State, g: Gid, timeout: bool, desired: int)
    requires Leases(s) && Undisturbed(s, desired)
    ensures CleanupNext(s, g, timeout).mem == s.mem
  {
    if g in s.gs.cleanups && s.gs.cleanups[g].phase == Woken {
      var n := s.gs.cleanups[g].name;
      assert n in s.hist.exited;
      assert s.mem.machines - {n} == s.mem.machines;
    }
  }

  lemma CreateStaysOnCourse(s: State, g: Gid, name: Name, cid: nat, desired: int, size: nat)
    requires Inv(s) && OnCourse(s, desired, size) && Undisturbed(s, desired)
    ensures OnCourse(CreateNext(s, g, true, name, cid), desired, size)
    ensures Undisturbed(CreateNext(s, g, true, name, cid), desired)
  {
    hide Inv, OnCourse;
    if g in s.gs.creates {
      CreateFacts(s, g);
      CreateOnCourse(s, g, name, cid, desired, size);
      CreateUndisturbed(s, g, name, cid, desired);
    }
  }

  lemma CleanupStaysOnCourse(s: State, g: Gid, timeout: bool, desired: int, size: nat)
    requires Inv(s) && OnCourse(s, desired, size) && Undisturbed(s, desired)
    ensures OnCourse(CleanupNext(s, g, timeout), desired, size) && Undisturbed(CleanupNext(s, g, timeout), desired)
  {
    CleanupStandsStill(s, g, timeout, desired);
    CleanupFrame(s, g, timeout);
  }

  lemma DeleteStaysOnCourse(s: State, g: Gid, ok: bool, name: Name, desired: int, size: nat)
    requires OnCourse(s, desired, size) && Undisturbed(s, desired)
    ensures OnCourse(DeleteNext(s, g, ok, name), desired, size) && Undisturbed(DeleteNext(s, g, ok, name), desired)
  {
    DeleteUndisturbed(s, g, ok, name, desired);
    if g in s.gs.deletes {
      DeleteOnCourse(s, g, ok, name, desired, size);
    }
  }

  lemma StepOnCourse(s: State, a: Action, desired: int, size: nat)
    requires Inv(s) && Quiet(s, a) && OnCourse(s, desired, size) && Undisturbed(s, desired)
    ensures OnCourse(Step(s, a), desired, size) && Undisturbed(Step(s, a), desired)
  {
    hide Inv, CreateNext, LoopNext, DeleteNext, CleanupNext;
    match a
    case LoopStep(wake) =>
      LoopOnCourse(s, wake, desired, size);
      LoopUndisturbed(s, wake, desired);
    case CreateStep(g, ok, name, cid) => CreateStaysOnCourse(s, g, name, cid, desired, size);
    case DeleteStep(g, ok, name) => DeleteStaysOnCourse(s, g, ok, name, desired, size);
    case CleanupStep(g, timeout) => CleanupStaysOnCourse(s, g, timeout, desired, size);
    case VmExit(n) => ExitUndisturbed(s, n, desired);
    case Trigger(c) =>
  }

  lemma CreateFacts(s: State, g: Gid)
    requires Inv(s) && g in s.gs.creates
    ensures s.gs.creates[g].Started? ==> s.gs.creates[g].name !in s.mem.machines
    ensures s.gs.creates[g].Booting? ==> s.gs.creates[g].name !in s.hist.exited
  {
  }

  lemma DeleteUndisturbed(s: State, g: Gid, ok: bool, name: Name, desired: int)
    requires Undisturbed(s, desired)
    ensures Undisturbed(DeleteNext(s, g, ok, name), desired)
  {
    DeleteFrame(s, g, ok, name);
    assert DeleteNext(s, g, ok, name).mem.machines.Keys <= s.mem.machines.Keys;
  }

  lemma LoopUndisturbed(s: State, wake: Wake, desired: int)
    requires Undisturbed(s, desired)
    ensures Undisturbed(LoopNext(s, wake), desired)
  {
    if !s.loop.Spawning? {
      LoopFrame(s, wake);
    }
  }

  lemma ExitUndisturbed(s: State, n: Name, desired: int)
    requires Inv(s) && Undisturbed(s, desired) && (n in s.hist.takenBy || n in s.hist.unmapped)
    ensures Undisturbed(Step(s, VmExit(n)), desired)
  {
    assert n in s.hist.inserted && n !in s.mem.machines;
  }

  lemma {:induction false} RunKeepsLive(s: State, schedule: seq<Action>)
    requires QuietRun(s, schedule)
    ensures var m := Exec(s, schedule).mem;
      m.ctxDone == s.mem.ctxDone && m.isActive == s.mem.isActive && m.replicas == s.mem.replicas
    decreases |schedule|
  {
    if schedule != [] {
      var n := |schedule| - 1;
      RunKeepsLive(s, schedule[..n]);
      QuietKeepsLive(Exec(s, schedule[..n]), schedule[n]);
    }
  }

  lemma {:induction false} RunOnCourse(s: State, schedule: seq<Action>, desired: int, size: nat)
    requires Inv(s) && QuietRun(s, schedule) && OnCourse(s, desired, size) && Undisturbed(s, desired)
    ensures OnCourse(Exec(s, schedule), desired, size) && Undisturbed(Exec(s, schedule), desired)
    decreases |schedule|
  {
    if schedule != [] {
      var n := |schedule| - 1;
      RunOnCourse(s, schedule[..n], desired, size);
      RunKeeps(s, schedule[..n]);
      StepOnCourse(Exec(s, schedule[..n]), schedule[n], desired, size);
    }
  }

  /** In a settled pool no machine of the map has exited. */
  lemma SettledUndisturbed(s: State)
    requires Inv(s) && Settled(s) && !s.mem.ctxDone && s.mem.isActive
    ensures Undisturbed(s, s.mem.replicas)
  {
    forall n | n in s.mem.machines ensures n !in s.hist.exited {
      assert OwnsEntry(s.gs.creates, s.gs.cleanups, s.hist.owner[n], n);
    }
  }

  lemma WakeIsGot(s: State)
    requires s.loop.Selecting?
    ensures Step(s, LoopStep(Timer)) == s.(loop := Got)
  {
  }

  lemma SettledSize(s: State, desired: int, size: nat)
    requires Settled(s) && OnCourse(s, desired, size)
    ensures |s.mem.machines| == Max(desired, 0)
  {
    CountZero(s.gs.creates, Undecided);
    CountZero(s.gs.deletes, UndecidedDelete);
  }

  lemma OneRound(s: State, round: seq<Action>)
    requires Inv(s) && Settled(s) && !s.mem.ctxDone && s.mem.isActive
    requires QuietRun(Step(s, LoopStep(Timer)), round)
    ensures OnCourse(Exec(Step(s, LoopStep(Timer)), round), s.mem.replicas, |s.mem.machines|)
  {
    var u := Step(s, LoopStep(Timer));
    WakeIsGot(s);
    SettledUndisturbed(s);
    StepKeeps(s, LoopStep(Timer));
    RunOnCourse(u, round, s.mem.replicas, |s.mem.machines|);
  }

  /** Self-correction. From any reachable state of an active pool that is not stopping, with any
      replica count: after any quiet run that drains it, one round of the loop and any quiet run that
      drains it again, the pool has exactly max(replicas, 0) machines, and the next round starts
      nothing. */
  lemma SelfCorrection(replicas: int, before: seq<Action>, drain: seq<Action>, round: seq<Action>, next: seq<Action>)
    requires var s := Exec(Init(replicas), before);
      && !s.mem.ctxDone && s.mem.isActive
      && QuietRun(s, drain) && Settled(Exec(s, drain))
    requires var u := Step(Exec(Exec(Init(replicas), before), drain), LoopStep(Timer));
      QuietRun(u, round) && Settled(Exec(u, round))
    requires var u := Step(Exec(Exec(Init(replicas), before), drain), LoopStep(Timer));
      QuietRun(Step(Exec(u, round), LoopStep(Timer)), next)
    ensures var s := Exec(Init(replicas), before);
      var u := Step(Exec(s, drain), LoopStep(Timer));
      var v := Exec(u, round);
      var w := Exec(Step(v, LoopStep(Timer)), next);
      && |v.mem.machines| == Max(s.mem.replicas, 0)
      && (w.loop.Spawning? ==> Ups(w.loop.plan) == 0 && Downs(w.loop.plan) == 0)
      && (Settled(w) ==> |w.mem.machines| == Max(s.mem.replicas, 0))
  {
    var s := Exec(Init(replicas), before);
    var t := Exec(s, drain);
    var u := Step(t, LoopStep(Timer));
    var v := Exec(u, round);
    Reachable(replicas, before);
    RunKeeps(s, drain);
    RunKeepsLive(s, drain);
    OneRound(t, round);
    SettledSize(v, s.mem.replicas, |t.mem.machines|);
    WakeIsGot(t);
    StepKeeps(t, LoopStep(Timer));
    RunKeeps(u, round);
    RunKeepsLive(u, round);
    OneRound(v, next);
    var w := Exec(Step(v, LoopStep(Timer)), next);
    if Settled(w) {
      SettledSize(w, s.mem.replicas, |v.mem.machines|);
    }
  }

  /** Such runs exist: the pool can always be brought to its desired size. */
  lemma CanSelfCorrect(replicas: int, before: seq<Action>) returns (drain: seq<Action>, round: seq<Action>)
    requires var s := Exec(Init(replicas), before); !s.mem.ctxDone && s.mem.isActive
    ensures var s := Exec(Init(replicas), before);
      QuietRun(s, drain) && Settled(Exec(s, drain))
    ensures var s := Exec(Init(replicas), before);
      var u := Step(Exec(s, drain), LoopStep(Timer));
      && QuietRun(u, round) && Settled(Exec(u, round))
      && |Exec(u, round).mem.machines| == Max(s.mem.replicas, 0)
  {
    var s := Exec(Init(replicas), before);
    Reachable(replicas, before);
    drain := Drain(s);
    var t := Exec(s, drain);
    RunKeeps(s, drain);
    RunKeepsLive(s, drain);
    WakeIsGot(t);
    StepKeeps(t, LoopStep(Timer));
    round := Drain(Step(t, LoopStep(Timer)));
    assert QuietRun(Step(Exec(Step(t, LoopStep(Timer)), round), LoopStep(Timer)), []);
    SelfCorrection(replicas, before, drain, round, []);
  }
}
