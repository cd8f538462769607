/** How far a plan made from stale reads can take the pool past its desired size. */
module PoolOvershoot {
  import opened Int32
  import opened Counting
  import opened PoolMachine
  import opened PoolInvariants
  import opened PoolScaling
  import opened PoolSelfCorrection

  /** The size the pool has if every undecided create succeeds and no machine leaves it. */
  ghost function Ceiling(s: State): nat {
    |s.mem.machines| + Count(s.gs.creates, Undecided)
  }

  /** The creates that Scale has yet to start. */
  function Owed(l: Loop): nat {
    if l.Spawning? && l.done < Ups(l.plan) then Ups(l.plan) - l.done else 0
  }

  ghost function Promised(s: State): nat {
    Ceiling(s) + Owed(s.loop)
  }

  /** Along the schedule the loop makes no other plan: it may finish this one and wait, and begin a
      round, but not read the last counter of that round. */
  predicate SamePlan(s: State, schedule: seq<Action>)
    decreases |schedule|
  {
    schedule == [] ||
    (SamePlan(s, schedule[..|schedule| - 1])
     && !(schedule[|schedule| - 1].LoopStep? && Exec(s, schedule[..|schedule| - 1]).loop.CreatesRead?))
  }

  // ----- Nothing but a new plan raises what is promised

  lemma CreateCeiling(s: State, g: Gid, ok: bool, name: Name, cid: nat)
    ensures Promised(CreateNext(s, g, ok, name, cid)) <= Promised(s)
  {
    hide ToInt32, Count;
    var t := CreateNext(s, g, ok, name, cid);
    if g in s.gs.creates {
      if s.gs.creates[g].Returned? {
        CountRemove(s.gs.creates, Undecided, g);
      } else if t != s {
        CountUpdate(s.gs.creates, Undecided, g, t.gs.creates[g]);
        assert t.gs.creates == s.gs.creates[g := t.gs.creates[g]];
      }
    }
  }

  lemma DeleteCeiling(s: State, g: Gid, ok: bool, name: Name)
    ensures Promised(DeleteNext(s, g, ok, name)) <= Promised(s)
  {
    hide ToInt32, Count;
    if name in s.mem.machines {
      SizeRemove(s.mem.machines, name);
    }
  }

  lemma CleanupShrinks(s: State, g: Gid, timeout: bool)
    ensures |CleanupNext(s, g, timeout).mem.machines| <= |s.mem.machines|
  {
    if g in s.gs.cleanups {
      var n := s.gs.cleanups[g].name;
      if n in s.mem.machines {
        SizeRemove(s.mem.machines, n);
      } else {
        assert s.mem.machines - {n} == s.mem.machines;
      }
    }
  }

  lemma CleanupCeiling(s: State, g: Gid, timeout: bool)
    ensures Promised(CleanupNext(s, g, timeout)) <= Promised(s)
  {
    hide Count, CleanupNext;
    CleanupShrinks(s, g, timeout);
    CleanupFrame(s, g, timeout);
  }

  lemma LoopCeiling(s: State, wake: Wake)
    requires GidsFresh(s.gs) && !s.loop.CreatesRead?
    ensures Promised(LoopNext(s, wake)) <= Promised(s)
  {
    hide ToInt32, Count, GidsFresh;
    if s.loop.Spawning? {
      SpawnCounts(s);
    } else {
      LoopFrame(s, wake);
    }
  }

  lemma StepKeepsPromise(s: State, a: Action)
    requires GidsFresh(s.gs) && !(a.LoopStep? && s.loop.CreatesRead?)
    ensures Promised(Step(s, a)) <= Promised(s)
  {
    hide Count, GidsFresh, CreateNext, DeleteNext, CleanupNext, LoopNext;
    match a
    case LoopStep(wake) => LoopCeiling(s, wake);
    case CreateStep(g, ok, name, cid) => CreateCeiling(s, g, ok, name, cid);
    case DeleteStep(g, ok, name) => DeleteCeiling(s, g, ok, name);
    case CleanupStep(g, timeout) => CleanupCeiling(s, g, timeout);
    case _ =>
  }

  lemma {:induction false} RunKeepsPromise(s: State, schedule: seq<Action>)
    requires Inv(s) && SamePlan(s, schedule)
    ensures Promised(Exec(s, schedule)) <= Promised(s)
    decreases |schedule|
  {
    hide Promised, Step, Inv;
    if schedule != [] {
      var n := |schedule| - 1;
      RunKeepsPromise(s, schedule[..n]);
      RunKeeps(s, schedule[..n]);
      InvFresh(Exec(s, schedule[..n]));
      StepKeepsPromise(Exec(s, schedule[..n]), schedule[n]);
    }
  }

  lemma {:induction false} NoLoopSamePlan(s: State, schedule: seq<Action>)
    requires NoLoop(schedule)
    ensures SamePlan(s, schedule)
    decreases |schedule|
  {
    if schedule != [] {
      NoLoopSamePlan(s, schedule[..|schedule| - 1]);
    }
  }

  // ----- The bound

  /** With s the state at the first of the three reads: the desired size, the creates that were
      undecided then and all deletes alive then, or the most the pool was heading for anyway. */
  ghost function MostMachines(s: State): int
    requires s.loop.Sizing?
  {
    Max(Ceiling(s), s.loop.desired + Count(s.gs.creates, Undecided) + |s.gs.deletes|)
  }

  lemma GoReads(s: State)
    requires Inv(s) && (s.loop.Sizing? || s.loop.Sized? || s.loop.CreatesRead?)
    ensures Inv(Go(s)) && Go(s) == s.(loop := Go(s).loop)
    ensures s.loop.Sizing? ==> Go(s).loop.Sized?
    ensures s.loop.Sized? ==> Go(s).loop.CreatesRead?
  {
    hide Inv;
    StepKeeps(s, LoopStep(Timer));
  }

  lemma OthersKeepCeiling(s: State, schedule: seq<Action>)
    requires Inv(s) && NoLoop(schedule)
    ensures var t := Exec(s, schedule); Inv(t) && t.loop == s.loop && Ceiling(t) <= Ceiling(s)
  {
    hide Inv, Exec, Count, NoLoop, SamePlan;
    NoLoopSamePlan(s, schedule);
    RunKeeps(s, schedule);
    RunKeepsPromise(s, schedule);
    OthersShrink(s, schedule);
  }

  lemma ReadsKeepCeiling(s: State, first: seq<Action>, second: seq<Action>)
    requires Inv(s) && s.loop.Sizing? && NoLoop(first) && NoLoop(second)
    ensures Ceiling(AfterReads(s, first, second)) <= Ceiling(s) && Inv(AfterReads(s, first, second))
  {
    hide Inv, Exec, Count, Go;
    var t2 := Exec(Go(s), first);
    GoReads(s);
    OthersKeepCeiling(Go(s), first);
    GoReads(t2);
    OthersKeepCeiling(Go(t2), second);
    GoReads(Exec(Go(t2), second));
  }

  /** Whatever happens between the three reads and afterwards, until the loop makes its next plan the
      pool has at most so many machines: stale reads can take it past the desired size, but by no
      more than the creates that were undecided and the deletes that were alive at the first read. */
  lemma ScaleOvershoot(replicas: int, before: seq<Action>, first: seq<Action>, second: seq<Action>,
                       rest: seq<Action>)
    requires Exec(Init(replicas), before).loop.Sizing? && NoLoop(first) && NoLoop(second)
    requires |Exec(Init(replicas), before).gs.creates| < TWO_31 && |Exec(Init(replicas), before).gs.deletes| < TWO_31
    requires SamePlan(AfterReads(Exec(Init(replicas), before), first, second), rest)
    ensures var s := Exec(Init(replicas), before);
      |Exec(AfterReads(s, first, second), rest).mem.machines| <= MostMachines(s)
  {
    hide Inv, Step, Exec, Count, AfterReads, SamePlan;
    var s := Exec(Init(replicas), before);
    var t := AfterReads(s, first, second);
    Reachable(replicas, before);
    ReadsKeepCeiling(s, first, second);
    RunKeepsPromise(t, rest);
    StaleReadBound(replicas, before, first, second);
    Halves(s);
  }

  // ----- It is attained

  lemma CreateStepsExactly(s: State, g: Gid, n: Name)
    requires Inv(s) && !s.mem.ctxDone && g in s.gs.creates && n !in s.hist.owner
    ensures var t := CreateNext(s, g, true, n, 0);
      && Ceiling(t) == Ceiling(s) && t.loop == s.loop && t.gs.deletes == s.gs.deletes && !t.mem.ctxDone
      && Weigh(t.gs.creates, CreateRank) < Weigh(s.gs.creates, CreateRank)
  {
    hide CreateNext, Count, Weigh;
    CreateFacts(s, g);
    CreateDelta(s, g, n, 0);
    CreateControlFrame(s, g, true, n, 0);
    CreateMoves(s, g, n);
    CreateWork(s, g, true, n, 0);
  }

  /** All creates can finish and succeed without any other goroutine moving. */
  lemma {:induction false} FillUp(s: State) returns (schedule: seq<Action>)
    requires Inv(s) && !s.mem.ctxDone
    ensures NoLoop(schedule)
    ensures var t := Exec(s, schedule);
      && t.gs.creates == map[] && t.gs.deletes == s.gs.deletes && t.loop == s.loop && !t.mem.ctxDone
      && |t.mem.machines| == Ceiling(s)
    decreases Weigh(s.gs.creates, CreateRank)
  {
    hide Inv, Exec, CreateNext, Weigh;
    if s.gs.creates == map[] {
      schedule := [];
      CountZero(s.gs.creates, Undecided);
      RunOfNone(s);
    } else {
      hide Count;
      var g :| g in s.gs.creates;
      var n := FreshNumber(s.hist.owner.Keys);
      var a := CreateStep(g, true, n, 0);
      CreateStepsExactly(s, g, n);
      StepKeeps(s, a);
      var rest := FillUp(Step(s, a));
      schedule := [a] + rest;
      RunOfOne(s, a);
      ExecAppend(s, [a], rest);
    }
  }

  lemma RunOfNone(s: State)
    ensures Exec(s, []) == s
  {
  }

  lemma RunOfOne(s: State, a: Action)
    ensures Exec(s, [a]) == Step(s, a)
  {
    assert [a][..0] == [];
  }

  lemma SpawnOneMore(s: State)
    requires Inv(s) && s.loop.Spawning? && s.loop.done < Ups(s.loop.plan)
    ensures var t := Step(s, LoopStep(Timer));
      && Inv(t) && Promised(t) == Promised(s) && t.mem.ctxDone == s.mem.ctxDone
      && t.loop == Spawning(s.loop.plan, s.loop.done + 1)
  {
    hide Inv, Count;
    StepKeeps(s, LoopStep(Timer));
    InvFresh(s);
    SpawnCounts(s);
  }

  lemma {:induction false} SamePlanPrepend(s: State, a: Action, rest: seq<Action>)
    requires !(a.LoopStep? && s.loop.CreatesRead?) && SamePlan(Step(s, a), rest)
    ensures SamePlan(s, [a] + rest) && Exec(s, [a] + rest) == Exec(Step(s, a), rest)
    decreases |rest|
  {
    hide Step;
    RunOfOne(s, a);
    RunOfNone(s);
    ExecAppend(s, [a], rest);
    if rest == [] {
      assert [a] + rest == [a] && [a][..0] == [];
      assert SamePlan(s, []);
    } else {
      var n := |rest| - 1;
      SamePlanPrepend(s, a, rest[..n]);
      assert ([a] + rest)[..|rest|] == [a] + rest[..n];
    }
  }

  /** The loop can start all the creates of its plan, and all of them can succeed. */
  lemma {:induction false} KeepPromise(s: State) returns (schedule: seq<Action>)
    requires Inv(s) && !s.mem.ctxDone && s.loop.Spawning?
    ensures SamePlan(s, schedule) && |Exec(s, schedule).mem.machines| == Promised(s)
    decreases Owed(s.loop)
  {
    hide Inv, Exec, Step, Ups, SamePlan;
    if s.loop.done < Ups(s.loop.plan) {
      SpawnOneMore(s);
      var rest := KeepPromise(Step(s, LoopStep(Timer)));
      SamePlanPrepend(s, LoopStep(Timer), rest);
      schedule := [LoopStep(Timer)] + rest;
    } else {
      schedule := FillUp(s);
      NoLoopSamePlan(s, schedule);
    }
  }

  lemma PromiseAfterFill(s: State, first: seq<Action>)
    requires Inv(s) && s.loop.Sizing? && |s.gs.deletes| < TWO_31 && NoLoop(first)
    requires var t := Exec(Go(s), first);
      && t.gs.creates == map[] && t.gs.deletes == s.gs.deletes && t.loop == Go(s).loop && !t.mem.ctxDone
      && |t.mem.machines| == Ceiling(Go(s))
    ensures var t := AfterReads(s, first, []);
      Inv(t) && !t.mem.ctxDone && t.loop.Spawning? && Promised(t) == MostMachines(s)
  {
    hide Inv, Step, Exec, Count, Go;
    var t2 := Exec(Go(s), first);
    GoReads(s);
    OthersKeepCeiling(Go(s), first);
    GoReads(t2);
    RunOfNone(Go(t2));
    ReadsAre(s, first, []);
    CountersAtReads(s, first, []);
    GoReads(Go(t2));
    CountZero(t2.gs.creates, Undecided);
  }

  /** From every reachable state in which Scale of a pool that is not stopping is about to read, some
      run takes the pool to exactly so many machines before the next plan. */
  lemma OvershootTight(replicas: int, before: seq<Action>) returns (first: seq<Action>, rest: seq<Action>)
    requires Exec(Init(replicas), before).loop.Sizing? && !Exec(Init(replicas), before).mem.ctxDone
    requires |Exec(Init(replicas), before).gs.deletes| < TWO_31
    ensures NoLoop(first)
    ensures var s := Exec(Init(replicas), before);
      var t := AfterReads(s, first, []);
      SamePlan(t, rest) && |Exec(t, rest).mem.machines| == MostMachines(s)
  {
    hide Inv, Step, Exec, Go, AfterReads, SamePlan, Count, NoLoop;
    var s := Exec(Init(replicas), before);
    Reachable(replicas, before);
    GoReads(s);
    first := FillUp(Go(s));
    PromiseAfterFill(s, first);
    rest := KeepPromise(AfterReads(s, first, []));
  }
}
