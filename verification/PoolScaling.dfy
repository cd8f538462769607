/** What Scale computes from three reads at three moments, and how far off it can be. */
module PoolScaling {
  import opened Int32
  import opened Counting
  import opened PoolMachine
  import opened PoolInvariants

  /** The create has neither inserted a machine nor given up. */
  predicate Undecided(c: Create) {
    c.Spawned? || c.Checked? || c.Leased? || c.Booting? || c.Started?
  }

  predicate Decided(c: Create) {
    c.Failing? || c.Inserted? || c.Returned?
  }

  /** The delete has neither removed a machine nor given up. */
  predicate UndecidedDelete(d: Delete) {
    d.DeleteSpawned? || d.DeleteChecked?
  }

  predicate DecidedDelete(d: Delete) {
    d.Took? || d.DeleteReturned?
  }

  /** The size the pool has if every undecided create succeeds and every undecided delete does. */
  ghost function Projected(s: State): int {
    |s.mem.machines| + Count(s.gs.creates, Undecided) - Count(s.gs.deletes, UndecidedDelete)
  }

  // ----- The target

  /** With the creates and deletes of its plan, one call of Scale moves the effective size exactly to
      the desired size, or as far down as the machines it has seen allow; it never passes it. */
  lemma NeverPassesTarget(p: Plan)
    ensures var moved := p.effective + Ups(p) - Downs(p);
      && (p.desired >= p.effective ==> moved == p.desired)
      && (p.desired < p.effective ==>
            moved == if p.effective - p.size > p.desired then p.effective - p.size else p.desired)
      && (p.desired <= moved <= p.effective || p.effective <= moved <= p.desired)
    ensures Downs(p) <= p.size
    ensures Ups(p) == 0 || Downs(p) == 0
  {
  }

  // ----- The three reads

  predicate NoLoop(schedule: seq<Action>) {
    forall a | a in schedule :: !a.LoopStep?
  }

  /** The loop's next step; it needs no choice outside its select statement. */
  function Go(s: State): State {
    LoopNext(s, Timer)
  }

  /** The three reads of Scale, with other goroutines running after the first and the second. */
  function AfterReads(s: State, first: seq<Action>, second: seq<Action>): State {
    Go(Exec(Go(Exec(Go(s), first)), second))
  }

  lemma OtherStep(s: State, a: Action)
    requires !a.LoopStep?
    ensures var t := Step(s, a);
      && t.loop == s.loop
      && t.gs.creates.Keys <= s.gs.creates.Keys
      && t.gs.deletes.Keys <= s.gs.deletes.Keys
      && t.hist.creates.spawned == s.hist.creates.spawned && t.hist.deletes.spawned == s.hist.deletes.spawned
      && t.hist.readAt == s.hist.readAt && s.hist.stores <= t.hist.stores
  {
    match a
    case CreateStep(g, ok, name, cid) =>
    case DeleteStep(g, ok, name) => DeleteFrame(s, g, ok, name);
    case CleanupStep(g, timeout) => CleanupFrame(s, g, timeout);
    case _ =>
  }

  /** Only the loop spawns, so while others run the numbers of creates and deletes do not grow. */
  lemma {:induction false} OthersShrink(s: State, schedule: seq<Action>)
    requires NoLoop(schedule)
    ensures var t := Exec(s, schedule);
      && t.loop == s.loop
      && t.gs.creates.Keys <= s.gs.creates.Keys
      && t.gs.deletes.Keys <= s.gs.deletes.Keys
      && t.hist.creates.spawned == s.hist.creates.spawned && t.hist.deletes.spawned == s.hist.deletes.spawned
      && t.hist.readAt == s.hist.readAt && s.hist.stores <= t.hist.stores
    decreases |schedule|
  {
    if schedule != [] {
      var n := |schedule| - 1;
      OthersShrink(s, schedule[..n]);
      OtherStep(Exec(s, schedule[..n]), schedule[n]);
    }
  }

  lemma ReadsAre(s: State, first: seq<Action>, second: seq<Action>)
    requires s.loop.Sizing? && NoLoop(first) && NoLoop(second)
    ensures var t2 := Exec(Go(s), first);
      var t4 := Exec(Go(t2), second);
      AfterReads(s, first, second) ==
        t4.(loop := Spawning(Plan(s.loop.desired, |s.mem.machines|,
              |s.mem.machines| + t2.mem.pendingCreates - t4.mem.pendingDeletes), 0))
    ensures var t2 := Exec(Go(s), first);
      var t4 := Exec(Go(t2), second);
      |t2.gs.creates| <= |s.gs.creates| && |t4.gs.deletes| <= |s.gs.deletes|
  {
    var t2 := Exec(Go(s), first);
    var t4 := Exec(Go(t2), second);
    OthersShrink(Go(s), first);
    OthersShrink(Go(t2), second);
    SubsetSize(t2.gs.creates.Keys, s.gs.creates.Keys);
    SubsetSize(t4.gs.deletes.Keys, s.gs.deletes.Keys);
    assert |t2.gs.creates| == |t2.gs.creates.Keys| && |s.gs.creates| == |s.gs.creates.Keys|;
    assert |t4.gs.deletes| == |t4.gs.deletes.Keys| && |s.gs.deletes| == |s.gs.deletes.Keys|;
  }

  lemma CountersAt(s: State)
    requires Inv(s)
    ensures s.mem.pendingCreates == ToInt32(|s.gs.creates|) && s.mem.pendingDeletes == ToInt32(|s.gs.deletes|)
  {
  }

  lemma CountersAtReads(s: State, first: seq<Action>, second: seq<Action>)
    requires Inv(s)
    ensures var t2 := Exec(Go(s), first);
      var t4 := Exec(Go(t2), second);
      && t2.mem.pendingCreates == ToInt32(|t2.gs.creates|)
      && t4.mem.pendingDeletes == ToInt32(|t4.gs.deletes|)
  {
    var t2 := Exec(Go(s), first);
    StepKeeps(s, LoopStep(Timer));
    RunKeeps(Go(s), first);
    StepKeeps(t2, LoopStep(Timer));
    RunKeeps(Go(t2), second);
    CountersAt(t2);
    CountersAt(Exec(Go(t2), second));
  }

  lemma Halves(s: State)
    ensures Count(s.gs.creates, Undecided) + Count(s.gs.creates, Decided) == |s.gs.creates|
    ensures Count(s.gs.deletes, UndecidedDelete) + Count(s.gs.deletes, DecidedDelete) == |s.gs.deletes|
  {
    CountSplit(s.gs.creates, Undecided, Decided);
    CountSplit(s.gs.deletes, UndecidedDelete, DecidedDelete);
  }

  /** The effective size differs from the projected size in s by at least -(undecided creates +
      finished but uncounted deletes) and at most finished but uncounted creates + undecided deletes. */
  ghost predicate WithinStaleBound(s: State, effective: int) {
    && -(Count(s.gs.creates, Undecided) + Count(s.gs.deletes, DecidedDelete)) <= effective - Projected(s)
    && effective - Projected(s) <= Count(s.gs.creates, Decided) + Count(s.gs.deletes, UndecidedDelete)
  }

  /** In every interleaving the effective size is within that bound, with s the state at the first
      of the three reads, as long as the live creates and deletes fit the int32 counters. */
  lemma StaleReadBound(replicas: int, before: seq<Action>, first: seq<Action>, second: seq<Action>)
    requires Exec(Init(replicas), before).loop.Sizing? && NoLoop(first) && NoLoop(second)
    requires |Exec(Init(replicas), before).gs.creates| < TWO_31 && |Exec(Init(replicas), before).gs.deletes| < TWO_31
    ensures var s := Exec(Init(replicas), before);
      var t := AfterReads(s, first, second);
      && t.loop.Spawning? && t.loop.done == 0
      && t.loop.plan.desired == s.loop.desired && t.loop.plan.size == |s.mem.machines|
      && WithinStaleBound(s, t.loop.plan.effective)
  {
    var s := Exec(Init(replicas), before);
    var t2 := Exec(Go(s), first);
    var t4 := Exec(Go(t2), second);
    Reachable(replicas, before);
    CountersAtReads(s, first, second);
    ReadsAre(s, first, second);
    Halves(s);
  }

  /** With no create and no delete alive at the first read, the effective size is the size. */
  lemma ExactWhenIdle(replicas: int, before: seq<Action>, first: seq<Action>, second: seq<Action>)
    requires Exec(Init(replicas), before).loop.Sizing? && NoLoop(first) && NoLoop(second)
    requires Exec(Init(replicas), before).gs.creates == map[] && Exec(Init(replicas), before).gs.deletes == map[]
    ensures var s := Exec(Init(replicas), before);
      var t := AfterReads(s, first, second);
      t.loop.Spawning? && t.loop.plan.effective == |s.mem.machines|
  {
    var s := Exec(Init(replicas), before);
    StaleReadBound(replicas, before, first, second);
    Halves(s);
  }

  // ----- Both bounds are attained from every reachable state

  /** How many steps a create still has, at most; registering a cleanup and starting a VM are
      counted with the steps they make possible elsewhere. */
  function CreateRank(c: Create): nat {
    match c
    case Spawned => 13
    case Checked => 12
    case Leased(_) => 11
    case Booting(_, _) => 10
    case Failing(_) => 2
    case Started(_, _) => 8
    case Inserted(_, _) => 7
    case Returned(_) => 1
  }

  function DeleteRank(d: Delete): nat {
    match d
    case DeleteSpawned => 4
    case DeleteChecked => 3
    case Took(_) => 2
    case DeleteReturned(_) => 1
  }

  lemma CreateWork(s: State, g: Gid, ok: bool, name: Name, cid: nat)
    requires g in s.gs.creates && CreateNext(s, g, ok, name, cid) != s
    ensures var t := CreateNext(s, g, ok, name, cid);
      && Weigh(t.gs.creates, CreateRank) < Weigh(s.gs.creates, CreateRank)
      && (s.gs.creates[g].Inserted? ==> Weigh(t.gs.creates, CreateRank) + 6 == Weigh(s.gs.creates, CreateRank))
      && (s.gs.creates[g].Booting? ==> Weigh(t.gs.creates, CreateRank) + 2 <= Weigh(s.gs.creates, CreateRank))
  {
    var t := CreateNext(s, g, ok, name, cid);
    if s.gs.creates[g].Returned? {
      WeighRemove(s.gs.creates, CreateRank, g);
    } else {
      WeighUpdate(s.gs.creates, CreateRank, g, t.gs.creates[g]);
      assert t.gs.creates == s.gs.creates[g := t.gs.creates[g]];
    }
  }

  lemma DeleteWork(s: State, g: Gid, ok: bool, name: Name)
    requires g in s.gs.deletes && DeleteNext(s, g, ok, name) != s
    ensures Weigh(DeleteNext(s, g, ok, name).gs.deletes, DeleteRank) < Weigh(s.gs.deletes, DeleteRank)
  {
    var t := DeleteNext(s, g, ok, name);
    if s.gs.deletes[g].DeleteReturned? {
      WeighRemove(s.gs.deletes, DeleteRank, g);
    } else {
      WeighUpdate(s.gs.deletes, DeleteRank, g, t.gs.deletes[g]);
      assert t.gs.deletes == s.gs.deletes[g := t.gs.deletes[g]];
    }
  }

  /** All creates can finish without any other goroutine moving. */
  lemma {:induction false} FinishCreates(s: State) returns (schedule: seq<Action>)
    ensures NoLoop(schedule)
    ensures Exec(s, schedule).gs.creates == map[] && Exec(s, schedule).gs.deletes == s.gs.deletes
    decreases Weigh(s.gs.creates, CreateRank)
  {
    if s.gs.creates == map[] {
      schedule := [];
    } else {
      var g :| g in s.gs.creates;
      var a := CreateStep(g, false, 0, 0);
      CreateControlFrame(s, g, false, 0, 0);
      CreateWork(s, g, false, 0, 0);
      var rest := FinishCreates(Step(s, a));
      schedule := [a] + rest;
      ExecAppend(s, [a], rest);
      assert Exec(s, [a]) == Step(Exec(s, []), a);
    }
  }

  /** All deletes can finish without any other goroutine moving. */
  lemma {:induction false} FinishDeletes(s: State) returns (schedule: seq<Action>)
    ensures NoLoop(schedule)
    ensures Exec(s, schedule).gs.deletes == map[] && Exec(s, schedule).gs.creates == s.gs.creates
    decreases Weigh(s.gs.deletes, DeleteRank)
  {
    if s.gs.deletes == map[] {
      schedule := [];
    } else {
      var g :| g in s.gs.deletes;
      var name := 0;
      if s.mem.machines != map[] {
        var n :| n in s.mem.machines;
        name := n;
      }
      var a := DeleteStep(g, true, name);
      DeleteFrame(s, g, true, name);
      DeleteWork(s, g, true, name);
      var rest := FinishDeletes(Step(s, a));
      schedule := [a] + rest;
      ExecAppend(s, [a], rest);
      assert Exec(s, [a]) == Step(Exec(s, []), a);
    }
  }

  lemma LowerBoundAttained(s: State) returns (low: seq<Action>)
    requires Inv(s) && s.loop.Sizing? && |s.gs.deletes| < TWO_31
    ensures NoLoop(low)
    ensures var t := AfterReads(s, low, []);
      t.loop.Spawning? && t.loop.plan.effective - Projected(s)
        == -(Count(s.gs.creates, Undecided) + Count(s.gs.deletes, DecidedDelete))
  {
    hide Step, Inv;
    low := FinishCreates(Go(s));
    var t2 := Exec(Go(s), low);
    ReadsAre(s, low, []);
    Halves(s);
    CountersAtReads(s, low, []);
    OthersShrink(Go(s), low);
    assert Exec(Go(t2), []) == Go(t2);
    assert Go(t2) == t2.(loop := Go(t2).loop);
    assert t2.mem.pendingCreates == 0 && Go(t2).mem.pendingDeletes == |s.gs.deletes|;
  }

  lemma UpperBoundAttained(s: State) returns (high: seq<Action>)
    requires Inv(s) && s.loop.Sizing? && |s.gs.creates| < TWO_31
    ensures NoLoop(high)
    ensures var t := AfterReads(s, [], high);
      t.loop.Spawning? && t.loop.plan.effective - Projected(s)
        == Count(s.gs.creates, Decided) + Count(s.gs.deletes, UndecidedDelete)
  {
    hide Step, Inv;
    assert Exec(Go(s), []) == Go(s);
    high := FinishDeletes(Go(Go(s)));
    ReadsAre(s, [], high);
    Halves(s);
    CountersAtReads(s, [], high);
  }

  /** The bounds of StaleReadBound cannot be improved: from every reachable state in which Scale is
      about to read, one interleaving attains the lower bound and another the upper bound. */
  lemma StaleReadTight(replicas: int, before: seq<Action>) returns (low: seq<Action>, high: seq<Action>)
    requires Exec(Init(replicas), before).loop.Sizing?
    requires |Exec(Init(replicas), before).gs.creates| < TWO_31 && |Exec(Init(replicas), before).gs.deletes| < TWO_31
    ensures NoLoop(low) && NoLoop(high)
    ensures var s := Exec(Init(replicas), before);
      var t := AfterReads(s, low, []);
      t.loop.Spawning? && t.loop.plan.effective - Projected(s)
        == -(Count(s.gs.creates, Undecided) + Count(s.gs.deletes, DecidedDelete))
    ensures var s := Exec(Init(replicas), before);
      var t := AfterReads(s, [], high);
      t.loop.Spawning? && t.loop.plan.effective - Projected(s)
        == Count(s.gs.creates, Decided) + Count(s.gs.deletes, UndecidedDelete)
  {
    Reachable(replicas, before);
    low := LowerBoundAttained(Exec(Init(replicas), before));
    high := UpperBoundAttained(Exec(Init(replicas), before));
  }
}
