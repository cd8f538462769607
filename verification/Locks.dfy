/** Every lock that the server, its pools and their goroutines take, the order they take them in, and
    their accesses to what the locks guard. */
module Locks {
  type PoolId = string
  type Tid = nat

  /** Server.l, Pool.l, Pool.machinesMu and the GitHub client's installationsMu. */
  datatype Lock = ServerLock | ScaleLock(pool: PoolId) | MachinesLock(pool: PoolId) | ClientLock

  function Rank(l: Lock): nat {
    match l
    case ServerLock => 0
    case ScaleLock(_) => 1
    case MachinesLock(_) => 2
    case ClientLock => 2
  }

  /** Access is a use of what the lock guards: the server's pools, a call of Scale, a pool's machine map,
      the clients of the installations. Peek is a read of the same that takes no lock. Block stands for
      anything else a goroutine may wait for: StopVMM, a VM's exit, containerd, GitHub, a guest agent. */
  datatype Op = Acquire(lock: Lock) | Release(lock: Lock) | Access(lock: Lock) | Peek(lock: Lock) | Block

  /** The locks under which no other is taken. */
  predicate Leaf(l: Lock) {
    l.MachinesLock? || l.ClientLock?
  }

  /** What a goroutine runs, with the pools it visits in the order its map iteration yields them. */
  datatype Call =
    | FindPool
    | GetPool(pool: PoolId)
    | ListPools(pools: seq<PoolId>)
    | ListAllMachines(pools: seq<PoolId>)
    | ListMachinesOf(pool: PoolId)
    | FindMachine(visited: seq<PoolId>)
    | RunIteration(pool: PoolId)
    | CreateMachine(pool: PoolId)
    | DeleteMachine(pool: PoolId)
    | CleanUp(pool: PoolId)
    | StopPool(pool: PoolId)

  /** A critical section without anything but the access itself. */
  function Section(l: Lock): seq<Op> {
    [Acquire(l), Access(l), Release(l)]
  }

  /** A short critical section on each pool's machine map, one after the other. */
  function Visit(pools: seq<PoolId>): seq<Op> {
    if pools == [] then []
    else Section(MachinesLock(pools[0])) + Visit(pools[1..])
  }

  function Program(c: Call): seq<Op> {
    match c
    case FindPool => Section(ServerLock) + []
    case GetPool(p) => Section(ServerLock) + (Visit([p]) + [])
    case ListPools(ps) => Section(ServerLock) + (Visit(ps) + [])
    case ListAllMachines(ps) => Section(ServerLock) + (Visit(ps) + [Block])
    case ListMachinesOf(p) => Section(ServerLock) + (Visit([p]) + [Block])
    case FindMachine(ps) =>
      [Acquire(ServerLock)] + ([Access(ServerLock)] + (Visit(ps) + ([Release(ServerLock)] + [Block])))
    case RunIteration(p) => [Block] + (Visit([p]) + ScaleProgram(p))
    case CreateMachine(p) => [Block] + (Section(ClientLock) + ([Block] + (Visit([p]) + [])))
    case DeleteMachine(p) => Visit([p]) + [Block]
    case CleanUp(p) => [Block] + (Visit([p]) + (Section(ClientLock) + [Block]))
    case StopPool(p) => [Block] + ([Peek(MachinesLock(p))] + (Visit([p]) + [Block]))
  }

  function ScaleProgram(p: PoolId): seq<Op> {
    [Acquire(ScaleLock(p))] + ([Access(ScaleLock(p))] + (Visit([p]) + ([Release(ScaleLock(p))] + [])))
  }

  /** Under a leaf lock there is at most one access before it is released. */
  ghost predicate Brief(ops: seq<Op>, held: set<Lock>)
    requires ops != []
  {
    forall l | l in held && Leaf(l) ::
      ops[0] == Release(l) || (ops[0] == Access(l) && |ops| > 1 && ops[1] == Release(l))
  }

  /** Locks are taken in rank order, released by their holder, under a leaf lock after a single access,
      and none is held while blocking. What a lock guards is accessed under it. */
  ghost predicate WellOrdered(ops: seq<Op>, held: set<Lock>)
    decreases |ops|
  {
    if ops == [] then held == {}
    else Brief(ops, held) && match ops[0]
      case Acquire(l) =>
        && (forall h | h in held :: Rank(h) < Rank(l))
        && WellOrdered(ops[1..], held + {l})
      case Release(l) => l in held && WellOrdered(ops[1..], held - {l})
      case Access(l) =>
        l in held && WellOrdered(ops[1..], held)
      case Peek(_) => WellOrdered(ops[1..], held)
      case Block => held == {} && WellOrdered(ops[1..], held)
  }

  lemma Prefixed(first: Op, rest: seq<Op>)
    ensures ([first] + rest)[0] == first && ([first] + rest)[1..] == rest
  {
  }

  lemma SectionOrdered(l: Lock, rest: seq<Op>, held: set<Lock>)
    requires (forall h | h in held :: Rank(h) < Rank(l)) && WellOrdered(rest, held)
    ensures WellOrdered(Section(l) + rest, held)
  {
    var ops := Section(l) + rest;
    Prefixed(Release(l), rest);
    Prefixed(Access(l), [Release(l)] + rest);
    Prefixed(Acquire(l), [Access(l)] + ([Release(l)] + rest));
    assert ops == [Acquire(l)] + ([Access(l)] + ([Release(l)] + rest));
    assert held + {l} - {l} == held;
  }

  lemma {:induction false} VisitOrdered(pools: seq<PoolId>, rest: seq<Op>, held: set<Lock>)
    requires (forall h | h in held :: Rank(h) < 2) && WellOrdered(rest, held)
    ensures WellOrdered(Visit(pools) + rest, held)
  {
    hide WellOrdered;
    if pools == [] {
      assert Visit(pools) + rest == rest;
    } else {
      VisitOrdered(pools[1..], rest, held);
      SectionOrdered(MachinesLock(pools[0]), Visit(pools[1..]) + rest, held);
      assert Visit(pools) + rest == Section(MachinesLock(pools[0])) + (Visit(pools[1..]) + rest);
    }
  }

  lemma BlockOrdered(rest: seq<Op>)
    requires WellOrdered(rest, {})
    ensures WellOrdered([Block] + rest, {})
  {
    Prefixed(Block, rest);
  }

  /** An access and visits to machine maps under a lock that is no leaf. */
  lemma SectionAround(l: Lock, pools: seq<PoolId>, rest: seq<Op>)
    requires Rank(l) < 2 && WellOrdered(rest, {})
    ensures WellOrdered([Acquire(l)] + ([Access(l)] + (Visit(pools) + ([Release(l)] + rest))), {})
  {
    Prefixed(Release(l), rest);
    assert {l} - {l} == {} && {} + {l} == {l};
    assert WellOrdered([Release(l)] + rest, {l});
    VisitOrdered(pools, [Release(l)] + rest, {l});
    Prefixed(Access(l), Visit(pools) + ([Release(l)] + rest));
    Prefixed(Acquire(l), [Access(l)] + (Visit(pools) + ([Release(l)] + rest)));
  }

  /** Every program of the repository keeps the order. */
  lemma ProgramsOrdered(c: Call)
    ensures WellOrdered(Program(c), {})
  {
    assert WellOrdered([], {}) && WellOrdered([Block] + [], {}) by { BlockOrdered([]); }
    assert [Block] + [] == [Block];
    hide WellOrdered;
    match c
    case FindPool => SectionOrdered(ServerLock, [], {});
    case GetPool(p) => VisitOrdered([p], [], {}); SectionOrdered(ServerLock, Visit([p]) + [], {});
    case ListPools(ps) => VisitOrdered(ps, [], {}); SectionOrdered(ServerLock, Visit(ps) + [], {});
    case ListAllMachines(ps) => VisitOrdered(ps, [Block], {}); SectionOrdered(ServerLock, Visit(ps) + [Block], {});
    case ListMachinesOf(p) => VisitOrdered([p], [Block], {}); SectionOrdered(ServerLock, Visit([p]) + [Block], {});
    case FindMachine(ps) => SectionAround(ServerLock, ps, [Block]);
    case RunIteration(p) =>
      SectionAround(ScaleLock(p), [p], []);
      VisitOrdered([p], ScaleProgram(p), {});
      BlockOrdered(Visit([p]) + ScaleProgram(p));
    case CreateMachine(p) =>
      VisitOrdered([p], [], {});
      BlockOrdered(Visit([p]) + []);
      SectionOrdered(ClientLock, [Block] + (Visit([p]) + []), {});
      BlockOrdered(Section(ClientLock) + ([Block] + (Visit([p]) + [])));
    case DeleteMachine(p) => VisitOrdered([p], [Block], {});
    case CleanUp(p) =>
      SectionOrdered(ClientLock, [Block], {});
      VisitOrdered([p], Section(ClientLock) + [Block], {});
      BlockOrdered(Visit([p]) + (Section(ClientLock) + [Block]));
    case StopPool(p) =>
      VisitOrdered([p], [Block], {});
      PeekOrdered(MachinesLock(p), Visit([p]) + [Block]);
      BlockOrdered([Peek(MachinesLock(p))] + (Visit([p]) + [Block]));
  }

  lemma PeekOrdered(l: Lock, rest: seq<Op>)
    requires WellOrdered(rest, {})
    ensures WellOrdered([Peek(l)] + rest, {})
  {
    Prefixed(Peek(l), rest);
  }

  // ----- Running any number of them

  datatype Thread = Thread(ops: seq<Op>, held: set<Lock>)

  type Threads = map<Tid, Thread>

  /** A call that fails returns early, holding no lock. */
  datatype Action = Begin(t: Tid, call: Call) | Move(t: Tid) | ReturnEarly(t: Tid)

  ghost predicate Free(s: Threads, l: Lock) {
    forall t | t in s :: l !in s[t].held
  }

  ghost predicate CanMove(s: Threads, t: Tid) {
    t in s && s[t].ops != [] && (s[t].ops[0].Acquire? ==> Free(s, s[t].ops[0].lock))
  }

  ghost function Step(s: Threads, a: Action): Threads {
    match a
    case Begin(t, call) => if t in s then s else s[t := Thread(Program(call), {})]
    case ReturnEarly(t) => if t in s && s[t].held == {} then s[t := Thread([], {})] else s
    case Move(t) =>
      if !CanMove(s, t) then s
      else
        var rest := s[t].ops[1..];
        match s[t].ops[0]
        case Acquire(l) => s[t := Thread(rest, s[t].held + {l})]
        case Release(l) => s[t := Thread(rest, s[t].held - {l})]
        case _ => s[t := Thread(rest, s[t].held)]
  }

  ghost function Exec(schedule: seq<Action>): Threads {
    if schedule == [] then map[]
    else Step(Exec(schedule[..|schedule| - 1]), schedule[|schedule| - 1])
  }

  ghost predicate Disciplined(s: Threads) {
    && (forall t | t in s :: WellOrdered(s[t].ops, s[t].held))
    && (forall t, u | t in s && u in s && t != u :: s[t].held !! s[u].held)
  }

  lemma StepDisciplined(s: Threads, a: Action)
    requires Disciplined(s)
    ensures Disciplined(Step(s, a))
  {
    hide Program, Brief;
    if a.Begin? {
      ProgramsOrdered(a.call);
    }
  }

  lemma {:induction false} AlwaysDisciplined(schedule: seq<Action>)
    ensures Disciplined(Exec(schedule))
    decreases |schedule|
  {
    if schedule != [] {
      AlwaysDisciplined(schedule[..|schedule| - 1]);
      StepDisciplined(Exec(schedule[..|schedule| - 1]), schedule[|schedule| - 1]);
    }
  }

  /** t waits for a lock that u holds; u may be t itself. */
  ghost predicate Waits(s: Threads, t: Tid, u: Tid) {
    && t in s && u in s
    && s[t].ops != [] && s[t].ops[0].Acquire?
    && s[t].ops[0].lock in s[u].held
  }

  function Wanted(s: Threads, t: Tid): nat
    requires t in s && s[t].ops != [] && s[t].ops[0].Acquire?
  {
    Rank(s[t].ops[0].lock)
  }

  lemma WaitsClimb(s: Threads, t: Tid, u: Tid, v: Tid)
    requires Disciplined(s) && Waits(s, t, u) && Waits(s, u, v)
    ensures Wanted(s, t) < Wanted(s, u)
  {
    assert WellOrdered(s[u].ops, s[u].held);
  }

  lemma {:induction false} ChainClimbs(s: Threads, chain: seq<Tid>, i: nat)
    requires Disciplined(s) && i < |chain| - 1
    requires forall k | 0 <= k < |chain| - 1 :: Waits(s, chain[k], chain[k + 1])
    ensures Waits(s, chain[0], chain[1]) && Waits(s, chain[i], chain[i + 1])
    ensures Wanted(s, chain[0]) + i <= Wanted(s, chain[i])
  {
    if i > 0 {
      ChainClimbs(s, chain, i - 1);
      assert Waits(s, chain[i - 1], chain[i]);
      WaitsClimb(s, chain[i - 1], chain[i], chain[i + 1]);
    }
  }

  /** No reachable state has a cycle of lock waits, of any length, over any locks. */
  lemma NoWaitCycle(schedule: seq<Action>, cycle: seq<Tid>)
    requires |cycle| >= 2 && cycle[0] == cycle[|cycle| - 1]
    ensures exists k :: 0 <= k < |cycle| - 1 && !Waits(Exec(schedule), cycle[k], cycle[k + 1])
  {
    var s := Exec(schedule);
    AlwaysDisciplined(schedule);
    if forall k | 0 <= k < |cycle| - 1 :: Waits(s, cycle[k], cycle[k + 1]) {
      var n := |cycle| - 2;
      ChainClimbs(s, cycle, n);
      assert Waits(s, cycle[n], cycle[n + 1]);
      assert Waits(s, cycle[0], cycle[1]);
      WaitsClimb(s, cycle[n], cycle[0], cycle[1]);
      assert false;
    }
  }

  lemma {:induction false} FindRunnable(s: Threads, t: Tid) returns (u: Tid)
    requires Disciplined(s) && t in s && s[t].ops != []
    ensures CanMove(s, u)
    decreases if s[t].ops[0].Acquire? then 3 - Rank(s[t].ops[0].lock) else 0
  {
    if CanMove(s, t) {
      u := t;
    } else {
      var l := s[t].ops[0].lock;
      var h :| h in s && l in s[h].held;
      assert WellOrdered(s[h].ops, s[h].held);
      u := FindRunnable(s, h);
    }
  }

  /** Deadlock freedom: while any goroutine has work left, some goroutine can take its next step. */
  lemma SomeoneCanMove(schedule: seq<Action>, t: Tid) returns (u: Tid)
    requires t in Exec(schedule) && Exec(schedule)[t].ops != []
    ensures CanMove(Exec(schedule), u)
  {
    AlwaysDisciplined(schedule);
    u := FindRunnable(Exec(schedule), t);
  }

  /** A goroutine that holds a machine map's or the client's lock has at most one access left before it
      releases it, and one that waits for StopVMM or for anything else but a lock holds no lock. */
  lemma ShortCriticalSections(schedule: seq<Action>, t: Tid)
    requires t in Exec(schedule) && Exec(schedule)[t].ops != []
    ensures var th := Exec(schedule)[t];
      && (th.ops[0].Block? ==> th.held == {})
      && (forall l | l in th.held && Leaf(l) ::
            th.ops[0] == Release(l) || (th.ops[0] == Access(l) && |th.ops| > 1 && th.ops[1] == Release(l)))
  {
    AlwaysDisciplined(schedule);
    var th := Exec(schedule)[t];
    assert WellOrdered(th.ops, th.held);
  }

  // ----- Races

  /** Both goroutines are about to use what the lock guards. */
  ghost predicate Meets(s: Threads, t: Tid, u: Tid, l: Lock) {
    && t in s && u in s && t != u && s[t].ops != [] && s[u].ops != []
    && s[t].ops[0] in {Access(l), Peek(l)} && s[u].ops[0] in {Access(l), Peek(l)}
  }

  ghost predicate Peeks(s: Threads, t: Tid) {
    t in s && s[t].ops != [] && s[t].ops[0].Peek?
  }

  /** No two goroutines ever use the same guarded data at the same time, except that one of them is at
      the read without a lock. */
  lemma RacesOnlyWithPeek(schedule: seq<Action>, t: Tid, u: Tid, l: Lock)
    requires Meets(Exec(schedule), t, u, l)
    ensures Peeks(Exec(schedule), t) || Peeks(Exec(schedule), u)
  {
    var s := Exec(schedule);
    AlwaysDisciplined(schedule);
    assert WellOrdered(s[t].ops, s[t].held) && WellOrdered(s[u].ops, s[u].held);
  }

  lemma Then(schedule: seq<Action>, s: Threads, a: Action) returns (longer: seq<Action>, n: Threads)
    requires s == Exec(schedule)
    ensures longer == schedule + [a] && n == Step(s, a) == Exec(longer)
  {
    longer, n := schedule + [a], Step(s, a);
    assert longer[..|schedule|] == schedule;
  }

  /** It does happen: Stop logs the number of machines without the lock while a call that holds it is
      using the map. */
  lemma StopRaces(p: PoolId) returns (schedule: seq<Action>)
    ensures Meets(Exec(schedule), 0, 1, MachinesLock(p)) && Peeks(Exec(schedule), 0)
  {
    hide Exec, Step;
    var s: Threads := map[];
    schedule := [];
    assert Exec([]) == map[] by { NobodyYet(); }
    schedule, s := Then(schedule, s, Begin(0, StopPool(p)));
    Begins(map[], 0, StopPool(p));
    StopBegins(p);
    var first := s;
    schedule, s := Then(schedule, s, Move(0));
    Moves(first, 0);
    var second := s;
    schedule, s := Then(schedule, s, Begin(1, DeleteMachine(p)));
    Begins(second, 1, DeleteMachine(p));
    DeleteBegins(p);
    var third := s;
    schedule, s := Then(schedule, s, Move(1));
    Moves(third, 1);
  }

  lemma NobodyYet()
    ensures Exec([]) == map[]
  {
  }

  lemma Begins(s: Threads, t: Tid, c: Call)
    requires t !in s
    ensures Step(s, Begin(t, c)) == s[t := Thread(Program(c), {})]
  {
  }

  lemma Moves(s: Threads, t: Tid)
    requires t in s && s[t].ops != [] && !s[t].ops[0].Release? && (s[t].ops[0].Acquire? ==> Free(s, s[t].ops[0].lock))
    ensures Step(s, Move(t)) == s[t := Thread(s[t].ops[1..],
      s[t].held + if s[t].ops[0].Acquire? then {s[t].ops[0].lock} else {})]
  {
    assert s[t].held + {} == s[t].held;
  }

  lemma StopBegins(p: PoolId)
    ensures var ops := Program(StopPool(p)); |ops| > 1 && ops[0] == Block && ops[1] == Peek(MachinesLock(p))
  {
  }

  lemma DeleteBegins(p: PoolId)
    ensures var ops := Program(DeleteMachine(p));
      |ops| > 1 && ops[0] == Acquire(MachinesLock(p)) && ops[1] == Access(MachinesLock(p))
  {
  }
}
