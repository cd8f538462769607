/** Go's int32, as stored by the atomic counters and the replica count. */
module Int32 {
  const TWO_31 := 0x8000_0000
  const TWO_32 := 0x1_0000_0000

  /** The int32 that x becomes when it is cut to its low 32 bits. */
  function ToInt32(x: int): int
    decreases if x < 0 then -x - 1 else x
  {
    if x < -TWO_31 then ToInt32(x + TWO_32)
    else if x >= TWO_31 then ToInt32(x - TWO_32)
    else x
  }

  /** The result is in range and differs from x by a multiple of 2^32, which determines it. */
  lemma {:induction false} ToInt32Congruent(x: int)
    ensures -TWO_31 <= ToInt32(x) < TWO_31
    ensures (x - ToInt32(x)) % TWO_32 == 0
    decreases if x < 0 then -x - 1 else x
  {
    if x < -TWO_31 {
      ToInt32Congruent(x + TWO_32);
    } else if x >= TWO_31 {
      ToInt32Congruent(x - TWO_32);
    }
  }

  /** Wrapping after every addition is the same as wrapping once at the end. */
  lemma {:induction false} AddWraps(x: int, d: int)
    ensures ToInt32(ToInt32(x) + d) == ToInt32(x + d)
    decreases if x < 0 then -x - 1 else x
  {
    if x < -TWO_31 {
      AddWraps(x + TWO_32, d);
    } else if x >= TWO_31 {
      AddWraps(x - TWO_32, d);
    }
  }
}

/** The pool controller as a transition system.

    Every access to the machine map, every atomic operation, every channel operation and every
    external call is one step. Goroutines are records with a phase. The environment picks the
    schedule, the outcome of each external call, VM exits, RPC calls and the moment of shutdown. */
module PoolMachine {
  import opened Int32

  type Gid = nat   // goroutine identity
  type Name = nat  // runner name; fresh for each create

  /** An entry of the machine map. */
  datatype Machine = Machine(cid: nat)

  datatype Outcome = Succeeded | Failed | Skipped

  /** A goroutine started by scaleUp. */
  datatype Create =
    | Spawned
    | Checked                          // past the context check
    | Leased(name: Name)
    | Booting(name: Name, cid: nat)    // the vsock CID is taken, the VM is not started
    | Failing(name: Name)              // returning an error; the deferred lease cancel is due
    | Started(name: Name, cid: nat)    // machineCreated is true
    | Inserted(name: Name, cid: nat)   // in the map; the cleanup goroutine is not registered
    | Returned(outcome: Outcome)       // the deferred counter decrement is due

  /** A goroutine started by scaleDown. */
  datatype Delete =
    | DeleteSpawned
    | DeleteChecked
    | Took(name: Name)                 // removed from the map; StopVMM is due
    | DeleteReturned(outcome: Outcome)

  /** The cleanup goroutine of one machine. */
  datatype CleanupPhase = Waiting | Woken | Unmapped | RunnerGone | LeaseGone
  datatype Cleanup = Cleanup(name: Name, phase: CleanupPhase)

  /** What one call of Scale has decided: the desired size, the size read, the effective size. */
  datatype Plan = Plan(desired: int, size: nat, effective: int)

  function Ups(p: Plan): nat {
    if p.desired > p.effective then p.desired - p.effective else 0
  }

  function Downs(p: Plan): nat {
    if p.desired < p.effective then
      (if p.effective - p.desired > p.size then p.size else p.effective - p.desired)
    else 0
  }

  /** The program counter of Run, with the local variables live there. */
  datatype Loop =
    | Starting
    | Selecting
    | Got                                                   // received; the stop check is next
    | Passed                                                // about to read the replica count
    | Read(desired: int)
    | Scaling(desired: int)                                 // in Scale, before the context check
    | Sizing(desired: int)
    | Sized(desired: int, size: nat)
    | CreatesRead(desired: int, size: nat, creates: int)
    | Spawning(plan: Plan, done: nat)
    | Exited

  /** The program counter of Stop. */
  datatype Stop =
    | NotStopped
    | Cancelled
    | Signalled
    | LoopAwaited
    | Draining(stopped: set<Name>, zeroSeen: bool)  // waiting for the cleanup WaitGroup
    | StopReturned(clean: bool)

  /** The fields of Pool that goroutines share. */
  datatype Memory = Memory(
    machines: map<Name, Machine>,
    pendingCreates: int,
    pendingDeletes: int,
    replicas: int,
    isActive: bool,
    scaleTrigger: bool,
    stopCh: bool,
    ctxDone: bool)

  /** The goroutines that are alive, apart from Run. */
  datatype Goroutines = Goroutines(
    creates: map<Gid, Create>,
    deletes: map<Gid, Delete>,
    cleanups: map<Gid, Cleanup>,
    nextGid: Gid,
    callers: set<Gid>,  // SetReplicas calls between their store and their trigger
    stop: Stop)

  datatype Tally = Tally(spawned: nat, succeeded: nat, failed: nat, skipped: nat)

  /** What has happened so far; no step of the pool depends on it, except that names are fresh and
      that a VM is started before it exits. */
  datatype History = History(
    owner: map<Name, Gid>,     // every lease ever acquired, with the goroutine answerable for it
    cancelled: set<Name>,      // leases whose cancel function has been called
    cancelCalls: nat,          // calls of cancel functions
    cidOf: map<Name, nat>,
    started: set<Name>,
    exited: set<Name>,
    inserted: set<Name>,
    takenBy: map<Name, Gid>,   // removals by deleteMachine
    unmapped: set<Name>,       // removals by a cleanup goroutine
    stores: nat,               // stores to replicas
    readAt: nat,               // the number of stores at the loop's latest read
    lastRead: int,
    creates: Tally,
    deletes: Tally)

  datatype State = State(mem: Memory, gs: Goroutines, loop: Loop, hist: History)

  datatype Wake = Token | Timer | StopSignal | ContextDone

  datatype Action =
    | LoopStep(wake: Wake)
    | CreateStep(g: Gid, ok: bool, name: Name, cid: nat)
    | DeleteStep(g: Gid, ok: bool, name: Name)
    | CleanupStep(g: Gid, timeout: bool)
    | VmExit(name: Name)
    | Store(value: int, caller: Gid)
    | Trigger(caller: Gid)
    | SetActive(active: bool)
    | StopStep(timeout: bool)

  /** The state NewPool leaves behind. */
  function Init(replicas: int): State {
    State(
      Memory(map[], 0, 0, ToInt32(replicas), true, false, false, false),
      Goroutines(map[], map[], map[], 0, {}, NotStopped),
      Starting,
      History(map[], {}, 0, map[], {}, {}, {}, map[], {}, 0, 0, ToInt32(replicas),
              Tally(0, 0, 0, 0), Tally(0, 0, 0, 0)))
  }

  function Finish(t: Tally, o: Outcome): Tally {
    match o
    case Succeeded => t.(succeeded := t.succeeded + 1)
    case Failed => t.(failed := t.failed + 1)
    case Skipped => t.(skipped := t.skipped + 1)
  }

  function Cancel(h: History, n: Name): History {
    h.(cancelled := h.cancelled + {n}, cancelCalls := h.cancelCalls + 1)
  }

  function SetCreate(s: State, g: Gid, c: Create): State {
    s.(gs := s.gs.(creates := s.gs.creates[g := c]))
  }

  /** One step of a create goroutine. ok is the outcome of the external call made in this step. */
  function CreateNext(s: State, g: Gid, ok: bool, name: Name, cid: nat): State {
    if g !in s.gs.creates then s
    else match s.gs.creates[g]
      case Spawned =>
        SetCreate(s, g, if s.mem.ctxDone then Returned(Skipped) else Checked)
      case Checked =>
        if !ok then SetCreate(s, g, Returned(Failed))
        else if name in s.hist.owner then s
        else SetCreate(s, g, Leased(name)).(hist := s.hist.(owner := s.hist.owner[name := g]))
      case Leased(n) =>
        if !ok then SetCreate(s, g, Failing(n))
        else SetCreate(s, g, Booting(n, cid)).(hist := s.hist.(cidOf := s.hist.cidOf[n := cid]))
      case Booting(n, c) =>
        if !ok then SetCreate(s, g, Failing(n))
        else SetCreate(s, g, Started(n, c)).(hist := s.hist.(started := s.hist.started + {n}))
      case Failing(n) =>
        SetCreate(s, g, Returned(Failed)).(hist := Cancel(s.hist, n))
      case Started(n, c) =>
        SetCreate(s, g, Inserted(n, c)).(
          mem := s.mem.(machines := s.mem.machines[n := Machine(c)]),
          hist := s.hist.(inserted := s.hist.inserted + {n}))
      case Inserted(n, c) =>
        s.(gs := s.gs.(
            creates := s.gs.creates[g := Returned(Succeeded)],
            cleanups := s.gs.cleanups[s.gs.nextGid := Cleanup(n, Waiting)],
            nextGid := s.gs.nextGid + 1),
          hist := s.hist.(owner := s.hist.owner[n := s.gs.nextGid]))
      case Returned(o) =>
        s.(mem := s.mem.(pendingCreates := ToInt32(s.mem.pendingCreates - 1)),
          gs := s.gs.(creates := s.gs.creates - {g}),
          hist := s.hist.(creates := Finish(s.hist.creates, o)))
  }

  function SetDelete(s: State, g: Gid, d: Delete): State {
    s.(gs := s.gs.(deletes := s.gs.deletes[g := d]))
  }

  /** One step of a delete goroutine. The map iteration of deleteMachine may yield any entry. */
  function DeleteNext(s: State, g: Gid, ok: bool, name: Name): State {
    if g !in s.gs.deletes then s
    else match s.gs.deletes[g]
      case DeleteSpawned =>
        SetDelete(s, g, if s.mem.ctxDone then DeleteReturned(Skipped) else DeleteChecked)
      case DeleteChecked =>
        if s.mem.machines == map[] then SetDelete(s, g, DeleteReturned(Failed))
        else if name !in s.mem.machines then s
        else SetDelete(s, g, Took(name)).(
          mem := s.mem.(machines := s.mem.machines - {name}),
          hist := s.hist.(takenBy := s.hist.takenBy[name := g]))
      case Took(n) =>
        SetDelete(s, g, DeleteReturned(if ok then Succeeded else Failed))
      case DeleteReturned(o) =>
        s.(mem := s.mem.(pendingDeletes := ToInt32(s.mem.pendingDeletes - 1)),
          gs := s.gs.(deletes := s.gs.deletes - {g}),
          hist := s.hist.(deletes := Finish(s.hist.deletes, o)))
  }

  function SetCleanup(s: State, g: Gid, phase: CleanupPhase): State
    requires g in s.gs.cleanups
  {
    s.(gs := s.gs.(cleanups := s.gs.cleanups[g := Cleanup(s.gs.cleanups[g].name, phase)]))
  }

  /** One step of a cleanup goroutine. timeout is the 30 second limit that applies during shutdown. */
  function CleanupNext(s: State, g: Gid, timeout: bool): State {
    if g !in s.gs.cleanups then s
    else
      var n := s.gs.cleanups[g].name;
      match s.gs.cleanups[g].phase
      case Waiting =>
        if n in s.hist.exited || (s.mem.ctxDone && timeout) then SetCleanup(s, g, Woken) else s
      case Woken =>
        SetCleanup(s, g, Unmapped).(
          mem := s.mem.(machines := s.mem.machines - {n}),
          hist := s.hist.(unmapped := if n in s.mem.machines then s.hist.unmapped + {n} else s.hist.unmapped))
      case Unmapped =>
        SetCleanup(s, g, RunnerGone)
      case RunnerGone =>
        SetCleanup(s, g, LeaseGone).(hist := Cancel(s.hist, n))
      case LeaseGone =>
        s.(gs := s.gs.(cleanups := s.gs.cleanups - {g}))
  }

  /** Scale starts one more goroutine, or returns when it has started them all. */
  function SpawnNext(s: State, plan: Plan, done: nat): State {
    if done < Ups(plan) then
      s.(mem := s.mem.(pendingCreates := ToInt32(s.mem.pendingCreates + 1)),
        gs := s.gs.(creates := s.gs.creates[s.gs.nextGid := Spawned], nextGid := s.gs.nextGid + 1),
        hist := s.hist.(creates := s.hist.creates.(spawned := s.hist.creates.spawned + 1)),
        loop := Spawning(plan, done + 1))
    else if done < Downs(plan) then
      s.(mem := s.mem.(pendingDeletes := ToInt32(s.mem.pendingDeletes + 1)),
        gs := s.gs.(deletes := s.gs.deletes[s.gs.nextGid := DeleteSpawned], nextGid := s.gs.nextGid + 1),
        hist := s.hist.(deletes := s.hist.deletes.(spawned := s.hist.deletes.spawned + 1)),
        loop := Spawning(plan, done + 1))
    else s.(loop := Selecting)
  }

  /** The select statement of Run. */
  function SelectNext(s: State, wake: Wake): State {
    match wake
    case Token => if s.mem.scaleTrigger then s.(mem := s.mem.(scaleTrigger := false), loop := Got) else s
    case Timer => s.(loop := Got)
    case StopSignal => if s.mem.stopCh then s.(mem := s.mem.(stopCh := false), loop := Exited) else s
    case ContextDone => if s.mem.ctxDone then s.(loop := Exited) else s
  }

  /** One step of Run, including the call of Scale it makes. */
  function LoopNext(s: State, wake: Wake): State {
    match s.loop
    case Starting => s.(mem := s.mem.(scaleTrigger := true), loop := Selecting)
    case Selecting => SelectNext(s, wake)
    case Got =>
      if s.mem.ctxDone then s.(loop := Exited)
      else if s.mem.stopCh then s.(mem := s.mem.(stopCh := false), loop := Exited)
      else s.(loop := Passed)
    case Passed =>
      s.(loop := Read(s.mem.replicas),
        hist := s.hist.(readAt := s.hist.stores, lastRead := s.mem.replicas))
    case Read(r) => s.(loop := if s.mem.isActive then Scaling(r) else Selecting)
    case Scaling(r) => s.(loop := if s.mem.ctxDone then Selecting else Sizing(r))
    case Sizing(r) => s.(loop := Sized(r, |s.mem.machines|))
    case Sized(r, c) => s.(loop := CreatesRead(r, c, s.mem.pendingCreates))
    case CreatesRead(r, c, pc) => s.(loop := Spawning(Plan(r, c, c + pc - s.mem.pendingDeletes), 0))
    case Spawning(plan, done) => SpawnNext(s, plan, done)
    case Exited => s
  }

  /** One step of Stop. */
  function StopNext(s: State, timeout: bool): State {
    match s.gs.stop
    case NotStopped => s.(mem := s.mem.(ctxDone := true), gs := s.gs.(stop := Cancelled))
    case Cancelled => s.(mem := s.mem.(stopCh := true), gs := s.gs.(stop := Signalled))
    case Signalled => if s.loop.Exited? || timeout then s.(gs := s.gs.(stop := LoopAwaited)) else s
    case LoopAwaited => s.(gs := s.gs.(stop := Draining(s.mem.machines.Keys, false)))
    case Draining(names, zeroSeen) =>
      if timeout then s.(gs := s.gs.(stop := StopReturned(false)))
      else if zeroSeen then s.(gs := s.gs.(stop := StopReturned(true)))
      else if s.gs.cleanups == map[] then s.(gs := s.gs.(stop := Draining(names, true)))
      else s
    case StopReturned(_) => s
  }

  /** The state after an action; an action that is not enabled changes nothing. */
  function Step(s: State, a: Action): State {
    match a
    case LoopStep(wake) => LoopNext(s, wake)
    case CreateStep(g, ok, name, cid) => CreateNext(s, g, ok, name, cid)
    case DeleteStep(g, ok, name) => DeleteNext(s, g, ok, name)
    case CleanupStep(g, timeout) => CleanupNext(s, g, timeout)
    case VmExit(n) =>
      if n in s.hist.started then s.(hist := s.hist.(exited := s.hist.exited + {n})) else s
    case Store(v, c) =>
      if c in s.gs.callers then s
      else s.(mem := s.mem.(replicas := ToInt32(v)), gs := s.gs.(callers := s.gs.callers + {c}),
        hist := s.hist.(stores := s.hist.stores + 1))
    case Trigger(c) =>
      if c in s.gs.callers then
        s.(mem := s.mem.(scaleTrigger := true), gs := s.gs.(callers := s.gs.callers - {c}))
      else s
    case SetActive(b) => s.(mem := s.mem.(isActive := b))
    case StopStep(timeout) => StopNext(s, timeout)
  }

  /** The state after a whole schedule. The reachable states are Exec(Init(r), schedule). */
  function Exec(s: State, schedule: seq<Action>): State {
    if schedule == [] then s
    else Step(Exec(s, schedule[..|schedule| - 1]), schedule[|schedule| - 1])
  }

  lemma ExecStep(s: State, schedule: seq<Action>, a: Action)
    ensures Exec(s, schedule + [a]) == Step(Exec(s, schedule), a)
  {
    assert (schedule + [a])[..|schedule|] == schedule;
  }

  lemma {:induction false} ExecAppend(s: State, first: seq<Action>, second: seq<Action>)
    ensures Exec(s, first + second) == Exec(Exec(s, first), second)
    decreases |second|
  {
    if second == [] {
      assert first + second == first;
    } else {
      var n := |second| - 1;
      assert first + second == (first + second[..n]) + [second[n]];
      ExecStep(s, first + second[..n], second[n]);
      ExecAppend(s, first, second[..n]);
    }
  }
}
