/** With a receiver the loop goes idle; what it has then delivered, and when that is everything. */
module FollowDelivery {
  import opened Lines
  import opened Options
  import opened TailLast
  import opened FollowMachine
  import opened FollowInvariants
  import opened FollowWatch
  import opened FollowTheorems
  import opened FollowShutdown

  /** Nothing is left for the loop to do until something happens. */
  predicate Idle(s: State) {
    s.t.phase.Waiting? && s.w.events == [] && s.w.errors == 0
  }

  /** The loop reads, and some file is watched. */
  predicate Live(s: State) {
    Looking(s.cfg, s.t.phase) && s.w.watch.Some? && !s.w.stopped
  }

  /** A watch has ended and the loop has yet to turn to the file at the path. */
  predicate Turning(s: State) {
    s.t.phase.Reopening? || (Looking(s.cfg, s.t.phase) && s.w.watch.None?)
  }

  /** The loop runs, nobody has called Stop, and there is a file at the path to turn to when a watch
      ends. */
  predicate Active(s: State) {
    && s.cfg.follow && InLoop(s.t.phase) && !s.w.stopped && s.w.path.Some?
    && (Turning(s) ==> s.cfg.reopen)
  }

  /** How many more turns the loop can take, at most. */
  function Todo(s: State): nat
    requires InFile(s)
  {
    Measure(s) + (if Turning(s) && s.w.path.Some? then 3 * Length(s.w, s.w.path.value) + 5 else 0)
  }

  /** The loop reads, or is going to read, the file that is at the path now. */
  predicate OnTrack(s: State) {
    Turning(s) || (s.w.path == Some(s.t.fd) && (Looking(s.cfg, s.t.phase) ==> s.w.watch == s.w.path))
  }

  /** What a turn of the loop leaves alone. */
  predicate SameWorld(s: State, n: State) {
    n.cfg == s.cfg && n.w.files == s.w.files && n.w.path == s.w.path && !n.w.stopped
  }

  // ----- Turns while a file is watched

  predicate StaysLive(s: State, n: State)
    requires InFile(s)
  {
    && InFile(n) && Live(n) && SameWorld(s, n) && Measure(n) < Measure(s)
    && n.w.watch == s.w.watch && n.t.fd == s.t.fd && n.past.before == s.past.before
  }

  lemma FirstIsNoRotation(events: seq<Event>)
    requires events != [] && Rotations(events) == 0
    ensures !Rotation(events[0])
  {
  }

  lemma LiveWaitCosts(s: State, choice: Choice)
    requires InFile(s) && Live(s) && s.t.phase.Waiting? && Ready(s, choice) && Watched(s.cfg, s.w, s.t, s.past)
    ensures StaysLive(s, WaitNext(s, choice))
  {
    hide Rotations, WriteAhead, Measure;
    WaitCosts(s, choice);
    if choice.TakeEvent? {
      FirstIsNoRotation(s.w.events);
    }
  }

  lemma LiveOfferCosts(s: State)
    requires InFile(s) && Live(s) && s.t.phase.Offering?
    ensures StaysLive(s, OfferNext(s, s.t.phase.item, s.t.phase.next, true))
  {
  }

  lemma LiveScanCosts(s: State, amount: nat)
    requires InFile(s) && Live(s) && s.t.phase.Scanning?
    ensures StaysLive(s, ScanNext(s, amount))
  {
    hide Measure, LineEnd, Text;
    ScanCosts(s, amount);
  }

  predicate Turn(s: State, a: Action) {
    a.Run? && a.receive && Ready(s, a.choice)
  }

  lemma LiveCosts(s: State, a: Action)
    requires Inv(s) && InFile(s) && Live(s) && Turn(s, a)
    ensures StaysLive(s, Step(s, a))
  {
    hide Sound, StaysLive, ScanNext, WaitNext, OfferNext;
    match s.t.phase
    case Scanning => LiveScanCosts(s, a.amount);
    case Offering(item, next) => LiveOfferCosts(s);
    case Waiting => LiveWaitCosts(s, a.choice);
  }

  // ----- Turns while the loop changes files

  predicate Proceeds(s: State, n: State)
    requires InFile(s)
  {
    InFile(n) && Active(n) && SameWorld(s, n) && Todo(n) < Todo(s) && (OnTrack(n) <==> OnTrack(s))
  }

  lemma TurningScanCosts(s: State, amount: nat)
    requires InFile(s) && Active(s) && Turning(s) && s.t.phase.Scanning?
    ensures Proceeds(s, ScanNext(s, amount))
  {
    hide Measure, LineEnd, Text;
    ScanCosts(s, amount);
  }

  lemma TurningOfferCosts(s: State)
    requires InFile(s) && Active(s) && Turning(s) && s.t.phase.Offering?
    ensures Proceeds(s, OfferNext(s, s.t.phase.item, s.t.phase.next, true))
  {
  }

  lemma TurningWaitCosts(s: State, choice: Choice)
    requires InFile(s) && Active(s) && Turning(s) && s.t.phase.Waiting? && Ready(s, choice)
    ensures Proceeds(s, WaitNext(s, choice))
  {
    hide Measure;
    WaitCosts(s, choice);
  }

  lemma ReopenCosts(s: State)
    requires Placed(s.w, s.t.fd) && InFile(s) && Active(s) && s.t.phase.Reopening?
    ensures Proceeds(s, ReopenNext(s))
  {
  }

  lemma WatchCosts(s: State)
    requires InFile(s) && Active(s) && (s.t.phase.Watching? || s.t.phase.Rewatching?)
    ensures Proceeds(s, WatchNext(s))
  {
  }

  lemma LiveProceeds(s: State, n: State)
    requires InFile(s) && Active(s) && Live(s) && StaysLive(s, n)
    ensures Proceeds(s, n)
  {
    hide Measure;
  }

  lemma ActiveCosts(s: State, a: Action)
    requires Inv(s) && InFile(s) && Active(s) && Turn(s, a)
    ensures Proceeds(s, Step(s, a))
  {
    hide Sound, Watched, Proceeds, ScanNext, OfferNext, WaitNext, ReopenNext, WatchNext;
    if Live(s) {
      LiveCosts(s, a);
      LiveProceeds(s, Step(s, a));
    } else {
      match s.t.phase
      case Watching => WatchCosts(s);
      case Scanning => TurningScanCosts(s, a.amount);
      case Offering(item, next) => TurningOfferCosts(s);
      case Waiting => TurningWaitCosts(s, a.choice);
      case Reopening => ReopenCosts(s);
      case Rewatching => WatchCosts(s);
    }
  }

  // ----- Runs

  predicate Receiving(schedule: seq<Action>) {
    forall a | a in schedule :: a.Run? && a.receive
  }

  lemma ProceedsOn(s: State, m: State, n: State)
    requires InFile(s) && InFile(m) && Proceeds(m, n) && SameWorld(s, m) && (OnTrack(m) <==> OnTrack(s))
    ensures InFile(n) && Active(n) && SameWorld(s, n) && Todo(n) + 1 <= Todo(m) && (OnTrack(n) <==> OnTrack(s))
  {
    hide Todo, OnTrack;
  }

  /** However it goes on, the loop takes at most Todo(s) turns before it is idle. */
  lemma {:induction false} IdleInTime(s: State, schedule: seq<Action>)
    requires Inv(s) && Active(s) && Receiving(schedule) && ReadyTurns(s, schedule)
    ensures var n := Exec(s, schedule);
      && Inv(n) && InFile(s) && InFile(n) && Active(n) && SameWorld(s, n)
      && |schedule| + Todo(n) <= Todo(s) && (OnTrack(n) <==> OnTrack(s))
    decreases |schedule|
  {
    hide Inv, Active, Todo, OnTrack, Step, Proceeds, InFile;
    InvInFile(s);
    if schedule == [] {
      SameAtFirst(s);
    } else {
      var k := |schedule| - 1;
      var m := Exec(s, schedule[..k]);
      IdleInTime(s, schedule[..k]);
      ActiveCosts(m, schedule[k]);
      StepKeeps(m, schedule[k]);
      ProceedsOn(s, m, Step(m, schedule[k]));
    }
  }

  lemma SameAtFirst(s: State)
    requires Active(s)
    ensures SameWorld(s, s)
  {
  }

  /** While a file is watched, it is the same one all along, and so is the one that is read. */
  lemma {:induction false} LiveOn(s: State, schedule: seq<Action>)
    requires Inv(s) && Live(s) && Receiving(schedule) && ReadyTurns(s, schedule)
    ensures var n := Exec(s, schedule);
      && Inv(n) && InFile(n) && Live(n) && n.w.files == s.w.files && n.w.watch == s.w.watch
      && n.t.fd == s.t.fd && n.past.before == s.past.before
    decreases |schedule|
  {
    hide Inv, Live, Measure, Step;
    InvInFile(s);
    if schedule != [] {
      var k := |schedule| - 1;
      LiveOn(s, schedule[..k]);
      LiveCosts(Exec(s, schedule[..k]), schedule[k]);
      StepKeeps(Exec(s, schedule[..k]), schedule[k]);
    }
  }

  /** Until it is idle it always has a turn to take. */
  lemma TurnIsReady(s: State) returns (a: Action)
    requires Inv(s) && (Active(s) || Live(s)) && !Idle(s)
    ensures Turn(s, a)
  {
    a := Run(0, true, if s.w.events != [] then TakeEvent else TakeError);
  }

  lemma {:induction false} TurnFirst(s: State, a: Action, rest: seq<Action>)
    requires a.Run? ==> Ready(s, a.choice)
    requires ReadyTurns(Step(s, a), rest)
    ensures ReadyTurns(s, [a] + rest) && Exec(s, [a] + rest) == Exec(Step(s, a), rest)
    decreases |rest|
  {
    hide Step, Ready;
    var all := [a] + rest;
    if rest == [] {
      assert all[..0] == [] && all == [a];
    } else {
      var k := |rest| - 1;
      TurnFirst(s, a, rest[..k]);
      assert all[..|all| - 1] == [a] + rest[..k];
    }
  }

  lemma {:induction false} GetIdle(s: State) returns (schedule: seq<Action>)
    requires Inv(s) && InFile(s) && Active(s)
    ensures Receiving(schedule) && ReadyTurns(s, schedule) && Idle(Exec(s, schedule))
    decreases Todo(s)
  {
    hide Inv, Active, Todo, Step, Ready, InFile;
    if Idle(s) {
      schedule := [];
    } else {
      var a := TurnIsReady(s);
      ActiveCosts(s, a);
      StepKeeps(s, a);
      var rest := GetIdle(Step(s, a));
      TurnFirst(s, a, rest);
      schedule := [a] + rest;
    }
  }

  lemma {:induction false} GetIdleLive(s: State) returns (schedule: seq<Action>)
    requires Inv(s) && InFile(s) && Live(s)
    ensures Receiving(schedule) && ReadyTurns(s, schedule) && Idle(Exec(s, schedule))
    decreases Measure(s)
  {
    hide Inv, Live, Measure, Step, Ready, InFile;
    if Idle(s) {
      schedule := [];
    } else {
      var a := TurnIsReady(s);
      LiveCosts(s, a);
      StepKeeps(s, a);
      var rest := GetIdleLive(Step(s, a));
      TurnFirst(s, a, rest);
      schedule := [a] + rest;
    }
  }

  lemma {:induction false} ExecAppend(s: State, first: seq<Action>, second: seq<Action>)
    ensures Exec(s, first + second) == Exec(Exec(s, first), second)
    decreases |second|
  {
    hide Step;
    if second == [] {
      assert first + second == first;
    } else {
      var n := |second| - 1;
      assert (first + second)[..|first + second| - 1] == first + second[..n];
      ExecAppend(s, first, second[..n]);
    }
  }

  // ----- Everything is delivered

  lemma IdleOnTrack(n: State)
    requires Idle(n) && Watched(n.cfg, n.w, n.t, n.past) && n.cfg.follow
    ensures n.w.watch.Some? && (OnTrack(n) <==> n.w.path == n.w.watch == Some(n.t.fd))
  {
  }

  lemma InvWatched(s: State)
    requires Inv(s)
    ensures Watched(s.cfg, s.w, s.t, s.past)
  {
  }

  /** From every reachable state of the loop with a file at the path, with a receiver and nothing else
      happening, also when a watch has ended, the loop reopens, or a watch is still to be put: every
      run becomes idle within Todo(s) turns, and such runs exist. It ends with the file at the path
      open and watched if and only if it was on track; and if the open file is watched and no line was
      too long, all of that file is delivered, from the hand-over or from its first byte. */
  lemma EverythingIsDelivered(cfg: Config, content: bytes, earlier: seq<Action>) returns (schedule: seq<Action>)
    requires Active(Exec(Init(cfg, content), earlier))
    ensures var s := Exec(Init(cfg, content), earlier);
      var n := Exec(s, schedule);
      && Receiving(schedule) && ReadyTurns(s, schedule) && Idle(n)
      && InFile(s) && |schedule| <= Todo(s) && n.w.files == s.w.files && n.w.path == s.w.path
      && (n.w.path == n.w.watch == Some(n.t.fd) <==> OnTrack(s))
      && (n.w.watch == Some(n.t.fd) && !n.past.overlong ==>
            && Delivered(n.t.out) == n.past.head + Emitted(Chunks(n))
            && Flatten(Chunks(n)) == n.past.before + Piece(Open(n), n.past.base, |Open(n)|)
            && (n.past.reopened ==> n.past.base == 0))
  {
    hide Inv, Active, Todo, OnTrack, Exec, Chunks, Emitted, Flatten, Watched;
    var s := Exec(Init(cfg, content), earlier);
    Reachable(cfg, content, earlier);
    InvInFile(s);
    schedule := GetIdle(s);
    IdleInTime(s, schedule);
    var n := Exec(s, schedule);
    ExecAppend(Init(cfg, content), earlier, schedule);
    Reachable(cfg, content, earlier + schedule);
    InvWatched(n);
    ActiveFollows(s);
    IdleOnTrack(n);
    IdleMeansDelivered(cfg, content, earlier + schedule);
    WaitingBase(n);
  }

  lemma ActiveFollows(s: State)
    requires Active(s)
    ensures s.cfg.follow
  {
  }

  lemma WaitingBase(s: State)
    requires Inv(s) && s.t.phase.Waiting?
    ensures s.past.reopened ==> s.past.base == 0
  {
    hide Accounted, HeadKept, Watched;
  }

  // ----- When the open file is not the watched one

  /** What is written to a file that the loop does not have open while it waits on any watch is not
      read: it goes idle as it was, on the same file. That is what a misplaced watch leads to, and an
      unreported removal. */
  lemma OtherFileIsNotRead(cfg: Config, content: bytes, earlier: seq<Action>, f: FileId, data: bytes, merge: bool)
    returns (turns: seq<Action>)
    requires var s := Exec(Init(cfg, content), earlier); Live(s) && f < |s.w.files| && f != s.t.fd
    ensures var s := Exec(Init(cfg, content), earlier);
      var n := Exec(Step(s, Append(f, data, merge)), turns);
      && Receiving(turns) && Idle(n) && n.w.watch == s.w.watch
      && n.w.files == s.w.files[f := s.w.files[f] + data]
      && n.t.fd == s.t.fd && n.past.before == s.past.before
  {
    hide Inv, Exec;
    var s := Exec(Init(cfg, content), earlier);
    var written := Step(s, Append(f, data, merge));
    Reachable(cfg, content, earlier);
    StepKeeps(s, Append(f, data, merge));
    InvInFile(written);
    if data == [] {
      assert s.w.files[f] + data == s.w.files[f];
    }
    turns := GetIdleLive(written);
    LiveOn(written, turns);
  }

  /** File f is watched and open; or its watch is over, and the path has gone on. */
  predicate Holding(s: State, f: FileId) {
    && f < |s.w.files|
    && if s.w.watch == Some(f) then s.t.fd == f && (Looking(s.cfg, s.t.phase) || Over(s.t.phase))
       else !Early(s.t.phase) && (s.w.path.Some? ==> s.w.path.value > f)
  }

  lemma WaitHolds(s: State, f: FileId, choice: Choice)
    requires Inv(s) && Holding(s, f) && s.t.phase.Waiting?
    ensures Holding(WaitNext(s, choice), f)
  {
    hide Sound, Piece, WriteAhead, Length;
    if s.w.events != [] && Rotations(s.w.events) == 0 {
      FirstIsNoRotation(s.w.events);
    }
  }

  lemma TurnHolds(s: State, f: FileId, amount: nat, receive: bool, choice: Choice)
    requires Inv(s) && Holding(s, f)
    ensures Holding(TailNext(s, amount, receive, choice), f)
  {
    hide Sound, LineEnd, Text, LastN, Estimate, Amount, Buffer, Piece, WriteAhead, Rotations, Length, WaitNext;
    if s.t.phase.Waiting? {
      WaitHolds(s, f, choice);
    }
  }

  lemma StepHolds(s: State, f: FileId, a: Action)
    requires Inv(s) && Holding(s, f)
    ensures Holding(Step(s, a), f)
  {
    hide Sound, WriteAhead, Rotations, Length, TailNext;
    if a.Run? {
      TurnHolds(s, f, a.amount, a.receive, a.choice);
    }
  }

  lemma {:induction false} RunHolds(s: State, f: FileId, schedule: seq<Action>)
    requires Inv(s) && Holding(s, f)
    ensures Inv(Exec(s, schedule)) && Holding(Exec(s, schedule), f)
    decreases |schedule|
  {
    hide Inv, Step, Holding;
    if schedule != [] {
      var k := |schedule| - 1;
      RunHolds(s, f, schedule[..k]);
      StepHolds(Exec(s, schedule[..k]), f, schedule[k]);
      StepKeeps(Exec(s, schedule[..k]), schedule[k]);
    }
  }

  /** The loop has read all that is in file f, or has given up on a line of it. */
  predicate AllReadOf(n: State, f: FileId) {
    if n.t.fd == f then n.t.scanner.failed || n.t.off == Length(n.w, f) else Length(n.w, f) == 0
  }

  /** If the loop is idle then, under the same watch as in s, it has read all of the watched file. */
  ghost predicate MissesNothing(s: State, later: seq<Action>) {
    var n := Exec(s, later);
    n.w.watch == s.w.watch && Idle(n) && n.w.watch.Some? ==> AllReadOf(n, n.w.watch.value)
  }

  lemma HeldIsRead(cfg: Config, content: bytes, earlier: seq<Action>, later: seq<Action>)
    requires var s := Exec(Init(cfg, content), earlier); Live(s) && s.w.watch == Some(s.t.fd)
    ensures MissesNothing(Exec(Init(cfg, content), earlier), later)
  {
    hide Inv, Exec;
    var s := Exec(Init(cfg, content), earlier);
    Reachable(cfg, content, earlier);
    InvInFile(s);
    assert Holding(s, s.t.fd) by { hide Inv; }
    RunHolds(s, s.t.fd, later);
    InvInFile(Exec(s, later));
    ExecAppend(Init(cfg, content), earlier, later);
    IdleMeansDelivered(cfg, content, earlier + later);
  }

  /** Under a misplaced watch a line written to the watched file is missed. */
  lemma MisplacedMisses(cfg: Config, content: bytes, earlier: seq<Action>) returns (later: seq<Action>)
    requires var s := Exec(Init(cfg, content), earlier); Live(s) && s.w.watch != Some(s.t.fd)
    ensures !MissesNothing(Exec(Init(cfg, content), earlier), later)
  {
    hide Inv, Exec;
    var s := Exec(Init(cfg, content), earlier);
    var f := s.w.watch.value;
    Reachable(cfg, content, earlier);
    WatchExists(s);
    var write := Append(f, [65, LF], false);
    var turns := OtherFileIsNotRead(cfg, content, earlier, f, [65, LF], false);
    later := [write] + turns;
    ExecAppend(s, [write], turns);
    ExecOne(s, write);
  }

  lemma WatchExists(s: State)
    requires Inv(s) && s.w.watch.Some?
    ensures s.w.watch.value < |s.w.files|
  {
    hide Sound, Watched;
  }

  lemma ExecOne(s: State, a: Action)
    ensures Exec(s, [a]) == Step(s, a)
  {
    hide Step;
    assert [a][..0] == [];
  }

  /** The exact condition. In every reachable state in which the loop reads under a watch: that watch
      is on the open file if and only if no continuation of the run, as long as the watch lasts, leaves
      the loop idle with something of the watched file unread. */
  lemma MissesNothingIff(cfg: Config, content: bytes, earlier: seq<Action>)
    requires Live(Exec(Init(cfg, content), earlier))
    ensures var s := Exec(Init(cfg, content), earlier);
      s.w.watch == Some(s.t.fd) <==> forall later :: MissesNothing(s, later)
  {
    hide Inv, Exec, MissesNothing;
    var s := Exec(Init(cfg, content), earlier);
    if s.w.watch == Some(s.t.fd) {
      forall later ensures MissesNothing(s, later) {
        HeldIsRead(cfg, content, earlier, later);
      }
    } else {
      var later := MisplacedMisses(cfg, content, earlier);
    }
  }
}
