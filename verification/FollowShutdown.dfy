/** After Stop the tail goroutine ends: it closes its channel and calls wg.Done, so Cleanup returns. */
module FollowShutdown {
  import opened Lines
  import opened Options
  import opened TailLast
  import opened FollowMachine
  import opened FollowInvariants
  import opened FollowWatch
  import opened FollowTheorems

  function Rank(phase: Phase): nat {
    match phase
    case Opening => 14
    case Seeking => 12
    case Collecting(lines) => 10 + |lines|
    case Handing(lines) => 9 + |lines|
    case Starting => 8
    case Watching => 6
    case Rewatching => 6
    case Scanning => 5
    case Offering(item, next) => if next.ScanOn? then 6 else 4
    case Waiting => 3
    case Reopening => 3
    case Closing => 2
    case Closed => 1
    case Finished => 0
  }

  /** Three for each byte to be read, two for each byte to be tokenized, one for the end. */
  function Work(size: nat, t: Tailer): nat
    requires t.scanner.done <= t.off <= size
  {
    3 * (size - t.off) + 2 * (t.off - t.scanner.done) + (if t.scanner.eof || t.scanner.failed then 0 else 1)
  }

  /** How many more steps the goroutine can take, at most. */
  function Measure(s: State): nat
    requires InFile(s)
  {
    Rank(s.t.phase) + 4 * (|s.w.events| + s.w.errors) + Left(s.w, s.t)
  }

  function Left(w: World, t: Tailer): nat
    requires t.fd < |w.files| && t.scanner.done <= t.off <= |w.files[t.fd]|
  {
    if Over(t.phase) then 0
    else if t.phase.Opening? then (if w.path.Some? then 3 * Length(w, w.path.value) + 1 else 0)
    else Work(|w.files[t.fd]|, t)
  }

  /** A select only takes a case that is ready. */
  predicate Ready(s: State, choice: Choice) {
    s.t.phase.Waiting? ==>
      match choice
      case TakeEvent => s.w.events != []
      case TakeError => s.w.errors > 0
      case TakeStop => s.w.stopped
  }

  // ----- Every step of the goroutine costs

  lemma FillCosts(s: State, amount: nat)
    requires InFile(s) && s.t.off - s.t.scanner.done < s.cfg.limit && !s.t.scanner.eof && !s.t.scanner.failed
    requires !s.t.phase.Opening? && !Over(s.t.phase)
    ensures InFile(FillNext(s, amount)) && Measure(FillNext(s, amount)) < Measure(s)
  {
  }

  lemma CollectCosts(s: State, amount: nat)
    requires InFile(s) && s.t.phase.Collecting?
    ensures var n := CollectNext(s, s.t.phase.lines, amount); InFile(n) && Measure(n) < Measure(s)
  {
    hide LineEnd, Text;
    match PeekAt(Buffer(s), s.t.scanner, s.cfg.limit)
    case Token(end) =>
    case Fill => FillCosts(s, amount);
    case TooLong =>
    case Ended =>
  }

  lemma ScanCosts(s: State, amount: nat)
    requires InFile(s) && s.t.phase.Scanning?
    ensures var n := ScanNext(s, amount); InFile(n) && Measure(n) < Measure(s)
  {
    hide LineEnd, Text;
    match PeekAt(Buffer(s), s.t.scanner, s.cfg.limit)
    case Token(end) =>
    case Fill => FillCosts(s, amount);
    case TooLong =>
    case Ended =>
  }

  lemma EarlyCosts(s: State, receive: bool)
    requires Flow(s) && s.w.stopped && Early(s.t.phase) && !s.t.phase.Collecting?
    ensures var n := TailNext(s, 0, receive, TakeStop); InFile(n) && Measure(n) < Measure(s)
  {
    hide HeadKept, Delivered, LineEnd, Text, LoopOk, LastN, Tokens;
  }

  lemma LateCosts(s: State, receive: bool)
    requires InFile(s) && s.w.stopped && !s.t.phase.Finished?
    requires !Early(s.t.phase) && !s.t.phase.Scanning? && !s.t.phase.Waiting?
    ensures var n := TailNext(s, 0, receive, TakeStop); InFile(n) && Measure(n) < Measure(s)
  {
  }

  lemma WaitCosts(s: State, choice: Choice)
    requires InFile(s) && s.t.phase.Waiting? && Ready(s, choice)
    ensures var n := WaitNext(s, choice); InFile(n) && Measure(n) < Measure(s)
  {
  }

  lemma RunCosts(s: State, amount: nat, receive: bool, choice: Choice)
    requires Flow(s) && s.w.stopped && Ready(s, choice) && !s.t.phase.Finished?
    ensures var n := TailNext(s, amount, receive, choice); InFile(n) && Measure(n) < Measure(s)
  {
    hide Sound, LineEnd, Text, Measure;
    hide SeekNext, CollectNext, HandNext, StartNext, ScanNext, OfferNext, WaitNext, WatchNext, ReopenNext;
    SoundInFile(s);
    match s.t.phase
    case Opening => EarlyCosts(s, receive);
    case Seeking => EarlyCosts(s, receive);
    case Handing(lines) => EarlyCosts(s, receive);
    case Starting => EarlyCosts(s, receive);
    case Collecting(lines) => CollectCosts(s, amount);
    case Scanning => ScanCosts(s, amount);
    case Waiting => WaitCosts(s, choice);
    case _ => LateCosts(s, receive);
  }

  // ----- What the world can add

  /** The steps that something else than the goroutine's own progress makes possible. */
  function Cost(a: Action): nat {
    match a
    case Append(f, data, merge) => 3 * |data| + 4
    case Rotate => 0
    case Report(byRename) => 4
    case Create => 1
    case Touch => 4
    case WatchError => 4
    case Stop => 0
    case Run(amount, receive, choice) => 0
  }

  lemma WorldCosts(s: State, a: Action)
    requires Flow(s) && !a.Run?
    ensures var n := Step(s, a); InFile(n) && n.t == s.t && Measure(n) <= Measure(s) + Cost(a)
  {
    hide Sound;
    SoundInFile(s);
  }

  function Costs(schedule: seq<Action>): nat {
    if schedule == [] then 0
    else Costs(schedule[..|schedule| - 1]) + Cost(schedule[|schedule| - 1])
  }

  function Turns(schedule: seq<Action>): nat {
    if schedule == [] then 0
    else Turns(schedule[..|schedule| - 1]) + (if schedule[|schedule| - 1].Run? then 1 else 0)
  }

  /** Whenever the goroutine waits and has its turn, its select takes a case that is ready. */
  predicate ReadyTurns(s: State, schedule: seq<Action>) {
    schedule == [] ||
      (var k := |schedule| - 1;
       ReadyTurns(s, schedule[..k])
       && (schedule[k].Run? ==> Ready(Exec(s, schedule[..k]), schedule[k].choice)))
  }

  lemma StaysStopped(s: State, a: Action)
    requires s.w.stopped
    ensures Step(s, a).w.stopped
  {
    hide LineEnd, Text;
  }

  lemma StaysFinished(s: State, a: Action)
    requires s.t.phase.Finished?
    ensures Step(s, a).t.phase.Finished?
  {
  }

  lemma InvInFile(s: State)
    requires Inv(s)
    ensures InFile(s) && Flow(s)
  {
  }

  lemma StepCosts(s: State, a: Action)
    requires Inv(s) && s.w.stopped && !s.t.phase.Finished? && (a.Run? ==> Ready(s, a.choice))
    ensures Inv(Step(s, a)) && InFile(s) && InFile(Step(s, a))
    ensures Measure(Step(s, a)) + (if a.Run? then 1 else 0) <= Measure(s) + Cost(a)
  {
    hide Inv, Flow, Measure, Cost, TailNext;
    InvInFile(s);
    StepKeeps(s, a);
    InvInFile(Step(s, a));
    if a.Run? {
      RunCosts(s, a.amount, a.receive, a.choice);
    } else {
      WorldCosts(s, a);
    }
  }

  /** After Stop, whatever the world does and whether or not anyone receives, each turn of the
      goroutine uses up part of what is left for it to do. */
  lemma {:induction false} TurnsAreBounded(s: State, schedule: seq<Action>)
    requires Inv(s) && s.w.stopped && ReadyTurns(s, schedule)
    ensures var n := Exec(s, schedule);
      Inv(n) && InFile(s) && InFile(n) && n.w.stopped
      && (n.t.phase.Finished? || Measure(n) + Turns(schedule) <= Measure(s) + Costs(schedule))
    decreases |schedule|
  {
    hide Inv, Measure, Cost, Step, Ready;
    InvInFile(s);
    if schedule != [] {
      var k := |schedule| - 1;
      var m := Exec(s, schedule[..k]);
      TurnsAreBounded(s, schedule[..k]);
      StaysStopped(m, schedule[k]);
      StepKeeps(m, schedule[k]);
      InvInFile(Step(m, schedule[k]));
      if m.t.phase.Finished? {
        StaysFinished(m, schedule[k]);
      } else {
        StepCosts(m, schedule[k]);
      }
    }
  }

  lemma NothingLeft(s: State)
    requires InFile(s)
    ensures Measure(s) == 0 ==> s.t.phase.Finished?
  {
  }

  /** So once it has had as many turns as that, it has closed the channel and called wg.Done: no run
      from any reachable state keeps Cleanup waiting. */
  lemma StopEnds(cfg: Config, content: bytes, earlier: seq<Action>, schedule: seq<Action>)
    requires var s := Exec(Init(cfg, content), earlier); s.w.stopped && ReadyTurns(s, schedule)
    requires var s := Exec(Init(cfg, content), earlier);
      InFile(s) ==> Turns(schedule) >= Measure(s) + Costs(schedule)
    ensures Exec(Exec(Init(cfg, content), earlier), schedule).t.phase.Finished?
  {
    hide Exec, Inv, ReadyTurns, Costs, Turns, InFile, Measure;
    var s := Exec(Init(cfg, content), earlier);
    Reachable(cfg, content, earlier);
    TurnsAreBounded(s, schedule);
    NothingLeft(Exec(s, schedule));
  }

  function Alone(k: nat): seq<Action> {
    if k == 0 then [] else Alone(k - 1) + [Run(0, false, TakeStop)]
  }

  lemma {:induction false} AloneIsReady(s: State, k: nat)
    requires s.w.stopped
    ensures ReadyTurns(s, Alone(k)) && Turns(Alone(k)) == k && Costs(Alone(k)) == 0
    ensures Exec(s, Alone(k)).w.stopped
  {
    hide Step;
    if k > 0 {
      AloneIsReady(s, k - 1);
      assert Alone(k)[..|Alone(k)| - 1] == Alone(k - 1);
      StaysStopped(Exec(s, Alone(k - 1)), Run(0, false, TakeStop));
    }
  }

  /** Without a receiver and with nothing else moving, a stopped goroutine is never stuck. */
  lemma CleanupReturns(cfg: Config, content: bytes, earlier: seq<Action>) returns (k: nat)
    requires Exec(Init(cfg, content), earlier).w.stopped
    ensures Exec(Exec(Init(cfg, content), earlier), Alone(k)).t.phase.Finished?
  {
    hide Exec, Inv, Measure;
    var s := Exec(Init(cfg, content), earlier);
    Reachable(cfg, content, earlier);
    InvInFile(s);
    k := Measure(s);
    AloneIsReady(s, k);
    StopEnds(cfg, content, earlier, Alone(k));
  }
}
