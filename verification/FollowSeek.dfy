/** Where tailing begins: what the seek of a reader, following or not, makes it show. */
module FollowSeek {
  import opened Lines
  import opened Options
  import opened TailLast
  import opened FollowMachine
  import opened FollowInvariants
  import opened FollowTheorems
  import opened FollowReadOnce
  import opened AgentLogs

  function StartFor(size: nat, last: nat): nat {
    if last == 0 then 0 else Estimate(size, last)
  }

  /** Reading goes on at `at`: from the beginning if all lines are wanted, and otherwise from no byte that
      was there at the seek. */
  predicate EndFor(size: nat, last: nat, at: nat) {
    if last == 0 then at == 0 else at >= size
  }

  /** What remains true of a seek in a file of that size. */
  predicate SeekKept(cfg: Config, size: nat, d: bytes, t: Tailer, past: Past) {
    if Early(t.phase) then
      && !t.phase.Opening? && !t.phase.Seeking?
      && past.tailFrom == StartFor(size, cfg.last) && size <= |d|
      && (t.phase.Collecting? ==> cfg.last > 0 && (t.scanner.eof ==> t.off >= size))
      && (t.phase.Handing? || t.phase.Starting? ==> EndFor(size, cfg.last, t.off))
    else
      InLoop(t.phase) && !past.reopened ==>
        past.tailFrom == StartFor(size, cfg.last) && EndFor(size, cfg.last, past.base)
  }

  lemma SeekSeeks(s: State)
    requires Flow(s) && s.t.phase.Seeking?
    ensures var n := SeekNext(s); SeekKept(n.cfg, |Open(s)|, Open(n), n.t, n.past)
  {
  }

  lemma CollectKeepsSeek(s: State, size: nat, amount: nat)
    requires Flow(s) && s.t.phase.Collecting? && SeekKept(s.cfg, size, Open(s), s.t, s.past)
    ensures var n := CollectNext(s, s.t.phase.lines, amount); SeekKept(n.cfg, size, Open(n), n.t, n.past)
  {
    hide LineEnd, Text, LastN, Tokens, HeadKept, StartFor;
  }

  lemma ScanKeepsSeek(s: State, size: nat, amount: nat)
    requires Flow(s) && s.t.phase.Scanning? && SeekKept(s.cfg, size, Open(s), s.t, s.past)
    ensures var n := ScanNext(s, amount); SeekKept(n.cfg, size, Open(n), n.t, n.past)
  {
    hide LineEnd, Text, LoopOk, EarlyOk, StartFor, EndFor;
  }

  lemma WaitKeepsSeek(s: State, size: nat, choice: Choice)
    requires Flow(s) && s.t.phase.Waiting? && SeekKept(s.cfg, size, Open(s), s.t, s.past)
    ensures var n := WaitNext(s, choice); SeekKept(n.cfg, size, Open(n), n.t, n.past)
  {
    hide LoopOk, EarlyOk, Piece, StartFor, EndFor;
  }

  lemma RunKeepsSeek(s: State, size: nat, amount: nat, receive: bool, choice: Choice)
    requires Flow(s) && SeekKept(s.cfg, size, Open(s), s.t, s.past)
    ensures var n := TailNext(s, amount, receive, choice); SeekKept(n.cfg, size, Open(n), n.t, n.past)
  {
    hide SeekNext, CollectNext, ScanNext, WaitNext, Sound, Piece, StartFor;
    match s.t.phase
    case Collecting(lines) => CollectKeepsSeek(s, size, amount);
    case Scanning => ScanKeepsSeek(s, size, amount);
    case Waiting => WaitKeepsSeek(s, size, choice);
    case _ =>
  }

  lemma StepKeepsSeek(s: State, size: nat, a: Action)
    requires Flow(s) && SeekKept(s.cfg, size, Open(s), s.t, s.past)
    ensures var n := Step(s, a); SeekKept(n.cfg, size, Open(n), n.t, n.past)
  {
    hide TailNext, Sound, StartFor, EndFor;
    if a.Run? {
      RunKeepsSeek(s, size, a.amount, a.receive, a.choice);
    }
  }

  lemma {:induction false} RunsKeepSeek(s: State, size: nat, schedule: seq<Action>)
    requires Inv(s) && SeekKept(s.cfg, size, Open(s), s.t, s.past)
    ensures var n := Exec(s, schedule); SeekKept(n.cfg, size, Open(n), n.t, n.past) && Inv(n) && n.cfg == s.cfg
    decreases |schedule|
  {
    hide Step, Inv, SeekKept, Open;
    RunKeeps(s, schedule);
    if schedule != [] {
      var k := |schedule| - 1;
      var m := Exec(s, schedule[..k]);
      RunsKeepSeek(s, size, schedule[..k]);
      FlowOf(m);
      StepKeepsSeek(m, size, schedule[k]);
    }
  }

  /** In every run, whether it follows or not: what the loop says begins with the last lines of what was
      read from the estimate on, which is made for the size of the file at the seek, and goes on after
      a byte that is not before the end of that; or it is everything, if all lines were asked for. */
  lemma ShowsFromTheSeekOn(cfg: Config, content: bytes, before: seq<Action>, turn: Action, after: seq<Action>)
    requires Exec(Init(cfg, content), before).t.phase.Seeking? && turn.Run?
    ensures var s := Exec(Init(cfg, content), before);
      var n := Exec(Step(s, turn), after);
      var p := n.past;
      InLoop(n.t.phase) && !p.reopened ==>
        && p.tailFrom == StartFor(|Open(s)|, cfg.last) && EndFor(|Open(s)|, cfg.last, p.base)
        && p.tailFrom <= p.base <= n.t.scanner.done <= |Open(n)|
        && Said(n) == LastN(Tokens(Open(n)[p.tailFrom..p.base]), cfg.last) + Emitted(Chunks(n))
        && (!p.overlong ==> Flatten(Chunks(n)) == Open(n)[p.base..n.t.scanner.done])
  {
    hide Exec, Inv, SeekKept, Open, Said, Chunks, StartFor, EndFor;
    var s := Exec(Init(cfg, content), before);
    var m := Step(s, turn);
    Reachable(cfg, content, before);
    FlowOf(s);
    TurnSeeks(s, turn);
    StepKeeps(s, turn);
    RunsKeepSeek(m, |Open(s)|, after);
    var n := Exec(m, after);
    SeekIsKept(n, |Open(s)|);
  }

  lemma TurnSeeks(s: State, turn: Action)
    requires Flow(s) && s.t.phase.Seeking? && turn.Run?
    ensures var n := Step(s, turn); SeekKept(n.cfg, |Open(s)|, Open(n), n.t, n.past) && n.cfg == s.cfg
  {
    hide SeekKept, SeekNext, EarlyOk, LoopOk;
    SeekSeeks(s);
    KeepsConfig(s, turn);
  }

  lemma SeekIsKept(n: State, size: nat)
    requires Inv(n) && SeekKept(n.cfg, size, Open(n), n.t, n.past)
    ensures var p := n.past;
      InLoop(n.t.phase) && !p.reopened ==>
        && p.tailFrom == StartFor(size, n.cfg.last) && EndFor(size, n.cfg.last, p.base)
        && p.tailFrom <= p.base <= n.t.scanner.done <= |Open(n)|
        && Said(n) == LastN(Tokens(Open(n)[p.tailFrom..p.base]), n.cfg.last) + Emitted(Chunks(n))
        && (!p.overlong ==> Flatten(Chunks(n)) == Open(n)[p.base..n.t.scanner.done])
  {
    hide Said, Chunks, StartFor, EndFor, Flow, Open;
    if InLoop(n.t.phase) && !n.past.reopened {
      HandedOver(n);
      ChunksOfLoop(n);
    }
  }

  lemma ChunksOfLoop(n: State)
    requires Flow(n) && InLoop(n.t.phase)
    ensures Said(n) == n.past.head + Emitted(Chunks(n))
  {
    hide Sound, Said, Chunks;
    ChunksAreSaid(n);
  }

  // ----- When nobody writes meanwhile

  /** The file does not change before the loop begins. */
  predicate Unwritten(cfg: Config, content: bytes, schedule: seq<Action>) {
    forall i | 0 <= i < |schedule| ::
      Early(Exec(Init(cfg, content), schedule[..i]).t.phase) ==> LeavesFile(schedule[i])
  }

  predicate BeforeLoop(d: bytes, cfg: Config, w: World, t: Tailer, past: Past) {
    && w.files == [d] && w.path == Some(0) && t.fd == 0 && (t.scanner.eof ==> t.off == |d|)
    && match t.phase
       case Opening => past.tailFrom == 0
       case Seeking => t.off == 0 && past.tailFrom == 0
       case Collecting(lines) => cfg.last > 0 && past.tailFrom == TailStart(d, cfg.last)
       case _ => past.tailFrom == TailStart(d, cfg.last) && t.off == TailEnd(d, cfg.last)
  }

  predicate LoopBegan(d: bytes, cfg: Config, open: bytes, past: Past) {
    && past.tailFrom == TailStart(d, cfg.last) && past.base == TailEnd(d, cfg.last)
    && past.base <= |d| && d <= open
  }

  predicate Kept(d: bytes, s: State) {
    if Early(s.t.phase) then BeforeLoop(d, s.cfg, s.w, s.t, s.past)
    else InLoop(s.t.phase) && !s.past.reopened ==> LoopBegan(d, s.cfg, Open(s), s.past)
  }

  lemma CollectKeeps(s: State, d: bytes, amount: nat)
    requires Flow(s) && s.t.phase.Collecting? && Kept(d, s)
    ensures Kept(d, CollectNext(s, s.t.phase.lines, amount))
  {
    hide LineEnd, Text, LastN, Tokens, HeadKept, TailStart;
  }

  lemma ScanKeeps(s: State, d: bytes, amount: nat)
    requires Flow(s) && s.t.phase.Scanning? && Kept(d, s)
    ensures Kept(d, ScanNext(s, amount))
  {
    hide LineEnd, Text, LoopOk, EarlyOk, TailStart, TailEnd;
  }

  lemma WaitKeeps(s: State, d: bytes, choice: Choice)
    requires Flow(s) && s.t.phase.Waiting? && Kept(d, s)
    ensures Kept(d, WaitNext(s, choice))
  {
    hide LoopOk, EarlyOk, Piece, TailStart, TailEnd;
  }

  lemma RunKeepsIt(s: State, d: bytes, amount: nat, receive: bool, choice: Choice)
    requires Flow(s) && Kept(d, s)
    ensures Kept(d, TailNext(s, amount, receive, choice))
  {
    hide CollectNext, ScanNext, WaitNext, Sound, Piece;
    match s.t.phase
    case Collecting(lines) => CollectKeeps(s, d, amount);
    case Scanning => ScanKeeps(s, d, amount);
    case Waiting => WaitKeeps(s, d, choice);
    case _ =>
  }

  lemma StepKeepsIt(s: State, d: bytes, a: Action)
    requires Flow(s) && Kept(d, s) && (Early(s.t.phase) ==> LeavesFile(a))
    ensures Kept(d, Step(s, a))
  {
    hide TailNext, Sound, TailStart, TailEnd;
    if a.Run? {
      RunKeepsIt(s, d, a.amount, a.receive, a.choice);
    }
  }

  lemma {:induction false} RunsKeepIt(cfg: Config, content: bytes, schedule: seq<Action>)
    requires Unwritten(cfg, content, schedule)
    ensures Kept(content, Exec(Init(cfg, content), schedule))
    decreases |schedule|
  {
    hide Step, Inv, Kept, Early, LeavesFile;
    if schedule != [] {
      var k := |schedule| - 1;
      var m := Exec(Init(cfg, content), schedule[..k]);
      assert forall i | 0 <= i < k :: schedule[..k][..i] == schedule[..i];
      RunsKeepIt(cfg, content, schedule[..k]);
      Reachable(cfg, content, schedule[..k]);
      FlowOf(m);
      StepKeepsIt(m, content, schedule[k]);
    } else {
      InitKept(cfg, content);
    }
  }

  lemma InitKept(cfg: Config, content: bytes)
    ensures Kept(content, Init(cfg, content))
  {
  }

  /** Whoever asks for the last lines of a log that nobody writes to before the loop begins gets TailOf
      of it first, following or not, and then exactly what is in the file after that; whoever asks for
      all lines gets the file from its first byte on. */
  lemma ShowsLastLinesFirst(cfg: Config, content: bytes, schedule: seq<Action>)
    requires Unwritten(cfg, content, schedule)
    ensures var n := Exec(Init(cfg, content), schedule);
      InLoop(n.t.phase) && !n.past.reopened ==>
        && n.past.base == TailEnd(content, cfg.last) <= n.t.scanner.done <= |Open(n)| && content <= Open(n)
        && Said(n) == (if cfg.last == 0 then [] else TailOf(content, cfg.last)) + Emitted(Chunks(n))
        && (!n.past.overlong ==>
              Flatten(Chunks(n)) == Open(n)[TailEnd(content, cfg.last)..n.t.scanner.done])
  {
    hide Exec, Inv, Kept, Said, Chunks, Emitted;
    var n := Exec(Init(cfg, content), schedule);
    Reachable(cfg, content, schedule);
    RunsKeepIt(cfg, content, schedule);
    if InLoop(n.t.phase) && !n.past.reopened {
      FlowOf(n);
      HandedOver(n);
      ChunksOfLoop(n);
      KeptHead(n, content);
    }
  }

  lemma KeptHead(n: State, d: bytes)
    requires Kept(d, n) && InLoop(n.t.phase) && !n.past.reopened
    ensures LoopBegan(d, n.cfg, Open(n), n.past) && n.past.tailFrom <= n.past.base <= |Open(n)|
    ensures LastN(Tokens(Open(n)[n.past.tailFrom..n.past.base]), n.cfg.last)
      == if n.cfg.last == 0 then [] else TailOf(d, n.cfg.last)
  {
    hide Tokens;
    if n.cfg.last > 0 {
      assert Open(n)[n.past.tailFrom..|d|] == d[n.past.tailFrom..];
    }
  }

  // ----- A request for a log

  /** What GetLogs makes of a request. */
  function ConfigOf(req: Request): Config {
    Config(req.follow, req.follow, if req.tailLines > 0 then req.tailLines else 0, MAX_LINE_SIZE)
  }

  /** A followed log: as long as the file is not reopened, what is printed is the last n lines of it,
      which are TailOf, and whatever is written afterwards, piece by piece. */
  lemma FollowedLogShowsTail(n: int, content: bytes, schedule: seq<Action>)
    requires n > 0 && Unwritten(ConfigOf(Request(true, n)), content, schedule)
    ensures var s := Exec(Init(ConfigOf(Request(true, n)), content), schedule);
      InLoop(s.t.phase) && !s.past.reopened && !s.past.overlong ==>
        && Printed(Said(s)) == Printed(TailOf(content, n)) + Printed(Emitted(Chunks(s)))
        && content <= Open(s) && |content| <= s.t.scanner.done <= |Open(s)|
        && Flatten(Chunks(s)) == Open(s)[|content|..s.t.scanner.done]
  {
    hide Exec, Said, Chunks, Emitted, Printed, TailOf;
    var cfg := ConfigOf(Request(true, n));
    ShowsLastLinesFirst(cfg, content, schedule);
    PrintedAppend(TailOf(content, n), Emitted(Chunks(Exec(Init(cfg, content), schedule))));
  }
}
