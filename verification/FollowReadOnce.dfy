/** Reading a file that does not change, once: however the reads cut it up, the goroutine sends what
    the plain definitions of TailLast and Lines say. */
module FollowReadOnce {
  import opened Lines
  import opened Options
  import opened TailLast
  import opened FollowMachine
  import opened FollowInvariants
  import opened FollowTheorems
  import opened AgentLogs

  /** Nobody writes to the file or moves it. */
  predicate LeavesFile(a: Action) {
    !a.Append? && !a.Rotate? && !a.Create?
  }

  function TailStart(d: bytes, last: nat): nat {
    if last == 0 then 0 else Estimate(|d|, last)
  }

  function TailEnd(d: bytes, last: nat): nat {
    if last == 0 then 0 else |d|
  }

  /** Where the goroutine is in a file d that does not change. */
  predicate Reading(d: bytes, cfg: Config, w: World, t: Tailer, past: Past) {
    && w.files == [d] && w.path == Some(0) && w.watch == None && w.events == []
    && t.fd == 0 && past.closed == [] && !past.reopened && (t.scanner.eof ==> t.off == |d|)
    && match t.phase
       case Opening => past.tailFrom == 0
       case Seeking => t.off == 0 && past.tailFrom == 0
       case Collecting(lines) => cfg.last > 0 && past.tailFrom == TailStart(d, cfg.last)
       case Handing(lines) => past.tailFrom == TailStart(d, cfg.last) && t.off == TailEnd(d, cfg.last)
       case Starting => past.tailFrom == TailStart(d, cfg.last) && t.off == TailEnd(d, cfg.last)
       case _ => Ran(cfg, w.stopped, t.phase, t.err) ==>
         past.tailFrom == TailStart(d, cfg.last) && past.base == TailEnd(d, cfg.last)
  }

  lemma FillStaysReading(s: State, d: bytes, amount: nat)
    requires InFile(s) && Reading(d, s.cfg, s.w, s.t, s.past) && s.t.off - s.t.scanner.done < s.cfg.limit
    requires (s.t.phase.Collecting? || s.t.phase.Scanning?) && !s.t.scanner.eof
    ensures var n := FillNext(s, amount); Reading(d, n.cfg, n.w, n.t, n.past)
  {
  }

  lemma CollectStaysReading(s: State, d: bytes, amount: nat)
    requires Flow(s) && Reading(d, s.cfg, s.w, s.t, s.past) && s.t.phase.Collecting?
    ensures var n := CollectNext(s, s.t.phase.lines, amount); Reading(d, n.cfg, n.w, n.t, n.past)
  {
    hide LineEnd, Text, LastN, EarlyOk, LoopOk;
    match PeekAt(Buffer(s), s.t.scanner, s.cfg.limit)
    case Token(end) =>
    case Fill => FillStaysReading(s, d, amount);
    case TooLong =>
    case Ended => EndedIsEof(s, d);
  }

  lemma EndedIsEof(s: State, d: bytes)
    requires Flow(s) && Reading(d, s.cfg, s.w, s.t, s.past) && s.t.phase.Collecting?
    requires PeekAt(Buffer(s), s.t.scanner, s.cfg.limit).Ended?
    ensures s.t.off == |d|
  {
    hide LineEnd;
  }

  lemma ScanStaysReading(s: State, d: bytes, amount: nat)
    requires Flow(s) && !s.cfg.follow && Reading(d, s.cfg, s.w, s.t, s.past) && s.t.phase.Scanning?
    ensures var n := ScanNext(s, amount); Reading(d, n.cfg, n.w, n.t, n.past)
  {
    hide LineEnd, Text, EarlyOk, LoopOk;
    match PeekAt(Buffer(s), s.t.scanner, s.cfg.limit)
    case Token(end) =>
    case Fill => FillStaysReading(s, d, amount);
    case TooLong =>
    case Ended =>
  }

  lemma RunStaysReading(s: State, d: bytes, amount: nat, receive: bool, choice: Choice)
    requires Flow(s) && !s.cfg.follow && Reading(d, s.cfg, s.w, s.t, s.past)
    ensures var n := TailNext(s, amount, receive, choice); Reading(d, n.cfg, n.w, n.t, n.past)
  {
    hide LineEnd, Text, LastN, EarlyOk, LoopOk, CollectNext, ScanNext;
    match s.t.phase
    case Collecting(lines) => CollectStaysReading(s, d, amount);
    case Scanning => ScanStaysReading(s, d, amount);
    case _ =>
  }

  lemma StepStaysReading(s: State, d: bytes, a: Action)
    requires Flow(s) && !s.cfg.follow && Reading(d, s.cfg, s.w, s.t, s.past) && LeavesFile(a)
    ensures var n := Step(s, a); Reading(d, n.cfg, n.w, n.t, n.past)
  {
    hide Sound, TailNext;
    if a.Run? {
      RunStaysReading(s, d, a.amount, a.receive, a.choice);
    }
  }

  lemma {:induction false} RunsStayReading(cfg: Config, d: bytes, schedule: seq<Action>)
    requires !cfg.follow && forall a | a in schedule :: LeavesFile(a)
    ensures var s := Exec(Init(cfg, d), schedule); Reading(d, s.cfg, s.w, s.t, s.past)
    decreases |schedule|
  {
    hide Inv, Step, LeavesFile;
    if schedule != [] {
      var k := |schedule| - 1;
      var s := Exec(Init(cfg, d), schedule[..k]);
      RunsStayReading(cfg, d, schedule[..k]);
      Reachable(cfg, d, schedule[..k]);
      FlowOf(s);
      StepStaysReading(s, d, schedule[k]);
    }
  }

  lemma FlowOf(s: State)
    requires Inv(s)
    ensures Flow(s)
  {
  }

  /** What a reader of d that does not follow should send. */
  function Wanted(d: bytes, last: nat): seq<bytes> {
    if last == 0 then Tokens(d) else TailOf(d, last)
  }

  lemma WantedIs(d: bytes, last: nat)
    ensures LastN(Tokens(Piece(d, TailStart(d, last), TailEnd(d, last))), last) + Tokens(d[TailEnd(d, last)..])
      == Wanted(d, last)
  {
    if last == 0 {
      assert d[0..] == d;
      assert LastN(Tokens(Piece(d, 0, 0)), 0) == [];
    } else {
      assert Piece(d, TailStart(d, last), |d|) == d[TailStart(d, last)..];
      assert Tokens(d[|d|..]) == [];
    }
  }

  lemma EmptyPiece(d: bytes, lo: nat, hi: nat)
    requires lo <= hi <= |d| && [] == [] + Piece(d, lo, hi)
    ensures lo == hi
  {
    assert |Piece(d, lo, hi)| == hi - lo;
  }

  lemma Ends(s: State, d: bytes)
    requires Flow(s) && Reading(d, s.cfg, s.w, s.t, s.past) && !s.cfg.follow
    requires s.t.phase.Finished? && !s.w.stopped && !s.t.err && !s.past.overlong
    ensures Delivered(s.t.out) == Wanted(d, s.cfg.last)
  {
    hide Tokens, LastN, TailOf, Delivered, LineEnd;
    assert Flatten([]) == [] && Emitted([]) == [];
    EmptyPiece(d, s.past.base, s.t.scanner.from);
    assert Piece(d, s.t.scanner.from, s.t.scanner.done) == d[s.past.base..];
    assert s.past.head + [] == s.past.head;
    WantedIs(d, s.cfg.last);
  }

  /** Whatever the sizes of the single reads and the pace of the receiver: a reader that does not
      follow and ends without having been stopped, without an error and without an overlong line has
      sent the last lines of the file as TailOf gives them, or all of its lines. */
  lemma ReadSizesDoNotMatter(cfg: Config, d: bytes, schedule: seq<Action>)
    requires !cfg.follow && forall a | a in schedule :: LeavesFile(a)
    ensures var s := Exec(Init(cfg, d), schedule);
      s.t.phase.Finished? && !s.w.stopped && !s.t.err && !s.past.overlong ==>
        Delivered(s.t.out) == Wanted(d, cfg.last)
  {
    hide Inv, Exec, Delivered, Wanted, Reading;
    var s := Exec(Init(cfg, d), schedule);
    RunsStayReading(cfg, d, schedule);
    Reachable(cfg, d, schedule);
    FlowOf(s);
    if s.t.phase.Finished? && !s.w.stopped && !s.t.err && !s.past.overlong {
      Ends(s, d);
    }
  }

  /** So a whole log without long lines, printed as it comes, is the file with its last line ended,
      exactly if the scanner drops no CR from it. */
  lemma StreamedLogIff(cfg: Config, d: bytes, schedule: seq<Action>)
    requires !cfg.follow && cfg.last == 0 && forall a | a in schedule :: LeavesFile(a)
    ensures var s := Exec(Init(cfg, d), schedule);
      s.t.phase.Finished? && !s.w.stopped && !s.t.err && !s.past.overlong ==>
        (Printed(Delivered(s.t.out)) == Terminated(d) <==> CleanEnds(d))
  {
    hide Exec, Delivered, Tokens, Terminated, CleanEnds, Printed;
    ReadSizesDoNotMatter(cfg, d, schedule);
    PrintedTokensIff(d);
  }
}
