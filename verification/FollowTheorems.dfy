/** What holds of every run of the tail goroutine, whatever the file, the watcher and the receiver do. */
module FollowTheorems {
  import opened Lines
  import opened Options
  import opened TailLast
  import opened FollowMachine
  import opened FollowInvariants
  import opened FollowWatch

  ghost predicate Inv(s: State) {
    Flow(s) && Watched(s.cfg, s.w, s.t, s.past)
  }

  lemma StepKeeps(s: State, a: Action)
    requires Inv(s)
    ensures Inv(Step(s, a))
  {
    hide Flow, Watched, Step;
    StepKeepsFlow(s, a);
    StepKeepsWatch(s, a);
  }

  lemma InitHolds(cfg: Config, content: bytes)
    ensures Inv(Init(cfg, content))
  {
  }

  lemma {:induction false} RunKeeps(s: State, schedule: seq<Action>)
    requires Inv(s)
    ensures Inv(Exec(s, schedule)) && Exec(s, schedule).cfg == s.cfg
    decreases |schedule|
  {
    hide Inv, Step;
    if schedule != [] {
      var n := |schedule| - 1;
      RunKeeps(s, schedule[..n]);
      StepKeeps(Exec(s, schedule[..n]), schedule[n]);
      KeepsConfig(Exec(s, schedule[..n]), schedule[n]);
    }
  }

  lemma KeepsConfig(s: State, a: Action)
    ensures Step(s, a).cfg == s.cfg
  {
    hide LineEnd, Text, LastN, Estimate;
  }

  lemma Reachable(cfg: Config, content: bytes, schedule: seq<Action>)
    ensures var s := Exec(Init(cfg, content), schedule); Inv(s) && s.cfg == cfg
  {
    hide Inv, Exec;
    InitHolds(cfg, content);
    RunKeeps(Init(cfg, content), schedule);
  }

  // ----- Content

  /** The texts sent, and the one being offered. */
  function Said(s: State): seq<bytes> {
    Delivered(s.t.out) + (if s.t.phase.Offering? then Shown(s.t.phase.item) else [])
  }

  function Open(s: State): bytes {
    if s.t.fd < |s.w.files| then s.w.files[s.t.fd] else []
  }

  /** The pieces of the log that the loop's scanners have taken, one for each scanner. */
  function Chunks(s: State): seq<bytes> {
    s.past.closed + [Piece(Open(s), s.t.scanner.from, s.t.scanner.done)]
  }

  /** What has been read of the files opened so far, from the hand-over of tailLines on. */
  function ReadBytes(s: State): bytes {
    s.past.before + Piece(Open(s), s.past.base, s.t.scanner.done)
  }

  /** In the loop, what has been said is exactly what scanning the pieces one by one yields, and the
      pieces put together are the bytes read: none is skipped or said twice. */
  lemma SaysWhatItReads(cfg: Config, content: bytes, schedule: seq<Action>)
    ensures var s := Exec(Init(cfg, content), schedule);
      InLoop(s.t.phase) ==>
        && Said(s) == s.past.head + Emitted(Chunks(s))
        && (!s.past.overlong ==> Flatten(Chunks(s)) == ReadBytes(s))
  {
    var s := Exec(Init(cfg, content), schedule);
    Reachable(cfg, content, schedule);
    if InLoop(s.t.phase) {
      ChunksAreSaid(s);
    }
  }

  lemma ChunksAreSaid(s: State)
    requires Flow(s) && Ran(s.cfg, s.w.stopped, s.t.phase, s.t.err)
    ensures Said(s) == s.past.head + Emitted(Chunks(s))
    ensures !s.past.overlong ==> Flatten(Chunks(s)) == ReadBytes(s)
  {
    hide Tokens, Delivered, Flatten;
    var d := Open(s);
    var current := Piece(d, s.t.scanner.from, s.t.scanner.done);
    EmittedAppend(s.past.closed, current);
    Lines.Regroup(s.past.head, Emitted(s.past.closed), Tokens(current));
    RoundClosed(s.past, current);
    if !s.past.overlong {
      PieceSplit(d, s.past.base, s.t.scanner.from, s.t.scanner.done);
      Lines.Regroup(s.past.before, Piece(d, s.past.base, s.t.scanner.from), current);
    }
  }

  /** However the bytes fall into rounds, the text said is the bytes read but for CR and LF. */
  lemma FollowConservesText(cfg: Config, content: bytes, schedule: seq<Action>)
    ensures var s := Exec(Init(cfg, content), schedule);
      InLoop(s.t.phase) && !s.past.overlong ==>
        Visible(Flatten(Said(s))) == Visible(Flatten(s.past.head)) + Visible(ReadBytes(s))
  {
    hide Exec, Inv;
    var s := Exec(Init(cfg, content), schedule);
    SaysWhatItReads(cfg, content, schedule);
    if InLoop(s.t.phase) && !s.past.overlong {
      RoundsConserveText(Chunks(s));
      FlattenAppend(s.past.head, Emitted(Chunks(s)));
      VisibleAppend(Flatten(s.past.head), Flatten(Emitted(Chunks(s))));
    }
  }

  lemma SameAfter<T>(a: seq<T>, b: seq<T>, c: seq<T>)
    ensures a + b == a + c <==> b == c
  {
    assert (a + b)[|a|..] == b && (a + c)[|a|..] == c;
  }

  /** The lines said are the lines of the whole exactly when no round was cut inside a line. */
  lemma FollowKeepsLinesIff(cfg: Config, content: bytes, schedule: seq<Action>)
    ensures var s := Exec(Init(cfg, content), schedule);
      InLoop(s.t.phase) && !s.past.overlong ==>
        (Said(s) == s.past.head + Tokens(ReadBytes(s)) <==> CutAtLines(Chunks(s)))
  {
    hide Exec, Inv, Tokens, CutAtLines, Emitted;
    var s := Exec(Init(cfg, content), schedule);
    SaysWhatItReads(cfg, content, schedule);
    RoundsKeepLinesIff(Chunks(s));
    SameAfter(s.past.head, Emitted(Chunks(s)), Tokens(Flatten(Chunks(s))));
  }

  /** tailLines hands over at the byte after the last one it read: what it kept are the last lines of
      the bytes up to there, and the loop's first file is read on from there. When the file did not
      grow meanwhile, it kept what TailOf says. */
  lemma HandOver(cfg: Config, content: bytes, schedule: seq<Action>)
    ensures var s := Exec(Init(cfg, content), schedule);
      var p := s.past;
      InLoop(s.t.phase) && !p.reopened ==>
        && p.tailFrom <= p.base <= s.t.scanner.done <= |Open(s)|
        && p.head == LastN(Tokens(Open(s)[p.tailFrom..p.base]), cfg.last)
        && (!p.overlong ==> Flatten(Chunks(s)) == Open(s)[p.base..s.t.scanner.done])
        && (p.tailFrom == Estimate(p.base, cfg.last) ==> p.head == TailOf(Open(s)[..p.base], cfg.last))
  {
    var s := Exec(Init(cfg, content), schedule);
    Reachable(cfg, content, schedule);
    if InLoop(s.t.phase) && !s.past.reopened {
      HandedOver(s);
    }
  }

  lemma HandedOver(s: State)
    requires Flow(s) && InLoop(s.t.phase) && !s.past.reopened
    ensures var p := s.past;
      && p.tailFrom <= p.base <= s.t.scanner.done <= |Open(s)|
      && p.head == LastN(Tokens(Open(s)[p.tailFrom..p.base]), s.cfg.last)
      && (!p.overlong ==> Flatten(Chunks(s)) == Open(s)[p.base..s.t.scanner.done])
      && (p.tailFrom == Estimate(p.base, s.cfg.last) ==> p.head == TailOf(Open(s)[..p.base], s.cfg.last))
  {
    hide Tokens, LastN, Accounted, Emitted, Flatten;
    var p := s.past;
    var d := Open(s);
    ChunksAreSaid(s);
    assert p.tailFrom <= p.base <= s.t.scanner.done <= |d| && p.before == [];
    assert Piece(d, p.tailFrom, p.base) == d[p.tailFrom..p.base];
    assert d[..p.base][p.tailFrom..] == d[p.tailFrom..p.base];
    assert Piece(d, p.base, s.t.scanner.done) == d[p.base..s.t.scanner.done];
    assert [] + d[p.base..s.t.scanner.done] == d[p.base..s.t.scanner.done];
  }

  /** Reading a file once, without following: unless it was stopped, failed to open, or met a line
      too long for the buffer, everything from the hand-over to the end it saw has been sent. */
  lemma ReadOnceDelivers(cfg: Config, content: bytes, schedule: seq<Action>)
    requires !cfg.follow
    ensures var s := Exec(Init(cfg, content), schedule);
      s.t.phase.Finished? && !s.w.stopped && !s.t.err && !s.past.overlong ==>
        && s.t.scanner.eof && s.t.scanner.done == s.t.off
        && Delivered(s.t.out) == s.past.head + Emitted(Chunks(s)) && Flatten(Chunks(s)) == ReadBytes(s)
  {
    hide Tokens, Emitted, Flatten, LastN;
    var s := Exec(Init(cfg, content), schedule);
    Reachable(cfg, content, schedule);
    if s.t.phase.Finished? && !s.w.stopped && !s.t.err && !s.past.overlong {
      ChunksAreSaid(s);
    }
  }

  // ----- Wakeups

  /** Whenever the loop waits and its scanner did not give up on a line: while the open file is watched,
      unread bytes mean that a write event is pending; after a watch has ended a rotation event is
      pending, behind a write event if the watch was on the open file and bytes from before its end
      are unread. Whether earlier watches were misplaced does not matter. */
  lemma NoLostWakeup(cfg: Config, content: bytes, schedule: seq<Action>)
    ensures var s := Exec(Init(cfg, content), schedule);
      s.t.phase.Waiting? && !s.t.scanner.failed ==>
        && (s.w.watch == Some(s.t.fd) && s.t.off < |Open(s)| ==> WriteAhead(s.w.events))
        && (s.w.watch.None? ==> Rotations(s.w.events) == 1)
        && (s.w.watch.None? && !s.past.raced && s.t.off < s.past.sealed ==> WriteAhead(s.w.events))
  {
    hide WriteAhead, Rotations, HeadKept, Accounted, Contiguous;
    var s := Exec(Init(cfg, content), schedule);
    Reachable(cfg, content, schedule);
  }

  /** So when the loop waits and nothing is pending, some file is watched; if it is the open one, all
      of it has been read, and unless a line was too long all of it, from the hand-over on, is sent. */
  lemma IdleMeansDelivered(cfg: Config, content: bytes, schedule: seq<Action>)
    ensures var s := Exec(Init(cfg, content), schedule);
      s.t.phase.Waiting? && s.w.events == [] ==>
        && s.w.watch.Some?
        && (s.w.watch == Some(s.t.fd) && !s.t.scanner.failed ==> s.t.scanner.done == s.t.off == |Open(s)|)
        && (s.w.watch == Some(s.t.fd) && !s.past.overlong ==>
              && s.t.scanner.done == s.t.off == |Open(s)|
              && Delivered(s.t.out) == s.past.head + Emitted(Chunks(s))
              && Flatten(Chunks(s)) == s.past.before + Piece(Open(s), s.past.base, |Open(s)|))
  {
    hide Emitted, Flatten, HeadKept, Accounted, Contiguous;
    var s := Exec(Init(cfg, content), schedule);
    Reachable(cfg, content, schedule);
    NoLostWakeup(cfg, content, schedule);
    if s.t.phase.Waiting? && s.w.events == [] {
      SaysWhatItReads(cfg, content, schedule);
    }
  }

  // ----- Rotation

  /** The open file's watch has ended with contents d, and the loop has not yet turned to another file;
      or it has, after reading on from base to the end of d and beyond. */
  predicate AfterRotation(s: State, fd: FileId, d: bytes, base: nat, before: bytes) {
    && fd < |s.w.files| && d <= s.w.files[fd] && base <= |d|
    && (s.w.path.Some? ==> s.w.path.value > fd)
    && if s.t.fd == fd then
         && s.w.watch.None? && s.past.sealed == |d| && s.past.base == base && s.past.before == before
         && (Looking(s.cfg, s.t.phase) || s.t.phase.Reopening? || Over(s.t.phase)) && !s.past.raced
       else s.t.fd > fd && (!s.past.overlong ==> before + d[base..] <= s.past.before)
  }

  lemma ReadPast(file: bytes, d: bytes, before: bytes, base: nat, off: nat)
    requires d <= file && base <= |d| <= off <= |file|
    ensures before + d[base..] <= before + Piece(file, base, off)
  {
    assert file[base..off][..|d| - base] == d[base..];
  }

  lemma ReopenAfterRotation(s: State, fd: FileId, d: bytes, base: nat, before: bytes)
    requires Inv(s) && AfterRotation(s, fd, d, base, before) && s.t.phase.Reopening?
    ensures AfterRotation(ReopenNext(s), fd, d, base, before)
  {
    hide Accounted, Contiguous, HeadKept;
    if s.t.fd == fd && !s.past.overlong {
      ReadPast(s.w.files[fd], d, before, base, s.t.off);
    }
  }

  lemma WaitAfterRotation(s: State, fd: FileId, d: bytes, base: nat, before: bytes, choice: Choice)
    requires Flow(s) && AfterRotation(s, fd, d, base, before) && s.t.phase.Waiting?
    ensures AfterRotation(WaitNext(s, choice), fd, d, base, before)
  {
    hide Sound;
  }

  lemma RunAfterRotation(s: State, fd: FileId, d: bytes, base: nat, before: bytes,
                         amount: nat, receive: bool, choice: Choice)
    requires Inv(s) && AfterRotation(s, fd, d, base, before) && !Early(s.t.phase)
    ensures AfterRotation(TailNext(s, amount, receive, choice), fd, d, base, before)
  {
    hide Sound, Watched, LineEnd, Text, WaitNext, ReopenNext;
    match s.t.phase
    case Waiting => WaitAfterRotation(s, fd, d, base, before, choice);
    case Reopening => ReopenAfterRotation(s, fd, d, base, before);
    case _ =>
  }

  lemma StepAfterRotation(s: State, fd: FileId, d: bytes, base: nat, before: bytes, a: Action)
    requires Inv(s) && AfterRotation(s, fd, d, base, before) && !Early(s.t.phase)
    ensures AfterRotation(Step(s, a), fd, d, base, before) && !Early(Step(s, a).t.phase)
  {
    hide Flow, Watched, LineEnd, Text, PeekAt;
    NeverEarlyAgain(s, a);
    match a
    case Append(f, data, merge) =>
      hide TailNext;
      assert d <= s.w.files[fd] + data;
    case Run(amount, receive, choice) =>
      hide TailNext;
      RunAfterRotation(s, fd, d, base, before, amount, receive, choice);
    case _ =>
  }

  lemma NeverEarlyAfterWait(s: State, choice: Choice)
    requires InFile(s) && s.t.phase.Waiting?
    ensures !Early(WaitNext(s, choice).t.phase)
  {
    hide Piece;
  }

  lemma NeverEarlyAgain(s: State, a: Action)
    requires !Early(s.t.phase)
    ensures !Early(Step(s, a).t.phase)
  {
    hide PeekAt, Text, Amount, Buffer, AppendNext, Length, SeekNext, CollectNext, HandNext, StartNext, WaitNext;
    if s.t.phase.Waiting? && a.Run? && InFile(s) {
      NeverEarlyAfterWait(s, a.choice);
    }
  }

  lemma {:induction false} RunsAfterRotation(s: State, fd: FileId, d: bytes, base: nat, before: bytes,
                                             schedule: seq<Action>)
    requires Inv(s) && AfterRotation(s, fd, d, base, before) && !Early(s.t.phase)
    ensures var n := Exec(s, schedule); Inv(n) && AfterRotation(n, fd, d, base, before) && !Early(n.t.phase)
    decreases |schedule|
  {
    hide Inv, Step, AfterRotation;
    if schedule != [] {
      var k := |schedule| - 1;
      RunsAfterRotation(s, fd, d, base, before, schedule[..k]);
      StepAfterRotation(Exec(s, schedule[..k]), fd, d, base, before, schedule[k]);
      StepKeeps(Exec(s, schedule[..k]), schedule[k]);
    }
  }

  /** The watch on the open file reports its removal or renaming while the loop reads it, and any steps
      follow. Once the loop has turned to another file, everything that was in the old one at that
      moment has been read, before the first byte of the new one. */
  lemma RotatedFileIsReadFirst(cfg: Config, content: bytes, earlier: seq<Action>, byRename: bool, later: seq<Action>)
    requires var s := Exec(Init(cfg, content), earlier);
      Looking(cfg, s.t.phase) && s.w.watch == Some(s.t.fd) && s.w.path != Some(s.t.fd)
    ensures var s := Exec(Init(cfg, content), earlier);
      var n := Exec(Step(s, Report(byRename)), later);
      n.t.fd != s.t.fd && !n.past.overlong ==>
        s.past.base <= |Open(s)| && s.past.before + Open(s)[s.past.base..] <= n.past.before
  {
    hide Exec;
    var s := Exec(Init(cfg, content), earlier);
    var r := Step(s, Report(byRename));
    Reachable(cfg, content, earlier);
    StepKeeps(s, Report(byRename));
    RotationBegins(s, byRename);
    RunsAfterRotation(r, s.t.fd, Open(s), s.past.base, s.past.before, later);
  }

  lemma RotationBegins(s: State, byRename: bool)
    requires Inv(s) && Looking(s.cfg, s.t.phase) && s.w.watch == Some(s.t.fd) && s.w.path != Some(s.t.fd)
    ensures AfterRotation(Step(s, Report(byRename)), s.t.fd, Open(s), s.past.base, s.past.before)
  {
    hide Accounted, HeadKept, TailNext, AppendNext, LineEnd, Text;
  }

  // ----- When a watch is misplaced and when a scanner gives up

  lemma Then(cfg: Config, schedule: seq<Action>, s: State, a: Action) returns (longer: seq<Action>, t: State)
    requires s == Exec(Init(cfg, []), schedule)
    ensures t == Exec(Init(cfg, []), longer) == Step(s, a)
  {
    longer, t := schedule + [a], Step(s, a);
    assert longer[..|longer| - 1] == schedule;
  }

  const FOLLOWING := Config(true, true, 0, 65536)

  lemma WatchesAnother() returns (schedule: seq<Action>, s: State)
    ensures s == Exec(Init(FOLLOWING, []), schedule)
    ensures s.cfg == FOLLOWING && s.w == World([[], []], Some(1), Some(1), [], 0, false)
    ensures s.t == Tailer(Scanning, 0, 0, NewScanner(0), [], false)
  {
    hide Exec;
    var go := Run(0, true, TakeEvent);
    schedule, s := [], Init(FOLLOWING, []);
    assert s == Exec(Init(FOLLOWING, []), schedule) by { EmptyRun(s); }
    schedule, s := Then(FOLLOWING, schedule, s, go);
    schedule, s := Then(FOLLOWING, schedule, s, go);
    schedule, s := Then(FOLLOWING, schedule, s, go);
    assert s.t.phase.Watching?;
    schedule, s := Then(FOLLOWING, schedule, s, Rotate);
    schedule, s := Then(FOLLOWING, schedule, s, Create);
    schedule, s := Then(FOLLOWING, schedule, s, go);
  }

  lemma EmptyRun(s: State)
    ensures Exec(s, []) == s
  {
  }

  lemma ScansToEnd(schedule: seq<Action>, s: State) returns (longer: seq<Action>, t: State)
    requires s == Exec(Init(FOLLOWING, []), schedule) && s.cfg == FOLLOWING
    requires s.t.phase.Scanning? && s.t.scanner == NewScanner(s.t.off)
    requires s.t.fd < |s.w.files| && s.t.off == |s.w.files[s.t.fd]|
    ensures t == Exec(Init(FOLLOWING, []), longer)
    ensures t.cfg == FOLLOWING && t.w == s.w
    ensures t.t == s.t.(phase := Waiting, scanner := NewScanner(s.t.off).(eof := true))
  {
    hide Exec;
    var go := Run(0, true, TakeEvent);
    longer, t := Then(FOLLOWING, schedule, s, go);
    longer, t := Then(FOLLOWING, longer, t, go);
  }

  lemma Written(line: bytes)
    ensures [[], []][1 := [] + line] == [[], line]
  {
    assert [] + line == line;
  }

  /** On another file than the open one a watch is no use: the file is replaced between being opened and
      being watched, a line is written to the new one, and the loop ends up waiting, with nothing
      pending and the line unread. */
  lemma RacedWatchLosesALine() returns (schedule: seq<Action>)
    ensures var s := Exec(Init(FOLLOWING, []), schedule);
      && s.t.phase.Waiting? && s.w.events == [] && s.w.errors == 0
      && s.w.path == s.w.watch == Some(1) && s.w.files == [[], [67, LF]]
      && s.t.fd == 0 && s.t.out == []
  {
    hide Exec;
    var s;
    schedule, s := WatchesAnother();
    schedule, s := ScansToEnd(schedule, s);
    schedule, s := Then(FOLLOWING, schedule, s, Append(1, [67, LF], false));
    Written([67, LF]);
    assert s.w.files == [[], [67, LF]] && s.w.events == [Event(true, false, false)];
    schedule, s := Then(FOLLOWING, schedule, s, Run(0, true, TakeEvent));
    assert s.t.phase.Scanning? && s.w.events == [];
    schedule, s := ScansToEnd(schedule, s);
  }

  /** The file is open and not yet watched. */
  predicate InWindow(phase: Phase) {
    phase.Seeking? || phase.Collecting? || phase.Handing? || phase.Starting? || phase.Watching? || phase.Rewatching?
  }

  /** At step i file f, which is open, not yet watched and at the path, is moved away. */
  predicate RotatesInWindow(s: State, schedule: seq<Action>, f: FileId, i: nat) {
    && i < |schedule| && schedule[i].Rotate?
    && var n := Exec(s, schedule[..i]); InWindow(n.t.phase) && n.t.fd == f && n.w.path == Some(f)
  }

  /** File f was moved away after it had been opened and before it was watched. */
  ghost predicate RotatedInWindow(s: State, schedule: seq<Action>, f: FileId) {
    exists i: nat :: RotatesInWindow(s, schedule, f, i)
  }

  lemma RotatedEarlier(s: State, schedule: seq<Action>, f: FileId, k: nat)
    requires k <= |schedule| && RotatedInWindow(s, schedule[..k], f)
    ensures RotatedInWindow(s, schedule, f)
  {
    hide Exec;
    var i: nat :| RotatesInWindow(s, schedule[..k], f, i);
    assert schedule[..k][..i] == schedule[..i];
    assert RotatesInWindow(s, schedule, f, i);
  }

  lemma RotatedHere(s: State, schedule: seq<Action>, f: FileId, k: nat)
    requires RotatesInWindow(s, schedule, f, k)
    ensures RotatedInWindow(s, schedule, f)
  {
  }

  /** The open file has left the path and is not watched yet, or the loop reads it under another watch. */
  predicate Astray(s: State) {
    || (InWindow(s.t.phase) && s.w.path != Some(s.t.fd))
    || (Looking(s.cfg, s.t.phase) && s.past.raced)
  }

  lemma WaitGoesAstray(s: State, choice: Choice)
    requires InFile(s) && s.t.phase.Waiting? && s.cfg.follow
    ensures var n := WaitNext(s, choice);
      Astray(n) ==> n.t.fd == s.t.fd && Astray(s)
  {
    hide Piece;
  }

  lemma ScanGoesAstray(s: State, amount: nat)
    requires InFile(s) && Following(s.cfg, s.t.phase) && s.t.phase.Scanning?
    ensures Astray(ScanNext(s, amount)) ==> Astray(s)
  {
    hide PeekAt, Amount, Buffer, Piece;
  }

  lemma TurnKeepsFile(s: State, amount: nat, receive: bool, choice: Choice)
    ensures var n := TailNext(s, amount, receive, choice);
      n.t.fd == s.t.fd || n.w.path == Some(n.t.fd)
  {
    hide PeekAt, Text, LastN, Estimate, Amount, Buffer, Piece;
  }

  lemma EarlyGoesAstray(s: State, amount: nat, receive: bool, choice: Choice)
    requires Following(s.cfg, s.t.phase) && Early(s.t.phase)
    ensures Astray(TailNext(s, amount, receive, choice)) ==> Astray(s)
  {
    hide PeekAt, Text, LastN, Estimate, Amount, Buffer, ScanNext, OfferNext, WaitNext, ReopenNext, WatchNext;
  }

  lemma TurnGoesAstray(s: State, amount: nat, receive: bool, choice: Choice)
    requires Following(s.cfg, s.t.phase)
    ensures var n := TailNext(s, amount, receive, choice);
      Astray(n) ==> Astray(s)
  {
    hide Piece, WaitNext, ScanNext, SeekNext, CollectNext, HandNext, StartNext;
    if Early(s.t.phase) {
      EarlyGoesAstray(s, amount, receive, choice);
    } else if s.t.phase.Waiting? && InFile(s) {
      WaitGoesAstray(s, choice);
    } else if s.t.phase.Scanning? && InFile(s) {
      ScanGoesAstray(s, amount);
    }
  }

  lemma TurnOpens(s: State, amount: nat, receive: bool, choice: Choice)
    requires Following(s.cfg, s.t.phase)
    ensures var n := TailNext(s, amount, receive, choice);
      n.t.fd != s.t.fd ==> InWindow(n.t.phase)
  {
    hide PeekAt, Text, LastN, Estimate, Amount, Buffer, Piece;
  }

  /** Only moving the open file away in its window leads astray. */
  lemma StepGoesAstray(s: State, a: Action)
    requires Following(s.cfg, s.t.phase)
    ensures var n := Step(s, a);
      Astray(n) ==> n.t.fd == s.t.fd && (Astray(s) || (a.Rotate? && InWindow(s.t.phase) && s.w.path == Some(s.t.fd)))
  {
    hide TailNext, Length;
    if a.Run? {
      TurnGoesAstray(s, a.amount, a.receive, a.choice);
      TurnKeepsFile(s, a.amount, a.receive, a.choice);
      TurnOpens(s, a.amount, a.receive, a.choice);
    }
  }

  lemma InvFollowing(s: State)
    requires Inv(s)
    ensures Following(s.cfg, s.t.phase)
  {
  }

  lemma {:induction false} AstrayMeansRotated(cfg: Config, content: bytes, schedule: seq<Action>)
    ensures var s := Exec(Init(cfg, content), schedule);
      Astray(s) ==> RotatedInWindow(Init(cfg, content), schedule, s.t.fd)
    decreases |schedule|
  {
    hide Step, RotatedInWindow, InWindow, Inv;
    var init := Init(cfg, content);
    if schedule != [] {
      var k := |schedule| - 1;
      var s := Exec(init, schedule[..k]);
      AstrayMeansRotated(cfg, content, schedule[..k]);
      Reachable(cfg, content, schedule[..k]);
      InvFollowing(s);
      StepGoesAstray(s, schedule[k]);
      if RotatedInWindow(init, schedule[..k], s.t.fd) {
        RotatedEarlier(init, schedule, s.t.fd, k);
      } else if schedule[k].Rotate? && InWindow(s.t.phase) && s.w.path == Some(s.t.fd) {
        assert RotatesInWindow(init, schedule, s.t.fd, k);
        RotatedHere(init, schedule, s.t.fd, k);
      }
    }
  }

  /** File f has left the path for good, and is not watched. */
  predicate Gone(s: State, f: FileId) {
    f < |s.w.files| && (s.w.path.Some? ==> s.w.path.value > f) && s.w.watch != Some(f)
  }

  lemma TurnStaysGone(s: State, f: FileId, amount: nat, receive: bool, choice: Choice)
    requires Gone(s, f)
    ensures Gone(TailNext(s, amount, receive, choice), f)
  {
    hide PeekAt, Text, LastN, Estimate, Amount, Buffer, Piece;
  }

  lemma StepStaysGone(s: State, f: FileId, a: Action)
    requires Gone(s, f)
    ensures Gone(Step(s, a), f)
  {
    hide TailNext, Length;
    if a.Run? {
      TurnStaysGone(s, f, a.amount, a.receive, a.choice);
    }
  }

  lemma RotationIsGone(s: State)
    requires Inv(s) && InWindow(s.t.phase) && s.w.path == Some(s.t.fd)
    ensures Gone(Step(s, Rotate), s.t.fd)
  {
    hide Sound;
  }

  lemma {:induction false} RotatedIsGone(cfg: Config, content: bytes, schedule: seq<Action>, f: FileId)
    requires RotatedInWindow(Init(cfg, content), schedule, f)
    ensures Gone(Exec(Init(cfg, content), schedule), f)
    decreases |schedule|
  {
    hide Step, InWindow, Gone, Inv;
    var init := Init(cfg, content);
    var i: nat :| RotatesInWindow(init, schedule, f, i);
    var k := |schedule| - 1;
    var s := Exec(init, schedule[..k]);
    if i == k {
      Reachable(cfg, content, schedule[..k]);
      RotationIsGone(s);
    } else {
      assert schedule[..k][..i] == schedule[..i];
      assert RotatesInWindow(init, schedule[..k], f, i);
      RotatedIsGone(cfg, content, schedule[..k], f);
      StepStaysGone(s, f, schedule[k]);
    }
  }

  /** In every run, while the loop reads under a watch: that watch is on another file than the open one
      if and only if the open file was moved away after it had been opened and before it was watched. */
  lemma MisplacedIffRotated(cfg: Config, content: bytes, schedule: seq<Action>)
    ensures var s := Exec(Init(cfg, content), schedule);
      Looking(cfg, s.t.phase) && s.w.watch.Some? ==>
        (s.w.watch.value != s.t.fd <==> RotatedInWindow(Init(cfg, content), schedule, s.t.fd))
  {
    hide Exec, RotatedInWindow, WriteAhead, Rotations, Sound;
    var s := Exec(Init(cfg, content), schedule);
    Reachable(cfg, content, schedule);
    AstrayMeansRotated(cfg, content, schedule);
    if RotatedInWindow(Init(cfg, content), schedule, s.t.fd) {
      RotatedIsGone(cfg, content, schedule, s.t.fd);
    }
  }

  predicate Unbroken(d: bytes, i: nat, n: nat) {
    i + n <= |d| && LF !in d[i..i + n]
  }

  /** d has a stretch of n bytes without a line end. */
  ghost predicate LongLine(d: bytes, n: nat) {
    exists i: nat :: Unbroken(d, i, n)
  }

  ghost predicate SomeLongLine(files: seq<bytes>, n: nat) {
    exists f: FileId | f < |files| :: LongLine(files[f], n)
  }

  /** A scanner gives up only on a line that fills its whole buffer. */
  lemma {:induction false} OverlongMeansLongLine(cfg: Config, content: bytes, schedule: seq<Action>)
    ensures var s := Exec(Init(cfg, content), schedule); s.past.overlong ==> SomeLongLine(s.w.files, cfg.limit)
    decreases |schedule|
  {
    hide Inv, Step, SomeLongLine;
    if schedule != [] {
      var k := |schedule| - 1;
      var s := Exec(Init(cfg, content), schedule[..k]);
      OverlongMeansLongLine(cfg, content, schedule[..k]);
      Reachable(cfg, content, schedule[..k]);
      StepOverlong(s, schedule[k]);
    }
  }

  lemma FilesGrow(files: seq<bytes>, more: seq<bytes>, n: nat)
    requires |files| <= |more| && forall f | 0 <= f < |files| :: files[f] <= more[f]
    requires SomeLongLine(files, n)
    ensures SomeLongLine(more, n)
  {
    var f: FileId :| f < |files| && LongLine(files[f], n);
    var i: nat :| Unbroken(files[f], i, n);
    assert more[f][i..i + n] == files[f][i..i + n] && Unbroken(more[f], i, n);
  }

  lemma FillsBuffer(buffer: bytes, sc: Scanner, limit: nat)
    requires PeekAt(buffer, sc, limit).TooLong?
    ensures |buffer| >= limit && LF !in buffer
  {
  }

  lemma StepOverlong(s: State, a: Action)
    requires Inv(s) && (s.past.overlong ==> SomeLongLine(s.w.files, s.cfg.limit))
    ensures var n := Step(s, a); n.past.overlong ==> SomeLongLine(n.w.files, s.cfg.limit)
  {
    hide SomeLongLine, Inv;
    var n := Step(s, a);
    StepGrows(s, a);
    if s.past.overlong {
      FilesGrow(s.w.files, n.w.files, s.cfg.limit);
    } else if n.past.overlong {
      GaveUp(s, a);
    }
  }

  lemma StepGrows(s: State, a: Action)
    ensures var n := Step(s, a);
      |s.w.files| <= |n.w.files| && forall f | 0 <= f < |s.w.files| :: s.w.files[f] <= n.w.files[f]
  {
    hide PeekAt, Text, LastN, Estimate, Amount, Buffer, Piece;
  }

  lemma GaveUp(s: State, a: Action)
    requires Inv(s) && !s.past.overlong && Step(s, a).past.overlong
    ensures SomeLongLine(Step(s, a).w.files, s.cfg.limit)
  {
    hide LineEnd, Text, LastN, Sound, Watched;
    SoundInFile(s);
    assert PeekAt(Buffer(s), s.t.scanner, s.cfg.limit).TooLong? && Step(s, a).w == s.w;
    FullBuffer(s.w.files[s.t.fd], s.t.scanner, s.t.off, s.cfg.limit);
  }

  lemma FullBuffer(d: bytes, sc: Scanner, off: nat, limit: nat)
    requires sc.done <= off <= |d| && PeekAt(d[sc.done..off], sc, limit).TooLong?
    ensures LongLine(d, limit)
  {
    var buffer := d[sc.done..off];
    FillsBuffer(buffer, sc, limit);
    assert d[sc.done..sc.done + limit] == buffer[..limit];
    assert Unbroken(d, sc.done, limit);
  }
}
