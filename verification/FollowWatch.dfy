/** What the watcher tells the tail goroutine: no wakeup is lost, and a rotation comes last. */
module FollowWatch {
  import opened Lines
  import opened Options
  import opened TailLast
  import opened FollowMachine
  import opened FollowInvariants

  // ----- Pending events

  /** A pending write event that no rotation precedes. */
  predicate WriteAhead(events: seq<Event>) {
    events != [] && (events[0].write || (!Rotation(events[0]) && WriteAhead(events[1..])))
  }

  function Rotations(events: seq<Event>): nat {
    if events == [] then 0 else (if Rotation(events[0]) then 1 else 0) + Rotations(events[1..])
  }

  lemma {:induction false} EventAdded(events: seq<Event>, e: Event)
    ensures Rotations(events + [e]) == Rotations(events) + Rotations([e])
    ensures WriteAhead(events) ==> WriteAhead(events + [e])
    ensures Rotations(events) == 0 && e.write ==> WriteAhead(events + [e])
  {
    if events == [] {
      assert [] + [e] == [e];
    } else {
      EventAdded(events[1..], e);
      assert (events + [e])[1..] == events[1..] + [e];
    }
  }

  lemma {:induction false} LastWriteIsAhead(events: seq<Event>)
    requires events != [] && events[|events| - 1].write && Rotations(events) == 0
    ensures WriteAhead(events)
  {
    if !events[0].write {
      LastWriteIsAhead(events[1..]);
    }
  }

  // ----- The invariant

  /** Between watching and rotation: the phases in which the loop answers to events. */
  predicate Looking(cfg: Config, phase: Phase) {
    cfg.follow && (phase.Scanning? || phase.Offering? || phase.Waiting?)
  }

  /** How much of the open file the watcher has answered for: all of it as long as the file is
      watched, and afterwards what it held when its watch ended. */
  function Reported(w: World, fd: FileId, sealed: nat): nat {
    if w.watch.Some? then Length(w, fd) else sealed
  }

  /** Unread bytes behind a scanner that has seen the end are announced by a pending write. */
  predicate Announced(w: World, t: Tailer, sealed: nat) {
    t.scanner.eof && t.off < Reported(w, t.fd, sealed) ==> WriteAhead(w.events)
  }

  predicate Watched(cfg: Config, w: World, t: Tailer, past: Past) {
    if Looking(cfg, t.phase) then
      && Rotations(w.events) == (if w.watch.Some? then 0 else 1)
      && (w.watch.Some? ==> (past.raced <==> w.watch.value != t.fd))
      && (!past.raced ==> Announced(w, t, past.sealed) && Reported(w, t.fd, past.sealed) <= Length(w, t.fd))
    else if Over(t.phase) then true
    else
      && w.watch.None? && Rotations(w.events) == 0
      && (t.phase.Reopening? && !past.raced && !past.overlong ==> past.sealed <= t.off)
  }

  // ----- The tail goroutine keeps it

  lemma FillReads(s: State, amount: nat)
    requires InFile(s) && s.t.off - s.t.scanner.done < s.cfg.limit && !s.t.scanner.eof
    ensures var n := FillNext(s, amount);
      && n.w == s.w && n.past == s.past && n.t.phase == s.t.phase && n.t.fd == s.t.fd && n.t.off >= s.t.off
      && (n.t.scanner.eof ==> n.t.off == |s.w.files[s.t.fd]|)
  {
  }

  lemma ScanKeepsWatch(s: State, amount: nat)
    requires InFile(s) && s.t.phase.Scanning? && Watched(s.cfg, s.w, s.t, s.past)
    ensures var n := ScanNext(s, amount); Watched(n.cfg, n.w, n.t, n.past)
  {
    hide WriteAhead, Rotations, LineEnd, Text;
    match PeekAt(Buffer(s), s.t.scanner, s.cfg.limit)
    case Token(end) =>
    case Fill => FillReads(s, amount);
    case TooLong =>
    case Ended =>
  }

  /** When a rotation is next, no write is pending before it, so all that the watcher reported has
      been read. */
  lemma EventKeepsWatch(s: State)
    requires Flow(s) && s.t.phase.Waiting? && s.w.events != [] && Watched(s.cfg, s.w, s.t, s.past)
    ensures var n := EventNext(s.(w := s.w.(events := s.w.events[1..])), s.w.events[0]);
      Watched(n.cfg, n.w, n.t, n.past)
  {
    hide Accounted, HeadKept, Contiguous, Taken, Delivered;
    assert ScannerEnded(s.t.phase, s.t.off, s.t.scanner, s.past.overlong);
    assert Looking(s.cfg, s.t.phase);
  }

  lemma WaitKeepsWatch(s: State, choice: Choice)
    requires Flow(s) && s.t.phase.Waiting? && Watched(s.cfg, s.w, s.t, s.past)
    ensures var n := WaitNext(s, choice); Watched(n.cfg, n.w, n.t, n.past)
  {
    hide Sound, WriteAhead, Rotations, EventNext;
    if choice.TakeEvent? && s.w.events != [] {
      EventKeepsWatch(s);
    }
  }

  lemma WatchingKeepsWatch(s: State)
    requires Flow(s) && (s.t.phase.Watching? || s.t.phase.Rewatching?) && Watched(s.cfg, s.w, s.t, s.past)
    ensures var n := WatchNext(s); Watched(n.cfg, n.w, n.t, n.past)
  {
    hide Accounted, HeadKept, Contiguous, Taken, Delivered, WriteAhead, Rotations;
    assert s.t.scanner == NewScanner(s.t.off);
  }

  /** Before the watch, after the loop, and when not following. */
  lemma ElsewhereKeepsWatch(s: State, amount: nat, receive: bool, choice: Choice)
    requires Flow(s) && Watched(s.cfg, s.w, s.t, s.past)
    requires Early(s.t.phase) || Over(s.t.phase) || s.t.phase.Reopening?
    ensures var n := TailNext(s, amount, receive, choice); Watched(n.cfg, n.w, n.t, n.past)
  {
    hide Sound, WriteAhead, Rotations, Text, LineEnd, LastN, Estimate, PeekAt;
    match s.t.phase
    case Collecting(lines) =>
    case Handing(lines) =>
    case _ =>
  }

  lemma RunKeepsWatch(s: State, amount: nat, receive: bool, choice: Choice)
    requires Flow(s) && Watched(s.cfg, s.w, s.t, s.past)
    ensures var n := TailNext(s, amount, receive, choice); Watched(n.cfg, n.w, n.t, n.past)
  {
    hide Sound, WriteAhead, Rotations;
    hide SeekNext, CollectNext, HandNext, StartNext, WatchNext, ScanNext, WaitNext, ReopenNext;
    match s.t.phase
    case Watching => WatchingKeepsWatch(s);
    case Scanning => SoundInFile(s); ScanKeepsWatch(s, amount);
    case Waiting => WaitKeepsWatch(s, choice);
    case Rewatching => WatchingKeepsWatch(s);
    case Offering(item, next) =>
    case _ => ElsewhereKeepsWatch(s, amount, receive, choice);
  }

  lemma SoundInFile(s: State)
    requires Flow(s)
    ensures InFile(s)
  {
  }

  // ----- So does the world

  lemma AppendKeepsWatch(s: State, f: FileId, data: bytes, merge: bool)
    requires Placed(s.w, s.t.fd) && Watched(s.cfg, s.w, s.t, s.past)
    ensures Watched(s.cfg, AppendNext(s.w, f, data, merge), s.t, s.past)
  {
    var e := Event(true, false, false);
    EventAdded(s.w.events, e);
    if s.w.events != [] && s.w.events[|s.w.events| - 1].write && Rotations(s.w.events) == 0 {
      LastWriteIsAhead(s.w.events);
    }
  }

  lemma ReportKeepsWatch(s: State, byRename: bool)
    requires Placed(s.w, s.t.fd) && Watched(s.cfg, s.w, s.t, s.past)
    ensures var n := ReportNext(s, byRename); Watched(n.cfg, n.w, n.t, n.past)
  {
    EventAdded(s.w.events, Event(false, !byRename, byRename));
  }

  lemma StepKeepsWatch(s: State, a: Action)
    requires Flow(s) && Watched(s.cfg, s.w, s.t, s.past)
    ensures var n := Step(s, a); Watched(n.cfg, n.w, n.t, n.past)
  {
    hide Sound, WriteAhead, TailNext, AppendNext, ReportNext;
    match a
    case Append(f, data, merge) => AppendKeepsWatch(s, f, data, merge);
    case Rotate =>
    case Report(byRename) => ReportKeepsWatch(s, byRename);
    case Create =>
    case Touch => EventAdded(s.w.events, Event(false, false, false));
    case WatchError =>
    case Stop =>
    case Run(amount, receive, choice) => RunKeepsWatch(s, amount, receive, choice);
  }
}
