/** What every step of the tail goroutine keeps: where its scanners stand and what has become of the
    bytes they took. */
module FollowInvariants {
  import opened Lines
  import opened Options
  import opened TailLast
  import opened FollowMachine

  // ----- The texts that have been sent, and those on their way

  function Shown(item: Item): seq<bytes> {
    if item.Line? then [item.text] else []
  }

  function Delivered(out: seq<Item>): seq<bytes> {
    if out == [] then [] else Delivered(out[..|out| - 1]) + Shown(out[|out| - 1])
  }

  lemma DeliverOne(out: seq<Item>, item: Item)
    ensures Delivered(out + [item]) == Delivered(out) + Shown(item)
  {
    assert (out + [item])[..|out|] == out;
  }

  /** What fresh scanners make of all that the loop's scanners have taken, after what tailLines kept. */
  function Taken(past: Past, current: bytes): seq<bytes> {
    past.head + Emitted(past.closed) + Tokens(current)
  }

  lemma TakenMore(past: Past, current: bytes, more: bytes, text: bytes)
    requires Tokens(more) == Tokens(current) + [text]
    ensures Taken(past, more) == Taken(past, current) + [text]
  {
  }

  lemma RoundClosed(past: Past, current: bytes)
    ensures Taken(past.(closed := past.closed + [current]), []) == Taken(past, current)
    ensures Flatten(past.closed + [current]) == Flatten(past.closed) + current
  {
    EmittedAppend(past.closed, current);
    FlattenAppend(past.closed, [current]);
    assert Flatten([current]) == current + Flatten([current][1..]);
  }

  // ----- Groups of phases

  predicate Early(phase: Phase) {
    phase.Opening? || phase.Seeking? || phase.Collecting? || phase.Handing? || phase.Starting?
  }

  predicate Over(phase: Phase) {
    phase.Closing? || phase.Closed? || phase.Finished?
  }

  predicate InLoop(phase: Phase) {
    !Early(phase) && !Over(phase)
  }

  /** In the scan loop, or past it after reading a file once to its end. */
  predicate Ran(cfg: Config, stopped: bool, phase: Phase, err: bool) {
    InLoop(phase) || (Over(phase) && !cfg.follow && !stopped && !err)
  }

  // ----- The invariants

  /** A scanner stands where a raw line begins, or at an end it has seen. */
  predicate AtLineStart(d: bytes, off: nat, sc: Scanner) {
    && sc.from <= sc.done <= off <= |d|
    && (EndsLine(Piece(d, sc.from, sc.done)) || ((sc.eof || sc.failed) && sc.done == off))
  }

  /** tailLines has kept the last lines of what it read. */
  predicate HeadKept(d: bytes, last: nat, head: seq<bytes>, from: nat, to: nat) {
    from <= to && head == LastN(Tokens(Piece(d, from, to)), last)
  }

  predicate EarlyOk(d: bytes, last: nat, t: Tailer, past: Past) {
    && past.closed == [] && past.before == [] && !past.reopened && past.base == 0
    && match t.phase
       case Opening => t.out == [] && past.head == [] && past.tailFrom == 0
       case Seeking => t.out == [] && past.head == [] && past.tailFrom == 0 && t.off == 0
       case Collecting(lines) =>
         && t.out == [] && past.head == [] && past.tailFrom == t.scanner.from && !t.scanner.failed
         && lines == Tokens(Piece(d, t.scanner.from, t.scanner.done))
       case Handing(lines) =>
         Delivered(t.out) + lines == past.head && HeadKept(d, last, past.head, past.tailFrom, t.off)
       case Starting => Delivered(t.out) == past.head && HeadKept(d, last, past.head, past.tailFrom, t.off)
       case _ => false
  }

  /** Every text taken has been sent or is being offered, in order and once. */
  predicate Accounted(ran: bool, phase: Phase, sent: seq<bytes>, taken: seq<bytes>) {
    if ran && phase.Offering? then sent + Shown(phase.item) == taken
    else if ran then sent == taken
    else sent <= taken
  }

  /** The scanners of the loop have taken the file piece by piece up to where the current one began;
      nothing was skipped and nothing taken twice. */
  predicate Contiguous(d: bytes, from: nat, past: Past) {
    && past.base <= from
    && (!past.overlong ==> Flatten(past.closed) == past.before + Piece(d, past.base, from))
    && (if past.reopened then past.base == 0 else past.before == [])
  }

  /** The loop waits, or ends, only after its scanner has. */
  predicate ScannerEnded(phase: Phase, off: nat, sc: Scanner, overlong: bool) {
    && (phase.Waiting? || Over(phase) ==> sc.failed || (sc.eof && sc.done == off))
    && (phase.Offering? && phase.next.ScanEnded? ==> sc.failed)
    && (sc.failed ==> overlong)
    && (phase.Watching? || phase.Reopening? || phase.Rewatching? ==> sc == NewScanner(off))
  }

  predicate LoopOk(ran: bool, d: bytes, last: nat, t: Tailer, past: Past) {
    && Accounted(ran, t.phase, Delivered(t.out), Taken(past, Piece(d, t.scanner.from, t.scanner.done)))
    && (ran ==> (!past.reopened ==> HeadKept(d, last, past.head, past.tailFrom, past.base)))
    && (ran ==> Contiguous(d, t.scanner.from, past))
    && (ran ==> ScannerEnded(t.phase, t.off, t.scanner, past.overlong))
  }

  predicate Sound(d: bytes, cfg: Config, stopped: bool, t: Tailer, past: Past) {
    && AtLineStart(d, t.off, t.scanner)
    && if Early(t.phase) then EarlyOk(d, cfg.last, t, past)
       else LoopOk(Ran(cfg, stopped, t.phase, t.err), d, cfg.last, t, past)
  }

  predicate Placed(w: World, fd: FileId) {
    && fd < |w.files|
    && (w.path.Some? ==> w.path.value == |w.files| - 1)
    && (w.watch.Some? ==> w.watch.value < |w.files|)
  }

  predicate Following(cfg: Config, phase: Phase) {
    phase.Watching? || phase.Waiting? || phase.Reopening? || phase.Rewatching? ==> cfg.follow
  }

  predicate Flow(s: State) {
    Placed(s.w, s.t.fd) && Following(s.cfg, s.t.phase) && Sound(s.w.files[s.t.fd], s.cfg, s.w.stopped, s.t, s.past)
  }

  lemma FlowInLoop(cfg: Config, w: World, t: Tailer, past: Past)
    requires Placed(w, t.fd) && Following(cfg, t.phase) && InLoop(t.phase)
    requires AtLineStart(w.files[t.fd], t.off, t.scanner) && LoopOk(true, w.files[t.fd], cfg.last, t, past)
    ensures Flow(State(cfg, w, t, past))
  {
  }

  lemma FlowOver(cfg: Config, w: World, t: Tailer, past: Past)
    requires Placed(w, t.fd) && Over(t.phase) && (cfg.follow || w.stopped || t.err)
    requires AtLineStart(w.files[t.fd], t.off, t.scanner) && LoopOk(false, w.files[t.fd], cfg.last, t, past)
    ensures Flow(State(cfg, w, t, past))
  {
  }

  // ----- One token

  lemma PieceSplit(d: bytes, a: nat, b: nat, c: nat)
    requires a <= b <= c <= |d|
    ensures Piece(d, a, c) == Piece(d, a, b) + Piece(d, b, c)
  {
  }

  lemma TokenEnd(buffer: bytes, sc: Scanner, limit: nat)
    requires PeekAt(buffer, sc, limit).Token?
    ensures var end := PeekAt(buffer, sc, limit).end;
      && 0 < end <= |buffer| && (forall i | 0 <= i < end - 1 :: buffer[i] != LF)
      && (buffer[end - 1] == LF || ((sc.eof || sc.failed) && end == |buffer|))
  {
  }

  lemma TokenAppended(taken: bytes, token: bytes)
    requires EndsLine(taken) && token != [] && forall i | 0 <= i < |token| - 1 :: token[i] != LF
    ensures Tokens(taken + token) == Tokens(taken) + [Text(token)]
  {
    TokensAppend(taken, token);
    TokensOfOneLine(token);
  }

  lemma LineAdded(d: bytes, from: nat, done: nat, off: nat, end: nat)
    requires from <= done < off <= |d| && 0 < end <= off - done && EndsLine(Piece(d, from, done))
    requires forall i | 0 <= i < end - 1 :: d[done..off][i] != LF
    ensures Tokens(Piece(d, from, done + end)) == Tokens(Piece(d, from, done)) + [Text(d[done..off][..end])]
    ensures d[done..off][end - 1] == LF ==> EndsLine(Piece(d, from, done + end))
  {
    hide Tokens, Text;
    var token := d[done..off][..end];
    assert token == Piece(d, done, done + end);
    PieceSplit(d, from, done, done + end);
    TokenAppended(Piece(d, from, done), token);
  }

  /** Taking a token takes one raw line, or the rest when the scanner will read no more. */
  lemma TokenTaken(d: bytes, off: nat, sc: Scanner, limit: nat)
    requires AtLineStart(d, off, sc) && PeekAt(d[sc.done..off], sc, limit).Token?
    ensures var end := PeekAt(d[sc.done..off], sc, limit).end;
      && 0 < end <= off - sc.done
      && AtLineStart(d, off, sc.(done := sc.done + end))
      && Tokens(Piece(d, sc.from, sc.done + end)) == Tokens(Piece(d, sc.from, sc.done)) + [Text(d[sc.done..off][..end])]
  {
    hide RawLines, LineEnd, Text, Tokens;
    var buffer := d[sc.done..off];
    var end := PeekAt(buffer, sc, limit).end;
    TokenEnd(buffer, sc, limit);
    LineAdded(d, sc.from, sc.done, off, end);
  }

  // ----- The phases before the loop

  lemma SeekKeeps(s: State)
    requires Flow(s) && s.t.phase.Seeking?
    ensures Flow(SeekNext(s))
  {
  }

  lemma FillKeeps(s: State, amount: nat)
    requires Flow(s) && (s.t.phase.Collecting? || s.t.phase.Scanning?)
    requires !s.t.scanner.eof && !s.t.scanner.failed && s.t.off - s.t.scanner.done < s.cfg.limit
    ensures Flow(FillNext(s, amount))
  {
    hide Tokens, EndsLine, HeadKept, Delivered, Taken, Contiguous;
  }

  lemma CollectToken(d: bytes, last: nat, t: Tailer, past: Past, end: nat, text: bytes)
    requires t.phase.Collecting? && EarlyOk(d, last, t, past)
    requires Tokens(Piece(d, t.scanner.from, t.scanner.done + end))
      == Tokens(Piece(d, t.scanner.from, t.scanner.done)) + [text]
    ensures EarlyOk(d, last,
      t.(scanner := t.scanner.(done := t.scanner.done + end), phase := Collecting(t.phase.lines + [text])), past)
  {
    hide Tokens;
  }

  lemma CollectEnd(d: bytes, last: nat, t: Tailer, past: Past)
    requires t.phase.Collecting? && EarlyOk(d, last, t, past)
    requires t.scanner.from <= t.scanner.done == t.off
    ensures EarlyOk(d, last, t.(phase := Handing(LastN(t.phase.lines, last))),
      past.(head := LastN(t.phase.lines, last)))
  {
    hide Tokens, LastN;
  }

  lemma FailEarly(s: State)
    requires Flow(s) && s.t.phase.Collecting?
    ensures Flow(GiveUp(s, Closing, true))
  {
  }

  lemma CollectTokenKeeps(s: State, amount: nat)
    requires Flow(s) && s.t.phase.Collecting? && PeekAt(Buffer(s), s.t.scanner, s.cfg.limit).Token?
    ensures Flow(CollectNext(s, s.t.phase.lines, amount))
  {
    hide Tokens, LineEnd, Text, HeadKept, LastN, Delivered, Taken;
    var end := PeekAt(Buffer(s), s.t.scanner, s.cfg.limit).end;
    var text := Text(Buffer(s)[..end]);
    assert CollectNext(s, s.t.phase.lines, amount) == TakeToken(s, end, Collecting(s.t.phase.lines + [text]));
    TokenTaken(s.w.files[s.t.fd], s.t.off, s.t.scanner, s.cfg.limit);
    CollectToken(s.w.files[s.t.fd], s.cfg.last, s.t, s.past, end, text);
  }

  lemma CollectKeeps(s: State, amount: nat)
    requires Flow(s) && s.t.phase.Collecting?
    ensures Flow(CollectNext(s, s.t.phase.lines, amount))
  {
    hide Tokens, LineEnd, Text, LastN, Delivered, Taken;
    var d := s.w.files[s.t.fd];
    match PeekAt(Buffer(s), s.t.scanner, s.cfg.limit)
    case Token(end) => CollectTokenKeeps(s, amount);
    case Fill => FillKeeps(s, amount);
    case TooLong => FailEarly(s);
    case Ended => CollectEnd(d, s.cfg.last, s.t, s.past);
  }

  lemma HandedOne(sent: seq<bytes>, lines: seq<bytes>, head: seq<bytes>)
    requires lines != [] && sent + lines == head
    ensures sent + [lines[0]] + lines[1..] == head
  {
  }

  lemma HandOne(d: bytes, last: nat, t: Tailer, past: Past)
    requires t.phase.Handing? && t.phase.lines != [] && EarlyOk(d, last, t, past)
    ensures EarlyOk(d, last,
      t.(phase := Handing(t.phase.lines[1..]), out := t.out + [Line(t.phase.lines[0])]), past)
  {
    hide Tokens, LastN, HeadKept, Delivered;
    DeliverOne(t.out, Line(t.phase.lines[0]));
    HandedOne(Delivered(t.out), t.phase.lines, past.head);
  }

  lemma HandStops(s: State)
    requires Flow(s) && s.t.phase.Handing?
    ensures s.w.stopped ==> Flow(Enter(s, Closing))
  {
    hide Tokens, LastN, HeadKept, Delivered, Emitted;
  }

  lemma HandKeeps(s: State, receive: bool)
    requires Flow(s) && s.t.phase.Handing?
    ensures Flow(HandNext(s, s.t.phase.lines, receive))
  {
    hide Tokens, LastN, HeadKept, Delivered, Emitted;
    if s.t.phase.lines != [] {
      HandOne(s.w.files[s.t.fd], s.cfg.last, s.t, s.past);
      HandStops(s);
    }
  }

  lemma StartKeeps(s: State)
    requires Flow(s) && s.t.phase.Starting?
    ensures Flow(StartNext(s))
  {
  }

  // ----- The loop

  lemma LoopWatch(d: bytes, last: nat, t: Tailer, past: Past, raced: bool)
    requires (t.phase.Watching? || t.phase.Rewatching?) && LoopOk(true, d, last, t, past)
    ensures LoopOk(true, d, last, t.(phase := Scanning), past.(raced := raced))
    ensures LoopOk(false, d, last, t.(phase := Closing, err := true), past)
  {
  }

  lemma WatchKeeps(s: State)
    requires Flow(s) && (s.t.phase.Watching? || s.t.phase.Rewatching?)
    ensures Flow(WatchNext(s))
  {
    hide Tokens, LastN, HeadKept, Delivered, Taken;
    var n := WatchNext(s);
    LoopWatch(s.w.files[s.t.fd], s.cfg.last, s.t, s.past, n.past.raced);
    if s.w.path.None? {
      FlowOver(n.cfg, n.w, n.t, n.past);
    } else {
      FlowInLoop(n.cfg, n.w, n.t, n.past);
    }
  }

  lemma LoopToken(d: bytes, last: nat, t: Tailer, past: Past, end: nat, text: bytes)
    requires t.phase.Scanning? && LoopOk(true, d, last, t, past)
    requires Tokens(Piece(d, t.scanner.from, t.scanner.done + end))
      == Tokens(Piece(d, t.scanner.from, t.scanner.done)) + [text]
    ensures LoopOk(true, d, last,
      t.(scanner := t.scanner.(done := t.scanner.done + end), phase := Offering(Line(text), ScanOn)), past)
  {
    hide Tokens, Emitted, Delivered;
    TakenMore(past, Piece(d, t.scanner.from, t.scanner.done), Piece(d, t.scanner.from, t.scanner.done + end), text);
  }

  lemma ScanTaken(s: State, end: nat, text: bytes)
    requires Flow(s) && s.t.phase.Scanning?
    requires var d := s.w.files[s.t.fd];
      var sc := s.t.scanner;
      && AtLineStart(d, s.t.off, sc.(done := sc.done + end))
      && Tokens(Piece(d, sc.from, sc.done + end)) == Tokens(Piece(d, sc.from, sc.done)) + [text]
    ensures Flow(TakeToken(s, end, Offering(Line(text), ScanOn)))
  {
    hide Tokens, Emitted, Delivered;
    LoopToken(s.w.files[s.t.fd], s.cfg.last, s.t, s.past, end, text);
    var n := TakeToken(s, end, Offering(Line(text), ScanOn));
    FlowInLoop(n.cfg, n.w, n.t, n.past);
  }

  lemma ScanTokenKeeps(s: State, amount: nat)
    requires Flow(s) && s.t.phase.Scanning? && PeekAt(Buffer(s), s.t.scanner, s.cfg.limit).Token?
    ensures Flow(ScanNext(s, amount))
  {
    hide Tokens, LineEnd;
    var end := PeekAt(Buffer(s), s.t.scanner, s.cfg.limit).end;
    var text := Text(Buffer(s)[..end]);
    assert ScanNext(s, amount) == TakeToken(s, end, Offering(Line(text), ScanOn));
    TokenTaken(s.w.files[s.t.fd], s.t.off, s.t.scanner, s.cfg.limit);
    ScanTaken(s, end, text);
  }

  lemma ScanKeeps(s: State, amount: nat)
    requires Flow(s) && s.t.phase.Scanning?
    ensures Flow(ScanNext(s, amount))
  {
    hide Tokens, LineEnd, Delivered, HeadKept;
    match PeekAt(Buffer(s), s.t.scanner, s.cfg.limit)
    case Token(end) => ScanTokenKeeps(s, amount);
    case Fill => FillKeeps(s, amount);
    case TooLong =>
    case Ended =>
  }

  lemma LoopSend(ran: bool, d: bytes, last: nat, t: Tailer, past: Past, phase: Phase)
    requires t.phase.Offering? && LoopOk(true, d, last, t, past)
    requires phase.Scanning? || (t.phase.next.ScanEnded? && (phase.Waiting? || phase.Closing?)) || !ran
    ensures LoopOk(ran, d, last, t.(out := t.out + [t.phase.item], phase := phase), past)
  {
    DeliverOne(t.out, t.phase.item);
  }

  lemma LoopDrop(d: bytes, last: nat, t: Tailer, past: Past)
    requires t.phase.Offering? && LoopOk(true, d, last, t, past)
    ensures LoopOk(false, d, last, t.(phase := Closing), past)
  {
  }

  lemma OfferKeeps(s: State, receive: bool)
    requires Flow(s) && s.t.phase.Offering?
    ensures Flow(OfferNext(s, s.t.phase.item, s.t.phase.next, receive))
  {
    hide Tokens, LastN, HeadKept, Delivered, Taken, Contiguous;
    var n := OfferNext(s, s.t.phase.item, s.t.phase.next, receive);
    if receive {
      LoopSend(Ran(s.cfg, s.w.stopped, n.t.phase, n.t.err), s.w.files[s.t.fd], s.cfg.last, s.t, s.past, n.t.phase);
    } else {
      LoopDrop(s.w.files[s.t.fd], s.cfg.last, s.t, s.past);
    }
  }

  lemma LoopClose(d: bytes, last: nat, t: Tailer, past: Past, phase: Phase)
    requires t.phase.Waiting? && (phase.Scanning? || phase.Reopening?)
    requires AtLineStart(d, t.off, t.scanner) && LoopOk(true, d, last, t, past)
    ensures LoopOk(true, d, last, t.(scanner := NewScanner(t.off), phase := phase),
      past.(closed := past.closed + [Piece(d, t.scanner.from, t.scanner.done)]))
  {
    var current := Piece(d, t.scanner.from, t.scanner.done);
    RoundClosed(past, current);
    if !past.overlong {
      PieceSplit(d, past.base, t.scanner.from, t.scanner.done);
      Regroup(past.before, Piece(d, past.base, t.scanner.from), current);
    }
  }

  lemma CloseKeeps(s: State, phase: Phase)
    requires Flow(s) && s.t.phase.Waiting? && (phase.Scanning? || phase.Reopening?)
    ensures Flow(CloseRound(s, phase))
  {
    hide Tokens, HeadKept, Delivered, Taken, Contiguous, Accounted;
    LoopClose(s.w.files[s.t.fd], s.cfg.last, s.t, s.past, phase);
  }

  lemma WatcherApart(s: State, watch: Option<FileId>, events: seq<Event>, errors: nat)
    requires Flow(s) && (watch.Some? ==> watch.value < |s.w.files|)
    ensures Flow(s.(w := s.w.(watch := watch, events := events, errors := errors)))
  {
    hide Sound;
  }

  lemma WaitEnds(s: State)
    requires Flow(s) && s.t.phase.Waiting?
    ensures Flow(Enter(s, Closing))
  {
    hide Tokens, HeadKept, Delivered, Taken, Contiguous;
  }

  lemma WaitGoesOn(s: State, phase: Phase)
    requires Flow(s) && s.t.phase.Waiting? && (phase.Scanning? || phase == Offering(Problem, ScanOn))
    ensures Flow(Enter(s, phase))
  {
    hide Tokens, HeadKept, Delivered, Taken, Contiguous;
  }

  lemma EventKeeps(s: State, e: Event)
    requires Flow(s) && s.t.phase.Waiting?
    ensures Flow(EventNext(s, e))
  {
    if e.write {
      CloseKeeps(s, Scanning);
    } else if e.remove || e.rename {
      CloseKeeps(s, Reopening);
      var c := CloseRound(s, Reopening);
      WatcherApart(c, None, c.w.events, c.w.errors);
      WaitEnds(s);
    } else {
      WaitGoesOn(s, Scanning);
    }
  }

  lemma WaitKeeps(s: State, choice: Choice)
    requires Flow(s) && s.t.phase.Waiting?
    ensures Flow(WaitNext(s, choice))
  {
    if choice.TakeEvent? && s.w.events != [] {
      WatcherApart(s, s.w.watch, s.w.events[1..], s.w.errors);
      EventKeeps(s.(w := s.w.(events := s.w.events[1..])), s.w.events[0]);
    } else if choice.TakeError? && s.w.errors > 0 {
      WatcherApart(s, s.w.watch, s.w.events, s.w.errors - 1);
      WaitGoesOn(s.(w := s.w.(errors := s.w.errors - 1)), Offering(Problem, ScanOn));
    } else if s.w.stopped {
      WaitEnds(s);
    }
  }

  lemma LoopReopen(d: bytes, d': bytes, last: nat, t: Tailer, past: Past, fd: FileId)
    requires t.phase.Reopening? && AtLineStart(d, t.off, t.scanner) && LoopOk(true, d, last, t, past)
    ensures LoopOk(true, d', last, t.(phase := Rewatching, fd := fd, off := 0, scanner := NewScanner(0)),
      past.(base := 0, reopened := true, before := past.before + Piece(d, past.base, t.off)))
    ensures LoopOk(false, d, last, t.(phase := Closing), past)
  {
  }

  lemma ReopenKeeps(s: State)
    requires Flow(s) && s.t.phase.Reopening?
    ensures Flow(ReopenNext(s))
  {
    hide Tokens, HeadKept, Delivered, Taken, Contiguous, Accounted;
    var n := ReopenNext(s);
    LoopReopen(s.w.files[s.t.fd], s.w.files[n.t.fd], s.cfg.last, s.t, s.past, n.t.fd);
    if s.w.stopped {
      FlowOver(n.cfg, n.w, n.t, n.past);
    } else if s.w.path.Some? {
      FlowInLoop(n.cfg, n.w, n.t, n.past);
    }
  }

  lemma RunKeepsFlow(s: State, amount: nat, receive: bool, choice: Choice)
    requires Flow(s)
    ensures Flow(TailNext(s, amount, receive, choice))
  {
    hide SeekNext, CollectNext, HandNext, StartNext, WatchNext, ScanNext, OfferNext, WaitNext, ReopenNext;
    hide Tokens, LastN, Taken;
    match s.t.phase
    case Opening =>
    case Seeking => SeekKeeps(s);
    case Collecting(lines) => CollectKeeps(s, amount);
    case Handing(lines) => HandKeeps(s, receive);
    case Starting => StartKeeps(s);
    case Watching => WatchKeeps(s);
    case Scanning => ScanKeeps(s, amount);
    case Offering(item, next) => OfferKeeps(s, receive);
    case Waiting => WaitKeeps(s, choice);
    case Reopening => ReopenKeeps(s);
    case Rewatching => WatchKeeps(s);
    case Closing =>
    case Closed =>
    case Finished =>
  }

  // ----- The world

  lemma PieceOfLonger(d: bytes, data: bytes, lo: nat, hi: nat)
    requires hi <= |d|
    ensures Piece(d + data, lo, hi) == Piece(d, lo, hi)
  {
  }

  lemma EarlyLonger(d: bytes, data: bytes, last: nat, t: Tailer, past: Past)
    requires AtLineStart(d, t.off, t.scanner) && EarlyOk(d, last, t, past)
    ensures EarlyOk(d + data, last, t, past)
  {
    PieceOfLonger(d, data, t.scanner.from, t.scanner.done);
    PieceOfLonger(d, data, past.tailFrom, t.off);
  }

  lemma LoopLonger(ran: bool, d: bytes, data: bytes, last: nat, t: Tailer, past: Past)
    requires AtLineStart(d, t.off, t.scanner) && LoopOk(ran, d, last, t, past)
    ensures LoopOk(ran, d + data, last, t, past)
  {
    PieceOfLonger(d, data, t.scanner.from, t.scanner.done);
    if ran {
      PieceOfLonger(d, data, past.base, t.scanner.from);
      PieceOfLonger(d, data, past.tailFrom, past.base);
    }
  }

  lemma SoundLonger(d: bytes, data: bytes, cfg: Config, stopped: bool, t: Tailer, past: Past)
    requires Sound(d, cfg, stopped, t, past)
    ensures Sound(d + data, cfg, stopped, t, past)
  {
    PieceOfLonger(d, data, t.scanner.from, t.scanner.done);
    if Early(t.phase) {
      EarlyLonger(d, data, cfg.last, t, past);
    } else {
      LoopLonger(Ran(cfg, stopped, t.phase, t.err), d, data, cfg.last, t, past);
    }
  }

  lemma AppendKeepsFlow(s: State, f: FileId, data: bytes, merge: bool)
    requires Flow(s)
    ensures Flow(s.(w := AppendNext(s.w, f, data, merge)))
  {
    hide Sound;
    SoundLonger(s.w.files[s.t.fd], data, s.cfg, s.w.stopped, s.t, s.past);
  }

  lemma SoundStopped(d: bytes, cfg: Config, stopped: bool, t: Tailer, past: Past)
    requires Sound(d, cfg, stopped, t, past)
    ensures Sound(d, cfg, true, t, past)
  {
  }

  lemma SealApart(d: bytes, cfg: Config, stopped: bool, t: Tailer, past: Past, sealed: nat)
    requires Sound(d, cfg, stopped, t, past)
    ensures Sound(d, cfg, stopped, t, past.(sealed := sealed))
  {
  }

  lemma StepKeepsFlow(s: State, a: Action)
    requires Flow(s)
    ensures Flow(Step(s, a))
  {
    var d := s.w.files[s.t.fd];
    match a
    case Append(f, data, merge) => AppendKeepsFlow(s, f, data, merge);
    case Rotate =>
    case Report(byRename) => SealApart(d, s.cfg, s.w.stopped, s.t, s.past, Step(s, a).past.sealed);
    case Create =>
    case Touch =>
    case WatchError =>
    case Stop => SoundStopped(d, s.cfg, s.w.stopped, s.t, s.past);
    case Run(amount, receive, choice) => RunKeepsFlow(s, amount, receive, choice);
  }
}
