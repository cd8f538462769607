/** The tail goroutine of agent/tail/tail.go as a transition system, with the file it reads, the
    watcher that feeds it and the receiver it sends to. */
module FollowMachine {
  import opened Lines
  import opened Options
  import opened TailLast

  type FileId = nat

  /** last is the number of lines asked for, 0 for all; limit is the scanner's buffer size. */
  datatype Config = Config(follow: bool, reopen: bool, last: nat, limit: nat)

  /** The operation bits of a watcher event; a change of mode has none of them. */
  datatype Event = Event(write: bool, remove: bool, rename: bool)

  /** A scanner that began at offset `from` and has emitted everything before `done`; the bytes
      from there to the file offset are in its buffer. */
  datatype Scanner = Scanner(from: nat, done: nat, eof: bool, failed: bool)

  datatype Item = Line(text: bytes) | Problem

  /** What comes after an offered item: scanning on, or what follows the scan loop. */
  datatype Next = ScanOn | ScanEnded

  datatype Phase =
    | Opening
    | Seeking
    | Collecting(lines: seq<bytes>)    // tailLines reads to the end
    | Handing(lines: seq<bytes>)       // tailLines sends what it kept
    | Starting
    | Watching
    | Scanning
    | Offering(item: Item, next: Next)
    | Waiting
    | Reopening
    | Rewatching
    | Closing                          // the file is closed; the channel is not
    | Closed                           // the channel is closed; wg.Done is due
    | Finished

  /** Every file that has ever been at the path, in order, the one there now, and the watcher. */
  datatype World = World(
    files: seq<bytes>,
    path: Option<FileId>,
    watch: Option<FileId>,
    events: seq<Event>,
    errors: nat,
    stopped: bool)

  datatype Tailer = Tailer(phase: Phase, fd: FileId, off: nat, scanner: Scanner, out: seq<Item>, err: bool)

  /** What has happened so far; no step depends on it. */
  datatype Past = Past(
    tailFrom: nat,         // where tailLines began to read
    head: seq<bytes>,      // what tailLines kept
    base: nat,             // where the loop began to read the open file
    before: bytes,         // what the loop has read of earlier files
    closed: seq<bytes>,    // what each earlier scanner of the loop has taken
    reopened: bool,        // the open file is not the first one
    sealed: nat,           // the length of the open file when its watch ended
    raced: bool,           // the latest watch was put on another file than the open one
    overlong: bool)        // a scanner gave up on a line

  datatype State = State(cfg: Config, w: World, t: Tailer, past: Past)

  datatype Choice = TakeEvent | TakeError | TakeStop

  datatype Action =
    | Append(file: FileId, data: bytes, merge: bool)
    | Rotate
    | Report(byRename: bool)
    | Create
    | Touch
    | WatchError
    | Stop
    | Run(amount: nat, receive: bool, choice: Choice)

  function Init(cfg: Config, content: bytes): State {
    State(cfg,
      World([content], Some(0), None, [], 0, false),
      Tailer(Opening, 0, 0, Scanner(0, 0, false, false), [], false),
      Past(0, [], 0, [], [], false, 0, false, false))
  }

  function NewScanner(off: nat): Scanner {
    Scanner(off, off, false, false)
  }

  predicate Rotation(e: Event) {
    !e.write && (e.remove || e.rename)
  }

  function Enter(s: State, phase: Phase): State {
    s.(t := s.t.(phase := phase))
  }

  function Fail(s: State): State {
    s.(t := s.t.(phase := Closing, err := true))
  }

  // ----- One step of a scanner

  datatype Peek = Token(end: nat) | Fill | TooLong | Ended

  /** What the scanner does next, given the bytes in its buffer. Scanning on after the end or after
      giving up on a line still yields what is buffered. */
  function PeekAt(buffer: bytes, sc: Scanner, limit: nat): Peek {
    if buffer != [] && buffer[LineEnd(buffer) - 1] == LF then Token(LineEnd(buffer))
    else if sc.eof || sc.failed then (if buffer == [] then Ended else Token(|buffer|))
    else if |buffer| >= limit then TooLong
    else Fill
  }

  /** The bytes of d from lo up to hi. */
  function Piece(d: bytes, lo: nat, hi: nat): bytes {
    if lo <= hi <= |d| then d[lo..hi] else []
  }

  function Buffer(s: State): bytes
    requires InFile(s)
  {
    s.w.files[s.t.fd][s.t.scanner.done..s.t.off]
  }

  predicate InFile(s: State) {
    && s.t.fd < |s.w.files|
    && s.t.scanner.from <= s.t.scanner.done <= s.t.off <= |s.w.files[s.t.fd]|
  }

  /** How many bytes one read returns: at least one, no more than there are or than fit. */
  function Amount(wanted: nat, available: nat, room: nat): (n: nat)
    requires available > 0 && room > 0
    ensures 1 <= n <= available && n <= room
  {
    var most := if available < room then available else room;
    if wanted == 0 then 1 else if wanted > most then most else wanted
  }

  /** One read into the buffer; at the end of the file the scanner remembers the end. */
  function FillNext(s: State, amount: nat): State
    requires InFile(s) && s.t.off - s.t.scanner.done < s.cfg.limit
  {
    var available := |s.w.files[s.t.fd]| - s.t.off;
    if available == 0 then s.(t := s.t.(scanner := s.t.scanner.(eof := true)))
    else s.(t := s.t.(off := s.t.off + Amount(amount, available, s.cfg.limit - (s.t.off - s.t.scanner.done))))
  }

  function TakeToken(s: State, end: nat, phase: Phase): State {
    s.(t := s.t.(scanner := s.t.scanner.(done := s.t.scanner.done + end), phase := phase))
  }

  function GiveUp(s: State, phase: Phase, err: bool): State {
    s.(t := s.t.(scanner := s.t.scanner.(failed := true), phase := phase, err := err),
       past := s.past.(overlong := true))
  }

  // ----- The phases

  function SeekNext(s: State): State
    requires InFile(s)
  {
    var size := |s.w.files[s.t.fd]|;
    if s.cfg.last == 0 || size == 0 then Enter(s, Starting)
    else
      var from := Estimate(size, s.cfg.last);
      s.(t := s.t.(phase := Collecting([]), off := from, scanner := NewScanner(from)),
         past := s.past.(tailFrom := from))
  }

  function CollectNext(s: State, lines: seq<bytes>, amount: nat): State
    requires InFile(s)
  {
    match PeekAt(Buffer(s), s.t.scanner, s.cfg.limit)
    case Token(end) => TakeToken(s, end, Collecting(lines + [Text(Buffer(s)[..end])]))
    case Fill => FillNext(s, amount)
    case TooLong => GiveUp(s, Closing, true)
    case Ended =>
      Enter(s, Handing(LastN(lines, s.cfg.last))).(past := s.past.(head := LastN(lines, s.cfg.last)))
  }

  function HandNext(s: State, lines: seq<bytes>, receive: bool): State {
    if lines == [] then Enter(s, Starting)
    else if receive then s.(t := s.t.(phase := Handing(lines[1..]), out := s.t.out + [Line(lines[0])]))
    else if s.w.stopped then Enter(s, Closing)
    else s
  }

  function StartNext(s: State): State {
    s.(t := s.t.(scanner := NewScanner(s.t.off), phase := if s.cfg.follow then Watching else Scanning),
       past := s.past.(base := s.t.off))
  }

  /** watcher.Add watches whatever file is at the path now, and fails if there is none. */
  function WatchNext(s: State): State {
    if s.w.path.None? then Fail(s)
    else Enter(s, Scanning).(
      w := s.w.(watch := s.w.path),
      past := s.past.(raced := s.w.path.value != s.t.fd))
  }

  function ScanNext(s: State, amount: nat): State
    requires InFile(s)
  {
    match PeekAt(Buffer(s), s.t.scanner, s.cfg.limit)
    case Token(end) => TakeToken(s, end, Offering(Line(Text(Buffer(s)[..end])), ScanOn))
    case Fill => FillNext(s, amount)
    case TooLong => GiveUp(s, Offering(Problem, ScanEnded), s.t.err)
    case Ended =>
      if s.t.scanner.failed then Enter(s, Offering(Problem, ScanEnded))
      else Enter(s, if s.cfg.follow then Waiting else Closing)
  }

  function OfferNext(s: State, item: Item, next: Next, receive: bool): State {
    if receive then
      s.(t := s.t.(out := s.t.out + [item],
                   phase := if next.ScanOn? then Scanning else if s.cfg.follow then Waiting else Closing))
    else if s.w.stopped then Enter(s, Closing)
    else s
  }

  /** The current scanner is done with; what it has taken is one round. */
  function CloseRound(s: State, phase: Phase): State
    requires InFile(s)
  {
    s.(t := s.t.(scanner := NewScanner(s.t.off), phase := phase),
       past := s.past.(closed := s.past.closed
         + [Piece(s.w.files[s.t.fd], s.t.scanner.from, s.t.scanner.done)]))
  }

  function EventNext(s: State, e: Event): State
    requires InFile(s)
  {
    if e.write then CloseRound(s, Scanning)
    else if e.remove || e.rename then
      (if s.cfg.reopen then CloseRound(s, Reopening).(w := s.w.(watch := None)) else Enter(s, Closing))
    else Enter(s, Scanning)
  }

  function WaitNext(s: State, choice: Choice): State
    requires InFile(s)
  {
    match choice
    case TakeEvent =>
      if s.w.events == [] then s else EventNext(s.(w := s.w.(events := s.w.events[1..])), s.w.events[0])
    case TakeError =>
      if s.w.errors == 0 then s else Enter(s.(w := s.w.(errors := s.w.errors - 1)), Offering(Problem, ScanOn))
    case TakeStop => if s.w.stopped then Enter(s, Closing) else s
  }

  function ReopenNext(s: State): State
    requires InFile(s)
  {
    if s.w.stopped then Enter(s, Closing)
    else if s.w.path.None? then s
    else
      s.(t := s.t.(phase := Rewatching, fd := s.w.path.value, off := 0, scanner := NewScanner(0)),
         past := s.past.(base := 0, reopened := true,
           before := s.past.before + Piece(s.w.files[s.t.fd], s.past.base, s.t.off)))
  }

  function TailNext(s: State, amount: nat, receive: bool, choice: Choice): State {
    if !InFile(s) then s
    else match s.t.phase
      case Opening =>
        if s.w.path.None? then Fail(s)
        else s.(t := s.t.(phase := Seeking, fd := s.w.path.value, off := 0, scanner := NewScanner(0)))
      case Seeking => SeekNext(s)
      case Collecting(lines) => CollectNext(s, lines, amount)
      case Handing(lines) => HandNext(s, lines, receive)
      case Starting => StartNext(s)
      case Watching => WatchNext(s)
      case Scanning => ScanNext(s, amount)
      case Offering(item, next) => OfferNext(s, item, next, receive)
      case Waiting => WaitNext(s, choice)
      case Reopening => ReopenNext(s)
      case Rewatching => WatchNext(s)
      case Closing => Enter(s, Closed)
      case Closed => Enter(s, Finished)
      case Finished => s
  }

  // ----- Everything else

  /** A write to a watched file is reported, unless the newest pending event already says so. */
  function AppendNext(w: World, f: FileId, data: bytes, merge: bool): World {
    if f >= |w.files| || data == [] then w
    else
      var files := w.files[f := w.files[f] + data];
      var reported := w.events != [] && w.events[|w.events| - 1].write;
      if w.watch == Some(f) && !(merge && reported)
      then w.(files := files, events := w.events + [Event(true, false, false)])
      else w.(files := files)
  }

  /** The watch reports that its file has been removed or renamed, and ends. That may be at once or
      any time later, or never: a removed file that is still open somewhere is not reported. */
  function ReportNext(s: State, byRename: bool): State {
    if s.w.watch.None? || s.w.watch == s.w.path then s
    else
      s.(w := s.w.(watch := None, events := s.w.events + [Event(false, !byRename, byRename)]),
         past := s.past.(sealed := Length(s.w, s.w.watch.value)))
  }

  function Length(w: World, f: FileId): nat {
    if f < |w.files| then |w.files[f]| else 0
  }

  function Step(s: State, a: Action): State {
    match a
    case Append(f, data, merge) => s.(w := AppendNext(s.w, f, data, merge))
    case Rotate => s.(w := s.w.(path := None))
    case Report(byRename) => ReportNext(s, byRename)
    case Create =>
      if s.w.path.None? then s.(w := s.w.(files := s.w.files + [[]], path := Some(|s.w.files|))) else s
    case Touch =>
      if s.w.watch.Some? then s.(w := s.w.(events := s.w.events + [Event(false, false, false)])) else s
    case WatchError => s.(w := s.w.(errors := s.w.errors + 1))
    case Stop => s.(w := s.w.(stopped := true))
    case Run(amount, receive, choice) => TailNext(s, amount, receive, choice)
  }

  function Exec(s: State, schedule: seq<Action>): State {
    if schedule == [] then s
    else Step(Exec(s, schedule[..|schedule| - 1]), schedule[|schedule| - 1])
  }
}
