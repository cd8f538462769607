/** Reading a file that does not change, once, by buffered reads of any size, sends exactly what the plain
    definition of Reads says: the same items in the same order, problems included, and the same error. */
module FollowRefinesRead {
  import opened Lines
  import opened Options
  import opened TailLast
  import opened FollowMachine
  import opened FollowInvariants
  import opened FollowTheorems
  import opened FollowWatch
  import opened TailReader
  import opened FollowReadOnce

  /** Where a reader that wants the last lines, or all of them, is told to begin. */
  function LocationOf(last: int): Option<SeekInfo> {
    if last == 0 then None else Some(SeekInfo(-last, SeekEnd))
  }

  /** The buffer of a scanner that has not given up. */
  predicate Room(d: bytes, limit: nat, off: nat, sc: Scanner) {
    && sc.done <= off <= |d| && off - sc.done <= limit && !sc.failed
    && (sc.eof ==> off == |d| && off - sc.done < limit)
  }

  /** A token is the next raw line, and it fits. */
  lemma TokenIsFirstLine(d: bytes, limit: nat, off: nat, sc: Scanner)
    requires Room(d, limit, off, sc) && PeekAt(d[sc.done..off], sc, limit).Token?
    ensures var end := PeekAt(d[sc.done..off], sc, limit).end;
      && sc.done < |d| && 0 < end <= off - sc.done
      && FirstLine(d[sc.done..]) == d[sc.done..off][..end] && Fits(FirstLine(d[sc.done..]), limit)
  {
    var end := PeekAt(d[sc.done..off], sc, limit).end;
    TokenEnd(d[sc.done..off], sc, limit);
    var rest := d[sc.done..];
    assert rest[..end] == d[sc.done..off][..end];
    forall i | 0 <= i < end - 1 ensures rest[i] != LF {
      assert rest[i] == d[sc.done..off][i];
    }
    assert rest[end - 1] == d[sc.done..off][end - 1];
    LineEndUnique(rest, end);
  }

  /** Giving up is giving up on a line that does not fit. */
  lemma TooLongIsTooBig(d: bytes, limit: nat, off: nat, sc: Scanner)
    requires limit > 0 && Room(d, limit, off, sc) && PeekAt(d[sc.done..off], sc, limit).TooLong?
    ensures sc.done < |d| && !Fits(FirstLine(d[sc.done..]), limit)
  {
    var buffer, rest := d[sc.done..off], d[sc.done..];
    var e := LineEnd(rest);
    if e <= |buffer| && rest[e - 1] == LF {
      assert buffer[e - 1] == LF;
      FillsBuffer(buffer, sc, limit);
      assert false;
    }
  }

  predicate TailFits(d: bytes, cfg: Config) {
    cfg.last > 0 ==> AllFit(d[Estimate(|d|, cfg.last)..], cfg.limit)
  }

  /** What the loop will have sent in the end. */
  function Total(d: bytes, cfg: Config, past: Past): seq<Item>
    requires past.base <= |d|
  {
    AsItems(past.head) + ItemsOf(d[past.base..], cfg.limit)
  }

  predicate Refines(d: bytes, cfg: Config, stopped: bool, t: Tailer, past: Past) {
    t.off <= |d| && past.base <= |d| &&
    match t.phase
    case Opening => t.out == [] && !t.err
    case Seeking => t.out == [] && !t.err
    case Collecting(lines) =>
      && t.out == [] && !t.err && Room(d, cfg.limit, t.off, t.scanner)
      && (TailFits(d, cfg) <==> AllFit(d[t.scanner.done..], cfg.limit))
    case Handing(lines) => TailFits(d, cfg) && !t.err && t.out + AsItems(lines) == AsItems(past.head)
    case Starting => TailFits(d, cfg) && !t.err && t.out == AsItems(past.head)
    case Scanning =>
      && TailFits(d, cfg) && !t.err && Room(d, cfg.limit, t.off, t.scanner)
      && t.out + ItemsOf(d[t.scanner.done..], cfg.limit) == Total(d, cfg, past)
    case Offering(item, next) =>
      && TailFits(d, cfg) && !t.err && (next.ScanOn? ==> Room(d, cfg.limit, t.off, t.scanner))
      && (next.ScanOn? ==> t.out + [item] + ItemsOf(d[t.scanner.done..], cfg.limit) == Total(d, cfg, past))
      && (next.ScanEnded? ==> t.out + [item] == Total(d, cfg, past))
    case _ =>
      Over(t.phase) && (!stopped ==>
        if t.err then !TailFits(d, cfg) && t.out == [] else TailFits(d, cfg) && t.out == Total(d, cfg, past))
  }

  ghost predicate ReadingOn(d: bytes, s: State) {
    && Flow(s) && !s.cfg.follow && s.cfg.limit > 0 && Reading(d, s.cfg, s.w, s.t, s.past)
    && Refines(d, s.cfg, s.w.stopped, s.t, s.past)
  }

  lemma FillRefines(s: State, d: bytes, amount: nat)
    requires ReadingOn(d, s) && (s.t.phase.Collecting? || s.t.phase.Scanning?)
    requires PeekAt(Buffer(s), s.t.scanner, s.cfg.limit).Fill?
    ensures var n := FillNext(s, amount); Refines(d, n.cfg, n.w.stopped, n.t, n.past)
  {
    hide LineEnd, AllFit, ItemsOf, AsItems, Sound;
  }

  lemma CollectRefines(s: State, d: bytes, amount: nat)
    requires ReadingOn(d, s) && s.t.phase.Collecting?
    ensures var n := CollectNext(s, s.t.phase.lines, amount); Refines(d, n.cfg, n.w.stopped, n.t, n.past)
  {
    hide LineEnd, AllFit, ItemsOf, AsItems, Text, Fits, Sound, LastN, Tokens;
    SoundInFile(s);
    match PeekAt(Buffer(s), s.t.scanner, s.cfg.limit)
    case Token(end) =>
      TokenIsFirstLine(d, s.cfg.limit, s.t.off, s.t.scanner);
      LineRead(d, s.t.scanner.done, s.cfg.limit);
    case Fill => FillRefines(s, d, amount);
    case TooLong =>
      TooLongIsTooBig(d, s.cfg.limit, s.t.off, s.t.scanner);
      LineTooBig(d, s.t.scanner.done, s.cfg.limit);
    case Ended => CollectEndRefines(s, d, amount);
  }

  lemma CollectEndRefines(s: State, d: bytes, amount: nat)
    requires ReadingOn(d, s) && s.t.phase.Collecting?
    requires PeekAt(Buffer(s), s.t.scanner, s.cfg.limit).Ended?
    ensures var n := CollectNext(s, s.t.phase.lines, amount); Refines(d, n.cfg, n.w.stopped, n.t, n.past)
  {
    hide LineEnd, Text, Sound, LastN, Tokens;
    AllRead(d, s.t.scanner.done, s.cfg.limit);
  }

  lemma ScanRefines(s: State, d: bytes, amount: nat)
    requires ReadingOn(d, s) && s.t.phase.Scanning?
    ensures var n := ScanNext(s, amount); Refines(d, n.cfg, n.w.stopped, n.t, n.past)
  {
    hide LineEnd, AllFit, ItemsOf, AsItems, Text, Fits, Sound, TailFits;
    SoundInFile(s);
    match PeekAt(Buffer(s), s.t.scanner, s.cfg.limit)
    case Token(end) => ScanTokenRefines(s, d, amount);
    case Fill => FillRefines(s, d, amount);
    case TooLong =>
      TooLongIsTooBig(d, s.cfg.limit, s.t.off, s.t.scanner);
      LineTooBig(d, s.t.scanner.done, s.cfg.limit);
    case Ended => AllRead(d, s.t.scanner.done, s.cfg.limit);
  }

  lemma ScanTokenRefines(s: State, d: bytes, amount: nat)
    requires ReadingOn(d, s) && s.t.phase.Scanning? && PeekAt(Buffer(s), s.t.scanner, s.cfg.limit).Token?
    ensures var n := ScanNext(s, amount); Refines(d, n.cfg, n.w.stopped, n.t, n.past)
  {
    hide LineEnd, AllFit, ItemsOf, AsItems, Text, Fits, Sound, TailFits, Total;
    TokenIsFirstLine(d, s.cfg.limit, s.t.off, s.t.scanner);
    LineRead(d, s.t.scanner.done, s.cfg.limit);
    var raw := FirstLine(d[s.t.scanner.done..]);
    Lines.Regroup(s.t.out, [Line(Text(raw))], ItemsOf(d[s.t.scanner.done + |raw|..], s.cfg.limit));
  }

  lemma HandRefines(s: State, d: bytes, receive: bool)
    requires ReadingOn(d, s) && s.t.phase.Handing?
    ensures var n := HandNext(s, s.t.phase.lines, receive); Refines(d, n.cfg, n.w.stopped, n.t, n.past)
  {
    hide AllFit, ItemsOf, Sound, TailFits;
    var lines := s.t.phase.lines;
    if lines != [] {
      Lines.Regroup(s.t.out, [Line(lines[0])], AsItems(lines[1..]));
    }
  }

  lemma SeekRefines(s: State, d: bytes)
    requires ReadingOn(d, s) && s.t.phase.Seeking?
    ensures var n := SeekNext(s); Refines(d, n.cfg, n.w.stopped, n.t, n.past)
  {
    hide LineEnd, ItemsOf, LoopOk;
    if |d| == 0 {
      assert d[Estimate(|d|, s.cfg.last)..] == [];
    }
  }

  lemma StartRefines(s: State, d: bytes)
    requires ReadingOn(d, s) && s.t.phase.Starting?
    ensures var n := StartNext(s); Refines(d, n.cfg, n.w.stopped, n.t, n.past)
  {
    hide AllFit, ItemsOf, AsItems, Sound, TailFits;
  }

  lemma OfferRefines(s: State, d: bytes, receive: bool)
    requires ReadingOn(d, s) && s.t.phase.Offering?
    ensures var n := OfferNext(s, s.t.phase.item, s.t.phase.next, receive); Refines(d, n.cfg, n.w.stopped, n.t, n.past)
  {
    hide AllFit, ItemsOf, AsItems, Sound, TailFits, Total;
  }

  lemma TurnRefines(s: State, d: bytes, amount: nat, receive: bool, choice: Choice)
    requires ReadingOn(d, s)
    ensures var n := TailNext(s, amount, receive, choice); Refines(d, n.cfg, n.w.stopped, n.t, n.past)
  {
    hide SeekNext, CollectNext, HandNext, StartNext, ScanNext, OfferNext, Sound, Total, TailFits, AllFit, AsItems;
    match s.t.phase
    case Seeking => SeekRefines(s, d);
    case Collecting(lines) => CollectRefines(s, d, amount);
    case Handing(lines) => HandRefines(s, d, receive);
    case Starting => StartRefines(s, d);
    case Scanning => ScanRefines(s, d, amount);
    case Offering(item, next) => OfferRefines(s, d, receive);
    case _ =>
  }

  lemma StepRefines(s: State, d: bytes, a: Action)
    requires ReadingOn(d, s) && LeavesFile(a)
    ensures var n := Step(s, a); Refines(d, n.cfg, n.w.stopped, n.t, n.past)
  {
    hide TailNext, Sound, Total, TailFits, AllFit, AsItems, Length;
    if a.Run? {
      TurnRefines(s, d, a.amount, a.receive, a.choice);
    }
  }

  lemma {:induction false} RunsRefine(cfg: Config, d: bytes, schedule: seq<Action>)
    requires !cfg.follow && cfg.limit > 0 && forall a | a in schedule :: LeavesFile(a)
    ensures ReadingOn(d, Exec(Init(cfg, d), schedule)) && Exec(Init(cfg, d), schedule).cfg == cfg
    decreases |schedule|
  {
    hide Step, Inv, Flow, Reading, Refines, LeavesFile;
    RunsStayReading(cfg, d, schedule);
    Reachable(cfg, d, schedule);
    FlowOf(Exec(Init(cfg, d), schedule));
    if schedule == [] {
      InitRefines(cfg, d);
    } else {
      var k := |schedule| - 1;
      RunsRefine(cfg, d, schedule[..k]);
      StepRefines(Exec(Init(cfg, d), schedule[..k]), d, schedule[k]);
    }
  }

  lemma InitRefines(cfg: Config, d: bytes)
    ensures var s := Init(cfg, d); Refines(d, cfg, s.w.stopped, s.t, s.past)
  {
  }

  lemma TotalIsReads(s: State, d: bytes)
    requires ReadingOn(d, s) && Over(s.t.phase) && !s.w.stopped && !s.t.err
    ensures TailFits(d, s.cfg)
    ensures Reads(Some(d), LocationOf(s.cfg.last), s.cfg.limit) == Outcome(Total(d, s.cfg, s.past), None)
  {
    hide Tokens, AllFit, ItemsOf, Accounted, Contiguous;
    var last, limit := s.cfg.last, s.cfg.limit;
    if last == 0 {
      assert d[0..] == d && s.past.head == [];
    } else {
      assert Piece(d, s.past.tailFrom, |d|) == d[s.past.tailFrom..];
      AllRead(d, |d|, limit);
    }
  }

  /** Whatever the sizes of the reads and the pace of the receiver: a run that ends without having been
      stopped has sent the items of Reads, and has an error if and only if Reads has. */
  lemma RunIsReads(cfg: Config, d: bytes, schedule: seq<Action>)
    requires !cfg.follow && cfg.limit > 0 && forall a | a in schedule :: LeavesFile(a)
    ensures var s := Exec(Init(cfg, d), schedule);
      var o := Reads(Some(d), LocationOf(cfg.last), cfg.limit);
      Over(s.t.phase) && !s.w.stopped ==> s.t.out == o.items && (s.t.err <==> o.err.Some?)
  {
    hide Inv, Exec, Flow, Reading, AllFit, ItemsOf;
    var s := Exec(Init(cfg, d), schedule);
    RunsRefine(cfg, d, schedule);
    if Over(s.t.phase) && !s.w.stopped && !s.t.err {
      TotalIsReads(s, d);
    }
  }
}
