/** Why the tail goroutine ends, when it opens another file, and what becomes of the watcher's errors. */
module FollowEnds {
  import opened Lines
  import opened Options
  import opened TailLast
  import opened FollowMachine
  import opened FollowInvariants
  import opened FollowTheorems
  import opened FollowReadOnce

  // ----- Errors

  /** Opening or watching fails because there is no file, or tailLines meets a line that is too long. */
  predicate FailsAt(s: State, a: Action) {
    && a.Run? && InFile(s)
    && match s.t.phase
       case Opening => s.w.path.None?
       case Watching => s.w.path.None?
       case Rewatching => s.w.path.None?
       case Collecting(_) => PeekAt(Buffer(s), s.t.scanner, s.cfg.limit).TooLong?
       case _ => false
  }

  ghost predicate Failed(cfg: Config, content: bytes, schedule: seq<Action>) {
    exists i: nat :: i < |schedule| && FailsAt(Exec(Init(cfg, content), schedule[..i]), schedule[i])
  }

  lemma TurnFails(s: State, amount: nat, receive: bool, choice: Choice)
    ensures TailNext(s, amount, receive, choice).t.err <==> s.t.err || FailsAt(s, Run(amount, receive, choice))
  {
    hide PeekAt, Text, LastN, Estimate, Amount, Buffer, Piece;
  }

  lemma StepFails(s: State, a: Action)
    ensures Step(s, a).t.err <==> s.t.err || FailsAt(s, a)
  {
    hide TailNext, Length, PeekAt, Buffer;
    if a.Run? {
      TurnFails(s, a.amount, a.receive, a.choice);
    }
  }

  lemma FailedMore(cfg: Config, content: bytes, schedule: seq<Action>)
    requires schedule != []
    ensures var k := |schedule| - 1;
      Failed(cfg, content, schedule) <==>
        Failed(cfg, content, schedule[..k]) || FailsAt(Exec(Init(cfg, content), schedule[..k]), schedule[k])
  {
    hide FailsAt, Exec;
    var k := |schedule| - 1;
    assert forall i: nat | i < k :: schedule[..k][..i] == schedule[..i];
    if i: nat :| i < |schedule| && FailsAt(Exec(Init(cfg, content), schedule[..i]), schedule[i]) && i < k {
      assert schedule[..k][..i] == schedule[..i] && schedule[..k][i] == schedule[i];
    }
  }

  /** In every run the goroutine has an error if and only if one of those things has happened. */
  lemma {:induction false} ErrorsHaveCauses(cfg: Config, content: bytes, schedule: seq<Action>)
    ensures Exec(Init(cfg, content), schedule).t.err <==> Failed(cfg, content, schedule)
    decreases |schedule|
  {
    hide Step, FailsAt, Failed;
    if schedule == [] {
      NothingFailed(cfg, content);
    } else {
      var k := |schedule| - 1;
      ErrorsHaveCauses(cfg, content, schedule[..k]);
      StepFails(Exec(Init(cfg, content), schedule[..k]), schedule[k]);
      FailedMore(cfg, content, schedule);
    }
  }

  lemma NothingFailed(cfg: Config, content: bytes)
    ensures !Failed(cfg, content, [])
  {
  }

  // ----- The end

  /** A reader that follows and reopens is over only when it was stopped or has an error, and an error is
      its end. One that does not reopen, or does not follow, stays with the file it has opened. */
  predicate EndsRightly(cfg: Config, stopped: bool, t: Tailer, past: Past) {
    && (Over(t.phase) && cfg.follow && cfg.reopen ==> stopped || t.err)
    && (t.err ==> Over(t.phase))
    && (!cfg.follow || !cfg.reopen ==> !past.reopened && !t.phase.Reopening? && !t.phase.Rewatching?)
  }

  lemma WaitEndsRightly(s: State, choice: Choice)
    requires InFile(s) && s.t.phase.Waiting? && s.cfg.follow && EndsRightly(s.cfg, s.w.stopped, s.t, s.past)
    ensures var n := WaitNext(s, choice); EndsRightly(n.cfg, n.w.stopped, n.t, n.past)
  {
    hide Piece;
  }

  lemma ReadEndsRightly(s: State, amount: nat)
    requires InFile(s) && EndsRightly(s.cfg, s.w.stopped, s.t, s.past)
    ensures s.t.phase.Scanning? ==> var n := ScanNext(s, amount); EndsRightly(n.cfg, n.w.stopped, n.t, n.past)
    ensures s.t.phase.Collecting? ==>
      var n := CollectNext(s, s.t.phase.lines, amount); EndsRightly(n.cfg, n.w.stopped, n.t, n.past)
  {
    hide PeekAt, Text, LastN, Amount, Buffer;
  }

  lemma TurnEndsRightly(s: State, amount: nat, receive: bool, choice: Choice)
    requires Following(s.cfg, s.t.phase) && EndsRightly(s.cfg, s.w.stopped, s.t, s.past)
    ensures var n := TailNext(s, amount, receive, choice); EndsRightly(n.cfg, n.w.stopped, n.t, n.past)
  {
    hide Estimate, Piece, CollectNext, ScanNext, WaitNext;
    if InFile(s) {
      ReadEndsRightly(s, amount);
      if s.t.phase.Waiting? {
        WaitEndsRightly(s, choice);
      }
    }
  }

  lemma StepEndsRightly(s: State, a: Action)
    requires Following(s.cfg, s.t.phase) && EndsRightly(s.cfg, s.w.stopped, s.t, s.past)
    ensures var n := Step(s, a); EndsRightly(n.cfg, n.w.stopped, n.t, n.past)
  {
    hide TailNext, Length;
    if a.Run? {
      TurnEndsRightly(s, a.amount, a.receive, a.choice);
    }
  }

  lemma {:induction false} EndsOnlyFor(cfg: Config, content: bytes, schedule: seq<Action>)
    ensures var s := Exec(Init(cfg, content), schedule); EndsRightly(cfg, s.w.stopped, s.t, s.past)
    decreases |schedule|
  {
    hide Step, Inv, EndsRightly, Following;
    if schedule == [] {
      StartsRightly(cfg, content);
    } else {
      var k := |schedule| - 1;
      var s := Exec(Init(cfg, content), schedule[..k]);
      EndsOnlyFor(cfg, content, schedule[..k]);
      Reachable(cfg, content, schedule[..k]);
      Reachable(cfg, content, schedule);
      InvFollowing(s);
      StepEndsRightly(s, schedule[k]);
    }
  }

  lemma StartsRightly(cfg: Config, content: bytes)
    ensures var s := Init(cfg, content); EndsRightly(cfg, s.w.stopped, s.t, s.past)
  {
  }

  // ----- The watcher's errors

  function Problems(out: seq<Item>): nat {
    if out == [] then 0 else Problems(out[..|out| - 1]) + if out[|out| - 1].Problem? then 1 else 0
  }

  lemma ProblemsMore(out: seq<Item>, item: Item)
    ensures Problems(out + [item]) == Problems(out) + if item.Problem? then 1 else 0
  {
    assert (out + [item])[..|out|] == out;
  }

  /** Reported to the receiver, being reported, or not taken from the watcher yet. */
  function Errors(s: State): nat {
    Problems(s.t.out) + (if s.t.phase == Offering(Problem, ScanOn) then 1 else 0) + s.w.errors
  }

  function ErrorsRaised(schedule: seq<Action>): nat {
    if schedule == [] then 0
    else ErrorsRaised(schedule[..|schedule| - 1]) + if schedule[|schedule| - 1] == WatchError then 1 else 0
  }

  lemma OfferKeepsErrors(s: State, receive: bool)
    requires s.t.phase.Offering? && s.t.phase.next.ScanOn?
    ensures var n := OfferNext(s, s.t.phase.item, s.t.phase.next, receive);
      if Over(n.t.phase) then Errors(n) <= Errors(s) else Errors(n) == Errors(s)
  {
    ProblemsMore(s.t.out, s.t.phase.item);
  }

  lemma HandKeepsErrors(s: State, receive: bool)
    requires s.t.phase.Handing?
    ensures Errors(HandNext(s, s.t.phase.lines, receive)) == Errors(s)
  {
    if s.t.phase.lines != [] {
      ProblemsMore(s.t.out, Line(s.t.phase.lines[0]));
    }
  }

  lemma GaveUpIsOverlong(s: State)
    requires Inv(s) && InLoop(s.t.phase)
    ensures s.t.scanner.failed || (s.t.phase.Offering? && s.t.phase.next.ScanEnded?) ==> s.past.overlong
  {
  }

  lemma TurnKeepsErrors(s: State, amount: nat, receive: bool, choice: Choice)
    requires InLoop(s.t.phase) ==>
      (s.t.scanner.failed || (s.t.phase.Offering? && s.t.phase.next.ScanEnded?) ==> s.past.overlong)
    ensures var n := TailNext(s, amount, receive, choice);
      && (s.past.overlong ==> n.past.overlong)
      && (!n.past.overlong ==> if Over(n.t.phase) then Errors(n) <= Errors(s) else Errors(n) == Errors(s))
  {
    hide PeekAt, Text, LastN, Estimate, Amount, Buffer, Piece, HandNext, OfferNext, Problems, WaitNext;
    match s.t.phase
    case Handing(lines) => HandKeepsErrors(s, receive); HandKeepsOverlong(s, receive);
    case Offering(item, next) =>
      OfferKeepsOverlong(s, receive);
      if next.ScanOn? {
        OfferKeepsErrors(s, receive);
      }
    case Waiting => WaitKeepsErrors(s, choice);
    case _ =>
  }

  lemma WaitKeepsErrors(s: State, choice: Choice)
    requires s.t.phase.Waiting?
    ensures InFile(s) ==>
      var n := WaitNext(s, choice);
      && n.past.overlong == s.past.overlong
      && if Over(n.t.phase) then Errors(n) <= Errors(s) else Errors(n) == Errors(s)
  {
    hide Piece, Problems;
  }

  lemma HandKeepsOverlong(s: State, receive: bool)
    requires s.t.phase.Handing?
    ensures HandNext(s, s.t.phase.lines, receive).past == s.past
  {
  }

  lemma OfferKeepsOverlong(s: State, receive: bool)
    requires s.t.phase.Offering?
    ensures OfferNext(s, s.t.phase.item, s.t.phase.next, receive).past == s.past
  {
  }

  lemma StepKeepsErrors(s: State, a: Action)
    requires Inv(s)
    ensures var n := Step(s, a);
      && (s.past.overlong ==> n.past.overlong)
      && (!n.past.overlong ==>
            var raised := Errors(s) + if a == WatchError then 1 else 0;
            if Over(n.t.phase) then Errors(n) <= raised else Errors(n) == raised)
  {
    hide TailNext, Length, Inv, Problems;
    if a.Run? {
      if InLoop(s.t.phase) {
        GaveUpIsOverlong(s);
      }
      TurnKeepsErrors(s, a.amount, a.receive, a.choice);
    }
  }

  /** Every error of the watcher is reported to the receiver exactly once, or is still on its way. At the
      end the rest is dropped. */
  lemma {:induction false} EveryErrorIsReported(cfg: Config, content: bytes, schedule: seq<Action>)
    ensures var s := Exec(Init(cfg, content), schedule);
      !s.past.overlong ==>
        if Over(s.t.phase) then Errors(s) <= ErrorsRaised(schedule) else Errors(s) == ErrorsRaised(schedule)
    decreases |schedule|
  {
    hide Step, Inv, Errors, Over;
    if schedule == [] {
      NoErrors(cfg, content);
    } else {
      var k := |schedule| - 1;
      var s := Exec(Init(cfg, content), schedule[..k]);
      EveryErrorIsReported(cfg, content, schedule[..k]);
      Reachable(cfg, content, schedule[..k]);
      StepKeepsErrors(s, schedule[k]);
      OverStays(s, schedule[k]);
    }
  }

  lemma NoErrors(cfg: Config, content: bytes)
    ensures Errors(Init(cfg, content)) == 0
  {
  }

  lemma OverStays(s: State, a: Action)
    ensures Over(s.t.phase) ==> Over(Step(s, a).t.phase)
  {
    hide PeekAt, Text, LastN, Estimate, Amount, Buffer, Piece, Length, SeekNext, CollectNext, HandNext, ScanNext;
  }

  // ----- Lines that are too long

  predicate LastIsProblem(out: seq<Item>) {
    out != [] && out[|out| - 1].Problem?
  }

  /** The scan loop is left behind a scanner that gave up only with a problem. */
  predicate GiveUpSaid(cfg: Config, stopped: bool, t: Tailer) {
    && (t.phase.Offering? && t.phase.next.ScanEnded? ==> t.phase.item == Problem)
    && (t.phase.Waiting? && t.scanner.failed ==> LastIsProblem(t.out))
    && (Over(t.phase) && !cfg.follow && !stopped && !t.err && t.scanner.failed ==> LastIsProblem(t.out))
  }

  lemma ReadSaysGiveUp(s: State, amount: nat)
    requires InFile(s) && GiveUpSaid(s.cfg, s.w.stopped, s.t)
    ensures s.t.phase.Scanning? ==> var n := ScanNext(s, amount); GiveUpSaid(n.cfg, n.w.stopped, n.t)
    ensures s.t.phase.Collecting? ==>
      var n := CollectNext(s, s.t.phase.lines, amount); GiveUpSaid(n.cfg, n.w.stopped, n.t)
  {
    hide PeekAt, Text, LastN, Amount, Buffer, LastIsProblem;
  }

  lemma TurnSaysGiveUp(s: State, amount: nat, receive: bool, choice: Choice)
    requires Following(s.cfg, s.t.phase) && GiveUpSaid(s.cfg, s.w.stopped, s.t)
    ensures var n := TailNext(s, amount, receive, choice); GiveUpSaid(n.cfg, n.w.stopped, n.t)
  {
    hide Estimate, Piece, CollectNext, ScanNext, WaitNext;
    if InFile(s) {
      ReadSaysGiveUp(s, amount);
      if s.t.phase.Waiting? {
        WaitSaysGiveUp(s, choice);
      }
    }
  }

  lemma WaitSaysGiveUp(s: State, choice: Choice)
    requires s.cfg.follow && InFile(s) && s.t.phase.Waiting? && GiveUpSaid(s.cfg, s.w.stopped, s.t)
    ensures var n := WaitNext(s, choice); GiveUpSaid(n.cfg, n.w.stopped, n.t)
  {
    hide Piece;
  }

  lemma StepSaysGiveUp(s: State, a: Action)
    requires Following(s.cfg, s.t.phase) && GiveUpSaid(s.cfg, s.w.stopped, s.t)
    ensures var n := Step(s, a); GiveUpSaid(n.cfg, n.w.stopped, n.t)
  {
    hide TailNext, Length, LastIsProblem;
    if a.Run? {
      TurnSaysGiveUp(s, a.amount, a.receive, a.choice);
    }
  }

  /** In every run: when the loop waits behind a scanner that gave up on a line, and when a reader that
      does not follow has ended behind one, the last item it sent is a problem. */
  lemma {:induction false} GiveUpIsReported(cfg: Config, content: bytes, schedule: seq<Action>)
    ensures var s := Exec(Init(cfg, content), schedule); GiveUpSaid(cfg, s.w.stopped, s.t)
    decreases |schedule|
  {
    hide Step, Inv, GiveUpSaid, Following;
    if schedule == [] {
      NothingGaveUp(cfg, content);
    } else {
      var k := |schedule| - 1;
      var s := Exec(Init(cfg, content), schedule[..k]);
      GiveUpIsReported(cfg, content, schedule[..k]);
      Reachable(cfg, content, schedule[..k]);
      Reachable(cfg, content, schedule);
      InvFollowing(s);
      StepSaysGiveUp(s, schedule[k]);
    }
  }

  lemma NothingGaveUp(cfg: Config, content: bytes)
    ensures var s := Init(cfg, content); GiveUpSaid(cfg, s.w.stopped, s.t)
  {
  }
}
