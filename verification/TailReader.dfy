/** Tail, the code of agent/tail/tail.go up to its event loop, over a file that stays as it is during
    a call. What happens while it grows is in FollowMachine. */
module TailReader {
  import opened Lines
  import opened Options
  import opened TailLast
  import opened FollowMachine

  datatype Whence = SeekStart | SeekCurrent | SeekEnd

  datatype SeekInfo = SeekInfo(offset: int, whence: Whence)

  datatype Error = OpenFailed | SeekFailed | LineTooLong | Canceled

  // ----- What a scanner with a bounded buffer makes of a text

  /** A raw line and its LF must fit the buffer; without the LF one byte must stay free. */
  predicate Fits(raw: bytes, limit: nat) {
    if raw != [] && raw[|raw| - 1] == LF then |raw| <= limit else |raw| < limit
  }

  function FirstLine(d: bytes): (raw: bytes)
    requires d != []
    ensures 0 < |raw| <= |d| && raw == d[..|raw|]
  {
    d[..LineEnd(d)]
  }

  /** One item for each line, and a problem in place of the first line that does not fit. */
  function ItemsOf(d: bytes, limit: nat): seq<Item>
    decreases |d|
  {
    if d == [] then []
    else if !Fits(FirstLine(d), limit) then [Problem]
    else [Line(Text(FirstLine(d)))] + ItemsOf(d[|FirstLine(d)|..], limit)
  }

  predicate AllFit(d: bytes, limit: nat)
    decreases |d|
  {
    d == [] || (Fits(FirstLine(d), limit) && AllFit(d[|FirstLine(d)|..], limit))
  }

  function AsItems(texts: seq<bytes>): seq<Item> {
    if texts == [] then [] else [Line(texts[0])] + AsItems(texts[1..])
  }

  /** Without long lines those are the tokens; and only then are there no problems. */
  lemma {:induction false} ItemsAreTokensIff(d: bytes, limit: nat)
    ensures ItemsOf(d, limit) == AsItems(Tokens(d)) <==> AllFit(d, limit)
    ensures AllFit(d, limit) <==> Problem !in ItemsOf(d, limit)
    decreases |d|
  {
    hide Text, LineEnd, Tokens;
    if d == [] {
      assert Tokens(d) == [] by { NoTokens(); }
    } else {
      var rest := d[|FirstLine(d)|..];
      TokensCons(d);
      ItemsAreTokensIff(rest, limit);
      AsItemsCons(Text(FirstLine(d)), Tokens(rest));
      SameHead(Line(Text(FirstLine(d))), ItemsOf(rest, limit), AsItems(Tokens(rest)));
      assert ([Line(Text(FirstLine(d)))] + AsItems(Tokens(rest)))[0] != Problem;
    }
  }

  lemma SameHead<T>(x: T, a: seq<T>, b: seq<T>)
    ensures [x] + a == [x] + b <==> a == b
  {
    assert ([x] + a)[1..] == a && ([x] + b)[1..] == b;
  }

  /** One line that fits, and what it leaves. */
  lemma LineRead(d: bytes, pos: nat, limit: nat)
    requires pos < |d| && Fits(FirstLine(d[pos..]), limit)
    ensures var raw := FirstLine(d[pos..]);
      var next := pos + |raw|;
      && next <= |d| && Tokens(d[pos..]) == [Text(raw)] + Tokens(d[next..])
      && ItemsOf(d[pos..], limit) == [Line(Text(raw))] + ItemsOf(d[next..], limit)
      && (AllFit(d[pos..], limit) <==> AllFit(d[next..], limit))
  {
    hide Text, LineEnd, Tokens;
    var rest := d[pos..];
    TokensCons(rest);
    assert rest[|FirstLine(rest)|..] == d[pos + |FirstLine(rest)|..];
  }

  lemma LineTooBig(d: bytes, pos: nat, limit: nat)
    requires pos < |d| && !Fits(FirstLine(d[pos..]), limit)
    ensures ItemsOf(d[pos..], limit) == [Problem] && !AllFit(d[pos..], limit)
  {
  }

  lemma AllRead(d: bytes, pos: nat, limit: nat)
    requires pos == |d|
    ensures Tokens(d[pos..]) == [] && ItemsOf(d[pos..], limit) == [] && AllFit(d[pos..], limit)
  {
  }

  lemma NoTokens()
    ensures Tokens([]) == []
  {
  }

  lemma AsItemsCons(text: bytes, texts: seq<bytes>)
    ensures AsItems([text] + texts) == [Line(text)] + AsItems(texts)
  {
    assert ([text] + texts)[1..] == texts;
  }

  lemma {:induction false} AsItemsAppend(a: seq<bytes>, b: seq<bytes>)
    ensures AsItems(a + b) == AsItems(a) + AsItems(b)
  {
    if a == [] {
      assert a + b == b;
    } else {
      AsItemsAppend(a[1..], b);
      assert (a + b)[1..] == a[1..] + b;
    }
  }

  // ----- What a whole run sends

  /** Where Seek goes, or None when that is before the beginning. */
  function Target(seek: SeekInfo, size: nat, at: nat): Option<nat> {
    var from := match seek.whence case SeekStart => 0 case SeekCurrent => at case SeekEnd => size;
    if from + seek.offset < 0 then None else Some(from + seek.offset)
  }

  function From(d: bytes, at: nat): bytes {
    if at <= |d| then d[at..] else []
  }

  datatype Outcome = Outcome(items: seq<Item>, err: Option<Error>)

  /** Lines are counted from the end when the offset is taken from there and negative. */
  predicate CountsLines(location: Option<SeekInfo>) {
    location.Some? && location.value.whence.SeekEnd? && location.value.offset < 0
  }

  /** What the seek itself sends: the last lines, if all that it reads to find them fits. */
  function SeekSends(d: bytes, location: Option<SeekInfo>, limit: nat): Outcome {
    if !CountsLines(location) then
      Outcome([], if location.Some? && Target(location.value, |d|, 0).None? then Some(SeekFailed) else None)
    else if AllFit(d[Estimate(|d|, -location.value.offset)..], limit) then
      Outcome(AsItems(TailOf(d, -location.value.offset)), None)
    else Outcome([], Some(LineTooLong))
  }

  /** Where reading goes on after the seek. */
  function SeekEnds(d: bytes, location: Option<SeekInfo>): nat {
    if location.None? then 0
    else if CountsLines(location) then |d|
    else match Target(location.value, |d|, 0) case None => 0 case Some(at) => at
  }

  /** What a reader that does not follow sends, if it is not stopped, and the error it is left with. */
  function Reads(path: Option<bytes>, location: Option<SeekInfo>, limit: nat): Outcome {
    if path.None? then Outcome([], Some(OpenFailed))
    else
      var o := SeekSends(path.value, location, limit);
      if o.err.Some? then o
      else Outcome(o.items + ItemsOf(From(path.value, SeekEnds(path.value, location)), limit), None)
  }

  /** Counting lines sends nothing but the last lines: there is nothing after the end. */
  lemma LastLinesOnly(d: bytes, n: int, limit: nat)
    requires n > 0
    ensures var o := Reads(Some(d), Some(SeekInfo(-n, SeekEnd)), limit);
      o == if AllFit(d[Estimate(|d|, n)..], limit) then Outcome(AsItems(TailOf(d, n)), None)
           else Outcome([], Some(LineTooLong))
  {
  }

  lemma EmptyTail(d: bytes, n: nat, limit: nat)
    requires d == []
    ensures AllFit(d[Estimate(|d|, n)..], limit) && AsItems(TailOf(d, n)) == []
  {
    assert d[Estimate(|d|, n)..] == [];
  }

  datatype Scan = Scanned(text: bytes, next: nat) | AtEnd | GaveUp

  class Tail {
    const location: Option<SeekInfo>
    const limit: nat
    const stopAt: Option<nat>  // how many items are sent before the send that finds Stop called
    var path: Option<bytes>   // the file at the path, if there is one
    var file: bytes           // the file that is open
    var offset: nat
    var sent: seq<Item>       // what the receiver has got
    var err: Option<Error>
    var stopped: bool
    var closed: bool          // the channel is closed

    constructor (path: Option<bytes>, location: Option<SeekInfo>, maxLineSize: nat, stopAt: Option<nat>)
      ensures this.path == path && this.location == location && this.stopAt == stopAt
      ensures limit == if maxLineSize == 0 then 1048576 else if maxLineSize < 65536 then 65536 else maxLineSize
      ensures file == [] && offset == 0 && sent == [] && err == None && !stopped && !closed
    {
      this.path, this.location, this.stopAt := path, location, stopAt;
      limit := if maxLineSize == 0 then 1048576 else if maxLineSize < 65536 then 65536 else maxLineSize;
      file, offset, sent, err, stopped, closed := [], 0, [], None, false, false;
    }

    /** Only the first error counts, and being cancelled is none. */
    method SetErr(e: Option<Error>)
      modifies this`err
      ensures err == if old(err) == None && e != Some(Canceled) then e else old(err)
    {
      if e == None || e == Some(Canceled) {
        return;
      }
      if err == None {
        err := e;
      }
    }

    /** Stop keeps some of the items from being sent. */
    predicate Stops(items: seq<Item>) {
      stopAt.Some? && stopAt.value < |items|
    }

    /** What is sent of them. */
    function Upto(items: seq<Item>): seq<Item> {
      if Stops(items) then items[..stopAt.value] else items
    }

    lemma StoppedEarlier(items: seq<Item>, more: seq<Item>)
      requires Stops(items) && items <= more
      ensures Stops(more) && Upto(more) == Upto(items)
    {
    }

    /** The goroutine goes on. */
    predicate Running()
      reads this`stopped, this`sent
    {
      !stopped && (stopAt.Some? ==> |sent| <= stopAt.value)
    }

    /** The select of a send: the receiver takes the item, or Stop has been called. Which it is has been
        fixed beforehand, so nothing else can be the cause of an early end. */
    method Send(item: Item) returns (ok: bool)
      requires Running()
      modifies this`sent, this`stopped
      ensures ok <==> !Stops(old(sent) + [item])
      ensures sent == Upto(old(sent) + [item]) && stopped == !ok && (ok ==> Running())
    {
      ok := stopAt != Some(|sent|);
      if ok {
        sent := sent + [item];
      } else {
        stopped := true;
      }
    }

    method OpenFile() returns (ok: bool)
      modifies this`file, this`offset
      ensures ok <==> path.Some?
      ensures ok ==> file == path.value && offset == 0
      ensures !ok ==> file == old(file) && offset == old(offset)
    {
      ok := path.Some?;
      if ok {
        file, offset := path.value, 0;
      }
    }

    /** scanner.Scan() at `pos`, where everything before has been scanned. */
    method ScanAt(pos: nat) returns (r: Scan)
      requires pos <= |file| && limit > 0
      ensures pos == |file| ==> r == AtEnd
      ensures pos < |file| ==>
        var raw := FirstLine(file[pos..]);
        r == if Fits(raw, limit) then Scanned(Text(raw), pos + |raw|) else GaveUp
    {
      var n := 0;
      while pos + n < |file| && n < limit && file[pos + n] != LF
        invariant pos + n <= |file| && n <= limit
        invariant forall i | pos <= i < pos + n :: file[i] != LF
      {
        n := n + 1;
      }
      if pos == |file| {
        return AtEnd;
      }
      ghost var rest := file[pos..];
      ghost var raw := FirstLine(rest);
      if n == limit {
        return GaveUp;
      }
      if pos + n < |file| {
        n := n + 1;
      }
      LineEndUnique(rest, n);
      assert raw == file[pos..pos + n];
      return Scanned(Text(file[pos..pos + n]), pos + n);
    }

    /** Reads to the end and sends the last n lines of what was there; nothing if a line is too long. */
    method TailLines(n: nat) returns (e: Option<Error>)
      requires limit > 0 && n > 0 && offset == 0 && sent == [] && Running()
      modifies this`offset, this`sent, this`stopped
      ensures AllFit(file[Estimate(|file|, n)..], limit) ==>
        && offset == |file| && sent == Upto(AsItems(TailOf(file, n)))
        && stopped == Stops(AsItems(TailOf(file, n))) && e == if stopped then Some(Canceled) else None
      ensures !AllFit(file[Estimate(|file|, n)..], limit) ==>
        e == Some(LineTooLong) && sent == [] && !stopped
      ensures !stopped ==> Running()
    {
      hide Tokens, LineEnd, AllFit, AsItems;
      var size := |file|;
      if size == 0 {
        EmptyTail(file, n, limit);
        return None;
      }
      var estimatedOffset := size - n * 100;
      if estimatedOffset < 0 {
        estimatedOffset := 0;
      }
      offset := estimatedOffset;
      var lines, r := ReadRest();
      if r == GaveUp {
        return Some(LineTooLong);
      }
      if |lines| > n {
        lines := lines[|lines| - n..];
      }
      e := SendAll(lines);
    }

    /** What the next Scan will say. */
    ghost predicate Next(pos: nat, r: Scan)
      reads this`file
    {
      if pos < |file| then
        var raw := FirstLine(file[pos..]);
        r == if Fits(raw, limit) then Scanned(Text(raw), pos + |raw|) else GaveUp
      else r == AtEnd
    }

    /** The scan loop of tailLines. */
    method ReadRest() returns (lines: seq<bytes>, r: Scan)
      requires limit > 0 && offset <= |file|
      modifies this`offset
      ensures r == if AllFit(file[old(offset)..], limit) then AtEnd else GaveUp
      ensures r == AtEnd ==> lines == Tokens(file[old(offset)..]) && offset == |file|
    {
      hide Tokens, LineEnd, Text, Fits, AllFit, FirstLine;
      lines := [];
      var pos := offset;
      r := ScanAt(pos);
      while r.Scanned?
        invariant offset == old(offset) && pos <= |file| && Next(pos, r)
        invariant lines + Tokens(file[pos..]) == Tokens(file[offset..])
        invariant AllFit(file[pos..], limit) <==> AllFit(file[offset..], limit)
        decreases |file| - pos
      {
        LineRead(file, pos, limit);
        Regroup(lines, [r.text], Tokens(file[r.next..]));
        lines := lines + [r.text];
        pos := r.next;
        r := ScanAt(pos);
      }
      if r == AtEnd {
        AllRead(file, pos, limit);
        offset := |file|;
      } else {
        LineTooBig(file, pos, limit);
      }
    }

    /** The send loop of tailLines. */
    method SendAll(lines: seq<bytes>) returns (e: Option<Error>)
      requires Running()
      modifies this`sent, this`stopped
      ensures sent == Upto(old(sent) + AsItems(lines)) && stopped == Stops(old(sent) + AsItems(lines))
      ensures e == (if stopped then Some(Canceled) else None) && (!stopped ==> Running())
    {
      for i := 0 to |lines|
        invariant sent == old(sent) + AsItems(lines[..i]) && Running()
      {
        assert lines[..i] + [lines[i]] == lines[..i + 1] && lines == lines[..i + 1] + lines[i + 1..];
        AsItemsAppend(lines[..i], [lines[i]]);
        AsItemsAppend(lines[..i + 1], lines[i + 1..]);
        Regroup(old(sent), AsItems(lines[..i + 1]), AsItems(lines[i + 1..]));
        var ok := Send(Line(lines[i]));
        if !ok {
          return Some(Canceled);
        }
      }
      assert lines[..|lines|] == lines;
      e := None;
    }

    /** scanner.Scan and send, until the end of the file, a line too long, or Stop. */
    method ReadLines()
      requires limit > 0 && Running()
      modifies this`offset, this`sent, this`stopped
      ensures var items := old(sent) + ItemsOf(From(file, old(offset)), limit);
        sent == Upto(items) && stopped == Stops(items) && (!stopped ==> Running())
      ensures !stopped && AllFit(From(file, old(offset)), limit) && old(offset) <= |file| ==> offset == |file|
    {
      hide Tokens, LineEnd, Text, Fits, AllFit, ItemsOf, FirstLine;
      if offset > |file| {
        AllRead([], 0, limit);
        return;
      }
      var pos := offset;
      var r := ScanAt(pos);
      while r.Scanned?
        invariant offset == old(offset) <= pos <= |file| && Next(pos, r) && Running()
        invariant sent + ItemsOf(file[pos..], limit) == old(sent) + ItemsOf(file[offset..], limit)
        invariant AllFit(file[pos..], limit) <==> AllFit(file[offset..], limit)
        decreases |file| - pos
      {
        LineRead(file, pos, limit);
        Regroup(sent, [Line(r.text)], ItemsOf(file[r.next..], limit));
        var ok := Send(Line(r.text));
        if !ok {
          return;
        }
        pos := r.next;
        r := ScanAt(pos);
      }
      if r == AtEnd {
        AllRead(file, pos, limit);
        offset := |file|;
      } else {
        LineTooBig(file, pos, limit);
        var ok := Send(Problem);
      }
    }

    method Seek(seek: SeekInfo) returns (e: Option<Error>)
      modifies this`offset
      ensures Target(seek, |file|, old(offset)) == if e == None then Some(offset) else None
      ensures e == None || (e == Some(SeekFailed) && offset == old(offset))
    {
      var at := seek.offset;
      match seek.whence {
        case SeekStart =>
        case SeekCurrent => at := at + offset;
        case SeekEnd => at := at + |file|;
      }
      if at < 0 {
        return Some(SeekFailed);
      }
      offset := at;
      e := None;
    }

    method SeekToPosition() returns (e: Option<Error>)
      requires limit > 0 && offset == 0 && sent == [] && Running()
      modifies this`offset, this`sent, this`stopped
      ensures var o := SeekSends(file, location, limit);
        && sent == Upto(o.items) && stopped == Stops(o.items)
        && e == (if stopped then Some(Canceled) else o.err)
        && (e == None ==> offset == SeekEnds(file, location) && Running())
    {
      hide Tokens, LineEnd, AllFit, AsItems, LastN;
      if location == None {
        return None;
      }
      if location.value.whence == SeekEnd && location.value.offset < 0 {
        e := TailLines(-location.value.offset);
        return;
      }
      e := Seek(location.value);
    }

    /** The goroutine of a reader that does not follow: it ends with the channel closed and the error
        that Reads says, and has sent all that Reads says, up to the send that found Stop called. */
    method Run()
      requires limit > 0 && !closed && sent == [] && err == None && Running()
      modifies this
      ensures closed && path == old(path)
      ensures var o := Reads(path, location, limit);
        sent == Upto(o.items) && stopped == Stops(o.items) && err == o.err
    {
      hide AllFit, AsItems, ItemsOf, TailOf, Estimate, LastN;
      var ok := OpenFile();
      if !ok {
        SetErr(Some(OpenFailed));
      } else {
        var e := SeekToPosition();
        if e != None {
          SetErr(e);
        } else {
          ReadLines();
        }
      }
      closed := true;
    }

    /** The scan loop of the follow mode, once for each of a series of writes: it says of every piece
        what a fresh scanner makes of it. */
    method Follow(writes: seq<bytes>)
      requires limit > 0 && offset == |file| && Running()
      requires forall i | 0 <= i < |writes| :: AllFit(writes[i], limit)
      modifies this`file, this`offset, this`sent, this`stopped
      ensures var items := old(sent) + AsItems(Emitted(writes)); sent == Upto(items) && stopped == Stops(items)
      ensures !stopped ==> file == old(file) + Flatten(writes)
    {
      hide AllFit, ItemsOf, Tokens, Flatten, Emitted, AsItems;
      NoPieces();
      assert file == file + Flatten([]) && writes[..0] == [];
      for i := 0 to |writes|
        invariant Running() && offset == |file| && file == old(file) + Flatten(writes[..i])
        invariant sent == old(sent) + AsItems(Emitted(writes[..i]))
      {
        ghost var earlier := sent;
        PieceAdded(writes, i);
        AsItemsAppend(Emitted(writes[..i]), Tokens(writes[i]));
        Regroup(old(sent), AsItems(Emitted(writes[..i])), AsItems(Tokens(writes[i])));
        Regroup(old(file), Flatten(writes[..i]), writes[i]);
        ItemsAreTokensIff(writes[i], limit);
        file := file + writes[i];
        assert From(file, offset) == writes[i];
        ReadLines();
        assert earlier + ItemsOf(writes[i], limit) == old(sent) + AsItems(Emitted(writes[..i + 1]));
        if stopped {
          MorePieces(writes, i + 1);
          StoppedEarlier(old(sent) + AsItems(Emitted(writes[..i + 1])), old(sent) + AsItems(Emitted(writes)));
          return;
        }
      }
      assert writes[..|writes|] == writes;
    }
  }

  lemma NoPieces()
    ensures Flatten([]) == [] && AsItems(Emitted([])) == []
  {
  }

  lemma {:induction false} MorePieces(pieces: seq<bytes>, i: nat)
    requires i <= |pieces|
    ensures AsItems(Emitted(pieces[..i])) <= AsItems(Emitted(pieces))
    decreases |pieces|
  {
    hide AsItems, Emitted, Tokens;
    if i < |pieces| {
      var k := |pieces| - 1;
      MorePieces(pieces[..k], i);
      assert pieces[..k][..i] == pieces[..i] && pieces == pieces[..k] + [pieces[k]];
      EmittedAppend(pieces[..k], pieces[k]);
      AsItemsAppend(Emitted(pieces[..k]), Tokens(pieces[k]));
    } else {
      assert pieces[..i] == pieces;
    }
  }

  lemma PieceAdded(pieces: seq<bytes>, i: nat)
    requires i < |pieces|
    ensures Emitted(pieces[..i + 1]) == Emitted(pieces[..i]) + Tokens(pieces[i])
    ensures Flatten(pieces[..i + 1]) == Flatten(pieces[..i]) + pieces[i]
  {
    assert pieces[..i + 1] == pieces[..i] + [pieces[i]];
    EmittedAppend(pieces[..i], pieces[i]);
    FlattenAppend(pieces[..i], [pieces[i]]);
    assert Flatten([pieces[i]]) == pieces[i] + Flatten([pieces[i]][1..]);
  }
}
