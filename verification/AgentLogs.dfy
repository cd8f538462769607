/** GetLogs of agent/rpc.go: the lines of a tail as a stream of messages. */
module AgentLogs {
  import opened Lines
  import opened Options
  import opened TailLast
  import opened FollowMachine
  import opened TailReader

  // ----- Printing: each text with a line end after it

  function Printed(texts: seq<bytes>): bytes {
    if texts == [] then [] else texts[0] + [LF] + Printed(texts[1..])
  }

  /** The text with its last line ended. */
  function Terminated(d: bytes): bytes {
    if EndsLine(d) then d else d + [LF]
  }

  /** No CR stands right before an LF or at the end. */
  predicate CleanEnds(d: bytes) {
    && (forall i | 0 <= i < |d| - 1 :: d[i] == CR ==> d[i + 1] != LF)
    && (d == [] || d[|d| - 1] != CR)
  }

  lemma CleanText(raw: bytes)
    requires raw != [] && forall i | 0 <= i < |raw| - 1 :: raw[i] != LF
    ensures |Text(raw) + [LF]| <= |Terminated(raw)|
    ensures Text(raw) + [LF] == Terminated(raw) <==> |Text(raw) + [LF]| == |Terminated(raw)|
    ensures Text(raw) + [LF] == Terminated(raw) <==> CleanEnds(raw)
  {
    var t := if raw[|raw| - 1] == LF then raw[..|raw| - 1] else raw;
    assert t + [LF] == Terminated(raw);
    if t != [] {
      assert t[|t| - 1] == raw[|t| - 1];
    }
  }

  lemma CleanSplit(a: bytes, b: bytes)
    requires a != [] && EndsLine(a)
    ensures CleanEnds(a + b) <==> CleanEnds(a) && CleanEnds(b)
  {
    var d := a + b;
    if CleanEnds(d) {
      forall i | 0 <= i < |a| - 1 ensures a[i] == CR ==> a[i + 1] != LF {
        assert d[i] == a[i] && d[i + 1] == a[i + 1];
      }
      forall i | 0 <= i < |b| - 1 ensures b[i] == CR ==> b[i + 1] != LF {
        assert d[|a| + i] == b[i] && d[|a| + i + 1] == b[i + 1];
      }
      if b != [] {
        assert d[|d| - 1] == b[|b| - 1];
      }
    }
    if CleanEnds(a) && CleanEnds(b) {
      forall i | 0 <= i < |d| - 1 ensures d[i] == CR ==> d[i + 1] != LF {
        if i < |a| - 1 {
          assert d[i] == a[i] && d[i + 1] == a[i + 1];
        } else if i >= |a| {
          assert d[i] == b[i - |a|] && d[i + 1] == b[i + 1 - |a|];
        }
      }
    }
  }

  lemma TerminatedSplit(a: bytes, b: bytes)
    requires EndsLine(a)
    ensures Terminated(a + b) == a + Terminated(b)
  {
    if b == [] {
      assert a + b == a && a + Terminated(b) == a;
    } else {
      assert (a + b)[|a + b| - 1] == b[|b| - 1];
      Regroup(a, b, [LF]);
    }
  }

  lemma SameParts(a: bytes, a': bytes, b: bytes, b': bytes)
    requires |a| <= |a'| && |b| <= |b'|
    ensures a + b == a' + b' <==> a == a' && b == b'
  {
    if a + b == a' + b' {
      assert |a| + |b| == |a'| + |b'|;
      assert (a + b)[..|a|] == a && (a' + b')[..|a'|] == a';
      assert (a + b)[|a|..] == b && (a' + b')[|a'|..] == b';
    }
  }

  /** Printing the lines of a text gives back the text, with its last line ended, exactly if no CR was
      dropped from it. */
  lemma {:induction false} PrintedTokensIff(d: bytes)
    ensures |Printed(Tokens(d))| <= |Terminated(d)|
    ensures Printed(Tokens(d)) == Terminated(d) <==> CleanEnds(d)
    decreases |d|
  {
    hide Tokens, LineEnd, Text, CleanEnds;
    if d == [] {
      NoTokens();
      assert CleanEnds([]) by { EmptyIsClean(); }
    } else {
      var e := LineEnd(d);
      var raw, rest := d[..e], d[e..];
      TokensCons(d);
      CleanText(raw);
      PrintedTokensIff(rest);
      PrintedCons(Text(raw), Tokens(rest));
      assert d == raw + rest;
      if rest == [] {
        assert d == raw;
        EmptyIsClean();
        NoTokens();
        assert Printed(Tokens(d)) == Text(raw) + [LF];
      } else {
        TerminatedSplit(raw, rest);
        CleanSplit(raw, rest);
        SameParts(Text(raw) + [LF], raw, Printed(Tokens(rest)), Terminated(rest));
      }
    }
  }

  lemma EmptyIsClean()
    ensures CleanEnds([]) && Terminated([]) == []
  {
  }

  lemma {:induction false} PrintedAppend(a: seq<bytes>, b: seq<bytes>)
    ensures Printed(a + b) == Printed(a) + Printed(b)
  {
    if a == [] {
      assert a + b == b;
    } else {
      PrintedAppend(a[1..], b);
      assert (a + b)[1..] == a[1..] + b;
      Regroup(a[0] + [LF], Printed(a[1..]), Printed(b));
    }
  }

  lemma PrintedCons(text: bytes, texts: seq<bytes>)
    ensures Printed([text] + texts) == text + [LF] + Printed(texts)
  {
    assert ([text] + texts)[1..] == texts;
  }

  predicate OneLine(text: bytes) {
    LF !in text
  }

  /** Splitting the stream again gives back the lines exactly if none of them ends in a CR. */
  lemma {:induction false} ResplitIff(texts: seq<bytes>)
    requires forall i | 0 <= i < |texts| :: OneLine(texts[i])
    ensures |Tokens(Printed(texts))| == |texts|
    ensures Tokens(Printed(texts)) == texts <==> forall i | 0 <= i < |texts| :: texts[i] == DropCR(texts[i])
  {
    hide Tokens, LineEnd, Text;
    if texts == [] {
      NoTokens();
    } else {
      var line := texts[0] + [LF];
      var rest := Printed(texts[1..]);
      ResplitIff(texts[1..]);
      assert forall i | 0 <= i < |texts| - 1 :: texts[1..][i] == texts[i + 1];
      assert OneLine(texts[0]);
      TokensAppend(line, rest);
      TokensOfOneLine(line);
      LineText(texts[0]);
      assert Tokens(Printed(texts)) == [DropCR(texts[0])] + Tokens(rest);
      assert texts == [texts[0]] + texts[1..];
    }
  }

  lemma LineText(text: bytes)
    ensures Text(text + [LF]) == DropCR(text)
  {
    assert (text + [LF])[..|text|] == text;
  }

  /** The tokens of any text hold no line end. */
  lemma {:induction false} TokensAreOneLine(d: bytes)
    ensures forall i | 0 <= i < |Tokens(d)| :: OneLine(Tokens(d)[i])
    decreases |d|
  {
    hide Tokens, LineEnd;
    if d == [] {
      NoTokens();
    } else {
      TokensCons(d);
      TokensAreOneLine(d[LineEnd(d)..]);
      TextIsOneLine(d[..LineEnd(d)]);
    }
  }

  lemma TextIsOneLine(raw: bytes)
    requires forall i | 0 <= i < |raw| - 1 :: raw[i] != LF
    ensures OneLine(Text(raw))
  {
  }

  lemma {:induction false} CleanTokens(d: bytes)
    requires CleanEnds(d)
    ensures forall i | 0 <= i < |Tokens(d)| :: Tokens(d)[i] == DropCR(Tokens(d)[i])
    decreases |d|
  {
    hide Tokens, LineEnd, CleanEnds;
    if d == [] {
      NoTokens();
    } else {
      var raw, rest := d[..LineEnd(d)], d[LineEnd(d)..];
      TokensCons(d);
      assert d == raw + rest;
      if rest == [] {
        assert d == raw;
        EmptyIsClean();
      } else {
        CleanSplit(raw, rest);
      }
      CleanTokens(rest);
      CleanLine(raw);
    }
  }

  lemma CleanLine(raw: bytes)
    requires raw != [] && CleanEnds(raw)
    ensures Text(raw) == DropCR(Text(raw))
  {
    if raw[|raw| - 1] == LF && |raw| > 1 {
      assert raw[|raw| - 2] != CR;
    }
  }

  /** So a text without such CRs makes the round trip: printed, it is itself with its last line ended,
      and split again it has the same lines. */
  lemma PrintAndSplit(d: bytes)
    requires CleanEnds(d)
    ensures Printed(Tokens(d)) == Terminated(d) && Tokens(Terminated(d)) == Tokens(d)
  {
    hide Tokens, CleanEnds, Terminated;
    PrintedTokensIff(d);
    CleanTokens(d);
    TokensAreOneLine(d);
    ResplitIff(Tokens(d));
  }

  // ----- The request

  datatype Request = Request(follow: bool, tailLines: int)

  /** A positive number of lines becomes an offset from the end. */
  function Location(req: Request): Option<SeekInfo> {
    if req.tailLines > 0 then Some(SeekInfo(-req.tailLines, SeekEnd)) else None
  }

  /** GetLogs leaves MaxLineSize at 0, so the scanners' buffers have the default size. */
  const MAX_LINE_SIZE: nat := 1048576

  datatype Reply = Replied | TailError(err: Error) | SendError

  /** One message for each line; problems are only logged. */
  function Messages(items: seq<Item>): seq<bytes> {
    if items == [] then []
    else (if items[0].Line? then [items[0].text + [LF]] else []) + Messages(items[1..])
  }

  lemma {:induction false} MessagesAppend(a: seq<Item>, b: seq<Item>)
    ensures Messages(a + b) == Messages(a) + Messages(b)
  {
    if a == [] {
      assert a + b == b;
    } else {
      MessagesAppend(a[1..], b);
      assert (a + b)[1..] == a[1..] + b;
      Regroup(if a[0].Line? then [a[0].text + [LF]] else [], Messages(a[1..]), Messages(b));
    }
  }

  lemma {:induction false} MessagesOfLines(texts: seq<bytes>)
    ensures Flatten(Messages(AsItems(texts))) == Printed(texts)
  {
    if texts != [] {
      MessagesOfLines(texts[1..]);
      var rest := AsItems(texts[1..]);
      assert AsItems(texts)[1..] == rest;
      FlattenAppend([texts[0] + [LF]], Messages(rest));
      assert Flatten([texts[0] + [LF]]) == texts[0] + [LF] + Flatten([texts[0] + [LF]][1..]);
    }
  }

  /** The client's end. What the environment will do is fixed when the call begins: how many receives
      from the tail's channel come before the one at which the client is found gone, if that ever
      happens, and how many messages are sent before the one that cannot be. Only Poll and Send look at
      it, so nothing else can be the cause of an early end. */
  class Stream {
    const patience: Option<nat>
    const capacity: Option<nat>
    var polls: nat
    var sent: seq<bytes>

    constructor (patience: Option<nat>, capacity: Option<nat>)
      ensures this.patience == patience && this.capacity == capacity && sent == [] && polls == 0
    {
      this.patience, this.capacity := patience, capacity;
      sent, polls := [], 0;
    }

    method Send(message: bytes) returns (ok: bool)
      modifies this`sent
      ensures ok <==> capacity != Some(|old(sent)|)
      ensures sent == if ok then old(sent) + [message] else old(sent)
    {
      ok := capacity != Some(|sent|);
      if ok {
        sent := sent + [message];
      }
    }

    /** The select: whether the client is found gone, rather than the channel ready. */
    method Poll() returns (done: bool)
      modifies this`polls
      ensures done <==> patience == Some(old(polls))
      ensures polls == old(polls) + 1
    {
      done := patience == Some(polls);
      polls := polls + 1;
    }
  }

  /** The items that GetLogs receives before it finds the client gone or the channel closed. */
  function Received(channel: seq<Item>, patience: Option<nat>): seq<Item> {
    if patience.Some? && patience.value <= |channel| then channel[..patience.value] else channel
  }

  predicate Leaves(channel: seq<Item>, patience: Option<nat>) {
    patience.Some? && patience.value <= |channel|
  }

  /** More messages are to be sent than can be. */
  predicate Breaks(messages: seq<bytes>, capacity: Option<nat>) {
    capacity.Some? && capacity.value < |messages|
  }

  lemma NoMessages(channel: seq<Item>)
    ensures Messages(channel[..0]) == []
  {
  }

  lemma ReceiveOne(channel: seq<Item>, k: nat, n: nat)
    requires k < n <= |channel|
    ensures Messages(channel[..k + 1])
      == Messages(channel[..k]) + (if channel[k].Line? then [channel[k].text + [LF]] else [])
    ensures Messages(channel[..k + 1]) <= Messages(channel[..n])
  {
    assert channel[..k + 1] == channel[..k] + [channel[k]];
    MessagesAppend(channel[..k], [channel[k]]);
    assert Messages([channel[k]][1..]) == [];
    assert channel[..n] == channel[..k + 1] + channel[k + 1..n];
    MessagesAppend(channel[..k + 1], channel[k + 1..n]);
  }

  /** The body of GetLogs. `found` is what os.Stat saw; `channel` is all that the tail would send if it
      were never stopped, and `err` what it is left with when it closes the channel, if it does; if it
      does not, the client leaves some time, or the call would not end. */
  method GetLogs(req: Request, found: bool, channel: seq<Item>, closes: bool, err: Option<Error>, stream: Stream)
    returns (reply: Reply)
    requires stream.sent == [] && stream.polls == 0
    requires closes || Leaves(channel, stream.patience)
    modifies stream
    ensures !found && !req.follow ==> reply == Replied && stream.sent == []
    ensures found || req.follow ==>
      var messages := Messages(Received(channel, stream.patience));
      if Breaks(messages, stream.capacity) then reply == SendError && stream.sent == messages[..stream.capacity.value]
      else
        && stream.sent == messages
        && reply == if Leaves(channel, stream.patience) || err == None then Replied else TailError(err.value)
  {
    if !found && !req.follow {
      return Replied;
    }
    hide Messages;
    var k := 0;
    ghost var n := if Leaves(channel, stream.patience) then stream.patience.value else |channel|;
    assert channel[..|channel|] == channel && Received(channel, stream.patience) == channel[..n];
    NoMessages(channel);
    while true
      invariant k <= n && stream.polls == k && stream.sent == Messages(channel[..k])
      invariant stream.capacity.Some? ==> |stream.sent| <= stream.capacity.value
      decreases |channel| - k
    {
      var done := stream.Poll();
      if done {
        return Replied;
      }
      if k == |channel| {
        return if err == None then Replied else TailError(err.value);
      }
      var line := channel[k];
      ReceiveOne(channel, k, n);
      k := k + 1;
      if line.Problem? {
        continue;
      }
      var ok := stream.Send(line.text + [LF]);
      if !ok {
        return SendError;
      }
    }
  }

  /** The stream of a request for the whole log, with no line too long: it prints the file, with its
      last line ended, exactly if the file has no CR that the scanner would drop. */
  lemma WholeLogIff(d: bytes, n: int)
    requires n <= 0 && AllFit(d, MAX_LINE_SIZE)
    ensures var o := Reads(Some(d), Location(Request(false, n)), MAX_LINE_SIZE);
      && o.err == None
      && (Flatten(Messages(o.items)) == Terminated(d) <==> CleanEnds(d))
      && (CleanEnds(d) ==> Tokens(Flatten(Messages(o.items))) == Tokens(d))
  {
    hide Tokens, CleanEnds, Terminated, AllFit, ItemsOf, Messages, Flatten;
    ItemsAreTokensIff(d, MAX_LINE_SIZE);
    assert d[0..] == d;
    assert [] + ItemsOf(d, MAX_LINE_SIZE) == ItemsOf(d, MAX_LINE_SIZE);
    MessagesOfLines(Tokens(d));
    PrintedTokensIff(d);
    if CleanEnds(d) {
      PrintAndSplit(d);
    }
  }

  lemma CutFits(raw: bytes, o: nat, limit: nat)
    requires o < |raw| && Fits(raw, limit)
    ensures Fits(raw[o..], limit)
  {
    assert raw[o..][|raw| - o - 1] == raw[|raw| - 1];
  }

  lemma {:induction false} SuffixFits(d: bytes, o: nat, limit: nat)
    requires o <= |d| && AllFit(d, limit)
    ensures AllFit(d[o..], limit)
    decreases |d|
  {
    hide LineEnd, Fits;
    if d == [] {
      assert d[o..] == [];
    } else if o == 0 {
      assert d[o..] == d;
    } else {
      var e := LineEnd(d);
      if o < e {
        CutFirstLine(d, o);
        CutFits(d[..e], o, limit);
        assert FirstLine(d[o..]) == d[..e][o..] && d[o..][e - o..] == d[e..];
      } else {
        SuffixFits(d[e..], o - e, limit);
        assert d[o..] == d[e..][o - e..];
      }
    }
  }

  lemma PrintedHead(x: bytes, y: bytes, a: bytes, b: bytes)
    requires OneLine(x) && OneLine(y) && x + [LF] + a == y + [LF] + b
    ensures x == y && a == b
  {
    var p, q := x + [LF] + a, y + [LF] + b;
    LineEndUnique(p, |x| + 1);
    LineEndUnique(q, |y| + 1);
    assert x == p[..|x|] && y == q[..|y|];
    assert a == p[|x| + 1..] && b == q[|y| + 1..];
  }

  /** What is printed determines the lines. */
  lemma {:induction false} PrintedOnce(a: seq<bytes>, b: seq<bytes>)
    requires (forall i | 0 <= i < |a| :: OneLine(a[i])) && (forall i | 0 <= i < |b| :: OneLine(b[i]))
    ensures Printed(a) == Printed(b) <==> a == b
  {
    if Printed(a) == Printed(b) && a != [] && b != [] {
      assert OneLine(a[0]) && OneLine(b[0]);
      assert forall i | 0 <= i < |a| - 1 :: a[1..][i] == a[i + 1];
      assert forall i | 0 <= i < |b| - 1 :: b[1..][i] == b[i + 1];
      PrintedHead(a[0], b[0], Printed(a[1..]), Printed(b[1..]));
      PrintedOnce(a[1..], b[1..]);
      assert a == [a[0]] + a[1..] && b == [b[0]] + b[1..];
    }
  }

  lemma LastAreOneLine(texts: seq<bytes>, n: nat)
    requires forall i | 0 <= i < |texts| :: OneLine(texts[i])
    ensures var l := LastN(texts, n); forall i | 0 <= i < |l| :: OneLine(l[i])
  {
    assert forall i | 0 <= i < |LastN(texts, n)| :: LastN(texts, n)[i] == texts[|texts| - |LastN(texts, n)| + i];
  }

  /** The stream of a request for the last n lines prints exactly the last n lines of the file if and
      only if they are short enough for the estimate of where they begin. */
  lemma LastLinesOfLogIff(d: bytes, n: int)
    requires n > 0 && AllFit(d, MAX_LINE_SIZE)
    ensures var o := Reads(Some(d), Location(Request(false, n)), MAX_LINE_SIZE);
      && o.err == None
      && (Flatten(Messages(o.items)) == Printed(LastN(Tokens(d), n)) <==>
            LastBytes(d, n) <= 100 * n || (LastBytes(d, n) == 100 * n + 1 && LastN(RawLines(d), n)[0] == [CR, LF]))
  {
    hide AllFit, ItemsOf, Messages, Flatten, Tokens, LastN, LastBytes, Reads, OneLine, RawLines;
    SuffixFits(d, Estimate(|d|, n), MAX_LINE_SIZE);
    LastLinesOnly(d, n, MAX_LINE_SIZE);
    TailExactIff(d, n);
    MessagesOfLines(TailOf(d, n));
    TokensAreOneLine(d);
    TokensAreOneLine(d[Estimate(|d|, n)..]);
    LastAreOneLine(Tokens(d), n);
    LastAreOneLine(Tokens(d[Estimate(|d|, n)..]), n);
    PrintedOnce(TailOf(d, n), LastN(Tokens(d), n));
  }
}
