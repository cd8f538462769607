/** The last n lines of a file, found from an estimate of where they begin. */
module TailLast {
  import opened Lines

  /** lines[len(lines)-n:] when there are more than n. */
  function LastN<T>(s: seq<T>, n: nat): seq<T> {
    if |s| > n then s[|s| - n..] else s
  }

  /** Where tailLines starts to read: 100 bytes a line from the end. */
  function Estimate(size: nat, n: nat): nat {
    if size < n * 100 then 0 else size - n * 100
  }

  /** What tailLines sends. */
  function TailOf(d: bytes, n: nat): seq<bytes> {
    LastN(Tokens(d[Estimate(|d|, n)..]), n)
  }

  // ----- Where the last lines begin

  /** The length of the first k raw lines. */
  function LinesLength(d: bytes, k: nat): (p: nat)
    requires k <= |RawLines(d)|
    ensures p <= |d|
  {
    if k == 0 then 0 else LineEnd(d) + LinesLength(d[LineEnd(d)..], k - 1)
  }

  lemma DropTwice(d: bytes, a: nat, b: nat)
    requires a + b <= |d|
    ensures d[a..][b..] == d[a + b..]
  {
  }

  lemma DropFirst<T>(x: T, rest: seq<T>, k: nat)
    requires 0 < k <= |rest| + 1
    ensures ([x] + rest)[k..] == rest[k - 1..]
  {
  }

  lemma HasLines(d: bytes, k: nat)
    requires 0 < k <= |RawLines(d)|
    ensures d != []
  {
  }

  lemma {:induction false} DropRawLines(d: bytes, k: nat)
    requires k <= |RawLines(d)|
    ensures RawLines(d[LinesLength(d, k)..]) == RawLines(d)[k..]
  {
    hide RawLines, LineEnd;
    if k == 0 {
      assert d[0..] == d;
    } else {
      HasLines(d, k);
      var e := LineEnd(d);
      RawLinesCons(d);
      DropRawLines(d[e..], k - 1);
      DropTwice(d, e, LinesLength(d[e..], k - 1));
      DropFirst(d[..e], RawLines(d[e..]), k);
    }
  }

  lemma {:induction false} LinesEndLine(d: bytes, k: nat)
    requires k <= |RawLines(d)| && LinesLength(d, k) < |d|
    ensures EndsLine(d[..LinesLength(d, k)])
  {
    hide LineEnd;
    if k > 0 {
      var rest := d[LineEnd(d)..];
      var q := LinesLength(rest, k - 1);
      LinesEndLine(rest, k - 1);
      if q > 0 {
        assert rest[..q][q - 1] == d[LineEnd(d) + q - 1];
      }
    }
  }

  /** The number of bytes of the last n raw lines. */
  function LastBytes(d: bytes, n: nat): nat {
    |Flatten(LastN(RawLines(d), n))|
  }

  lemma LastLinesStart(d: bytes, n: nat) returns (p: nat)
    ensures p + LastBytes(d, n) == |d|
    ensures RawLines(d[p..]) == LastN(RawLines(d), n)
    ensures p < |d| ==> EndsLine(d[..p])
    ensures |RawLines(d)| <= n ==> p == 0
  {
    hide LineEnd, Flatten;
    var raws := RawLines(d);
    var k := if |raws| > n then |raws| - n else 0;
    p := LinesLength(d, k);
    DropRawLines(d, k);
    FlattenRawLines(d[p..]);
    if p < |d| {
      LinesEndLine(d, k);
    }
  }

  lemma LastNOfAppend<T>(a: seq<T>, b: seq<T>, n: nat)
    requires |b| == n || (|b| < n && a == [])
    ensures LastN(a + b, n) == b
  {
    assert (a + b)[|a|..] == b;
  }

  lemma {:induction false} TextsLast(raws: seq<bytes>, n: nat)
    ensures Texts(LastN(raws, n)) == LastN(Texts(raws), n)
  {
    TextsAt(raws, 0);
    if |raws| > n {
      var k := |raws| - n;
      TextsAppend(raws[..k], raws[k..]);
      TextsAt(raws[..k], 0);
      assert raws == raws[..k] + raws[k..];
    }
  }

  // ----- The estimate is early enough

  lemma EarlyStart(d: bytes, n: nat, p: nat, o: nat)
    requires o <= p <= |d| && (p < |d| ==> EndsLine(d[..p]))
    requires RawLines(d[p..]) == LastN(RawLines(d), n)
    requires |RawLines(d)| <= n ==> p == 0
    requires n > 0
    ensures LastN(Tokens(d[o..]), n) == LastN(Tokens(d), n)
  {
    var last := Tokens(d[p..]);
    TextsLast(RawLines(d), n);
    TextsAt(LastN(RawLines(d), n), 0);
    if p == 0 {
      assert o == 0 && d[0..] == d;
    } else {
      EndedPart(d, o, p);
      TokensAppend(d[o..p], d[p..]);
      assert |last| == n;
      LastNOfAppend(Tokens(d[o..p]), last, n);
    }
  }

  lemma EndedPart(d: bytes, o: nat, p: nat)
    requires o <= p < |d| && EndsLine(d[..p])
    ensures EndsLine(d[o..p]) && d[o..] == d[o..p] + d[p..]
  {
    if o < p {
      assert d[o..p][p - o - 1] == d[..p][p - 1];
    }
  }

  // ----- The estimate is too late

  lemma {:induction false} SuffixHasFewerLines(d: bytes, j: nat)
    requires j <= |d|
    ensures |RawLines(d[j..])| <= |RawLines(d)|
  {
    hide RawLines, LfCount;
    LineCount(d);
    LineCount(d[j..]);
    assert d == d[..j] + d[j..];
    LfCountAppend(d[..j], d[j..]);
  }

  /** Cutting a raw line short shortens its text, unless only its CR goes. */
  lemma CutText(raw: bytes, j: nat)
    requires 0 < j < |raw| && forall i | 0 <= i < |raw| - 1 :: raw[i] != LF
    ensures Text(raw[j..]) == Text(raw) <==> raw == [CR, LF]
  {
    var cut := raw[j..];
    assert cut[|cut| - 1] == raw[|raw| - 1];
    if |cut| >= 2 {
      assert cut[|cut| - 2] == raw[|raw| - 2];
    }
  }

  /** Reading a text from inside its first raw line. */
  lemma CutFirstLine(d: bytes, j: nat)
    requires d != [] && 0 < j < LineEnd(d)
    ensures d[j..] != [] && LineEnd(d[j..]) == LineEnd(d) - j
    ensures d[j..][..LineEnd(d) - j] == d[..LineEnd(d)][j..]
    ensures d[j..][LineEnd(d) - j..] == d[LineEnd(d)..]
  {
    var e := LineEnd(d);
    var c := d[j..];
    assert c[e - j - 1] == d[e - 1];
    forall i | 0 <= i < e - j - 1 ensures c[i] != LF {
      assert c[i] == d[i + j];
    }
    LineEndUnique(c, e - j);
  }

  lemma SameTail(x: bytes, y: bytes, rest: seq<bytes>)
    ensures [x] + rest == [y] + rest <==> x == y
  {
    assert ([x] + rest)[0] == x && ([y] + rest)[0] == y;
  }

  lemma CutTokens(d: bytes, j: nat)
    requires d != [] && 0 < j < LineEnd(d)
    ensures Tokens(d[j..]) == [Text(d[..LineEnd(d)][j..])] + Tokens(d[LineEnd(d)..])
  {
    CutFirstLine(d, j);
    TokensCons(d[j..]);
  }

  lemma CutInsideFirst(d: bytes, j: nat)
    requires d != [] && 0 < j < LineEnd(d)
    ensures Tokens(d[j..]) == Tokens(d) <==> RawLines(d)[0] == [CR, LF]
    ensures |Tokens(d[j..])| == |Tokens(d)|
  {
    var e := LineEnd(d);
    TokensCons(d);
    CutTokens(d, j);
    SameTail(Text(d[..e]), Text(d[..e][j..]), Tokens(d[e..]));
    CutText(d[..e], j);
  }

  lemma CutPastFirst(d: bytes, j: nat)
    requires d != [] && LineEnd(d) <= j <= |d|
    ensures |Tokens(d[j..])| < |Tokens(d)|
  {
    var e := LineEnd(d);
    assert d[j..] == d[e..][j - e..];
    SuffixHasFewerLines(d[e..], j - e);
    TextsAt(RawLines(d[j..]), 0);
    TextsAt(RawLines(d), 0);
  }

  /** Starting inside the last n lines loses the first of them, or its beginning. */
  lemma LateStart(d: bytes, n: nat, p: nat, o: nat)
    requires p < o <= |d| && n > 0
    requires RawLines(d[p..]) == LastN(RawLines(d), n)
    ensures LastN(Tokens(d[o..]), n) == LastN(Tokens(d), n) <==> o == p + 1 && RawLines(d[p..])[0] == [CR, LF]
  {
    var l := d[p..];
    var j := o - p;
    assert l[j..] == d[o..];
    TextsLast(RawLines(d), n);
    TextsAt(LastN(RawLines(d), n), 0);
    assert Tokens(l) == LastN(Tokens(d), n) && |Tokens(l)| <= n;
    if j < LineEnd(l) {
      CutInsideFirst(l, j);
      assert LineEnd(l) == |RawLines(l)[0]|;
    } else {
      CutPastFirst(l, j);
    }
  }

  // ----- The exact condition

  /** tailLines sends exactly the file's last n lines if and only if those lines with their
      terminators take at most 100 bytes each on average; the one exception is a single byte more
      when the first of them is empty and ends in CR LF. */
  lemma TailExactIff(d: bytes, n: nat)
    requires n > 0
    ensures TailOf(d, n) == LastN(Tokens(d), n) <==>
      LastBytes(d, n) <= 100 * n
      || (LastBytes(d, n) == 100 * n + 1 && LastN(RawLines(d), n)[0] == [CR, LF])
  {
    var o := Estimate(|d|, n);
    var p := LastLinesStart(d, n);
    if o <= p {
      EarlyStart(d, n, p, o);
    } else {
      LateStart(d, n, p, o);
    }
  }

  lemma {:induction false} BytesBound(raws: seq<bytes>, each: nat)
    requires forall i | 0 <= i < |raws| :: |raws[i]| <= each
    ensures |Flatten(raws)| <= each * |raws|
  {
    if raws != [] {
      BytesBound(raws[1..], each);
    }
  }

  /** In particular when none of the last n lines, with its terminator, is longer than 100 bytes. */
  lemma ShortLinesAreTailed(d: bytes, n: nat)
    requires n > 0
    requires forall i | 0 <= i < |LastN(RawLines(d), n)| :: |LastN(RawLines(d), n)[i]| <= 100
    ensures TailOf(d, n) == LastN(Tokens(d), n)
  {
    BytesBound(LastN(RawLines(d), n), 100);
    TailExactIff(d, n);
  }

  // ----- What is sent in any case

  /** The lines after the first one read are whole lines of the file, in order, up to its end; with
      more than n of them the answer is exact. */
  lemma AllButFirstWhole(d: bytes, o: nat)
    requires o <= |d| && Tokens(d[o..]) != []
    ensures var t := Tokens(d[o..]);
      |t| <= |Tokens(d)| && t[1..] == Tokens(d)[|Tokens(d)| - |t| + 1..]
  {
    hide LineEnd, Text;
    var e := LineEnd(d[o..]);
    var m := o + e;
    assert d[o..][e..] == d[m..];
    assert Tokens(d[o..]) == [Text(d[o..][..e])] + Tokens(d[m..]);
    SuffixHasFewerLines(d, o);
    TextsAt(RawLines(d), 0);
    TextsAt(RawLines(d[o..]), 0);
    if m == |d| {
      assert d[m..] == [];
    } else {
      assert d == d[..m] + d[m..] && d[..m][m - 1] == d[o..][e - 1];
      TokensAppend(d[..m], d[m..]);
    }
  }

  /** In general tailLines sends at most n lines, all of them whole lines of the file except possibly
      the first, and exactly the last n whenever it read more than n. */
  lemma TailInGeneral(d: bytes, n: nat)
    requires n > 0
    ensures var t := TailOf(d, n);
      var k := |Tokens(d[Estimate(|d|, n)..])|;
      && |t| == (if k > n then n else k)
      && |t| <= |Tokens(d)|
      && (t != [] ==> t[1..] == Tokens(d)[|Tokens(d)| - |t| + 1..])
      && (k > n ==> t == LastN(Tokens(d), n))
  {
    var o := Estimate(|d|, n);
    var all := Tokens(d[o..]);
    if all != [] {
      AllButFirstWhole(d, o);
      var t := TailOf(d, n);
      if |all| > n {
        assert t == all[1..][|all| - n - 1..];
        assert Tokens(d)[|Tokens(d)| - |all| + 1..][|all| - n - 1..] == Tokens(d)[|Tokens(d)| - n..];
        assert t[1..] == Tokens(d)[|Tokens(d)| - n..][1..];
      }
    }
  }
}
