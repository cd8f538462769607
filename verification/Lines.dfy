/** Bytes, lines, and what bufio.Scanner with ScanLines makes of them. */
module Lines {
  type byte = b: int | 0 <= b < 256

  type bytes = seq<byte>

  const LF: byte := 10
  const CR: byte := 13

  // ----- Raw lines: the text cut after every LF

  /** Where the first raw line of d ends. */
  function LineEnd(d: bytes): (e: nat)
    requires d != []
    ensures 0 < e <= |d|
    ensures forall i | 0 <= i < e - 1 :: d[i] != LF
    ensures e == |d| || d[e - 1] == LF
  {
    if d[0] == LF || |d| == 1 then 1 else 1 + LineEnd(d[1..])
  }

  function RawLines(d: bytes): seq<bytes> {
    if d == [] then [] else [d[..LineEnd(d)]] + RawLines(d[LineEnd(d)..])
  }

  lemma RawLinesCons(d: bytes)
    requires d != []
    ensures RawLines(d) == [d[..LineEnd(d)]] + RawLines(d[LineEnd(d)..])
    ensures |RawLines(d)| == 1 + |RawLines(d[LineEnd(d)..])|
  {
  }

  function Flatten(parts: seq<bytes>): bytes {
    if parts == [] then [] else parts[0] + Flatten(parts[1..])
  }

  /** d ends where a raw line may begin. */
  predicate EndsLine(d: bytes) {
    d == [] || d[|d| - 1] == LF
  }

  /** The raw lines lose nothing: put together again they are the text. */
  lemma {:induction false} FlattenRawLines(d: bytes)
    ensures Flatten(RawLines(d)) == d
  {
    if d != [] {
      FlattenRawLines(d[LineEnd(d)..]);
    }
  }

  lemma {:induction false} FlattenAppend(a: seq<bytes>, b: seq<bytes>)
    ensures Flatten(a + b) == Flatten(a) + Flatten(b)
  {
    if a == [] {
      assert a + b == b;
    } else {
      FlattenAppend(a[1..], b);
      assert (a + b)[1..] == a[1..] + b;
      Regroup(a[0], Flatten(a[1..]), Flatten(b));
    }
  }

  lemma LineEndUnique(d: bytes, e: nat)
    requires 0 < e <= |d| && (forall i | 0 <= i < e - 1 :: d[i] != LF) && (e == |d| || d[e - 1] == LF)
    ensures LineEnd(d) == e
  {
    var f := LineEnd(d);
    assert f == |d| || d[f - 1] == LF;
  }

  lemma FirstRawLine(a: bytes, b: bytes)
    requires a != [] && EndsLine(a)
    ensures var e := LineEnd(a);
      && LineEnd(a + b) == e && (a + b)[..e] == a[..e] && (a + b)[e..] == a[e..] + b && EndsLine(a[e..])
  {
    var e := LineEnd(a);
    forall i | 0 <= i < e - 1 ensures (a + b)[i] != LF {
      assert (a + b)[i] == a[i];
    }
    assert (a + b)[e - 1] == a[e - 1] == LF;
    LineEndUnique(a + b, e);
    if a[e..] != [] {
      assert a[e..][|a[e..]| - 1] == a[|a| - 1];
    }
  }

  /** The text may be cut at a line end and the parts taken apart separately. */
  lemma {:induction false} RawLinesAppend(a: bytes, b: bytes)
    requires EndsLine(a)
    ensures RawLines(a + b) == RawLines(a) + RawLines(b)
  {
    hide LineEnd;
    if a == [] {
      assert a + b == b;
    } else {
      FirstRawLine(a, b);
      RawLinesAppend(a[LineEnd(a)..], b);
      RawLinesCons(a);
      RawLinesCons(a + b);
      Regroup([a[..LineEnd(a)]], RawLines(a[LineEnd(a)..]), RawLines(b));
    }
  }

  // ----- Tokens: the raw lines without their terminators

  /** bufio's dropCR. */
  function DropCR(t: bytes): bytes {
    if t != [] && t[|t| - 1] == CR then t[..|t| - 1] else t
  }

  /** The text of a raw line: without the LF, then without one CR. */
  function Text(raw: bytes): bytes {
    DropCR(if raw != [] && raw[|raw| - 1] == LF then raw[..|raw| - 1] else raw)
  }

  function Texts(raws: seq<bytes>): seq<bytes> {
    if raws == [] then [] else [Text(raws[0])] + Texts(raws[1..])
  }

  /** What a fresh scanner emits for d, when no line is too long for its buffer. */
  function Tokens(d: bytes): seq<bytes> {
    Texts(RawLines(d))
  }

  lemma TokensCons(d: bytes)
    requires d != []
    ensures Tokens(d) == [Text(d[..LineEnd(d)])] + Tokens(d[LineEnd(d)..])
  {
    assert RawLines(d)[1..] == RawLines(d[LineEnd(d)..]);
  }

  lemma {:induction false} TextsAppend(a: seq<bytes>, b: seq<bytes>)
    ensures Texts(a + b) == Texts(a) + Texts(b)
  {
    if a == [] {
      assert a + b == b;
    } else {
      TextsAppend(a[1..], b);
      assert (a + b)[1..] == a[1..] + b;
      Regroup([Text(a[0])], Texts(a[1..]), Texts(b));
    }
  }

  lemma {:induction false} TextsAt(raws: seq<bytes>, k: nat)
    ensures |Texts(raws)| == |raws|
    ensures k < |raws| ==> Texts(raws)[k] == Text(raws[k])
  {
    if raws != [] {
      TextsAt(raws[1..], if k == 0 then 0 else k - 1);
    }
  }

  lemma TokensAppend(a: bytes, b: bytes)
    requires EndsLine(a)
    ensures Tokens(a + b) == Tokens(a) + Tokens(b)
  {
    RawLinesAppend(a, b);
    TextsAppend(RawLines(a), RawLines(b));
  }

  lemma TokensOfOneLine(d: bytes)
    requires d != [] && forall i | 0 <= i < |d| - 1 :: d[i] != LF
    ensures RawLines(d) == [d] && Tokens(d) == [Text(d)]
  {
    LineEndUnique(d, |d|);
    assert d[..|d|] == d && RawLines(d[|d|..]) == [];
    assert Texts([d]) == [Text(d)] + Texts([d][1..]);
  }

  lemma Regroup<T>(a: seq<T>, b: seq<T>, c: seq<T>)
    ensures a + b + c == a + (b + c)
  {
  }

  // ----- What the terminators hide: text without CR and LF

  function Visible(d: bytes): bytes {
    if d == [] then []
    else (if d[0] == CR || d[0] == LF then [] else [d[0]]) + Visible(d[1..])
  }

  lemma {:induction false} VisibleAppend(a: bytes, b: bytes)
    ensures Visible(a + b) == Visible(a) + Visible(b)
  {
    if a == [] {
      assert a + b == b;
    } else {
      VisibleAppend(a[1..], b);
      assert (a + b)[1..] == a[1..] + b;
      Regroup(if a[0] == CR || a[0] == LF then [] else [a[0]], Visible(a[1..]), Visible(b));
    }
  }

  lemma VisibleText(raw: bytes)
    ensures Visible(Text(raw)) == Visible(raw)
  {
    var t := if raw != [] && raw[|raw| - 1] == LF then raw[..|raw| - 1] else raw;
    if t != raw {
      assert raw == t + [LF];
      VisibleAppend(t, [LF]);
      assert Visible([LF]) == [];
    }
    if DropCR(t) != t {
      assert t == DropCR(t) + [CR];
      VisibleAppend(DropCR(t), [CR]);
      assert Visible([CR]) == [];
    }
  }

  lemma {:induction false} VisibleTexts(raws: seq<bytes>)
    ensures Visible(Flatten(Texts(raws))) == Visible(Flatten(raws))
  {
    if raws != [] {
      VisibleTexts(raws[1..]);
      VisibleText(raws[0]);
      VisibleAppend(Text(raws[0]), Flatten(Texts(raws[1..])));
      VisibleAppend(raws[0], Flatten(raws[1..]));
    }
  }

  /** Scanning drops only terminators. */
  lemma VisibleTokens(d: bytes)
    ensures Visible(Flatten(Tokens(d))) == Visible(d)
  {
    VisibleTexts(RawLines(d));
    FlattenRawLines(d);
  }

  // ----- Scanning in rounds

  /** What a series of fresh scanners emits, each reading one chunk to its end. */
  function Emitted(chunks: seq<bytes>): seq<bytes> {
    if chunks == [] then [] else Tokens(chunks[0]) + Emitted(chunks[1..])
  }

  lemma {:induction false} EmittedAppend(chunks: seq<bytes>, c: bytes)
    ensures Emitted(chunks + [c]) == Emitted(chunks) + Tokens(c)
  {
    if chunks == [] {
      assert Emitted([c]) == Tokens(c) + Emitted([c][1..]);
    } else {
      EmittedAppend(chunks[1..], c);
      assert (chunks + [c])[1..] == chunks[1..] + [c];
    }
  }

  /** Every chunk that has bytes after it ends on a line end. */
  predicate CutAtLines(chunks: seq<bytes>) {
    chunks == [] || ((EndsLine(chunks[0]) || Flatten(chunks[1..]) == []) && CutAtLines(chunks[1..]))
  }

  /** However the bytes fall into rounds, the emitted text is the bytes but for CR and LF. */
  lemma {:induction false} RoundsConserveText(chunks: seq<bytes>)
    ensures Visible(Flatten(Emitted(chunks))) == Visible(Flatten(chunks))
  {
    if chunks != [] {
      RoundsConserveText(chunks[1..]);
      VisibleTokens(chunks[0]);
      FlattenAppend(Tokens(chunks[0]), Emitted(chunks[1..]));
      VisibleAppend(Flatten(Tokens(chunks[0])), Flatten(Emitted(chunks[1..])));
      VisibleAppend(chunks[0], Flatten(chunks[1..]));
    }
  }

  function LfCount(d: bytes): nat {
    if d == [] then 0 else (if d[0] == LF then 1 else 0) + LfCount(d[1..])
  }

  lemma {:induction false} LfCountAppend(a: bytes, b: bytes)
    ensures LfCount(a + b) == LfCount(a) + LfCount(b)
  {
    if a == [] {
      assert a + b == b;
    } else {
      LfCountAppend(a[1..], b);
      assert (a + b)[1..] == a[1..] + b;
    }
  }

  lemma {:induction false} NoLfCount(d: bytes)
    requires LF !in d
    ensures LfCount(d) == 0
  {
    if d != [] {
      NoLfCount(d[1..]);
    }
  }

  /** One raw line per LF, and one more for an unterminated rest. */
  lemma {:induction false} LineCount(d: bytes)
    ensures |RawLines(d)| == LfCount(d) + (if EndsLine(d) then 0 else 1)
  {
    hide LineEnd;
    if d != [] {
      var e := LineEnd(d);
      LineCount(d[e..]);
      assert d == d[..e - 1] + [d[e - 1]] + d[e..];
      NoLfCount(d[..e - 1]);
      LfCountAppend(d[..e - 1], [d[e - 1]]);
      LfCountAppend(d[..e - 1] + [d[e - 1]], d[e..]);
    }
  }

  lemma {:induction false} EmittedCount(chunks: seq<bytes>)
    ensures |Emitted(chunks)| >= |Tokens(Flatten(chunks))|
    ensures |Emitted(chunks)| == |Tokens(Flatten(chunks))| ==> CutAtLines(chunks)
  {
    if chunks != [] {
      var rest := Flatten(chunks[1..]);
      EmittedCount(chunks[1..]);
      LineCount(chunks[0]);
      LineCount(rest);
      LineCount(chunks[0] + rest);
      LfCountAppend(chunks[0], rest);
      TextsAt(RawLines(chunks[0]), 0);
      TextsAt(RawLines(rest), 0);
      TextsAt(RawLines(chunks[0] + rest), 0);
      if rest == [] {
        assert chunks[0] + rest == chunks[0];
      }
    }
  }

  /** The rounds emit the lines of the whole text exactly if no round is cut inside a line. */
  lemma {:induction false} RoundsKeepLinesIff(chunks: seq<bytes>)
    ensures Emitted(chunks) == Tokens(Flatten(chunks)) <==> CutAtLines(chunks)
  {
    EmittedCount(chunks);
    if CutAtLines(chunks) {
      CutRoundsKeepLines(chunks);
    }
  }

  lemma {:induction false} CutRoundsKeepLines(chunks: seq<bytes>)
    requires CutAtLines(chunks)
    ensures Emitted(chunks) == Tokens(Flatten(chunks))
  {
    if chunks != [] {
      var rest := Flatten(chunks[1..]);
      CutRoundsKeepLines(chunks[1..]);
      if EndsLine(chunks[0]) {
        TokensAppend(chunks[0], rest);
      } else {
        assert Tokens(rest) == [];
        assert chunks[0] + rest == chunks[0];
      }
    }
  }
}
