/** The listings of server/rpc.go: gather in any order, sort, convert in parallel, collect. */
module Listing {
  import opened Counting
  import opened Lines
  import opened Options

  /** Go compares strings byte by byte. */
  type Text = bytes

  /** The name is the one GitHub gave the runner; it need not be the key under which the pool's map
      holds the machine. */
  datatype Machine = Machine(pool: Text, name: Text, addr: Text, createdAt: int, cid: nat)

  /** What the client gets of a machine; the runner's state and version are what its guest agent said,
      if it did. */
  datatype Proto = Proto(id: Text, pool: Text, addr: Text, createdAt: int, state: Text, version: Text)

  // ----- The order

  predicate Before(a: Text, b: Text) {
    if a == [] then b != []
    else b != [] && (a[0] < b[0] || (a[0] == b[0] && Before(a[1..], b[1..])))
  }

  lemma {:induction false} BeforeIsTotal(a: Text, b: Text)
    ensures Before(a, b) || a == b || Before(b, a)
    ensures !(Before(a, b) && Before(b, a)) && (a == b ==> !Before(a, b))
  {
    if a != [] && b != [] {
      BeforeIsTotal(a[1..], b[1..]);
      if a[0] == b[0] && a[1..] == b[1..] {
        assert a == [a[0]] + a[1..] && b == [b[0]] + b[1..];
      }
    }
  }

  /** a and b agree up to byte i, where a has the smaller one. */
  predicate SmallerAt(a: Text, b: Text, i: nat) {
    i < |a| && i < |b| && a[..i] == b[..i] && a[i] < b[i]
  }

  /** Ascending byte order: a is a proper prefix of b, or has the smaller byte where they first differ. */
  ghost predicate Ascends(a: Text, b: Text) {
    (a <= b && a != b) || exists i: nat :: SmallerAt(a, b, i)
  }

  lemma SmallerLater(a: Text, b: Text, i: nat)
    requires a != [] && b != [] && a[0] == b[0]
    ensures SmallerAt(a, b, i + 1) <==> SmallerAt(a[1..], b[1..], i)
  {
    assert a == [a[0]] + a[1..] && b == [b[0]] + b[1..];
    if i + 1 <= |a| && i + 1 <= |b| {
      assert a[..i + 1] == [a[0]] + a[1..][..i] && b[..i + 1] == [b[0]] + b[1..][..i];
      assert a[..i + 1][1..] == a[1..][..i] && b[..i + 1][1..] == b[1..][..i];
    }
  }

  lemma SmallerFirst(a: Text, b: Text, i: nat)
    requires a != [] && b != []
    ensures SmallerAt(a, b, i) && i > 0 ==> a[0] == b[0]
  {
    if SmallerAt(a, b, i) && i > 0 {
      assert a[..i][0] == b[..i][0];
    }
  }

  lemma {:induction false} BeforeIff(a: Text, b: Text)
    ensures Before(a, b) <==> Ascends(a, b)
  {
    if a != [] && b != [] {
      assert SmallerAt(a, b, 0) <==> a[0] < b[0];
      if a[0] == b[0] {
        BeforeIff(a[1..], b[1..]);
        assert a == [a[0]] + a[1..] && b == [b[0]] + b[1..];
        assert a <= b <==> a[1..] <= b[1..];
        forall i: nat ensures SmallerAt(a, b, i + 1) <==> SmallerAt(a[1..], b[1..], i) {
          SmallerLater(a, b, i);
        }
        if i: nat :| SmallerAt(a, b, i) {
          assert SmallerAt(a[1..], b[1..], i - 1);
        }
        if i: nat :| SmallerAt(a[1..], b[1..], i) {
          assert SmallerAt(a, b, i + 1);
        }
      } else {
        forall i: nat ensures SmallerAt(a, b, i) ==> i == 0 {
          SmallerFirst(a, b, i);
        }
      }
    }
  }

  lemma {:induction false} BeforeIsTransitive(a: Text, b: Text, c: Text)
    requires Before(a, b) && Before(b, c)
    ensures Before(a, c)
  {
    if a != [] && a[0] == b[0] == c[0] {
      BeforeIsTransitive(a[1..], b[1..], c[1..]);
    }
  }

  /** The less function passed to sort.Slice. */
  predicate Less(a: Machine, b: Machine) {
    if a.pool != b.pool then Before(a.pool, b.pool) else Before(a.name, b.name)
  }

  predicate SameKey(a: Machine, b: Machine) {
    a.pool == b.pool && a.name == b.name
  }

  lemma LessIsTotal(a: Machine, b: Machine)
    ensures Less(a, b) || SameKey(a, b) || Less(b, a)
    ensures !(Less(a, b) && Less(b, a)) && (SameKey(a, b) ==> !Less(a, b))
  {
    BeforeIsTotal(a.pool, b.pool);
    BeforeIsTotal(a.name, b.name);
  }

  lemma LessIsTransitive(a: Machine, b: Machine, c: Machine)
    requires !Less(b, a) && !Less(c, b)
    ensures !Less(c, a)
  {
    hide Before;
    LessIsTotal(a, b);
    LessIsTotal(b, c);
    LessIsTotal(a, c);
    BeforeIsTotal(a.pool, b.pool);
    BeforeIsTotal(b.pool, c.pool);
    if Before(a.pool, b.pool) && Before(b.pool, c.pool) {
      BeforeIsTransitive(a.pool, b.pool, c.pool);
      BeforeIsTotal(a.pool, c.pool);
    }
    if Before(a.name, b.name) && Before(b.name, c.name) {
      BeforeIsTransitive(a.name, b.name, c.name);
      BeforeIsTotal(a.name, c.name);
    }
  }

  predicate Sorted(ms: seq<Machine>) {
    forall i, j | 0 <= i < j < |ms| :: !Less(ms[j], ms[i])
  }

  /** No two different machines share pool and name. */
  predicate Harmless(ms: seq<Machine>) {
    forall x, y | x in ms && y in ms && SameKey(x, y) :: x == y
  }

  // ----- There is only one sorted order

  lemma MultisetTail<T>(a: seq<T>)
    requires a != []
    ensures multiset(a) == multiset{a[0]} + multiset(a[1..])
  {
    assert a == [a[0]] + a[1..];
  }

  lemma SameTails<T>(a: seq<T>, b: seq<T>)
    requires a != [] && b != [] && a[0] == b[0] && multiset(a) == multiset(b)
    ensures multiset(a[1..]) == multiset(b[1..])
  {
    MultisetTail(a);
    MultisetTail(b);
    assert multiset(a[1..]) == multiset(a) - multiset{a[0]};
    assert multiset(b[1..]) == multiset(b) - multiset{b[0]};
  }

  lemma SameLength<T>(a: seq<T>, b: seq<T>)
    requires multiset(a) == multiset(b)
    ensures |a| == |b|
  {
    assert |a| == |multiset(a)| == |multiset(b)| == |b|;
  }

  function Without<T>(s: seq<T>, j: nat): (r: seq<T>)
    requires j < |s|
    ensures |r| == |s| - 1
  {
    s[..j] + s[j + 1..]
  }

  lemma DropOne<T>(s: seq<T>, j: nat)
    requires j < |s|
    ensures multiset(s) == multiset{s[j]} + multiset(Without(s, j))
  {
    assert s == s[..j] + [s[j]] + s[j + 1..];
  }

  function Map<T, R>(f: T -> R, s: seq<T>): (r: seq<R>)
    ensures |r| == |s| && forall i | 0 <= i < |s| :: r[i] == f(s[i])
  {
    if s == [] then [] else [f(s[0])] + Map(f, s[1..])
  }

  lemma MapAppend<T, R>(f: T -> R, a: seq<T>, b: seq<T>)
    ensures Map(f, a + b) == Map(f, a) + Map(f, b)
  {
    hide Map;
  }

  lemma MapParts<T, R>(f: T -> R, s: seq<T>, j: nat)
    requires j < |s|
    ensures Map(f, s[..j]) == Map(f, s)[..j] && Map(f, s[j + 1..]) == Map(f, s)[j + 1..]
  {
    hide Map;
  }

  lemma MapWithout<T, R>(f: T -> R, s: seq<T>, j: nat)
    requires j < |s|
    ensures multiset(Map(f, s)) == multiset{f(s[j])} + multiset(Map(f, Without(s, j)))
  {
    hide Map;
    MapAppend(f, s[..j], s[j + 1..]);
    MapParts(f, s, j);
    DropOne(Map(f, s), j);
  }

  lemma Find<T>(x: T, s: seq<T>) returns (j: nat)
    requires x in multiset(s)
    ensures j < |s| && s[j] == x
  {
    j :| 0 <= j < |s| && s[j] == x;
  }

  lemma SameRest<T>(x: T, a: multiset<T>, b: multiset<T>)
    requires multiset{x} + a == multiset{x} + b
    ensures a == b
  {
    assert a == multiset{x} + a - multiset{x};
    assert b == multiset{x} + b - multiset{x};
  }

  lemma {:induction false} MapPermuted<T, R>(f: T -> R, a: seq<T>, b: seq<T>)
    requires multiset(a) == multiset(b)
    ensures multiset(Map(f, a)) == multiset(Map(f, b))
    decreases |a|
  {
    hide Map, Without;
    SameLength(a, b);
    if a == [] {
      assert Map(f, a) == Map(f, b) == [];
    } else {
      DropOne(a, 0);
      var j := Find(a[0], b);
      DropOne(b, j);
      SameRest(a[0], multiset(Without(a, 0)), multiset(Without(b, j)));
      MapPermuted(f, Without(a, 0), Without(b, j));
      MapWithout(f, a, 0);
      MapWithout(f, b, j);
    }
  }

  /** What sorting looks at. */
  function KeyOf(m: Machine): (Text, Text) {
    (m.pool, m.name)
  }

  predicate KeyLess(x: (Text, Text), y: (Text, Text)) {
    if x.0 != y.0 then Before(x.0, y.0) else Before(x.1, y.1)
  }

  predicate KeysSorted(ks: seq<(Text, Text)>) {
    forall i, j | 0 <= i < j < |ks| :: !KeyLess(ks[j], ks[i])
  }

  lemma KeyLessIsTotal(x: (Text, Text), y: (Text, Text))
    ensures KeyLess(x, y) || x == y || KeyLess(y, x)
  {
    BeforeIsTotal(x.0, y.0);
    BeforeIsTotal(x.1, y.1);
  }

  /** The first of a sorted list is the least. */
  lemma SameFirst(a: seq<(Text, Text)>, b: seq<(Text, Text)>)
    requires a != [] && b != [] && KeysSorted(a) && KeysSorted(b) && multiset(a) == multiset(b)
    ensures a[0] == b[0]
  {
    hide KeyLess;
    assert a[0] in multiset(b) && b[0] in multiset(a);
    var i :| 0 <= i < |a| && a[i] == b[0];
    var j :| 0 <= j < |b| && b[j] == a[0];
    KeyLessIsTotal(a[0], b[0]);
  }

  lemma {:induction false} OneKeyOrder(a: seq<(Text, Text)>, b: seq<(Text, Text)>)
    requires KeysSorted(a) && KeysSorted(b) && multiset(a) == multiset(b)
    ensures a == b
    decreases |a|
  {
    hide KeyLess;
    SameLength(a, b);
    if a != [] {
      SameFirst(a, b);
      SameTails(a, b);
      OneKeyOrder(a[1..], b[1..]);
      assert a == [a[0]] + a[1..] && b == [b[0]] + b[1..];
    }
  }

  /** Whatever order the machines were gathered in and whatever sort.Slice does with equals: the
      pools and names of the sorted list are always the same ones in the same places. */
  lemma OneIdentityOrder(a: seq<Machine>, b: seq<Machine>)
    requires Sorted(a) && Sorted(b) && multiset(a) == multiset(b)
    ensures |a| == |b| && forall i | 0 <= i < |a| :: SameKey(a[i], b[i])
  {
    MapPermuted(KeyOf, a, b);
    OneKeyOrder(Map(KeyOf, a), Map(KeyOf, b));
    assert forall i | 0 <= i < |a| :: Map(KeyOf, a)[i] == Map(KeyOf, b)[i];
  }

  /** If no two different machines share pool and name, the machines are. */
  lemma OneSortedOrder(a: seq<Machine>, b: seq<Machine>)
    requires Sorted(a) && Sorted(b) && Harmless(a) && multiset(a) == multiset(b)
    ensures a == b
  {
    hide Sorted;
    OneIdentityOrder(a, b);
    forall i | 0 <= i < |b| ensures a[i] == b[i] {
      assert b[i] in multiset(a);
      assert SameKey(a[i], b[i]);
    }
  }

  function Swapped<T>(s: seq<T>, i: nat, j: nat): (r: seq<T>)
    requires i < |s| && j < |s|
    ensures |r| == |s| && multiset(r) == multiset(s)
  {
    s[i := s[j]][j := s[i]]
  }

  /** Swapping two machines of one pool and name leaves the order sorted. */
  lemma SwappedIsSorted(a: seq<Machine>, i: nat, j: nat)
    requires Sorted(a) && i < |a| && j < |a| && SameKey(a[i], a[j])
    ensures Sorted(Swapped(a, i, j))
  {
    hide Before;
    var b := Swapped(a, i, j);
    assert forall k | 0 <= k < |a| :: SameKey(a[k], b[k]);
    forall k, l | 0 <= k < l < |b| ensures !Less(b[l], b[k]) {
      assert !Less(a[l], a[k]);
    }
  }

  /** A list has one sorted order if and only if no two different machines in it share pool and name. */
  lemma OneSortedOrderIff(a: seq<Machine>)
    requires Sorted(a)
    ensures (forall b | Sorted(b) && multiset(b) == multiset(a) :: b == a) <==> Harmless(a)
  {
    hide Sorted, Less, Swapped;
    if Harmless(a) {
      forall b | Sorted(b) && multiset(b) == multiset(a) ensures b == a {
        OneSortedOrder(a, b);
      }
    } else {
      var i, j :| 0 <= i < |a| && 0 <= j < |a| && SameKey(a[i], a[j]) && a[i] != a[j];
      SwappedIsSorted(a, i, j);
      assert Swapped(a, i, j)[i] == a[j] by {
        SwappedAt(a, i, j);
      }
    }
  }

  lemma SwappedAt<T>(s: seq<T>, i: nat, j: nat)
    requires i < |s| && j < |s|
    ensures Swapped(s, i, j)[i] == s[j]
  {
  }

  // ----- Sorting in place

  function Insert(x: Machine, s: seq<Machine>): seq<Machine> {
    if s == [] || !Less(s[0], x) then [x] + s else [s[0]] + Insert(x, s[1..])
  }

  lemma {:induction false} InsertSorts(x: Machine, s: seq<Machine>)
    requires Sorted(s)
    ensures Sorted(Insert(x, s)) && multiset(Insert(x, s)) == multiset{x} + multiset(s)
  {
    hide Less;
    if s != [] && Less(s[0], x) {
      InsertSorts(x, s[1..]);
      MultisetTail(s);
      var t := Insert(x, s[1..]);
      LessIsTotal(s[0], x);
      forall m | m in t ensures !Less(m, s[0]) {
        assert m in multiset(t);
        assert m == x || m in s[1..];
      }
    } else if s != [] {
      forall m | m in s ensures !Less(m, x) {
        var i :| 0 <= i < |s| && s[i] == m;
        LessIsTotal(m, m);
        LessIsTransitive(x, s[0], m);
      }
    }
  }

  function InsertAll(s: seq<Machine>): seq<Machine> {
    if s == [] then [] else Insert(s[0], InsertAll(s[1..]))
  }

  lemma {:induction false} InsertAllSorts(s: seq<Machine>)
    ensures Sorted(InsertAll(s)) && multiset(InsertAll(s)) == multiset(s)
  {
    if s != [] {
      InsertAllSorts(s[1..]);
      InsertSorts(s[0], InsertAll(s[1..]));
      MultisetTail(s);
    }
  }

  /** Stands for sort.Slice; callers know only that the result is a sorted permutation. */
  method SortSlice(a: array<Machine>)
    modifies a
    ensures Sorted(a[..]) && multiset(a[..]) == multiset(old(a[..]))
  {
    var s := InsertAll(a[..]);
    InsertAllSorts(a[..]);
    assert |s| == |multiset(s)| == |multiset(a[..])| == a.Length;
    for i := 0 to a.Length
      invariant forall j | 0 <= j < i :: a[j] == s[j]
    {
      a[i] := s[i];
    }
    assert a[..] == s;
  }

  // ----- Gathering

  /** The machines under their map keys: the pool's name and the runner's. */
  type Pools = map<Text, map<Text, Machine>>

  datatype Entry = Entry(pool: Text, key: Text, machine: Machine)

  predicate Holds(pools: Pools, e: Entry) {
    e.pool in pools && e.key in pools[e.pool] && pools[e.pool][e.key] == e.machine
  }

  /** The entries of the pools, each once. */
  ghost predicate Enumerates(pools: Pools, es: seq<Entry>) {
    && (forall e | e in es :: Holds(pools, e))
    && (forall e: Entry | Holds(pools, e) :: e in es)
    && (forall i, j | 0 <= i < j < |es| :: es[i] != es[j])
  }

  function MachineOf(e: Entry): Machine {
    e.machine
  }

  /** ms has exactly the machines of the pools, one for each entry, in some order. */
  ghost predicate Gathered(pools: Pools, ms: seq<Machine>) {
    exists es :: Enumerates(pools, es) && multiset(ms) == multiset(Map(MachineOf, es))
  }

  /** pool.ListMachines, in whatever order the map yields its entries. */
  method PoolMachines(p: Text, machines: map<Text, Machine>) returns (ms: seq<Machine>, ghost es: seq<Entry>)
    ensures Enumerates(map[p := machines], es) && ms == Map(MachineOf, es)
  {
    hide Map;
    ms, es := [], [];
    var rest := machines.Keys;
    while rest != {}
      invariant rest <= machines.Keys
      invariant forall e | e in es :: e.pool == p && Holds(map[p := machines], e) && e.key !in rest
      invariant forall n | n in machines && n !in rest :: Entry(p, n, machines[n]) in es
      invariant forall i, j | 0 <= i < j < |es| :: es[i] != es[j]
      invariant ms == Map(MachineOf, es)
      decreases |rest|
    {
      var n :| n in rest;
      rest := rest - {n};
      ms := ms + [machines[n]];
      es := es + [Entry(p, n, machines[n])];
    }
  }

  lemma EnumerateMore(pools: Pools, es: seq<Entry>, p: Text, machines: map<Text, Machine>, more: seq<Entry>)
    requires Enumerates(pools, es) && Enumerates(map[p := machines], more) && p !in pools
    ensures Enumerates(pools[p := machines], es + more)
  {
    var all := es + more;
    forall e: Entry | Holds(pools[p := machines], e) ensures e in all {
      assert if e.pool == p then Holds(map[p := machines], e) else Holds(pools, e);
    }
    forall i, j | 0 <= i < j < |all| ensures all[i] != all[j] {
      if i < |es| <= j {
        assert es[i] in es && more[j - |es|] in more;
      }
    }
  }

  lemma NoEntries()
    ensures Enumerates(map[], [])
  {
  }

  lemma OnceEach<T>(a: seq<T>, x: T)
    requires forall i, j | 0 <= i < j < |a| :: a[i] != a[j]
    ensures multiset(a)[x] == if x in a then 1 else 0
  {
    if x in a {
      var p :| 0 <= p < |a| && a[p] == x;
      assert a == a[..p] + [x] + a[p + 1..];
      assert x !in a[..p];
      assert x !in a[p + 1..];
    }
  }

  lemma SameEnumerations(pools: Pools, a: seq<Entry>, b: seq<Entry>)
    requires Enumerates(pools, a) && Enumerates(pools, b)
    ensures multiset(a) == multiset(b)
  {
    forall e ensures multiset(a)[e] == multiset(b)[e] {
      OnceEach(a, e);
      OnceEach(b, e);
      assert e in a <==> e in b;
    }
  }

  /** However the pools are walked, the same machines are gathered, each as often. */
  lemma GatheredOnce(pools: Pools, a: seq<Machine>, b: seq<Machine>)
    requires Gathered(pools, a) && Gathered(pools, b)
    ensures multiset(a) == multiset(b)
  {
    hide Enumerates, Map;
    var es :| Enumerates(pools, es) && multiset(a) == multiset(Map(MachineOf, es));
    var fs :| Enumerates(pools, fs) && multiset(b) == multiset(Map(MachineOf, fs));
    SameEnumerations(pools, es, fs);
    MapPermuted(MachineOf, es, fs);
  }

  // ----- Converting in parallel

  predicate Shows(p: Proto, m: Machine) {
    p.id == m.name && p.pool == m.pool && p.addr == m.addr && p.createdAt == m.createdAt
  }

  /** What the guest agent of a machine says when it is asked for its runner's state and version. */
  datatype Answer = NoConnection | Answer(state: Option<Text>, version: Option<Text>)

  type Guests = Machine -> Answer

  const UNKNOWN: Text := [85, 110, 107, 110, 111, 119, 110]

  predicate Tells(p: Proto, a: Answer) {
    && p.state == (if a.Answer? && a.state.Some? then a.state.value else UNKNOWN)
    && p.version == (if a.Answer? && a.version.Some? then a.version.value else UNKNOWN)
  }

  predicate Converted(guests: Guests, p: Proto, m: Machine) {
    Shows(p, m) && Tells(p, guests(m))
  }

  /** convertMachineToProto. */
  method Convert(guests: Guests, m: Machine) returns (p: Proto)
    ensures Converted(guests, p, m)
  {
    p := Proto(m.name, m.pool, m.addr, m.createdAt, [], []);
    var answer := guests(m);
    if answer.NoConnection? {
      return p.(state := UNKNOWN, version := UNKNOWN);
    }
    p := p.(state := if answer.state.None? then UNKNOWN else answer.state.value);
    p := p.(version := if answer.version.None? then UNKNOWN else answer.version.value);
  }

  datatype Result = Result(index: nat, proto: Proto)

  /** The results in the channel: of different machines, each with its conversion. */
  ghost predicate InChannel(guests: Guests, machines: seq<Machine>, results: seq<Result>) {
    && (forall r | r in results :: r.index < |machines| && Converted(guests, r.proto, machines[r.index]))
    && (forall i, j | 0 <= i < j < |results| :: results[i].index != results[j].index)
  }

  function Indexes(n: nat): set<nat> {
    if n == 0 then {} else Indexes(n - 1) + {n - 1}
  }

  lemma {:induction false} IndexesAre(n: nat)
    ensures |Indexes(n)| == n && forall i: nat :: i in Indexes(n) <==> i < n
  {
    if n > 0 {
      IndexesAre(n - 1);
    }
  }

  /** n different indices below n are all of them. */
  lemma AllStored(stored: set<nat>, n: nat)
    requires |stored| == n && forall i | i in stored :: i < n
    ensures forall i: nat | i < n :: i in stored
  {
    IndexesAre(n);
    forall i: nat | i < n ensures i in stored {
      if i !in stored {
        SubsetSize(stored, Indexes(n) - {i});
        assert false;
      }
    }
  }

  /** One goroutine for each machine sends its result into a channel with room for all of them, and
      the results are stored as they come. However the goroutines are scheduled, a send finds room,
      every slot is written once, and slot i gets the conversion of machine i. */
  method ConvertAll(guests: Guests, machines: seq<Machine>) returns (protos: array<Proto>, ghost writes: seq<nat>)
    ensures fresh(protos) && protos.Length == |machines|
    ensures forall i | 0 <= i < |machines| :: Converted(guests, protos[i], machines[i])
    ensures |writes| == |machines| && forall i, j | 0 <= i < j < |writes| :: writes[i] != writes[j]
    ensures forall i | i in writes :: i < |machines|
  {
    hide Converted;
    var n := |machines|;
    protos := new Proto[n](_ => Proto([], [], [], 0, [], []));
    writes := [];
    var running: set<nat> := Indexes(n);
    IndexesAre(n);
    var results: seq<Result> := [];
    ghost var stored: set<nat> := {};
    for k := 0 to n
      invariant protos.Length == n && fresh(protos)
      invariant InChannel(guests, machines, results) && |running| + |results| + k == n && |stored| == |writes| == k
      invariant forall r | r in results :: r.index !in running && r.index !in stored
      invariant forall i | i in running :: 0 <= i < n && i !in stored
      invariant forall i | i in stored :: i < n && Converted(guests, protos[i], machines[i])
      invariant (forall i | i in writes :: i in stored) && forall i, j | 0 <= i < j < k :: writes[i] != writes[j]
    {
      results, running := Finish(guests, machines, results, running, k, stored);
      var r := results[0];
      assert r in results;
      assert r.index !in stored;
      protos[r.index] := r.proto;
      stored := stored + {r.index};
      writes := writes + [r.index];
      results := results[1..];
    }
    AllStored(stored, n);
  }

  /** Goroutines finish and send, until there is at least one result. */
  method Finish(guests: Guests, machines: seq<Machine>, results: seq<Result>, running: set<nat>, k: nat,
                ghost stored: set<nat>)
    returns (results': seq<Result>, running': set<nat>)
    requires InChannel(guests, machines, results) && |running| + |results| + k == |machines| && k < |machines|
    requires forall r | r in results :: r.index !in running && r.index !in stored
    requires forall i | i in running :: i < |machines| && i !in stored
    ensures InChannel(guests, machines, results') && |running'| + |results'| + k == |machines| && results' != []
    ensures running' <= running && forall r | r in results' :: r.index !in running' && r.index !in stored
  {
    results', running' := results, running;
    var more: bool := *;
    while running' != {} && (results' == [] || more)
      invariant InChannel(guests, machines, results') && |running'| + |results'| + k == |machines|
      invariant running' <= running && forall r | r in results' :: r.index !in running' && r.index !in stored
      decreases |running'|
    {
      var i :| i in running';
      assert |results'| < |machines|;
      var p := Convert(guests, machines[i]);
      results' := results' + [Result(i, p)];
      running' := running' - {i};
      more := *;
    }
  }

  // ----- The call

  datatype Reply = Machines(protos: seq<Proto>) | NotFound

  /** The list shows exactly the machines of the pools, in order. */
  ghost predicate Lists(pools: Pools, ms: seq<Machine>, protos: seq<Proto>) {
    && Gathered(pools, ms) && Sorted(ms)
    && |protos| == |ms| && forall i | 0 <= i < |ms| :: Shows(protos[i], ms[i])
  }

  /** From each machine to every later one the pools ascend, and within a pool the names. */
  ghost predicate InOrder(protos: seq<Proto>) {
    forall i, j | 0 <= i < j < |protos| ::
      if protos[i].pool == protos[j].pool then protos[i].id == protos[j].id || Ascends(protos[i].id, protos[j].id)
      else Ascends(protos[i].pool, protos[j].pool)
  }

  lemma ListsInOrder(pools: Pools, ms: seq<Machine>, protos: seq<Proto>)
    requires Lists(pools, ms, protos)
    ensures InOrder(protos)
  {
    hide Gathered, Before, Ascends;
    forall i, j | 0 <= i < j < |protos|
      ensures if protos[i].pool == protos[j].pool
        then protos[i].id == protos[j].id || Ascends(protos[i].id, protos[j].id)
        else Ascends(protos[i].pool, protos[j].pool)
    {
      assert !Less(ms[j], ms[i]);
      LessIsTotal(ms[i], ms[j]);
      BeforeIff(ms[i].pool, ms[j].pool);
      BeforeIff(ms[i].name, ms[j].name);
    }
  }

  /** Every pool is in seen with the map it had at some moment, not before the one numbered first. */
  ghost predicate Seen(moments: seq<Pools>, first: nat, seen: Pools) {
    forall p | p in seen ::
      exists i :: first <= i < |moments| && Holding(moments[i], p, seen[p])
  }

  predicate Holding(pools: Pools, p: Text, machines: map<Text, Machine>) {
    p in pools && pools[p] == machines
  }

  lemma SeenNow(moments: seq<Pools>, later: seq<Pools>, first: nat, seen: Pools, p: Text)
    requires moments <= later && first < |later| && p in later[|later| - 1] && Seen(moments, first, seen)
    ensures Seen(later, first, seen[p := later[|later| - 1][p]])
  {
    var now := later[|later| - 1];
    var more := seen[p := now[p]];
    forall q | q in more ensures exists i :: first <= i < |later| && Holding(later[i], q, more[q])
    {
      if q == p {
        assert Holding(now, q, now[q]);
      } else {
        var i :| first <= i < |moments| && Holding(moments[i], q, seen[q]);
        assert later[i] == moments[i];
      }
    }
  }

  /** The entries and machines are those of the pools seen. */
  ghost predicate Collected(moments: seq<Pools>, first: nat, seen: Pools, es: seq<Entry>, ms: seq<Machine>) {
    Seen(moments, first, seen) && Enumerates(seen, es) && ms == Map(MachineOf, es)
  }

  lemma NothingCollected(moments: seq<Pools>, first: nat, seen: Pools)
    requires seen == map[]
    ensures Collected(moments, first, seen, [], [])
  {
    NoEntries();
  }

  lemma CollectMore(moments: seq<Pools>, later: seq<Pools>, now: Pools, first: nat, seen: Pools, es: seq<Entry>,
                    ms: seq<Machine>, p: Text, more: seq<Entry>, poolMachines: seq<Machine>)
    requires moments <= later && first < |later| && now == later[|later| - 1] && p in now && p !in seen
    requires Collected(moments, first, seen, es, ms)
    requires Enumerates(map[p := now[p]], more) && poolMachines == Map(MachineOf, more)
    ensures Collected(later, first, seen[p := now[p]], es + more, ms + poolMachines)
  {
    hide Seen, Enumerates, Map;
    SeenNow(moments, later, first, seen, p);
    EnumerateMore(seen, es, p, now[p], more);
    MapAppend(MachineOf, es, more);
  }

  lemma CollectedIsGathered(moments: seq<Pools>, first: nat, seen: Pools, es: seq<Entry>, found: seq<Machine>,
                            ms: seq<Machine>)
    requires Collected(moments, first, seen, es, found) && multiset(ms) == multiset(found)
    ensures Seen(moments, first, seen) && Gathered(seen, ms)
  {
    hide Seen, Enumerates, Map;
  }

  /** The server's pools are fixed before it serves calls; their machine maps change under a call. */
  class Server {
    var pools: Pools

    /** What pools was, from its first value to its present one. */
    ghost var moments: seq<Pools>

    ghost predicate Valid()
      reads this
    {
      moments != [] && moments[|moments| - 1] == pools
    }

    constructor (pools: Pools)
      ensures Valid() && this.pools == pools && moments == [pools]
    {
      this.pools := pools;
      moments := [pools];
    }

    /** The goroutines of the pools run for a while. */
    method Others()
      requires Valid()
      modifies this
      ensures Valid() && old(moments) <= moments && pools.Keys == old(pools.Keys)
    {
      var n: int := *;
      while n > 0
        invariant Valid() && old(moments) <= moments && pools.Keys == old(pools.Keys)
      {
        var next: Pools := *;
        if next.Keys == pools.Keys {
          pools := next;
          moments := moments + [next];
        }
        n := n - 1;
      }
    }

    /** Adds the machines of one more pool to those found so far, as the pool is when it is locked. */
    method AddPool(p: Text, found: seq<Machine>, ghost first: nat, ghost seen: Pools, ghost es: seq<Entry>)
      returns (found': seq<Machine>, ghost seen': Pools, ghost es': seq<Entry>)
      requires Valid() && p in pools && p !in seen
      requires first < |moments| && Collected(moments, first, seen, es, found)
      modifies this
      ensures Valid() && old(moments) <= moments && pools.Keys == old(pools.Keys)
      ensures seen'.Keys == seen.Keys + {p} && Collected(moments, first, seen', es', found')
    {
      hide Collected, Enumerates, Map;
      Others();
      var poolMachines, more := PoolMachines(p, pools[p]);
      CollectMore(old(moments), moments, pools, first, seen, es, found, p, more, poolMachines);
      found', seen', es' := found + poolMachines, seen[p := pools[p]], es + more;
    }

    /** The machines of all pools, visited in whatever order, each pool as it is when its turn comes. */
    method GatherAll() returns (ms: seq<Machine>, ghost seen: Pools, ghost es: seq<Entry>)
      requires Valid()
      modifies this
      ensures Valid() && old(moments) <= moments && pools.Keys == old(pools.Keys)
      ensures seen.Keys == old(pools.Keys) && Collected(moments, |old(moments)| - 1, seen, es, ms)
    {
      var names := pools.Keys;
      var rest := names;
      ms, seen, es := [], map[], [];
      NothingCollected(moments, |moments| - 1, seen);
      hide Collected;
      ghost var first := |moments| - 1;
      while rest != {}
        invariant Valid() && old(moments) <= moments && pools.Keys == names
        invariant rest <= names && Collected(moments, first, seen, es, ms)
        invariant forall q :: q in seen <==> q in names && q !in rest
        decreases |rest|
      {
        var p :| p in rest;
        ms, seen, es := AddPool(p, ms, first, seen, es);
        rest := rest - {p};
      }
    }

    /** seen is what the call saw of the chosen pools, each at a moment of its own during the call. */
    method ListMachines(pool: Text, guests: Guests) returns (reply: Reply, ghost ms: seq<Machine>, ghost seen: Pools)
      requires Valid()
      modifies this
      ensures Valid() && old(moments) <= moments && pools.Keys == old(pools.Keys)
      ensures pool != [] && pool !in old(pools) ==> reply == NotFound
      ensures pool == [] || pool in old(pools) ==>
        && reply.Machines? && Lists(seen, ms, reply.protos) && InOrder(reply.protos)
        && (forall i | 0 <= i < |ms| :: Tells(reply.protos[i], guests(ms[i])))
        && seen.Keys == (if pool == [] then old(pools.Keys) else {pool}) && Seen(moments, |old(moments)| - 1, seen)
    {
      hide Less, Enumerates, Map, Seen, Collected, Gathered, InOrder;
      ms, seen := [], map[];
      var found;
      ghost var entries;
      if pool == [] {
        found, seen, entries := GatherAll();
      } else {
        if pool !in pools {
          return NotFound, ms, seen;
        }
        NothingCollected(moments, |moments| - 1, seen);
        found, seen, entries := AddPool(pool, [], |moments| - 1, seen, []);
      }
      var machines := new Machine[|found|](i requires 0 <= i < |found| => found[i]);
      assert machines[..] == found;
      SortSlice(machines);
      ms := machines[..];
      CollectedIsGathered(moments, |old(moments)| - 1, seen, entries, found, ms);
      var protos;
      ghost var writes;
      protos, writes := ConvertAll(guests, machines[..]);
      reply := Machines(protos[..]);
      ListsInOrder(seen, ms, reply.protos);
    }
  }

  /** Two listings that saw the same show the same pool and name in the same places, whatever orders
      the maps were walked in and the conversions finished in. */
  lemma ListingIsDeterministic(pools: Pools, a: seq<Machine>, b: seq<Machine>, p: seq<Proto>, q: seq<Proto>)
    requires Lists(pools, a, p) && Lists(pools, b, q)
    ensures |p| == |q| && forall i | 0 <= i < |p| :: p[i].id == q[i].id && p[i].pool == q[i].pool
  {
    hide Sorted, Gathered;
    GatheredOnce(pools, a, b);
    OneIdentityOrder(a, b);
  }

  /** Two entries hold different machines of one pool and name. */
  ghost predicate Ambiguous(pools: Pools) {
    exists e, f :: Holds(pools, e) && Holds(pools, f) && SameKey(e.machine, f.machine) && e.machine != f.machine
  }

  lemma GatheredHas(pools: Pools, ms: seq<Machine>, m: Machine)
    requires Gathered(pools, ms)
    ensures m in ms <==> exists e :: Holds(pools, e) && e.machine == m
  {
    hide Map;
    var es :| Enumerates(pools, es) && multiset(ms) == multiset(Map(MachineOf, es));
    assert m in ms <==> m in multiset(ms);
    assert m in Map(MachineOf, es) <==> m in multiset(ms);
    if e :| Holds(pools, e) && e.machine == m {
      var i :| 0 <= i < |es| && es[i] == e;
      assert Map(MachineOf, es)[i] == m;
    }
    if m in Map(MachineOf, es) {
      var i :| 0 <= i < |es| && Map(MachineOf, es)[i] == m;
      assert Holds(pools, es[i]);
    }
  }

  lemma AmbiguousIffHarmful(pools: Pools, ms: seq<Machine>)
    requires Gathered(pools, ms)
    ensures Ambiguous(pools) <==> !Harmless(ms)
  {
    hide Gathered, Holds;
    forall m ensures m in ms <==> exists e :: Holds(pools, e) && e.machine == m {
      GatheredHas(pools, ms, m);
    }
    if !Harmless(ms) {
      var x, y :| x in ms && y in ms && SameKey(x, y) && x != y;
      var e :| Holds(pools, e) && e.machine == x;
      var f :| Holds(pools, f) && f.machine == y;
    }
  }

  /** A listing of the pools is one possible one only, down to the address and time of creation of
      every machine, if and only if no two entries hold different machines of one pool and name. */
  lemma OneListingIff(pools: Pools, a: seq<Machine>)
    requires Gathered(pools, a) && Sorted(a)
    ensures (forall b | Gathered(pools, b) && Sorted(b) :: b == a) <==> !Ambiguous(pools)
  {
    hide Sorted, Harmless, Ambiguous, Enumerates, Map;
    AmbiguousIffHarmful(pools, a);
    OneSortedOrderIff(a);
    forall b | Gathered(pools, b) ensures multiset(a) == multiset(b) {
      GatheredOnce(pools, a, b);
    }
    forall b | multiset(b) == multiset(a) ensures Gathered(pools, b) {
    }
  }
}
