/** The vsock CID counter that all pools of a server share. */
module CidAllocation {
  import opened Int32
  import opened PoolMachine
  import opened PoolInvariants

  type PoolId = string

  /** A server: its uint32 counter, its pools, and to whom CIDs were handed out, in order. */
  datatype World = World(counter: nat, pools: map<PoolId, State>, log: seq<(PoolId, Name)>)

  /** The counter starts at 2 because CID 2 is the host's. */
  function InitWorld(configs: map<PoolId, int>): World {
    World(2, map p | p in configs :: Init(configs[p]), [])
  }

  /** The step takes a CID: nextCID.Add(1) runs whether or not the create succeeds later. */
  predicate TakesCid(s: State, a: Action) {
    a.CreateStep? && a.ok && a.g in s.gs.creates && s.gs.creates[a.g].Leased?
  }

  function NextCid(counter: nat): nat {
    (counter + 1) % TWO_32
  }

  function WorldStep(w: World, p: PoolId, a: Action): World {
    if p !in w.pools then w
    else
      var s := w.pools[p];
      if TakesCid(s, a) then
        World(NextCid(w.counter), PoolSteps(w.pools, p, a.(cid := NextCid(w.counter))),
              w.log + [(p, s.gs.creates[a.g].name)])
      else w.(pools := PoolSteps(w.pools, p, a))
  }

  function PoolSteps(pools: map<PoolId, State>, p: PoolId, a: Action): map<PoolId, State>
    requires p in pools
  {
    pools[p := Step(pools[p], a)]
  }

  /** Any interleaving of the pools' steps. */
  function WorldExec(w: World, schedule: seq<(PoolId, Action)>): World {
    if schedule == [] then w
    else
      var last := schedule[|schedule| - 1];
      WorldStep(WorldExec(w, schedule[..|schedule| - 1]), last.0, last.1)
  }

  function CidAt(k: nat): nat {
    (3 + k) % TWO_32
  }

  ghost predicate Logged(w: World, k: nat)
    requires k < |w.log|
  {
    var (p, n) := w.log[k];
    p in w.pools && n in w.pools[p].hist.cidOf && w.pools[p].hist.cidOf[n] == CidAt(k)
  }

  ghost predicate PoolsSound(pools: map<PoolId, State>) {
    forall p | p in pools :: Inv(pools[p])
  }

  /** The log lists, without repetition, exactly the names that have a CID, and the k-th has CidAt(k). */
  ghost predicate LogSound(w: World) {
    && w.counter == (2 + |w.log|) % TWO_32
    && (forall k | 0 <= k < |w.log| :: Logged(w, k))
    && (forall j, k | 0 <= j < k < |w.log| :: w.log[j] != w.log[k])
    && (forall p, n | p in w.pools && n in w.pools[p].hist.cidOf :: (p, n) in w.log)
  }

  lemma CidFrame(s: State, a: Action)
    ensures !TakesCid(s, a) ==> Step(s, a).hist.cidOf == s.hist.cidOf
    ensures TakesCid(s, a) ==> Step(s, a).hist.cidOf == s.hist.cidOf[s.gs.creates[a.g].name := a.cid]
  {
    match a
    case LoopStep(wake) => if !s.loop.Spawning? { LoopFrame(s, wake); }
    case CreateStep(g, ok, name, cid) =>
    case DeleteStep(g, ok, name) => DeleteFrame(s, g, ok, name);
    case CleanupStep(g, timeout) => CleanupFrame(s, g, timeout);
    case _ =>
  }

  lemma TakerIsNew(s: State, a: Action)
    requires Inv(s) && TakesCid(s, a)
    ensures s.gs.creates[a.g].name !in s.hist.cidOf
  {
  }

  lemma OneChanges(pools: map<PoolId, State>, p: PoolId, s: State)
    requires PoolsSound(pools) && Inv(s)
    ensures PoolsSound(pools[p := s])
  {
    var after := pools[p := s];
    forall q | q in after ensures Inv(after[q]) {
      assert after[q] == if q == p then s else pools[q];
    }
  }

  lemma OneSteps(pools: map<PoolId, State>, p: PoolId, a: Action)
    requires PoolsSound(pools) && p in pools
    ensures PoolsSound(PoolSteps(pools, p, a))
  {
    var s := pools[p];
    StepKeeps(s, a);
    OneChanges(pools, p, Step(s, a));
  }

  lemma NextIsCidAt(counter: nat, k: nat)
    requires counter == (2 + k) % TWO_32
    ensures NextCid(counter) == CidAt(k) == (2 + (k + 1)) % TWO_32
  {
  }

  lemma TakeKeepsLog(w: World, p: PoolId, a: Action)
    requires LogSound(w) && p in w.pools && TakesCid(w.pools[p], a)
    requires w.pools[p].gs.creates[a.g].name !in w.pools[p].hist.cidOf
    ensures LogSound(WorldStep(w, p, a))
  {
    var t := WorldStep(w, p, a);
    var n := w.pools[p].gs.creates[a.g].name;
    NextIsCidAt(w.counter, |w.log|);
    CidFrame(w.pools[p], a.(cid := CidAt(|w.log|)));
    forall k | 0 <= k < |t.log| ensures Logged(t, k) && (k < |w.log| ==> w.log[k] != (p, n)) {
      if k < |w.log| { assert Logged(w, k); }
    }
    forall q, m | q in t.pools && m in t.pools[q].hist.cidOf ensures (q, m) in t.log {
      if (q, m) != (p, n) {
        assert (q, m) in w.log;
      } else {
        assert t.log[|w.log|] == (q, m);
      }
    }
  }

  lemma OtherKeepsLog(w: World, p: PoolId, a: Action)
    requires LogSound(w) && p in w.pools && !TakesCid(w.pools[p], a)
    ensures LogSound(WorldStep(w, p, a))
  {
    var t := WorldStep(w, p, a);
    CidFrame(w.pools[p], a);
    forall k | 0 <= k < |t.log| ensures Logged(t, k) {
      assert Logged(w, k);
    }
  }

  lemma {:induction false} WorldReachable(configs: map<PoolId, int>, schedule: seq<(PoolId, Action)>)
    ensures var w := WorldExec(InitWorld(configs), schedule); PoolsSound(w.pools) && LogSound(w)
    decreases |schedule|
  {
    if schedule == [] {
      forall p | p in configs ensures Inv(Init(configs[p])) {
        InitHolds(configs[p]);
      }
    } else {
      var n := |schedule| - 1;
      var (p, a) := schedule[n];
      var w := WorldExec(InitWorld(configs), schedule[..n]);
      WorldReachable(configs, schedule[..n]);
      if p in w.pools {
        if TakesCid(w.pools[p], a) {
          OneSteps(w.pools, p, a.(cid := NextCid(w.counter)));
          TakerIsNew(w.pools[p], a);
          TakeKeepsLog(w, p, a);
        } else {
          OneSteps(w.pools, p, a);
          OtherKeepsLog(w, p, a);
        }
      }
    }
  }

  lemma LogReachable(configs: map<PoolId, int>, schedule: seq<(PoolId, Action)>)
    ensures LogSound(WorldExec(InitWorld(configs), schedule))
  {
    WorldReachable(configs, schedule);
  }

  /** CID c belongs to the create, the VM or the map entry of name n in pool p. */
  ghost predicate HasCidIn(w: World, p: PoolId, n: Name, c: nat) {
    p in w.pools && n in w.pools[p].hist.cidOf && w.pools[p].hist.cidOf[n] == c
  }

  lemma LogIndex(w: World, p: PoolId, n: Name, c: nat) returns (k: nat)
    requires LogSound(w) && HasCidIn(w, p, n, c)
    ensures k < |w.log| && w.log[k] == (p, n) && c == CidAt(k)
  {
    assert (p, n) in w.log;
    k :| k < |w.log| && w.log[k] == (p, n);
    assert Logged(w, k);
  }

  lemma SmallCid(k: nat)
    requires k < TWO_32 - 3
    ensures CidAt(k) == 3 + k
  {
  }

  /** In every interleaving of all pools, as long as at most 2^32 - 3 CIDs were handed out, all are at
      least 3 and no two creates of any pools got the same one. */
  lemma CidsUnique(configs: map<PoolId, int>, schedule: seq<(PoolId, Action)>,
                   p: PoolId, n: Name, q: PoolId, m: Name, c: nat)
    requires var w := WorldExec(InitWorld(configs), schedule);
      |w.log| <= TWO_32 - 3 && HasCidIn(w, p, n, c) && HasCidIn(w, q, m, c)
    ensures c >= 3 && p == q && n == m
  {
    hide WorldExec, InitWorld, LogSound, HasCidIn, CidAt;
    var w := WorldExec(InitWorld(configs), schedule);
    LogReachable(configs, schedule);
    var j := LogIndex(w, p, n, c);
    var k := LogIndex(w, q, m, c);
    SmallCid(j);
    SmallCid(k);
  }

  /** So two entries of any machine maps never share one. */
  lemma MachinesNeverShareCid(configs: map<PoolId, int>, schedule: seq<(PoolId, Action)>,
                              p: PoolId, n: Name, q: PoolId, m: Name)
    requires var w := WorldExec(InitWorld(configs), schedule);
      && |w.log| <= TWO_32 - 3
      && p in w.pools && q in w.pools
      && n in w.pools[p].mem.machines && m in w.pools[q].mem.machines
      && w.pools[p].mem.machines[n] == w.pools[q].mem.machines[m]
    ensures p == q && n == m
  {
    var w := WorldExec(InitWorld(configs), schedule);
    WorldReachable(configs, schedule);
    EntryCid(w.pools[p], n);
    EntryCid(w.pools[q], m);
    CidsUnique(configs, schedule, p, n, q, m, w.pools[p].mem.machines[n].cid);
  }

  lemma EntryCid(s: State, n: Name)
    requires Inv(s) && n in s.mem.machines
    ensures n in s.hist.cidOf && s.hist.cidOf[n] == s.mem.machines[n].cid
  {
  }

  /** The bound is exact: the next CID after those is 0. */
  lemma CidsUsableIff(configs: map<PoolId, int>, schedule: seq<(PoolId, Action)>)
    ensures var w := WorldExec(InitWorld(configs), schedule);
      (forall p, n, c | HasCidIn(w, p, n, c) :: c >= 3) <==> |w.log| <= TWO_32 - 3
  {
    var w := WorldExec(InitWorld(configs), schedule);
    LogReachable(configs, schedule);
    if |w.log| <= TWO_32 - 3 {
      forall p, n, c | HasCidIn(w, p, n, c) ensures c >= 3 {
        CidsUnique(configs, schedule, p, n, p, n, c);
      }
    } else {
      var k := TWO_32 - 3;
      assert Logged(w, k) && CidAt(k) == 0;
      assert HasCidIn(w, w.log[k].0, w.log[k].1, 0);
    }
  }
}
