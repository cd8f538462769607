/** What every reachable state of the pool satisfies. */
module PoolInvariants {
  import opened Int32
  import opened Counting
  import opened PoolMachine

  // ----- What a goroutine in a given phase holds

  predicate HoldsLease(c: Create) {
    !c.Spawned? && !c.Checked? && !c.Returned?
  }

  predicate CleanupHoldsLease(k: Cleanup) {
    k.phase != LeaseGone
  }

  predicate HasCid(c: Create) {
    c.Booting? || c.Started? || c.Inserted?
  }

  predicate BeforeUnmap(k: Cleanup) {
    k.phase == Waiting || k.phase == Woken
  }

  type Creates = map<Gid, Create>
  type Cleanups = map<Gid, Cleanup>

  /** Goroutine g is answerable for the lease of n. */
  predicate Holds(cs: Creates, ks: Cleanups, g: Gid, n: Name) {
    || (g in cs && HoldsLease(cs[g]) && cs[g].name == n)
    || (g in ks && CleanupHoldsLease(ks[g]) && ks[g].name == n)
  }

  /** Goroutine g is the live owner of the map entry n. */
  predicate OwnsEntry(cs: Creates, ks: Cleanups, g: Gid, n: Name) {
    || (g in cs && cs[g].Inserted? && cs[g].name == n)
    || (g in ks && BeforeUnmap(ks[g]) && ks[g].name == n)
  }

  // ----- The invariant. Each part names the components of the state it speaks of.

  ghost predicate GidsFresh(gs: Goroutines) {
    && gs.creates.Keys !! gs.cleanups.Keys
    && (forall g | g in gs.creates :: g < gs.nextGid)
    && (forall g | g in gs.deletes :: g < gs.nextGid)
    && (forall g | g in gs.cleanups :: g < gs.nextGid)
  }

  /** A pending counter is the number of live goroutines, as an int32, and none is unaccounted for. */
  ghost predicate Exact(counter: int, live: nat, t: Tally) {
    && counter == ToInt32(live)
    && t.spawned == t.succeeded + t.failed + t.skipped + live
  }

  ghost predicate LeasesOwned(cs: Creates, ks: Cleanups, owner: map<Name, Gid>, cancelled: set<Name>) {
    && (forall g | g in cs && HoldsLease(cs[g]) ::
          cs[g].name in owner && owner[cs[g].name] == g && cs[g].name !in cancelled)
    && (forall g | g in ks ::
          && ks[g].name in owner && owner[ks[g].name] == g
          && (ks[g].name !in cancelled <==> CleanupHoldsLease(ks[g])))
    && cancelled <= owner.Keys
    && (forall n {:trigger Holds(cs, ks, owner[n], n)} | n in owner && n !in cancelled :: Holds(cs, ks, owner[n], n))
  }

  ghost predicate LeasesCounted(cs: Creates, ks: Cleanups, owner: map<Name, Gid>, cancelled: set<Name>, calls: nat) {
    && |owner| == calls + Count(cs, HoldsLease) + Count(ks, CleanupHoldsLease)
    && calls == |cancelled|
  }

  ghost predicate VmsTracked(cs: Creates, ks: Cleanups, owner: map<Name, Gid>, cancelled: set<Name>,
                             started: set<Name>, exited: set<Name>, ctxDone: bool)
  {
    && started <= owner.Keys
    && exited <= started
    && (forall g | g in cs && HoldsLease(cs[g]) ::
          cs[g].name in started <==> cs[g].Started? || cs[g].Inserted?)
    && (forall g | g in ks ::
          ks[g].name in started && (ks[g].phase != Waiting ==> ks[g].name in exited || ctxDone))
    && (forall n | n in cancelled && n in started :: n in exited || ctxDone)
  }

  /** Every machine ever inserted is in the map, or was taken by a delete, or was unmapped by its
      cleanup goroutine, and only one of the three. */
  ghost predicate EntriesSplit(machines: map<Name, Machine>, inserted: set<Name>, takenBy: map<Name, Gid>,
                               unmapped: set<Name>, started: set<Name>)
  {
    && inserted <= started
    && inserted == machines.Keys + takenBy.Keys + unmapped
    && machines.Keys !! takenBy.Keys
    && machines.Keys !! unmapped
    && takenBy.Keys !! unmapped
  }

  ghost predicate EntriesOwned(cs: Creates, ks: Cleanups, owner: map<Name, Gid>,
                               machines: map<Name, Machine>, inserted: set<Name>)
  {
    && (forall g | g in cs && HoldsLease(cs[g]) :: cs[g].name in inserted <==> cs[g].Inserted?)
    && (forall g | g in ks ::
          ks[g].name in inserted && (!BeforeUnmap(ks[g]) ==> ks[g].name !in machines))
    && (forall n {:trigger OwnsEntry(cs, ks, owner[n], n)} | n in machines ::
          n in owner && OwnsEntry(cs, ks, owner[n], n))
  }

  /** Nobody but its own cleanup goroutine, past that step, has unmapped a machine. */
  ghost predicate UnmapsOwned(cs: Creates, ks: Cleanups, unmapped: set<Name>) {
    && (forall g | g in cs && HoldsLease(cs[g]) :: cs[g].name !in unmapped)
    && (forall g | g in ks && BeforeUnmap(ks[g]) :: ks[g].name !in unmapped)
  }

  ghost predicate TakesOwned(ds: map<Gid, Delete>, takenBy: map<Name, Gid>) {
    forall g | g in ds && ds[g].Took? :: ds[g].name in takenBy && takenBy[ds[g].name] == g
  }

  ghost predicate CidsRecorded(cs: Creates, owner: map<Name, Gid>, machines: map<Name, Machine>,
                               cidOf: map<Name, nat>)
  {
    && cidOf.Keys <= owner.Keys
    && (forall g | g in cs && cs[g].Leased? :: cs[g].name !in cidOf)
    && (forall g | g in cs && HasCid(cs[g]) :: cs[g].name in cidOf && cidOf[cs[g].name] == cs[g].cid)
    && (forall n | n in machines :: n in cidOf && cidOf[n] == machines[n].cid)
  }

  /** The loop has read the latest stored value, or something will make it read again. */
  ghost predicate RequestNotLost(s: State) {
    || s.loop.Exited?
    || s.hist.readAt == s.hist.stores
    || s.mem.scaleTrigger
    || s.loop.Starting? || s.loop.Got? || s.loop.Passed?
    || s.gs.callers != {}
  }

  ghost predicate LoopSound(s: State) {
    && (s.hist.readAt == s.hist.stores ==> s.hist.lastRead == s.mem.replicas)
    && s.hist.readAt <= s.hist.stores
    && (s.loop.Spawning? ==> s.loop.done <= Ups(s.loop.plan) + Downs(s.loop.plan))
    && (!s.mem.ctxDone <==> s.gs.stop == NotStopped)
    && (!s.mem.ctxDone ==> !s.mem.stopCh && !s.loop.Exited?)
  }

  ghost predicate Leases(s: State) {
    var h := s.hist;
    && GidsFresh(s.gs)
    && LeasesOwned(s.gs.creates, s.gs.cleanups, h.owner, h.cancelled)
    && VmsTracked(s.gs.creates, s.gs.cleanups, h.owner, h.cancelled, h.started, h.exited, s.mem.ctxDone)
  }

  ghost predicate Entries(s: State) {
    var h := s.hist;
    && EntriesSplit(s.mem.machines, h.inserted, h.takenBy, h.unmapped, h.started)
    && EntriesOwned(s.gs.creates, s.gs.cleanups, h.owner, s.mem.machines, h.inserted)
    && UnmapsOwned(s.gs.creates, s.gs.cleanups, h.unmapped)
    && TakesOwned(s.gs.deletes, h.takenBy)
    && CidsRecorded(s.gs.creates, h.owner, s.mem.machines, h.cidOf)
  }

  ghost predicate Counts(s: State) {
    && Exact(s.mem.pendingCreates, |s.gs.creates|, s.hist.creates)
    && Exact(s.mem.pendingDeletes, |s.gs.deletes|, s.hist.deletes)
  }

  ghost predicate LeaseBook(s: State) {
    LeasesCounted(s.gs.creates, s.gs.cleanups, s.hist.owner, s.hist.cancelled, s.hist.cancelCalls)
  }

  ghost predicate Control(s: State) {
    RequestNotLost(s) && LoopSound(s)
  }

  ghost predicate Inv(s: State) {
    Leases(s) && Entries(s) && Counts(s) && LeaseBook(s) && Control(s)
  }

  /** The holder of each lease, for the lemmas below to find. */
  lemma AllHeld(cs: Creates, ks: Cleanups, owner: map<Name, Gid>, cancelled: set<Name>)
    requires forall n {:trigger Holds(cs, ks, owner[n], n)} | n in owner && n !in cancelled ::
      Holds(cs, ks, owner[n], n)
    ensures forall n {:trigger n in owner} | n in owner && n !in cancelled :: Holds(cs, ks, owner[n], n)
  {
    forall n | n in owner && n !in cancelled ensures Holds(cs, ks, owner[n], n) {
      assert Holds(cs, ks, owner[n], n);
    }
  }

  /** The owner of each entry, likewise. */
  lemma AllOwned(cs: Creates, ks: Cleanups, owner: map<Name, Gid>, machines: map<Name, Machine>)
    requires forall n {:trigger OwnsEntry(cs, ks, owner[n], n)} | n in machines ::
      n in owner && OwnsEntry(cs, ks, owner[n], n)
    requires machines.Keys <= owner.Keys
    ensures forall n {:trigger n in machines} | n in machines :: OwnsEntry(cs, ks, owner[n], n)
  {
    forall n | n in machines ensures OwnsEntry(cs, ks, owner[n], n) {
      assert OwnsEntry(cs, ks, owner[n], n);
    }
  }

  // ----- Each step of a create goroutine keeps the ownership part, phase by phase

  lemma SpawnedKeepsLeases(s: State, g: Gid, ok: bool, name: Name, cid: nat)
    requires Leases(s) && g in s.gs.creates && s.gs.creates[g].Spawned?
    ensures Leases(CreateNext(s, g, ok, name, cid))
  {
    AllHeld(s.gs.creates, s.gs.cleanups, s.hist.owner, s.hist.cancelled);
  }

  lemma SpawnedKeepsEntries(s: State, g: Gid, ok: bool, name: Name, cid: nat)
    requires Leases(s) && Entries(s) && g in s.gs.creates && s.gs.creates[g].Spawned?
    ensures Entries(CreateNext(s, g, ok, name, cid))
  {
    hide VmsTracked, TakesOwned, EntriesSplit, LeasesOwned;
    AllOwned(s.gs.creates, s.gs.cleanups, s.hist.owner, s.mem.machines);
  }

  lemma CheckedKeepsLeases(s: State, g: Gid, ok: bool, name: Name, cid: nat)
    requires Leases(s) && g in s.gs.creates && s.gs.creates[g].Checked?
    ensures Leases(CreateNext(s, g, ok, name, cid))
  {
    var t := CreateNext(s, g, ok, name, cid);
    forall n | n in t.hist.owner && n !in t.hist.cancelled
      ensures Holds(t.gs.creates, t.gs.cleanups, t.hist.owner[n], n)
    {
      if n in s.hist.owner { assert Holds(s.gs.creates, s.gs.cleanups, s.hist.owner[n], n); }
    }
  }

  lemma CheckedKeepsEntries(s: State, g: Gid, ok: bool, name: Name, cid: nat)
    requires Leases(s) && Entries(s) && g in s.gs.creates && s.gs.creates[g].Checked?
    ensures Entries(CreateNext(s, g, ok, name, cid))
  {
    var t := CreateNext(s, g, ok, name, cid);
    forall n | n in t.mem.machines
      ensures n in t.hist.owner && OwnsEntry(t.gs.creates, t.gs.cleanups, t.hist.owner[n], n)
    {
      assert OwnsEntry(s.gs.creates, s.gs.cleanups, s.hist.owner[n], n);
    }
  }

  lemma LeasedKeepsLeases(s: State, g: Gid, ok: bool, name: Name, cid: nat)
    requires Leases(s) && g in s.gs.creates && s.gs.creates[g].Leased?
    ensures Leases(CreateNext(s, g, ok, name, cid))
  {
    AllHeld(s.gs.creates, s.gs.cleanups, s.hist.owner, s.hist.cancelled);
  }

  lemma LeasedRecords(s: State, g: Gid, ok: bool, name: Name, cid: nat)
    requires Leases(s) && Entries(s) && g in s.gs.creates && s.gs.creates[g].Leased?
    ensures var t := CreateNext(s, g, ok, name, cid);
      CidsRecorded(t.gs.creates, t.hist.owner, t.mem.machines, t.hist.cidOf)
  {
    hide VmsTracked, TakesOwned, UnmapsOwned;
  }

  lemma LeasedKeepsEntries(s: State, g: Gid, ok: bool, name: Name, cid: nat)
    requires Leases(s) && Entries(s) && g in s.gs.creates && s.gs.creates[g].Leased?
    ensures Entries(CreateNext(s, g, ok, name, cid))
  {
    hide VmsTracked, TakesOwned, EntriesSplit, LeasesOwned;
    LeasedRecords(s, g, ok, name, cid);
    AllOwned(s.gs.creates, s.gs.cleanups, s.hist.owner, s.mem.machines);
  }

  lemma BootingKeepsLeases(s: State, g: Gid, ok: bool, name: Name, cid: nat)
    requires Leases(s) && g in s.gs.creates && s.gs.creates[g].Booting?
    ensures Leases(CreateNext(s, g, ok, name, cid))
  {
    AllHeld(s.gs.creates, s.gs.cleanups, s.hist.owner, s.hist.cancelled);
  }

  lemma BootingStarts(s: State, g: Gid, ok: bool, name: Name, cid: nat)
    requires g in s.gs.creates && s.gs.creates[g].Booting?
    ensures var t := CreateNext(s, g, ok, name, cid);
      var c := s.gs.creates[g];
      && t.mem == s.mem && t.hist == s.hist.(started := t.hist.started) && s.hist.started <= t.hist.started
      && t.gs == s.gs.(creates := s.gs.creates[g := if ok then Started(c.name, c.cid) else Failing(c.name)])
  {
    hide ToInt32;
  }

  lemma BootingKeepsEntries(s: State, g: Gid, ok: bool, name: Name, cid: nat)
    requires Leases(s) && Entries(s) && g in s.gs.creates && s.gs.creates[g].Booting?
    ensures Entries(CreateNext(s, g, ok, name, cid))
  {
    hide VmsTracked, TakesOwned, LeasesOwned, CreateNext;
    BootingStarts(s, g, ok, name, cid);
    AllOwned(s.gs.creates, s.gs.cleanups, s.hist.owner, s.mem.machines);
  }

  lemma FailingKeepsLeases(s: State, g: Gid, ok: bool, name: Name, cid: nat)
    requires Leases(s) && g in s.gs.creates && s.gs.creates[g].Failing?
    ensures Leases(CreateNext(s, g, ok, name, cid))
  {
    AllHeld(s.gs.creates, s.gs.cleanups, s.hist.owner, s.hist.cancelled);
  }

  lemma FailingKeepsEntries(s: State, g: Gid, ok: bool, name: Name, cid: nat)
    requires Leases(s) && Entries(s) && g in s.gs.creates && s.gs.creates[g].Failing?
    ensures Entries(CreateNext(s, g, ok, name, cid))
  {
    hide VmsTracked, TakesOwned, EntriesSplit, LeasesOwned;
    AllOwned(s.gs.creates, s.gs.cleanups, s.hist.owner, s.mem.machines);
  }

  lemma StartedKeepsLeases(s: State, g: Gid, ok: bool, name: Name, cid: nat)
    requires Leases(s) && g in s.gs.creates && s.gs.creates[g].Started?
    ensures Leases(CreateNext(s, g, ok, name, cid))
  {
    AllHeld(s.gs.creates, s.gs.cleanups, s.hist.owner, s.hist.cancelled);
  }

  lemma InsertSplits(machines: map<Name, Machine>, inserted: set<Name>, takenBy: map<Name, Gid>,
                     unmapped: set<Name>, started: set<Name>, n: Name, m: Machine)
    requires EntriesSplit(machines, inserted, takenBy, unmapped, started) && n in started && n !in inserted
    ensures EntriesSplit(machines[n := m], inserted + {n}, takenBy, unmapped, started)
  {
    assert machines[n := m].Keys == machines.Keys + {n};
  }

  lemma StartedKeepsEntries(s: State, g: Gid, ok: bool, name: Name, cid: nat)
    requires Leases(s) && Entries(s) && g in s.gs.creates && s.gs.creates[g].Started?
    ensures Entries(CreateNext(s, g, ok, name, cid))
  {
    hide TakesOwned, EntriesSplit;
    var c := s.gs.creates[g];
    var h := s.hist;
    InsertSplits(s.mem.machines, h.inserted, h.takenBy, h.unmapped, h.started, c.name, Machine(c.cid));
    AllOwned(s.gs.creates, s.gs.cleanups, s.hist.owner, s.mem.machines);
  }

  lemma InsertedKeepsLeases(s: State, g: Gid, ok: bool, name: Name, cid: nat)
    requires Leases(s) && g in s.gs.creates && s.gs.creates[g].Inserted?
    ensures Leases(CreateNext(s, g, ok, name, cid))
  {
    AllHeld(s.gs.creates, s.gs.cleanups, s.hist.owner, s.hist.cancelled);
  }

  lemma InsertedKeepsEntries(s: State, g: Gid, ok: bool, name: Name, cid: nat)
    requires Leases(s) && Entries(s) && g in s.gs.creates && s.gs.creates[g].Inserted?
    ensures Entries(CreateNext(s, g, ok, name, cid))
  {
    hide VmsTracked, TakesOwned, EntriesSplit, LeasesOwned;
    AllOwned(s.gs.creates, s.gs.cleanups, s.hist.owner, s.mem.machines);
  }

  lemma ReturnedKeepsLeases(s: State, g: Gid, ok: bool, name: Name, cid: nat)
    requires Leases(s) && g in s.gs.creates && s.gs.creates[g].Returned?
    ensures Leases(CreateNext(s, g, ok, name, cid))
  {
    hide ToInt32;
    AllHeld(s.gs.creates, s.gs.cleanups, s.hist.owner, s.hist.cancelled);
  }

  lemma ReturnedKeepsEntries(s: State, g: Gid, ok: bool, name: Name, cid: nat)
    requires Leases(s) && Entries(s) && g in s.gs.creates && s.gs.creates[g].Returned?
    ensures Entries(CreateNext(s, g, ok, name, cid))
  {
    hide ToInt32, VmsTracked, TakesOwned, EntriesSplit, LeasesOwned;
    AllOwned(s.gs.creates, s.gs.cleanups, s.hist.owner, s.mem.machines);
  }

  lemma CreateKeepsOwnership(s: State, g: Gid, ok: bool, name: Name, cid: nat)
    requires Leases(s) && Entries(s)
    ensures Leases(CreateNext(s, g, ok, name, cid)) && Entries(CreateNext(s, g, ok, name, cid))
  {
    if g in s.gs.creates {
      match s.gs.creates[g]
      case Spawned =>
        SpawnedKeepsLeases(s, g, ok, name, cid);
        SpawnedKeepsEntries(s, g, ok, name, cid);
      case Checked =>
        CheckedKeepsLeases(s, g, ok, name, cid);
        CheckedKeepsEntries(s, g, ok, name, cid);
      case Leased(_) =>
        LeasedKeepsLeases(s, g, ok, name, cid);
        LeasedKeepsEntries(s, g, ok, name, cid);
      case Booting(_, _) =>
        BootingKeepsLeases(s, g, ok, name, cid);
        BootingKeepsEntries(s, g, ok, name, cid);
      case Failing(_) =>
        FailingKeepsLeases(s, g, ok, name, cid);
        FailingKeepsEntries(s, g, ok, name, cid);
      case Started(_, _) =>
        StartedKeepsLeases(s, g, ok, name, cid);
        StartedKeepsEntries(s, g, ok, name, cid);
      case Inserted(_, _) =>
        InsertedKeepsLeases(s, g, ok, name, cid);
        InsertedKeepsEntries(s, g, ok, name, cid);
      case Returned(_) =>
        ReturnedKeepsLeases(s, g, ok, name, cid);
        ReturnedKeepsEntries(s, g, ok, name, cid);
    }
  }

  // ----- Each step of a cleanup goroutine keeps it

  lemma WaitingKeepsLeases(s: State, g: Gid, timeout: bool)
    requires Leases(s) && g in s.gs.cleanups && s.gs.cleanups[g].phase == Waiting
    ensures Leases(CleanupNext(s, g, timeout))
  {
    AllHeld(s.gs.creates, s.gs.cleanups, s.hist.owner, s.hist.cancelled);
  }

  lemma WaitingKeepsEntries(s: State, g: Gid, timeout: bool)
    requires Leases(s) && Entries(s) && g in s.gs.cleanups && s.gs.cleanups[g].phase == Waiting
    ensures Entries(CleanupNext(s, g, timeout))
  {
    hide VmsTracked, TakesOwned, EntriesSplit;
    AllOwned(s.gs.creates, s.gs.cleanups, s.hist.owner, s.mem.machines);
  }

  lemma WokenKeepsLeases(s: State, g: Gid, timeout: bool)
    requires Leases(s) && g in s.gs.cleanups && s.gs.cleanups[g].phase == Woken
    ensures Leases(CleanupNext(s, g, timeout))
  {
    AllHeld(s.gs.creates, s.gs.cleanups, s.hist.owner, s.hist.cancelled);
  }

  lemma UnmapSplits(machines: map<Name, Machine>, inserted: set<Name>, takenBy: map<Name, Gid>,
                    unmapped: set<Name>, started: set<Name>, n: Name)
    requires EntriesSplit(machines, inserted, takenBy, unmapped, started)
    ensures EntriesSplit(machines - {n}, inserted, takenBy,
      if n in machines then unmapped + {n} else unmapped, started)
  {
    assert (machines - {n}).Keys == machines.Keys - {n};
  }

  lemma WokenUnmaps(s: State, g: Gid, timeout: bool)
    requires Leases(s) && Entries(s) && g in s.gs.cleanups && s.gs.cleanups[g].phase == Woken
    ensures var t := CleanupNext(s, g, timeout); UnmapsOwned(t.gs.creates, t.gs.cleanups, t.hist.unmapped)
  {
    hide TakesOwned, CidsRecorded, EntriesOwned, EntriesSplit;
  }

  lemma WokenKeepsEntries(s: State, g: Gid, timeout: bool)
    requires Leases(s) && Entries(s) && g in s.gs.cleanups && s.gs.cleanups[g].phase == Woken
    ensures Entries(CleanupNext(s, g, timeout))
  {
    hide VmsTracked, TakesOwned, EntriesSplit, UnmapsOwned;
    var h := s.hist;
    UnmapSplits(s.mem.machines, h.inserted, h.takenBy, h.unmapped, h.started, s.gs.cleanups[g].name);
    WokenUnmaps(s, g, timeout);
    AllOwned(s.gs.creates, s.gs.cleanups, s.hist.owner, s.mem.machines);
  }

  lemma UnmappedKeepsLeases(s: State, g: Gid, timeout: bool)
    requires Leases(s) && g in s.gs.cleanups && s.gs.cleanups[g].phase == Unmapped
    ensures Leases(CleanupNext(s, g, timeout))
  {
    AllHeld(s.gs.creates, s.gs.cleanups, s.hist.owner, s.hist.cancelled);
  }

  lemma UnmappedKeepsEntries(s: State, g: Gid, timeout: bool)
    requires Leases(s) && Entries(s) && g in s.gs.cleanups && s.gs.cleanups[g].phase == Unmapped
    ensures Entries(CleanupNext(s, g, timeout))
  {
    hide VmsTracked, TakesOwned, EntriesSplit;
    AllOwned(s.gs.creates, s.gs.cleanups, s.hist.owner, s.mem.machines);
  }

  lemma RunnerGoneKeepsLeases(s: State, g: Gid, timeout: bool)
    requires Leases(s) && g in s.gs.cleanups && s.gs.cleanups[g].phase == RunnerGone
    ensures Leases(CleanupNext(s, g, timeout))
  {
    AllHeld(s.gs.creates, s.gs.cleanups, s.hist.owner, s.hist.cancelled);
  }

  lemma RunnerGoneKeepsEntries(s: State, g: Gid, timeout: bool)
    requires Leases(s) && Entries(s) && g in s.gs.cleanups && s.gs.cleanups[g].phase == RunnerGone
    ensures Entries(CleanupNext(s, g, timeout))
  {
    hide VmsTracked, TakesOwned, EntriesSplit;
    AllOwned(s.gs.creates, s.gs.cleanups, s.hist.owner, s.mem.machines);
  }

  lemma LeaseGoneKeepsLeases(s: State, g: Gid, timeout: bool)
    requires Leases(s) && g in s.gs.cleanups && s.gs.cleanups[g].phase == LeaseGone
    ensures Leases(CleanupNext(s, g, timeout))
  {
    AllHeld(s.gs.creates, s.gs.cleanups, s.hist.owner, s.hist.cancelled);
  }

  lemma LeaseGoneKeepsEntries(s: State, g: Gid, timeout: bool)
    requires Leases(s) && Entries(s) && g in s.gs.cleanups && s.gs.cleanups[g].phase == LeaseGone
    ensures Entries(CleanupNext(s, g, timeout))
  {
    hide VmsTracked, TakesOwned, EntriesSplit;
    AllOwned(s.gs.creates, s.gs.cleanups, s.hist.owner, s.mem.machines);
  }

  lemma CleanupKeepsOwnership(s: State, g: Gid, timeout: bool)
    requires Leases(s) && Entries(s)
    ensures Leases(CleanupNext(s, g, timeout)) && Entries(CleanupNext(s, g, timeout))
  {
    if g in s.gs.cleanups {
      match s.gs.cleanups[g].phase
      case Waiting =>
        WaitingKeepsLeases(s, g, timeout);
        WaitingKeepsEntries(s, g, timeout);
      case Woken =>
        WokenKeepsLeases(s, g, timeout);
        WokenKeepsEntries(s, g, timeout);
      case Unmapped =>
        UnmappedKeepsLeases(s, g, timeout);
        UnmappedKeepsEntries(s, g, timeout);
      case RunnerGone =>
        RunnerGoneKeepsLeases(s, g, timeout);
        RunnerGoneKeepsEntries(s, g, timeout);
      case LeaseGone =>
        LeaseGoneKeepsLeases(s, g, timeout);
        LeaseGoneKeepsEntries(s, g, timeout);
    }
  }

  // ----- So do the steps of the delete goroutines and of Scale

  lemma TakeKeepsEntries(s: State, g: Gid, ok: bool, name: Name)
    requires Entries(s) && g in s.gs.deletes && s.gs.deletes[g].DeleteChecked? && name in s.mem.machines
    ensures Entries(DeleteNext(s, g, ok, name))
  {
    var t := DeleteNext(s, g, ok, name);
    assert t.mem.machines == s.mem.machines - {name};
    forall n | n in t.mem.machines
      ensures n in t.hist.owner && OwnsEntry(t.gs.creates, t.gs.cleanups, t.hist.owner[n], n)
    {
      assert OwnsEntry(s.gs.creates, s.gs.cleanups, s.hist.owner[n], n);
    }
  }

  lemma DeleteKeepsRest(s: State, g: Gid, ok: bool, name: Name)
    ensures var t := DeleteNext(s, g, ok, name);
      && t.gs == s.gs.(deletes := t.gs.deletes)
      && t.mem == s.mem.(machines := t.mem.machines, pendingDeletes := t.mem.pendingDeletes)
      && t.hist == s.hist.(takenBy := t.hist.takenBy, deletes := t.hist.deletes)
      && t.loop == s.loop
  {
    hide ToInt32;
  }

  lemma DeleteSpawnsNone(s: State, g: Gid, ok: bool, name: Name)
    ensures DeleteNext(s, g, ok, name).gs.deletes.Keys <= s.gs.deletes.Keys
  {
    hide ToInt32;
  }

  lemma DeleteFrame(s: State, g: Gid, ok: bool, name: Name)
    ensures var t := DeleteNext(s, g, ok, name);
      && t.gs == s.gs.(deletes := t.gs.deletes)
      && t.mem == s.mem.(machines := t.mem.machines, pendingDeletes := t.mem.pendingDeletes)
      && t.hist == s.hist.(takenBy := t.hist.takenBy, deletes := t.hist.deletes)
      && t.gs.deletes.Keys <= s.gs.deletes.Keys && t.loop == s.loop
  {
    hide DeleteNext;
    DeleteKeepsRest(s, g, ok, name);
    DeleteSpawnsNone(s, g, ok, name);
  }

  lemma DeleteKeepsLeases(s: State, g: Gid, ok: bool, name: Name)
    requires Leases(s)
    ensures Leases(DeleteNext(s, g, ok, name))
  {
    DeleteFrame(s, g, ok, name);
  }

  lemma OtherDeleteKeepsEntries(s: State, g: Gid, ok: bool, name: Name)
    requires Entries(s) && !(g in s.gs.deletes && s.gs.deletes[g].DeleteChecked? && name in s.mem.machines)
    ensures Entries(DeleteNext(s, g, ok, name))
  {
    hide ToInt32, EntriesSplit, EntriesOwned, CidsRecorded;
    assert DeleteNext(s, g, ok, name).mem.machines == s.mem.machines;
  }

  lemma DeleteKeepsEntries(s: State, g: Gid, ok: bool, name: Name)
    requires Entries(s)
    ensures Entries(DeleteNext(s, g, ok, name))
  {
    hide Entries, DeleteNext;
    if g in s.gs.deletes && s.gs.deletes[g].DeleteChecked? && name in s.mem.machines {
      TakeKeepsEntries(s, g, ok, name);
    } else {
      OtherDeleteKeepsEntries(s, g, ok, name);
    }
  }

  lemma SpawnKeepsLeases(s: State, plan: Plan, done: nat)
    requires Leases(s)
    ensures Leases(SpawnNext(s, plan, done))
  {
    var t := SpawnNext(s, plan, done);
    forall n | n in t.hist.owner && n !in t.hist.cancelled
      ensures Holds(t.gs.creates, t.gs.cleanups, t.hist.owner[n], n)
    {
      assert Holds(s.gs.creates, s.gs.cleanups, s.hist.owner[n], n);
    }
  }

  lemma SpawnKeepsEntries(s: State, plan: Plan, done: nat)
    requires Leases(s) && Entries(s)
    ensures Entries(SpawnNext(s, plan, done))
  {
    var t := SpawnNext(s, plan, done);
    forall n | n in t.mem.machines
      ensures n in t.hist.owner && OwnsEntry(t.gs.creates, t.gs.cleanups, t.hist.owner[n], n)
    {
      assert OwnsEntry(s.gs.creates, s.gs.cleanups, s.hist.owner[n], n);
    }
  }

  // ----- The counts

  lemma OneLess(counter: int, live: nat, t: Tally, o: Outcome)
    requires Exact(counter, live + 1, t)
    ensures Exact(ToInt32(counter - 1), live, Finish(t, o))
  {
    AddWraps(live + 1, -1);
  }

  lemma OneMore(counter: int, live: nat, t: Tally)
    requires Exact(counter, live, t)
    ensures Exact(ToInt32(counter + 1), live + 1, t.(spawned := t.spawned + 1))
  {
    AddWraps(live, 1);
  }

  lemma CreateFrame(s: State, g: Gid, ok: bool, name: Name, cid: nat)
    requires g in s.gs.creates && !s.gs.creates[g].Returned?
    ensures var t := CreateNext(s, g, ok, name, cid);
      && |t.gs.creates| == |s.gs.creates|
      && t.gs.deletes == s.gs.deletes
      && t.mem == s.mem.(machines := t.mem.machines)
      && t.hist.creates == s.hist.creates && t.hist.deletes == s.hist.deletes
  {
    var t := CreateNext(s, g, ok, name, cid);
    assert t.gs.creates.Keys == s.gs.creates.Keys;
    assert |t.gs.creates| == |t.gs.creates.Keys|;
  }

  lemma CreateReturns(s: State, g: Gid, ok: bool, name: Name, cid: nat)
    requires g in s.gs.creates && s.gs.creates[g].Returned?
    ensures var t := CreateNext(s, g, ok, name, cid);
      && |t.gs.creates| + 1 == |s.gs.creates|
      && t.gs.deletes == s.gs.deletes
      && t.mem == s.mem.(pendingCreates := ToInt32(s.mem.pendingCreates - 1))
      && t.hist == s.hist.(creates := Finish(s.hist.creates, s.gs.creates[g].outcome))
  {
    SizeRemove(s.gs.creates, g);
  }

  lemma LiveCreateKeepsCounts(s: State, g: Gid, ok: bool, name: Name, cid: nat)
    requires Counts(s) && g in s.gs.creates
    ensures Counts(CreateNext(s, g, ok, name, cid))
  {
    hide Exact, CreateNext;
    if s.gs.creates[g].Returned? {
      var live := |CreateNext(s, g, ok, name, cid).gs.creates|;
      CreateReturns(s, g, ok, name, cid);
      OneLess(s.mem.pendingCreates, live, s.hist.creates, s.gs.creates[g].outcome);
    } else {
      CreateFrame(s, g, ok, name, cid);
    }
  }

  lemma CreateKeepsCounts(s: State, g: Gid, ok: bool, name: Name, cid: nat)
    requires Counts(s)
    ensures Counts(CreateNext(s, g, ok, name, cid))
  {
    hide Exact;
    if g in s.gs.creates {
      LiveCreateKeepsCounts(s, g, ok, name, cid);
    }
  }

  lemma DeleteReturns(s: State, g: Gid, ok: bool, name: Name)
    requires g in s.gs.deletes && s.gs.deletes[g].DeleteReturned?
    ensures var t := DeleteNext(s, g, ok, name);
      && |t.gs.deletes| + 1 == |s.gs.deletes|
      && t.mem == s.mem.(pendingDeletes := ToInt32(s.mem.pendingDeletes - 1))
      && t.hist == s.hist.(deletes := Finish(s.hist.deletes, s.gs.deletes[g].outcome))
  {
    SizeRemove(s.gs.deletes, g);
  }

  lemma DeleteGoesOn(s: State, g: Gid, ok: bool, name: Name)
    requires g in s.gs.deletes && !s.gs.deletes[g].DeleteReturned?
    ensures var t := DeleteNext(s, g, ok, name);
      && |t.gs.deletes| == |s.gs.deletes|
      && t.mem.pendingDeletes == s.mem.pendingDeletes
      && t.hist.deletes == s.hist.deletes
  {
    var t := DeleteNext(s, g, ok, name);
    assert t.gs.deletes.Keys == s.gs.deletes.Keys;
    assert |t.gs.deletes| == |t.gs.deletes.Keys|;
  }

  lemma DeleteKeepsCounts(s: State, g: Gid, ok: bool, name: Name)
    requires Counts(s)
    ensures Counts(DeleteNext(s, g, ok, name))
  {
    hide ToInt32;
    DeleteFrame(s, g, ok, name);
    var t := DeleteNext(s, g, ok, name);
    if g in s.gs.deletes && s.gs.deletes[g].DeleteReturned? {
      DeleteReturns(s, g, ok, name);
      OneLess(s.mem.pendingDeletes, |t.gs.deletes|, s.hist.deletes, s.gs.deletes[g].outcome);
    } else if g in s.gs.deletes {
      DeleteGoesOn(s, g, ok, name);
    }
  }

  lemma SpawnAdds(s: State, plan: Plan, done: nat)
    requires GidsFresh(s.gs)
    ensures var t := SpawnNext(s, plan, done);
      && (done < Ups(plan) ==>
            && |t.gs.creates| == |s.gs.creates| + 1
            && t.mem == s.mem.(pendingCreates := ToInt32(s.mem.pendingCreates + 1))
            && t.hist == s.hist.(creates := s.hist.creates.(spawned := s.hist.creates.spawned + 1)))
      && (done >= Ups(plan) ==> t.gs.creates == s.gs.creates)
      && (Ups(plan) <= done < Downs(plan) ==>
            && |t.gs.deletes| == |s.gs.deletes| + 1
            && t.mem == s.mem.(pendingDeletes := ToInt32(s.mem.pendingDeletes + 1))
            && t.hist == s.hist.(deletes := s.hist.deletes.(spawned := s.hist.deletes.spawned + 1)))
      && (!(Ups(plan) <= done < Downs(plan)) ==> t.gs.deletes == s.gs.deletes)
      && (done >= Ups(plan) && done >= Downs(plan) ==> t == s.(loop := Selecting))
  {
  }

  lemma SpawnKeepsCounts(s: State, plan: Plan, done: nat)
    requires Counts(s) && GidsFresh(s.gs)
    ensures Counts(SpawnNext(s, plan, done))
  {
    SpawnAdds(s, plan, done);
    OneMore(s.mem.pendingCreates, |s.gs.creates|, s.hist.creates);
    OneMore(s.mem.pendingDeletes, |s.gs.deletes|, s.hist.deletes);
  }

  /** How one step changes the number of creates that hold a lease. */
  lemma CreateLeaseDelta(s: State, g: Gid, ok: bool, name: Name, cid: nat)
    requires GidsFresh(s.gs) && g in s.gs.creates
    ensures var c := s.gs.creates[g];
      var t := CreateNext(s, g, ok, name, cid);
      && Count(t.gs.creates, HoldsLease) ==
           Count(s.gs.creates, HoldsLease)
           + (if c.Checked? && ok && name !in s.hist.owner then 1 else 0)
           - (if c.Failing? || c.Inserted? then 1 else 0)
      && Count(t.gs.cleanups, CleanupHoldsLease) ==
           Count(s.gs.cleanups, CleanupHoldsLease) + (if c.Inserted? then 1 else 0)
  {
    var c := s.gs.creates[g];
    var t := CreateNext(s, g, ok, name, cid);
    if c.Returned? {
      CountRemove(s.gs.creates, HoldsLease, g);
    } else {
      CountUpdate(s.gs.creates, HoldsLease, g, t.gs.creates[g]);
      assert t.gs.creates == s.gs.creates[g := t.gs.creates[g]];
    }
    if c.Inserted? {
      CountAdd(s.gs.cleanups, CleanupHoldsLease, s.gs.nextGid, Cleanup(c.name, Waiting));
    }
  }

  lemma CreateHistoryDelta(s: State, g: Gid, ok: bool, name: Name, cid: nat)
    requires g in s.gs.creates
    requires s.gs.creates[g].Failing? ==> s.gs.creates[g].name !in s.hist.cancelled
    requires s.gs.creates[g].Inserted? ==> s.gs.creates[g].name in s.hist.owner
    ensures var c := s.gs.creates[g];
      var h := CreateNext(s, g, ok, name, cid).hist;
      && |h.owner| == |s.hist.owner| + (if c.Checked? && ok && name !in s.hist.owner then 1 else 0)
      && h.cancelCalls == s.hist.cancelCalls + (if c.Failing? then 1 else 0)
      && |h.cancelled| == |s.hist.cancelled| + (if c.Failing? then 1 else 0)
  {
    hide ToInt32;
  }

  lemma CreateKeepsLeaseBook(s: State, g: Gid, ok: bool, name: Name, cid: nat)
    requires LeaseBook(s) && GidsFresh(s.gs)
    requires LeasesOwned(s.gs.creates, s.gs.cleanups, s.hist.owner, s.hist.cancelled)
    ensures LeaseBook(CreateNext(s, g, ok, name, cid))
  {
    if g in s.gs.creates {
      CreateLeaseDelta(s, g, ok, name, cid);
      CreateHistoryDelta(s, g, ok, name, cid);
    }
  }

  lemma CleanupFrame(s: State, g: Gid, timeout: bool)
    ensures var t := CleanupNext(s, g, timeout);
      && t.gs == s.gs.(cleanups := t.gs.cleanups)
      && t.mem == s.mem.(machines := t.mem.machines)
      && t.hist == s.hist.(unmapped := t.hist.unmapped, cancelled := t.hist.cancelled,
                           cancelCalls := t.hist.cancelCalls)
      && t.loop == s.loop
  {
  }

  lemma CleanupLeaseDelta(s: State, g: Gid, timeout: bool)
    requires g in s.gs.cleanups
    ensures Count(CleanupNext(s, g, timeout).gs.cleanups, CleanupHoldsLease) ==
      Count(s.gs.cleanups, CleanupHoldsLease) - (if s.gs.cleanups[g].phase == RunnerGone then 1 else 0)
  {
    var t := CleanupNext(s, g, timeout);
    if s.gs.cleanups[g].phase == LeaseGone {
      CountRemove(s.gs.cleanups, CleanupHoldsLease, g);
    } else {
      CountUpdate(s.gs.cleanups, CleanupHoldsLease, g, t.gs.cleanups[g]);
      assert t.gs.cleanups == s.gs.cleanups[g := t.gs.cleanups[g]];
    }
  }

  lemma CleanupKeepsLeaseBook(s: State, g: Gid, timeout: bool)
    requires LeaseBook(s)
    requires LeasesOwned(s.gs.creates, s.gs.cleanups, s.hist.owner, s.hist.cancelled)
    ensures LeaseBook(CleanupNext(s, g, timeout))
  {
    if g in s.gs.cleanups {
      CleanupLeaseDelta(s, g, timeout);
      CleanupFrame(s, g, timeout);
    }
  }

  lemma SpawnKeepsLeaseBook(s: State, plan: Plan, done: nat)
    requires LeaseBook(s) && GidsFresh(s.gs)
    ensures LeaseBook(SpawnNext(s, plan, done))
  {
    CountAdd(s.gs.creates, HoldsLease, s.gs.nextGid, Spawned);
  }

  // ----- The loop, the callers and Stop

  lemma LoopKeepsRequest(s: State, wake: Wake)
    requires RequestNotLost(s)
    ensures RequestNotLost(LoopNext(s, wake))
  {
    hide ToInt32, Ups, Downs;
  }

  lemma SpawnStaysSound(s: State)
    requires LoopSound(s) && s.loop.Spawning?
    ensures LoopSound(SpawnNext(s, s.loop.plan, s.loop.done))
  {
    hide ToInt32;
  }

  lemma LoopStaysSound(s: State, wake: Wake)
    requires LoopSound(s)
    ensures LoopSound(LoopNext(s, wake))
  {
    hide ToInt32, SpawnNext;
    if s.loop.Spawning? {
      SpawnStaysSound(s);
    }
  }

  lemma LoopKeepsControl(s: State, wake: Wake)
    requires Control(s)
    ensures Control(LoopNext(s, wake))
  {
    hide LoopNext, RequestNotLost, LoopSound;
    LoopKeepsRequest(s, wake);
    LoopStaysSound(s, wake);
  }

  lemma CreateControlFrame(s: State, g: Gid, ok: bool, name: Name, cid: nat)
    ensures var t := CreateNext(s, g, ok, name, cid);
      && t.loop == s.loop
      && t.gs == s.gs.(creates := t.gs.creates, cleanups := t.gs.cleanups, nextGid := t.gs.nextGid)
      && t.mem == s.mem.(machines := t.mem.machines, pendingCreates := t.mem.pendingCreates)
      && t.hist.readAt == s.hist.readAt && t.hist.stores == s.hist.stores && t.hist.lastRead == s.hist.lastRead
  {
  }

  lemma StepKeepsControl(s: State, a: Action)
    requires Control(s)
    ensures Control(Step(s, a))
  {
    if a.LoopStep? {
      LoopKeepsControl(s, a.wake);
    } else if a.CreateStep? {
      CreateControlFrame(s, a.g, a.ok, a.name, a.cid);
    } else if a.DeleteStep? {
      DeleteFrame(s, a.g, a.ok, a.name);
    } else if a.CleanupStep? {
      CleanupFrame(s, a.g, a.timeout);
    }
  }

  /** Steps that touch no goroutine table, machine map, counter or lease. */
  lemma FrameKeeps(s: State, t: State)
    requires Leases(s) && Entries(s) && Counts(s) && LeaseBook(s)
    requires t.gs.creates == s.gs.creates && t.gs.deletes == s.gs.deletes && t.gs.cleanups == s.gs.cleanups
    requires t.gs.nextGid == s.gs.nextGid
    requires t.mem.machines == s.mem.machines && (s.mem.ctxDone ==> t.mem.ctxDone)
    requires t.mem.pendingCreates == s.mem.pendingCreates && t.mem.pendingDeletes == s.mem.pendingDeletes
    requires s.hist.exited <= t.hist.exited <= t.hist.started
    requires t.hist == s.hist.(exited := t.hist.exited, stores := t.hist.stores, readAt := t.hist.readAt,
                               lastRead := t.hist.lastRead)
    ensures Leases(t) && Entries(t) && Counts(t) && LeaseBook(t)
  {
  }

  lemma LoopFrame(s: State, wake: Wake)
    requires !s.loop.Spawning?
    ensures var t := LoopNext(s, wake);
      && t.gs == s.gs
      && t.mem == s.mem.(scaleTrigger := t.mem.scaleTrigger, stopCh := t.mem.stopCh)
      && t.hist == s.hist.(readAt := t.hist.readAt, lastRead := t.hist.lastRead)
  {
  }

  lemma SpawnKeeps(s: State, plan: Plan, done: nat)
    requires Leases(s) && Entries(s) && Counts(s) && LeaseBook(s)
    ensures var t := SpawnNext(s, plan, done); Leases(t) && Entries(t) && Counts(t) && LeaseBook(t)
  {
    SpawnKeepsLeases(s, plan, done);
    SpawnKeepsEntries(s, plan, done);
    SpawnKeepsCounts(s, plan, done);
    SpawnKeepsLeaseBook(s, plan, done);
  }

  lemma LoopKeeps(s: State, wake: Wake)
    requires Leases(s) && Entries(s) && Counts(s) && LeaseBook(s)
    ensures var t := LoopNext(s, wake); Leases(t) && Entries(t) && Counts(t) && LeaseBook(t)
  {
    hide SpawnNext, Entries, Counts, LeaseBook, LeasesOwned;
    if s.loop.Spawning? {
      assert LoopNext(s, wake) == SpawnNext(s, s.loop.plan, s.loop.done);
      SpawnKeeps(s, s.loop.plan, s.loop.done);
    } else {
      LoopFrame(s, wake);
      FrameKeeps(s, LoopNext(s, wake));
    }
  }

  predicate TouchesNoGoroutine(a: Action) {
    a.VmExit? || a.Store? || a.Trigger? || a.SetActive? || a.StopStep?
  }

  lemma StopFrame(s: State, timeout: bool)
    ensures var t := StopNext(s, timeout);
      && t.gs == s.gs.(stop := t.gs.stop) && t.hist == s.hist && t.loop == s.loop
      && t.mem == s.mem.(ctxDone := t.mem.ctxDone, stopCh := t.mem.stopCh) && (s.mem.ctxDone ==> t.mem.ctxDone)
  {
  }

  lemma OtherFrame(s: State, a: Action)
    requires TouchesNoGoroutine(a) && s.hist.exited <= s.hist.started
    ensures var t := Step(s, a);
      && t.gs == s.gs.(callers := t.gs.callers, stop := t.gs.stop)
      && t.mem.machines == s.mem.machines && (s.mem.ctxDone ==> t.mem.ctxDone)
      && t.mem.pendingCreates == s.mem.pendingCreates && t.mem.pendingDeletes == s.mem.pendingDeletes
      && s.hist.exited <= t.hist.exited <= t.hist.started
      && t.hist == s.hist.(exited := t.hist.exited, stores := t.hist.stores)
  {
    hide ToInt32, CreateNext, DeleteNext, CleanupNext, LoopNext, StopNext;
    if a.StopStep? {
      StopFrame(s, a.timeout);
    }
  }

  lemma OtherKeeps(s: State, a: Action)
    requires Leases(s) && Entries(s) && Counts(s) && LeaseBook(s) && TouchesNoGoroutine(a)
    ensures var t := Step(s, a); Leases(t) && Entries(t) && Counts(t) && LeaseBook(t)
  {
    assert s.hist.exited <= s.hist.started;
    OtherFrame(s, a);
    FrameKeeps(s, Step(s, a));
  }

  lemma StepKeeps(s: State, a: Action)
    requires Inv(s)
    ensures Inv(Step(s, a))
  {
    StepKeepsControl(s, a);
    match a
    case LoopStep(wake) => LoopKeeps(s, wake);
    case CreateStep(g, ok, name, cid) =>
      CreateKeepsOwnership(s, g, ok, name, cid);
      CreateKeepsCounts(s, g, ok, name, cid);
      CreateKeepsLeaseBook(s, g, ok, name, cid);
    case DeleteStep(g, ok, name) =>
      DeleteKeepsLeases(s, g, ok, name);
      DeleteKeepsEntries(s, g, ok, name);
      DeleteKeepsCounts(s, g, ok, name);
      DeleteFrame(s, g, ok, name);
    case CleanupStep(g, timeout) =>
      CleanupKeepsOwnership(s, g, timeout);
      CleanupFrame(s, g, timeout);
      CleanupKeepsLeaseBook(s, g, timeout);
    case _ => OtherKeeps(s, a);
  }

  lemma InitOwnership(replicas: int)
    ensures Leases(Init(replicas)) && Entries(Init(replicas))
  {
  }

  lemma InitLeaseBook(replicas: int)
    ensures LeaseBook(Init(replicas))
  {
  }

  lemma InitCounts(replicas: int)
    ensures Counts(Init(replicas))
  {
  }

  lemma InitControl(replicas: int)
    ensures Control(Init(replicas))
  {
  }

  lemma InitHolds(replicas: int)
    ensures Inv(Init(replicas))
  {
    InitOwnership(replicas);
    InitCounts(replicas);
    InitLeaseBook(replicas);
    InitControl(replicas);
  }

  lemma {:induction false} RunKeeps(s: State, schedule: seq<Action>)
    requires Inv(s)
    ensures Inv(Exec(s, schedule))
    decreases |schedule|
  {
    if schedule != [] {
      var n := |schedule| - 1;
      RunKeeps(s, schedule[..n]);
      StepKeeps(Exec(s, schedule[..n]), schedule[n]);
    }
  }

  /** The invariant holds in every reachable state of every pool. */
  lemma Reachable(replicas: int, schedule: seq<Action>)
    ensures Inv(Exec(Init(replicas), schedule))
  {
    InitHolds(replicas);
    RunKeeps(Init(replicas), schedule);
  }
}
