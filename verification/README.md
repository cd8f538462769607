# Fireactions: pools, log tailing and listings

This project models the concurrent core of Fireactions, a server that keeps pools of Firecracker
virtual machines running as GitHub Actions runners, and proves properties of the model.

- **The pool controller** (`server/pool.go`). `PoolMachine` is a transition system in which every
  access to the machine map, every atomic operation, every channel operation and every external call
  is one step of the loop, of a create, delete or cleanup goroutine, of a caller, or of `Stop`. The
  environment chooses the schedule, the outcome of external calls, VM exits, RPC calls and shutdown.
  `PoolInvariants` proves what every step keeps; `PoolTheorems`, `PoolScaling`,
  `PoolRequests`, `PoolSelfCorrection`, `PoolOvershoot` and `PoolShutdown` prove the properties of all
  runs. `PoolController` is the code itself, class `Pool` over the shared fields: each atomic step of its
  methods extends a ghost schedule, other threads run in between, and the fields always are what that
  schedule makes of a new pool. So every theorem about schedules is a theorem about the class. What a
  goroutine asks of containerd, Firecracker and GitHub is in its log of calls (`PoolOutside`); the
  answers are fixed beforehand, so nothing but a call that fails can be the cause of a failure.
- **The log tailer** (`agent/tail/tail.go`, `agent/rpc.go`). `Lines` and `TailLast` define lines, what
  a scanner makes of them, and the last lines of a file found from an estimate. `FollowMachine` is the
  tail goroutine as a transition system: a buffered scanner that reads any number of bytes at a time,
  a watcher's event queue, writers, rotation, a receiver and `Stop`. `FollowInvariants` and
  `FollowWatch` prove what every step keeps, `FollowTheorems`, `FollowSeek`, `FollowEnds`,
  `FollowDelivery`, `FollowShutdown` and `FollowReadOnce` the properties of all runs. `TailReader` is
  the code up to the event loop, class `Tail`, over a file that does not change during a call;
  `FollowRefinesRead` ties the two together.
  `AgentLogs` is `GetLogs`. When Stop is called, when the client leaves and which message cannot be sent
  are fixed beforehand, so nothing else can be the cause of an early end.
- **The cross-pool layer** (`server/rpc.go`, `server/server.go`). `Listing` gathers, sorts, converts in
  parallel and collects; `CidAllocation` is the CID counter all pools share; `Locks` is the order in
  which locks are taken and what is accessed under them.

Machine integers are explicit: the pending counters and the replica count wrap at 32 bits (`Int32`),
the CID counter at 2^32. File sizes, line counts and offsets are 64-bit in the program and unbounded
here.

## Where the code does something else than one expects

- *Shutdown.* One expects that, when the cleanup WaitGroup is at zero and no create is between its
  map insert and its `cleanupWg.Add`, every started machine's lease has been cancelled. That is false:
  a create that has started its VM and not yet inserted it holds a lease too. `WaitGroupZero` gives the
  exact set of leases left, and `StopMayReturnEarly` a run in which `Stop` returns cleanly and a
  running machine then enters the map. In that run `cleanupWg.Add` is also concurrent with a `Wait` at
  zero, which the WaitGroup's documentation does not allow.
- *Tail -n.* The estimate of 100 bytes a line is right in more cases than "every line is short":
  `TailExactIff` gives the exact condition, on the sum of the last n lines, with its one exception.
- *Rounds.* Following keeps the lines of the whole file exactly when no scan round ends inside a line
  (`RoundsKeepLinesIff`, `FollowKeepsLinesIff`); a partial line that is read before its end is written
  is delivered in two pieces. The text, without its terminators, is conserved in any case.
- *Counters.* They count the live goroutines exactly as long as fewer than 2^31 are alive.
- *Printing.* The stream of a whole log is the file with its last line ended exactly when the scanner
  drops no CR from it (`WholeLogIff`).
- *Watching.* No wakeup is lost as long as the watch is on the open file, whatever happened to earlier
  watches (`NoLostWakeup`), and exactly then: under a misplaced watch the loop goes idle with the
  watched file unread (`MissesNothingIff`, `OtherFileIsNotRead`, and the concrete run
  `RacedWatchLosesALine`). The watch is misplaced if and only if the open file was moved away between
  being opened and being watched (`MisplacedIffRotated`).
- *Reopening.* The loop ends up on the file that is at the path if and only if it was on track: on Linux
  a removal that is never reported, because the file is still open, leaves it on the removed file for
  good (`EverythingIsDelivered`).
- *Listing.* The pools and names in a listing are the same in the same places for all orders of
  iteration and completion even if names repeat; the machines behind them if and only if no two
  different ones share both (`OneListingIff`).
- *Races.* What a lock guards is used under it, with one exception: `Stop` logs the number of machines
  without the lock (`server/pool.go:201`). `RacesOnlyWithPeek` shows that two uses of the same data
  meet only there, `StopRaces` a run in which they do.
- *Scaling.* One expects a pool not to grow past its desired size. It can: a create that inserts its
  machine and finishes between the reads of Scale is counted nowhere, and a delete that has not taken
  its machine yet is counted as if it had. `ScaleOvershoot` bounds the size until the next plan, and
  `OvershootTight` attains the bound from every state.

## Model

| member | source | states |
|---|---|---|
| Int32.ToInt32Congruent | server/pool.go:361-364 | what is stored for any integer is in the int32 range and congruent to it modulo 2^32, so a value that fits is stored as it is |
| Int32.AddWraps | server/pool.go:281-284 | counting with wrapping after every addition equals wrapping the exact count once |
| PoolInvariants.InitHolds | server/pool.go:89-107 | a new pool, for every configured replica count, satisfies the invariant |
| PoolInvariants.StepKeeps | server/pool.go:130-629 | every step of the loop, a create, a delete, a cleanup, a caller, a VM or Stop keeps the whole invariant: ownership of leases and entries, counters, lease bookkeeping, requests |
| PoolInvariants.Reachable | server/pool.go:130-629 | hence it holds after every schedule |
| PoolTheorems.CounterExactness | server/pool.go:280-317 | in every reachable state the pending counters equal the numbers of live create and delete goroutines if and only if those are below 2^31, and spawned = succeeded + failed + skipped + live |
| PoolTheorems.LeaseConservation | server/pool.go:422-437 | leases acquired = cancel calls + leases held by creates + leases held by cleanups, and no cancel function is called twice |
| PoolTheorems.LeaseHeldOnce | server/pool.go:429-597 | a lease is uncancelled exactly if some goroutine holds it, and never two do |
| PoolTheorems.LeaseOutlivesVm | server/pool.go:563-591 | while the pool is not stopping, a cancelled lease belongs to a VM that never started or has exited |
| PoolRequests.LeaseOutlivesVmInTime | server/pool.go:563-591 | also while it is stopping, as long as no cleanup goroutine runs into its 30 seconds |
| PoolTheorems.EntryOwnership | server/pool.go:549-580 | every map entry has exactly one live owner, and the map's size is inserts less delete removals less cleanup removals |
| PoolTheorems.NeverReappears | server/pool.go:549-619 | an entry that has left the map is in it after no continuation of the run |
| PoolTheorems.TakenOnce | server/pool.go:601-619 | no two delete goroutines ever take the same machine |
| PoolTheorems.InsertsAfterCancel | server/pool.go:286-290 | after the context is cancelled at most as many machines are inserted as creates had passed their context check |
| PoolTheorems.WaitGroupZero | server/pool.go:222-232 | with the cleanup WaitGroup at zero, remaining entries belong to creates between insert and Add, and the uncancelled leases of started machines are exactly those of creates between start and Add |
| PoolTheorems.StopMayReturnEarly | server/pool.go:183-235 | a concrete run in which Stop returns cleanly and a running machine with an uncancelled lease enters the map afterwards |
| PoolTheorems.NoRequestLost | server/pool.go:361-372 | with any number of concurrent SetReplicas calls: the loop has read the latest value, or a token is there, or the loop is on its way to the read, or a caller is before its trigger |
| PoolTheorems.TokenIsServed | server/pool.go:136-156 | with any steps of others before the receive, before the stop check and before the read: a token makes the loop exit, if it is to stop at that check, or read the value stored last of all |
| PoolRequests.PausedStaysIdle | server/pool.go:167-170 | from any state of a paused pool whose loop is not inside Scale: until it is resumed, whatever else happens, the loop does not enter Scale and no create and no delete is started |
| PoolRequests.ActiveScales | server/pool.go:167-173 | from the read of the count the loop enters Scale if and only if the pool is active, and with that count |
| PoolRequests.TokensAreSpent | server/pool.go:137-139 | each call of TriggerScale wakes the loop at most once, in every run |
| PoolRequests.StopWaitsForLoop | server/pool.go:195-220 | unless it runs into a time limit, Stop looks at the machines only after the loop has exited, and returns cleanly |
| PoolRequests.NoneStartedAfterStop | server/pool.go:195-216 | so after that no create and no delete is started |
| PoolRequests.SignalIsNotLost | server/pool.go:187-193 | once Stop has signalled, the signal is there until the loop has exited |
| PoolRequests.ConfiguredSizeIsReached | server/pool.go:89-107 | a new pool configured with n machines, n below 2^31, has exactly n after draining, one round and draining again, and the next round starts nothing |
| PoolScaling.NeverPassesTarget | server/pool.go:257-315 | effective size plus creates less deletes started is the desired size, or as near as the machines seen allow, and always between the two; at most that many deletes start |
| PoolScaling.StaleReadBound | server/pool.go:253-259 | in every interleaving of the three reads the effective size is off the projected size by at least -(undecided creates + finished but uncounted deletes) and at most finished but uncounted creates + undecided deletes |
| PoolScaling.ExactWhenIdle | server/pool.go:253-259 | it is the size when no create and no delete is in flight |
| PoolScaling.StaleReadTight | server/pool.go:253-259 | both bounds are attained by some interleaving from every reachable state about to read |
| PoolOvershoot.StepKeepsPromise | server/pool.go:257-302 | machines, undecided creates and creates the plan has yet to start together are raised by no step of any goroutine, a VM, a caller or Stop, but by the loop's next plan |
| PoolOvershoot.ScaleOvershoot | server/pool.go:253-302 | so in every interleaving, with fewer than 2^31 creates and deletes alive, until that next plan the pool has at most the desired size plus the creates undecided and the deletes alive at the first read, or the size plus the creates undecided then if that is more |
| PoolOvershoot.OvershootTight | server/pool.go:253-302 | from every reachable state about to read, of a pool that is not stopping, some run takes the pool to exactly that size |
| PoolSelfCorrection.QuietDecreases | server/pool.go:243-629 | every step of a quiet run that changes anything decreases a well-founded measure |
| PoolSelfCorrection.QuietEnabled | server/pool.go:243-629 | unless the pool has settled some quiet step changes it, so quiet runs settle |
| PoolSelfCorrection.Drain | server/pool.go:243-629 | from every reachable state of a live pool there is a quiet run that settles |
| PoolSelfCorrection.SelfCorrection | server/pool.go:243-629 | after draining, one round and draining again, in any order and even when StopVMM fails, the pool has exactly max(replicas, 0) machines and the next round starts nothing |
| PoolSelfCorrection.CanSelfCorrect | server/pool.go:243-629 | such runs exist from every reachable state of an active pool |
| PoolShutdown.WindsDown | server/pool.go:183-235 | with a cancelled context every step that changes anything, also of VMs and of Stop, brings the pool closer to its end by a well-founded measure |
| PoolShutdown.CanWind | server/pool.go:183-235 | until no goroutine is alive, no call is under way and Stop has returned, some step changes the state |
| PoolShutdown.NothingIsLeft | server/pool.go:549-597 | with no create and no cleanup alive the map is empty, every lease ever acquired is cancelled, and every machine ever inserted was taken by a delete or unmapped |
| PoolShutdown.PoolWindsDown | server/pool.go:183-235 | so from every reachable state of a cancelled pool it winds down to that end |
| PoolController.Pool.constructor | server/pool.go:89-107 | a new pool is the initial state of the transition system |
| PoolController.Pool.YieldAs | server/pool.go:283-302 | what a goroutine may rely on while others run: its own record, and that nothing done is undone |
| PoolController.Pool.TriggerScale | server/pool.go:367-372 | leaves a token whether or not there was one, called by Run at its start or by a caller of SetReplicas |
| PoolController.Pool.SetReplicas | server/pool.go:361-364 | the int32 is stored first, others run, a token is there at the end, and the request is visible to the loop |
| PoolController.Pool.Pause | server/pool.go:341-348 | the pool is inactive afterwards; a paused pool is left alone |
| PoolController.Pool.Resume | server/pool.go:351-358 | the pool is active afterwards; an active one is left alone |
| PoolController.Pool.ScaleUp | server/pool.go:276-304 | starts exactly as many creates as planned, whatever runs in between |
| PoolController.Pool.ScaleDown | server/pool.go:306-338 | starts the planned deletes, never more than the machines the call saw |
| PoolController.Pool.Measure | server/pool.go:253-259 | the three reads with interference between them yield an effective size within the stale-read bound of a state the run passed through |
| PoolController.Pool.Scale | server/pool.go:243-274 | does nothing when the context is done; otherwise starts exactly the planned creates and deletes for an effective size within that bound |
| PoolController.Pool.Receive | server/pool.go:137-153 | exits at once on a stop signal or a done context, and otherwise if and only if at the later moment of the check the context is done or a stop signal is there |
| PoolController.Pool.ReadReplicas | server/pool.go:155-170 | reads the count stored at that moment, and goes on to Scale if and only if the pool is active at the later moment of that check |
| PoolController.Pool.RunOnce | server/pool.go:136-179 | the loop exits exactly then; an iteration that does not exit has read the outcome of every store made before it began, and has called Scale, for the count read and with the plan's creates and deletes, if and only if the pool was active where it looked |
| PoolController.Pool.RunCreate | server/pool.go:283-302 | a create goroutine is skipped exactly if the context was done at its check, and fails exactly if an external call did; it is gone and uncounted at its end |
| PoolController.Pool.CreateMachine | server/pool.go:410-597 | the external calls made are those of the plan, in its order, up to the first that fails, and it fails if and only if one does; an error leaves no lease uncancelled; on success the machine was put in the map with its CID, is there unless a delete has taken it, and lease and entry belong to one waiting cleanup goroutine |
| PoolController.Pool.FailWithLease | server/pool.go:429-437 | a failure under the lease makes the call that cancels it, and nothing else |
| PoolController.Pool.InsertMachine | server/pool.go:549-556 | the same for the map insert and the registration of the cleanup goroutine, with interference between them |
| PoolController.Pool.RunDelete | server/pool.go:317-335 | as RunCreate, for deletes: it succeeds exactly if the StopVMM of the machine it took did |
| PoolController.Pool.DeleteMachine | server/pool.go:600-629 | fails without a target exactly if the map was empty; otherwise StopVMM is called for just the machine it took, which is out of the map for good and taken by it alone, and it fails if and only if that call does |
| PoolController.Pool.CleanUp | server/pool.go:575-594 | the entry is out of the map, the runner is removed from GitHub if it was registered, and the lease, which nobody has cancelled before, is cancelled, in this order of calls |
| PoolController.Pool.RunCleanup | server/pool.go:556-597 | nothing is done before the VM has exited or the pool is stopping; after that the same, and the goroutine is gone |
| PoolController.Pool.Stop | server/pool.go:183-235 | cancels the context first, calls StopVMM once for each of exactly the machines in the map at one later moment, and ends its wait cleanly if and only if no cleanup goroutine is alive at a still later one |
| CidAllocation.WorldReachable | server/server.go:92-143 | in every interleaving of all pools the pools keep their invariants and the k-th CID handed out is the k-th number from 3 on, modulo 2^32 |
| CidAllocation.CidsUnique | server/pool.go:462 | the first 2^32 - 3 CIDs, failed creates included, are at least 3 and pairwise distinct over all pools |
| CidAllocation.MachinesNeverShareCid | server/pool.go:483 | so no two map entries of any pools share one |
| CidAllocation.CidsUsableIff | server/server.go:92-93 | all CIDs are at least 3 if and only if no more than that were handed out |
| Locks.ProgramsOrdered | server/server.go:193-219 | every program of the server, with the GitHub client it calls, takes locks in rank order, releases what it holds, holds none while it waits for anything else, and accesses what a lock guards under it |
| Locks.NoWaitCycle | server/pool.go:244-253 | no reachable state of any number of goroutines has a cycle of lock waits |
| Locks.SomeoneCanMove | server/pool.go:380-384 | while a goroutine has work left, some goroutine can take its next step |
| Locks.ShortCriticalSections | server/pool.go:601-621 | under a machine map's lock, or the GitHub client's, there is at most one access left before it is released, and nobody waits for StopVMM under a lock |
| Locks.RacesOnlyWithPeek | server/pool.go:380-392 | no two goroutines are ever about to use the same guarded data, unless one is at the read without a lock |
| Locks.StopRaces | server/pool.go:201 | a concrete run in which Stop is at that read while another goroutine uses the machine map |
| Lines.FlattenRawLines | agent/tail/tail.go:131-137 | cutting a text after every LF loses nothing |
| Lines.TokensAppend | agent/tail/tail.go:131-137 | a text may be cut at a line end and scanned in parts |
| Lines.VisibleTokens | agent/tail/tail.go:131-137 | scanning drops nothing but CR and LF |
| Lines.RoundsConserveText | agent/tail/tail.go:202-232 | for every cutting of the bytes into scan rounds, the emitted text is the bytes without CR and LF |
| Lines.RoundsKeepLinesIff | agent/tail/tail.go:202-232 | the rounds emit the lines of the whole if and only if no round but the last with bytes is cut inside a line |
| TailLast.TailExactIff | agent/tail/tail.go:108-158 | the lines sent are the file's last n lines if and only if those take at most 100n bytes, or 100n + 1 with a first line of just CR LF |
| TailLast.ShortLinesAreTailed | agent/tail/tail.go:119-146 | in particular if each of them, with its terminator, takes at most 100 |
| TailLast.TailInGeneral | agent/tail/tail.go:108-158 | in any case they are the last min(n, k) of the k tokens after the estimate, whole lines of the file but possibly the first, and exactly the last n when k > n |
| FollowInvariants.TokenTaken | agent/tail/tail.go:202-208 | a buffered scanner's token is one raw line, or the rest once it reads no more |
| FollowInvariants.StepKeepsFlow | agent/tail/tail.go:160-303 | every step of the tail goroutine and its surroundings keeps the accounts: what was taken was sent or is being offered, the pieces follow one another, tailLines kept the last lines of what it read |
| FollowWatch.EventKeepsWatch | agent/tail/tail.go:222-245 | when a rotation is next in the queue, everything the watcher reported has been read |
| FollowWatch.StepKeepsWatch | agent/tail/tail.go:188-303 | every step keeps: unread reported bytes behind an ended scanner have a write event pending, before any rotation |
| FollowTheorems.SaysWhatItReads | agent/tail/tail.go:200-256 | in every run the texts sent and offered are exactly what fresh scanners make of the pieces, and the pieces together are the bytes read |
| FollowTheorems.FollowConservesText | agent/tail/tail.go:200-256 | in every run the text said is the bytes read without CR and LF, across rounds and rotations |
| FollowTheorems.FollowKeepsLinesIff | agent/tail/tail.go:200-256 | the lines said are the lines of the whole if and only if no round was cut inside a line |
| FollowTheorems.HandOver | agent/tail/tail.go:108-179 | the loop reads on at the byte where tailLines stopped, and what tailLines kept are the last lines up to there |
| FollowSeek.ShowsFromTheSeekOn | agent/tail/tail.go:93-158 | following or not: what is said begins with the last lines from the estimate for the file's size at the seek, and goes on from no earlier than the end it had there; or it is everything, if all lines were asked for |
| FollowSeek.ShowsLastLinesFirst | agent/tail/tail.go:93-158 | if nobody writes before the loop begins, it is TailOf of the file and then exactly what comes after |
| FollowSeek.FollowedLogShowsTail | agent/rpc.go:45-82 | so a followed log asked for its last n lines prints those first and then what is written, piece by piece |
| FollowTheorems.ReadOnceDelivers | agent/tail/tail.go:260-276 | without following, a run that ends undisturbed has sent everything from the hand-over to the end of file it saw |
| FollowTheorems.NoLostWakeup | agent/tail/tail.go:218-232 | whenever the loop waits with the open file watched and bytes of it unread, a write event is pending; after a watch has ended a rotation is, behind a write if bytes from before it are unread |
| FollowTheorems.IdleMeansDelivered | agent/tail/tail.go:200-256 | a loop that waits with nothing pending has some file watched, and if it is the open one has read all of it and sent it from the hand-over on |
| FollowTheorems.RotatedFileIsReadFirst | agent/tail/tail.go:233-240 | whatever happens around it, when the watch on the open file reports a rotation all that is in the file then is read before the first byte of the next one |
| FollowTheorems.RacedWatchLosesALine | agent/tail/tail.go:167-198 | a concrete run with the file replaced between open and watch: the loop waits, nothing is pending, a line is unread |
| FollowTheorems.MisplacedIffRotated | agent/tail/tail.go:167-198 | in every run, while the loop reads under a watch: the watch is on another file than the open one if and only if that open file was moved away after it was opened and before it was watched |
| FollowTheorems.OverlongMeansLongLine | agent/tail/tail.go:178-179 | a scanner gives up only if some file holds a stretch without LF as long as its buffer |
| FollowEnds.ErrorsHaveCauses | agent/tail/tail.go:165-198 | in every run there is an error if and only if a file was missing when it was opened or watched, or tailLines met a line too long |
| FollowEnds.EndsOnlyFor | agent/tail/tail.go:200-256 | a reader that follows and reopens is over only when stopped or with an error, an error is its end, and a reader that does not reopen stays with its file |
| FollowEnds.EveryErrorIsReported | agent/tail/tail.go:246-255 | unless a line was too long, every error of the watcher is sent exactly once, is being offered or is not taken yet; at the end the rest is dropped |
| FollowEnds.GiveUpIsReported | agent/tail/tail.go:210-216 | behind a scanner that gave up, the last item sent before the loop waits, or a single read ends, is a problem |
| FollowShutdown.TurnsAreBounded | agent/tail/tail.go:149-155 | after Stop every turn of the goroutine, with or without a receiver, uses up a measure to which the world adds only bounded amounts |
| FollowShutdown.StopEnds | agent/tail/tail.go:306-319 | so after that many turns it has closed its channel and called wg.Done, from every reachable state |
| FollowShutdown.CleanupReturns | agent/tail/tail.go:316-319 | without a receiver and with nothing else moving it is never stuck, so Cleanup returns |
| FollowDelivery.IdleInTime | agent/tail/tail.go:188-303 | with a receiver and a file at the path, from every state of the loop, also while a watch has ended or is still to be put, every run becomes idle within a bounded number of turns |
| FollowDelivery.EverythingIsDelivered | agent/tail/tail.go:188-303 | from every reachable state of the loop with a file at the path such runs exist; they end with that file open and watched if and only if the loop was on track, and then all of the open file is delivered, from the hand-over or its first byte |
| FollowDelivery.MissesNothingIff | agent/tail/tail.go:188-256 | in every reachable state under a watch: the watch is on the open file if and only if no continuation, while it lasts, leaves the loop idle with something of the watched file unread |
| FollowDelivery.OtherFileIsNotRead | agent/tail/tail.go:188-256 | from every reachable state under a watch, what is written to a file that is not open stays unread while the loop goes idle as it was |
| FollowReadOnce.ReadSizesDoNotMatter | agent/tail/tail.go:108-185 | for every size of the single reads and every pace of the receiver, reading an unchanging file once sends its last lines as TailOf says, or all its lines |
| FollowReadOnce.StreamedLogIff | agent/rpc.go:60-82 | printed as it comes, that is the file with its last line ended if and only if no CR stands before an LF or at the end |
| FollowRefinesRead.RunIsReads | agent/tail/tail.go:108-185 | however the reads cut an unchanging file up, a run that ends without being stopped has sent exactly the items of Reads, problems included, and has an error if and only if Reads has: the goroutine's steps refine the plain definition |
| TailReader.ItemsAreTokensIff | agent/tail/tail.go:260-275 | a reader with a bounded buffer sends the plain lines if and only if every line fits |
| TailReader.Tail.constructor | agent/tail/tail.go:60-80 | the buffer limit that a MaxLineSize results in, and that nothing has happened yet |
| TailReader.Tail.SetErr | agent/tail/tail.go:329-338 | the first error stays, and being cancelled is none |
| TailReader.Tail.ScanAt | agent/tail/tail.go:178-179 | one Scan returns the next raw line's text if the line fits, and gives up otherwise |
| TailReader.Tail.TailLines | agent/tail/tail.go:108-158 | sends TailOf of the file, up to the send that finds Stop called, and ends at the file's end, or sends nothing with an error when a line is too long |
| TailReader.Tail.SeekToPosition | agent/tail/tail.go:93-105 | the three ways to start, with the error of a position before the beginning |
| TailReader.Tail.ReadLines | agent/tail/tail.go:260-276 | sends every line from the offset on, then a problem if one does not fit, up to the send that finds Stop called |
| TailReader.Tail.Run | agent/tail/tail.go:161-185 | the channel is closed, the error is that of Reads, and the items sent are those of Reads up to the send that finds Stop called |
| TailReader.Tail.Follow | agent/tail/tail.go:200-232 | one round after each write says of each piece what a fresh scanner makes of it, up to the send that finds Stop called |
| AgentLogs.PrintedTokensIff | agent/rpc.go:76-78 | printing a text's lines gives the text with its last line ended if and only if no CR stands before an LF or at the end |
| AgentLogs.ResplitIff | agent/rpc.go:76-78 | splitting the stream again gives back the lines if and only if none ends in a CR |
| AgentLogs.PrintAndSplit | agent/rpc.go:76-78 | so without such CRs the round trip is complete |
| AgentLogs.PrintedOnce | agent/rpc.go:76-78 | different lists of lines print differently |
| AgentLogs.GetLogs | agent/rpc.go:38-84 | the stream and the reply are determined: the messages of what is received before the client is found gone, up to the first that cannot be sent, which alone is a send error; then nil if the client left, the tail's error otherwise; a missing log is an empty answer |
| AgentLogs.WholeLogIff | agent/rpc.go:45-82 | for a count that is not positive, the stream of a log of lines that fit is the whole file with its last line ended if and only if the scanner drops no CR from it |
| AgentLogs.LastLinesOfLogIff | agent/rpc.go:50-52 | the stream of a request for n lines prints exactly the last n lines if and only if they are short enough for the estimate |
| Listing.BeforeIff | server/rpc.go:130-136 | one string comes before another if and only if it is a proper prefix of it or has the smaller byte where they first differ |
| Listing.LessIsTotal | server/rpc.go:130-136 | of two machines one comes first unless they have the same pool and name, and never both |
| Listing.OneIdentityOrder | server/rpc.go:130-136 | two sorted orders of the same machines show the same pools and names in the same places, whatever sort.Slice does with equals |
| Listing.OneSortedOrderIff | server/rpc.go:130-136 | a sorted list of machines is the only sorted order of them if and only if no two different ones share pool and name |
| Listing.PoolMachines | server/pool.go:386-396 | the machine of each entry of a pool's map, one for one, in whatever order the map yields |
| Listing.Server.GatherAll | server/rpc.go:93-110 | the machine of each entry of all pools, one for one, in whatever orders the maps are walked, each pool as it was at some moment during the call |
| Listing.SortSlice | server/rpc.go:130-136 | a sorted permutation, in place |
| Listing.ConvertAll | server/rpc.go:138-156 | however the goroutines are scheduled, a send always finds room, every slot is written once, and slot i gets the conversion of machine i |
| Listing.Convert | server/convert.go:33-69 | the machine's own fields, and the state and version its guest agent gives, each Unknown if it gives none |
| Listing.Server.ListMachines | server/rpc.go:90-159 | with other goroutines changing the maps meanwhile: the reply shows exactly the machines of the entries of the chosen pools, each pool as it was at some moment during the call, with the pools and within a pool the names in ascending byte order, and of each machine what its guest agent says; or not-found for an unknown pool |
| Listing.ListingIsDeterministic | server/rpc.go:90-159 | two listings that saw the same show the same pools and names in the same places |
| Listing.OneListingIff | server/rpc.go:90-159 | what was seen has one possible listing, down to addresses and times, if and only if no two entries hold different machines of the same pool and name |

## Left out

- External calls (containerd, Firecracker, CNI, GitHub, vsock) succeed or fail as the environment has decided, and what they do inside is not modelled; a GitHub runner registered just before a failed VM start is not removed by the program.
- Runner names, the keys of the machine map, are assumed fresh.
- PoolController.Pool.RunCleanup: one look of the wait; when it is not over the goroutine goes on waiting.
- Wall-clock limits (2 s, 5 s, 30 s, 35 s) are nondeterministic branches; metrics and logging are not modelled.
- The image manager, the runner, configuration, the CLI, printers and generated code are not part of this model.
- The plain `isActive` flag is read and written atomically here; no lock guards it, so `Locks` says nothing of it.
- `cleanupWg.Add` and the go statement after it are one step, as are a goroutine's spawn and its start.
- `Stop` is called at most once for a pool; StopVMM's effect is a VM exit at any later moment.
- PoolController.Pool.RunOnce: one iteration of the infinite loop of `Run`; its runs are the schedules.
- CidAllocation.CidsUnique: the pools' names are map keys, so two configured pools of the same name are not modelled.
- The order in which `Server.Run` starts and stops pools, `findMachine`'s result, `ListPools` and the forwarding in `GetMachineLogs` would only add easy members; their locking is in `Locks`.
- FollowMachine: the file system and the watcher are a model of what Linux and fsnotify do. A removal or rename is reported at once, later or never, as one event with one of the two bits, after which the watch ends; the queue does not overflow, reads do not fail, files do not shrink and creating a watcher does not fail.
- FollowTheorems.NoLostWakeup: says nothing of a scanner that gave up on a line; the next write gives the loop a new one.
- TailReader.Tail.Follow: the file grows only between rounds, all lines fit and there is no rotation (FollowMachine has all of these), and the offset and the file are unspecified after a scan that was stopped.
- Names are byte strings and compared as such.
