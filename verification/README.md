# Block layer and crypto API of a Linux 3.0-era kernel

A Dafny model of the parts of the block layer and of the crypto API that keep
non-trivial promises, and proofs of those promises:

- the FLUSH/FUA sequencer (`Flush`, `FlushFlags`, `FlushProgress`, `FlushQueue`): a
  double-buffered protocol in which one shared flush serves a whole queue of requests;
- partial completion, merging and segment counting (`Bio`, `PartialCompletion`, `Segments`,
  `MergeContents`);
- I/O throttling (`Throttle`, `ThrottleCredit`, `ThrottleWait`, `ThrottlePay`,
  `ThrottleDispatch`, `ThrottleTimely`): a token bucket of slices, and the service tree and
  loops that drain the throttled groups;
- the elevator core (`DispatchSort`, `ElvSwitch`), the deadline scheduler (`Deadline`,
  `DeadlineRuns`, `DeadlineOrder`, `DeadlineQueue`) and parts of CFQ (`CfqChoice`, `CfqGroups`,
  `CfqFairness`);
- the removal of crypto instances (`Spawns`) and the template name parser (`NameParser`);
- the Anubis block cipher (`Involutions`, `AnubisTables`, `Anubis`, `AnubisCipher`,
  `AnubisKey`, `AnubisContext`).

`dafny verify dfyconfig.toml` checks the project.

Where the kernel updates things in place, a class or a method with a loop does so too, and
is proved against a function on values; invariants and theorems over whole runs are lemmas
about those functions.  Every section under the queue lock is one step.  Linked lists and
red-black trees are sequences.  Time is an unbounded number of jiffies; byte and bio
counters, and the products formed from them, have the widths of the C types, with `unsigned
long` taken as 64 bits.  `HZ` is any constant from 100 to 1000.  Page adjacency, segment
boundaries and highmem are predicates on vectors.  Clocks, error codes, command flags and
the results of registration are parameters.  Lemmas carry `{:induction false}`: every
induction is written out.  Contracts often say `P(x) == true` for `P(x)`: the meaning is the
same, and the verifier then keeps the predicate folded wherever its definition is not
needed.

## Findings

Properties that fail in general, with the exact condition under which they hold:

- The wait that `tg_with_in_iops_limit` announces is right exactly when its 32-bit product
  does not wrap or the first slice is over; in a slice so old that the 64-bit product of the
  test itself wraps, the wait is one jiffy, and right exactly when a slice begins then whose
  allowance suffices (`ThrottleWait.IopsWaitExact`).  `ThrottleWait.IopsWaitWraps` is a run
  from a fresh slice in which a bio waits as told and is refused again.
- The wait that `tg_with_in_bps_limit` announces is right exactly when the quotient is zero or
  not a whole number of slices, or its remainder is no more than what the allowance dropped
  (`ThrottleWait.BpsWaitExact`); one more jiffy always suffices (`ThrottleWait.BpsWaitSound`),
  and `ThrottleWait.BpsWaitOneShort` needs it.
- A refused bio that has waited as told meets the limit that refused it, but its slice may be
  over by then: looked at again, it goes exactly when it is within the other limit, or, once
  the slice has ended, when it fits in a fresh one (`ThrottleTimely.LookAgain`).  In
  `ThrottleTimely.LateLookStartsOver` one jiffy too late is enough to start over.
- `throtl_trim_slice` gives full value for the time it takes off a slice exactly when the
  counter is used up or the 64-bit product does not wrap (`ThrottleCredit.TrimExact`); at a
  limit of 2^63 bytes a second it does (`ThrottleCredit.TrimWraps`).
- `elv_dispatch_add_tail` leaves the dispatch list in one-way order exactly when the requests
  behind the last stop are already in the order that starts at the new request's end
  (`DispatchSort.TailExact`), and only then is the order kept whatever is sorted, peeked at
  and taken off later (`DispatchSort.TailSurvives`).  `DispatchSort.TailBreaksOrder` is a run
  that sends a request at sector 15 to the tail behind 10 and 20.
- A request inserted at the back keeps the order exactly when, once the scheduler has been
  drained, the boundary is still at this request, or the end sector, on its way through the
  requests ahead and over this one, never passes a sector that they do not hold
  (`DispatchSort.BackExact`).  A barrier moves the boundary to itself before the drain, and
  the drain may move it on: a scheduler that drains with `elv_dispatch_sort` leaves it there
  (`DispatchSort.SortedDrainJoins`), one that drains with `elv_dispatch_add_tail` takes it
  away (`DispatchSort.TailDrainBreaks`).  For an idle queue and no barrier the condition is
  that the end sector already lies within the request (`DispatchSort.IdleMayFollow`).
- `blk_insert_flush` ends a FLUSH or FUA request without writing its data exactly when the
  queue has no write-back cache (`Flush.EndedUnwritten`, `Flush.EndedUnwrittenInstance`); its
  callers strip the flags there.
- `blk_update_request` takes the bytes it is told of off the request exactly when they do not
  end inside a discard bio (`PartialCompletion.RetiredExactly`); of such a bio nothing is
  retired (`PartialCompletion.DiscardKeepsBytes`).
- Looking only at neighbours finds the best request exactly when no other request outranks
  both neighbours, by the sync and then the meta flag, and, if the neighbours differ in rank,
  the higher one comes before all others of its rank (`CfqChoice.NeighboursExact`).  A sync
  request two places ahead is missed (`CfqChoice.NeighboursMissSync`); requests that share
  both flags never are (`CfqChoice.NeighbourIsBest`).
- When registration fails, `elevator_switch` exits the new elevator, which clears its
  operations, before it puts the old one back: exactly then the elevator in place has exited
  (`ElvSwitch.ExitedExactly`).  No request with scheduler data can meet it, but it is still
  called: by `get_request` (blk-core.c:701), by `elv_merge` (blk-core.c:1244), and for
  dispatch and draining (blk.h:86, elevator.c:612) (`ElvSwitch.AskedAfterExit`).

## Model

| member | source | states |
|---|---|---|
| `Flush.Durability` | kernel/block/blk-flush.c:143-335 | over every run: data is queued only behind a successful flush issued after insertion, a request ends well only after everything its policy asks for, flushes are issued one at a time and nothing is ended twice; what the policy amounts to is in the next rows |
| `FlushFlags.EndsAsPromised` | kernel/block/blk-flush.c:94-191 | over every run, on a device with a cache: a request reported as done has had a flush issued after its submission if it asked for one, its data written, and another flush behind that if it asked for FUA and the device has none |
| `FlushFlags.QueuedAsPromised` | kernel/block/blk-flush.c:94-191 | data is queued only for requests that have any, and only behind the flush they asked for |
| `FlushFlags.DispatchedAsPromised` | kernel/block/blk-flush.c:94-335 | in every reachable state a request that asked for a flush is with the dispatch list or the driver only behind one |
| `FlushFlags.DispatchedAtOnce` | kernel/block/blk-flush.c:297-335 | data is dispatched on submission if and only if no flush was asked for |
| `FlushFlags.EndsWithItsData` | kernel/block/blk-flush.c:274-284 | once its data is written a request is done if and only if it did not ask for FUA that the device lacks |
| `Flush.ReachableInv` | kernel/block/blk-flush.c:143-335 | every reachable state meets the protocol's invariant: one list per request, as its step dictates, and one flush out exactly while the indices differ |
| `Flush.EndFlushInv` | kernel/block/blk-flush.c:193-228 | completion of a flush empties the list it was issued for, although each turn may issue the next flush, and leaves a settled queue |
| `Flush.PushOne` | kernel/block/blk-flush.c:206-212 | one turn of that loop keeps the loop invariant, whether or not it flips the pending index |
| `Flush.InsertInv` | kernel/block/blk-flush.c:297-335 | insertion keeps the invariant for every policy |
| `Flush.NextInv` | kernel/block/blk-flush.c:143-335 | every step keeps the invariant |
| `Flush.NoStall` | kernel/block/blk-flush.c:243-272 | while a request is sequenced, a flush or data is in flight; flush_rq is out exactly while the indices differ; a held queue has its flush |
| `Flush.NoneLost` | kernel/block/blk-flush.c:143-335 | in every reachable state every request ever inserted is in sequence, with the dispatch list or driver, or ended |
| `Flush.EveryRequestEnds` | kernel/block/blk-flush.c:143-335 | once dispatch list and driver are empty, every request ever inserted has been ended exactly once |
| `Flush.HeldQueueRestarted` | kernel/block/blk-flush.c:214-228 | a held queue stays held until a flush ends and is then run, whatever else happens |
| `Flush.EndedUnwritten` | kernel/block/blk-flush.c:94-107 | a request is ended at once exactly when the device has no write-back cache, and then its data is not queued and never was |
| `Flush.EndedUnwrittenInstance` | kernel/block/blk-flush.c:94-107 | a request with data for an idle queue without a cache: inserted, ended, never written |
| `Flush.AbortConserves` | kernel/block/blk-flush.c:347-373 | abortion loses no request and duplicates none |
| `FlushProgress.NextPotential` | kernel/block/blk-flush.c:143-335 | every fetch and completion uses up the potential of the state, and holding the queue adds nothing |
| `FlushProgress.RunsDown` | kernel/block/blk-flush.c:143-335 | without insertions, the fetches and completions of any run are bounded by the potential it starts with |
| `FlushProgress.NeverStuck` | kernel/block/blk-flush.c:243-272 | until dispatch list and driver are empty there is something to fetch or to complete |
| `FlushProgress.AllEndInTime` | kernel/block/blk-flush.c:143-335 | from any reachable state, as many fetches and completions as its potential, in any order, end every request ever inserted, exactly once |
| `FlushProgress.FlushDeferred` | kernel/block/blk-flush.c:243-272 | whenever a request moves on, a flush is issued if and only if none is out, someone waits, and no data is in flight or the first has waited five seconds |
| `FlushQueue.FlushQueue.KickFlush` | kernel/block/blk-flush.c:243-272 | the fields change as the step says, and the result tells whether a flush was issued |
| `FlushQueue.FlushQueue.CompleteSeq` | kernel/block/blk-flush.c:143-191 | unlinking, the switch and the kick together are the step on values |
| `FlushQueue.FlushQueue.PushRunning` | kernel/block/blk-flush.c:206-212 | walking the live list with a saved successor visits what was on it, in order |
| `FlushQueue.FlushQueue.EndFlush` | kernel/block/blk-flush.c:193-228 | the completion of a flush in place is the step, and keeps the invariant |
| `FlushQueue.FlushQueue.EndData` | kernel/block/blk-flush.c:274-284 | the completion of data in place is the step, and keeps the invariant |
| `FlushQueue.FlushQueue.InsertFlush` | kernel/block/blk-flush.c:297-335 | insertion in place is the step, and keeps the invariant |
| `FlushQueue.FlushQueue.AbortFlushes` | kernel/block/blk-flush.c:347-373 | the loops give every list away |
| `PartialCompletion.RetireStream` | kernel/block/blk-core.c:2008-2156 | retiring n bytes drops exactly the first n bytes of the request's byte stream |
| `PartialCompletion.RetireWellFormed` | kernel/block/blk-core.c:2008-2156 | bi_size stays the bytes left of every bio, and the total shrinks by what was retired |
| `PartialCompletion.RetiredExactly` | kernel/block/blk-core.c:2059-2085 | the bytes reported are taken off the request if and only if they do not end inside a discard |
| `PartialCompletion.DiscardKeepsBytes` | kernel/block/blk-core.c:2065-2073 | half of a discard is reported and none of it retired |
| `PartialCompletion.RetireAll` | kernel/block/blk-core.c:2107-2118 | nothing remains exactly when all bytes are retired |
| `PartialCompletion.EndingsInOrder` | kernel/block/blk-core.c:150-176 | the bios ended and the bios left are the chain, each once and in order |
| `PartialCompletion.CallsDropTheSum` | kernel/block/blk-core.c:2008-2156 | any sequence of completions drops the sum of their bytes |
| `PartialCompletion.CallsEndInOrder` | kernel/block/blk-core.c:2008-2156 | over any sequence of completions every bio ends at most once, in order |
| `PartialCompletion.Pass` | kernel/block/blk-core.c:2055-2105 | the loop ends the right bios and stops where the rest begins; "bio idx >= vcnt" is met by discards only |
| `PartialCompletion.Request.Update` | kernel/block/blk-core.c:2008-2156 | the update in place retires n bytes, keeps the data length exact, and is done exactly when nothing remains; "request botched" is dead |
| `PartialCompletion.Request.CompleteData` | kernel/block/blk-core.c:150-176 | however the data of a sequenced request completes, its bio is not ended and remembers every error |
| `PartialCompletion.Request.EndSequence` | kernel/block/blk-flush.c:55-188 | the bio of a sequenced request is ended exactly once, whether or not its data completed before, and well only if every completion was |
| `Segments.GreedyShortest` | kernel/block/blk-merge.c:117-170 | no partition of the vectors into segments is shorter than the greedy one |
| `Segments.GreedyPartition` | kernel/block/blk-merge.c:117-170 | the greedy mapping covers the vectors in order with legal segments |
| `Segments.GreedyHigh` | kernel/block/blk-merge.c:32-46 | in a count, a page that may be bounced is a segment of its own |
| `Segments.MapFits` | kernel/block/blk-merge.c:117-199 | a sound count is enough for the mapping |
| `Segments.RecalcSound` | kernel/block/blk-merge.c:12-69 | a full recount is sound, with the front and back sizes it caches |
| `Segments.MeetJoined` | kernel/block/blk-merge.c:87-111 | where two requests meet contiguously, one segment less still suffices |
| `Segments.MeetSound` | kernel/block/blk-merge.c:277-315 | after the attempt to merge requests every count is sound, merged or not |
| `Segments.BackMergeSound` | kernel/block/blk-merge.c:202-250 | a back merge keeps the count sound, made or refused |
| `Segments.FrontMergeSound` | kernel/block/blk-merge.c:202-275 | a front merge keeps the count sound |
| `Segments.MergeReqsSound` | kernel/block/blk-merge.c:367-447 | a merge of requests keeps both counts sound |
| `Segments.DoneSound` | kernel/block/blk-core.c:2152-2153 | a partial completion leaves a sound count |
| `Segments.Build` | kernel/block/blk-merge.c:228-447 | the request that any history of merges and completions leads to has a sound count; its contents are the subject of the rows below |
| `Segments.EveryHistoryFits` | kernel/block/blk-merge.c:117-199 | for every such history the mapping emits at most nr_phys_segments entries and covers all vectors in order |
| `MergeContents.FreshExact` | kernel/block/blk-core.c:2444-2462 | a request made of a bio holds that bio and its count |
| `MergeContents.BackMergeExact` | kernel/block/blk-core.c:1109-1131 | a bio is merged at the back if and only if sectors and segments fit and the integrity code agrees; it is then last, the count grows by its own, and a refusal changes nothing but caches |
| `MergeContents.FrontMergeExact` | kernel/block/blk-core.c:1133-1163 | the same at the front |
| `MergeContents.MergeReqsExact` | kernel/block/blk-merge.c:277-447 | two requests are merged if and only if sectors and segments fit, one segment less where they meet contiguously; the bios of the second then follow those of the first |
| `MergeContents.EveryHistoryContains` | kernel/block/blk-merge.c:202-447 | for every history the request stands for exactly the bytes of the bios it took, in order, less those retired, and is gone exactly when none are left |
| `Segments.MapSg` | kernel/block/blk-merge.c:117-170 | the mapping loop emits the greedy segments |
| `Segments.RecalcSegments` | kernel/block/blk-merge.c:12-69 | the counting loop counts them and caches the sizes of the first and last |
| `Throttle.ByteRate` | kernel/block/blk-throttle.c:496-756 | over every run of any length: bytes * HZ <= bps * (elapsed + slice), through trims, extensions and restarts |
| `Throttle.IoRate` | kernel/block/blk-throttle.c:496-756 | the same for bios |
| `Throttle.CounterNeverWraps` | kernel/block/blk-throttle.c:746-756 | in no run does the 32-bit bio counter exceed one slice's allowance plus one |
| `Throttle.TrimBytes` | kernel/block/blk-throttle.c:534-591 | trimming never creates credit for bytes; that it takes none away is in the next rows |
| `Throttle.TrimIos` | kernel/block/blk-throttle.c:534-591 | nor for bios |
| `Throttle.SendBelowPeak` | kernel/block/blk-throttle.c:534-641 | what the test lets through and trimming takes off differ by at most one slice's allowance and one |
| `ThrottleCredit.ByteCounterPeak` | kernel/block/blk-throttle.c:534-756 | in no run does the byte counter exceed one slice's allowance plus one |
| `ThrottleCredit.TrimExact` | kernel/block/blk-throttle.c:534-591 | for bytes and bios, what is taken off the counter is worth the time taken off the slice to within one unit, if and only if the counter is used up or the product fits in 64 bits |
| `ThrottleCredit.TrimWraps` | kernel/block/blk-throttle.c:563-578 | a slice that loses two slices of time and not one byte |
| `ThrottleCredit.IdleStartsAfresh` | kernel/block/blk-throttle.c:549-557 | two slices after a dispatch the next look starts a new slice |
| `ThrottleCredit.Unlimited` | kernel/block/blk-throttle.c:685-690 | without limits every bio goes |
| `ThrottleWait.IopsWaitSound` | kernel/block/blk-throttle.c:593-641 | without wrap-around a refused bio passes from its wait on, and the one-jiffy fallback is dead |
| `ThrottleWait.IopsWaitExact` | kernel/block/blk-throttle.c:593-641 | in any slice a run can reach, the wait suffices if and only if its product fits in 32 bits or the first slice is over or, in a slice so old that the 64-bit product wraps, the next jiffy begins a slice that allows enough |
| `ThrottleWait.IopsWaitInRuns` | kernel/block/blk-throttle.c:593-641 | the same at any time of any run from a fresh slice |
| `ThrottleWait.IopsWaitWraps` | kernel/block/blk-throttle.c:627-640 | a run after which a refused bio is refused again when its wait is over |
| `ThrottleWait.BpsWaitSound` | kernel/block/blk-throttle.c:643-683 | a refused bio passes from one jiffy after its wait on |
| `ThrottleWait.BpsWaitExact` | kernel/block/blk-throttle.c:643-683 | the wait suffices if and only if the quotient is zero or no whole number of slices, or its remainder no more than the allowance dropped |
| `ThrottleWait.BpsWaitOneShort` | kernel/block/blk-throttle.c:643-683 | a bio that is refused again when its wait is over |
| `ThrottlePay.StepPays` | kernel/block/blk-throttle.c:695-756 | whatever was paid for before a look or a dispatch is paid for after it |
| `ThrottleDispatch.DrainSpec` | kernel/block/blk-throttle.c:811-842 | a loop takes the first bios of one queue, at most its quantum, and if it takes fewer the queue is empty or the refusal of its head stands |
| `ThrottleDispatch.RoundShares` | kernel/block/blk-throttle.c:811-842 | reads get six of eight bios and writes two, and either sends fewer only for want of bios or of credit |
| `ThrottleDispatch.NotDueAgain` | kernel/block/blk-throttle.c:771-789 | a group that got nothing out is not due again at this jiffy |
| `ThrottleDispatch.DispatchTime` | kernel/block/blk-throttle.c:771-789 | the dispatch time of a busy group is the earliest time at which one of its heads may go |
| `ThrottleDispatch.QueuedOnTree` | kernel/block/blk-throttle.c:476-494 | while bios are queued the tree is not empty |
| `ThrottleDispatch.GroupRate` | kernel/block/blk-throttle.c:844-873 | each direction of each group stays within its rates over any history of acts that were paid for, as every call below pays |
| `ThrottleDispatch.DrainLoop` | kernel/block/blk-throttle.c:811-842 | the popping loop computes the drain |
| `ThrottleDispatch.ThrotlData.RbFirst` | kernel/block/blk-throttle.c:381-394 | the cached leftmost node is the true first |
| `ThrottleDispatch.ThrotlData.Enqueue` | kernel/block/blk-throttle.c:421-462 | the tree stays sorted by dispatch time and its cache right |
| `ThrottleDispatch.ThrotlData.Dequeue` | kernel/block/blk-throttle.c:402-474 | removal keeps order, count and cache |
| `ThrottleDispatch.ThrotlData.DispatchTg` | kernel/block/blk-throttle.c:811-842 | both loops, with nr_queued kept the sum over groups |
| `ThrottleDispatch.ThrotlData.UpdateDisptime` | kernel/block/blk-throttle.c:771-789 | the group is re-linked at that time, with order, count and cache kept |
| `ThrottleDispatch.ThrotlData.SelectDispatch` | kernel/block/blk-throttle.c:844-873 | it terminates at a fixed jiffy, sends at most quantum + group quantum - 1 bios, keeps every queue in order, pays for all it sends, and below the quantum leaves nothing due and lets go every head that may go of every group that was due |
| `ThrottleDispatch.ThrotlData.AddBio` | kernel/block/blk-throttle.c:758-769 | a bio is queued last and its group is on the tree |
| `ThrottleDispatch.ThrotlData.TryPass` | kernel/block/blk-throttle.c:1187-1204 | a bio passes exactly when the limits allow it, and is charged |
| `ThrottleDispatch.ThrotlData.QueueBio` | kernel/block/blk-throttle.c:1206-1220 | a bio is queued last, and the group gets a new dispatch time if it is the first of its direction |
| `ThrottleDispatch.ThrotlData.ThrottleBio` | kernel/block/blk-throttle.c:1165-1225 | a bio passes only when nothing is queued in its direction and it is within the limits; if it is the first to be queued, its group is due when its wait is over, at the latest |
| `ThrottleDispatch.ThrotlData.Perform` | kernel/block/blk-throttle.c:844-1225 | a submission or a dispatch round pays for what it lets go, and every queue gives up its bios and the new one in order |
| `ThrottleDispatch.ThrotlData.PerformAll` | kernel/block/blk-throttle.c:844-1225 | over any sequence of submissions and dispatch rounds: what each direction of each group lets go is within its limits over the time elapsed plus a slice, and comes out in the order it went in |
| `ThrottleTimely.LookAgain` | kernel/block/blk-throttle.c:695-744 | a refused bio looked at again when its wait is over goes if and only if it is within the other limit or, once its slice has ended, fits in a fresh one |
| `ThrottleTimely.LastWait` | kernel/block/blk-throttle.c:695-744 | a bio within the byte limit goes when its one wait is over |
| `ThrottleTimely.LateLookStartsOver` | kernel/block/blk-throttle.c:695-744 | a bio looked at one jiffy after its wait, in a slice that has ended, is refused again |
| `ThrottleTimely.HeadLetGo` | kernel/block/blk-throttle.c:771-873 | a rescheduled group is due when the wait of a refused head is over, and a round of dispatch then that stays below the quantum lets that head go |
| `Spawns.WalkAvoidsAlg` | kernel/crypto/algapi.c:156-160 | the walk never comes back to the algorithm: the BUG_ON is dead |
| `Spawns.PushInv` | kernel/crypto/algapi.c:153-169 | one turn downwards keeps the walk's invariant |
| `Spawns.PopInv` | kernel/crypto/algapi.c:85-106 | finishing a spawn keeps it |
| `Spawns.TopOnPath` | kernel/crypto/algapi.c:85-106 | when a spawn is finished it has its algorithm exactly if it leads to the new one |
| `Spawns.SweepDead` | kernel/crypto/algapi.c:108-130 | an instance that dies has no users left: the BUG_ON is dead |
| `Spawns.BelowNewSpared` | kernel/crypto/algapi.c:164-165 | nothing below the new algorithm is touched |
| `Spawns.WalkSpawns` | kernel/crypto/algapi.c:151-171 | the walk terminates with every spawn in its reach finished |
| `Spawns.Sweep` | kernel/crypto/algapi.c:173-178 | survivors go back to the list they came from, the others die |
| `Spawns.Pick` | kernel/crypto/algapi.c:143-149 | exactly the spawns leave the list for which both types agree in the bits of the mask |
| `Spawns.RemovalGrown` | kernel/crypto/algapi.c:132-179 | what a removal leaves is a forest again |
| `Spawns.RemovalsExact` | kernel/crypto/algapi.c:374-457 | over any sequence of removals an instance is doomed at most once, keeps its algorithm exactly until then, and the dead are those that were doomed |
| `Spawns.Registry.RemoveSpawns` | kernel/crypto/algapi.c:132-179 | exactly the instances reachable from the matching spawns die, except the new algorithm, its ancestors and all below it; the other lists are as they were |
| `CfqChoice.BeforeOrder` | kernel/block/cfq-iosched.c:656-739 | for a fixed head the choice is a strict total order on requests at distinct positions |
| `CfqChoice.ChoosesTheSmaller` | kernel/block/cfq-iosched.c:656-739 | the comparison returns the smaller of two requests |
| `CfqChoice.SeekChoice` | kernel/block/cfq-iosched.c:656-739 | the choice told from the head: sync, then meta, then the nearer ahead or in reach behind, a seek back only if allowed and cheaper by its penalty, and out of reach the furthest behind |
| `CfqChoice.NeighboursExact` | kernel/block/cfq-iosched.c:787-809 | the neighbours yield the best request of the whole list if and only if no other outranks them and, if they differ in rank, the higher one is nearest of its rank |
| `CfqChoice.NeighbourIsBest` | kernel/block/cfq-iosched.c:787-809 | with shared sync and meta flags that always holds |
| `CfqChoice.BestIsUnique` | kernel/block/cfq-iosched.c:787-809 | there is only one best request |
| `CfqChoice.NeighboursMissSync` | kernel/block/cfq-iosched.c:787-809 | with mixed sync flags a list whose best request is no neighbour |
| `CfqChoice.DistanceFits` | kernel/block/cfq-iosched.c:678-702 | the penalised distance fits in 64 bits |
| `CfqGroups.NotifyQueueAddValid` | kernel/block/cfq-iosched.c:875-898 | a queue joining a group keeps order, total weight and membership |
| `CfqGroups.NewcomerLast` | kernel/block/cfq-iosched.c:875-898 | a group that joins goes last, an idle delay behind the last one, or takes the time the tree has come to, with its new weight |
| `CfqGroups.NotifyQueueDelValid` | kernel/block/cfq-iosched.c:908-924 | a queue leaving it does |
| `CfqGroups.GroupServedValid` | kernel/block/cfq-iosched.c:958-978 | charging a group does |
| `CfqGroups.GetNextGroupValid` | kernel/block/cfq-iosched.c:2262-2272 | the group picked has the least virtual time, and the tree has come to that time |
| `CfqGroups.GroupTree.Add` | kernel/block/cfq-iosched.c:827-873 | the descent links the group behind its equals and caches the leftmost |
| `CfqGroups.GroupTree.Del` | kernel/block/cfq-iosched.c:900-906 | removal drops the cached leftmost if it was that group, and keeps order and total weight |
| `CfqGroups.GroupTree.QueueAdded` | kernel/block/cfq-iosched.c:875-898 | the update in place is the step on values |
| `CfqGroups.GroupTree.QueueRemoved` | kernel/block/cfq-iosched.c:908-924 | likewise |
| `CfqGroups.GroupTree.Served` | kernel/block/cfq-iosched.c:958-978 | likewise |
| `CfqGroups.GroupTree.GetNext` | kernel/block/cfq-iosched.c:2262-2272 | likewise |
| `CfqFairness.NextInv` | kernel/block/cfq-iosched.c:821-978 | every step keeps the tree, and the group being served the least |
| `CfqFairness.GroupFairness` | kernel/block/cfq-iosched.c:821-978 | two groups that stay on the tree never drift apart by more than the larger of their first gap and one maximal charge |
| `CfqFairness.ServiceFairness` | kernel/block/cfq-iosched.c:528-564 | so the scaled service they get differs by a bound that does not grow with the run |
| `CfqFairness.TimeByWeight` | kernel/block/cfq-iosched.c:528-978 | time is shared by weight: what two groups are charged over any run, each over its weight, differs by a bound that does not grow with the run, and one unit of rounding a turn |
| `CfqFairness.ScaleFits` | kernel/block/cfq-iosched.c:528-535 | the scaling product of a 32-bit charge fits in 64 bits |
| `DispatchSort.SortKeepsOrder` | kernel/block/elevator.c:413-450 | the backward scan stops where the request belongs in the one-way order |
| `DispatchSort.MixedSort` | kernel/block/elevator.c:413-450 | in any list a request overtakes no stop and no request of another direction or class, and finds its place in the one-way order of its own |
| `DispatchSort.PeekMoves` | kernel/block/blk-core.c:1831-1853 | when the boundary moves to the head, what follows is in order from there |
| `DispatchSort.PeekStays` | kernel/block/blk-core.c:1831-1853 | requests up to the boundary are peeked at without moving the end sector |
| `DispatchSort.DequeueInv` | kernel/block/blk-core.c:1910-1928 | taking the head off keeps the order |
| `DispatchSort.TailExact` | kernel/block/elevator.c:458-470 | a request sent to the tail leaves the list in order if and only if the requests behind the last stop are in the order that starts at its end |
| `DispatchSort.TailSurvives` | kernel/block/elevator.c:458-470 | in any queue a run can reach, that is also when the order survives all that comes |
| `DispatchSort.TailBreaksOrder` | kernel/block/elevator.c:458-470 | a run of two sorts and one request sent to the tail that ends out of order |
| `DispatchSort.BackInv` | kernel/block/elevator.c:651-679 | an insertion at the back that may join keeps the order, through any drain against the boundary it moved |
| `DispatchSort.DispatchOrder` | kernel/block/elevator.c:413-679 | after every run of sorts, peeks, removals, requests sent to the tail and back insertions with their drains, of which those to tail and back may go there, the list is in one-way order behind its last stop |
| `DispatchSort.BackExact` | kernel/block/elevator.c:651-679 | in any queue a run can reach, a back insertion with its drain is safe for all that comes if and only if the request may join |
| `DispatchSort.SortedDrainJoins` | kernel/block/elevator.c:651-679 | a barrier that moves the boundary may always join if the scheduler sorts what it is drained of |
| `DispatchSort.TailDrainBreaks` | kernel/block/elevator.c:458-679 | a barrier whose drain sends a request to the tail, after which the order does not survive |
| `DispatchSort.IdleMayFollow` | kernel/block/elevator.c:664-679 | into an idle queue: if and only if the end sector lies within the request |
| `DispatchSort.RequestQueue.DispatchSort` | kernel/block/elevator.c:413-450 | the loop in place is the sorted insertion |
| `DispatchSort.RequestQueue.DispatchAddTail` | kernel/block/elevator.c:458-470 | the boundary moves to the request, and the list is in order afterwards if and only if its requests were in the order that starts at the new boundary |
| `DispatchSort.RequestQueue.Drain` | kernel/block/elevator.c:609-621 | the loop hands over every request the scheduler gives up, sorted or to the tail |
| `DispatchSort.RequestQueue.InsertBack` | kernel/block/elevator.c:651-679 | boundary, drain and request in the order of the source: the step on values |
| `DispatchSort.RequestQueue.PeekRequest` | kernel/block/blk-core.c:1831-1853 | the head is started and may move the boundary |
| `ElvSwitch.NextInv` | kernel/block/elevator.c:956-1027 | every step keeps counters, ownership and the phases of a switch |
| `ElvSwitch.ElevatorSeesItsOwn` | kernel/block/elevator.c:626-649 | over every interleaving elvpriv counts the requests with scheduler data, and an elevator only sees data it set itself |
| `ElvSwitch.ExitedExactly` | kernel/block/elevator.c:1013-1020 | the elevator in place has exited exactly between failed registration and reattachment, when no request is handed to it and it lets none go |
| `ElvSwitch.NothingLeftBehind` | kernel/block/elevator.c:956-1020 | from the exchange of elevators until the flag falls, no request is queued in any elevator or holds data of one |
| `ElvSwitch.AskedAfterExit` | kernel/block/elevator.c:1013-1020 | that moment occurs in every refused switch, and an allocation, a merge, a dispatch or a drain can call the elevator then |
| `ElvSwitch.SwitchOutcome` | kernel/block/elevator.c:956-1027 | a refused switch ends with the old elevator, another with the new one |
| `ElvSwitch.RequestQueue.GetRequest` | kernel/block/blk-core.c:740-752 | the reservation in place is the step, and keeps the invariant |
| `ElvSwitch.RequestQueue.AllocRequest` | kernel/block/blk-core.c:578-599 | set_request runs on the elevator in place |
| `ElvSwitch.RequestQueue.FreedRequest` | kernel/block/blk-core.c:654-666 | the counters fall with the request |
| `ElvSwitch.RequestQueue.DrainElevator` | kernel/block/elevator.c:609-621 | the loop ends with nothing queued in the elevator and all else unchanged |
| `ElvSwitch.RequestQueue.QuiesceStart` | kernel/block/elevator.c:626-635 | the flag goes up and the elevator is drained: the step, and the invariant is kept |
| `ElvSwitch.RequestQueue.TryAttach` | kernel/block/elevator.c:636-643 | the switch goes on exactly when elvpriv is zero, and otherwise drains again |
| `ElvSwitch.RequestQueue.Finish` | kernel/block/elevator.c:992-1027 | either way a live elevator is in place and the flag is down |
| `Deadline.AddRequestInv` | kernel/block/deadline-iosched.c:76-113 | an added request keeps both lists of a direction equal as sets, the sort list ascending and the fifo by expiry, alias or not |
| `Deadline.FrontMergeInv` | kernel/block/deadline-iosched.c:156-168 | so does a front merge that repositions a request |
| `Deadline.MergeRequestsInv` | kernel/block/deadline-iosched.c:170-189 | so does a merge of two requests, the earlier deadline winning |
| `Deadline.DispatchInv` | kernel/block/deadline-iosched.c:245-327 | so does a dispatch, and nr_sorted counts the queued requests |
| `Deadline.ChoiceQueued` | kernel/block/deadline-iosched.c:245-327 | what is chosen is queued, and something is chosen whenever anything is |
| `DeadlineRuns.NextGood` | kernel/block/deadline-iosched.c:76-327 | every step keeps the structure |
| `DeadlineRuns.ExpiredFirst` | kernel/block/deadline-iosched.c:228-327 | a new batch in a direction with an expired request begins with the head of its fifo, which is expired |
| `DeadlineRuns.ReadCosts` | kernel/block/deadline-iosched.c:256-327 | each read served while a write waits uses up a bounded credit |
| `DeadlineRuns.WriteStarvationBound` | kernel/block/deadline-iosched.c:245-327 | while a write waits, at most (writes_starved + 1) * max(fifo_batch, 1) dispatches serve reads |
| `DeadlineOrder.LatterIsLeast` | kernel/block/deadline-iosched.c:66-74 | the request after another is the one of least sector above it, and there is none exactly if nothing is above |
| `DeadlineOrder.BatchAscends` | kernel/block/deadline-iosched.c:206-327 | over every run that only serves, a batch goes on exactly while it is short enough and something is left above, and then with the request of least sector there |
| `DeadlineOrder.BatchGoesOn` | kernel/block/deadline-iosched.c:297-315 | a new batch goes on from there unless a deadline of its direction has expired, the direction changed or nothing is above; then it starts with the earliest deadline |
| `DeadlineOrder.ReadsFirst` | kernel/block/deadline-iosched.c:267-294 | over every run, where both wait, a new batch is one of writes exactly when writes have been passed over writes_starved times |
| `DeadlineQueue.DeadlineData.MoveRequest` | kernel/block/deadline-iosched.c:195-222 | the move in place is the step on values |
| `DeadlineQueue.DeadlineData.MakeRoom` | kernel/block/deadline-iosched.c:76-84 | the loop moves at most one alias |
| `DeadlineQueue.DeadlineData.AddRb` | kernel/block/deadline-iosched.c:76-84 | the request is linked at its sector once that is free |
| `DeadlineQueue.DeadlineData.Link` | kernel/block/elevator.c:356-377 | with no request at the sector, the descent finds the sorted place |
| `DeadlineQueue.DeadlineData.AddRequest` | kernel/block/deadline-iosched.c:100-113 | the step, and the structure is kept |
| `DeadlineQueue.DeadlineData.FrontMerged` | kernel/block/deadline-iosched.c:156-168 | the step, and the structure is kept |
| `DeadlineQueue.DeadlineData.MergedRequests` | kernel/block/deadline-iosched.c:170-189 | the step, and the structure is kept |
| `DeadlineQueue.DeadlineData.Select` | kernel/block/deadline-iosched.c:245-315 | the choice of direction and request |
| `DeadlineQueue.DeadlineData.DispatchRequests` | kernel/block/deadline-iosched.c:245-327 | the step, and the structure is kept |
| `DeadlineQueue.DeadlineData.Drain` | kernel/block/elevator.c:609-621 | a forced drain dispatches everything queued and ends with nr_sorted zero |
| `Involutions.CryptInverse` | kernel/crypto/anubis.c:574-660 | for any cipher of involutive layers, running the reversed, diffused keys undoes a run, by induction over the rounds |
| `Involutions.DiffuseInvolution` | kernel/crypto/anubis.c:594-623 | the diffusion matrix is its own inverse |
| `Involutions.HornerIsPowerSum` | kernel/crypto/anubis.c:497-522 | Horner's rule computes the sum of powers |
| `AnubisTables.SboxInvolution` | kernel/crypto/anubis.c:52-460 | the S-box is its own inverse |
| `AnubisTables.RoundConstantsLow` | kernel/crypto/anubis.c:454-460 | the first eight round constants are the S-box, four entries at a time |
| `AnubisTables.RoundConstantsHigh` | kernel/crypto/anubis.c:454-460 | and so are the other eleven |
| `Anubis.TablesAreRight` | kernel/crypto/anubis.c:52-460 | T0 to T5 are what the matrix and the S-box say |
| `AnubisCipher.FullRoundIs` | kernel/crypto/anubis.c:594-623 | a round by table lookup is substitution, transposition, diffusion and key addition |
| `AnubisCipher.LastRoundIs` | kernel/crypto/anubis.c:629-652 | the masked last round leaves out the diffusion |
| `AnubisCipher.CryptWords` | kernel/crypto/anubis.c:587-652 | the loop over the rounds computes the cipher |
| `AnubisCipher.CryptBlock` | kernel/crypto/anubis.c:574-660 | the routine on bytes computes the cipher |
| `AnubisKey.KeyWordIs` | kernel/crypto/anubis.c:497-522 | the selection loop evaluates four polynomials at once |
| `AnubisKey.KeyRowIsVandermonde` | kernel/crypto/anubis.c:497-522 | a row of a round key is the key column times the Vandermonde matrix of 1, 2, 6 and 8 |
| `AnubisKey.SelectedWordsAre` | kernel/crypto/anubis.c:492-527 | the four words of a round key are those rows |
| `AnubisKey.EvolvedWordIs` | kernel/crypto/anubis.c:534-549 | the key state evolves by substitution, rotation, diffusion and a round constant |
| `AnubisKey.Evolve` | kernel/crypto/anubis.c:534-549 | the loop computes the next key state |
| `AnubisKey.ExpandKey` | kernel/crypto/anubis.c:492-550 | the loops fill the encryption schedule |
| `AnubisKey.InverseKeyIs` | kernel/crypto/anubis.c:560-569 | the double lookup diffuses a key |
| `AnubisKey.ScheduleReverses` | kernel/crypto/anubis.c:556-569 | the decryption schedule is the encryption schedule reversed, and diffused but for its ends |
| `AnubisKey.InvertKeys` | kernel/crypto/anubis.c:556-569 | the loops compute that schedule |
| `AnubisContext.DecryptUndoesEncrypt` | kernel/crypto/anubis.c:462-672 | for every key of legal length and every block, decryption undoes encryption |
| `AnubisContext.Context.SetKey` | kernel/crypto/anubis.c:462-572 | illegal lengths are refused and change nothing; otherwise both schedules are set |
| `AnubisContext.Context.Encrypt` | kernel/crypto/anubis.c:662-666 | one run of the cipher with the encryption schedule |
| `AnubisContext.Context.Decrypt` | kernel/crypto/anubis.c:668-672 | one run with the decryption schedule |
| `AnubisContext.RoundTrip` | kernel/crypto/anubis.c:462-672 | keys of 128 to 320 bits in steps of 32 are accepted and no others; set a key, encrypt, decrypt: the block is back |
| `NameParser.ParseExact` | kernel/crypto/algboss.c:114-180 | parsing yields a template and arguments if and only if the input starts with their printed form |
| `NameParser.PrintParses` | kernel/crypto/algboss.c:114-180 | what is printed is parsed back |
| `NameParser.NestedParses` | kernel/crypto/algboss.c:133-147 | nested names parse at any depth |
| `NameParser.InstanceNameParses` | kernel/crypto/algapi.c:749-755 | an instance name parses to its template and algorithm |
| `NameParser.ScanClose` | kernel/crypto/algboss.c:133-147 | the loop finds the matching parenthesis or the end, and never passes the terminator |
| `NameParser.ScanArg` | kernel/crypto/algboss.c:127-147 | the end of an argument, and whether it is a number |
| `NameParser.ScanArgs` | kernel/crypto/algboss.c:123-177 | the loop over the arguments |
| `NameParser.ParseName` | kernel/crypto/algboss.c:114-180 | the scanning loops compute the parse |

## Left out

- Locks, RCU, memory barriers, interrupts, reference counts and memory allocation: a locked section is one step.
- Jiffies that wrap around, and changes of limits while bios are throttled (`throtl_process_limit_change`).
- `ThrottleTimely.LookAgain`: supposes that the products of the test that refused the bio fit in their words, as does `ThrottleTimely.HeadLetGo`.
- `DeadlineOrder.BatchAscends`: says nothing of requests added or merged within the batch, which do not change the request it goes on with.
- `ThrottleWait.BpsWaitExact`: supposes that the products of the bps test fit in 64 bits at both times.
- `ThrottleWait.BpsWaitSound`: supposes the same.
- `Throttle.ByteRate`: holds for fixed limits, as do `Throttle.IoRate` and `Throttle.CounterNeverWraps`.
- `ThrottleDispatch.GroupRate`: holds for fixed limits and a set of groups that does not change.
- `FlushProgress.AllEndInTime`: supposes that the driver goes on fetching and completing, as it always can; abortion is kept apart in `Flush.AbortConserves`.
- `Spawns.Registry.RemoveSpawns`: one spawn per instance, so that instances form a forest; the ghost argument `depth` witnesses that.
- `DispatchSort.DispatchOrder`: for non-overlapping requests of one direction and discard class, without front insertion and requeueing.
- `CfqFairness.GroupFairness`: for fixed weights and groups picked by `cfq_get_next_cfqg` only; idling, preemption and cooperating queues are not modelled.
- `Segments.EveryHistoryFits`: for requests with data, without padding, drain buffers and mixed failfast merges.
- `NameParser.ParseName`: the value of a numeric argument (`simple_strtol`) is not computed.
- `PartialCompletion.RetireStream`: for bios with data; of discards, which have a size and no vectors, only `PartialCompletion.RetiredExactly` speaks.
- `PartialCompletion.Request.EndSequence`: for a request of one bio with data or none, which is what the sequencer accepts.
- `ElvSwitch.RequestQueue.DrainElevator`: for schedulers whose forced dispatch works; the warning for those that leave requests behind is not modelled.
- `DeadlineQueue.DeadlineData.Link`: the alias that `elv_rb_add` returns is dealt with in `DeadlineQueue.DeadlineData.MakeRoom`.
- `PartialCompletion.Request.Update`: the sector, the buffer pointer, accounting and error messages are not modelled.
- In `Segments`, the header macros on physical adjacency, highmem and size limits are predicates and constants of any value.
- AES and the other ciphers, hashes, the scatterwalk code, statistics, sysfs, ioctl and timeouts: further members of the same or an easier kind.
