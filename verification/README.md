# Block layer and crypto of the modem's kernel, verified

This project models the parts of the kernel whose correctness rests on an argument rather than on one
function body, and proves that argument. It covers two subsystems: the block layer (`kernel/block`),
which queues, merges, schedules, tags and completes disk requests and keeps write barriers apart, and
the crypto layer (`kernel/crypto`), where modes and ciphers are built from a block function.

Every component comes twice. A set of functions says on values what the code does, and the lemmas are
about these functions: state machines with an invariant that every step keeps, and theorems over all
runs. Beside them, classes and methods with the loops, fields and buffers of the code are proved against
the functions. Words that the code updates in place are fields, lists and red-black trees are sequences
in the order of the list or tree, and a request is a number.

| files | component | what is proved of it |
|---|---|---|
| `Barrier*.dfy`, `RequestQueue.dfy` | write barriers | no request passes a barrier in any run if and only if forced dispatch leaves nothing behind and barriers are fs requests; each phase happens once and in its order, nothing is lost, the queue never wedges, in drain and in tag modes; without ordering every barrier is refused |
| `ChainIv.dfy`, `CryptoQueue.dfy` | chained IVs across threads | one owner of the IV in every interleaving, one chain of IVs, no request stranded |
| `Segments.dfy`, `SegmentLimits.dfy`, `RequestSegments.dfy` | scatter-gather accounting | merges are taken exactly if they keep the limits; the scatterlist never outgrows the cached count, whatever was merged, unless a segment is saved next to a bio without data; exactly when it then does |
| `Deadline*.dfy` | deadline scheduler | bounds on how long an expired write or read can still wait, exactly which merge defeats the one by place, and that reads have none if `writes_starved` is zero |
| `Anticipatory*.dfy`, `AsData.dfy` | anticipatory scheduler | batches of one direction never overlap and end when their time or count is used up, whom and when it waits for exactly, forced dispatch empties it but after one kind of front merge, and exactly when the neighbour search finds the best request |
| `Cfq*.dfy` | CFQ scheduler | caches, counters, sector order and the order of service by class and key are exact in every run, forced dispatch empties it |
| `NextCache.dfy`, `Lists.dfy` | shared by the schedulers | the cached next request of a sorted set |
| `Camellia*.dfy` | Camellia | the table with absorbed keys, and the combined S-box tables, compute the cipher of RFC 3713 |
| `Completion.dfy`, `RequestCompletion.dfy` | partial completion | independent of how the bytes are divided into calls |
| `Ccm.dfy`, `CcmMac.dfy`, `Cbc*.dfy` | CCM and CBC | RFC 3610 for any chunking; NIST SP 800-38A for any walk over one buffer or two |
| `MakeRequest.dfy` | stacked devices | recursion flattened to a loop, breadth first |
| `RequestPool.dfy`, `RequestList.dfy` | request allocation, elevator switch | counters exact, exactly when a request is granted, no request of the old elevator survives a switch |
| `Tags.dfy`, `QueueTag.dfy` | tag map | bits, slots and requests agree in every run, asynchronous requests never take the last tag from synchronous ones; exactly when resizing breaks the books |
| `MergeHash.dfy`, `ElevatorHash.dfy` | merge hash | a lookup is as good as a search through all requests |

## Where the code does not keep what one would expect

Each of these is kept as the code has it, and shown by a concrete input or by the exact condition under which it happens.

- `__elv_add_request` toggles the barrier colour for every request with `REQ_HARDBARRIER`, also for one
  that is no file-system request; the safety of barriers can then fail (`NonFsHardBarrierBreaksSafety`).
- `elv_drain_elevator` only prints a message if the scheduler keeps requests back, and the barrier is
  queued all the same: it can then overtake them (`BrokenDrainBreaksSafety`). All runs of the model in a
  drain mode are safe if and only if neither of the two is admitted (`SafeExactly`).
- `ll_merge_requests_fn` saves a segment where `blk_phys_contig_segment` takes two bios for contiguous
  although one has no data, as after a discard. A tight count is then too small, or wraps to 65535
  (`MergeExact` for any two requests, `WithinExactly` for all histories, `WriteDiscardWrite`,
  `DatalessPair`).
- `deadline_merged_requests` compares expiry times with `time_before`: of two requests that expire
  together the merged one can lose its place in the FIFO (`MergePlace`), and then no bound by its place
  holds (`TiedMergeLate`); the one by all writes due no later still does (`LatencyBound`).
- `deadline_dispatch_requests` prefers writes to reads whenever both wait if `writes_starved` is zero, which
  sysfs admits: an expired read, first in its FIFO, then waits for as many dispatch calls as writes arrive
  (`ReadStarves`); with any other setting it does not (`PlaceBound`).
- `as_merged_request` re-inserts a request after a front merge without considering it for the cached next
  request. If all other requests of its direction start at its new first sector, they are dispatched
  meanwhile, the cache is left empty, and a forced dispatch does not send the request (`UntidyStays`).
- `as_find_next_rq` looks at the neighbours only. If one starts inside the request just served, it is
  taken although the one after it may be better (`NeighbourIsBest` says exactly when, `OverlapMisses` is
  a run).
- `req_bio_endio` advances the first sector by whole sectors per call, so the sector depends on how the
  bytes were divided unless the odd ends stay within a sector (`SectorSplit`); and a partial completion
  of a bio without vectors makes no progress (`DatalessStuck`).
- `set_msg_len` lets the first length that does not fit its field through, and the field then says zero
  (`MsgLenExact`).
- `blk_queue_resize_tags` asks `init_tag_map` for a larger map but may get a smaller one, if
  `nr_requests` was lowered. It copies as many entries as the old map had all the same: the copy leaves
  the new map, and the books with it, if and only if the map is replaced by a smaller one (`ResizeExact`,
  `ShrinkingGrowth`). A comment in `blk_queue_end_tag` takes the missing slot for a normal consequence of
  a reduced depth; the code never reduces the real depth otherwise.

## Model

| member | source | states |
|---|---|---|
| `Barrier.WordsAgree` | kernel/block/blk-barrier.c:55-60 | the sequence bits combine as words do under `|`, `&` and `1 << ffz(...)` |
| `BarrierCore.CoreCompleteSeq` | kernel/block/blk-barrier.c:91-114 | marking phases keeps the queue in order, up to ending the original request with the last phase |
| `BarrierCore.CoreStartOrdered` | kernel/block/blk-barrier.c:156-236 | starting a sequence keeps the queue in order: proxies stacked in their order, skipped phases marked |
| `BarrierCore.CoreEnd` | kernel/block/blk-barrier.c:116-132 | the end of a request or of one of the proxies keeps the queue in order |
| `BarrierCore.CoreRequeue` | kernel/block/elevator.c:643-673 | a requeued request finds the place of its phase |
| `BarrierCore.CoreNext` | kernel/block/elevator.c:737-751 | handing out the head of the list, or refusing to, keeps the queue in order |
| `BarrierCore.CoreDispatched` | kernel/block/elevator.c:437-473 | sorting a request of the scheduler into the list passes no barrier |
| `BarrierDrain.InvStep` | kernel/block/blk-barrier.c:238-284 | every step keeps the whole invariant, including the order of epochs in drain modes |
| `BarrierHistory.KeptStep` | kernel/block/blk-barrier.c:91-114 | every step keeps the history consistent: what was handed out, marked and ended, and in which order |
| `BarrierTheorems.RunFromInit` | kernel/block/blk-barrier.c:156-284 | the invariant holds in every run from an empty queue, in every ordering mode |
| `BarrierTheorems.BarrierSafety` | kernel/block/blk-barrier.c:156-284 | in every run in a drain mode in which forced dispatch leaves nothing behind a barrier and barriers are fs requests: no fs request accepted after a barrier is handed out before the barrier has ended, and all accepted before it have ended when one of its proxies is handed out |
| `BarrierTheorems.SafeExactly` | kernel/block/elevator.c:576-610 | all runs of all drain modes are safe in that sense if and only if forced dispatch before a barrier empties the scheduler and only fs requests carry REQ_HARDBARRIER |
| `BarrierTheorems.BrokenDrainBreaksSafety` | kernel/block/elevator.c:576-588 | a run in which a scheduler that keeps a request back lets a barrier overtake it |
| `BarrierTheorems.RunLaxer` | kernel/block/elevator.c:576-610 | what can happen when both are observed can happen when they are not |
| `BarrierTheorems.BarrierBookkeeping` | kernel/block/blk-barrier.c:91-236 | in every run each phase of a barrier is marked once, no BUG_ON fires, and the original ends once, last, with the first error of its proxies |
| `BarrierPhases.PhasesInOrder` | kernel/block/blk-barrier.c:156-284 | in every run, read off what was handed out and ended: in a drain mode the barrier goes out only after the pre-flush has ended and the post-flush only after the barrier has; in every mode only what the mode asks for goes out, and the original request ends after all of it |
| `BarrierPhases.OrderedStep` | kernel/block/blk-barrier.c:91-284 | every step keeps that |
| `BarrierPhases.OrderingWaits` | kernel/block/blk-barrier.c:156-178 | an empty barrier asks for no request of its own and no post-flush, keeps the pre-flush, and waits for something in every mode |
| `BarrierModes.BarriersRefused` | kernel/block/blk-barrier.c:243-262 | on a queue without ordering no barrier is ever handed out, and each ends with EOPNOTSUPP |
| `BarrierModes.TagsNeverWedged` | kernel/block/blk-barrier.c:263-284 | with nothing at the driver, a queue that orders by tags always hands out a request or finishes a barrier |
| `BarrierModes.FirstStep` | kernel/block/elevator.c:643-673 | every step keeps the proxies ahead of the barriers that follow, also when one of them is put back |
| `BarrierTheorems.NothingLost` | kernel/block/elevator.c:590-751 | every request accepted has ended or is in exactly one place, and `in_flight` counts the fs requests with the driver |
| `BarrierTheorems.NeverWedged` | kernel/block/blk-barrier.c:238-284 | with nothing in flight, a pending sequence or a waiting request always lets the queue go on |
| `BarrierTheorems.NonFsHardBarrierBreaksSafety` | kernel/block/elevator.c:691-699 | a run with a non-fs request that carries REQ_HARDBARRIER, in which a request passes a barrier |
| `RequestQueues.RequestQueue.OrderedCompleteSeq` | kernel/block/blk-barrier.c:91-114 | the fields after it are those of the marking step; whether the sequence is complete |
| `RequestQueues.RequestQueue.EndOriginal` | kernel/block/blk-barrier.c:107-113 | the original barrier ends with the collected error |
| `RequestQueues.RequestQueue.QueueProxy` | kernel/block/blk-barrier.c:134-154 | a proxy is initialised and put at the front |
| `RequestQueues.RequestQueue.ChooseOrdering` | kernel/block/blk-barrier.c:162-184 | an empty barrier drops the phases it does not need |
| `RequestQueues.RequestQueue.BeginPhases` | kernel/block/blk-barrier.c:161-184 | a sequence begins without error and with its ordering |
| `RequestQueues.RequestQueue.StashOriginal` | kernel/block/blk-barrier.c:161-189 | the original leaves the list and is remembered |
| `RequestQueues.RequestQueue.StartOrderedSequence` | kernel/block/blk-barrier.c:156-236 | the state and the verdict are those of the start step |
| `RequestQueues.RequestQueue.DoOrderedHead` | kernel/block/blk-barrier.c:238-284 | the state and the verdict on the head of the list |
| `RequestQueues.RequestQueue.ElvCompleted` | kernel/block/elevator.c:922-952 | accounting at a completion, and the end of a drain |
| `RequestQueues.RequestQueue.EndIo` | kernel/block/blk-barrier.c:116-132 | the three end_io handlers and a plain completion |
| `RequestQueues.RequestQueue.RequeueSlot` | kernel/block/elevator.c:662-670 | the list walk finds the first place whose phase is not earlier |
| `RequestQueues.RequestQueue.ElvRequeue` | kernel/block/elevator.c:559-574 | the state after a requeue |
| `RequestQueues.RequestQueue.ElvDequeue` | kernel/block/elevator.c:832-846 | a request leaves the list and is counted in flight |
| `RequestQueues.RequestQueue.DispatchSort` | kernel/block/elevator.c:437-473 | the walk from the tail stops behind the first request that stops it, which makes it a legal dispatch |
| `RequestQueues.RequestQueue.DrainElevator` | kernel/block/elevator.c:576-588 | the scheduler gives up all but what it keeps back, by legal dispatches only; whether the message is due |
| `RequestQueues.RequestQueue.Colour` | kernel/block/elevator.c:691-699 | colouring a request and toggling the colour at a barrier |
| `RequestQueues.RequestQueue.AddRequest` | kernel/block/elevator.c:688-723 | what is added where: a run of dispatches and the one insertion, within the strict policy unless a barrier is no fs request or finds the scheduler not empty |
| `RequestQueues.RequestQueue.AskScheduler` | kernel/block/elevator.c:737-751 | what the scheduler moves when asked is a run of dispatches, counted |
| `RequestQueues.RequestQueue.TryHeads` | kernel/block/elevator.c:737-745 | the head is tried until one is handed out or held, or the list is empty |
| `RequestQueues.RequestQueue.TryHead` | kernel/block/elevator.c:737-751 | one turn of the loop in __elv_next_request |
| `RequestQueues.RequestQueue.ElvNextRequest` | kernel/block/elevator.c:737-751 | both loops are a run of the state machine; a request returned is marked started; none is returned only with a held head or an empty list |
| `CryptoQueues.CryptoQueue.Enqueue` | kernel/crypto/algapi.c:674-692 | the list, the backlog cursor and the length represent the queue after enqueueing; -EBUSY exactly when full; the backlog grows by the request exactly when it is full and may |
| `CryptoQueues.CryptoQueue.Dequeue` | kernel/crypto/algapi.c:695-711 | the oldest entry leaves and one backlogged entry moves up |
| `ChainIv.OwnedStep` | kernel/crypto/chainiv.c:122-205 | every atomic step keeps INUSE with one owner |
| `ChainIv.NoticedStep` | kernel/crypto/chainiv.c:122-141 | every atomic step leaves a queued request noticed by someone |
| `ChainIv.IvStep` | kernel/crypto/chainiv.c:160-178 | every atomic step keeps the IVs one chain |
| `ChainIv.ErrStep` | kernel/crypto/chainiv.c:180-205 | every atomic step keeps `ctx->err` the outcome of the request in hand |
| `ChainIv.FifoStep` | kernel/crypto/chainiv.c:143-158 | every atomic step keeps the order of postponed requests |
| `ChainIv.RunFromInit` | kernel/crypto/chainiv.c:122-261 | the invariant holds in every interleaving |
| `ChainIv.MutualExclusion` | kernel/crypto/chainiv.c:122-205 | in every interleaving INUSE is owned by one thread or by the work item, the IV is touched by its owner only, and BUG_ON(!queued) never fires |
| `ChainIv.NothingStranded` | kernel/crypto/chainiv.c:122-141 | with all threads done and no work pending the queue is empty and the bit clear |
| `ChainIv.OneChain` | kernel/crypto/chainiv.c:160-178 | each encrypted request gets the IV its predecessor left, the first one the seed, and the context holds the last |
| `ChainIv.OwnResult` | kernel/crypto/chainiv.c:234-261 | a thread ends with the outcome of its own request |
| `ChainIv.NoOvertaking` | kernel/crypto/chainiv.c:180-204 | a caller that gets the bit encrypts if and only if nothing is postponed when it looks, and else gives the bit back and joins the end of the queue |
| `ChainIv.EveryRequestOnce` | kernel/crypto/chainiv.c:143-261 | no request is encrypted twice or lost, and postponed ones are taken up in order |
| `Segments.GreedySplits` | kernel/block/blk-merge.c:146-198 | what the loops form is a legal division of all vectors |
| `Segments.FewestSegments` | kernel/block/blk-merge.c:146-198 | no legal division has fewer segments, and one with as many has a last segment at least as long |
| `Segments.RecalcSound` | kernel/block/blk-merge.c:41-98 | a fresh count covers the vectors, with the front and back sizes it caches |
| `Segments.FromBioSound` | kernel/block/blk-core.c:2098-2118 | a request made from a bio starts with a covering count |
| `Segments.BackMergeSound` | kernel/block/blk-merge.c:252-274 | a back merge, taken or refused, keeps the count covering |
| `Segments.FrontMergeSound` | kernel/block/blk-merge.c:276-299 | a front merge, taken or refused, keeps the count covering |
| `SegmentLimits.BackTaken` | kernel/block/blk-merge.c:252-274 | a back merge is taken if and only if sectors and segments stay within the limits, and the data then comes after that of the request; else the request is marked and keeps its data |
| `SegmentLimits.FrontTaken` | kernel/block/blk-merge.c:276-299 | likewise a front merge, and the data comes before |
| `SegmentLimits.NeverOutgrown` | kernel/block/blk-merge.c:230-339 | in every history of bios and merges a request has the sectors of its bios, at most max_sectors, and no more segments than either limit once anything was merged into it |
| `SegmentLimits.CountHighAlone` | kernel/block/blk-merge.c:58-90 | in the count a vector above the bounce limit is a segment of its own |
| `Segments.MergeRequestsSound` | kernel/block/blk-merge.c:301-339 | merging two requests keeps the count covering, also where `total_phys_segments--` saves one |
| `Segments.StepSound` | kernel/block/blk-merge.c:230-339 | every step keeps all cached counts covering |
| `Segments.EntriesWithinCount` | kernel/block/blk-merge.c:146-198 | after any history of merges, done or refused, and recounts, with or without data in the bios, blk_rq_map_sg forms at most `nr_phys_segments` segments, if no merge saves a segment next to a bio without data |
| `Segments.WithinExactly` | kernel/block/blk-merge.c:116-140 | all histories keep to that if and only if no merge does so, or the queue does not cluster |
| `Segments.MergeExact` | kernel/block/blk-merge.c:301-339 | any two requests whose counts covered them: the merged count is too small if and only if a segment was saved next to a bio without data, neither count had one to spare, and the scatterlist saves none |
| `Segments.MergeExactAt` | kernel/block/blk-merge.c:301-339 | the last part goes without saying unless the vectors at the joint touch, and the count is right if the two segments there fit in one |
| `Segments.SavesAtMostOne` | kernel/block/blk-merge.c:146-198 | two requests together need as many entries as by themselves, or one less; the latter only if the vectors at the joint touch |
| `Segments.DatalessFirst` | kernel/block/blk-merge.c:116-140 | the same if and only if where the first request ends in a bio without data: cluster and sizes decide |
| `Segments.DatalessSecond` | kernel/block/blk-merge.c:116-140 | the same where only the second starts with one: the vector that is not there has to pass the test as well |
| `Segments.DatalessPair` | kernel/block/blk-merge.c:301-339 | two dataless requests: the count is 65535 or 0, and when |
| `Segments.DiscardThenWrite` | kernel/block/blk-merge.c:301-339 | a discard merged with a write behind it: one vector, counted as none |
| `Segments.WriteDiscardWrite` | kernel/block/blk-merge.c:301-339 | a write, a discard and a write merged in turn: two entries, counted as one |
| `RequestSegments.CountSegments` | kernel/block/blk-merge.c:41-98 | the loop over bios and vectors computes the count, and the sizes it stores in the bios |
| `RequestSegments.CountBio` | kernel/block/blk-merge.c:58-90 | the inner loop over the vectors of one bio |
| `RequestSegments.MapSg` | kernel/block/blk-merge.c:146-198 | the scatterlist describes the greedy division of all vectors, entry by entry |
| `RequestSegments.MapBio` | kernel/block/blk-merge.c:162-198 | the vectors of one bio |
| `RequestSegments.Request.constructor` | kernel/block/blk-core.c:2098-2118 | the request made from one bio |
| `RequestSegments.Request.RecalcSegments` | kernel/block/blk-merge.c:100-103 | the cached count is the fresh one, as an unsigned short |
| `RequestSegments.Request.EnsureCounted` | kernel/block/blk-merge.c:105-113 | a stale bio is recounted, others are left alone |
| `RequestSegments.Request.NewHwSegment` | kernel/block/blk-merge.c:230-250 | the count grows if both limits allow it, else the request is no longer mergeable |
| `RequestSegments.Request.BackMerge` | kernel/block/blk-merge.c:252-274 | the request after a back merge |
| `RequestSegments.Request.FrontMerge` | kernel/block/blk-merge.c:276-299 | the request after a front merge |
| `RequestSegments.Request.NoteJoined` | kernel/block/blk-merge.c:322-326 | the sizes of a contiguous pair |
| `RequestSegments.Request.MergeWith` | kernel/block/blk-merge.c:301-339 | both requests after an attempt to merge them, and its result |
| `DeadlineInv.AddOk` | kernel/block/deadline-iosched.c:100-113 | a new request enters both views |
| `DeadlineInv.FrontOk` | kernel/block/deadline-iosched.c:156-168 | a front merge keeps both views, with any alias dispatched |
| `DeadlineInv.MergeOk` | kernel/block/deadline-iosched.c:170-189 | merging two requests keeps the FIFO sorted by expiry and both views in agreement |
| `DeadlineInv.DispatchOk` | kernel/block/deadline-iosched.c:245-327 | a dispatch call keeps both views in agreement |
| `DeadlineTheorems.TurnMeasure` | kernel/block/deadline-iosched.c:245-327 | each dispatch call brings the overdue writes closer to their end |
| `DeadlineTheorems.RunMeasure` | kernel/block/deadline-iosched.c:245-327 | so does every run, whatever arrives and merges meanwhile |
| `DeadlineTheorems.AllServed` | kernel/block/deadline-iosched.c:245-327 | that many dispatch calls see every overdue write off |
| `DeadlineTheorems.LatencyBound` | kernel/block/deadline-iosched.c:228-327 | whatever is merged: an expired write, or the request it was merged into, is dispatched within n * (writes_starved + 1) * fifo_batch + 1 dispatch calls, n being all writes due no later |
| `DeadlineLatency.PlaceBound` | kernel/block/deadline-iosched.c:228-327 | by place, for either direction: with n - 1 requests ahead of it in its FIFO an expired write is dispatched within n * (writes_starved + 1) * fifo_batch + 1 calls, and an expired read within n * 2 * fifo_batch + 1 if writes_starved is not zero, along runs whose merges keep its place |
| `DeadlineLatency.BatchStart` | kernel/block/deadline-iosched.c:262-320 | in every run a dispatch call that starts a batch, of reads or of writes, sends the head of that FIFO if its time is over, and otherwise the cached request if there is one; the counters after it |
| `DeadlineLatency.BatchGoesOn` | kernel/block/deadline-iosched.c:252-262 | in every run a batch that is not over goes on with the cached request |
| `DeadlineLatency.SweepsUp` | kernel/block/deadline-iosched.c:207-222 | in every run the request cached after a dispatch call is the next behind the one sent in the order of sectors, and the other direction has none |
| `DeadlineLatency.MergePassesOn` | kernel/block/deadline-iosched.c:87-96 | in every run a merge of the cached request passes the cache on to the next behind it, and any other merge leaves it |
| `DeadlineLatency.ReadStarves` | kernel/block/deadline-iosched.c:269-283 | with writes_starved zero, for every n a run in which an expired read still waits after n dispatch calls |
| `DeadlineLatency.OtherPlace` | kernel/block/deadline-iosched.c:100-189 | a step other than a dispatch moves a request back if and only if it merges it into one that expires no later and is more than one place behind |
| `DeadlineLatency.MergeKeeps` | kernel/block/deadline-iosched.c:170-189 | a merge keeps the place of every request but one merged so |
| `DeadlineLatency.TurnPlace` | kernel/block/deadline-iosched.c:245-327 | each dispatch call brings an expired write closer to its turn, and an expired read unless writes always go first |
| `DeadlineLatency.RunPlace` | kernel/block/deadline-iosched.c:245-327 | so does every run whose merges keep its place |
| `DeadlineLatency.TiedMergeLate` | kernel/block/deadline-iosched.c:170-189 | for every n a run in which a write at the head, for which two calls are the bound, is merged into a tied one just before it on the disk and waits after n calls |
| `DeadlineTheorems.ViewsAgree` | kernel/block/deadline-iosched.c:76-113 | in every run both views of a direction hold the same requests, by sector and by expiry, and nothing is sent twice |
| `DeadlineTheorems.NothingLost` | kernel/block/deadline-iosched.c:170-222 | every accepted request is held, in one due no later, or has been sent |
| `DeadlineTheorems.MergePlace` | kernel/block/deadline-iosched.c:170-189 | the survivor of a merge keeps the place of the older one if and only if it expires earlier or is next to it |
| `DeadlineTheorems.TiedMerge` | kernel/block/deadline-iosched.c:170-189 | with equal expiry times the place is lost |
| `DeadlineTheorems.TiedMergeExample` | kernel/block/deadline-iosched.c:170-189 | three writes from the start, a merge the code makes among them, and the place lost by it |
| `DeadlineTheorems.TurnSends` | kernel/block/deadline-iosched.c:245-327 | a dispatch call sends one request, or there is none |
| `DeadlineTheorems.Drains` | kernel/block/deadline-iosched.c:245-327 | as many calls as requests empty the scheduler, each request going once |
| `DeadlineSchedulers.DeadlineData.MoveRequest` | kernel/block/deadline-iosched.c:206-222 | a request moves to the dispatch queue and its successor is cached |
| `DeadlineSchedulers.DeadlineData.RbAdd` | kernel/block/elevator.c:380-401 | the request is linked into the sector order, or the holder of its sector is reported |
| `DeadlineSchedulers.DeadlineData.AddRqRb` | kernel/block/deadline-iosched.c:76-84 | the loop that dispatches the holder of the sector and links the request in |
| `DeadlineSchedulers.DeadlineData.AddRequest` | kernel/block/deadline-iosched.c:100-113 | the state after a new request |
| `DeadlineSchedulers.DeadlineData.FrontMerged` | kernel/block/deadline-iosched.c:156-168 | the state after a front merge |
| `DeadlineSchedulers.DeadlineData.MergedRequests` | kernel/block/deadline-iosched.c:170-189 | the state after a merge of two requests |
| `DeadlineSchedulers.DeadlineData.StartBatch` | kernel/block/deadline-iosched.c:298-326 | a batch starts at the expired request, at the cached one or at the oldest |
| `DeadlineSchedulers.DeadlineData.ContinueBatch` | kernel/block/deadline-iosched.c:256-263 | a batch goes on while it may |
| `DeadlineSchedulers.DeadlineData.DispatchRequests` | kernel/block/deadline-iosched.c:245-327 | the state after a dispatch call; it sends nothing only if nothing waits |
| `NextCache.FindNextOk` | kernel/block/as-iosched.c:371-394 | a neighbour is found exactly when the request is not alone, and is another request |
| `NextCache.NextWithoutOk` | kernel/block/cfq-iosched.c:687-691 | the cache stays exact when a request leaves |
| `NextCache.LinkedOk` | kernel/block/elevator.c:380-401 | linking a request into the tree adds it and nothing else |
| `AnticipatoryInv.MoveOk` | kernel/block/as-iosched.c:974-1018 | moving a request to the dispatch queue keeps both views, leaves the cache exact and the wait over |
| `AnticipatoryInv.ClearOk` | kernel/block/as-iosched.c:266-274 | the alias loop dispatches exactly the requests at the sector |
| `AnticipatoryInv.AddOk` | kernel/block/as-iosched.c:1187-1213 | a new request keeps the invariant and the caches exact |
| `AnticipatoryInv.FrontNext` | kernel/block/as-iosched.c:1264-1281 | after a front merge the cache is exact if and only if the merge is tidy: no other request starts at the new first sector, or some other request starts elsewhere |
| `AnticipatoryInv.MergedOk` | kernel/block/as-iosched.c:1283-1304 | merging two requests keeps the invariant and the caches exact |
| `AnticipatoryInv.CompletedOk` | kernel/block/as-iosched.c:841-891 | a completion keeps the invariant |
| `AnticipatoryInv.CompletedApart` | kernel/block/as-iosched.c:852-862 | the last completion of the old batch lets the new one begin |
| `AnticipatoryInv.DrainOk` | kernel/block/as-iosched.c:1046-1056 | a loop of the forced dispatch empties its direction if and only if the cache was exact |
| `AnticipatoryTheorems.SelectGood` | kernel/block/as-iosched.c:1073-1159 | what is chosen has the direction of the batch, and nothing has moved yet |
| `AnticipatoryTheorems.FinishApart` | kernel/block/as-iosched.c:1161-1181 | a request moves only when what is in flight has its direction |
| `AnticipatoryTheorems.DispatchOk` | kernel/block/as-iosched.c:1025-1182 | a dispatch call keeps the invariant and the caches exact |
| `AnticipatoryTheorems.RunBase` | kernel/block/as-iosched.c:841-1213 | the invariant holds in every run, forced dispatches and aliases included |
| `AnticipatoryTheorems.WaitsForSomeone` | kernel/block/as-iosched.c:441-499 | in every run waiting states have an io_context, no BUG_ON or WARN_ON of the modelled code fires, and the FIFO and the tree agree |
| `AnticipatoryTheorems.BatchSeparation` | kernel/block/as-iosched.c:841-1181 | in every run without forced dispatch or alias, all requests in flight have one direction: the batch direction, or the opposite one while `changed_batch` is set |
| `AnticipatoryTheorems.StepExact` | kernel/block/as-iosched.c:371-394 | each step keeps the caches exact, a front merge if and only if it is tidy |
| `AnticipatoryTheorems.NextExact` | kernel/block/as-iosched.c:371-394 | in every run with tidy front merges a direction caches a next request exactly when it has one |
| `AnticipatoryTheorems.ForcedDrain` | kernel/block/as-iosched.c:1032-1059 | forced dispatch, at any point of such a run, sends every request held exactly once and leaves nothing |
| `AnticipatoryTheorems.UntidyStays` | kernel/block/as-iosched.c:1264-1281 | a front merge followed by a forced dispatch leaves nothing behind if and only if the merge is tidy |
| `AnticipatoryTheorems.CacheLost` | kernel/block/as-iosched.c:1264-1281 | a run of two reads and a front merge after which a forced dispatch leaves a request behind |
| `AnticipatoryOrder.TreesInOrder` | kernel/block/as-iosched.c:266-279 | in every run both trees are in sector order, no two requests of a direction at one sector |
| `AnticipatoryBatches.OverTurns` | kernel/block/as-iosched.c:958-970 | both directions waiting and no change pending, a dispatch call that is not waiting turns the batch around if it is not new and its time is over or a write batch has used up its count; the oldest request of the other direction goes out, at once or when the old batch has drained |
| `AnticipatoryBatches.OnTimeStays` | kernel/block/as-iosched.c:1071-1095 | and goes on in its direction if the time is not over, the count lasts and it has a next request |
| `AnticipatoryBatches.ExpiredFirst` | kernel/block/as-iosched.c:933-952 | within a batch an expired request goes before the one next in the order and before any waiting |
| `AnticipatoryBatches.WaitsExactly` | kernel/block/as-iosched.c:746-783 | a dispatch call begins to wait if and only if the batch is one of reads that lasts, none has expired, and the process served last is known, may still come and is not the owner of the next request |
| `AnticipatoryBatches.WriteBatchEnds` | kernel/block/as-iosched.c:958-970 | as long as a write batch lasts while a read waits there are no more dispatch calls than writes left in its count, and none once its time is over |
| `AnticipatoryBatches.ReadBatchEnds` | kernel/block/as-iosched.c:958-970 | as long as a read batch lasts while a write waits, a dispatch call after its time finds the scheduler waiting for a process or no reads at all |
| `AnticipatoryBatches.BatchInTime` | kernel/block/as-iosched.c:841-895 | in every run the batch in progress ends at most the interval of its direction after the last call |
| `AnticipatoryBatches.CompletionTimes` | kernel/block/as-iosched.c:841-895 | the last request of the old batch starts the time of the new one, the first read restarts it and adapts the count of writes, and no other completion changes the batch |
| `AnticipatoryBatches.AloneStaysYoung` | kernel/block/as-iosched.c:1088-1094 | while no write waits each read dispatched gives the read batch its whole time again |
| `AnticipatoryWaits.WaitsForLastReader` | kernel/block/as-iosched.c:422-450 | in every run the process waited for is that of the last read sent, with no write sent since, and the wait is for its completion if none has come since and else for its next request |
| `AnticipatoryWaits.ArrivalBreaks` | kernel/block/as-iosched.c:790-806 | an arrival ends a wait if and only if it is of that process, or the statistics say so, or a request at its sector has to go |
| `AnticipatoryWaits.CompletionStarts` | kernel/block/as-iosched.c:841-895 | a completion of that process starts the time of the wait |
| `AnticipatoryWaits.TimeoutEnds` | kernel/block/as-iosched.c:472-495 | after a timeout the next dispatch call does not wait again |
| `AnticipatoryWaits.SendingResets` | kernel/block/as-iosched.c:974-1020 | a dispatch call that sends something ends all waiting |
| `AnticipatoryWaits.LooksOnce` | kernel/block/as-iosched.c:933-952 | the FIFO of a direction is looked at once per interval |
| `Anticipatory.FirstCount` | kernel/block/as-iosched.c:1385-1388 | the first write batch has a tenth of its interval in requests, and two at least |
| `AnticipatoryOrder.BetterDecides` | kernel/block/as-iosched.c:296-364 | as_choose_req prefers exactly one of two requests at different sectors, in either order of its arguments |
| `AnticipatoryOrder.BetterNear` | kernel/block/as-iosched.c:296-364 | nearer is better ahead of the head, and behind it within reach of 1024 * 1024 sectors; out of reach the lower sector is, and one behind beats one ahead if and only if it is less than half as far |
| `AnticipatoryOrder.BetterTransitive` | kernel/block/as-iosched.c:296-364 | the preference is transitive |
| `AnticipatoryOrder.NeighbourIsBest` | kernel/block/as-iosched.c:371-394 | looking at the two neighbours finds what is preferred to every other request if and only if what follows starts at the end of the one just served or later, or beats the one after it, or nothing is in reach and at most one is before it |
| `AnticipatoryOrder.NextIsBest` | kernel/block/as-iosched.c:974-1018 | in every run the request cached when one is dispatched is the best that remains if and only if that holds |
| `AnticipatoryOrder.OverlapMisses` | kernel/block/as-iosched.c:371-394 | runs from the start, with any number of overlapping reads from three on, in which a dispatch call leaves another than the best one cached |
| `AsDatas.AsData.constructor` | kernel/block/as-iosched.c:1359-1391 | an empty scheduler with its first batch time and write count |
| `AsDatas.AsData.MoveToDispatch` | kernel/block/as-iosched.c:974-1018 | the fields after a move: lane, head position, whom to wait for, write count, books |
| `AsDatas.AsData.AddRqRb` | kernel/block/as-iosched.c:266-274 | the alias loop, then the request goes in |
| `AsDatas.AsData.AddRequest` | kernel/block/as-iosched.c:1187-1213 | the state after a new request, the end of a wait included |
| `AsDatas.AsData.Notice` | kernel/block/as-iosched.c:802-806 | the wait ends if the request is what was waited for |
| `AsDatas.AsData.MergedFront` | kernel/block/as-iosched.c:1264-1281 | the state after a front merge |
| `AsDatas.AsData.MergedRequests` | kernel/block/as-iosched.c:1283-1304 | the state after a merge of two requests |
| `AsDatas.AsData.CheckFifo` | kernel/block/as-iosched.c:933-952 | whether the oldest request has expired, looked at once per interval |
| `AsDatas.AsData.OldestFirst` | kernel/block/as-iosched.c:1151-1159 | an expired request goes first |
| `AsDatas.AsData.ToReads` | kernel/block/as-iosched.c:1112-1119 | the batch turns to reads |
| `AsDatas.AsData.ToWrites` | kernel/block/as-iosched.c:1127-1145 | a write batch begins |
| `AsDatas.AsData.NextDirection` | kernel/block/as-iosched.c:1098-1149 | reads and writes take turns when no batch runs |
| `AsDatas.AsData.Continue` | kernel/block/as-iosched.c:1089-1096 | a batch goes on, or another begins |
| `AsDatas.AsData.WaitRequest` | kernel/block/as-iosched.c:441-450 | the scheduler starts to wait |
| `AsDatas.AsData.PickRequest` | kernel/block/as-iosched.c:1073-1159 | which request is chosen, or that the scheduler waits |
| `AsDatas.AsData.BeginBatch` | kernel/block/as-iosched.c:1161-1174 | a new batch begins once the old one has drained |
| `AsDatas.AsData.FinishDispatch` | kernel/block/as-iosched.c:1161-1181 | the chosen request moves, or waits for the old batch |
| `AsDatas.AsData.DispatchRequest` | kernel/block/as-iosched.c:1025-1182 | the state after a dispatch call and how many requests it sent |
| `AsDatas.AsData.DrainLane` | kernel/block/as-iosched.c:1046-1049 | the loop of a forced dispatch over one direction |
| `AsDatas.AsData.ForceDispatch` | kernel/block/as-iosched.c:1032-1059 | the state after a forced dispatch and how many requests it sent |
| `AsDatas.AsData.UpdateWriteBatch` | kernel/block/as-iosched.c:812-835 | the new count of a write batch, at least one |
| `AsDatas.AsData.CompleteBatch` | kernel/block/as-iosched.c:852-874 | what a completion does to the batch |
| `AsDatas.AsData.CompletedRequest` | kernel/block/as-iosched.c:841-891 | the state after a completion |
| `AsDatas.AsData.AnticTimeout` | kernel/block/as-iosched.c:472-499 | the timer ends the wait |
| `Anticipatory.WriteCountFollows` | kernel/block/as-iosched.c:812-835 | the next write batch is shorter if and only if the last one outlasted its interval without running dry, longer if and only if it used up its count before, and by how much |
| `CfqInv.EraseOk` | kernel/block/cfq-iosched.c:423-430 | a queue leaves the service tree, and the leftmost cache is dropped with it |
| `CfqInv.PlacedOk` | kernel/block/cfq-iosched.c:474-546 | a queue enters the service tree in its place; it is cached as the first exactly when nothing is before it |
| `CfqInv.ResortOk` | kernel/block/cfq-iosched.c:551-558 | a queue moves within the service tree |
| `CfqInv.FirstOk` | kernel/block/cfq-iosched.c:412-421 | cfq_rb_first gives a queue exactly when there is one |
| `CfqInv.RemoveOk` | kernel/block/cfq-iosched.c:687-702 | removing a request keeps views and counters, and takes the queue off the service tree with its last request |
| `CfqInv.ClearOk` | kernel/block/cfq-iosched.c:623-624 | the alias loop dispatches exactly the requests at the sector |
| `CfqInv.InsertOk` | kernel/block/cfq-iosched.c:1918-1931 | a new request: both views, counters, cache and service tree are in order |
| `CfqInv.FrontOk` | kernel/block/cfq-iosched.c:638-643 | a repositioned request: likewise, whatever was at its new sector |
| `CfqInv.MergedOk` | kernel/block/cfq-iosched.c:729-741 | a merge of two requests: likewise |
| `CfqTheorems.ChoiceDecides` | kernel/block/cfq-iosched.c:319-407 | cfq_choose_req prefers exactly one of two requests at different sectors |
| `CfqTheorems.ChoiceOrders` | kernel/block/cfq-iosched.c:319-407 | its preference is transitive, synchronous requests first, then metadata |
| `CfqTheorems.ChoiceNear` | kernel/block/cfq-iosched.c:319-407 | of two requests alike in that the nearer one, by the distances, cfq_back_max and the penalty for going back |
| `CfqTheorems.StepInv` | kernel/block/cfq-iosched.c:474-643 | every step keeps all queues and the service tree in order |
| `CfqTheorems.RunInv` | kernel/block/cfq-iosched.c:474-643 | so does every run |
| `CfqOrder.TreesInOrder` | kernel/block/cfq-iosched.c:598-643 | in every run each queue has its requests in sector order, no two at one sector |
| `CfqTheorems.QueueBooks` | kernel/block/cfq-iosched.c:598-643 | in every run a queue caches a next request exactly when it has one, is in the service tree exactly then, its views agree and queued[] counts them |
| `CfqTheorems.LeftmostTrue` | kernel/block/cfq-iosched.c:412-430 | in every run the leftmost cache is empty or true, cfq_rb_first gives a queue that is real time if any is, idle only if all are, and of the least key in its class; busy_queues is exact and no BUG_ON of the modelled code fires |
| `CfqTheorems.ServedInOrder` | kernel/block/cfq-iosched.c:512-541 | in every run, of any two queues in the tree: behind one that is not real time there is none that is, behind an idle one only idle ones, and of one class the smaller key is first |
| `CfqTheorems.ResortPlaces` | kernel/block/cfq-iosched.c:474-548 | re-sorting a queue gives it the key, leaves the others their keys and order, and puts it behind its equals |
| `CfqTheorems.MergedFifo` | kernel/block/cfq-iosched.c:730-745 | in every run a merged request has the place of the earlier of the two in the FIFO, and all others keep their order |
| `CfqTheorems.ForceOneOk` | kernel/block/cfq-iosched.c:1116-1127 | draining a queue sends its requests, each once, and takes it off the service tree |
| `CfqTheorems.ForcedDrain` | kernel/block/cfq-iosched.c:1133-1147 | forced dispatch, at any point of any run, ends with every request held sent exactly once, nothing held and no queue busy |
| `CfqTheorems.WalkDown` | kernel/block/cfq-iosched.c:507-541 | the walk down a tree of any shape arrives at the place in the order, with `left` still set exactly at the first place |
| `CfqDatas.CfqData.constructor` | kernel/block/cfq-iosched.c:2251-2283 | an empty scheduler |
| `CfqDatas.CfqData.RbFirst` | kernel/block/cfq-iosched.c:412-421 | the first queue, cached |
| `CfqDatas.CfqData.RbErase` | kernel/block/cfq-iosched.c:423-430 | a queue leaves the tree |
| `CfqDatas.CfqData.FindPlace` | kernel/block/cfq-iosched.c:507-541 | the place of a key in the order, and whether it is the first |
| `CfqDatas.CfqData.ServiceTreeAdd` | kernel/block/cfq-iosched.c:500-546 | the tree after a queue was put in its place, or left where it was |
| `CfqDatas.CfqData.AddCfqqRr` | kernel/block/cfq-iosched.c:564-574 | the queue is marked, counted and put on the tree |
| `CfqDatas.CfqData.DelCfqqRr` | kernel/block/cfq-iosched.c:580-593 | the queue is unmarked, no longer counted and off the tree |
| `CfqDatas.CfqData.RemoveRequest` | kernel/block/cfq-iosched.c:687-702 | the queue after a request was removed |
| `CfqDatas.CfqData.DispatchInsert` | kernel/block/cfq-iosched.c:946-959 | the queue after a request was dispatched |
| `CfqDatas.CfqData.ClearAliases` | kernel/block/cfq-iosched.c:623-624 | the alias loop |
| `CfqDatas.CfqData.AddRqToTree` | kernel/block/cfq-iosched.c:613-636 | the queue after a request went into its tree |
| `CfqDatas.CfqData.InsertRequest` | kernel/block/cfq-iosched.c:1918-1931 | the queue after a new request |
| `CfqDatas.CfqData.PullOut` | kernel/block/cfq-iosched.c:638-641 | the request leaves the tree and the count |
| `CfqDatas.CfqData.Reposition` | kernel/block/cfq-iosched.c:638-643 | the queue after a front merge |
| `CfqDatas.CfqData.MergedRequests` | kernel/block/cfq-iosched.c:729-741 | the queue after a merge of two requests |
| `CfqDatas.CfqData.ForcedDispatchCfqq` | kernel/block/cfq-iosched.c:1116-1127 | the loop sends the queue's requests, each once, and ends with the queue empty and off the tree |
| `CfqDatas.CfqData.ForceRound` | kernel/block/cfq-iosched.c:1138-1139 | one round drains the first queue |
| `CfqDatas.CfqData.ForcedDispatch` | kernel/block/cfq-iosched.c:1133-1147 | the loop sends everything held, each request once; no queue stays busy |
| `CamelliaNetwork.Absorption` | kernel/crypto/camellia.c:381-578 | with any operations that obey the laws, the fast network on the absorbed table is the reference network, for any number of groups |
| `CamelliaNetwork.DecryptUndoes` | kernel/crypto/camellia.c:942-970 | decryption undoes encryption with the same table, whatever it holds |
| `CamelliaNetwork.EncryptUndoes` | kernel/crypto/camellia.c:887-915 | encryption undoes decryption, so that every block is the encryption of one |
| `Camellia.XorLawsHold` | kernel/crypto/camellia.c:870-884 | the words obey the laws of exclusive or |
| `Camellia.RoundLawHolds` | kernel/crypto/camellia.c:870-884 | adding the key after the S-boxes through the permutation is adding it before them |
| `Camellia.MaskLawsHold` | kernel/crypto/camellia.c:854-868 | a mask passes through FL and its inverse as setup assumes |
| `Camellia.UndoLawsHold` | kernel/crypto/camellia.c:854-868 | FL and its inverse, and a round, undo each other |
| `Camellia.FlInverse` | kernel/crypto/camellia.c:854-868 | FL and FLINV are inverse to each other |
| `Camellia.RoundSmKey` | kernel/crypto/camellia.c:870-884 | what a round adds for its key |
| `Camellia.EncryptIsReference` | kernel/crypto/camellia.c:887-915 | for all subkeys, S-box tables and blocks, encrypting with the table of camellia_setup_tail is the cipher of sections 2.3 and 2.4 of RFC 3713 |
| `CamelliaRfc.FIsRfc` | kernel/crypto/camellia.c:359-376 | CAMELLIA_F is the F-function of section 2.4.1 of RFC 3713, octet by octet, for all S-boxes that the four tables combine with the P-function |
| `CamelliaRfc.FlIsRfc` | kernel/crypto/camellia.c:854-868 | FL is the function of section 2.4.2, bit by bit, and FLINV its inverse |
| `CamelliaRfc.CipherIsRfc` | kernel/crypto/camellia.c:887-915 | encrypting with these tables and the table of camellia_setup_tail is the cipher of sections 2.3 and 2.4 for all S-boxes, subkeys and blocks |
| `CamelliaRfc.Columns` | kernel/crypto/camellia.c:41-307 | the four tables added up give the sums of the P-function |
| `Camellia.DecryptIsInverse` | kernel/crypto/camellia.c:942-970 | decrypting gives every block back |
| `Camellia.EncryptIsInverse` | kernel/crypto/camellia.c:887-970 | and encrypting what was decrypted does |
| `CamelliaSetup.AbsorbKw2` | kernel/crypto/camellia.c:387-429 | kw2 goes into the even rounds and kw3 |
| `CamelliaSetup.AbsorbKw4` | kernel/crypto/camellia.c:416-468 | kw4 goes into the odd rounds and kw1 |
| `CamelliaSetup.WriteTable` | kernel/crypto/camellia.c:470-559 | the keys are written where the fast network looks for them |
| `CamelliaSetup.UnmixTable` | kernel/crypto/camellia.c:561-577 | the round keys pass through the inverse of half the permutation |
| `CamelliaSetup.TableDone` | kernel/crypto/camellia.c:381-578 | the passes together make the table the fast network needs |
| `CamelliaSetup.SetupTail` | kernel/crypto/camellia.c:381-578 | the table made from any subkeys, for 18 and for 24 rounds |
| `CamelliaSchedule.RoldqRotates` | kernel/crypto/camellia.c:340-347 | ROLDQ rotates the 128 bits |
| `CamelliaSchedule.RoldqO32Rotates` | kernel/crypto/camellia.c:349-357 | ROLDQo32 rotates them by 32 and more |
| `CamelliaSchedule.KaWords128` | kernel/crypto/camellia.c:635-653 | KA as section 2.2 of RFC 3713 defines it, though the code leaves out the steps that cancel |
| `CamelliaSchedule.KaWords256` | kernel/crypto/camellia.c:756-774 | KA for the longer keys |
| `CamelliaSchedule.KbWords256` | kernel/crypto/camellia.c:776-786 | KB for the longer keys |
| `CamelliaSchedule.Setup128` | kernel/crypto/camellia.c:580-684 | the table for the subkeys of section 2.2 of RFC 3713, 128-bit keys |
| `CamelliaSchedule.Setup256` | kernel/crypto/camellia.c:686-833 | the same for 192- and 256-bit keys |
| `CamelliaCipher.Rounds` | kernel/crypto/camellia.c:896-915 | six rounds |
| `CamelliaCipher.Fls` | kernel/crypto/camellia.c:854-868 | the FL and FLINV layer, in place |
| `CamelliaCipher.RoundsBack` | kernel/crypto/camellia.c:951-970 | six rounds backwards |
| `CamelliaCipher.DoEncrypt` | kernel/crypto/camellia.c:887-915 | the buffer after encryption, for both key lengths |
| `CamelliaCipher.DoDecrypt` | kernel/crypto/camellia.c:942-970 | the buffer after decryption |
| `CamelliaCtx.Context.SetKey` | kernel/crypto/camellia.c:1003-1031 | a key of legal length makes the table of its subkeys, any other leaves the context alone |
| `CamelliaCtx.Context.SetLong` | kernel/crypto/camellia.c:835-848 | a 192-bit key is completed with its complement |
| `CamelliaCtx.Context.Encrypt` | kernel/crypto/camellia.c:1033-1055 | the block under the cipher of RFC 3713 |
| `CamelliaCtx.Context.Decrypt` | kernel/crypto/camellia.c:1057-1079 | the one block whose encryption by the cipher of RFC 3713 it is |
| `Completion.FinishBytes` | kernel/block/blk-core.c:1730-1824 | after one call the vectors left are the unfinished suffix |
| `Completion.FinishOnce` | kernel/block/blk-core.c:1730-1824 | after one call each bio has ended once, in order, or is still in the chain |
| `Completion.RunBytes` | kernel/block/blk-core.c:1730-1824 | however the bytes are divided into calls, what is left is the suffix after their sum |
| `Completion.RunOnce` | kernel/block/blk-core.c:1730-1824 | however they are divided, each bio ends at most once, in order |
| `Completion.FinishAt` | kernel/block/blk-core.c:1730-1824 | what one call does to the bio at each position |
| `Completion.RunFates` | kernel/block/blk-core.c:140-177 | each bio ends with the error that its own bytes and flags call for, however the bytes were divided |
| `Completion.CutCut` | kernel/block/blk-core.c:1814-1819 | cutting bytes twice is cutting them once |
| `Completion.SectorSplit` | kernel/block/blk-core.c:160-161 | for any calls that do not finish a bio: the first sector left is that of one call for all bytes if and only if the odd ends stay within a sector; the vectors left always are |
| `Completion.HalfSectors` | kernel/block/blk-core.c:160-161 | two calls for half a sector each leave the sector where it was, one call for both moves it on |
| `Completion.DatalessStuck` | kernel/block/blk-core.c:1766-1771 | part of a bio without vectors: nothing changes |
| `Completion.PartProgress` | kernel/block/blk-core.c:1766-1819 | a partial call takes its bytes off if and only if there are vectors, or nothing to take |
| `RequestCompletion.Request.BioEndio` | kernel/block/blk-core.c:140-177 | the bio after some of its bytes, and whether it ended |
| `RequestCompletion.Request.StoreFirst` | kernel/block/blk-core.c:1811-1819 | the state update after the loop |
| `RequestCompletion.Request.EndBio` | kernel/block/blk-core.c:1757-1762 | a bio with all its bytes leaves the chain |
| `RequestCompletion.Scan` | kernel/block/blk-core.c:1764-1790 | one turn of the loop inside a bio |
| `RequestCompletion.Request.Walk` | kernel/block/blk-core.c:1753-1803 | the loop over the bios |
| `RequestCompletion.Request.EndFirst` | kernel/block/blk-core.c:1730-1824 | what is left of the request, and whether anything is |
| `Ccm.AbsorbCat` | kernel/crypto/ccm.c:164-201 | feeding two strings one after the other |
| `Ccm.AbsorbPad` | kernel/crypto/ccm.c:231-242 | the padded end of a string |
| `Ccm.MsgLenExact` | kernel/crypto/ccm.c:58-74 | the field states the length if and only if it fits; when it is refused, and the one length that slips through |
| `Ccm.FormatInputIsB0` | kernel/crypto/ccm.c:123-143 | the first block is B_0 of section 2.2 of RFC 3610 |
| `Ccm.AdataIsRfc` | kernel/crypto/ccm.c:145-163 | the field before the associated data is that of section 2.2 for every length of an unsigned int |
| `Ccm.AdataReadsBack` | kernel/crypto/ccm.c:145-163 | and reads back as that length, whatever follows it |
| `Ccm.PadIsRfc` | kernel/crypto/ccm.c:231-242 | padding is zeros up to the next multiple of sixteen octets and no more |
| `Ccm.AbsorbIsRfc` | kernel/crypto/ccm.c:164-201 | the chaining value is the last X_i of section 2.2 |
| `Ccm.StreamAbsorbed` | kernel/crypto/ccm.c:245-278 | associated data and text, each padded, are the stream of section 2.2 |
| `Ccm.AuthIsRfc` | kernel/crypto/ccm.c:245-278 | the authenticator is T of section 2.2, with its own encoding of lengths, padding and X_i, for every message whose length fits the field; one byte more is taken with a zero length field; longer ones are refused |
| `Ccm.CounterIsRfc` | kernel/crypto/ccm.c:302-353 | the counter blocks are the A_i of section 2.3 |
| `Ccm.StreamIsRfc` | kernel/crypto/ccm.c:302-353 | the key stream is S_i of section 2.3 |
| `Ccm.EncryptIsRfc` | kernel/crypto/ccm.c:302-353 | the output is that of sections 2.3 and 2.4, from the A_i, for every message whose length fits |
| `Ccm.AcceptsExactly` | kernel/crypto/ccm.c:372-429 | decryption accepts a string and returns p if and only if encrypting p gives the string |
| `Ccm.TooShort` | kernel/crypto/ccm.c:386-388 | nothing shorter than a tag is the output of an encryption |
| `CcmMac.Request.Mix` | kernel/crypto/ccm.c:186-192 | a block is mixed in |
| `CcmMac.Request.FillBlock` | kernel/crypto/ccm.c:174-183 | pending and new bytes make a block |
| `CcmMac.Request.ComputeMac` | kernel/crypto/ccm.c:164-201 | one more chunk of the stream, whatever is pending |
| `CcmMac.Request.PadOut` | kernel/crypto/ccm.c:231-242 | what is pending is padded |
| `CcmMac.Request.GetData` | kernel/crypto/ccm.c:203-243 | any chunking of the data gives the MAC of the padded whole |
| `CcmMac.Request.Authenticate` | kernel/crypto/ccm.c:245-278 | the authenticator over associated data and text in any chunks |
| `Cbc.DecEnc` | kernel/crypto/cbc.c:114-191 | decryption undoes encryption for any invertible block function |
| `Cbc.EncCat` | kernel/crypto/cbc.c:90-112 | a text in two parts is chained through the last block |
| `Cbc.DecCat` | kernel/crypto/cbc.c:169-191 | likewise for decryption |
| `Cbc.DecAt` | kernel/crypto/cbc.c:114-138 | each decrypted block depends on its ciphertext and the one before it only |
| `CbcBytes.MaskExact` | kernel/crypto/cbc.c:153-156 | the mask gives the bytes beyond the last whole block, for any number of bytes, if and only if the block size passes is_power_of_2 |
| `CbcBytes.WordXor` | kernel/crypto/algapi.c:762-771 | combining words is combining their bytes, in either byte order |
| `CbcBytes.CryptoXor` | kernel/crypto/algapi.c:756-771 | words and then bytes: the bytes are combined, within one buffer or between two |
| `CbcBytes.Divide` | kernel/crypto/cbc.c:147-156 | every buffer is whole blocks and a rest |
| `CbcBytes.DividedOnce` | kernel/crypto/cbc.c:147-156 | in one way |
| `CbcBytes.EncryptBytes` | kernel/crypto/cbc.c:66-88 | on bytes in one buffer: the whole blocks become those of section 6.2 of NIST SP 800-38A, the rest stays and its size is returned |
| `CbcBytes.DecryptBytes` | kernel/crypto/cbc.c:140-167 | likewise, from the last block, found by the mask, to the first |
| `Cbc.Walk.EncryptSegment` | kernel/crypto/cbc.c:42-64 | separate buffers: the textbook result of section 6.2 of NIST SP 800-38A and the chaining value |
| `Cbc.Walk.EncryptInPlace` | kernel/crypto/cbc.c:66-88 | one buffer: the same |
| `Cbc.Walk.DecryptSegment` | kernel/crypto/cbc.c:114-138 | separate buffers: the textbook result and the chaining value |
| `Cbc.Walk.DecryptInPlace` | kernel/crypto/cbc.c:140-167 | one buffer, walked backwards: the same |
| `Cbc.Walk.EncryptStep` | kernel/crypto/cbc.c:103-109 | one step of the walk in either loop, over two buffers or one; the rest of the buffer stays |
| `Cbc.Walk.DecryptStep` | kernel/crypto/cbc.c:182-188 | one step of the walk in either loop, over two buffers or one; the rest of the buffer stays |
| `Cbc.Walk.Encrypt` | kernel/crypto/cbc.c:90-112 | however the data is divided, whichever loop each step runs, and whether source and destination are two buffers or one: section 6.2 of NIST SP 800-38A, and the chaining value |
| `Cbc.Walk.Decrypt` | kernel/crypto/cbc.c:169-191 | likewise for decryption |
| `MakeRequest.FifoIsLevels` | kernel/block/blk-core.c:1480-1518 | the queue discipline is breadth first |
| `MakeRequest.FifoOnce` | kernel/block/blk-core.c:1480-1518 | every bio is handled exactly once |
| `MakeRequest.Task.Append` | kernel/block/blk-core.c:1482-1488 | a bio submitted from inside goes to the end of the list |
| `MakeRequest.Task.Take` | kernel/block/blk-core.c:1508-1513 | the first bio comes off the list |
| `MakeRequest.Task.SubmitInside` | kernel/block/blk-core.c:1482-1488 | a call from inside a make_request function |
| `MakeRequest.Task.Handle` | kernel/block/blk-core.c:1514 | a driver submits its bios, and is the only one active |
| `MakeRequest.Task.Step` | kernel/block/blk-core.c:1508-1516 | one turn of the loop |
| `MakeRequest.Task.Submit` | kernel/block/blk-core.c:1480-1518 | everything submitted below is handled, breadth first, and the list is inactive again |
| `RequestPool.ReserveOk` | kernel/block/blk-core.c:753-793 | reserving keeps count, full and congested consistent |
| `RequestPool.RecheckOk` | kernel/block/blk-core.c:705-718 | so does freeing |
| `RequestPool.GetInv` | kernel/block/blk-core.c:753-799 | a reservation keeps the accounting |
| `RequestPool.AllocFailedInv` | kernel/block/blk-core.c:801-825 | a failed allocation gives its reservation back |
| `RequestPool.PutInv` | kernel/block/blk-core.c:1060-1083 | a freed request is no longer counted |
| `RequestPool.SwitchInv` | kernel/block/elevator.c:1082-1160 | every step of a switch keeps the accounting, also if the scheduler keeps requests back |
| `RequestPool.StepInv` | kernel/block/blk-core.c:641-839 | so does every step |
| `RequestPool.PoolAccounting` | kernel/block/blk-core.c:705-839 | at every lock release of every run: the count is reservations plus live requests, at most half over the limit, and full, congested and not congested mean what they say |
| `RequestPool.Granted` | kernel/block/blk-core.c:744-793 | in every run a thread gets a reservation if and only if the scheduler does not refuse, the direction is below the limit or the scheduler insists or the process is batching, and half over the limit is not reached |
| `RequestPool.ReservesExactly` | kernel/block/blk-core.c:744-793 | the same on one direction, with the starved flag |
| `RequestPool.Hysteresis` | kernel/block/blk-core.c:88-101 | a direction is congested from seven eighths of the limit up and until it is back at thirteen sixteenths |
| `RequestPool.SwitchOrBack` | kernel/block/elevator.c:1082-1160 | a switch ends with the new elevator, or with the old one if the new one cannot be registered, whatever happens meanwhile |
| `RequestPool.SafeSwitch` | kernel/block/elevator.c:1082-1160 | elvpriv counts the requests with private data; when a new elevator is attached none refers to the old one and none is sorted |
| `RequestLists.RequestList.GetRequest` | kernel/block/blk-core.c:753-799 | the counters after a reservation, and its outcome |
| `RequestLists.RequestList.RecheckSide` | kernel/block/blk-core.c:705-718 | the flags after a recheck |
| `RequestLists.RequestList.FreedRequest` | kernel/block/blk-core.c:724-736 | the counters after a request was freed, the starved side rechecked |
| `Tags.FirstFree` | kernel/block/blk-tag.c:363-368 | find_next_zero_bit: the first free tag from the offset on, or none |
| `Tags.StartInv` | kernel/block/blk-tag.c:336-380 | starting a request keeps the map exact |
| `Tags.EndInv` | kernel/block/blk-tag.c:281-315 | ending one keeps it exact |
| `Tags.InvalidateInv` | kernel/block/blk-tag.c:395-401 | so does invalidating all of a queue |
| `Tags.ResizeExact` | kernel/block/blk-tag.c:219-264 | resizing copies within the new map and keeps it exact if and only if the depth fits the map, or other queues hold it, or 2 * nr_requests is no less than its size |
| `Tags.CopyAllAt` | kernel/block/blk-tag.c:254-259 | what copying all entries writes, and that it stays inside exactly if they fit |
| `Tags.ShrinkingGrowth` | kernel/block/blk-tag.c:219-264 | a run of nine starts after which asking for more tags copies beyond a smaller map and leaves a request that cannot be ended |
| `Tags.RunInv` | kernel/block/blk-tag.c:219-401 | the map is exact in every run of all queues that share it in which no resize replaces it by a smaller one |
| `Tags.TagsExact` | kernel/block/blk-tag.c:281-380 | in every run a bit is set exactly when one request carries the tag, and its slot holds that request |
| `Tags.Endable` | kernel/block/blk-tag.c:281-315 | in every run a request in flight can be ended, whatever the depth was lowered to |
| `Tags.StartExact` | kernel/block/blk-tag.c:336-380 | a synchronous start succeeds exactly when a tag is free, another one exactly when one is free outside the first quarter, and it takes the lowest such tag |
| `Tags.SyncNeverStarved` | kernel/block/blk-tag.c:350-366 | after any run of asynchronous starts a synchronous one finds a tag, if the depth is at least four |
| `Tags.InvalidateOrder` | kernel/block/blk-tag.c:395-401 | in every run invalidating frees all tags of the queue and no other, and puts its requests before the waiting ones in the order of their starts |
| `QueueTags.QueueTag.constructor` | kernel/block/blk-tag.c:139-156 | a fresh map |
| `QueueTags.QueueTag.FindNextZero` | kernel/block/blk-tag.c:363-368 | the scan for a free tag |
| `QueueTags.QueueTag.StartTag` | kernel/block/blk-tag.c:336-380 | the map and the lists after a start, and its result |
| `QueueTags.QueueTag.EndTag` | kernel/block/blk-tag.c:281-315 | the map and the lists after an end |
| `QueueTags.QueueTag.RequeueRequest` | kernel/block/blk-core.c:938-948 | a tagged request is ended and put at the front |
| `QueueTags.QueueTag.InvalidateTags` | kernel/block/blk-tag.c:395-401 | the loop over the busy list |
| `QueueTags.QueueTag.Memcpy` | kernel/block/blk-tag.c:254-259 | the loop that copies all old entries, and whether it stays inside |
| `QueueTags.QueueTag.ResizeTags` | kernel/block/blk-tag.c:219-264 | the map after resizing, its result, and whether the copying stayed inside |
| `MergeHash.ScanSound` | kernel/block/elevator.c:354-374 | the walk down a chain unlinks only what cannot be merged with, and finds what is there |
| `MergeHash.FindSound` | kernel/block/elevator.c:354-374 | a lookup keeps the chains in order and finds as a search would |
| `MergeHash.BackMergeInv` | kernel/block/elevator.c:531-542 | a back merge keeps every request in the chain of its end |
| `MergeHash.FrontMergeInv` | kernel/block/elevator.c:531-542 | so does a front merge, though the chains are left alone |
| `MergeHash.AbsorbInv` | kernel/block/elevator.c:544-557 | so does a merge of two requests |
| `MergeHash.DispatchInv` | kernel/block/elevator.c:437-493 | so does a dispatch |
| `MergeHash.StepInv` | kernel/block/elevator.c:329-374 | so does every step |
| `MergeHash.HashIsSearch` | kernel/block/elevator.c:354-374 | in every run a lookup finds a request exactly when some mergeable request held ends at the sector, and finds such a one |
| `MergeHash.ChainsAgree` | kernel/block/elevator.c:329-352 | in every run a hashed request is held and in the chain of its current end only |
| `MergeHash.CacheFollows` | kernel/block/elevator.c:531-557 | last_merge is the request merged into last, or else the first inserted while there was none, until it leaves or can no longer be merged |
| `MergeHash.MergeFits` | kernel/block/elevator.c:496-529 | in every run what elv_merge proposes is held, mergeable and adjacent; the cached request is tried first, on both sides, and alone if merging is switched off; a bio that follows a request is merged unless that request refuses it |
| `ElevatorHashes.ElevatorHash.constructor` | kernel/block/elevator.c:211-239 | empty chains |
| `ElevatorHashes.ElevatorHash.RqhashDel` | kernel/block/elevator.c:334-338 | a request is unlinked from where it is linked |
| `ElevatorHashes.ElevatorHash.RqhashAdd` | kernel/block/elevator.c:340-346 | a request is linked into the chain of its end |
| `ElevatorHashes.ElevatorHash.RqhashReposition` | kernel/block/elevator.c:348-352 | a request is moved to the chain of its end |
| `ElevatorHashes.ElevatorHash.RqhashFind` | kernel/block/elevator.c:354-374 | the walk with its unlinking, and what it finds |
| `ElevatorHashes.ElevatorHash.InsertSort` | kernel/block/elevator.c:625-641 | a request the scheduler takes over is hashed if it may be merged with |
| `ElevatorHashes.ElevatorHash.DispatchOut` | kernel/block/elevator.c:443-448 | a request that is dispatched is no longer hashed or cached |
| `ElevatorHashes.ElevatorHash.MergedBack` | kernel/block/elevator.c:531-542 | the chains after a back merge |
| `ElevatorHashes.ElevatorHash.MergedFront` | kernel/block/elevator.c:531-542 | the chains after a front merge |
| `ElevatorHashes.ElevatorHash.MergeRequests` | kernel/block/elevator.c:544-557 | the chains after a merge of two requests |
| `ElevatorHashes.ElevatorHash.JoinBack` | kernel/block/blk-core.c:1165-1182 | a back merge that closes the gap to the next request |
| `ElevatorHashes.ElevatorHash.JoinFront` | kernel/block/blk-core.c:1184-1211 | a front merge that closes the gap to the previous request |

## Left out

- Red-black trees: rotations and colours; a tree is the sequence of its elements, and `WalkDown` takes any shape.
- Time: jiffies do not wrap around, and clocks are parameters.
- Memory order: steps are sequentially consistent, and what runs under the queue lock is one step.
- Barriers: discard barriers, `elv_abort_queue`, a change of the ordering mode between requests of a run, and the order in tag modes, where the device keeps it.
- Barriers: prepared requests and their failures in `elv_next_request`, and merging of requests while they wait.
- chainiv: the seeding of the IV on the first request.
- crypto queue: the walk over backlogged requests in `crypto_tfm_in_queue`.
- Segments.EntriesWithinCount: does not cover merges that save a segment next to a bio without data, with which it is false; `MergeExact` says exactly when.
- Tags.RunInv: does not cover resizes that replace the map by a smaller one, which overrun it; `ResizeExact` says exactly when.
- BarrierTheorems.BarrierSafety: does not cover broken forced dispatch nor barriers that are no fs requests, with which it is false; `SafeExactly`.
- RequestQueues.RequestQueue.AddRequest: does not cover fs requests inserted at the front; in `block` only the driver-specific requests of `blk_insert_request` and `blk_execute_rq_nowait` are.
- SegmentLimits.NeverOutgrown: does not cover recounts of a chain that has changed, nor merges that save a segment next to a bio without data, with which it is false; `DatalessPair`.
- Segments: the padding and drain entries of a scatterlist, 32-bit overflow of sizes, and `biovec` geometry, which is any relation on vectors.
- Segments: recounting a request whose high pages were partly completed, which can exceed `max_phys_segments`.
- DeadlineLatency.PlaceBound: does not cover reads when `writes_starved` is zero, for which no bound holds; `ReadStarves`.
- Deadline: sysfs tunables changing during a run.
- BarrierModes.TagsNeverWedged: does not cover an empty barrier in a tag mode without flushes, which waits for the queue to drain instead.
- AnticipatoryBatches.BatchInTime: does not cover runs with forced dispatch, which resets the direction and keeps the old time.
- Anticipatory: the statistics behind `as_can_break_anticipation`; their verdict is any value, except that the process waited for always ends the wait.
- Anticipatory: think-time and seek statistics, the kblockd work item and the request state used for debugging.
- CFQ: time slices, idling, priorities and the choice of the active queue; any queue may be served, sorted at any key, at any time. A queue keeps its class while it has requests.
- Camellia: conversion of bytes to words; a word is the sequence of its bits. The S-boxes are any functions, so no test vector is computed.
- Completion: `hard_sector` and statistics, the barrier proxy, and the check for bytes beyond a bio.
- CCM: the asynchronous completion of the inner cipher, and the scatterlist walk, which gives any chunks of the data; the counter mode is its definition.
- CBC: the scatterlist walk and its alignment; on bytes only the loops in one buffer, those between two buffers on blocks.
- generic_make_request: remapping of partitions and the checks of `__generic_make_request`.
- Request pool: waiting and batching of tasks beyond the flag that a task is batching; nr_requests is fixed in a run.
- Tag map: the race of two queues for one bit, which costs a retry; what memory beyond a replaced map that is too small is overwritten.
- Merge hash: the hash function, which is any function, and the checks of `elv_rq_merge_ok` beyond `rq_mergeable`.
- Not modelled: sysfs, ioctl, blktrace, bsg, timeouts, softirq completion, the remaining ciphers and hashes, templates and module references of the crypto layer, and all of the kernel outside `block` and `crypto`.
