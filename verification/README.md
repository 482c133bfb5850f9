# A verified model of the Akida PCIe DMA stack

The Akida driver moves bytes between host memory and a neuromorphic PCIe device with the Synopsys
DMA engine embedded in the device. This project models that stack in Dafny, from the `read` and
`write` calls of the character device down to the 32-bit stores that make up a linked list in device
RAM, and proves what its layers promise each other.

| Layer | Files |
|---|---|
| Machine words, heap, byte memories | `Words.dfy`, `Heap.dfy`, `Memory.dfy` |
| Requests, their bursts, what these mean, and the cutting into chunks | `Requests.dfy`, `Meaning.dfy`, `Bursts.dfy` |
| The descriptor compiler, with every allocation it makes | `Descriptor.dfy`, `Starts.dfy` |
| The list region, its writer and the engine's walk | `LinkedList.dfy`, `ListWriter.dfy`, `Layout.dfy`, `Engine.dfy` |
| Cookies and one DMA channel | `Cookies.dfy`, `ChannelSpec.dfy`, `Channel.dfy` |
| Runs of a channel with its engine and its clients | `ChannelRuns.dfy`, `ChannelSafety.dfy`, `ChannelProgress.dfy`, `ChannelCalls.dfy` |
| A run's effect on memory | `EndToEnd.dfy`, `ClientRuns.dfy` |
| Vectors, channel table, interrupt dispatch | `Irq.dfy` |
| Register viewport of legacy controllers | `Viewport.dfy` |
| The character device and its channel pool | `Client.dfy`, `Outstanding.dfy`, `Pool.dfy` |

Objects the driver changes in place are classes with the driver's fields (`Descriptor.Chunk`,
`Descriptor.Desc`, `Channel.DmaChannel`, `ListWriter.ListRegion`, `Irq.Tables`, `Irq.Controller`,
`Client.AkidaDevice`), and each of their methods is proved against a function of the old state.
What is promised is then proved about those functions, over every input or every run.

`dafny verify dfyconfig.toml` checks the whole project.

## Assumptions

- A chunk handed to the engine raises at most one done or abort interrupt, or none at all, and chunks in
  flight end in the order they were handed over. The done interrupt of the only chunk in flight comes when its
  list is exhausted; with several in flight it may come any time. A start while a chunk is in flight makes the
  engine begin on the list it then finds. Spurious interrupts are outside the model. Asked whether it has
  finished, the engine may answer anything at any time: the register reads complete between a chunk's end and
  its interrupt handler, and one back end reads another channel's register.
- The engine consumes a list by a simple walk: entry by entry while the cycle bit matches, up to a link entry.
- Each driver call, interrupt handler and tasklet is one step. For pause, resume and terminate, which
  take no lock, and for the last two writes of the abort handler this is an assumption; the others hold
  the channel lock.
- The kernel's `vchan_tx_submit`, `vchan_find_desc` (searching the issued list), the completion tasklet and
  `dma_async_is_complete` are not in the repository. They are modelled by their kernel contracts.
- An interleaved template has the `frame_size` elements it announces. The kernel's gap helpers are
  given values. Scatter lists may be shorter than announced: the build loop then stops early.
- The character device is used by one client at a time on one channel a direction; device memory changes
  only through its transfers. Callbacks of a channel run in submission order, which is proved of the channel
  (`ChannelSafety.CallbacksInOrder`). A buffer freed after a timeout may become the next call's buffer.
- The VFS only passes file ranges whose end is below 2^63.
- 64-bit stores to list memory are written as two halves, low half first, in program order. A single wider
  store shows a reader a subset of what is shown here.
- Signed overflow wraps (the kernel is built that way), in the loop counter and in cookies.

## Where the code does not do what one might expect

Each of these is a theorem below, with the exact condition.

- Terminating a busy channel while a chunk is in flight, when the engine is reported finished, forgets that
  chunk. That loses nothing by itself, but the next issue starts another chunk over it, which loses exactly
  what was not executed by then (`ChannelRuns.FlightKeptIff`, `ChannelProgress.TwoInFlight`,
  `EndToEnd.TerminateLosesNothing`, `StartOverIff`, `SecondStartHides`).
- `read` and `write` take any callback on their channel for their own. After a transfer timed out, a later
  one is reported as done when the earlier one's callback comes, with nothing moved, and so is the one after
  it (`Client.SuccessMovesIff`, `StaleSuccess`, `ChannelProgress.StaleCompletion`, `Pool.StaleFinish`).
- A read that timed out still stores to the buffer it freed, which may be the next write's: that then stores
  other bytes than it was given and is reported as done (`Client.SuccessMovesIff`, `StaleReadSpoils`).
- An aborted transfer looks to its client like a completed one, whatever bytes it left
  (`EndToEnd.AbortLooksDone`, `Client.AbortReported`).
- Pausing during the last chunk of a descriptor kills the channel: the head is not completed, resuming
  answers success, and nothing is ever started again (`ChannelProgress.PausedDeadIff`, `PauseKills`).
- Terminating a channel that lost an interrupt while a request was pending leaves the request pending
  on an idle channel, which then never starts anything again (`ChannelProgress.TerminateKills`,
  `ChannelSafety.RequestKeptIff`).
- The `-EPERM` branch of terminate is dead: no request ranks above a pause (`ChannelSpec.TerminateAlwaysSucceeds`).
- The engine is set up again in the middle of a transfer when a chunk boundary falls on a multiple of
  4 GiB, because "nothing transferred yet" is read off a 32-bit byte count (`Starts.SetUpOnceIff`, `SetUpTwice`).
- From 2^31 bursts on, the signed loop counter may pick wrong elements of an interleaved frame
  (`Requests.IndexFaithfulIff`, `InterleavedIndexDiverges`).
- A list region of less than 48 bytes does not limit chunks at all (`Layout.FitsIff`).
- A callback that runs after its client timed out unmaps a second time (`Pool.MapsKeptIff`).
- The list-memory check is defeated by ranges that wrap around 2^64, which the VFS excludes; it also refuses
  ranges that end exactly at list memory (`Client.AllowedSafeIff`, `AllowedExact`).

## Model

| member | source | states |
|---|---|---|
| Bursts.SplitFlatten | akida-dw-edma/dw-edma-core.c:457-469 | Cutting the bursts of a request into chunks loses, adds and reorders nothing, whatever the limit, 0 included. |
| Bursts.SplitShape | akida-dw-edma/dw-edma-core.c:461-469 | With room for a burst, every chunk but the last holds exactly `ll_max` bursts and none is empty. |
| Bursts.SplitCount | akida-dw-edma/dw-edma-core.c:457-469 | n bursts take the ceiling of n / `ll_max` chunks; no burst at all takes one empty chunk. |
| Bursts.SplitWindow | akida-dw-edma/dw-edma-core.c:457-469 | Chunk k is the k-th window of `ll_max` bursts of the flat list. |
| Bursts.SplitBounded | akida-dw-edma/dw-edma-core.c:461-466 | No chunk exceeds the limit exactly when the limit is positive or there is nothing to place. |
| Requests.AddressAdvances | akida-dw-edma/dw-edma-core.c:484-535 | The running 64-bit addresses of the build loop are, at every burst, the addresses given by position. |
| Requests.IndexFaithfulIff | akida-dw-edma/dw-edma-core.c:457-480 | The signed counter picks the intended frame elements exactly when it stays below 2^31 or the frame length divides 2^64 - 2^32. |
| Requests.InterleavedIndexDiverges | akida-dw-edma/dw-edma-core.c:457-480 | An interleaved template of 7 elements of 1 to 7 bytes and over 2^31 bursts: burst number 2^31 stands for the element of 3 bytes, the loop makes one of 1 byte. |
| Meaning.AcceptedExactly | akida-dw-edma/dw-edma-core.c:215-230 | A configured channel accepts a request exactly when it has a payload and the one direction the channel advertises; each of the four pairs of the wrong direction is refused by name. |
| Meaning.ScatterMeans | akida-dw-edma/dw-edma-core.c:450-535 | A scatter list compiles to one burst for every entry up to the length announced; burst i has the length and bus address of entry i, and on the device side begins where burst i - 1 ended, the first one at the configured address. |
| Meaning.CyclicMeans | akida-dw-edma/dw-edma-core.c:447-513 | A cyclic request compiles to one burst a period (the count taken modulo 2^32), all between the period's bus address and the configured device address. |
| Meaning.InterleavedMeans | akida-dw-edma/dw-edma-core.c:438-535 | A template compiles to numf * frame_size bursts (modulo 2^32). Element r of frame q is read at `src_start` and stored at `dst_start`, each moved by q whole frames and the elements before r: sizes, plus source or destination gaps where enabled; the device side is translated to a bus address. So whenever the signed counter is harmless. |
| Meaning.PlanMeans | akida-dw-edma/dw-edma-core.c:362-544 | The chunks of a compiled request, taken together, are these bursts. |
| Requests.PlanMeaning | akida-dw-edma/dw-edma-core.c:362-544 | The chunks of a compiled request, flattened, are the bursts the request means. |
| Requests.PlanShape | akida-dw-edma/dw-edma-core.c:77-120 | Cycle bits run 1, 0, 1, ...; all chunks but the last are full; there are as many as needed. |
| Memory.RunGathers | akida-dw-edma/dw-edma-core.c:507-526 | Towards the device, the bursts of the first n entries of a scatter list store their bytes as one contiguous run at the configured address and change nothing else, for every n up to the list's end or its announced length. |
| Memory.RunScatters | akida-dw-edma/dw-edma-core.c:486-506 | From the device, they take one contiguous run from the configured address and scatter it over these entries, and change nothing else. |
| Memory.RunCyclic | akida-dw-edma/dw-edma-core.c:475-513 | Every period of a cyclic request moves the same bytes to the same place, so any number of them does what one does. |
| Heap.Allocator.Kfree | akida-dw-edma/dw-edma-core.c:139-173 | Only a live cell can be freed, so no proof below frees a cell twice. |
| Descriptor.Chunk.AllocBurst | akida-dw-edma/dw-edma-core.c:55-75 | The first burst becomes the list head, later ones are appended and counted; exactly one cell more is live, or none. |
| Descriptor.Chunk.FreeBurst | akida-dw-edma/dw-edma-core.c:139-153 | Gives back exactly the cells of the burst list and its head. |
| Descriptor.NewChunk | akida-dw-edma/dw-edma-core.c:77-120 | A chunk with its list head from two allocations, or nothing and nothing allocated. |
| Descriptor.Desc.AllocChunk | akida-dw-edma/dw-edma-core.c:77-120 | A further chunk is appended with the opposite cycle bit; the descriptor owns exactly its cells in addition. |
| Descriptor.AllocDesc | akida-dw-edma/dw-edma-core.c:122-137 | A descriptor with an empty chunk list, or nothing and nothing allocated. |
| Descriptor.Desc.FreeChunks | akida-dw-edma/dw-edma-core.c:155-173 | Gives back every chunk, burst and list head, each once. |
| Descriptor.Desc.FreeDesc | akida-dw-edma/dw-edma-core.c:175-179 | Gives back everything the descriptor owns, and nothing else. |
| Descriptor.Desc.Place | akida-dw-edma/dw-edma-core.c:461-483 | One more burst, in a new chunk when the last is full; fails exactly when an allocation it makes fails, and then owns what it owned. |
| Descriptor.DeviceTransfer | akida-dw-edma/dw-edma-core.c:362-544 | The descriptor built is exactly the request's plan, and its chunks taken together mean the request, entry by entry; there is none exactly when the request is refused or one of the allocations the build makes fails, and then no cell is left over. |
| Descriptor.Desc.TakeFirst | akida-dw-edma/dw-edma-core.c:203-211 | Hands over the first chunk, set up when nothing counts as transferred, adds its size, and frees exactly its cells. |
| Starts.Lifecycle | akida-dw-edma/dw-edma-core.c:155-214 | Compiled, any number of chunks handed over, then freed: the heap is as before, and the engine saw the first chunks of the plan in order. |
| Starts.CompiledIsWhole | akida-dw-edma/dw-edma-core.c:482-483 | In a compiled descriptor `alloc_sz` is the sum of all chunk sizes modulo 2^32. |
| Starts.PlanSums | akida-dw-edma/dw-edma-core.c:206-207 | The bytes counted after k chunks are those of the first k * `ll_max` bursts modulo 2^32. |
| Starts.SetUpFor | akida-dw-edma/dw-edma-core.c:206-207 | Start k of a request is its chunk k, with `first` set exactly when a multiple of 2^32 bytes precedes it. |
| Starts.SetUpOnceIff | akida-dw-edma/dw-edma-core.c:206 | `first` is set for chunk 0 only, exactly when no later chunk begins at a multiple of 2^32 bytes. |
| Starts.SmallSetUpOnce | akida-dw-edma/dw-edma-core.c:206 | Below 4 GiB without empty bursts, `first` is set for chunk 0 only. |
| Starts.SetUpTwice | akida-dw-edma/dw-edma-core.c:206 | Three bursts of 2 GiB, one a chunk: `first` is set again for the third. |
| LinkedList.RoundTrip | akida-dw-edma/dw-edma-v0-core.c:287-361 | Over any old contents, the walk reads exactly the chunk's bursts; only the last entry raises interrupts; the link points to the base with the opposite cycle bit; nothing beyond it is touched. |
| LinkedList.SafePublication | akida-dw-edma/dw-edma-v0-core.c:287-361 | Over a region whose entries all stop the reader, the reader sees after every single store the entries completed so far. |
| LinkedList.SafeOverPredecessor | akida-dw-edma/dw-edma-v0-core.c:287-361 | The same over an at least as long chunk of the opposite cycle bit, whatever lies behind it. |
| LinkedList.PublicationExact | akida-dw-edma/dw-edma-v0-core.c:333-361 | A region is safe to publish every chunk of n bursts over exactly when each of its first n + 1 entries stops the reader. |
| ListWriter.ListRegion.WriteChunk | akida-dw-edma/dw-edma-v0-core.c:333-361 | The loop over the bursts makes exactly the chunk's stores, in order; walked afterwards, the region yields the bursts. |
| ListWriter.ListRegion.WriteLlData | akida-dw-edma/dw-hdma-v0-core.c:158-181 | Size and addresses first, the control word last. |
| ListWriter.ListRegion.WriteLlLink | akida-dw-edma/dw-hdma-v0-core.c:183-202 | Both halves of the pointer first, the control word last. |
| Layout.FitsIff | akida-dw-edma/dw-edma-core.c:743-747 | With the burst limit derived from the region size, no chunk of any request overruns its region exactly when that has at least 48 bytes. |
| Engine.PipelineMeaning | akida-dw-edma/dw-edma-core.c:186-214 | Writing all chunks of a plan to the region one after the other, walking and executing them has, outside the region, exactly the effect of the request's flat burst list. |
| Engine.PlanServable | akida-dw-edma/dw-edma-core.c:471-475 | With a region of at least 48 bytes every plan fits it. |
| Engine.PlanPublishesSafely | akida-dw-edma/dw-edma-core.c:89-95 | Chunk k of a plan, written over chunk k - 1, never shows the engine a stale or half-written entry. |
| Engine.NextDescriptorIff | akida-dw-edma/dw-edma-core.c:77-120 | The first chunk of the next descriptor is safe to publish over what a plan leaves exactly when that has an even number of chunks and no entry of its last but one chunk is uncovered. |
| Engine.GatherPipeline | akida-dw-edma/dw-edma-core.c:507-526 | End to end, a scatter list towards the device is one contiguous store of the bytes of all its entries, up to the length announced. |
| Engine.ScatterPipeline | akida-dw-edma/dw-edma-core.c:486-506 | End to end, a scatter list from the device is one contiguous load scattered over all its entries, up to the length announced. |
| Cookies.NextCookieCounts | kernel/5.16/drivers/dma/dmaengine.h:29-40 | Assigning cookies refines counting submissions, across the wrap to 1. |
| Cookies.StatusFaithfulIff | kernel/5.16/drivers/dma/dmaengine.h:68-83 | Every cookie is reported in progress exactly when a submission carrying it is outstanding, if and only if fewer than 2^31 - 1 are. |
| Channel.DmaChannel.Prep | kernel/5.16/drivers/dma/virt-dma.h:56-74 | The descriptor joins the prepared list, and no descriptor is ever on two lists. |
| Channel.DmaChannel.TxSubmit | kernel/5.16/drivers/dma/dmaengine.h:29-40 | The prepared descriptor gets the next cookie and moves to the end of the submitted list. |
| Channel.DmaChannel.StartTransfer | akida-dw-edma/dw-edma-core.c:186-214 | The head hands its first chunk to the engine, if it has one, and answers whether it did. |
| Channel.DmaChannel.CookieComplete | kernel/5.16/drivers/dma/virt-dma.h:94-106 | The head leaves the issued list, its cookie becomes the completed one, and it joins the completed list. |
| Channel.DmaChannel.IssuePending | akida-dw-edma/dw-edma-core.c:309-324 | All submitted descriptors are issued in order, and an idle channel with nothing pending starts. |
| Channel.DmaChannel.Pause | akida-dw-edma/dw-edma-core.c:245-260 | Requests a pause of a configured, busy channel with nothing pending; refuses otherwise. |
| Channel.DmaChannel.Resume | akida-dw-edma/dw-edma-core.c:262-279 | Makes a paused channel busy and starts the head's next chunk, if any. |
| Channel.DmaChannel.TerminateAll | akida-dw-edma/dw-edma-core.c:281-307 | Idle and unconfigured, or a stop request while the engine still works. |
| ChannelSpec.TerminateAlwaysSucceeds | akida-dw-edma/dw-edma-core.c:300-304 | The error branch is never taken. |
| Channel.DmaChannel.DoneInterrupt | akida-dw-edma/dw-edma-core.c:599-638 | By pending request: goes on with the next chunk, completes and stops, or pauses. |
| Channel.DmaChannel.AbortInterrupt | akida-dw-edma/dw-edma-core.c:640-654 | Completes the head and leaves the channel idle with nothing pending. |
| Channel.DmaChannel.TxStatus | akida-dw-edma/dw-edma-core.c:326-360 | Status and residue of a cookie, found by searching the issued list. |
| ChannelRuns.FlightKeptIff | akida-dw-edma/dw-edma-core.c:186-324 | A step keeps at most one chunk in flight, of the issued head, on a busy and configured channel, exactly when it is not a terminate told that the engine has finished while a chunk is in flight. |
| ChannelRuns.BusyKept | akida-dw-edma/dw-edma-core.c:245-324 | Every step keeps: a busy channel has a chunk in flight, lost an interrupt or is stuck on a spent head; a busy or paused channel, and one with a request pending, has something issued. |
| ChannelRuns.StartKeeps | akida-dw-edma/dw-edma-core.c:186-214 | Handing over a chunk keeps order, cookies, progress records and the start log. |
| ChannelRuns.CompleteKeeps | kernel/5.16/drivers/dma/virt-dma.h:94-106 | So does completing the head. |
| ChannelRuns.SpliceKeeps | kernel/5.16/drivers/dma/virt-dma.h:82-86 | So does moving the submitted to the issued descriptors. |
| ChannelRuns.SubmitKeeps | kernel/5.16/drivers/dma/dmaengine.h:29-40 | So does submitting any prepared descriptor. |
| ChannelSafety.RunKeepsFlight | akida-dw-edma/dw-edma-core.c:186-324 | In every run without such a terminate that stays so. |
| ChannelSafety.OneInFlight | akida-dw-edma/dw-edma-core.c:186-324 | From power-up, in every such run at most one chunk is in flight; it is the last one handed over, by the issued head of a busy, configured channel. |
| ChannelSafety.FirstInFirstOut | kernel/5.16/drivers/dma/virt-dma.h:56-106 | In every reachable state freed, completed, issued and submitted descriptors, in that order, are the submissions in order, none occurs twice, and the prepared ones are distinct and not among them. |
| ChannelSafety.CallbacksInOrder | kernel/5.16/drivers/dma/virt-dma.h:94-106 | Over any run, the j-th descriptor called back is the j-th submitted. |
| ChannelSafety.CookiesInterval | kernel/5.16/drivers/dma/dmaengine.h:16-57 | In every reachable state the outstanding cookies are the circular interval behind the completed one up to the last used one, in submission order, and the next to complete is the completed cookie's successor. |
| ChannelSafety.OnlyHeadLosesChunks | akida-dw-edma/dw-edma-core.c:199-211 | In every reachable state only the issued head can have given chunks away, and a suffix of its list is left. |
| ChannelSafety.StartsInOrder | akida-dw-edma/dw-edma-core.c:199-211 | All chunks ever handed over are, submission by submission, a prefix of its chunk list, each once and in order, with the `first` flags of that list. |
| ChannelSafety.ReportFaithful | akida-dw-edma/dw-edma-core.c:326-360 | In every reachable state each submission is reported complete exactly when it is, and while issued its residue is the bytes not yet handed to the engine, modulo 2^32. |
| ChannelSafety.RemainingNeverGrows | akida-dw-edma/dw-edma-core.c:206-211 | Over any run the bytes left of a submission never grow. |
| ChannelSafety.RequestKeptIff | akida-dw-edma/dw-edma-core.c:281-307 | A step leaves a request pending on a channel that is not busy exactly when it is a terminate finding a finished engine while a request is pending. |
| ChannelSafety.RunKeepsRequest | akida-dw-edma/dw-edma-core.c:245-307 | Runs without that step only ever have requests pending on busy channels. |
| ChannelSafety.WholeKeptIff | akida-dw-edma/dw-edma-core.c:599-654 | A step completes a descriptor with chunks left exactly when it is an abort, or a done with a stop pending, and chunks are left. |
| ChannelSafety.RunCompletesWhole | akida-dw-edma/dw-edma-core.c:599-654 | In runs without those steps every completed submission was handed over whole. |
| ChannelProgress.Drain | akida-dw-edma/dw-edma-core.c:599-638 | With something issued, nothing pending, a chunk in flight and K chunks not started, exactly K + 1 done interrupts start the K chunks in order, complete all issued descriptors in order, and leave the channel idle, nothing issued, and one chunk fewer in flight. |
| ChannelProgress.BusyUntilDrained | akida-dw-edma/dw-edma-core.c:610-621 | From the first to the K-th of them the channel is busy, with as many chunks in flight as at first. |
| ChannelProgress.ReachableDraining | akida-dw-edma/dw-edma-core.c:599-638 | Every reachable state with something issued, a chunk in flight and nothing pending drains that way. |
| ChannelProgress.DeadForever | akida-dw-edma/dw-edma-core.c:262-324 | With nothing in flight, and the head spent or a request pending, no run whatsoever starts a chunk or completes a descriptor again. |
| ChannelProgress.CanStartIff | akida-dw-edma/dw-edma-core.c:262-324 | With work queued and nothing in flight, some run starts a chunk exactly when the head has one left and nothing is pending. |
| ChannelProgress.PausedDeadIff | akida-dw-edma/dw-edma-core.c:628-631 | A pause is carried out fatally exactly when the head has no chunk left; resuming then succeeds and starts nothing. |
| ChannelProgress.LostDeadIff | akida-dw-edma/dw-edma-core.c:293-299 | Losing an interrupt is fatal exactly when the head has no chunk left or a request is pending. |
| ChannelProgress.PauseKills | akida-dw-edma/dw-edma-core.c:245-279 | From power-up, ordinary calls and interrupts reach such a paused state. |
| ChannelProgress.TwoInFlight | akida-dw-edma/dw-edma-core.c:293-324 | From power-up, a terminate during a first chunk that is told the engine has finished, and a new issue, put the first two chunks of a descriptor in flight at once. |
| ChannelProgress.StaleCompletion | akida-dw-edma/dw-edma-core.c:309-324 | From power-up, after a terminate during a transfer the next descriptor is issued but not started, and the done interrupt that follows completes the earlier one. |
| ChannelProgress.TerminateKills | akida-dw-edma/dw-edma-core.c:293-299 | From power-up, a lost interrupt and a terminate reach an idle channel with a request pending forever. |
| ChannelCalls.GiveUpThenIssue | akida-dw-edma/dw-edma-core.c:309-324 | From every reachable state: after an abort, or the done interrupt a stop waits for, the next issue on a configured channel hands over the first chunk of the descriptor behind the head, set up anew; with none behind it the channel is left idle with nothing pending. |
| ChannelCalls.PrepThenSubmit | kernel/5.16/drivers/dma/virt-dma.h:56-74 | A descriptor prepared and then submitted is the last submission, whole and with the next cookie. |
| ChannelCalls.CompletedCleared | kernel/5.16/drivers/dma/dmaengine.h:49-57 | Over any run completed descriptors carry no cookie any more. |
| ChannelCalls.PauseOnlyDelays | akida-dw-edma/dw-edma-core.c:245-279 | With chunks left, pausing during a chunk, its done interrupt and resuming lead to the very state the done interrupt alone leads to. |
| ChannelCalls.PausedHolds | akida-dw-edma/dw-edma-core.c:262-324 | A paused channel with nothing in flight starts and completes nothing in any run without a resume or terminate. |
| ChannelCalls.StopEndsIff | akida-dw-edma/dw-edma-core.c:599-654 | A pending stop ends exactly with an abort, or with a done interrupt while something is issued; in particular no pause replaces it. |
| ChannelCalls.PauseEndsIff | akida-dw-edma/dw-edma-core.c:281-307 | A pending pause ends exactly so too, or is replaced by a stop when a busy, configured channel is terminated. |
| ChannelCalls.RequestComesFrom | akida-dw-edma/dw-edma-core.c:245-307 | A request arises exactly from a pause or a terminate of a configured, busy channel whose engine still works. |
| ChannelCalls.AnswersTrue | akida-dw-edma/dw-edma-core.c:245-279 | Pause and resume answer success exactly when they changed the channel, and never both would. |
| ChannelCalls.ConfiguredIff | akida-dw-edma/dw-edma-core.c:233-307 | A configuration begins with a configuration call only, and ends exactly with a terminate that finds the channel not busy or the engine finished. |
| ChannelCalls.TerminateRefuses | akida-dw-edma/dw-edma-core.c:281-381 | After such a terminate every preparation is refused, whatever happens, until the next configuration. |
| ChannelCalls.RefusedUntilConfigured | akida-dw-edma/dw-edma-core.c:309-381 | In any run of an unconfigured channel without a configuration nothing is prepared, and an issue does nothing. |
| EndToEnd.FlightMoves | akida-dw-edma/dw-edma-core.c:186-324 | In any step, however many chunks are in flight, the first one ends or none does, and a chunk started joins as the last. |
| EndToEnd.StartsAlone | akida-dw-edma/dw-edma-core.c:186-324 | With at most one chunk in flight, of the issued head of a busy channel, no step starts a chunk over another. |
| EndToEnd.OneWithoutOver | akida-dw-edma/dw-edma-core.c:186-324 | At most one chunk in flight stays at most one exactly in the steps that start none over another. |
| EndToEnd.MemoryAlways | akida-dw-edma/dw-edma-core.c:186-214 | In every state of every run, with the engine fetching entry by entry from the region, and chunks started over others included, memory off the region is what executing the bursts fetched so far makes of the first memory. |
| EndToEnd.ConservedIff | akida-dw-edma/dw-edma-core.c:599-654 | A step keeps executed, in-flight and waiting bursts together equal to the submitted ones, in order, exactly when it loses none: no chunk aborted, forgotten or overwritten with entries left, no descriptor completed with bursts left. |
| EndToEnd.StartOverIff | akida-dw-edma/dw-edma-core.c:186-214 | Starting a chunk over one in flight loses exactly what was not executed of that, and so keeps all bursts accounted for exactly when that is nothing. |
| EndToEnd.OnlyLossyLoses | akida-dw-edma/dw-edma-core.c:599-654 | With at most one chunk in flight only an abort, a lost interrupt, a done with a stop pending, or a start over a chunk loses bursts. |
| EndToEnd.TerminateLosesNothing | akida-dw-edma/dw-edma-core.c:281-307 | A terminate, whatever the engine answers, loses nothing by itself. |
| EndToEnd.AbortLooksDone | akida-dw-edma/dw-edma-core.c:640-654 | An abort of the head's last chunk leaves the same completed list and cookies, and the tasklet the same callbacks, as its done interrupt; but nothing more was executed, and what was left of the chunk is lost. |
| EndToEnd.AllAccounted | akida-dw-edma/dw-edma-core.c:186-360 | At any time of any run executed, in-flight and waiting bursts are those of the submitted requests, in submission order, exactly when no step lost any. |
| EndToEnd.RunMeaning | akida-dw-edma/dw-edma-core.c:186-360 | In any run under any interleaving, terminates included, once the channel has completed all it was given and nothing is in flight, it executed exactly the submitted requests, one after the other, if and only if no step lost a burst, and memory is then what these requests make of it. |
| EndToEnd.SecondStartHides | akida-dw-edma/dw-edma-v0-core.c:333-361 | A chunk of the opposite cycle bit written over the one in flight leaves the engine nothing to fetch for that. |
| EndToEnd.AllFlatten | akida-dw-edma/dw-edma-core.c:362-544 | The chunks of all submissions, flattened, are the bursts of all requests in submission order. |
| EndToEnd.ChannelRun | akida-dw-edma/dw-edma-core.c:186-360 | With the engine's steps left out a run is a run of the channel, so what is proved of those holds here. |
| EndToEnd.OwnTransfer | akida-dw-edma/dw-edma-core.c:599-638 | A channel with nothing queued or in flight is given one descriptor: in every run that ends with nothing queued that is the one completed last, and with nothing in flight exactly its bursts were executed if and only if none was lost. |
| EndToEnd.PlainRunLosesNothing | akida-dw-edma/dw-edma-core.c:186-324 | Runs of configurations, preparations, submissions, issues, pauses, resumes, done interrupts and tasklets never lose a burst. |
| ClientRuns.OwnCompletion | akida-pcie-core.c:189-215 | When a client's transfer, given to a channel with nothing queued or in flight, is completed, it is the one completed last, and with nothing in flight the engine executed exactly its copy if and only if no step lost it, memory then being changed by that copy alone. |
| ClientRuns.PlainCompletion | akida-pcie-core.c:189-215 | Without aborts, lost interrupts and terminates its completion means that the copy was made. |
| Irq.Distribute | akida-dw-edma/dw-edma-core.c:871-877 | The alternating loop ends, and its result is the closed form of both shares. |
| Irq.SharesFair | akida-dw-edma/dw-edma-core.c:817-877 | Every usable vector is used, no direction exceeds its channels, none with channels goes without from two vectors on, and the split is even where it can be. |
| Irq.AddIrqMask | akida-dw-edma/dw-edma-core.c:825-829 | Ends with the least positive multiplier that covers the channels, given a vector or no channels. |
| Irq.IrqRequest | akida-dw-edma/dw-edma-core.c:831-904 | Holds exactly the vectors shared out, or, on any failure, none. |
| Irq.GrantedUsable | akida-dw-edma/dw-edma-core.c:871-881 | What is granted never makes the table setup divide by zero or leave the vector array. |
| Irq.VectorRepeats | akida-dw-edma/dw-edma-core.c:753-767 | Channels go round the vectors of their direction: each shares the vector of the one as many places before it. |
| Irq.MaskExact | akida-dw-edma/dw-edma-core.c:753-767 | A channel is in the mask of its own vector and in no other. |
| Irq.MaskNonempty | akida-dw-edma/dw-edma-core.c:753-767 | No vector is without channels; with several vectors the first serve write channels only, the rest read channels only. |
| Irq.Tables.SetupInOneLoop | akida-dw-edma/dw-edma-core.c:726-783 | Fills the table and the masks the configuration determines: the first rows are write channels 0, 1, ..., the others read channels 0, 1, ..., each with the burst limit of its own region. |
| Irq.Tables.SetupInTwoPasses | kernel/5.4/akida-dw-edma/dw-edma-core.c:693-768 | The two-pass setup fills the very same table and masks, for all channel and vector counts. |
| Irq.Controller.HandleInt | akida-dw-edma/dw-edma-v0-core.c:241-285 | Calls done for each pending done bit of the mask, then abort for each abort bit, lowest first, clearing exactly these. |
| Irq.Controller.HandleIntNative | akida-dw-edma/dw-hdma-v0-core.c:116-156 | The same channel by channel. |
| Irq.SameCalls | akida-dw-edma/dw-hdma-v0-core.c:137-153 | Both back ends make the same calls, each equally often. |
| Irq.ServeAll | akida-dw-edma/dw-edma-v0-core.c:241-285 | Serving all vectors of a direction by the table: the handler of a row is called once if the row is of that direction and the bit of its own channel number is set, otherwise never; nothing beyond the table is called. |
| Irq.BothDirections | akida-dw-edma/dw-edma-v0-core.c:241-285 | Over both directions each row of the table is called for the bit of its own channel, and for no other. |
| Viewport.ReachesIff | akida-dw-edma/dw-edma-v0-core.c:123-128 | The viewport reaches the channel meant exactly when its number is below 8. |
| Viewport.RefinesBanks | akida-dw-edma/dw-edma-v0-core.c:114-162 | Under any interleaving of the threads' steps, locked accesses have the results and effect of single steps on independent register banks. |
| Viewport.RefinesFromStart | akida-dw-edma/dw-edma-v0-core.c:114-162 | So in every run from power-up, whatever the registers hold then. |
| Viewport.RaceDiverges | akida-dw-edma/dw-edma-v0-core.c:121-131 | Without the lock there is an interleaving that writes another channel's register. |
| Viewport.LegacyRegisters.WritelCh | akida-dw-edma/dw-edma-v0-core.c:114-135 | Changes exactly the register of the selected channel. |
| Viewport.LegacyRegisters.ReadlCh | akida-dw-edma/dw-edma-v0-core.c:137-162 | Reads the register of the selected channel and changes no register. |
| Client.AllowedSafeIff | akida-pcie-core.c:223-228 | The check keeps transfers off list memory for exactly the ranges that do not wrap around below it. |
| Client.AllowedExact | akida-pcie-core.c:223-228 | Below 2^63 it refuses exactly the ranges meeting list memory, those ending just at it, and empty ones inside it. |
| Client.ClientServed | akida-pcie-core.c:119-205 | One transfer of a buffer is one copy between the mapped buffer and the device range, off the list region. |
| Client.SuccessMovesIff | akida-pcie-core.c:189-221 | A transfer reported as done has moved its buffer in every end but an abort exactly when no earlier read has its callback outstanding and, for a write, no earlier write either. |
| Client.StaleSuccess | akida-pcie-core.c:205-219 | A write that timed out and one after it: the second is reported as done with nothing stored, and its callback is outstanding in turn. |
| Client.StaleReadSpoils | akida-pcie-core.c:205-219 | A read that timed out and a write after it: the write is reported as done with any byte at all stored throughout. |
| Client.StrayStores | akida-pcie-core.c:205-219 | And what may change does: after a round, however it ends, any byte of an outstanding write's range may hold anything, and so may the own range of a write that timed out. |
| Client.AbortReported | akida-pcie-core.c:205-215 | Success of an aborted transfer says nothing of its bytes: whatever bytes are named, some abort on an undisturbed channel is reported as done and leaves them in the device range (of a write) or in the buffer (of a read). |
| Client.AkidaDevice.DmaTransfer | akida-pcie-core.c:119-221 | Its steps in place have, off the list region, exactly the effect, error and outstanding list of `Client.Transferred`. |
| Outstanding.OutstandingExact | akida-pcie-core.c:110-221 | After any history of transfers, with every ending, and late callbacks, the transfers outstanding in a direction are exactly those submitted whose callback has not run, in submission order, counted from the submissions and callbacks alone. |
| Client.AkidaDevice.LateCallback | akida-pcie-core.c:110-117 | Between two calls the oldest outstanding callback of a channel runs and is outstanding no more; device memory changes at most in ranges of outstanding writes. |
| Client.CleanRound | akida-pcie-core.c:119-221 | With nothing outstanding and no abort: success moves exactly the buffer, a failure other than a timeout changes nothing, and only a timeout leaves a callback outstanding. |
| Client.Contained | akida-pcie-core.c:119-221 | In any case memory changes at most in its own range and those of outstanding transfers. |
| Client.AkidaDevice.Write | akida-pcie-core.c:354-411 | Reports success exactly when the range is allowed and no step fails; otherwise the error of the first cause: bad range, memory, broken-off wait, or the first failing round's. Pieces are 1024 bytes each, but the last. With nothing outstanding before and no abort, the device then holds the data and is otherwise unchanged off the list region, and after a failure a prefix of whole pieces is stored and the file position says how long; in any case nothing else changes but ranges of outstanding transfers. |
| Client.AkidaDevice.Read | akida-pcie-core.c:296-352 | The same for reading, where a round's transfer fails before its copy to the user: what was delivered is, with nothing outstanding and no abort, a prefix of the device bytes, all of it on success; device memory changes at most in ranges of outstanding writes. |
| Client.WriteThenRead | akida-pcie-core.c:296-411 | Both report success exactly when the range is allowed and no round fails; with nothing outstanding and no abort the bytes read are those written; other device memory, off the list regions and outstanding ranges, is as before. |
| Pool.GetUnusedChan | akida-pcie-core.c:230-241 | Finds the first unused channel, and none exactly when all are used. |
| Pool.ChannelTable.TryAcquire | akida-pcie-core.c:243-264 | Takes the first unused channel and marks it, or leaves the table alone when all are used. |
| Pool.RunKeepsHold | akida-pcie-core.c:243-272 | In every run a channel is marked used exactly when one client, and only one, holds it. |
| Pool.WaitsIff | akida-pcie-core.c:252-253 | A new client waits exactly when every channel is held by a client. |
| Pool.MapsKeptIff | akida-pcie-core.c:110-221 | A step keeps every DMA mapping unmapped exactly once exactly when it is not a callback after its client's timeout. |
| Pool.RunKeepsMaps | akida-pcie-core.c:110-221 | In runs without such callbacks each mapping is unmapped exactly once, by the callback or the error path, before the channel can be released. |
| Pool.AllUnmapped | akida-pcie-core.c:110-221 | When no transfer is under way every mapping ever made has been unmapped exactly once. |
| Pool.FinishIsOwn | akida-pcie-core.c:205-215 | While mappings are exactly-once, a wait can end only after the client's own callback, which has unmapped its buffer. |
| Pool.RunFinishesOwn | akida-pcie-core.c:205-215 | So in every run without a callback after a timeout. |
| Pool.StaleFinish | akida-pcie-core.c:189-219 | With such a callback, the next client's wait ends while its own transfer is still to be called back. |
| Pool.TimeoutUnmapsTwice | akida-pcie-core.c:207-219 | A transfer that times out and is called back afterwards is unmapped twice. |

## Left out

- Channel.DmaChannel.StartTransfer: keeps a descriptor's chunks as a list of values; that each chunk's memory is freed once as it is handed over is proved for the descriptor object, in Descriptor.Desc.TakeFirst and Starts.Lifecycle.
- Channel.DmaChannel.AbortInterrupt: is one step, although two of its writes are outside the lock.
- Client.AkidaDevice.DmaTransfer: compiles and serves its request directly instead of through the channel object (what completion means over the channel's runs is ClientRuns.OwnCompletion); a transfer that timed out, was overtaken or aborted may store any bytes in the device range it was writing, a read's buffer may then hold anything, and so may a write's while a read is outstanding.
- EndToEnd.RunMeaning: speaks of runs in which every prepared request fits the list region and stays off it; a chunk's list is written in one step, over one in flight too.
- Client.AkidaDevice.Read: delivers nothing of a piece whose copy to user space fails, where the kernel may have copied some of it.
- Pool.RunKeepsMaps: says nothing of runs with a callback after a timeout, where the property fails.
- Irq.ServeAll: assumes that no new status bit arrives while the vectors are served.
- Register programming on a start (engine and power enables, interrupt masks, list pointer, doorbell): straight-line stores.
- The HDMA channel status, which passes channel number and direction in swapped order: the answer to a status query is any answer at all.
- The virtual-DMA features this engine does not use: reusable descriptors, cyclic callbacks, terminated descriptors.
- The release loop over terminate when a channel's resources are freed, and its timeout.
- PCI probing, address translation tables, BAR mapping, memory windows for `mmap`, debugfs, device files: platform set-up without deep properties.
- Real time, caches, memory barriers and the IOMMU; writes to list memory are seen in program order.
