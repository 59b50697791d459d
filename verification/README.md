# Verification of the USB armory firmware and its host image tool

A Dafny model of the parts of this repository whose correctness spans several functions, several contexts, or software
and hardware, with proofs of what they keep. `dafny verify dfyconfig.toml` checks all of it.

## What is modelled

**The RTIC kernel on the GIC** (`Kernel`, `KernelMask`, `KernelQueues`, `KernelRuns`, `KernelCode`, `KernelPriorities`,
`KernelGap`). One core, one interrupt controller, a stack of contexts, each with a program counter, a static priority
and a `Priority` cell. A step is one memory or register access of the emitted code: cell write, mask write, barrier,
dequeue (read, then release), input write, enqueue (write, then publish), pend, acknowledge, unmask, end of interrupt.
Between any two steps an IRQ exception may be taken when IRQs are not masked, and the controller hands out a highest
pending interrupt that beats both the mask and every active interrupt (ARM IHI 0048B.b, section 3.3), or none. User code
is the set of choices it has: what to lock, spawn, and when to return. Theorems are about every state that any sequence
of steps reaches from the start of `main`. `KernelCode` has `lock`, `run` and `IRQ` as methods on a mask register and a
cell, each proved to end where the steps of the machine lead.

**The in-memory logger** (`LogRing`, `LogDrain`). A byte ring with counters that wrap at 2^32, one producer, one
consumer that the producer interrupts anywhere. `push` is modelled as it is written and with its evident intent.

**The USB device driver** (`UsbMemory`, `UsbTrace`, `UsbSpec`, `Usbd`). Queue heads, transfer descriptors and buffers,
with their bytes, shared with a hardware actor that loads primed descriptors and completes transfers between the
driver's steps; the set-up tripwire; deferred STATUS OUT. Every run leaves a history of events (started, completed,
request read, reported, taken by a read, reset, flushed); `UsbTrace.InOrder` says which histories can be, and the
theorems are about those. Endpoint masks are sets of bit positions. A write through the address that a control `read`
has left, which is that of its caller's buffer, is an outcome of its own and ends the run.

**The storage stack** (`Storage`, `Fs`). MBR writer and reader, partitions, and the flat byte array that littlefs sees.
A device may fail any access; a failed write may or may not have reached the medium.

**The boot image** (`Parsing`, `Dcd`, `Image`, `Elf`). Writers, parsers, and the two passes over an ELF file. What is
left of an input is a position in it.

**The hasher and the clock** (`Sha`, `Clock`). The streaming front end over an engine whose compression function is a
parameter; the RTC read as two registers while it ticks.

## Assumptions

- Arithmetic wraps where the source does not check it, as in a release build of the firmware. The image writer and
  parser are modelled both ways (`Dcd.Overflow`).
- Device memory is strongly ordered: an acknowledgement sees a mask written before it. If it could lag behind the mask
  write, the shortcut of `run` for priority 1 would not be sound.
- `rtic_syntax` computes ceilings no lower than the priority of any accessor and ready queues with room for every
  message of their level (`Kernel.Analysed`). The levels of the software tasks are exactly 1 to some n of at most 16
  (`Kernel.LevelsPacked`), as the priorities of the SGIs need. The queues of heapless are single producer, single
  consumer queues whose element is written before it is published.
- Logging from interrupts happens at one priority, as the documentation of memlog demands.
- The USB controller completes active transfers only, sends what the buffer then holds, and puts what arrives, no more
  than the transfer asks for, at its start. A set-up packet is written as a whole, and clears the tripwire, in one step.
  Timeouts and failed transfers reset the board and end the run.
- From any register read on, four consecutive reads of the clock fall within one tick some time later; otherwise the
  read loop need not end.
- The DCP hashes correctly up to the 512 MiB that the driver allows.

## Where the code departs from its intent

Each is modelled as written, with the exact condition under which it does what it should.

- `pre_init` gives a priority to as many SGIs as there are software levels, from the first on; the levels need not be
  those, since priorities are packed over software and hardware tasks together: `KernelPriorities.DispatchersReadyIff`,
  and `KernelGap.GapBreaksExclusion` for a run in which two contexts hold a resource.
- `Buffer::push` takes the length of the wrapped tail for the length of the head: `LogRing.WrittenPushWorksIff`.
- `PartitionTable::add` does not advance `index`: `Storage.AddWorksIff`; so `create` has no end to compare:
  `Storage.WrittenCreateNeverRefuses`.
- Even with `index` advanced, an entry whose end wraps at 2^32 lets the next one overlap it:
  `Storage.AdvancingAddSorts`, `Storage.OverlapAccepted`.
- `create` accepts an extent that ends with the device, or whose end wraps, and `open` does not:
  `Storage.OpenIsStricter`, `Storage.EndOfDevice`.
- The eMMC driver lets the address one past the end through: `Storage.EmmcCheckOffByOne`.
- Durations divide by 2^9 instead of 2^6: `Clock.WrittenIsFloorIff`, `Clock.WrittenStopsAtNextSecond`.
- `ClearBitmask` is written as 0b10 and read as a plain write: `Dcd.ParameterRoundTripIff`.
- `Sha256::reset` keeps the count: `Sha.HashAfterReset`.
- The DCD size wraps at 8191 writes: `Image.WritableIff`, `Image.WrappedImage`.
- The limit of 32 MiB is on a length truncated to 32 bits, so images of 4 GiB pass: `Image.FitsRomIff`,
  `Image.FourGigabytesPass`.
- A bus reset drops the transfers that it finds completed and not yet handled: `UsbTrace.NothingLostIff`, and
  `Usbd.ResetLosesTransfer` for a run that loses one.
- It leaves the descriptors of those transfers, and of the ones it cancels, loaded: `Usbd.WriteAfterReset` says that an
  IN endpoint takes a write after it exactly if it had no descriptor loaded and was not primed; `Usbd.Run` that an
  endpoint whose transfer nobody ends stays so.
- It clears neither `pre_status_out` nor `status_out`, and GET_DESCRIPTOR takes no notice of transfers under way, so
  that a STATUS OUT may answer a request that was cancelled or has had no data phase of its own:
  `UsbTrace.StatusAnswersRequest`. `Usbd.StatusAfterReset`, `Usbd.StatusWithoutDataPhase` and
  `Usbd.StatusOfEarlierTransfer` are runs, and those of `UsbTrace` histories, in which one of its conditions fails.

## Model

| member | source | states |
|---|---|---|
| KernelRuns.MutualExclusion | firmware/cortex-a-rtic/src/export.rs:54-83 | in every reachable state at most one context has exclusive access to a resource or queue end, by a lock or directly |
| KernelQueues.AloneBelow | firmware/cortex-a-rtic/macros/src/codegen/resources_struct.rs:72-119 | a context with access, through a proxy or owned, is the only one on the stack |
| KernelMask.MaskPreserved | firmware/usbarmory-rt/src/lib.rs:112-150 | every step of every context, of the environment and of user code keeps the ceiling invariant |
| KernelMask.AckBeatsThreshold | firmware/usbarmory-rt/src/lib.rs:112-129 | an acknowledged interrupt beats the priority and all lock ceilings of the context it interrupts |
| KernelMask.HeldBounds | firmware/cortex-a-rtic/src/export.rs:60-68 | nested open locks: the cell is at least the ceiling of each |
| KernelRuns.RunInvariant | firmware/cortex-a-rtic/macros/src/codegen/pre_init.rs:14-59 | the ceiling and queue invariants hold after any run from the state that initialization leaves, with the priorities it gives |
| KernelRuns.PrioritiesIncrease | firmware/cortex-a-rtic/src/export.rs:54-83 | a handler outranks every context below it by more than the ceilings that context holds |
| KernelRuns.HandlersLeaveNoTrace | firmware/cortex-a-rtic/src/export.rs:93-118 | from exception entry to the matching return, whatever nests inside: mask, active interrupts and interrupted contexts are as at entry |
| KernelRuns.ShortcutIsSound | firmware/cortex-a-rtic/src/export.rs:107-111 | a handler of priority 1 was entered with the mask idle |
| KernelMask.PriorityOneMeansIdleMask | firmware/cortex-a-rtic/src/export.rs:107-111 | it can only have interrupted idle, between whose locks the mask is idle |
| KernelQueues.QueuePreserved | firmware/cortex-a-rtic/macros/src/codegen/dispatchers.rs:96-142 | every step keeps slot conservation, delivery order and wake-up, for each task and level |
| KernelQueues.DispatcherAlone | firmware/cortex-a-rtic/macros/src/codegen/dispatchers.rs:134-140 | a dispatcher in its loop is the only context of its level |
| KernelRuns.DeliveredInOrder | firmware/cortex-a-rtic/macros/src/codegen/dispatchers.rs:96-119 | calls at a level are a prefix of the messages sent there, each with the input its spawn wrote |
| KernelRuns.BacklogIsQueue | firmware/cortex-a-rtic/macros/src/codegen/spawn_body.rs:37-45 | with nothing in flight, what is not yet called is exactly what is queued, in order, inputs included |
| KernelRuns.NoLostWakeUp | firmware/cortex-a-rtic/macros/src/codegen/spawn_body.rs:33-50 | a non-empty ready queue has its interrupt pending, its dispatcher before its last check, or a spawner about to pend it |
| KernelRuns.QuiescentMeansDrained | firmware/cortex-a-rtic/macros/src/codegen/dispatchers.rs:113-142 | with only idle running and no dispatcher pending, every message has been delivered |
| KernelRuns.SlotsConserved | firmware/cortex-a-rtic/macros/src/codegen/software_tasks.rs:33-80 | each slot is once in the free queue, in one context's hand, or in the ready queue |
| KernelRuns.RefusedOnlyWhenFull | firmware/cortex-a-rtic/macros/src/codegen/spawn_body.rs:38-48 | a spawn finds no slot only when all slots are in use |
| KernelRuns.FreeQueueNeverOverflows | firmware/cortex-a-rtic/macros/src/codegen/dispatchers.rs:99-101 | the unchecked enqueue of a returned slot has room |
| KernelRuns.ReadyQueueNeverOverflows | firmware/cortex-a-rtic/macros/src/codegen/spawn_body.rs:16-28 | the unchecked enqueue of a message has room |
| KernelRuns.LevelDistinct | firmware/cortex-a-rtic/macros/src/codegen/dispatchers.rs:49-61 | the messages queued at a level are distinct slots of its tasks |
| KernelCode.FillFreeQueues | firmware/cortex-a-rtic/macros/src/codegen/pre_init.rs:14-28 | the initialization loop yields the free queues the machine starts with |
| KernelPriorities.SetPriorities | firmware/cortex-a-rtic/macros/src/codegen/pre_init.rs:36-57 | the loops write the priorities that the controller of the machine has |
| KernelPriorities.PackedMeansUpTo | firmware/cortex-a-rtic/macros/src/codegen/util.rs:8-18 | levels no higher than their number are all the levels from 1 to it |
| KernelPriorities.DispatchersReadyIff | firmware/cortex-a-rtic/macros/src/codegen/pre_init.rs:36-50 | every dispatcher has an SGI with the priority of its level exactly when the levels are 1 to n, and n is at most 16 |
| KernelGap.GapBreaksExclusion | firmware/cortex-a-rtic/macros/src/check.rs:8-27 | an application with a single software level 2 passes the check and the analysis, and in a run of it the dispatcher pre-empts a lock of ceiling 2: two contexts hold the resource |
| KernelCode.Core.LockOpen | firmware/cortex-a-rtic/src/export.rs:60-70 | the code before the closure takes the machine's steps to an open lock |
| KernelCode.Core.LockClose | firmware/cortex-a-rtic/src/export.rs:72-82 | the code after the closure takes the machine's steps to the closed lock |
| KernelCode.OpenThenClose | firmware/cortex-a-rtic/src/export.rs:54-83 | a lock restores its context, and the mask exactly when it was not raised or the mask was that of the cell |
| KernelCode.Core.RunEnter | firmware/usbarmory-rt/src/lib.rs:113-142 | from any state in which the controller hands out the interrupt, the code ends where acknowledging, unmasking and reading the mask lead; its local variable is that of the machine and holds the mask at entry, unless the priority is 1 |
| KernelCode.Core.RunExit | firmware/cortex-a-rtic/src/export.rs:106-117 | from wherever the handler left the mask, the code ends where the epilogue leads: mask as at entry, the interrupt inactive, and the interrupted contexts the ones whose interrupts are active |
| LogRing.PushAppends | firmware/memlog/src/lib.rs:60-90 | a push that splits at the end of the buffer appends its bytes to the pending ones and changes nothing else, or fails for lack of space |
| LogRing.WrittenPushWorksIff | firmware/memlog/src/lib.rs:72-87 | as written, every message of n bytes arrives exactly when it does not wrap or wraps with twice the space before the end |
| LogRing.WrittenPushExample | firmware/memlog/src/lib.rs:74-82 | a three-byte message whose bytes end up in the wrong places |
| LogRing.WrittenPushLeavesBuffer | firmware/memlog/src/lib.rs:76-79 | a message whose first copy would leave the buffer |
| LogDrain.LogIsFifo | firmware/memlog/src/lib.rs:60-110 | in every run, pushed bytes are those consumed and those pending, at most the capacity, and a slice being shown does not change |
| LogDrain.WrittenKeepsFifoIff | firmware/memlog/src/lib.rs:72-87 | in every reachable state: as written, a push keeps the order of bytes whatever they are exactly when its first copy ends with the buffer |
| LogDrain.WholeSplitIsSafe | firmware/memlog/src/lib.rs:67-87 | with the intended split a push fails only for lack of space |
| LogDrain.AdvanceDrops | firmware/memlog/src/lib.rs:105-108 | moving the read counter drops that many of the oldest bytes |
| LogDrain.Buffer.Push | firmware/memlog/src/lib.rs:60-90 | the code, panics and undefined behaviour included, is the ring operation as written |
| LogDrain.Buffer.Peek | firmware/memlog/src/lib.rs:92-110 | shows the oldest contiguous piece and drops what the closure reports, at most that piece |
| LogDrain.PassProgress | firmware/memlog/src/lib.rs:146-154 | a full pass shows the next bytes and leaves fewer pieces |
| LogDrain.FlushAll | firmware/usbarmory/src/lib.rs:68-79 | four passes empty both rings and send the interrupt ring's bytes, then the main ring's |
| UsbMemory.IndexMapsInverse | firmware/usbarmory/src/usbd/util.rs:69-88 | endpoint addresses and queue head indices map to each other and back; IN masks are in the upper half |
| UsbMemory.ChangedOk | firmware/usbarmory/src/usbd/bus.rs:668-672 | loading or unloading keeps one owner for every descriptor and buffer, and the other queue heads as they are |
| UsbMemory.PutOk | firmware/usbarmory/src/usbd/bus.rs:611-620 | so does writing a buffer for its owner, or lending one, and no other queue head sees it |
| UsbMemory.PoolSuffices | firmware/usbarmory/src/usbd/bus.rs:155-155 | while a queue head is unused the descriptor pool is not empty |
| UsbMemory.InstalledOk | firmware/usbarmory/src/usbd/bus.rs:150-190 | allocation keeps ownership: descriptor and buffer leave their pools |
| UsbSpec.InstallationKeeps | firmware/usbarmory/src/usbd/bus.rs:150-190 | allocation keeps transfers, buffers and history in step |
| UsbSpec.StartedKeeps | firmware/usbarmory/src/usbd/bus.rs:590-628 | so does starting a transfer: its bytes are what the buffer shows, and nothing else changes |
| UsbSpec.EndedKeeps | firmware/usbarmory/src/usbd/bus.rs:636-673 | so does ending one, whose descriptor stays with its queue head |
| UsbSpec.AgainKeeps | firmware/usbarmory/src/usbd/bus.rs:536-546 | so does ending one that is read, and priming its queue head again |
| UsbSpec.SentKeeps | firmware/usbarmory/src/usbd/bus.rs:614-628 | so does the hardware when it sends: a transfer in flight shows the bytes it was started with |
| UsbSpec.ArrivedKeeps | firmware/usbarmory/src/usbd/bus.rs:521-532 | so does the hardware when it receives: a completed transfer has its packet at the start of the buffer |
| UsbTrace.SentAsWritten | firmware/usbarmory/src/usbd/bus.rs:611-628 | whatever is completed to the host has the bytes of the start it follows, with no completion, cancellation or other start in between |
| UsbTrace.EachCounted | firmware/usbarmory/src/usbd/bus.rs:287-325 | the completed transfers of a queue head are those reported, those read, those dropped by a reset, and at most one to come |
| UsbTrace.DropsIff | firmware/usbarmory/src/usbd/bus.rs:217-220 | a transfer is dropped exactly when a bus reset finds one completed and not yet handled |
| UsbTrace.NothingLostIff | firmware/usbarmory/src/usbd/bus.rs:209-250 | every completed transfer is reported, read or to come exactly when no bus reset finds one |
| UsbTrace.AtMostOncePerArming | firmware/usbarmory/src/usbd/bus.rs:409-412 | the STATUS OUTs reported and to come are no more than the GET_DESCRIPTORs read |
| UsbTrace.DueUntilReported | firmware/usbarmory/src/usbd/bus.rs:299-306 | a STATUS OUT that is due stays due until it is reported |
| UsbTrace.DataPhaseIff | firmware/usbarmory/src/usbd/bus.rs:409-412 | of a request that nothing cancels, the first IN0 report is of a data phase after it exactly when none was to be reported at the request, and of its own exactly when, besides, none was in flight or another was started since |
| UsbTrace.StatusAnswersRequest | firmware/usbarmory/src/usbd/bus.rs:296-306 | a reported STATUS OUT is alone, the first after the first IN0 report after a GET_DESCRIPTOR, and answers it exactly when nothing has cancelled the request, no transfer was to be reported at it, and none was in flight then or another was started since |
| UsbTrace.StatusAfterReset | firmware/usbarmory/src/usbd/bus.rs:209-250 | a history in which a STATUS OUT answers a request that a bus reset has cancelled |
| UsbTrace.StatusWithoutDataPhase | firmware/usbarmory/src/usbd/bus.rs:658-664 | a history in which it answers a request before any data phase |
| UsbTrace.StatusOfEarlierTransfer | firmware/usbarmory/src/usbd/bus.rs:658-664 | a history in which the data phase was started before the request |
| Usbd.SetupPort.ReadPacket | firmware/usbarmory/src/usbd/bus.rs:365-388 | at the OUT address of the control endpoint the bytes returned are one whole packet, the latest at some time in the call, however packets arrive; at another they are zeros |
| Usbd.Inner.FindEp | firmware/usbarmory/src/usbd/bus.rs:125-148 | the endpoint asked for, or the lowest free one, or why there is none |
| Usbd.Inner.Install | firmware/usbarmory/src/usbd/bus.rs:150-190 | fails exactly for an unsupported packet size or for want of a buffer, never of a descriptor |
| Usbd.Inner.AllocEp | firmware/usbarmory/src/usbd/bus.rs:106-199 | all outcomes, and the memory after each |
| Usbd.Inner.StartWrite | firmware/usbarmory/src/usbd/bus.rs:562-634 | all outcomes, each exactly when; a started transfer is primed with its bytes in a buffer of its own |
| Usbd.Inner.EndWrite | firmware/usbarmory/src/usbd/bus.rs:636-673 | the completion is noted, cleared, and moves a pending STATUS OUT to due |
| Usbd.Inner.EndWrites | firmware/usbarmory/src/usbd/bus.rs:287-294 | the loop ends every transfer of the snapshot although the hardware completes others meanwhile |
| Usbd.Inner.Poll | firmware/usbarmory/src/usbd/bus.rs:252-328 | the result as a function of the registers and the due STATUS OUT; a reported IN0 makes an armed one due, and a poll with no IN completion reports one that is due |
| Usbd.Inner.ReadSetup | firmware/usbarmory/src/usbd/bus.rs:358-422 | at the OUT address of endpoint 0 a whole packet in the buffer, elsewhere a reset of the board; panics exactly for a short buffer or a configuration request with an allocated direction not enabled; GET_DESCRIPTOR arms a STATUS OUT |
| Usbd.Inner.ReadControl | firmware/usbarmory/src/usbd/bus.rs:423-496 | the bytes that the hardware has completed this transfer with, and the descriptor back in place; panics exactly when that was not there, or for a buffer of 0x5000 bytes or more |
| Usbd.Inner.ReadData | firmware/usbarmory/src/usbd/bus.rs:497-559 | the bytes at the start of the buffer, which are the packet if the transfer asked for a whole one; the endpoint is primed again; the branches marked unreachable are never reached |
| Usbd.Inner.Read | firmware/usbarmory/src/usbd/bus.rs:330-560 | for either direction: which of the three it is, the cached set-up bit, and the transfer that is taken |
| Usbd.Inner.SetDeviceAddress | firmware/usbarmory/src/usbd/bus.rs:675-687 | every allocated direction is enabled, and the OUT endpoint beside the control endpoint primed |
| Usbd.Inner.BusReset | firmware/usbarmory/src/usbd/bus.rs:209-250 | registers cleared, with the completed transfers dropped and the others cancelled; an IN endpoint is at rest exactly if it was, what was complete is never ended, and a STATUS OUT to come is still to come |
| Usbd.Run | firmware/usbarmory/src/usbd/bus.rs:104-843 | over any sequence of calls with the hardware in between: one owner each, the history in order, open in it what is complete, and an IN endpoint whose transfer nobody will end stays so |
| Usbd.WriteAfterReset | firmware/usbarmory/src/usbd/bus.rs:577-584 | after a live reset an IN endpoint refuses writes exactly if it had a descriptor loaded or was primed |
| Usbd.ResetLosesTransfer | firmware/usbarmory/src/usbd/bus.rs:209-250 | a byte sent before a bus reset is dropped, and the next write to the endpoint is told to wait |
| Usbd.StatusAfterReset | firmware/usbarmory/src/usbd/bus.rs:209-250 | a run that reads a request, resets, sends something else, and then reports a STATUS OUT |
| Usbd.StatusWithoutDataPhase | firmware/usbarmory/src/usbd/bus.rs:658-664 | one that reads a request after the transfer which is then reported for its data phase |
| Usbd.StatusOfEarlierTransfer | firmware/usbarmory/src/usbd/bus.rs:658-664 | one that reads a request during that transfer |
| Storage.EntryRoundTrip | firmware/usbarmory/src/storage.rs:196-206 | parsing an encoded entry gives the entry |
| Storage.EntryBytesRoundTrip | firmware/usbarmory/src/storage.rs:196-206 | encoding a parsed entry gives its bytes |
| Storage.AddKeepsOnlyLast | firmware/usbarmory/src/storage.rs:274-289 | as written, every entry is accepted and replaces the one before |
| Storage.AddWorksIff | firmware/usbarmory/src/storage.rs:274-289 | as written, a table lists its entries exactly when there is at most one |
| Storage.AdvancingAddOrders | firmware/usbarmory/src/storage.rs:271-289 | with the index advanced, entries are accepted exactly when there are at most four and each starts after the wrapped end of the one before; all are listed |
| Storage.SortedIff | firmware/usbarmory/src/storage.rs:275-281 | entries in that order do not overlap exactly when only the last may end beyond 2^32 |
| Storage.AdvancingAddSorts | firmware/usbarmory/src/storage.rs:271-289 | with the index advanced, accepted is the same as at most four, sorted and apart, except exactly when up to four entries are in that order and one before the last ends beyond 2^32 |
| Storage.OverlapAccepted | firmware/usbarmory/src/storage.rs:275-281 | two entries that overlap and are accepted |
| Storage.BlockRoundTrip | firmware/usbarmory/src/storage.rs:291-304 | the entries of a written block are those written, and its signature is there |
| Storage.CreateThenOpen | firmware/usbarmory/src/storage.rs:94-162 | a written table is opened as it is, exactly when every allocated entry passes the checks |
| Storage.OpenIsStricter | firmware/usbarmory/src/storage.rs:105-152 | of an accepted table, create compares the wrapped end of the last entry and lets it equal the size; open asks for entries apart, above block 0, and an end below the size and 2^32 |
| Storage.EndOfDevice | firmware/usbarmory/src/storage.rs:105-152 | a partition up to the end of the device is created and not opened |
| Storage.WrittenCreateNeverRefuses | firmware/usbarmory/src/storage.rs:95-108 | as `add` is written, create accepts every table on every device |
| Storage.PartitionTable.Add | firmware/usbarmory/src/storage.rs:274-289 | the code is the table operation as written |
| Storage.PartitionTable.WriteTo | firmware/usbarmory/src/storage.rs:291-304 | the loop writes the block that the reader undoes |
| Storage.MbrDevice.Create | firmware/usbarmory/src/storage.rs:94-116 | refused exactly when the end exceeds the device; only block 0 may change |
| Storage.MbrDevice.Open | firmware/usbarmory/src/storage.rs:119-162 | the table parsed from block 0, or the reason why not |
| Storage.MbrDevice.Partition | firmware/usbarmory/src/storage.rs:167-193 | an allocated entry's extent, or no partition |
| Storage.PartitionRef.ReadBlock | firmware/usbarmory/src/storage.rs:367-375 | the block of the extent; refused exactly outside it |
| Storage.PartitionRef.WriteBlock | firmware/usbarmory/src/storage.rs:377-385 | changes that block of the extent at most; refused exactly outside it |
| Storage.PartitionsAreSeparate | firmware/usbarmory/src/storage.rs:360-385 | writing through one partition of a sorted table changes that block of it and no other partition |
| Storage.OpenedAccessInRange | firmware/usbarmory/src/storage.rs:137-158 | an access through an opened partition is inside the device and not in block 0 |
| Storage.EmmcCheckOffByOne | firmware/usbarmory/src/emmc.rs:838-853 | the check is right for every address but the one past the end |
| Storage.EmmcCheckSuffices | firmware/usbarmory/src/emmc.rs:838-853 | it passes every access through an opened partition, which is inside the device |
| Fs.OverwriteIsSplice | firmware/usbarmory/src/fs.rs:394-409 | overwriting blocks of an extent replaces those bytes of its flat view |
| Fs.SpliceReads | firmware/usbarmory/src/fs.rs:379-409 | a later read of the bytes gives the data, and of bytes apart from them what was there |
| Fs.LfsStorage.Read | firmware/usbarmory/src/fs.rs:379-392 | the bytes of the flat view; on a healthy device it succeeds exactly for whole blocks in range |
| Fs.LfsStorage.WriteChunks | firmware/usbarmory/src/fs.rs:394-404 | a prefix of the blocks is written, all of them unless an access fails |
| Fs.LfsStorage.Write | firmware/usbarmory/src/fs.rs:394-409 | success replaces exactly those bytes of the view, failure leaves a block prefix, nothing outside the extent changes |
| Fs.Mount | firmware/usbarmory/src/fs.rs:52-67 | refused exactly below the hardcoded block count |
| Fs.OpenAndMount | firmware/usbarmory/src/fs.rs:52-67 | after open, partition and mount the whole file system is inside the extent, the extent inside the device and clear of block 0 |
| Sha.Sha256.InputSlice | firmware/usbarmory/src/dcp/sha256.rs:67-94 | panics exactly above the capacity; otherwise the message grows by the input and the commands stay well formed |
| Sha.Sha256.ProcessAndPush | firmware/usbarmory/src/dcp/sha256.rs:97-110 | whole blocks go to the engine and the rest to the buffer |
| Sha.Sha256.PushAndProcess | firmware/usbarmory/src/dcp/sha256.rs:112-123 | the buffered block is completed first, and no byte is lost |
| Sha.Sha256.ProcessBlocks | firmware/usbarmory/src/dcp/sha256.rs:126-141 | one command of whole blocks, init on the first only, term never |
| Sha.Sha256.FixedResult | firmware/usbarmory/src/dcp/sha256.rs:207-283 | the last command terminates less than a block, and the digest is that of the message by FIPS 180-4 |
| Sha.Sha256.Reset | firmware/usbarmory/src/dcp/sha256.rs:286-291 | the message is forgotten, the count is not |
| Sha.HashChunks | firmware/usbarmory/src/dcp/sha256.rs:67-231 | for any split the digest is the one-shot digest, if the whole fits |
| Sha.HashAfterReset | firmware/usbarmory/src/dcp/sha256.rs:286-290 | after reset the digest is that of the new message alone, exactly when both messages fit together |
| Sha.SessionGoesOn | firmware/usbarmory/src/dcp/sha256.rs:126-148 | one more command keeps the history well formed and the engine in step |
| Sha.RoundDown | firmware/usbarmory/src/util.rs:26-28 | the largest multiple that is not larger |
| Clock.Rtc.Now | firmware/usbarmory/src/time.rs:16-43 | the value the counter had at one of the reads of the call, and the loop ends |
| Clock.Rtc.Elapsed | firmware/usbarmory/src/time.rs:46-72 | an instant taken earlier is not later, so nothing panics, and the duration is that of the ticks between |
| Clock.Rtc.Wait | firmware/usbarmory/src/time.rs:91-98 | returns after at least the duration, with either divisor, and does return |
| Clock.FromTicks | firmware/usbarmory/src/time.rs:60-66 | nanoseconds stay below a second |
| Clock.ExactIsFloor | firmware/usbarmory/src/time.rs:60-66 | with 2^6 a duration is its ticks rounded down to nanoseconds |
| Clock.WrittenIsFloorIff | firmware/usbarmory/src/time.rs:60-66 | with 2^9 only whole seconds are right |
| Clock.Monotone | firmware/usbarmory/src/time.rs:55-67 | more ticks are never a shorter duration |
| Clock.LongEnough | firmware/usbarmory/src/time.rs:88-98 | what is not reported as shorter is not shorter |
| Clock.ExactStopsInTime | firmware/usbarmory/src/time.rs:91-98 | with 2^6 a wait ends at the first tick that makes it long enough |
| Clock.WrittenStopsAtNextSecond | firmware/usbarmory/src/time.rs:91-98 | with 2^9 a wait of more than an eighth beside its seconds ends with the next second |
| Dcd.ParameterReadBack | host/image/src/dcd.rs:219-286 | what the parser makes of a written parameter |
| Dcd.ParameterRoundTripIff | host/image/src/dcd.rs:257-286 | a parameter is read back exactly when its flag is not "clear" |
| Dcd.Write | host/image/src/write.rs:361-369 | the bytes written, or a panic exactly when the length does not fit |
| Dcd.WriteCommand | host/image/src/write.rs:386-396 | header, then the address and value of each write |
| Dcd.SizeOf | host/image/src/write.rs:371-374 | the size is right up to 8190 writes; the next one wraps it to zero or panics |
| Dcd.EncodeSome | host/image/src/write.rs:361-374 | which DCDs can be written, and their real length |
| Dcd.PairsRoundTrip | host/image/src/dcd.rs:299-312 | parsing written pairs gives the pairs |
| Dcd.ParsePairsLoop | host/image/src/dcd.rs:299-312 | the loop computes the parse |
| Dcd.ParseCommandsLoop | host/image/src/dcd.rs:115-123 | so does the command loop, which ends on every input |
| Dcd.CommandRoundTrip | host/image/src/dcd.rs:137-155 | a written command is parsed back and uses up its length |
| Dcd.DcdRoundTrip | host/image/src/dcd.rs:32-49 | a DCD within the maximum length is parsed back with its writes and its own bytes |
| Image.IvtRoundTrip | host/image/src/ivt.rs:47-68 | a written vector table is parsed back |
| Image.BootRoundTrip | host/image/src/lib.rs:35-41 | written boot data is parsed back |
| Image.Write | host/image/src/write.rs:302-338 | the bytes of the image, or a panic exactly when it is not writable |
| Image.WritableIff | host/image/src/write.rs:316-335 | an image is writable exactly when its length field passes and it has at most 121 writes, or 8191 that wrap |
| Image.FitsRomIff | host/image/src/write.rs:316-325 | which lengths pass the limit, and for exactly which of them that agrees with the limit on the image |
| Image.FourGigabytesPass | host/image/src/write.rs:316-325 | an application of 4 GiB is written, with a length field of 2048 |
| Image.Layout | host/image/src/write.rs:326-337 | where each part of a written image is |
| Image.AppFollows | host/image/src/write.rs:326-337 | unless the DCD size wraps, the image is 1024 bytes and the application |
| Image.ImageRoundTrip | host/image/src/read.rs:22-50 | within the size limit and up to 8190 writes: written exactly with at most 121, then 1024 bytes and the application, and parsing recovers all of it |
| Image.WrappedImage | host/image/src/write.rs:371-374 | with 8191 writes and wrapping arithmetic the application is displaced and no parse succeeds |
| Elf.FirstPass | host/image/src/write.rs:176-228 | the span of the selected parts, or a panic when there are none or one overflows |
| Elf.SecondPass | host/image/src/write.rs:230-265 | every address gets the byte of the last part that covers it; panics exactly when a part does not fit its place or its data |
| Elf.FromElf | host/image/src/write.rs:172-291 | panics exactly for no or unusable parts; else an error exactly for a missing or unreadable symbol table or none with the entry point; else the buffer is the span with each byte in its place, and the entry point the last symbol of the name |
| Elf.FindEntry | host/image/src/write.rs:278-284 | the last symbol of the name, if there is one |
| Elf.MadeIsWritable | host/image/src/write.rs:46-162 | the 42 writes that initialize the memory leave room, so such an image is written exactly when its length passes |
| Elf.DisjointByteAt | host/image/src/write.rs:236-262 | where parts do not overlap, their bytes are at their own addresses |
| Elf.GapIsZero | host/image/src/write.rs:230-231 | addresses no part covers hold zero |
| Elf.LoadedInPlace | host/image/src/write.rs:302-343 | an application that starts at 0x80000800 is loaded with every byte at its own address |

## Left out

- The register-level eMMC, I2C, UART, RNG, LED, clock and USB PHY code: MMIO sequences whose meaning is in manuals.
- AES, and the SHA-256 compression function, which is a parameter of `Sha`.
- littlefs2, `usb_device`, `rtic_syntax`, heapless and the ELF parser: libraries outside the repository, met by
  contract.
- Resources accessed as shared references, late resources, task locals and `cfg`: types, not steps, enforce them.
- The spawn, dispatch and interrupt code as methods: they are steps of the machine, since what matters is what happens
  between their accesses; only `lock`, `run` and the initialization loop are also given as methods.
- The addresses and values of the DDR writes in `init_ddr`: a parameter of which only the number is fixed.
- `host/txt2rust`, `host/usbc`, `host/usd`, build scripts, assembly, linker scripts and singleton handles.
- Cache maintenance, and the endpoint types that `configure_ep` sets: nothing in the model depends on them.
- LogDrain.LogIsFifo: is about pushes whose first copy ends with the buffer; `LogDrain.WrittenKeepsFifoIff` says that as
  written no other push keeps the order for all its messages.
