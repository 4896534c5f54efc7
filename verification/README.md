# MaldOS, modelled and proved in Dafny

MaldOS is a hardware abstraction layer for the Raspberry Pi 3 that emulates tapes, disks, printers and
their interrupt lines for a teaching operating system. Device files live on a FAT32 card, commands
come in through a mailbox, and an interrupt handler (FIQ) completes them when their timers expire.

## How the model is built

Each part exists twice. Pure functions say what one step does to values; classes and methods run the
loops, pointer surgery and updates in place of the C code and are proved to refine those functions.
The theorems are about the functions, over all inputs and all runs.

| files | what they hold |
|---|---|
| `TimerQueue`, `TimerPool` | the sorted queue of timers; the two circular doubly linked rings of twenty heap nodes that refine it |
| `Hardware`, `Machine` | interrupt lines, user memory, virtual counter, as a value and as an object |
| `Tapes`, `Disks`, `Printers` and their `...Controller` files | one device's commands and completions; the same in place on the device arrays |
| `Interrupts`, `InterruptHandler`, `StartUp` | the FIQ as a step of a state machine; the handler and the start-up that refine it |
| `FiqTheorems`, `DueTimes`, `Reports` | what a FIQ serves, from its cause word; when commands are due; what their senders find |
| `DeviceFiles` | what start-up makes of the bytes of a device file |
| `Effects`, `Invariants`, `RunTheorems`, `DrainTheorems`, `Completions` | invariants and theorems over whole runs |
| `Protocol` | a reference table: what each command leaves in the registers and what the program is answered |
| `WakeUp`, `WakeUpRuns`, `LostWakeUps`, `TimeOfDay` | when wake-ups are on time, when they are lost, and when the clock goes back |
| `Fat32`, `FatLayout`, `FatDriver` | volume, chains, reads and writes as values; where things lie on the card; the cached, buffered file layer |
| `FatChains`, `FatWrites`, `FatTheorems`, `FatCache` | reads are slices, what writes change, when they are correct, why the cache holds one sector |
| `TapeLayout`, `TapeMarkers`, `TapeRuns`, `TapeReads` | tape files, and reading them over whole runs |
| `PrinterRuns` | printing over whole runs |
| `DiskGeometry`, `DiskBlocks`, `DiskReads`, `DiskFiles`, `DiskCommands`, `Overruns` | where disk blocks lie, reading and writing them over whole runs, and writes that leave their buffer |
| `PageTables`, `Handshake`, `Itoa`, `Bytes`, `Arithmetic` | page tables and their walk, multicore start-up, number to text, memory copy, products and quotients |

A run is a sequence of events: a user program stores a register block, a data block or the interrupt mask, or a
FIQ is taken with its cause bits, mailbox word and clock readings. Nothing is assumed about the order.

## Main results

- Over every run, a command ends exactly in the first timer interrupt past its deadline
  (`RunTheorems.CompletesExactlyWhenDue`), an interrupt bit changes only by its device's commands and completions
  (`RunTheorems.InterruptBitExactly`), and the handler on heap nodes and arrays refines the state machine that
  this is proved of (`InterruptHandler.Handler.CFiqHandler`).
- Over every run, a tape's and a disk's head is where the commands sent have taken it, and a completed READBLK
  delivers the bytes there (`TapeReads.TapeDelivers`, `DiskReads.DiskDelivers`); a disk's file changes only by
  its own completed WRITEBLKs, exactly as `fat_writefile` does (`DiskFiles.FileChangesOnlyByWrites`).
- Over every run, what a printer has printed is what was sent to it (`PrinterRuns.PrintsWhatWasSent`), every command
  that ends reports to its sender (`Reports.ReportsToSender`), and a disk's commands are due after the time that its
  rotation and its seek time take (`DueTimes.TransferDue`, `DueTimes.SeekDue`).
- Which causes a FIQ serves and when it fires an interrupt, from its cause word and the mask
  (`FiqTheorems.TimerCauseServed`, `FiqTheorems.FiresExactly`).
- Exactly when `fat_writefile` is correct, when it leaves its buffer, and when some run does
  (`FatTheorems.WriteCorrectIffFits`, `FatTheorems.LeavesBufferIff`, `Overruns.SomeRunOverrunsIff`).
- Exactly when wake-ups are on time in every run, and when none is lost (`WakeUpRuns.AwakeInEveryRunIff`,
  `LostWakeUps.NoWakeUpLostIff`).
- The cached, buffered file layer refines chains and slices (`FatDriver.FileSystem.ReadFile`,
  `FatDriver.FileSystem.WriteFile`, `FatChains.ReadIsSlice`); the two rings of timers refine the sorted queue
  (`TimerPool.Pool.AddTimer`).
- In every interleaving the start-up handshake is safe, and under every fair one core 0 arrives
  (`Handshake.HandshakeIsSafe`, `Handshake.HandshakeArrives`).
- The page tables map the lower 1 GB and the mailboxes to themselves and nothing else
  (`PageTables.IdentityMap`).

## Where the code does less than it promises

Each of these is proved of the model; where a promise fails only for some inputs, the theorem names the exact
condition.

- `fat_writefile` takes `size` where `size - start` is meant (`source/hal/fat.c:366`, compare line
  335). It is correct for all data of a given length exactly when the start is past the end of the
  file, the length is 0, the start is on a cluster boundary, or the end is within the first cluster
  (`FatTheorems.WriteCorrectIffFits`). Every disk block starts 28 bytes into a cluster, so every
  WRITEBLK inside the file goes wrong for some data (`DiskBlocks.BlockWriteGoesWrong`). With the size
  of line 335 every write would be correct (`FatTheorems.RepairedWriteIsCorrect`).
- For the same reason the copy of line 368 can leave its 4096-byte buffer: exactly when the write starts
  inside the file and the offset plus the smaller of cluster size and length exceeds 4096
  (`FatTheorems.LeavesBufferIff`). No write does on clusters of at most 2 KiB; on 4 KiB clusters every
  disk block write inside the file does (`DiskBlocks.BlockOverrunsIff`, `Overruns.SomeRunOverrunsIff`).
- The table cache compares with the sector of the last lookup, not of the last load. That is right
  exactly because the cache holds one sector (`FatCache.TransparentIffOneSector`).
- `seek_disk_block` strides heads by the number of cylinders and cuts the position to 32 bits, so
  places share blocks unless there is one head, or one sector a cylinder, and at most 2^20 blocks
  (`DiskBlocks.PlacesDifferIff`). The mailbox guards compare with `>`, so they also admit places one
  past the disk, which are blocks of other places (`DiskBlocks.AdmittedDifferIff`).
- `set_virtual_timer` gives up on tick counts above 32 bits and its callers ignore that, delays are cut to 32
  bits, and the counter takes its 32 bits as a signed number. Every wake-up is on time exactly when the longest
  seek and wait of every installed disk fit in 32 bits and their tick counts in 31
  (`WakeUpRuns.AwakeInEveryRunIff`). One that comes early is repeated by the handler; none is lost exactly when
  every way of every installed disk's head, cut to 32 bits, has a tick count of 32 bits
  (`LostWakeUps.NoWakeUpLostIff`).
- A secondary core counts itself as ready before it clears its slot. Core 0 can be in the C code by then, and a
  task that `CoreExecute` writes to the slot is erased, exactly when the core has yet to clear it
  (`Handshake.TaskTakenUpIff`, `Handshake.TaskCanBeErased`).
- `getTOD` goes back when its 64-bit product wraps, after about 11 days at 19.2 MHz
  (`TimeOfDay.NeverGoesBackIff`).
- `allocTimer` says it clears all fields but clears eight bytes, the deadline
  (`source/emulated/emulated_timers.c:52`); kind and code keep their values (`TimerPool.Pool.AllocTimer`). Its
  only caller fills in all fields, so nothing follows from it.
- A busy disk does not answer ACK, a busy printer answers ACK with 2 in its mailbox register, and a
  busy tape with its registers (`Protocol.MessageFollowsProtocol` tabulates the differences).

## Modelling choices

- A `timer_t` and the `list_head` inside it are one heap node; `container_of` disappears. The masks
  that cut the list pointers to 48 bits are the identity on them and are left out.
- Bytes of interrupt lines, installed devices and mask are sets of bit numbers. Arrays of C structs
  are Dafny arrays of values, as C copies and assigns structs by value.
- Register blocks and 4096-byte data blocks of user programs are found by address in maps, so blocks
  that overlap each other or the kernel are not modelled.
- What the code cannot know is an input: clock readings, mailbox words, FIQ causes, the first cluster
  of each device file, and what uninitialised locals held. In one FIQ every tape has a value of its own
  for the local that its marker is read into; at start-up the local that receives a file's id keeps its
  value from one file to the next, as in the source.
- 32-bit and 64-bit truncation is written out where it can happen. Division by zero in
  `time_to_destination` gives 0, as the AArch64 division instruction does.
- The end-of-chain test is the code's own (`cluster > 1 && cluster < 0xFFF8`). A mounted volume has
  512-byte sectors, one to eight of them a cluster, tables of 512 sectors or more before the data area (the
  first table of a FAT32 volume of 65525 clusters alone has that many), so that every entry looked up
  lies below the data, and sector numbers that fit in 32 bits.
- A copy that would leave the buffer of `fat_writefile` is recorded in `overrun`, and the write ends
  there. What the program does from then on the source does not say, so a state with `overrun` set stands
  for anything: a theorem about a run speaks of the source as long as `overrun` is not set at its end.
- Memory in the start-up handshake is sequentially consistent, and secondaries stay parked until
  their slot is written.

## Model

| member | source | states |
|---|---|---|
| TimerQueue.AddTimerIsStableInsertion | source/emulated/emulated_timers.c:144-160 | re-arming a key is removal of the key followed by stable sorted insertion: timers due no later stand before the new one in their old order, later ones behind it in theirs |
| TimerQueue.AddTimerMembers | source/emulated/emulated_timers.c:144-160 | after re-arming, exactly the new timer and the timers of other keys are queued |
| TimerQueue.AddTimerWellFormed | source/emulated/emulated_timers.c:144-160 | the queue stays sorted, with at most one timer a key and only device keys |
| TimerQueue.RemoveKeyWellFormed | source/emulated/emulated_timers.c:107-128 | removal drops exactly the timers of the key and keeps order and uniqueness |
| TimerQueue.WalkedNext | source/emulated/emulated_timers.c:117-127 | one turn of the removal loop: the part already walked is the filtered prefix, whether the node is unlinked or stepped over |
| TimerQueue.AllocationNeverFails | source/emulated/emulated_timers.c:44-55 | key uniqueness bounds the queue by twelve, so one of the twenty nodes is free at every allocation |
| TimerPool.LinkBetween | include/maldos/listx.h:87-95 | linking a node between two neighbours gives the ring with the node at that place, next and prev inverse |
| TimerPool.ListAdd | include/maldos/listx.h:105-108 | linking behind a node of a ring |
| TimerPool.ListAddTail | include/maldos/listx.h:118-121 | linking before the sentinel appends to the ring |
| TimerPool.ListDel | include/maldos/listx.h:144-147 | unlinking gives the ring without the node; the node keeps its own pointers |
| TimerPool.Pool.InitEmulatedTimers | source/emulated/emulated_timers.c:36-38 | both rings are well formed and disjoint, all twenty nodes are free, in the order of the array |
| StartUp.InitBoard | source/emulated/emulated_timers.c:32-34 | start-up installs the four timer lines and nothing else |
| TimerPool.Pool.AllocTimer | source/emulated/emulated_timers.c:44-55 | takes the first free node, or none exactly when all twenty are pending; clears its deadline and leaves its kind and code as they were; the pending queue is untouched |
| TimerPool.Pool.FreeTimer | source/emulated/emulated_timers.c:60 | puts a detached node at the end of the free ring and leaves the pending ring alone |
| TimerPool.Pool.InsertTimer | source/emulated/emulated_timers.c:65-89 | the pending ring stands for the sorted insertion of the node; no node is lost |
| TimerPool.Pool.RemoveTimerType | source/emulated/emulated_timers.c:107-128 | unlinking while iterating leaves two well-formed rings that hold all twenty nodes, the pending one without the key |
| TimerPool.Pool.HeadTimer | source/emulated/emulated_timers.c:133-139 | the first pending node, null for none |
| TimerPool.Pool.AddTimer | source/emulated/emulated_timers.c:144-160 | on the heap, re-arming refines the queue operation and keeps both rings and all twenty nodes |
| TimerPool.Pool.NextTimer | source/emulated/emulated_timers.c:165-172 | a copy of the first pending timer, -1 for none |
| TimerPool.Pool.NextPendingTimer | source/emulated/emulated_timers.c:177-189 | 1 and the timer released exactly when its deadline lies strictly before the time; 0 and -1 change nothing |
| TimerPool.Pool.EightNodesFree | source/emulated/emulated_timers.c:144-160 | with one timer a device, eight nodes or more stay free |
| Machine.Board.constructor | source/bios_main.c:57-64 | lines and installed bytes cleared, every mask bit set |
| Machine.Board.SetVirtualTimer | source/hal/timers.c:127-136 | the argument cut to 32 bits; a tick count above 32 bits leaves the counter as it was |
| Machine.Board.SetDeviceTimer | source/interrupts.c:90-102 | the timer is armed at the 64-bit sum and the counter programmed for the first deadline of all |
| Machine.Board.PendingEmulatedInterrupt | source/interrupts.c:29-40 | true exactly when some line has a bit set and is not in the mask, said of the fields themselves |
| Machine.Board.CleanInterruptLines | source/interrupts.c:64-71 | every line is cut to the installed devices |
| InterruptHandler.Handler.HandleMessage | source/interrupts.c:114-130 | the mailbox word is split into address, class and number; a fourth class changes nothing |
| InterruptHandler.Handler.DrainTimers | source/interrupts.c:137-153 | the drain loop ends and refines the recursive drain; the timer left over, if any, is not due, so the later subtraction does not underflow |
| InterruptHandler.Handler.HandleTimers | source/interrupts.c:136-166 | drain, programming of the counter or stopping it, firing of a pending interrupt |
| InterruptHandler.Handler.CFiqHandler | source/interrupts.c:106-168 | the handler on heap nodes and device arrays refines one step of the state machine that the theorems below are about; what such a step serves is said by the next rows |
| FiqTheorems.TimerCauseServed | source/interrupts.c:114-153 | a FIQ whose cause word is 32 a + 16 m + 8 + r, with m at most 1 and r below 8: the message is handed on exactly when m is 1, no timer before the clock reading is left, every device whose deadline has passed ends its command with its bit set, and the others keep theirs |
| FiqTheorems.OtherCausesServed | source/interrupts.c:114-136 | a FIQ whose cause word is 32 a + 16 m + r: all that happens is the message, exactly when m is 1 |
| FiqTheorems.MessageReachesNamed | source/interrupts.c:115-130 | the mailbox word 16 x + 4 c + i changes device i of class c and no other, and the register block at 16 x and no other; class 3 and address 0 change nothing |
| FiqTheorems.RegistersAreDelivered | source/interrupts.c:115-130 | READ_REGISTERS delivers the registers of that device |
| FiqTheorems.FiresExactly | source/interrupts.c:29-40 | the physical timer is fired in a timer FIQ that leaves a bit set on a line that is not masked, and in no other event; it is never taken back |
| FiqTheorems.MaskedNeverFires | source/interrupts.c:29-40 | over every run with all lines masked all along it is never fired |
| FiqTheorems.CompletionFires | source/interrupts.c:161-164 | over every run a completion on a line that is not masked fires it |
| FiqTheorems.BootLines | source/bios_main.c:57-64 | start-up leaves no bit set, which is what these two ask of the first state |
| FiqTheorems.CounterStops | source/interrupts.c:155-160 | a timer FIQ that leaves nothing pending stops the counter |
| FiqTheorems.LinesAreCleaned | source/interrupts.c:64-71 | a FIQ without a cause keeps exactly the bits of installed devices, whatever the lines hold, and changes nothing else |
| Effects.MessageEffect | source/interrupts.c:114-130 | a message concerns one device: only its registers, its interrupt bit and, if a timed command is accepted, its timer and the counter change; without address or device it does nothing |
| Effects.ManageEffect | source/interrupts.c:139-153 | an expired timer completes its busy device (not busy, reported where the command came from, bit set) and touches no other |
| Effects.TapeCompletes | source/emulated/emulated_tapes.c:155-201 | every timed tape command ends with the interrupt bit set: the branch without it needs a negative count |
| Effects.DiskCompletes | source/emulated/emulated_disks.c:170-213 | every timed disk command ends with the interrupt bit set: the branches without it need negative counts |
| Effects.PrinterCompletes | source/emulated/emulated_printers.c:157-174 | a printed character ends its command ready, with the other registers as they were and the interrupt bit set |
| Effects.DiskArms | source/emulated/emulated_disks.c:261-296 | a disk that becomes busy has its timer armed at acceptance time plus travel time, and nothing else arms it |
| Invariants.MessageKeepsInv | source/interrupts.c:114-130 | every message, also RESET and illegal commands on a busy device, keeps the invariant |
| Invariants.TurnKeepsInv | source/interrupts.c:139-153 | one turn of the drain loop keeps the invariant |
| Invariants.DrainEffect | source/interrupts.c:139-153 | draining completes a busy device exactly when its deadline has passed and otherwise leaves it with its timer; no timer before the clock reading is left |
| RunTheorems.RunKeepsInv | source/interrupts.c:106-168 | over every run a busy device has exactly one pending timer, a register block to report to and a timed command, the queue is sorted, and no line has a bit outside the installed mask |
| RunTheorems.TimerOfLastCommand | source/interrupts.c:90-102 | over every run a busy device's timer carries the deadline of the command accepted last, never that of an aborted one |
| RunTheorems.CompletesExactlyWhenDue | source/interrupts.c:136-153 | a command ends exactly in the first FIQ whose cause word has bit 3 set and whose clock reading is past its deadline, and its interrupt bit is then set |
| DueTimes.NeighbourDelay | source/emulated/emulated_disks.c:107-125 | at 60 k + r turns a minute, r below 60, the time t to a neighbouring sector is the whole microseconds that one of k times the sectors takes, that product cut to 32 bits: t w <= 1000000 < (t + 1) w, and 0 where w is 0 |
| DueTimes.TransferDue | source/emulated/emulated_disks.c:261-281 | over every run a transfer accepted with the head n sectors away is due n such times after it was accepted |
| DueTimes.SeekDue | source/emulated/emulated_disks.c:282-296 | over every run a seek accepted with the head m cylinders away is due m seek times of the disk after it was accepted |
| DueTimes.FixedDue | source/emulated/emulated_printers.c:137-143 | a tape command is due 1000 microseconds after it was accepted, a character 8 |
| Reports.ReportsToSender | source/emulated/emulated_printers.c:160-170 | over every run, for all three kinds of devices: a command that ends has its registers in the register block it was sent with, unless another device reports there in the same FIQ, and the device forgets the address |
| RunTheorems.InterruptBitExactly | source/interrupts.c:106-168 | the interrupt bit of a device after an event is its command's bit, or set if the device completed; nothing else changes it |
| RunTheorems.ClearedOnlyByAckOrPrinterReset | source/emulated/emulated_printers.c:115-131 | an installed device's bit is cleared by its own accepted ACK or by RESET of a printer, and by nothing else |
| RunTheorems.InstalledForever | source/emulated/emulated_tapes.c:218-221 | a device is installed for the whole run or for none of it |
| DrainTheorems.DrainIsInOrder | source/interrupts.c:139-153 | draining manages the devices of exactly the expired timers, once each, in order of deadlines with ties first come first served |
| DrainTheorems.DrainedQueue | source/emulated/emulated_timers.c:177-189 | what stays queued is exactly what had not expired |
| WakeUp.StaysOnTime | source/interrupts.c:155-160 | over every run, after every event a non-empty queue has the counter running, programmed no later than the first deadline and less than a tick early, for any bound on the delays of commands that fits |
| WakeUp.SetFiresOnTimeIff | source/hal/timers.c:127-136 | from a stopped counter, it fires on time if and only if the delay fits in 32 bits and its tick count in the 31 bits of a positive register |
| WakeUpRuns.AwakeInEveryRunIff | source/interrupts.c:90-102 | from start-up, in every run whose clock goes on all wake-ups are on time if and only if for every installed disk the seek to the last cylinder and the wait for the last sector fit in 32 bits and their tick counts in 31; otherwise one such command misses its time |
| LostWakeUps.NoWakeUpLostIff | source/interrupts.c:90-102 | from start-up, no run whose clock goes on loses a wake-up, one that comes early not counting as lost, if and only if for every installed disk every way of the head, cut to 32 bits, has a tick count of 32 bits; otherwise one such command loses it |
| TimeOfDay.NeverGoesBackIff | source/hal/timers.c:82-87 | clock readings never go back up to a counter value if and only if its product with 1000000 fits in 64 bits |
| TimeOfDay.ReadingIsElapsed | source/hal/timers.c:82-87 | up to there a reading is the time that has passed, in whole microseconds |
| TimeOfDay.ReadingsInOrder | source/hal/timers.c:82-87 | readings of later counter values are later, and stay clear of the end of the 64-bit range, which is what the wake-up theorems ask of a run |
| WakeUp.NeverLate | source/hal/timers.c:127-136 | whatever the delay, truncated or not, and whatever the sign of the count, a stopped counter that gets programmed is not late |
| WakeUp.ProductFits | source/hal/timers.c:128-129 | the 64-bit product does not overflow |
| StartUp.BootInv | source/bios_main.c:57-77 | the state after start-up satisfies the run invariant, no command running |
| StartUp.InitSystem | source/bios_main.c:57-77 | the imperative start-up produces that state; without a card, the state with all device files missing |
| StartUp.UntouchedIsMissing | source/bios_main.c:70-75 | devices that start-up never initialises are as if their files were missing |
| DeviceFiles.TapeFile | source/emulated/emulated_tapes.c:52-71 | a tape is installed if and only if it has a file and the local then holds the bytes 4D 50 53 01; its head is at the start |
| DeviceFiles.DiskFile | source/emulated/emulated_disks.c:52-95 | a disk is installed if and only if it has a file and the local holds the bytes 4D 50 53 00 and dimensions of 16, 8 and 8 bits; geometry, speed and seek time are the little-endian words behind them in order, and data register 1 shows sectors, heads and cylinders as bytes |
| TapeController.Controller.InitEmulatedTapes | source/emulated/emulated_tapes.c:38-75 | a tape is installed exactly when its file starts with the tape id |
| TapeController.Controller.UpdateTapeHead | source/emulated/emulated_tapes.c:80-94 | data register 1 takes the marker at the head; -1 and no change when that is no marker |
| TapeController.Controller.ReadTapeBlock | source/emulated/emulated_tapes.c:99-107 | the block under the head, delivered to the user's data block |
| TapeController.Controller.TapeNextBlock | source/emulated/emulated_tapes.c:125-131 | one block on, refused at the end-of-tape marker |
| TapeController.Controller.TapePrevBlock | source/emulated/emulated_tapes.c:136-143 | one block back, refused at the start |
| TapeController.Controller.ManageEmulatedTape | source/emulated/emulated_tapes.c:148-202 | in place, the completion function of one tape; the other tapes stay |
| TapeController.Controller.EmulatedTapeMailbox | source/emulated/emulated_tapes.c:209-297 | in place, the message function of one tape; the other tapes stay |
| TapeLayout.PartsTile | source/emulated/emulated_tapes.c:80-108 | id, blocks and markers tile the file without gap or overlap |
| TapeLayout.ReadsMarker | source/emulated/emulated_tapes.c:80-94 | the marker read is the one before the block under the head |
| TapeLayout.ReadsBlock | source/emulated/emulated_tapes.c:99-108 | the block read is the one between its two markers |
| TapeLayout.EotExactlyAtEnd | source/emulated/emulated_tapes.c:125-131 | end of tape shows exactly at block n |
| TapeLayout.MailboxKeepsOnTape | source/emulated/emulated_tapes.c:209-297 | every message keeps the head on the tape and the marker register true |
| TapeLayout.ReadDelivers | source/emulated/emulated_tapes.c:181-196 | a completed READBLK delivers the whole block under the head and moves past it |
| TapeLayout.ManageKeepsOnTape | source/emulated/emulated_tapes.c:148-202 | every completion keeps the head on the tape |
| TapeMarkers.AnyTapeEnds | source/emulated/emulated_tapes.c:80-202 | on any file, well formed or not: a command moves the head one block and shows the marker there; at a word that is no marker it ends with its error, the head moved; at an end of the tape it ends with its error where it was |
| TapeRuns.BootsOnTape | source/emulated/emulated_tapes.c:52-68 | a well-formed tape file puts the head on the tape at start-up |
| TapeRuns.DiskWrites | source/emulated/emulated_disks.c:150-158 | managing a disk writes to no file but the disk's own |
| TapeRuns.TapeStaysOnTape | source/emulated/emulated_tapes.c:148-297 | over every run of commands to all devices, until a disk write leaves its buffer: block index at most n, data register 1 the marker there, a read under way only before a block, and the file unchanged by disk writes |
| Overruns.TapeStaysWhereQuiet | source/emulated/emulated_tapes.c:148-297 | the same in every run without exception, on clusters of at most 2 KiB |
| TapeReads.TapeDelivers | source/interrupts.c:106-168 | over every run of commands of any kind to all devices: the block index is the function `TapeIndex` of what was sent and completed, end of tape shows exactly at n, a command ends with the status that its index gives, and a completed READBLK delivers the block at that index, whole, at the address sent with it |
| TapeReads.ReadsBlocksInOrder | source/interrupts.c:106-168 | over every run from RESET with only reads and acknowledgements sent to the tape, other devices and timers interleaved: the completions deliver blocks 0, 1, 2, ... in order, each once and whole, at the address sent with each READBLK, and end of tape shows exactly when all n are read |
| TapeReads.ResetStarts | source/emulated/emulated_tapes.c:225-233 | a RESET, whatever the tape was doing and whatever else the interrupt does, gives the state that reading in order starts from |
| DiskController.Controller.InitEmulatedDisks | source/emulated/emulated_disks.c:38-102 | a disk is installed exactly when its file's header is valid, with that geometry |
| DiskController.Controller.ReadDiskBlock | source/emulated/emulated_disks.c:140-148 | the bytes of the file at that position, delivered to the user's data block |
| DiskController.Controller.ManageEmulatedDisk | source/emulated/emulated_disks.c:163-214 | in place, the completion function of one disk; the other disks stay |
| DiskController.Controller.EmulatedDiskMailbox | source/emulated/emulated_disks.c:219-303 | in place, the message function of one disk; the other disks stay |
| DiskController.Controller.WriteDiskBlock | source/emulated/emulated_disks.c:150-158 | the volume after `fat_writefile` at that position, or the record that its copy left the buffer |
| DiskGeometry.MailboxKeepsGeometry | source/emulated/emulated_disks.c:261-296 | the guards keep the head, and the place a command under way moves it to, within the geometry |
| DiskGeometry.ManageKeepsGeometry | source/emulated/emulated_disks.c:163-214 | so does completing a command |
| DiskGeometry.DelayInGeometry | source/emulated/emulated_disks.c:107-125 | no admitted command takes longer than the seek across all cylinders or the wait past all sectors |
| DiskReads.DiskDelivers | source/interrupts.c:106-168 | over every run, with other devices and timers interleaved: the head is where the commands sent have taken it, and a completed READBLK puts the bytes that the disk file has at that cylinder, head and sector at the address sent with it |
| DiskFiles.FileAfterWrite | source/hal/fat.c:349-376 | the bytes of the file after any write that stays in its buffer: the cluster that the write starts in takes what fits, the rest of the file the data from a cluster size on, the bytes between are lost |
| DiskFiles.FileChangesOnlyByWrites | source/emulated/emulated_disks.c:163-214 | over every run of commands to all devices: the file of a disk changes only in events that complete a WRITEBLK of that disk, and then exactly as `fat_writefile` changes it with the block sent, at the place where the commands sent have taken the head |
| DiskBlocks.PlacesDifferIff | source/emulated/emulated_disks.c:130-135 | the positions of different places differ, cut to 32 bits, if and only if a dimension is 0, or there is one head and at most 2^20 blocks, or one sector a cylinder and at most 2^20 blocks |
| DiskBlocks.AdmittedDifferIff | source/emulated/emulated_disks.c:261-296 | the guards admit one place too many in every direction: the admitted places have different positions if and only if there are no heads, no cylinders and fewer than 2^20 sectors |
| DiskBlocks.EdgeIsNextCylinder | source/emulated/emulated_disks.c:261-296 | the admitted sector past the last is the first of the next cylinder |
| DiskBlocks.BlocksNeverFit | source/emulated/emulated_disks.c:130-135 | every block starts 28 bytes into a cluster, so no block write meets the condition under which `fat_writefile` is correct |
| DiskBlocks.BlockWriteGoesWrong | source/emulated/emulated_disks.c:150-158 | hence every block write inside the file is wrong for some data |
| DiskBlocks.BlockOverrunsIff | source/emulated/emulated_disks.c:150-158 | a block write leaves the buffer if and only if it starts inside the file and clusters have 4 KiB |
| Overruns.LeavesExactly | source/emulated/emulated_disks.c:195-206 | a copy leaves the buffer in the completion of such a write and in no other |
| Overruns.SomeRunOverrunsIff | source/emulated/emulated_disks.c:195-206 | from start-up, some run leaves the buffer if and only if clusters have 4 KiB and a disk with a cluster is installed |
| Overruns.QuietForever | source/emulated/emulated_disks.c:195-206 | on clusters of at most 2 KiB no run leaves the buffer |
| DiskBlocks.DelayFits | source/emulated/emulated_disks.c:107-125 | travel times stay below 2^49 microseconds |
| PrinterController.Controller.InitEmulatedPrinters | source/emulated/emulated_printers.c:50-60 | all four printers ready and installed |
| PrinterController.Controller.EmulatedPrinterMailbox | source/emulated/emulated_printers.c:103-152 | in place, the message function of one printer; the other printers stay |
| PrinterController.Controller.ManageEmulatedPrinter | source/emulated/emulated_printers.c:157-174 | in place, the completion function of one printer |
| Protocol.MessageFollowsProtocol | source/emulated/emulated_disks.c:219-303 | for all three kinds of devices: every register after every command, accepted, refused while busy, at end of tape or outside the geometry, and what the program is answered |
| Protocol.PrintsOnCompletion | source/emulated/emulated_printers.c:160-170 | a character is printed when its command completes, behind those printed before, and at no other time |
| PrinterRuns.PrintsWhatWasSent | source/emulated/emulated_printers.c:137-170 | over every run the text on a printer is the characters sent to it with the commands that have ended, in order; each ends ready, its command PRINT_CHAR and its data register the one sent, and those registers are in the register block it was sent with |
| FatDriver.SdCard.ReadBlocks | source/hal/sd.c:201-260 | whole sectors and their byte count, or 0 and nothing when the card lacks some |
| FatDriver.SdCard.WriteBlocks | source/hal/sd.c:201-260 | the sectors replaced and their byte count, or 0 and nothing when the card lacks some |
| FatDriver.FileSystem.GetPartition | source/hal/fat.c:158-160 | on a mounted volume the cache holds the first sector behind the reserved ones |
| FatDriver.FileSystem.GetTableEntry | source/hal/fat.c:169-182 | the cached table is transparent, after any lookups and writes: the result has, least significant first, the four bytes of the card behind the reserved sectors, four bytes an entry |
| FatLayout.EntryBytes | source/hal/fat.c:169-182 | the same of the entries that chains are made of |
| FatLayout.ClustersTile | source/hal/fat.c:278-293 | cluster 2 starts where the tables end, and the clusters follow one on the other without a gap |
| FatLayout.FileByte | source/hal/fat.c:278-313 | a byte of a file lies in the cluster of its chain at that place of the card |
| FatDriver.FileSystem.TransferFile | source/hal/fat.c:278-313 | moves cluster number `num` of the chain, found link by link; 0 past the end, -1 when the card ends before that cluster does, and then nothing is changed |
| FatDriver.FileSystem.ReadFile | source/hal/fat.c:319-343 | the buffered loop delivers the bytes of the recursive read and no others |
| FatDriver.FileSystem.WriteFile | source/hal/fat.c:349-376 | the buffered loop leaves the volume of the recursive write, keeps the cache coherent and returns its count, where its copies stay in the buffer, and records where the first one does not |
| FatChains.WalkChain | source/hal/fat.c:292-308 | following links reaches the chain's clusters one by one, and past the end no cluster |
| FatChains.ChainDistinct | source/hal/fat.c:292-308 | a chain that reaches an end value never repeats a cluster |
| FatChains.ReadFromIsSlice | source/hal/fat.c:329-341 | reading cluster after cluster is a slice of the rest of the file |
| FatChains.ReadIsSlice | source/hal/fat.c:319-343 | for every position and length, the read is the plain slice of the file's bytes |
| FatWrites.WriteFromUndisturbed | source/hal/fat.c:359-374 | a write that stays in its buffer changes nothing but its own chain from its first cluster on: boot sectors, tables and other clusters keep their bytes |
| FatWrites.WriteExact | source/hal/fat.c:359-374 | what a write that stays in its buffer does, the lost bytes of line 366 included |
| FatTheorems.LeavesBufferIff | source/hal/fat.c:366-368 | the copy of line 368 leaves the 4096-byte buffer if and only if the write starts inside the file and offset plus the smaller of cluster size and length exceeds 4096 |
| FatTheorems.SmallClustersStay | source/hal/fat.c:366-368 | with at most 4 sectors a cluster it never does |
| FatTheorems.FittingWriteIsCorrect | source/hal/fat.c:349-376 | a write that fits lays the data over the file and returns the count inside it |
| FatTheorems.OverflowingWriteIsWrong | source/hal/fat.c:366-368 | for every write that does not fit, data that come out wrong |
| FatTheorems.WriteCorrectIffFits | source/hal/fat.c:349-376 | `fat_writefile` is correct for all data of a length, staying in its buffer included, if and only if the start is past the end, the length 0, the start on a cluster boundary, or the end within the first cluster |
| FatTheorems.WriteThenRead | source/hal/fat.c:319-376 | a write that fits is read back, and every other file, the tables and the boot sectors keep their bytes |
| FatTheorems.OtherFilesKeepTheirBytes | source/hal/fat.c:349-376 | no write that stays in its buffer, fitting or not, changes a file with other clusters |
| FatTheorems.RepairedWriteIsCorrect | source/hal/fat.c:335-366 | with the size of line 335 in line 366 the write is correct for every position, length and data, stays in its buffer and changes nothing else |
| FatCache.OneSectorIsTransparent | source/hal/fat.c:169-182 | with a one-sector cache every sequence of lookups returns the entries on the device |
| FatCache.TransparentIffOneSector | source/hal/fat.c:30 | a cache of k sectors with this window test is transparent if and only if k is 1 |
| Bytes.Memcpy | source/utils.c:30-38 | the bytes laid over the destination, the rest unchanged |
| Itoa.Itoa | source/utils.c:57-86 | for every 64-bit value and base, in any buffer that holds the text: the digits parse back to the value, no leading zero but for 0, as many as the value has in that base and at most 64, closed by NUL, base 16 alone with 0x before the result; a bad base gives the empty string |
| Itoa.WriteDigits | source/utils.c:69-77 | the digit loop writes the value backwards, in exactly as many digits as it has, at most 64 |
| Itoa.DigitsBelowPower | source/utils.c:69-77 | a value below a power of the base has no more digits than the exponent |
| Itoa.HexText | source/interrupts.c:275-326 | a 64-bit value in base 16 with prefix and NUL takes at most 19 places, so the 64 bytes of the abort handler are enough |
| Itoa.ReverseInPlace | source/utils.c:79-84 | the two-pointer loop reverses exactly the digits |
| Itoa.ParseReversed | source/utils.c:72-84 | parsing the reversed text is parsing backwards |
| Itoa.DigitsInOrder | source/utils.c:79-85 | the reversed digits denote the value, without leading zero |
| PageTables.InitPageTables | source/mmu.c:33-99 | the five loops and three single stores leave every entry of both tables as specified |
| PageTables.WalkReaches | source/mmu.c:90-98 | the walk through the next-level tables reaches the entry of the address's 2 MB block |
| PageTables.EntryMeans | source/mmu.c:42-88 | what the entry of a block translates to, decoded from the descriptor's fields |
| PageTables.IdentityMap | source/mmu.c:33-99 | every address below 0x40200000 maps to itself, every other faults; peripherals and mailboxes are device memory without limit, lower addresses have the requested permission, ordinary memory is shared between the cores, and no entry is global |
| Handshake.RunKeepsInv | source/init.S:85-129 | the handshake invariant holds in every interleaving |
| Handshake.HandshakeIsSafe | source/init.S:85-129 | in every interleaving at most one secondary is between load and store of the counter, the counter is one more than the completed stores, and core 0 enters the C code only at four |
| Handshake.HandshakeProgresses | source/init.S:97-129 | until core 0 enters the C code some core can bring the end nearer, and no step moves it away |
| Handshake.HandshakeArrives | source/init.S:85-129 | under every fair schedule core 0 enters the C code: from power-on 22 rounds in which every core moves are enough |
| Handshake.TaskTakenUpIff | source/asmlib.S:374-388 | in every interleaving, a task that core 0 hands to a secondary is taken up if and only if that core has cleared its slot after counting itself; else it erases the task and idles |
| Handshake.TaskCanBeErased | source/init.S:85-151 | there is such an interleaving: core 0 is in the C code while the last secondary has yet to clear its slot |

## Left out

- FatDriver.SdCard.ReadBlocks: fails only when the card does not have all the sectors; command errors and timeouts of `source/hal/sd.c` are hardware and would give the same result 0.
- FatDriver.SdCard.WriteBlocks: as ReadBlocks; in particular a write is not taken to fail where the read of the same sectors succeeded.
- FatDriver.FileSystem.GetPartition: the set-up of the cache only, on a volume taken as mounted; validation of the partition table and the boot record is parsing and printing.
- WakeUp.StaysOnTime: asks for clock readings that do not go back and stay clear of the end of the 64-bit range by the longest delay of any disk; `TimeOfDay.ReadingsInOrder` says when readings do.
- Handshake.HandshakeIsSafe: holds for sequentially consistent memory; the loads and stores of `source/init.S` have no barriers, and what the architecture allows beyond that is not modelled.
- TapeReads.TapeDelivers: a block's address counts as read only if no other read to the same address ends in the same interrupt, where the last one wins.
- TapeReads.ReadsBlocksInOrder: as TapeDelivers.
- Reports.ReportsToSender: says what the block holds unless another device reports to the same address in the same interrupt, where the last one wins.
- PrinterRuns.PrintsWhatWasSent: as ReportsToSender for the block; the text does not depend on it.
- DiskFiles.FileChangesOnlyByWrites: says what was written unless a read to the address of the block ends in the same interrupt, where the write may take what that read delivered.
- Handshake.TaskTakenUpIff: a task for a core that has not counted itself is refused by `CoreExecute`; the theorem is about calls from the C code, when all have.
- `fat_getcluster` and `fat_listdirectory`: the first cluster of each device file is an input.
- `write_tape_block`: nothing calls it.
- Printer cursor and glyphs: the model keeps which character was sent to which printer, in order.
- `c_irq_handler`, `c_swi_handler`, `c_abort_handler`, `setTIMER`, context save and restore, exception vectors: register plumbing and assembly.
- UART, GPIO, GPU mailbox, frame buffer: memory-mapped registers.
- `initMMU`: system registers, TLB and caches. The table walk does not decode execute-never.
- User programs writing interrupt lines or installed bytes.
- Logging strings, including the calls of `itoa` that build them.
