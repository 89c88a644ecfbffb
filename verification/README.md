# Tock kernel: memory isolation, grants, upcalls and loading, verified

A Dafny model of the core of the Tock kernel and proofs about it. Four parts are
modelled, and they are linked: the later ones use the earlier ones as they are.

* **Cortex-M MPU** (`Powers`, `Region`, `MpuPlan`, `MpuTable`, `CortexMpu`). The
  allocator turns byte ranges into aligned power-of-two regions with eight
  subregion-disable bits. Registers follow section 4.5 of ARM DUI 0553A, and every
  claim is about the set of addresses that the register values make accessible.
  The driver object skips hardware writes by an identifier and a dirty flag.
* **Processes** (`ProcessSpec`, `ProcessMemory`, `GrantLayout`, `GrantTable`,
  `GrantWords`, `LifeCycle`, `ProcessRuns`, `Creation`, `System`, `HeldGrants`). A process is
  a value (breaks, high-water mark, region table, grant pointers with a tag in the low bit, grant memory, task
  queue, life-cycle state, identifier) and every kernel operation a function of it.
  Runs are finite sequences of arbitrary operations over any number of processes,
  with loads, faults, terminations, restarts and stores by userspace anywhere in
  between.
* **The same operations on objects** (`RingBuffer`, `ProcessStandard`,
  `KernelCalls`, `ObjectSteps`, `ObjectCreation`, `KernelLoop`, `Kernel`). The process
  object updates its cells, its pointer array, its task ring and its MPU
  configuration in place. Each method is proved equal to the function on values.
  `KernelLoop.DoProcess` is the kernel's loop around one process, and
  `Kernels.RunKernel` creates process objects that share one MPU and runs them in any
  order: the objects are then the processes of a state that a run on values reaches,
  so the theorems about runs hold of them.
* **System calls** (`Syscalls`): subscribe and allow, against section 4.2
  (Subscribe) of Tock TRD104.
* **Loading** (`Footers`, `Checker`, `Loader`) and **deferred calls**
  (`DeferredCall`): the asynchronous credential machine, the choice between
  conflicting binaries, and the bit-mask work queue with its start-up check.

## Statements that need a condition

Six statements hold only under a condition. The code is modelled as written; each
condition is proved necessary and sufficient, or has a lemma with an input that
shows the failure.

* When the RAM allocator takes its doubling branch it doubles the region but not the
  block, and the accessible range then ends inside the kernel's part. For a request
  the gap holds if and only if that branch is not taken (`MpuPlan.KernelGapIff`,
  `MpuPlan.KernelGapFails`). A created process is isolated from the kernel break on
  if and only if what its first plan enables ends below the kernel's structures,
  which depends only on the board and on the RAM the header asks for (`RoomyFor`;
  `Creation.CreateSound`); a restarted one if and only if the reset does not take
  the branch (`Restart.RestartOutcome`). A process that is not isolated can write
  over its own process struct and grants, and then nothing is known of the kernel:
  the model has such a store as an operation, after which the state is `wrecked`, and
  the theorems about runs say nothing of wrecked states. `System.SafeIffRoomy` gives
  the exact condition for a process never to wreck the kernel, `System.UnsafeHappens`
  a binary that can, and `System.RoomyNeverWrecked` extends the safe half to any number
  of processes.
* A panic, or arithmetic that leaves the 32-bit range, stops the kernel: the state is
  `halted` and the theorems about runs say nothing of it. `System.HaltedIff` says of
  every run exactly when that happens, by a condition on the next operation: the break
  moved to the start of memory before any buffer was shared, a grant larger than a word
  entered, a fault answered by a panic, or a load that overflows.
  `System.SteadyNeverHalts` and `Creation.ModestNeverTraps` give conditions that can be
  checked before the run. The release profile (Cargo.toml:116-121) has no overflow
  checks; a kernel built that way goes on with wrapped values from those points, and
  what it does then is not modelled.
* `brk` to the start of process memory subtracts one from a count of zero
  (`ProcessMemory.BrkOutcome`: exactly then).
* A grant request larger than the kernel break wraps around. The range returned fits
  below the old break if and only if the size does not exceed it
  (`ProcessMemory.AllocationFitsIff`, `ProcessMemory.WrappingRequest`, with a concrete
  process in `ProcessMemory.WrappingRequestHappens`).
* Tagging a null grant pointer makes it look allocated: entering keeps the allocation
  status of all entries if and only if the entry was allocated
  (`GrantTable.EnterKeepsStatusIff`). All callers check first.
* Two binaries conflict if they share an application identifier or a short
  identifier. That union need not be transitive, and then a binary can be dropped
  although nothing loaded conflicts with it (`Loader.NotTransitive`). The loader makes
  processes of exactly the binaries that beat all their rivals, and accounts for every
  other one by a process that is there in the end, if and only if every other binary
  conflicts with an earlier process or with one of the winners
  (`Loader.LoadsCoveredIff`). Transitivity is enough (`Loader.TransitiveCovers`).
  Accounting for the drops by itself needs less, because the loader may pick a binary
  that does not beat all its rivals: `Loader.LoadsWinners` says for any conflicts which
  binaries it picks, and `Loader.AccountableIff` exactly when every drop is accounted
  for.

Two smaller facts the comments do not mention: `verify_setup` refuses 32 deferred calls
although there are 32 cells, because cell 0 is never handed out, so at most 31 can
exist; and the `len + 4` slice in `check_footer` never fails, because the parser has
already checked those bytes.

## Conventions

Addresses and sizes are mathematical integers; `WORD` is 2^32. Where the source
wraps (`wrapping_add`, `wrapping_sub`) the model wraps. Where an addition could leave
the 32-bit range or a subtraction go below zero, the outcome is `Overflow`, and `Trap`
for a process operation; the kernel also traps on an explicit panic. Nothing is
claimed of the kernel after a trap. Clocks, the scheduler, the context switch, fault
policies, capsules and checking policies are parameters that may answer anything.

## Model

"As specified" below means that the reply and the whole new value of the object equal
those of the function on values for the old value, on every path, and that nothing
outside the named objects changes. What those functions guarantee is in the rows for
`ProcessMemory`, `GrantTable`, `Syscalls`, `ProcessRuns`, `Restart` and `System`.

| member | source | states |
|---|---|---|
| `Powers.ClosestPowerOfTwoIsCeil` | kernel/src/utilities/math.rs:9-19 | decrement, five shift-and-or steps and increment, on the bits of a word, compute the rounded-up power of two |
| `Powers.CeilPow2Least` | kernel/src/utilities/math.rs:9-19 | which is the least power of two not below the argument |
| `Powers.TrailingZerosGreatest` | arch/cortex-m/src/mpu.rs:462-482 | 2^k divides an address if and only if k is at most its number of trailing zeros |
| `Region.NewRegionDecodes` | arch/cortex-m/src/mpu.rs:270-333 | the base and size decoded from the register values are those encoded |
| `Region.NewRegionCovers` | arch/cortex-m/src/mpu.rs:270-333 | an address is accessible through a new region if and only if it lies in the enabled subregion range |
| `Region.NewRegionUser` | arch/cortex-m/src/mpu.rs:270-333 | user mode can read there unless the permissions are execute-only, write if and only if they include writing, and execute if and only if they include both reading and executing |
| `Region.EmptyCoversNothing` | arch/cortex-m/src/mpu.rs:335-342 | an empty region, under any number, exposes nothing and overlaps no range |
| `Region.OverlapsMeansShared` | arch/cortex-m/src/mpu.rs:356-370 | for non-empty ranges, overlap is reported if and only if some byte is shared |
| `MpuPlan.PlanRegionExact` | arch/cortex-m/src/mpu.rs:421-546 | in all three cases of allocate_region the accessible bytes are exactly the returned range, inside the offered memory, at least as large as asked |
| `MpuPlan.PlanRegionWhere` | arch/cortex-m/src/mpu.rs:421-546 | unless the arithmetic overflows: where the region goes and how large it is in each of the three cases, and that it is refused exactly when that does not fit |
| `MpuPlan.AppRegionsCover` | arch/cortex-m/src/mpu.rs:668-701 | regions 0 and 1 together expose exactly the first `enabled` eighths, contiguously |
| `MpuPlan.PlanAppSound` | arch/cortex-m/src/mpu.rs:573-665 | a RAM block is a power of two inside the offered memory, at least max(minimum, app + kernel), its app part accessible and nothing past its end |
| `MpuPlan.BlockSizeLeast` | arch/cortex-m/src/mpu.rs:586-618 | the block is the least power of two of at least 512 bytes that holds what is needed |
| `MpuPlan.PlanAppWhere` | arch/cortex-m/src/mpu.rs:573-665 | unless the arithmetic overflows: the block is the least that holds the need, at the first multiple of its region size, and it is refused exactly when it does not fit there |
| `MpuPlan.KernelGapIff` | arch/cortex-m/src/mpu.rs:620-665 | where the accessible range ends, and that it stays clear of the kernel's bytes if and only if the doubling branch is not taken |
| `MpuPlan.KernelGapFails` | arch/cortex-m/src/mpu.rs:620-665 | a request of 32 app and 464 kernel bytes whose accessible range ends inside the kernel's part |
| `MpuPlan.ModestRegion` | arch/cortex-m/src/mpu.rs:421-546 | planning a region for code in the first 256 MB never leaves the 32-bit range, and succeeds if twice the power of two that holds the rounded request fits |
| `MpuPlan.ModestApp` | arch/cortex-m/src/mpu.rs:573-665 | planning a block of at most 256 MB in the first gigabyte never leaves the 32-bit range, and succeeds if twice the block fits |
| `MpuPlan.PlanAppStable` | arch/cortex-m/src/mpu.rs:573-665 | offering a granted block again, for no more kernel memory, yields the same start and length |
| `MpuPlan.PlanUpdateExact` | arch/cortex-m/src/mpu.rs:703-774 | exactly when an update succeeds, exactly when its count underflows, and where the enabled range then ends |
| `MpuTable.AccessDisjoint` | arch/cortex-m/src/mpu.rs:356-370 | under the table invariant no address is accessible through two regions |
| `MpuTable.AllocateRegionSound` | arch/cortex-m/src/mpu.rs:421-546 | success changes one spare slot, exposes exactly the granted range and keeps regions apart; failure changes nothing |
| `MpuTable.RemoveRegionSound` | arch/cortex-m/src/mpu.rs:548-571 | removal clears exactly the slot holding that range, never slots 0 and 1, and keeps the invariant |
| `MpuTable.AllocateThenRemove` | arch/cortex-m/src/mpu.rs:421-571 | removing the region just allocated restores the region table exactly |
| `MpuTable.AllocateAppSound` | arch/cortex-m/src/mpu.rs:573-701 | the same for RAM blocks: the table exposes exactly the first bytes of the block and leaves slots from 2 on alone |
| `MpuTable.RunKeeps` | arch/cortex-m/src/mpu.rs:239-571 | over any sequence of allocations and removals, distinct regions expose disjoint sets and slots 0 and 1 are untouched |
| `MpuTable.FlashRegionExact` | kernel/src/process_standard.rs:1335-1345 | user mode can read and execute through the flash region exactly the process's flash, and write nothing |
| `MpuTable.ShapeAccess` | arch/cortex-m/src/mpu.rs:776-788 | through a whole table of the shape the kernel builds, user mode can write exactly what regions 0 and 1 expose, execute exactly flash, and read exactly both |
| `CortexMpu.ImageWritable` | arch/cortex-m/src/mpu.rs:776-788 | what user mode can write under the register file of a table is what the table lets it write |
| `CortexMpu.CortexMConfig.UnusedRegionNumber` | arch/cortex-m/src/mpu.rs:239-251 | the first unused slot from 2 on |
| `CortexMpu.Mpu.NewConfig` | arch/cortex-m/src/mpu.rs:396-411 | an identifier never used before, an empty numbered table, dirty; none only when identifiers run out |
| `CortexMpu.Mpu.ResetConfig` | arch/cortex-m/src/mpu.rs:413-419 | every slot empty under its own number, marked dirty |
| `CortexMpu.Mpu.AllocateRegion` | arch/cortex-m/src/mpu.rs:421-546 | as specified: the reply and the whole table, dirty flag included |
| `CortexMpu.Mpu.RemoveMemoryRegion` | arch/cortex-m/src/mpu.rs:548-571 | as specified: the reply and the whole table, dirty flag included |
| `CortexMpu.Mpu.AllocateAppMemoryRegion` | arch/cortex-m/src/mpu.rs:573-701 | as specified: the reply and the whole table, dirty flag included |
| `CortexMpu.Mpu.UpdateAppMemoryRegion` | arch/cortex-m/src/mpu.rs:703-774 | as specified: the reply and the whole table, dirty flag included |
| `CortexMpu.Mpu.ConfigureMpu` | arch/cortex-m/src/mpu.rs:776-788 | whether or not the write is skipped, the hardware slots equal the configuration's regions afterwards |
| `CortexMpu.EditMarksDirty` | arch/cortex-m/src/mpu.rs:413-774 | every edit keeps identifier, length and numbering and either changes nothing or sets the dirty flag |
| `CortexMpu.HardwareMatches` | arch/cortex-m/src/mpu.rs:396-788 | from power-up, for every interleaving over any number of configurations, configuring one leaves the hardware equal to its table |
| `GrantLayout.SectionsFit` | kernel/src/grant.rs:272-397 | counters, upcalls, both allow arrays and T follow one another without overlap inside grant_size bytes |
| `GrantLayout.SectionsAligned` | kernel/src/grant.rs:347-397 | for every power-of-two alignment, the arrays are word-aligned and T lands on its own alignment |
| `GrantLayout.GrantSizeIs` | kernel/src/grant.rs:347-397 | the size of a grant is a word and eight bytes an entry, rounded up to the alignment of T, and T; its alignment is that of T, at least four |
| `GrantLayout.WriteDefaultArray` | kernel/src/grant.rs:760-764 | exactly the entries of the array are reset |
| `GrantLayout.InitializeFromCounts` | kernel/src/grant.rs:309-345 | memory holds the packed counters and default entries; nothing else moves |
| `GrantLayout.CountersRoundTrip` | kernel/src/grant.rs:309-423 | the three counts unpack from the packed counter word, where each has a byte of its own |
| `GrantLayout.ReadAfterInitialize` | kernel/src/grant.rs:272-345 | reading the layout back recovers the same array positions and all three counts |
| `ProcessMemory.IsolationByAddress` | kernel/src/process_standard.rs:604-630 | the memory invariant address by address: all below the app break accessible, nothing outside the block, nothing from the kernel break on when isolated |
| `ProcessMemory.UpdateExact` | arch/cortex-m/src/mpu.rs:703-774 | on a laid-out process an update exposes exactly the app memory rounded up to subregions, or changes nothing |
| `ProcessMemory.BrkKeeps` | kernel/src/process_standard.rs:604-630 | success moves only the break and the table and leaves the process isolated; failure changes nothing |
| `ProcessMemory.BrkOutcome` | kernel/src/process_standard.rs:604-630 | exactly when brk succeeds, with the old break, exactly when it underflows, and which error it gives otherwise, by address |
| `ProcessMemory.SbrkOutcome` | kernel/src/process_standard.rs:594-602 | the same for a relative move, and that the break moves by the increment unless it wraps |
| `ProcessMemory.SbrkKeeps` | kernel/src/process_standard.rs:594-602 | the same for a wrapping relative move |
| `ProcessMemory.AllocationKeeps` | kernel/src/process_standard.rs:1964-2016 | a grant allocation leaves the process isolated below the new kernel break; failure changes nothing |
| `ProcessMemory.AllocationOutcome` | kernel/src/process_standard.rs:1964-2016 | exactly when an allocation succeeds, and at which address |
| `ProcessMemory.AllocationFitsIff` | kernel/src/process_standard.rs:1964-2016 | the new range is aligned, and ends at or below the old break if and only if the request does not exceed it |
| `ProcessMemory.WrappingRequest` | kernel/src/process_standard.rs:1964-1982 | a request of 2^32 - 4 bytes succeeds at the old break of any process whose break is aligned |
| `ProcessMemory.WrappingRequestHappens` | kernel/src/process_standard.rs:1964-1982 | a concrete process with the memory invariant of which that is true |
| `ProcessMemory.BuildKeeps` | kernel/src/process_standard.rs:632-766 | a validated buffer is below the raised high-water mark, or in unprotected flash if read-only |
| `ProcessMemory.BuildOutcome` | kernel/src/process_standard.rs:632-766 | exactly for which addresses a buffer is built, the buffer and the high-water mark it leaves, and the error otherwise |
| `ProcessMemory.ResetKeeps` | kernel/src/process_standard.rs:1771-1919 | whatever reset returns, the memory invariant holds, and a success has the breaks and the single extra task of a new process |
| `ProcessMemory.IsolatedIff` | kernel/src/process_standard.rs:604-630 | a process whose MPU exposes its memory up to some end is isolated if and only if that end is not past the kernel break, and otherwise the kernel break itself is exposed |
| `ProcessMemory.ResetIsolatedIff` | kernel/src/process_standard.rs:1771-1873 | a reset that rebuilds the table leaves the process isolated if and only if the doubling branch is not taken for the kernel's bytes |
| `GrantTable.EnterLeave` | kernel/src/process_standard.rs:885-961 | enter returns the untagged pointer, a second enter fails, an immediate leave restores the whole process |
| `GrantTable.EnterKeepsStatusIff` | kernel/src/process_standard.rs:885-923 | entering changes no allocation status if and only if the entry was allocated |
| `GrantTable.LookupUnique` | kernel/src/process_standard.rs:980-994 | lookup by driver number finds the unique allocated entry |
| `GrantTable.AllocateGrantEffect` | kernel/src/process_standard.rs:796-859 | success fills one free entry of an unused driver at an even, non-null address; failure changes nothing |
| `GrantTable.NewGrantEffect` | kernel/src/grant.rs:984-1162 | entering a grant for the first time allocates and initializes it, otherwise nothing changes |
| `GrantTable.NewGrantOutcome` | kernel/src/grant.rs:984-1162 | exactly when a first use allocates the grant, at which address, when the kernel stops, and the error otherwise; a grant that is there is left alone |
| `GrantTable.CustomGrantOutcome` | kernel/src/process_standard.rs:861-883 | the same for a custom grant, with the address and the identifier returned |
| `GrantTable.NewGrantKeeps` | kernel/src/grant.rs:984-1162 | a new grant disturbs no registration and no queued call |
| `GrantTable.ScheduleContract` | kernel/src/grant.rs:595-619 | exactly when scheduling succeeds, and that it appends one task carrying the registration in force and the arguments |
| `GrantTable.SwapUpcallEffect` | kernel/src/grant.rs:797-838 | the swap returns the old registration, installs the new one and touches no other entry |
| `Syscalls.SubscribeContract` | kernel/src/kernel.rs:867-1018 | success returns the previous pair, installs the new one, touches no other and removes its queued calls; failure hands the arguments back and changes no registration or task |
| `Syscalls.NoStaleCall` | kernel/src/kernel.rs:996-1005 | after a success no queued call refers to that upcall, and every queued task was queued before |
| `Syscalls.SubscribeOutcome` | kernel/src/kernel.rs:867-1018 | with the grant in place, a subscribe succeeds exactly if the pointer is null or its four bytes lie in unprotected flash or below the app break, the driver is there and has that upcall; the first thing wrong names the error |
| `Syscalls.SubscribedInside` | kernel/src/process_standard.rs:996-1002 | with or without the grant in place, only a null pointer or one into own flash or app memory is registered |
| `Syscalls.FirstSubscribe` | kernel/src/kernel.rs:936-984 | the first subscribe to a driver asks the capsule, which allocates, and then succeeds with the Null Upcall |
| `Syscalls.AskedInVain` | kernel/src/kernel.rs:936-984 | if the capsule refuses or allocates nothing, the call fails for want of memory |
| `Syscalls.AllowKeeps` | kernel/src/kernel.rs:1047-1376 | after any read-write or read-only allow, every buffer the kernel holds is in memory the process cannot give back, or in unprotected flash if read-only |
| `Syscalls.AllowContract` | kernel/src/kernel.rs:1047-1376 | success returns the buffer held before and swaps only that one; failure returns the arguments and changes none |
| `Syscalls.AllowOutcome` | kernel/src/kernel.rs:1047-1376 | with the grant in place, exactly when an allow of either kind succeeds and which error it gives |
| `Syscalls.FirstAllow` | kernel/src/kernel.rs:1047-1376 | the first allow to a driver asks the capsule, which allocates, and then succeeds with the null, empty buffer |
| `GrantWords.DecodeInitialized` | kernel/src/grant.rs:309-345 | the words written for a new grant decode to its three counts and to default entries |
| `GrantWords.DecodeUpcall` | kernel/src/grant.rs:706-712 | writing the two words of one saved upcall replaces that entry of the decoded memory and no other |
| `GrantWords.DecodeAllow` | kernel/src/grant.rs:717-739 | the same for one saved buffer of either kind |
| `GrantWords.RangesSpread` | kernel/src/process_standard.rs:1964-2016 | under the range invariant, unless a request wrapped, the words of the grants of a process are aligned and apart |
| `GrantWords.SwapUpcallInWords` | kernel/src/grant.rs:797-838 | on words that represent a process, a subscribe returns the two words of the entry, and writing the new ones represents the new process |
| `GrantWords.SwapAllowInWords` | kernel/src/grant.rs:843-938 | the same for an allow of either kind |
| `GrantWords.FirstUseInWords` | kernel/src/grant.rs:984-1162 | initializing the words at the new address represents the process after its first use of a grant |
| `ProcessRuns.StepKeeps` | kernel/src/process_standard.rs:263-1919 | every one of 23 operations keeps isolation, table, queue, buffer, range and registration invariants together |
| `ProcessRuns.Recorded` | kernel/src/process_standard.rs:632-883 | every buffer built or allowed and every custom grant is in the record the theorems about runs speak of |
| `Creation.CreateSound` | kernel/src/process_standard.rs:1316-1765 | created or refused, create returns a tail of the memory it was given; a new process starts with every invariant, its block before that tail, the RAM asked for below its kernel break, the least block that holds it, and the init call with its arguments queued; isolated if and only if the board and the requested RAM make the block roomy |
| `Creation.RefusedWhy` | kernel/src/process_standard.rs:1316-1765 | what each refusal of create means, and which memory is left after it |
| `Creation.ModestNeverTraps` | kernel/src/process_standard.rs:1316-1765 | creating a process of at most 256 MB, with flash in the first 256 MB and RAM in the first gigabyte, never leaves the 32-bit range |
| `Creation.TightProcess` | kernel/src/process_standard.rs:1415-1648 | a board and a binary for which a process is created that is not roomy |
| `Restart.RebuildOnce` | kernel/src/process_standard.rs:1771-1873 | rebuilding the table of a created process always succeeds with the identical block |
| `Restart.CreatedLive` | kernel/src/process_standard.rs:1415-1648 | every created process can be rebuilt |
| `Restart.RestartOutcome` | kernel/src/process_standard.rs:412-431 | a restart fails only when the architecture refuses and then stays terminated; a success has the same region table, no grants, the breaks of creation and exactly the init call queued, field by field; the completion code is recorded; it is isolated if and only if the doubling branch is not taken |
| `Restart.StartOutcome` | kernel/src/process_standard.rs:400-410 | the same for a terminated process that is started; any other is left alone |
| `Restart.FaultOutcome` | kernel/src/process_standard.rs:375-398 | a fault stops the kernel exactly if the policy says panic, restarts as above, or leaves the process faulted with no tasks and no grants |
| `Restart.ResetReply` | kernel/src/process_standard.rs:1771-1919 | re-initializing a live process replies success, or the error for an architecture that refuses |
| `Restart.LiveKept` | kernel/src/process_standard.rs:263-1919 | no operation loses the configuration, so the above holds in every reachable state |
| `Restart.LiveAccess` | kernel/src/process_standard.rs:1335-1648 | through its whole table a live process can write exactly what regions 0 and 1 expose, execute exactly its own flash, and read exactly both |
| `Restart.TrespassMeans` | arch/cortex-m/src/mpu.rs:620-665 | a store can hit something else than the process's own memory exactly where regions 0 and 1 reach the kernel break or beyond, and nowhere if the block is roomy |
| `Restart.HaltsIff` | kernel/src/process_standard.rs:375-2016 | in every reachable state an operation stops the kernel if and only if it moves the break to the start of memory before any buffer was shared, enters an oversized grant, or is a fault answered by a panic |
| `System.LoadKeeps` | kernel/src/process_loading.rs:203-274 | one load, failed or not, keeps all blocks in order inside the pool |
| `System.LoadOutcome` | kernel/src/process_loading.rs:203-274 | a load adds the process made of its binary in the next slot, with the rest of the pool after its block, or adds nothing; it stops the kernel exactly when create does |
| `System.LoadProcessesFromFlash` | kernel/src/process_loading.rs:203-274 | the loading loop, for any finds and failures, yields at most `slots` sound processes whose blocks follow one another |
| `System.LoadingIsRun` | kernel/src/process_loading.rs:203-274 | the loop is the run of the loads found up to the end of the binaries: what is skipped does not end it |
| `System.RoomyNeverWrecked` | kernel/src/process_loading.rs:203-274 | if every binary loaded gets a roomy block, no run with any stores by any processes reaches the kernel's data |
| `System.SafeIffRoomy` | arch/cortex-m/src/mpu.rs:620-665 | the kernel's data is safe from a new process's stores in every later run if and only if its block is roomy |
| `System.UnsafeHappens` | arch/cortex-m/src/mpu.rs:620-665 | a concrete binary that loads and has a later run that reaches the kernel's data |
| `System.HaltedIff` | kernel/src/process_standard.rs:375-2016 | a run stops the kernel if and only if, at some operation, the state before it meets the condition |
| `System.SteadyNeverHalts` | kernel/src/process_standard.rs:375-2016 | with grants that fit a word, a run without moves of the break and panics and with modest loads never stops the kernel |
| `System.OwnMemoryOnly` | kernel/src/process_standard.rs:594-1919 | in every reachable state that is neither wrecked nor halted the breaks are in order, all app memory is writable, nothing outside the block is, nothing from the kernel break on if the block is roomy, exactly its own flash is executable, and nothing else is readable |
| `System.ProcessesIsolated` | kernel/src/process_loading.rs:203-274 | there, through all slots of its table, a process can write no byte of another process's block or outside the RAM pool, and can reach none either unless its flash lies in RAM |
| `System.BuffersStayInside` | kernel/src/processbuffer.rs:313-361 | a buffer whose process identifier still resolves is inside app memory, or unprotected flash if read-only, in every later state |
| `System.BufferResolves` | kernel/src/kernel.rs:101-118 | in every reachable state an identifier finds exactly the process that bears it and its buffers have their length; any other finds nothing and its buffers read as empty |
| `System.GrantsOutOfReach` | kernel/src/process_standard.rs:796-883 | every non-wrapping grant or custom grant of the present incarnation is aligned, between the app break and the process struct, and above everything user mode can write |
| `System.GrantsApart` | kernel/src/process_standard.rs:1964-2016 | any two of them are disjoint |
| `System.GrantsInPlace` | kernel/src/grant.rs:272-397 | every allocated grant stands on one range of its own of the declared size and alignment, in which counters, arrays and T fit aligned and without overlap, and entering returns its start |
| `System.UpcallsCurrent` | kernel/src/grant.rs:595-619 | in every reachable state queued driver calls carry the last successful subscription, whose function lay in the own flash or app memory of the process when it was subscribed; an inactive process has nothing queued or granted and is not ready |
| `System.SubscribeReturnsLast` | kernel/src/upcall.rs:200-214 | after any run a successful subscribe returns the pair of the last one, or the Null Upcall at first |
| `System.CustomGrantFound` | kernel/src/process_standard.rs:2023-2042 | through any later run a custom-grant identifier maps back to its address |
| `LifeCycle.FirstInFirstOut` | kernel/src/process_standard.rs:263-293 | tasks come out in the order they went in, none lost and none twice; exactly when one is taken in, and the error otherwise |
| `LifeCycle.PendingRemovedLast` | kernel/src/process_standard.rs:300-323 | removing the pending calls of an upcall drops those and keeps the order of the others |
| `LifeCycle.EarliestAnswer` | kernel/src/process_standard.rs:473-484 | a wait takes the earliest task that answers it and nothing else |
| `LifeCycle.StopHolds` | kernel/src/process_standard.rs:348-373 | a stopped process does not react to yields or stops, and resuming restores the whole process |
| `LifeCycle.YieldsOnlyRunning` | kernel/src/process_standard.rs:336-346 | only a running process yields, and nothing but its state changes |
| `LifeCycle.TerminateOutcome` | kernel/src/process_standard.rs:433-459 | termination empties the queue, gives up every grant, records the completion code and changes nothing else; a terminated process is left alone |
| `LifeCycle.EnterOutcome` | kernel/src/process_standard.rs:885-923 | exactly when a grant is entered, and the error otherwise |
| `LifeCycle.LeaveOutcome` | kernel/src/process_standard.rs:942-961 | leaving clears the mark of the entry and touches nothing else; an inactive process is left alone |
| `LifeCycle.SwapOutcome` | kernel/src/grant.rs:769-838 | exactly when a saved upcall is swapped, and the error otherwise |
| `LifeCycle.SwapAllowOutcome` | kernel/src/grant.rs:769-938 | the same for a buffer, with read-write and read-only ones kept apart |
| `HeldGrants.RunHolds` | kernel/src/process_standard.rs:885-961 | an entered grant keeps its pointer, mark, driver and memory through any run that neither leaves it nor ends its process |
| `HeldGrants.EnterHoldsUntilLeave` | kernel/src/grant.rs:484-499 | from entering to leaving across any such run a second enter fails, and leaving restores the exact entry with its registrations and buffers as they were |
| `Queues.KeptElements` | kernel/src/collections/ring_buffer.rs:152-176 | retain keeps all and only the matching elements |
| `Queues.RingBuffer.Len` | kernel/src/collections/ring_buffer.rs:68-77 | the number of elements held, across the wrap |
| `Queues.RingBuffer.Enqueue` | kernel/src/collections/ring_buffer.rs:79-88 | appends unless all but one slot are in use |
| `Queues.RingBuffer.Push` | kernel/src/collections/ring_buffer.rs:90-102 | appends, dropping the oldest element when full |
| `Queues.RingBuffer.Dequeue` | kernel/src/collections/ring_buffer.rs:104-112 | removes and returns the oldest element |
| `Queues.RingBuffer.RemoveFirstMatching` | kernel/src/collections/ring_buffer.rs:121-145 | removes the first match and closes the gap in place, across the wrap |
| `Queues.RingBuffer.Retain` | kernel/src/collections/ring_buffer.rs:152-176 | filters in place, across the wrap, keeping order |
| `ProcessStandards.ProcessStandard.constructor` | kernel/src/process_standard.rs:1606-1765 | the object create builds has the value of a new process, on the board and MPU given |
| `ProcessStandards.ProcessStandard.Brk` | kernel/src/process_standard.rs:604-630 | as specified; after a success the hardware registers hold the new table; the MPU is left alone or marked as written for this process |
| `ProcessStandards.ProcessStandard.Sbrk` | kernel/src/process_standard.rs:594-602 | as specified, in force in hardware, the MPU left alone or marked as written for this process |
| `ProcessStandards.ProcessStandard.SetupMpu` | kernel/src/process_standard.rs:539-543 | the hardware holds the process's table and is marked as written for it |
| `ProcessStandards.ProcessStandard.BuildReadWriteProcessBuffer` | kernel/src/process_standard.rs:632-696 | as specified |
| `ProcessStandards.ProcessStandard.BuildReadOnlyProcessBuffer` | kernel/src/process_standard.rs:698-766 | as specified |
| `ProcessStandards.ProcessStandard.AllocateInGrantRegionInternal` | kernel/src/process_standard.rs:1964-2016 | as specified |
| `ProcessStandards.ProcessStandard.AllocateGrant` | kernel/src/process_standard.rs:796-859 | as specified |
| `ProcessStandards.ProcessStandard.AllocateCustomGrant` | kernel/src/process_standard.rs:861-883 | as specified |
| `ProcessStandards.ProcessStandard.EnterGrant` | kernel/src/process_standard.rs:885-923 | as specified |
| `ProcessStandards.ProcessStandard.LeaveGrant` | kernel/src/process_standard.rs:942-961 | as specified |
| `ProcessStandards.ProcessStandard.LookupGrantFromDriverNum` | kernel/src/process_standard.rs:980-994 | the first allocated entry of that driver |
| `ProcessStandards.ProcessStandard.GrantAllocatedCount` | kernel/src/process_standard.rs:963-978 | the number of allocated entries, none for an inactive process |
| `ProcessStandards.ProcessStandard.EnqueueTask` | kernel/src/process_standard.rs:263-293 | as specified, on the task ring |
| `ProcessStandards.ProcessStandard.RemovePendingUpcalls` | kernel/src/process_standard.rs:300-323 | on the task ring, exactly the queued calls of that upcall go |
| `ProcessStandards.ProcessStandard.RemoveUpcall` | kernel/src/process_standard.rs:473-484 | on the task ring, the first task that answers the wait |
| `ProcessStandards.ProcessStandard.Terminate` | kernel/src/process_standard.rs:433-459 | in place, empty queue, null table, completion code and state |
| `ProcessStandards.ProcessStandard.Reset` | kernel/src/process_standard.rs:1771-1919 | as specified, for every failure path |
| `ProcessStandards.ProcessStandard.TryRestart` | kernel/src/process_standard.rs:412-431 | as specified |
| `ProcessStandards.ProcessStandard.Start` | kernel/src/process_standard.rs:400-410 | as specified |
| `ProcessStandards.ProcessStandard.SetFaultState` | kernel/src/process_standard.rs:375-398 | as specified, for each fault action |
| `KernelCalls.NewGrant` | kernel/src/grant.rs:984-1162 | as specified |
| `KernelCalls.SwapUpcall` | kernel/src/grant.rs:797-838 | as specified, the grant left again on every path |
| `KernelCalls.SwapAllowRw` | kernel/src/grant.rs:891-938 | as specified, the grant left again on every path |
| `KernelCalls.SwapAllowRo` | kernel/src/grant.rs:843-889 | as specified, the grant left again on every path |
| `KernelCalls.ScheduleUpcall` | kernel/src/grant.rs:595-619 | as specified |
| `KernelCalls.TryAllocateGrant` | kernel/src/kernel.rs:73-82 | the state after the capsule's reaction, and whether the count of grants changed |
| `KernelCalls.HandleSubscribe` | kernel/src/kernel.rs:867-1018 | as specified |
| `KernelCalls.HandleReadWriteAllow` | kernel/src/kernel.rs:1047-1171 | as specified |
| `KernelCalls.HandleReadOnlyAllow` | kernel/src/kernel.rs:1252-1376 | as specified |
| `ObjectCreation.Create` | kernel/src/process_standard.rs:1316-1765 | the object, the refusal or the stop that create on values describes, made of new parts under a new configuration identifier |
| `ObjectSteps.Dispatch` | kernel/src/kernel.rs:736-860 | every operation of a run, on the object, has the value and stops exactly as the step on values does, and leaves the MPU alone or marked as written for this process |
| `KernelLoop.Perform` | kernel/src/kernel.rs:736-860 | one operation on the object is one step of the whole kernel's run |
| `KernelLoop.RunUserspace` | kernel/src/kernel.rs:542-596 | the process executes only with its own region table in the hardware, which lets it write nothing from the kernel break on if its block is roomy and nothing outside the block otherwise; only a process without a roomy block can wreck the kernel; the kernel's state is led on by operations of this process |
| `KernelLoop.RunTask` | kernel/src/kernel.rs:597-645 | a dequeued upcall is the one registered at that moment |
| `KernelLoop.AnswerWait` | kernel/src/kernel.rs:646-692 | a wait is answered by its own task; the unimplemented branch is unreachable |
| `KernelLoop.DoProcess` | kernel/src/kernel.rs:510-703 | over any turns and stores the object stays process k of the kernel's state, led on only by operations of this process, until a panic or a wreck, which needs a block that is not roomy; every execution and upcall is sound, the unrunnable-process panic is unreachable, and the reasons match the state |
| `Kernels.RunAmong` | kernel/src/kernel.rs:510-703 | running one of several process objects on one MPU leaves all of them the processes of the new state |
| `Kernels.LoadBeside` | kernel/src/process_loading.rs:203-274 | creating one more object beside the others is one load of the state |
| `Kernels.RunKernel` | kernel/src/kernel.rs:361-422 | from no processes, over any loads, capsule work and scheduling decisions on one MPU, the objects are the processes of a state that a run from boot reaches, and every process executed under registers that let it write only inside the RAM pool and outside every other block |
| `Footers.ParseFooter` | libraries/tock-tbf/src/parse.rs:309-332 | a parsed footer lies inside its bytes, takes more than its header, and has the data length of its format |
| `Footers.ParsesIff` | libraries/tock-tbf/src/parse.rs:309-332 | byte by byte, exactly which strings parse, and to what |
| `Footers.CutShortIff` | libraries/tock-tbf/src/parse.rs:309-332 | byte by byte, exactly which strings are reported as cut short |
| `Footers.MalformedIff` | libraries/tock-tbf/src/parse.rs:309-332 | which error each other unparseable string gives |
| `Footers.ParseEncoded` | libraries/tock-tbf/src/parse.rs:309-332 | parsing a written footer gives it back |
| `Footers.FootersRoundTrip` | libraries/tock-tbf/src/types.rs:590-628 | writing a list of footers and parsing it gives the same list, whatever unparseable bytes follow |
| `Checker.CheckFooter` | kernel/src/process_checker.rs:345-458 | re-parsing from the start reaches footer n, or the error that ends the list |
| `Checker.ProcessCheckerMachine.Next` | kernel/src/process_checker.rs:284-340 | reports what remains, or stops at a started footer from which as much remains |
| `Checker.ProcessCheckerMachine.Check` | kernel/src/process_checker.rs:277-281 | the same from the first footer, against one scan |
| `Checker.ProcessCheckerMachine.CheckDone` | kernel/src/process_checker.rs:461-518 | a rejection reports that footer, an acceptance the credential with its metadata, any other answer moves the check on; with none under way nothing is reported |
| `Checker.ProcessCheckerMachine.CheckToCompletion` | kernel/src/process_checker.rs:277-518 | when each started check is answered once, done is called exactly once with the verdict of a single left-to-right scan |
| `Checker.RemainingIsScan` | kernel/src/process_checker.rs:345-458 | standing at footer i after any number of re-parses equals the scan from there |
| `Checker.FirstDecisive` | kernel/src/process_checker.rs:461-518 | the first footer the policy does not pass over decides: an error, a rejection under its number, or an acceptance with its credential and metadata |
| `Checker.NoneDecisive` | kernel/src/process_checker.rs:308-326 | if all are passed over, the binary passes unless credentials are required |
| `Loader.SequentialProcessLoaderMachine.LoadProcessObjects` | kernel/src/process_loading.rs:647-786 | the loop over binaries, slots and notices, in place, as specified |
| `Loader.LoadedApart` | kernel/src/process_loading.rs:794-854 | whatever attempts fail, no two loaded processes conflict |
| `Loader.ConflictIff` | kernel/src/process_loading.rs:794-826 | binaries conflict exactly if the policy gives them the same identifier or both the same fixed short identifier |
| `Loader.PicksPlaced` | kernel/src/process_loading.rs:647-786 | the loader keeps the processes it found and adds one for each binary it picks, no others |
| `Loader.TurnTells` | kernel/src/process_loading.rs:647-786 | what the client is told of one binary, exactly, and that nothing changes unless it is told of a process |
| `Loader.ToldOfPicks` | kernel/src/process_loading.rs:647-786 | over the whole loop it is told of as many processes as there are picks |
| `Loader.LoadsChosenIff` | kernel/src/process_loading.rs:647-786 | it picks exactly the binaries that beat all their rivals if and only if every other binary is beaten by a prior process, a newer later binary or a chosen earlier one |
| `Loader.LoadsCoveredIff` | kernel/src/process_loading.rs:647-854 | it does so and every binary it passes over conflicts with a process there in the end, if and only if each binary that is not chosen conflicts with a prior process or a chosen binary |
| `Loader.LoadsWinners` | kernel/src/process_loading.rs:647-786 | for any conflicts, the processes made are exactly those of the binaries that conflict with no prior process, no newer later binary and no earlier such binary, in order |
| `Loader.AccountableIff` | kernel/src/process_loading.rs:647-854 | every binary passed over conflicts with a process there in the end if and only if each that does not win conflicts with a prior process or a winner |
| `Loader.RepresentedIff` | kernel/src/process_loading.rs:647-854 | a binary conflicts with a process there in the end if and only if it does with one there at the start or with a binary that was picked |
| `Loader.TransitiveCovers` | kernel/src/process_loading.rs:794-854 | the condition holds whenever conflict is symmetric and transitive |
| `Loader.FirstMaximalLoaded` | kernel/src/process_loading.rs:647-786 | then each class yields its first binary of maximal version |
| `Loader.OnePerClass` | kernel/src/process_loading.rs:794-854 | no two chosen binaries conflict |
| `Loader.NotTransitive` | kernel/src/process_loading.rs:794-826 | three binaries for which the first is dropped although it conflicts with nothing loaded |
| `Loader.NotCovered` | kernel/src/process_loading.rs:794-826 | these binaries fail the condition of `LoadsCoveredIff` |
| `Loader.NotExcused` | kernel/src/process_loading.rs:794-826 | and that of `AccountableIff` |
| `DeferredCalls.DeferredCallState.RegisterInternal` | kernel/src/deferred_call.rs:155-169 | in place, the handler at its index, or nothing past the capacity |
| `DeferredCalls.DeferredCallState.Set` | kernel/src/deferred_call.rs:178-182 | in place, the bit of that index |
| `DeferredCalls.DeferredCallState.ServiceNextPending` | kernel/src/deferred_call.rs:195-212 | in place, the specified index, handler and mask |
| `DeferredCalls.DeferredCallState.VerifySetup` | kernel/src/deferred_call.rs:238-251 | passes if and only if fewer than 32 calls exist and as many are registered as created |
| `DeferredCalls.SetupComplete` | kernel/src/deferred_call.rs:143-251 | after any run, a passing check means every created call is registered and there are at most 31 |
| `DeferredCalls.RunRegistered` | kernel/src/deferred_call.rs:143-212 | that stays so while no further call is created |
| `DeferredCalls.ServiceOutcome` | kernel/src/deferred_call.rs:195-212 | set up or not, a service clears the least pending bit and no other and runs what is registered there |
| `DeferredCalls.RunsLastRegistered` | kernel/src/deferred_call.rs:155-169 | over any run the handler found for an index is the one last registered for it |
| `DeferredCalls.PendingUntilServiced` | kernel/src/deferred_call.rs:178-212 | a pending call stays pending until its handler runs |
| `DeferredCalls.DrainServes` | kernel/src/deferred_call.rs:195-212 | n pending calls whose handlers set nothing take exactly n services, serving those and no others |
| `DeferredCalls.DrainInOrder` | kernel/src/deferred_call.rs:195-212 | in increasing index order |

## Left out

- Context switching, register access, assembly and the architecture's process state: their answers are parameters.
- IPC: the capsule, the six-entry region tracking array and shared MPU regions, so what is said of a whole region table is said of processes that share none; an IPC task is queued, dequeued and followed by arbitrary operations.
- Userspace-readable allow, command, memop dispatch and exit: only their effects on a process, as arbitrary sequences of operations.
- System call filtering, debug counters, printing and introspection.
- Liveness: nothing says that a process, a check or a load ever makes progress, except that the loops end.
- `log_base_two`, `trailing_zeros` and `count_ones` are taken by their meaning, not as machine instructions.
- What a process computes: its stores matter only in whether they hit something other than its own memory.
- Discovery of binaries in flash and parsing of headers: what is found, and how creation of a process comes out in the loader's conflict check, are parameters.
- The contents of T in a grant, and byte copies in and out of process buffers.
- Timeslice accounting in `do_process`: the timer's answers are parameters and the time used is not returned.
- `DeferredCall::is_pending`: plays no part in servicing.
- ProcessMemory.AllocationFitsIff: says nothing of a range that wraps beyond that it does not fit.
- MpuPlan.PlanRegionWhere: leaves out a region that would start at address 0, where the subregion size is chosen from the request; PlanRegionExact covers it.
- System.GrantsOutOfReach: excludes requests that wrap, for which AllocationFitsIff shows the claim false.
- System.ProcessesIsolated: that flash is not RAM is a condition of the last clause; the source takes both ranges from the linker script.
- ProcessRuns.StepKeeps: is about the step of an operation that does not trap as well as of one that does; a run stops at the latter and nothing is claimed of it.
- KernelCalls.TryAllocateGrant: the capsule asked may enter any grants in any order and answer anything, but does nothing else to the process.
- ProcessStandards.ProcessStandard.Reset: after a trap nothing is said of the process.
- KernelLoop.DoProcess: runs for a given finite number of turns, because the source's loop need not end.
