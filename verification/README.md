# A paged-memory operating system simulator, verified

The repository is a small distributed operating system: a kernel that schedules
processes, CPUs that run them through a TLB and a page cache, and a memory module
with paged user memory and a swap file. This project models two parts of it in
Dafny and proves what they keep.

**The paged memory hierarchy.** Memory hands out frames, keeps a page table per
process and moves whole processes to and from a text swap file. A CPU reaches it
through a multi-level address translation, a TLB (FIFO or LRU) and a write-back
page cache (CLOCK or CLOCK-M). All of this should look like one flat byte array
per process. `FlatMachine.Ciclo` proves it for one process and any trace of
instructions, with any cache size (none included), either replacement policy, any
TLB, and whatever other processes left in the cache; `FlatMachine.RunToExit` adds
that, once the process leaves the cache, the memory module itself holds that
array. `Turns.TakeTurns` extends it to any number of turns that end by EXIT, by a
blocking call or by an interrupt; `Sessions.SessionFromBlank` to sessions that start
from an empty memory and interleave turns with the requests that memory serves
between them, from the creation of each process to its end, swapping included; and
`TwoCpus.Interleave` to two CPUs over one memory. `MemoryRuns` does the same for
whole runs of creation, deletion, page writes, suspension and unsuspension on the
memory side.

**The kernel's process lifecycle.** Queues, CPU slots, the blocked list, suspension
timers and the `UnsuspendMutex` form a step machine whose events carry whatever is
left to time, to other machines or to an unstable sort. `KernelRuns` proves queue
membership and CPU ownership over every run, and `KernelEffects` what each event does
and what it leaves alone; `KernelSystem` joins the kernel to the memory module and to
the write-backs of the CPUs' caches, those of preempted processes included, and proves
that memory receives only requests that it allows exactly when no write-back is stale.
`Joint.RunFromTheStart` puts both parts together: over any run of kernel, memory and a
CPU in which nobody is interrupted, every process runs on its own flat array.

How the files fit together:

| files | subject |
|---|---|
| `Addressing`, `Pages`, `Frames`, `SwapText` | digit-vector addresses, flat images, the frame allocator's arithmetic, the swap file's text |
| `Memory`, `Requests`, `Keeps`, `KeepsSwap`, `MemoryRuns`, `Programs` | the memory module's state and invariant as values, its requests, and what they and whole runs of them keep, bytes and programs |
| `Storage` | the memory module itself: global arrays, tables and swap text changed in place |
| `Tlb`, `TlbRequests`, `TlbStale`, `Clock`, `Coherence` | the TLB, what memory's requests do to it and what a wrong one does, the replacement policies, and what a cache owes the memory behind it |
| `CpuState`, `Mmu`, `Replacement`, `Insertion`, `CacheAccess`, `CacheWrites`, `CacheReads`, `EndProcess`, `CpuMemory`, `DirectReads`, `CpuReads` | the CPU: translation, the cache's loops over aliased page buffers, reads and writes |
| `FlatMachine`, `Preemption`, `Turns`, `Sessions`, `TwoCpus`, `Migration` | instructions on the CPU against flat byte arrays: one process, what an interrupted one leaves behind, turns, turns with requests in between, two CPUs, a process that goes from one to the other |
| `KernelState`, `KernelPlaces`, `KernelCpus`, `KernelBlocked`, `KernelRuns`, `KernelEffects`, `KernelWhere`, `KernelSystem`, `KernelSizes`, `KernelReached` | the kernel's step machine, its invariants, its runs, what each event does, its runs together with memory, and runs that reach what goes wrong |
| `Joint` | the kernel's runs and a CPU's session together |
| `KernelGlobals`, `KernelHandlers` | the kernel's shared variables and handlers, each proved to make its step |

Where the code does not do what it is meant to, the code is modelled as it is and
the exact condition is a lemma:

- `Preemption.LookupRightIff`: cache lookups compare the page alone, so after an
  interrupt they are right for the next process exactly when no entry left behind
  has a page address that it maps. `Preemption.Misread` and the run
  `Preemption.StaleRead` read another process's bytes otherwise.
- `KernelSystem.WriteBackSafeIff` and `RunAllowedIff`: a write-back harms another
  process exactly when its own process is in swap and the frame is taken. The run
  `KernelReached.StaleWriteReached` gets there by a preemption; without
  interrupts it cannot happen (`KernelSystem.NoInterruptNoneStale`).
- `TlbRequests.UnsuspendTlbIff` and `CreateTlbIff`: the TLB is never flushed. It is
  right about a process that comes back exactly when the frames in its entries are
  the ones that the first free frames give those pages. `TlbStale.Access` says what
  an access through it gives, and the run `TlbStale.StaleTranslation` ends with a
  read and a write that memory refuses.
- `Migration.MigrationRightIff` with the run `Migration.Migrated`: a process that
  goes on on another CPU sees what it saw exactly when it left no modified entry
  behind whose bytes memory does not have.
- `KernelSystem.DumpKeepsIff` with the run `KernelReached.LateDumpReached`: a
  memory dump that ends after its process was suspended.
- `KernelRuns.EndedHeldIff` with the run `KernelReached.MissingDeviceReached`: a CPU
  that keeps holding an ended process.
- `DirectReads.DirectReadRightIff`: uncached reads across pages.
- `MemoryRuns.AllocatorSafeIff`: memory that is not a whole number of pages.
- `MemoryRuns.SuspendSafeIff`, `DeleteSafeIff` and `WriteSafeIff`: requests for
  processes already in swap.

`CacheWrites.WriteCache` also states that a write to a page that is not cached
loses the bytes of that page; `WriteMemory` always caches the page first, so its
own contract does not show it.

## Model

| member | source | states |
|---|---|---|
| Addressing.NextValue | cpu/memory/mmu.go:210-224 | the odometer keeps every digit in range and adds one modulo EntriesPerPage^Levels |
| Addressing.Sum | cpu/memory/mmu.go:210-224 | the in-place loop ends and leaves the odometer successor of the digits |
| Addressing.FromIntToLogicalAddres | cpu/memory/mmu.go:384-402 | for an address of 0 or more the digits are in range and denote the page number modulo EntriesPerPage^Levels, and the last component is the offset; a negative address gives page 0 and an offset of 0 or less |
| Addressing.ValueInjective | cpu/memory/mmu.go:384-402 | a page number has one in-range digit vector only |
| Addressing.ValueBounds | memoria/storage/storage.go:294-302 | in-range digits denote a number below EntriesPerPage^Levels |
| Addressing.WalkStep | memoria/storage/storage.go:294-302 | each level of the table walk adds its digit at its weight |
| Pages.WriteIsFlat | cpu/memory/mmu.go:82-182 | writing page after page is one splice of the flat array, cut at its end |
| Pages.ReadIsFlat | cpu/memory/cache.go:298-407 | reading page after page is one slice of the flat array, cut at its end |
| Pages.FlattenInjective | memoria/storage/storage.go:240-261 | equal flat arrays come from equal page images |
| Frames.FirstFreeCount | memoria/storage/storage.go:640-664 | the scan finds as many frames as were asked for exactly when that many are free |
| Frames.FirstFreeLowest | memoria/storage/storage.go:640-664 | no free frame is passed over: one that is not taken lies above all that are |
| Frames.BasesApart | memoria/storage/storage.go:600-637 | distinct frames occupy disjoint stretches of user memory |
| Frames.PagesForExact | memoria/storage/storage.go:640-664 | a whole number of pages needs exactly that many frames |
| SwapText.AtoiPrint | memoria/storage/storage.go:400-407 | a printed number reads back as itself |
| SwapText.SplitJoin | memoria/storage/storage.go:561-590 | splitting at a separator undoes joining parts that do not hold it |
| SwapText.ReadBlock | memoria/storage/storage.go:409-452 | the reads up to the delimiters recover the header and the body of a printed block, whatever follows |
| SwapText.SplitPage | memoria/storage/storage.go:561-590 | the numbers of a printed page come back in order |
| SwapText.SplitBody | memoria/storage/storage.go:561-590 | the lines of a block body come back in order |
| SwapText.ByteRoundTrip | memoria/storage/storage.go:561-590 | every byte survives printing and parsing |
| SwapText.PrintFileAppend | memoria/storage/storage.go:389-398 | appending blocks to the file is appending their text |
| SwapText.FileText | memoria/storage/storage.go:374-387 | the text of a block to the letter, on one process with two pages |
| SwapText.ScanStep | memoria/storage/storage.go:409-452 | a block of another process is passed over as a whole |
| SwapText.FormatSwapData | memoria/storage/storage.go:374-387 | prints the block of a process: header, one line a page, end mark |
| SwapText.GetFromSwap | memoria/storage/storage.go:409-452 | returns exactly the body printed for that pid, or the end-of-file error when it has no block |
| SwapText.RemoveFromSwap | memoria/storage/storage.go:454-508 | leaves exactly the other blocks, in their order |
| SwapText.CopyRest | memoria/storage/storage.go:454-508 | copies the rest of the file unchanged |
| SwapText.DecodePage | memoria/storage/storage.go:561-590 | a printed page decodes to its bytes |
| Memory.ResidentTable | memoria/storage/storage.go:640-680 | the frames of a resident process are distinct, reserved, and no other resident process has them |
| Memory.OwnedChange | memoria/storage/storage.go:510-595 | suspending a process or changing its table moves that process's frames only |
| Requests.AllocateOutcome | memoria/storage/storage.go:640-664 | allocation fails for lack of memory, panics, or succeeds on exactly stated sizes, and its last error is unreachable |
| Keeps.AllocateTakes | memoria/storage/storage.go:640-664 | a successful allocation hands out the first free frames, sets their bits and pays their price |
| Keeps.AllocateKeeps | memoria/storage/storage.go:640-664 | exactly the handed-out frames change from free to reserved, once each, and the counter follows |
| Keeps.ReleaseKeeps | memoria/storage/storage.go:666-680 | exactly the released frames become free, and the counter follows |
| Keeps.CreateOutcome | memoria/storage/storage.go:109-149 | creation succeeds exactly when the size fits and every line is an instruction; otherwise nothing changes |
| Keeps.CreateKeeps | memoria/storage/storage.go:109-149 | creation keeps the invariant and every other image, and is all or nothing |
| KeepsSwap.DeleteKeeps | memoria/storage/storage.go:151-160 | deleting a resident process keeps the invariant and every other image |
| KeepsSwap.WriteKeeps | memoria/storage/storage.go:248-261 | a page write replaces one page of one process and nothing else |
| KeepsSwap.SuspendKeeps | memoria/storage/storage.go:510-536 | suspension frees the frames and keeps every image, its own included |
| KeepsSwap.UnsuspendKeeps | memoria/storage/storage.go:538-595 | unsuspension succeeds exactly when the block exists and its frames fit, keeps every image, and is all or nothing |
| MemoryRuns.ServeKeeps | memoria/storage/storage.go:109-595 | any allowed request keeps the invariant, changes only its own image, and a refused one changes nothing |
| MemoryRuns.RunKeepsImage | memoria/storage/storage.go:510-595 | over any run of allowed requests a process's bytes change only by its own creation, deletion or writes |
| MemoryRuns.SwapRoundTrip | memoria/storage/storage.go:510-595 | after any such run that ends with the process in memory, its pages hold the bytes they held before, though frames may differ |
| MemoryRuns.AllocatorSafeIff | memoria/storage/storage.go:640-664 | every size up to the remaining memory can be allocated exactly when the memory is a whole number of pages |
| MemoryRuns.SuspendSafeIff | memoria/storage/storage.go:510-536 | suspending keeps the allocator's books exactly when the process is resident |
| MemoryRuns.DeleteSafeIff | memoria/storage/storage.go:56-80 | deleting keeps the allocator's books exactly when the process is resident |
| MemoryRuns.WriteSafeIff | memoria/storage/storage.go:248-261 | a page write through a table entry changes no other image, whatever the value, exactly when the process is resident or the frame is free |
| Programs.CreateCode | memoria/storage/storage.go:109-149 | creation succeeds exactly when the size fits and every line is accepted; the new process has the opcode and arguments of each line, and every other process keeps its program |
| Programs.DeleteCode | memoria/storage/storage.go:56-80 | after a deletion the process is gone and every other one has its own program still |
| Programs.ServeCode | memoria/storage/storage.go:109-595 | no request but its own deletion changes the program of a process |
| Programs.FetchedAsWritten | memoria/storage/storage.go:91-149 | over any run of requests until its deletion, what is fetched for a process are the lines that it was created with |
| Storage.Storage.constructor | memoria/storage/storage.go:600-637 | zeroed memory, all frames free, books balanced, and the invariant holds exactly for a whole number of pages |
| Storage.Storage.GetDataByPID | memoria/storage/storage.go:82-89 | finds the first process with the pid, or the end |
| Storage.Storage.AllocateMemory | memoria/storage/storage.go:640-664 | changes bits and counter as the allocation function does |
| Storage.Storage.ReserveFirst | memoria/storage/storage.go:640-664 | the scan reserves the first free frames and lists their bases |
| Storage.Storage.DeallocateMemory | memoria/storage/storage.go:666-680 | frees the frames of the table and keeps the table |
| Storage.Storage.HasPage | memoria/storage/storage.go:229-238 | errors exactly for a missing process or a base outside its table |
| Storage.Storage.GetPage | memoria/storage/storage.go:240-246 | the page stored at a base of the process, or the error |
| Storage.Storage.WriteToMemory | memoria/storage/storage.go:204-215 | one byte changes, or none and an error |
| Storage.Storage.WritePage | memoria/storage/storage.go:248-261 | the byte loop replaces the page, or changes nothing on an error |
| Storage.Storage.LogicAddressToFrame | memoria/storage/storage.go:276-311 | answers the table entry at the number that the digits denote, or an error for a bad address |
| Storage.Storage.GetInstruction | memoria/storage/storage.go:91-107 | the instruction that pc names in the process's program, or the error for a missing process or a pc past the end |
| Storage.Storage.ParseCode | memoria/storage/storage.go:117-133 | accepts exactly programs of lines of one to three parts that begin with one of the eight opcodes; the result has one instruction a line, with its opcode and all its arguments |
| Storage.Storage.CreateProcess | memoria/storage/storage.go:109-149 | creates as the creation function does; a new pid then has the program of its lines, and every other process its own; validity is kept for a new pid, and nothing changes on an error |
| Storage.Storage.DeleteProcess | memoria/storage/storage.go:151-160 | deletes as the deletion function does, and keeps validity for a resident process |
| Storage.Storage.AddToSwap | memoria/storage/storage.go:389-398 | appends the printed block of the process's pages to the swap file |
| Storage.Storage.SuspendProcess | memoria/storage/storage.go:510-536 | the swap file stays a concatenation of blocks, with this one added and its frames freed |
| Storage.Storage.RestorePages | memoria/storage/storage.go:561-590 | the decoded pages are written to the new frames |
| Storage.Storage.Reload | memoria/storage/storage.go:555-595 | the block leaves the file and its pages are in the new frames |
| Storage.Storage.Load | memoria/storage/storage.go:545-595 | unsuspends from the block text, or changes nothing for lack of memory |
| Storage.Storage.UnSuspendProcess | memoria/storage/storage.go:538-595 | unsuspends as the unsuspension function does, keeps validity, and changes nothing on an error |
| Tlb.HitIsTranslation | cpu/memory/tlb.go:23-55 | a hit of a process that exists answers what the page tables would |
| Tlb.ReferenceKeeps | cpu/memory/tlb.go:23-94 | any reference keeps every entry right, one per key, within capacity, for FIFO or LRU and capacity zero |
| Tlb.LruHoldsMostRecent | cpu/memory/tlb.go:23-94 | after any trace an LRU buffer holds exactly the min(capacity, distinct) most recently referenced keys |
| Tlb.LruInclusion | cpu/memory/tlb.go:57-94 | a larger LRU buffer holds what a smaller one holds |
| Tlb.FifoHoldsLastMisses | cpu/memory/tlb.go:57-94 | after any trace a FIFO buffer holds, in the order of insertion, exactly the keys of its last min(capacity, misses) misses |
| Tlb.Buffer.constructor | cpu/memory/tlb.go:96-104 | starts empty with its capacity and policy |
| Tlb.Buffer.FindFrame | cpu/memory/tlb.go:23-55 | finds the entry of the key and, under LRU, refreshes it alone |
| Tlb.Buffer.AddEntry | cpu/memory/tlb.go:57-94 | appends the entry; a full FIFO buffer loses its first entry, a full LRU one an entry that no other was used before, and one of capacity zero stays empty |
| Tlb.Buffer.FindOldest | cpu/memory/tlb.go:57-94 | the scan finds the first of the least recently used entries |
| Clock.PlacedHand | cpu/memory/cache.go:100-123 | after an insertion exactly one entry carries the hand, and the others keep page, content and modified bit |
| Clock.SweepStep | cpu/memory/cache.go:70-98 | a step of the hand clears at most the use bit that it leaves behind |
| Clock.ClockTakes | cpu/memory/cache.go:47-123 | CLOCK passes the entries in use, clearing their use bits, and takes the first that is empty or not in use; when all are in use, it clears all and takes the one it started from |
| Clock.ClockMTakes | cpu/memory/cache.go:126-223 | CLOCK-M takes the first entry with neither bit and clears none; or the first that is modified only, clearing those it passes; or, all being in use, the first unmodified or modified one, clearing all |
| Coherence.SeenLine | cpu/memory/cache.go:11-34 | a cached page is what the process sees of that page |
| Coherence.ModifyKeeps | cpu/memory/cache.go:409-558 | writing an entry changes that page of the view only, and keeps clean entries equal to memory |
| Coherence.InsertKeeps | cpu/memory/cache.go:60-123 | replacing an entry whose bytes are in memory by a page not yet cached leaves the view as it was |
| Coherence.SaveKeeps | cpu/memory/cache.go:60-123 | writing an entry back shows nowhere in the view |
| Mmu.Traducir | cpu/memory/mmu.go:21-53 | the TLB's frame on a hit, the page tables' own on a miss; a right TLB stays right, and its answers are then the page tables' |
| Mmu.NextPageMMU | cpu/memory/mmu.go:188-208 | moves to the next page number, around at EntriesPerPage^Levels, and fails exactly when the process has no such page |
| Mmu.MappedIff | memoria/storage/storage.go:276-311 | an address is mapped exactly when its digits are in range, of the right length and below the table's size |
| Mmu.GetPageInMemory | cpu/memory/memoryConection.go:108-142 | a fresh copy of the page at the frame, or failure exactly when the frame is not in the process's table |
| Mmu.SavePageInMemory | cpu/memory/memoryConection.go:144-187 | nothing for pid -1; otherwise the page behind the address is replaced |
| Replacement.FindHand | cpu/memory/cache.go:47-58 | finds the hand, or entry 0 when no entry carries it |
| Replacement.ClockSweep | cpu/memory/cache.go:47-123 | ends, and picks the first empty or unused entry from the hand, or the hand's own when all are used |
| Replacement.PassClean | cpu/memory/cache.go:126-223 | one turn finds the first unused and unmodified entry, changing no use bit |
| Replacement.PassDirty | cpu/memory/cache.go:126-223 | one turn finds the first unused and modified entry, clearing the use bits that it passes |
| Replacement.ClockMSweep | cpu/memory/cache.go:126-223 | always finds a victim, and it is the first from the hand among those of least (use, modified) |
| Insertion.FindPage | cpu/memory/cache.go:255-268 | the first entry with that page, the pid aside |
| Insertion.SearchPageInCache | cpu/memory/cache.go:11-34 | hands out the entry's own buffer exactly when the page is cached |
| Insertion.IsInCache | cpu/memory/cache.go:255-268 | whether some entry holds the page |
| Insertion.UseCache | cpu/memory/cache.go:246-253 | the first entry of the page gets its use bit set, and nothing else changes |
| Insertion.SaveEntry | cpu/memory/cache.go:60-123 | the write-back puts the entry's bytes in its own process's page and changes nothing that any process sees |
| Insertion.AddEntryCache | cpu/memory/cache.go:36-223 | the policy's victim, whoever's it is, is written back and replaced, the process sees exactly what it saw, and so do all others |
| Insertion.InsertedHand | cpu/memory/cache.go:47-223 | after an insertion one entry has the hand, even when none had it before, and the page is cached |
| CacheAccess.ModifyCache | cpu/memory/cache.go:237-244 | marks the first entry of the page and no other |
| CacheAccess.WriteHit | cpu/memory/cache.go:437-466 | through the entry's own buffer one page of the view changes; through a detached copy nothing does |
| CacheAccess.Load | cpu/memory/cache.go:477-487 | the page is cached and the view unchanged |
| CacheAccess.Advance | cpu/memory/cache.go:537-555 | the next page number, around the last one, is cached when the process has such a page, and the view is unchanged |
| CacheWrites.WriteHead | cpu/memory/cache.go:409-466 | the first page of a write, when it was cached and when it was not |
| CacheWrites.WriteRest | cpu/memory/cache.go:489-557 | the loop writes the rest page after page, evictions included, and fails exactly when it runs past the last page |
| CacheWrites.WriteCache | cpu/memory/cache.go:409-558 | a write at any offset over any number of pages is one paged write to the view, around the last page number too, and no other process sees a difference; a page not cached beforehand loses its bytes |
| CacheWrites.MissLoses | cpu/memory/cache.go:409-466 | within one page, a write to a page cached beforehand shows there alone, and one to a page that was not shows nowhere |
| CacheReads.ReadChunk | cpu/memory/cache.go:351-373 | a slice of what the process sees of a cached page, whose entry gets its use bit and no other changes |
| CacheReads.ReadRest | cpu/memory/cache.go:351-400 | the loop collects the rest of the range, or fails exactly past the last page |
| CacheReads.ReadCache | cpu/memory/cache.go:298-407 | what the process sees there, page number after page number, for any offset and size, or nothing exactly when a page is missing; nothing seen changes |
| EndProcess.EndProcess | cpu/memory/cache.go:560-592 | memory takes what the process saw, its entries go, and other pids' entries and pages stay |
| EndProcess.SettledView | cpu/memory/cache.go:560-592 | once all its entries are saved, a process sees its memory |
| CpuState.InitCache | cpu/memory/cache.go:270-291 | empty entries with a buffer each, of the page size known then; the first carries the hand |
| CpuMemory.PutPage | cpu/memory/mmu.go:142-170 | fetch, change and save replaces a stretch of one page |
| CpuMemory.WriteBare | cpu/memory/mmu.go:82-182 | an uncached write at any offset is one paged write, and fails exactly when a page is missing |
| CpuMemory.WriteCached | cpu/memory/mmu.go:59-81 | a cached write is one paged write to the view; its result tells only whether the address is mapped |
| CpuMemory.WriteMemory | cpu/memory/mmu.go:55-186 | one paged write to what the running process sees, with the cache or without, and nothing of any other process |
| DirectReads.DirectReadRight | cpu/memory/mmu.go:289-372 | uncached reads within a page or from the start of one answer right, around the last page number too |
| DirectReads.PagedIsFlat | cpu/memory/mmu.go:289-372 | an access that does not pass the last page number is one slice of the flat array |
| DirectReads.DirectReadHole | cpu/memory/mmu.go:310-346 | any other uncached read that ends with an answer leaves a zero where the second page's first byte belongs |
| DirectReads.DirectReadRightIff | cpu/memory/mmu.go:281-372 | the uncached read is right for all memories exactly when it stays in one page or starts one |
| CpuReads.ReadBare | cpu/memory/mmu.go:264-379 | the uncached read, page after page, with its failures and slice panics |
| CpuReads.ReadCached | cpu/memory/mmu.go:243-262 | the cached read answers what the process sees, page number after page number, or fails exactly when a page is missing or unmapped |
| CpuReads.ReadMemory | cpu/memory/mmu.go:226-382 | what is seen does not change, and the answer is what the process sees there whenever cached, within a page or from the start of one |
| FlatMachine.AddressSelects | cpu/memory/mmu.go:384-402 | the digits of a byte address select the table entry of its page, and no other digits do |
| FlatMachine.Locate | memoria/storage/storage.go:276-311 | address splitting and then the table walk give pageBases[address / PageSize] |
| FlatMachine.ExecWrite | cpu/cpu.go:297-306 | WRITE is a splice of the flat array |
| FlatMachine.ExecRead | cpu/cpu.go:308-311 | READ is a slice of the flat array |
| FlatMachine.Exec | cpu/cpu.go:212-295 | one instruction is one step of the flat machine |
| FlatMachine.Ciclo | cpu/cpu.go:122-165 | any trace reads and leaves what one flat byte array would, and no other process sees a difference, in memory or through what it left in the cache |
| FlatMachine.RunToExit | cpu/cpu.go:342-368 | after the process leaves the cache, memory itself holds the flat machine's bytes and no entry of it is left |
| Preemption.LookupRightIff | cpu/memory/cache.go:246-268 | every lookup of a page that the process maps finds its own entry or none exactly when no used entry of another process has such a page address |
| Preemption.ReadForeign | cpu/memory/mmu.go:226-262 | translation and then a hit on an entry of another process: the read gives what that one sees, and fails when the page is not mapped |
| Preemption.Misread | cpu/cpu.go:149-153 | a process dispatched after an interrupt reads what the interrupted one wrote at that address, for any address within the reach of both and any value within a page |
| Preemption.StaleRead | cpu/cpu.go:149-153 | two processes of one page and a cache of one entry: the second reads the byte of the first where its own memory holds 0 |
| Turns.StartUp | memoria/storage/storage.go:600-637 | a fresh memory of whole pages, TLB and cache are idle and coherent, and a first process is in memory exactly when it fits and its program is good |
| Turns.Dispatch | cpu/cpu.go:442-470 | with nobody's entry in its way, a dispatched process is ready to run and sees what it saw when it last ran |
| Turns.TakeTurn | cpu/cpu.go:122-165 | a whole turn, ended by EXIT, a blocking call or an interrupt, changes only that process's flat array |
| Turns.TakeTurns | cpu/cpu.go:122-165 | any number of turns refines one flat byte array per process, outputs included, up to a turn that finds another's entry in its way, which only an interrupt of another process can cause |
| Turns.GoneStands | cpu/cpu.go:342-368 | after any turns, memory itself holds the flat array of every process that was not interrupted in its last turn |
| TlbRequests.ServeOthers | memoria/storage/storage.go:109-595 | a request leaves the tables and the place of every other process |
| TlbRequests.SuspendTlb | cpu/memory/tlb.go:23-55 | suspension leaves a right TLB right |
| TlbRequests.UnsuspendTlbIff | memoria/storage/storage.go:538-595 | unsuspension leaves a right TLB right exactly when nothing comes back, or every entry of the process names the frame that the first free frames will give its page |
| TlbRequests.TakenSpoils | memoria/storage/storage.go:538-595 | so never once another process holds the frame of such an entry |
| TlbRequests.CreateTlbIff | memoria/storage/storage.go:109-149 | creation does exactly when it fails, or every entry of the new pid names the frame that its page will get; a pid never used has none |
| TlbRequests.DeleteTlb | memoria/storage/storage.go:151-160 | deletion always does: an ended process is not looked up again |
| TlbRequests.CreatedTable | memoria/storage/storage.go:640-664 | a created process gets the first free frames, in order |
| TlbRequests.ReturnedTable | memoria/storage/storage.go:538-595 | a process that comes back gets the first free frames, whatever it had before |
| TlbRequests.TlbServeIff | cpu/memory/tlb.go:23-55 | the exact condition for every request, checkable before it |
| TlbStale.Access | cpu/memory/mmu.go:226-279 | on a TLB hit memory refuses a frame that is not the process's, and one that is gives the page that has it now |
| TlbStale.StaleTranslation | cpu/memory/tlb.go:23-55 | a run to a process whose next read and write are refused, after a suspension, another's creation and its return to another frame |
| Sessions.SessionKeeps | cpu/cpu.go:122-165 | turns, preempted or not, and memory requests in any order, each under its condition: every read gives and every process has what its flat array says, from its creation to its end, swapped out or not |
| Sessions.SessionFromBlank | cpu/cpu.go:122-165 | the same from an empty memory, TLB and cache, for every process that the session creates |
| Sessions.Perform | cpu/cpu.go:122-165 | a turn on the CPU is a step of such a session |
| Sessions.Answer | memoria/storage/storage.go:109-595 | a request that memory serves is a step of such a session |
| TwoCpus.ExecBeside | cpu/cpu.go:212-295 | one instruction on one CPU leaves the other CPU ready and what its process sees unchanged |
| TwoCpus.Interleave | cpu/cpu.go:122-165 | two CPUs in any interleaving of instructions: each process reads and leaves what its own flat array would |
| Migration.MigrationRightIff | cpu/memory/cache.go:560-592 | over another cache a process sees what it saw exactly when every modified entry it left holds what memory has |
| Migration.Migrated | cpu/cpu.go:149-153 | a run in which a process reads, on a second CPU, not the byte that it wrote on the first |
| KernelPlaces.MovePlaces | kernel/queues/queues.go:147-160 | removing by state and enqueueing keeps every process in exactly one queue |
| KernelPlaces.SortPlaces | kernel/queues/queues.go:80-133 | any result of the sort keeps the places, and its head can be taken |
| KernelPlaces.SortTakesLeast | kernel/queues/queues.go:105-133 | the head of a sorted queue is a process of it with the least size, the least estimated burst, or the first to come, as the policy says, and the others stay |
| KernelPlaces.StepPlaces | kernel/shared/process_shared.go:71-96 | every step keeps every process in the queue that its state names, once |
| KernelPlaces.PlacesTotal | kernel/shared/process_shared.go:17-29 | the queues together hold TotalProcessesCreated processes |
| KernelCpus.ScheduleCpus | kernel/scheduler/scheduler.go:87-148 | dispatch, failed dispatch and preemption keep the slots right |
| KernelCpus.CpuCpus | kernel/api/kernel_api.go:68-97 | results and system calls keep the slots right |
| KernelBlocked.ScheduleBlocked | kernel/scheduler/scheduler.go:87-148 | scheduling keeps one blocked entry per waiting process |
| KernelBlocked.CpuBlocked | kernel/api/kernel_api.go:204-290 | system calls and results keep one blocked entry per waiting process |
| KernelBlocked.OtherBlocked | kernel/kernel.go:285-311 | timers, unsuspensions, devices and dumps keep one blocked entry per waiting process |
| KernelRuns.StepKeeps | kernel/scheduler/scheduler.go:23-370 | every step keeps queues, slots and blocked list right |
| KernelRuns.RunKeeps | kernel/scheduler/scheduler.go:23-370 | every run does |
| KernelRuns.EveryProcessInOneQueue | kernel/queues/queues.go:48-160 | after any run a process stands once, in the queue of its state, and all queues add up to the processes created |
| KernelRuns.ExecutingIsHeldOnce | kernel/shared/cpu_shared.go:20-43 | after any run an executing process is held by exactly one CPU, and CPUs hold executing or ended processes only |
| KernelRuns.EndedHeldIff | kernel/api/kernel_api.go:217-224 | a CPU comes to hold an ended process exactly by an IO call for a missing device |
| KernelEffects.SearchEffect | kernel/queues/queues.go:80-103 | a search sorts its queue, the first by the policy in front, and changes nothing else |
| KernelEffects.AdmitEffect | kernel/shared/process_shared.go:71-86 | a process that memory accepts leaves NEW for the end of READY; one that it refuses stays |
| KernelEffects.DispatchEffect | kernel/scheduler/scheduler.go:87-103 | the first READY process by the policy goes to the first empty slot and executes; refused, it is READY, last in that queue, and the slot is empty; all else is as before |
| KernelEffects.PreemptEffect | kernel/scheduler/scheduler.go:105-148 | the same for the given READY process and a slot that runs nothing |
| KernelEffects.ResultEffect | kernel/api/kernel_api.go:68-97 | an executing process goes to READY when interrupted and to EXIT when not, with its new estimate, and its slot is emptied; any other result changes nothing |
| KernelEffects.IOEffect | kernel/api/kernel_api.go:204-259 | without such a device the process ends and its slot keeps it; otherwise it blocks, off its slot, with an entry that works exactly when a device of the name was free, and the first such device is busy |
| KernelEffects.DumpEffect | kernel/api/kernel_api.go:266-280 | the process blocks, off its slot, with a nameless entry, and its dump is under way |
| KernelEffects.ExitEffect | kernel/api/kernel_api.go:282-286 | the process goes to EXIT and its slot is emptied |
| KernelEffects.ScanEffect | kernel/scheduler/scheduler.go:281-303 | exactly the BLOCKED processes without a timer get one, once each |
| KernelEffects.TimerEffect | kernel/scheduler/scheduler.go:343-370 | a timer that runs out takes a process that is still BLOCKED to SUSP_BLOCKED and the mutex with it; otherwise it just ends |
| KernelEffects.TakeEffect | kernel/scheduler/scheduler.go:305-312 | MTS takes the first SUSP_READY process by the policy |
| KernelEffects.UnsuspendedEffect | kernel/scheduler/scheduler.go:313-322 | the process that MTS holds joins the end of READY, or of SUSP_READY again, as memory answers |
| KernelEffects.IOFinishedEffect | kernel/kernel.go:279-311 | the process that waits for that IO goes to READY, or from SUSP_BLOCKED to SUSP_READY, and its entry leaves the list; when none waits, nothing changes |
| KernelEffects.IOArrivesEffect | kernel/kernel.go:151-215 | a device, known or new, takes the first entry that waits for its name: the entry works and the device is busy; when none waits, it is as it was, and a new one free |
| KernelEffects.DumpDoneEffect | kernel/api/kernel_api.go:309-352 | the process of a dump that went well goes to READY and its entry leaves the list; of one that failed, to EXIT |
| KernelWhere.StepWhere | kernel/scheduler/scheduler.go:343-370 | states and mutex say where a process's pages are, and only requests to memory change it |
| KernelSystem.SystemStart | kernel/globals/globals.go:17-69 | the kernel before its first process agrees with any empty memory |
| KernelSystem.AskedAllowedIff | kernel/scheduler/scheduler.go:305-370 | memory allows what a happening asks, no second suspend and no unsuspend before the suspend ended, exactly when it is no stale write-back |
| KernelSystem.WriteBackSafeIff | cpu/memory/cache.go:60-123 | a write-back leaves every other image, whatever it writes, exactly when its process is not in swap or the frame is free |
| KernelSystem.SystemStep | kernel/scheduler/scheduler.go:305-370 | every joint step leaves kernel and memory in agreement |
| KernelSystem.RunAllowedIff | kernel/scheduler/scheduler.go:281-370 | over any run, memory receives only requests that it allows exactly when no write-back is stale, and then holds what it served |
| KernelSystem.NoInterruptNoneStale | cpu/cpu.go:149-153 | over any run in which no process is interrupted, no write-back is stale |
| KernelSystem.FromTheStart | kernel/scheduler/scheduler.go:281-370 | the same from the first process on, over any empty memory |
| KernelSystem.InSwapIffSuspended | kernel/kernel.go:285-311 | a process with pages is in swap exactly when it is SUSP_BLOCKED or SUSP_READY outside the mutex section |
| KernelSystem.RunKeepsBytes | kernel/scheduler/scheduler.go:281-370 | over any joint run without stale write-backs an unwritten process keeps its bytes, swapped or not |
| KernelSystem.DumpKeepsIff | kernel/api/kernel_api.go:309-352 | the end of a dump keeps kernel and memory in agreement exactly when its process is still BLOCKED, or has no pages and is not being suspended |
| KernelSizes.AdmitLoads | memoria/storage/storage.go:109-149 | a process that memory accepts has the program that its creation named and the pages of its size |
| KernelSizes.RunSized | kernel/shared/process_shared.go:71-86 | after any run, stale write-backs among it, memory has exactly the pages that the size of each of its processes needs, in frames or in swap |
| KernelSizes.RunCoded | kernel/shared/process_shared.go:71-86 | after any such run, each process that memory has, has the program that it was created with |
| KernelReached.LateDumpReached | kernel/api/kernel_api.go:309-352 | a run of kernel and memory with a dump under way for a process in swap, whose end leaves them in disagreement |
| KernelReached.StaleWriteReached | cpu/memory/cache.go:60-123 | a run of kernel and memory, by a preemption and a second CPU, to a write-back that overwrites a page of a process that wrote nothing |
| KernelReached.MissingDeviceReached | kernel/api/kernel_api.go:217-224 | a run to an IO call for a missing device, after which a CPU holds an ended process |
| Joint.AskedClear | kernel/scheduler/scheduler.go:305-370 | between turns without interrupts, every request of the kernel's and every write-back of another CPU is clear for the session on a CPU, the TLB aside |
| Joint.RunKeepsFlat | kernel/scheduler/scheduler.go:23-370 | over any run of kernel, memory and a CPU without interrupts, every process runs on its own flat array |
| Joint.RunFromTheStart | kernel/scheduler/scheduler.go:23-370 | the same from the first process on, over any empty memory |
| KernelGlobals.Globals.constructor | kernel/globals/globals.go:17-69 | the kernel starts empty and valid |
| KernelGlobals.Globals.Enqueue | kernel/queues/queues.go:48-78 | the process joins the queue and takes its state; nothing else changes |
| KernelGlobals.Globals.FindByPID | kernel/queues/queues.go:135-145 | whether the queue holds the process |
| KernelGlobals.Globals.RemoveByPID | kernel/queues/queues.go:147-160 | the first occurrence leaves the queue, or nothing changes |
| KernelGlobals.Globals.Search | kernel/queues/queues.go:80-103 | answers a process of the queue that no other is smaller than, or no other's estimated burst is shorter than, or the queue's head, as the policy says, and none exactly when it is empty; the queue is left sorted |
| KernelGlobals.Globals.Dequeue | kernel/queues/queues.go:105-133 | takes that process off the sorted queue |
| KernelGlobals.Globals.FreeCPU | kernel/shared/cpu_shared.go:20-34 | every slot that holds the process is emptied, and no other |
| KernelGlobals.Globals.GetAvailableCPU | kernel/shared/cpu_shared.go:36-43 | the first empty slot, or the end |
| KernelGlobals.Globals.IsCPUAvailable | kernel/shared/cpu_shared.go:11-18 | some slot is empty, or no CPU has connected |
| KernelGlobals.Globals.RemoveBlockedByPID | kernel/globals/globals.go:255-264 | the first entry of the process leaves the blocked list |
| KernelHandlers.CreateProcess | kernel/shared/process_shared.go:17-40 | makes the creation step and keeps the kernel valid |
| KernelHandlers.TryInititializeProcess | kernel/shared/process_shared.go:71-86 | moves the process to READY exactly when memory accepts it |
| KernelHandlers.ReceiveCPU | kernel/api/kernel_api.go:19-66 | adds a free slot |
| KernelHandlers.SendToExecute | kernel/scheduler/scheduler.go:195-245 | the process executes and the slot holds it, or it is READY, last in that queue, and the slot is empty; all other slots, states and queues are as before |
| KernelHandlers.DispatchNext | kernel/scheduler/scheduler.go:87-103 | makes the dispatch step |
| KernelHandlers.PreemptFor | kernel/scheduler/scheduler.go:105-147 | makes the preemption step |
| KernelHandlers.ScanBlockedList | kernel/scheduler/scheduler.go:297-303 | starts a timer for each blocked process without one |
| KernelHandlers.SendToWait | kernel/scheduler/scheduler.go:343-370 | suspends what is still BLOCKED and takes the mutex; a stale timer does nothing |
| KernelHandlers.SuspendAnswered | kernel/api/kernel_api.go:381-413 | releases the mutex |
| KernelHandlers.TakeSuspendedReady | kernel/scheduler/scheduler.go:305-312 | takes the head of the sorted SUSP_READY queue |
| KernelHandlers.UnsuspendAnswered | kernel/scheduler/scheduler.go:313-322 | READY when memory could, SUSP_READY again when not |
| KernelHandlers.HandleReason | kernel/api/kernel_api.go:68-97 | frees the CPU and moves the process, or does nothing when it is not executing |
| KernelHandlers.SelectDevice | kernel/api/kernel_api.go:209-236 | whether the device is known, and its first free instance |
| KernelHandlers.SyscallIOCall | kernel/api/kernel_api.go:205-259 | makes the IO step, missing device included |
| KernelHandlers.SyscallDumpCall | kernel/api/kernel_api.go:266-280 | makes the dump step |
| KernelHandlers.SyscallExitCall | kernel/api/kernel_api.go:282-286 | makes the exit step |
| KernelHandlers.DumpFinished | kernel/api/kernel_api.go:309-352 | makes the step that ends a dump |
| KernelHandlers.DeviceReleased | kernel/kernel.go:266-269 | the device is free, and no other changes, before the mutex is taken |
| KernelHandlers.HandleIOFinished | kernel/kernel.go:279-312 | the process that waits for that IO leaves the blocked list and goes to READY if it was BLOCKED, to SUSP_READY if it was suspended, and nothing else changes; nothing at all does when none waits |
| KernelHandlers.RecieveIO | kernel/kernel.go:151-215 | the device takes the first process that waits for its name: it is busy and the entry works |

## Left out

- HTTP, JSON, URL building, configuration, logging, delays, shutdown and metrics: calls between modules are direct calls, and their transport failures are absent.
- File errors: a missing swap file is an empty one, and program files can always be opened.
- The dump files of `memory_dump`, `printTLB`, `NoUsedAndNoModifiedCache` and `ClearCache`.
- Wall-clock time: the TLB's timestamps are a clock that never repeats, suspension timers fire at any time, and burst estimates are arbitrary integers in the events.
- `math.Pow` and `math.Ceil`: exact integers. Integer overflow of `int` and of `strconv.Atoi` is not modelled.
- Requests inside the memory module are taken one at a time; its mutexes are not modelled.
- Pids: memory's creation is for a pid that it does not know, which the kernel's counter guarantees (`KernelSystem.AskedResident`).
- Storage.Storage.CreateProcess: sizes of 0 or more; the source does not check the sign, and its allocation panics for a negative number of pages, or at the first free frame for none.
- Mmu.SavePageInMemory: pages that their process maps; for others the source indexes a missing frame. `CpuState.Sound` asks that the processes that left entries in a cache are in memory, which a suspension or an end on another CPU may break (`KernelReached.StaleWriteReached`).
- Insertion.AddEntryCache: caches without another process's entry in the way, and whose entries are of processes in memory.
- Storage.Storage.SuspendProcess: keeps validity for resident processes only; `MemoryRuns.SuspendSafeIff` shows that the books break for any other.
- Storage.Storage.DeleteProcess: keeps validity for resident processes only; `MemoryRuns.DeleteSafeIff` shows that the books break for any other.
- CacheWrites.WriteCache: offsets at or past the page size, and the negative ones of negative addresses, are excluded; an address has at least one page digit; and a page that the process does not map must not be another process's entry, which the code would write to.
- CacheReads.ReadCache: the same exclusions.
- CpuMemory.WriteMemory: the same exclusions.
- CpuReads.ReadMemory: offsets at or past the page size, and below 0, are excluded; what lies past a page in its reply's buffer is one arbitrary sequence for a whole read, and the exit signal of a failed read is not modelled.
- CpuMemory.WriteBare: offsets at or past the page size, and below 0, are excluded.
- EndProcess.EndProcess: write-backs do not fail, as every cached page of the process is mapped; the branch that drops an entry after a failed one is not modelled.
- FlatMachine.Ciclo: the program counter, GOTO and instruction fetch are replaced by the trace of instructions executed; system calls end the trace.
- Turns.TakeTurns: stops in front of a turn that would find another process's entry in its way; the code takes it all the same, and then reads as `Preemption.Misread` says. Instructions are in range (`FlatMachine.Legal`), and page tables stay fixed meanwhile; `Sessions` lets them change.
- Turns.Dispatch: only with nobody's entry in the way; `Preemption.LookupRightIff` is the exact condition.
- Turns.StartUp: memory sizes that are a whole number of pages; `MemoryRuns.AllocatorSafeIff` shows what fails for others.
- Sessions.SessionKeeps: turns are taken under `Preemption.LookupRightIff` and requests under `TlbRequests.TlbServeIff`, which are exact; that a process has left this cache before it is suspended or deleted, and a page before another CPU writes it, is asked as well and only sufficient. Nothing is said past an event that is not clear.
- Joint.RunKeepsFlat: one CPU's turns are whole, and the turns of the others appear as their write-backs; with a TLB, an unsuspension must be clear (`TlbRequests.UnsuspendTlbIff`), and a creation too, which the kernel's pids, never used before, guarantee.
- TwoCpus.Interleave: both CPUs run, so dispatches and requests to memory between their instructions are not interleaved, and the two caches hold no process in common; `Migration` says what happens to a process that goes from one to the other.
- KernelSystem.RunKeepsBytes: entries that a process left on another CPU may still overwrite its own newer bytes (`Migration.MigrationRightIff`); such a write counts as a write of it.
- AddEntryCache's error exit, logged when CLOCK-M finds no victim, is unreachable (`Replacement.ClockMSweep`).
- Kernel wake-up signals, which may be dropped: only safety is stated, and the schedulers' turns are events that may happen whenever their data allow them.
- Handlers are steps, except where the mutex or a request to memory lets others in between: suspension, unsuspension and the end of an IO are two steps each. The window between adding a blocked entry and marking it as working is not split.
- A preempted CPU has given up its process before the new one is sent, which the answer to the interrupt guarantees; process pointers are pids.
- IO disconnection (`handleIODisconnected`), the empty `reason` of a CPU's result, unknown opcodes and duplicate CPU ids.
- `MayorTiempoRestanteDeRafaga`, `MenorTiempoRestanteDeRafaga`, `GetCPUWithLonguesBurst` and the choice of whether to preempt: any CPU that runs nothing may be preempted for any READY process.
- The `io` module, `utils/menu`, `utils/build_all` and `prettywriter`.
