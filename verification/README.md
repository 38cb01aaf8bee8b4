# The miniBox machine in Dafny

miniBox runs a guest program inside a fixed block of memory pages so that the
whole machine can be saved, rewound and rebuilt, to the byte, at any frame. This
project models the parts of it that make that true and proves what they promise:

- the **memory block** (`source/host/memblock.c`, `source/host/tripguard.c`):
  pages with a status, a dirty mark, a baseline and a protection the operating
  system holds; the write fault that records a page before a guest's write is let
  through; epochs and the deltas they give; states saved at once or captured in
  the background while the guest runs on; loading and applying them again;
- the **deltas on the wire**, and the two composers that merge two deltas into one;
- the **guest's threads** (`source/host/threading.c`, and the system calls of
  `source/host/host.c` that reach them): futex queues, virtual time, the
  scheduler, priority-inheriting locks, and the thread set in a state;
- the **Vulkan handle table** (`source/vk/vk-host.c`), the **open-file table**
  (`source/host/fs.c`) and the **JSON tokenizer** (`extern/jsmn/jsmn.h`).

## How it is laid out

Each part is a value model, on which the theorems are proved, and a class with
the source's own fields and loops, every method of which is proved to do to its
abstract value what the model's function does.

| modules | what they hold |
|---|---|
| `Pages`, `Machine`, `Deltas` | a page and what each primitive does to it; the block; deltas, merging and applying |
| `Invariant`, `Restore`, `Runs` | what every step keeps; sealing, loading and applying; whole runs |
| `Epochs`, `Orphans`, `Capture`, `Tearing`, `Strays`, `History` | what deltas promise and exactly when; background capture; writes nobody records; the whole history |
| `Findings` | reachable machines on which a promise fails |
| `Fills`, `CallDeltas` | background capture and delta completeness over the host's own calls |
| `Access`, `Effects`, `Heat`, `Sparse` | what the guest may read and run, what each call does page by page, which pages are compared instead of held, what deltas leave out |
| `Arena`, `Sweeps`, `Workings`, `Calls`, `Loads`, `MemBlock` | the class `Block`: indexes, loops, system calls, streams |
| `DeltaBytes`, `Chronicle` | the byte format and the composers; the whole history over what is written |
| `Queues`, `Threads`, `ThreadLaws`, `ThreadRuns`, `Timing`, `Contexts`, `Wakings`, `Turns`, `ThreadSaves`, `Fairness`, `PiLocks`, `ThreadTable` | the threads: who goes on, when and with what, who wakes, and the class `Table` |
| `VkTable`, `OpenFiles`, `Jsmn`, `JsonDocs` | the classes `Handles`, `FileTable` and `Parser`; whole JSON documents |

Some words used throughout. A page is **tracked** when its status lets the guest
write it, **held** when the operating system has it read-only so that its next
write faults, **hot** when it is compared with a shadow copy instead, **armed**
when it must fault before it is written, and an **orphan** when it is dirty and
tracked, and neither held nor hot nor on the list of pages the next epoch holds.
A host page may be several machine pages (`group`). `Inv` says that every page
holds its baseline or has a copy of it, that the flags agree, that a plan's
pages and slots agree, and that no armed page shares a writable host page
(`Watched`). A **view** of the machine is what a state can tell about it: every
page's status, which pages are visible, and the bytes and the dirty mark of each
of those. A **frame** opens an epoch, runs, and saves its delta, with the same
pages visible at its end as at its start; a step is **careful** when it makes no
orphan.

## Model

| member | source | states |
|---|---|---|
| `History.WholeHistory` | source/host/memblock.c:1865-2791 | For every run cut into frames, each opened with no orphan, and every machine of the same seal: loading the first state there and applying the frames' deltas in order, with any neighbouring ones composed first in any grouping, gives every page's status, dirty mark and bytes as the straight run left them. |
| `Chronicle.BytesHistory` | source/host/memblock.c:2396-2791 | The same over bytes: with each frame's delta written, whatever neighbours are composed by whichever of the two composers, every record kept can be read, and loading the first state and applying what is read gives the straight run's view. |
| `Chronicle.RecordIs` | source/host/memblock.c:2615-2696 | Bytes composed any number of times, by either composer, are the composition of the frames' deltas, written. |
| `Chronicle.WrittenReads` | source/host/memblock.c:2708-2745 | A written delta, read as it is when applied, is itself. |
| `History.CarefulHistory` | source/host/memblock.c:1865-2791 | The same for every run that starts with no orphan and takes only careful steps: no frame need be asked about. |
| `History.CarefullyPlayed` | source/host/memblock.c:2344-2385 | Such a run has no orphan at the start of any frame, nor at its end. |
| `History.RebuiltGoesOn` | source/host/memblock.c:2144-2791 | The machine so rebuilt can go on: its pages satisfy the invariant's per-page part, it has no orphan if the machine it was rebuilt in had none, and no host page was left open on the way exactly when neither the state nor a delta opens one, a condition on their lists and the page records; none does where a host page is one machine page. |
| `History.DeltasRebuild` | source/host/memblock.c:2344-2445 | The deltas of consecutive frames, each opened with no orphan, take the first view to the last, and the invariant still holds at the end. |
| `History.ThinningKeeps` | source/host/memblock.c:2657-2696 | Replacing any neighbouring deltas by their composition changes nothing of what the list of them does to a view. |
| `Capture.CaptureIsSnapshot` | source/host/memblock.c:1973-2135 | Over every interleaving of byte-by-byte copies, write faults, releases, protection changes, epochs and deltas, the buffer of a background capture ends as the state that an immediate save would have written when the plan was made. |
| `Fills.CallsCapture` | source/host/memblock.c:1973-2135 | The same over the host's calls, each with the copying it does on the way: between asking for a state and finishing it, any guest writes, protection changes, unmaps, mappings over what was there, moves, copier's fills, epochs and deltas; the state finished is the one an immediate save would have written when it was asked for. |
| `Fills.FinishGives` | source/host/memblock.c:2113-2135 | Whatever was owed copied at the end, the buffer of any plan whose slots are right so far is that state. |
| `Fills.StoreOwes` | source/host/tripguard.c:436-521 | A guest write, its handler first giving the plan what it is owed of the pages let go, keeps the slots right. |
| `Fills.OverlapOwes` | source/host/memblock.c:1228-1246 | So does a mapping that zeroes what it covers. |
| `Capture.OthersQuiet` | source/host/memblock.c:2061-2106 | No step of the guest or of the history changes the bytes of a page the plan still owes, nor its slot. |
| `Capture.DebtFalls` | source/host/memblock.c:2061-2106 | While a plan is open no step makes a page owe more, and every step of a copier at a page makes it owe less. |
| `Capture.WaiterReleased` | source/host/memblock.c:2066-2085 | A writer waiting at a page is released by the copy alone, from any machine whose plan is well formed: the steps can all be taken, are at most the page's debt, and change nothing of the machine but the page's hold. |
| `Capture.CanSettle` | source/host/memblock.c:2097-2106 | Everything a plan owes can be copied, whatever else the machine has become. |
| `Capture.CopiersFinish` | source/host/memblock.c:2061-2106 | Copiers left alone end with the same buffer whatever order they go in. |
| `Tearing.ApplyUnderPlan` | source/host/memblock.c:2708-2791 | A delta applied at any moment of a plan, the copiers then finishing in any order: the buffer is the state asked for if and only if, for every page still owed that the delta brings, its bytes agree with the page's at plan time from where the copier stood on. |
| `Epochs.DeltaComplete` | source/host/memblock.c:2344-2445 | From an epoch opened with no orphan, over every run of guest, copier and plan steps, moves that show or hide pages among them: the delta takes the view at the start to the view at the end if and only if the same pages are visible. |
| `CallDeltas.CallsDelta` | source/host/memblock.c:2344-2445 | The same over the host's calls: from an epoch opened with no orphan, over any guest writes, protection changes, unmaps, mappings that zero what they cover, moves and copier's fills, the delta takes the view at the start to the view at the end if and only if the same pages are visible. |
| `CallDeltas.OverlapTracks` | source/host/memblock.c:1228-1246 | A mapping that zeroes what it covers is recorded by the open epoch, page by page. |
| `Epochs.DeltaTrue` | source/host/memblock.c:2396-2445 | Saving a delta changes nothing seen, heating and cooling included, and the delta leads from the epoch's start to the machine as it stands if and only if the same pages are visible. |
| `Orphans.TrustworthyExactly` | source/host/memblock.c:2344-2385 | Every frame's delta from a machine is complete if and only if the machine has no orphan. |
| `Orphans.OrphanLosesWrite` | source/host/memblock.c:2344-2385 | With one orphan there is a frame, given as its steps, whose delta does not lead to its end. |
| `Orphans.OnlyThoseOrphan` | source/host/memblock.c:314-327 | For every step and every page that is no orphan: the step makes one of it if and only if it is a move onto the page or a protection call on it that meets the exact condition of the two rows below. |
| `Orphans.RunOrphans` | source/host/memblock.c:314-327 | Over every run: there is no orphan at any moment if and only if there is none at the start and every step is careful. |
| `Orphans.CarefulExactly` | source/host/memblock.c:314-327 | One step keeps a machine without orphans so if and only if it is careful. |
| `Orphans.ReprotectOrphans` | source/host/memblock.c:1066-1078 | Exactly when a protection call makes an orphan: the page is owed to a plan, visible, dirty and tracked afterwards, and its other hold is lifted by the change or was not there. |
| `Orphans.LandOrphans` | source/host/memblock.c:1642-1644 | Exactly when moving onto a free page makes an orphan, visible before or after or not: it ends up visible and tracked, is on no hold, and was clean or invisible. |
| `Orphans.LoadNoOrphans` | source/host/memblock.c:2144-2259 | Loading any state that fits makes no orphan. |
| `Orphans.ApplyNoOrphans` | source/host/memblock.c:2708-2791 | Applying any delta makes no orphan. |
| `Restore.StateRoundTrip` | source/host/memblock.c:1865-1889 | A state saved from one machine and loaded into any other of the same seal fits it, leaves its pages sound, and shows exactly what the first one showed; no dirty page is ever met without its baseline copy. |
| `Restore.LoadWatched` | source/host/memblock.c:2144-2259 | A load keeps every armed page out of writable host pages if and only if the state opens none: a condition on the state's statuses and marks, the page records and the protections before the call. Always, where a host page is one machine page. |
| `Restore.ApplyWatched` | source/host/memblock.c:2708-2791 | The same for a delta, over its two lists and the page records before the call. |
| `Restore.ApplySound` | source/host/memblock.c:2708-2791 | A delta that leads to a view of the same seal keeps every page anchored to its baseline and its flags in agreement. |
| `Restore.NewIsSound` | source/host/memblock.c:516-574 | A new block satisfies the invariant against an image of zeros. |
| `Restore.SealEstablishes` | source/host/memblock.c:1718-1756 | Sealing makes what every visible page holds its baseline, and every such page clean, with the invariant holding against that image from there. |
| `Runs.StepKeeps` | source/host/memblock.c:901-948 | Every step of the guest, the copiers and the history keeps the invariant, and keeps the list of writable pages whole if and only if it is no move that uncovers a page. |
| `Runs.RunKeeps` | source/host/memblock.c:314-512 | Over every run, in whatever order: the invariant holds at the end; and where a host page is one machine page, every writable visible tracked page that is not hot has been on the list the next epoch holds at every moment, if and only if no move uncovered a page. |
| `Invariant.LandedListed` | source/host/memblock.c:1642-1644 | Exactly when the page a move lands on ends up writable and missing from that list: it was invisible, dirty and on no hold, and is made visible and tracked. |
| `Invariant.LandKeeps` | source/host/memblock.c:1624-1654 | Landing on a free page keeps the invariant, and the list of writable pages whole if and only if it does not do that where a host page is one machine page. |
| `Restore.HideKeeps` | source/host/memblock.c:1671-1678 | Hiding pages before the seal keeps the invariant if and only if none of them is hot. |
| `Invariant.TripKeeps` | source/host/tripguard.c:436-521 | The write fault keeps the invariant, whichever pages of the host page are let go with the one written. |
| `Invariant.TripServes` | source/host/tripguard.c:417-521 | After it the host page is writable and so is every tracked page in it: the write that faulted does not fault again. |
| `Invariant.TripRecords` | source/host/tripguard.c:436-521 | The page the write faulted on is let go in the handler's order - baseline, epoch, plan, dirty mark - and keeps its status. |
| `Invariant.NoUnrecordedWrite` | source/host/memblock.c:776-833 | A tracked page the operating system lets be written is dirty, owed to no plan and hot or not held; it is on the list of pages the next epoch holds exactly when it is no orphan, and never an orphan where a host page is one machine page. |
| `Strays.StrayGrouped` | source/host/memblock.c:776-796 | A page the guest may not write that the operating system lets be written exists only where a host page is several machine pages. |
| `Strays.StrayKeeps` | source/host/memblock.c:776-796 | A write to such a page keeps the invariant if and only if the page is invisible, or dirty and allocated, or the bytes are the same. |
| `Strays.StrayUnrecorded` | source/host/memblock.c:1865-1889 | No state is changed by it unless the page was carried already, no delta unless the epoch had the page already, and the view is unless the page is invisible or the bytes the same. |
| `Strays.StrayDelta` | source/host/memblock.c:2396-2445 | After it the epoch's delta is complete if and only if the epoch had the page already or nothing seen has changed. |
| `Access.GroupAccess` | source/host/memblock.c:741-796 | One protection for a host page, of however many machine pages: it may be executed if and only if the status of one of them says so, and read if and only if the status of one of them is readable, whatever is held, hot or owed to a plan. |
| `Access.RunServes` | source/host/memblock.c:741-839 | Over every run: if the operating system lets every host page be read and executed exactly as the statuses of its pages ask, it still does at the end. |
| `Access.ServedPage` | source/host/memblock.c:743-746 | On such a machine every page the guest may read can be read, and every one it may run can be run. |
| `Access.HideServes` | source/host/memblock.c:1671-1678 | Hiding pages keeps it. |
| `Access.ReadiedServes` | source/host/memblock.c:2144-2165 | So does finishing a plan and forgetting the epoch ahead of a load. |
| `Access.NewServes` | source/host/memblock.c:516-574 | A new block starts so. |
| `Access.SealServes` | source/host/memblock.c:1718-1756 | Sealing keeps it. |
| `Access.LoadServes` | source/host/memblock.c:2144-2259 | Loading any state that fits keeps it. |
| `Access.CutLoadServes` | source/host/memblock.c:2144-2259 | So does a load whose stream ends early, wherever that is. |
| `Access.ApplyServes` | source/host/memblock.c:2708-2791 | So does applying any delta. |
| `Access.MapFixedServes` | source/host/memblock.c:1228-1246 | So does a fixed mapping. |
| `Access.UnmapServes` | source/host/memblock.c:1530-1560 | So does giving pages back. |
| `Access.MoveServes` | source/host/memblock.c:1624-1654 | So does a move. |
| `Heat.FrameWarms` | source/host/memblock.c:480-494 | A page that is not hot, over any frame: it goes hot if and only if the frame's delta reports it, for at least the third frame in a row, it is visible, dirty, writable and listed as such, and there is room; otherwise its count of frames in a row is one more, or the row is over. |
| `Heat.ThirdReport` | source/host/memblock.c:480-494 | Reported by three frames in a row and not by the one before: hot after the third and not sooner, exactly if it may be and there is room. |
| `Heat.RoomForAll` | source/host/memblock.c:439-453 | No page is turned away while there is room for it, and no more than the limit are ever hot. |
| `Heat.FrameCools` | source/host/memblock.c:456-475 | A page hot from a frame's start to its end: changed, it is in the delta and its count starts again; not changed, it counts one quiet frame more and cools at the eighth. |
| `Heat.QuietCools` | source/host/memblock.c:456-475 | A hot page that stops changing is hot until its eighth quiet frame, and then on the list of pages the next epoch holds. |
| `Heat.CooledIsHeld` | source/host/memblock.c:2344-2385 | Cooled, it is held and armed when the next epoch opens. |
| `Heat.HotIsWritable` | source/host/memblock.c:117-119 | A hot page owed to no plan is never made to fault. |
| `Heat.LoadRenews` | source/host/memblock.c:411-416 | After any state is loaded, every hot page's copy is what the page then holds. |
| `Heat.ApplyRenews` | source/host/memblock.c:411-416 | After any delta is applied, so is the copy of every hot page it brings. |
| `Sparse.DeltaSparse` | source/host/memblock.c:2396-2445 | A frame's delta says nothing of a page that no step of the frame touched: no write to its host page, no call on a range with the page in it. |
| `Sparse.TripSpares` | source/host/tripguard.c:436-521 | A write fault leaves every page as it was but those of its host page that are tracked and held, and the one written. |
| `Sparse.SameBytesLeftOut` | source/host/memblock.c:407-409 | A hot page that ends a frame as it began is in the delta only if one of its writes was made to fault. |
| `Deltas.ComposeSequences` | source/host/memblock.c:2657-2696 | Applying the composition of two deltas is applying the one and then the other, to every view. |
| `Deltas.ComposeAssociative` | source/host/memblock.c:2657-2696 | Composition is associative. |
| `Deltas.ComposeWellFormed` | source/host/memblock.c:2657-2696 | The composition of two ascending deltas of one block is ascending and of that block. |
| `Deltas.MergeFinds` | source/host/memblock.c:2599-2613 | A merge says about every page what the later list says, or the earlier where the later is silent. |
| `Deltas.ApplyShows` | source/host/memblock.c:2708-2791 | Applying a delta to the machine, page records, sweep and all, does to its view what the two lists say. |
| `DeltaBytes.ReadPartsBack` | source/host/memblock.c:2501-2534 | Reading what a delta is written as gives it back, and leaves what follows untouched. |
| `DeltaBytes.PartsRead` | source/host/memblock.c:2501-2534 | The reader accepts a stream only if it begins with what some delta is written as, and that is the one it returns. |
| `DeltaBytes.BytesDetermine` | source/host/memblock.c:2396-2445 | No two deltas are written alike, and none is the beginning of another. |
| `DeltaBytes.SavedIsOk` | source/host/memblock.c:2396-2445 | Every delta a block writes is one both readers accept. |
| `DeltaBytes.MergedCount` | source/host/memblock.c:2537-2546 | The count written ahead of a merged list is the number of entries that follow, whatever the lists. |
| `DeltaBytes.ViewMerged` | source/host/memblock.c:2599-2613 | The same for the count taken from two buffers in place. |
| `DeltaBytes.WriteMerged` | source/host/memblock.c:2657-2696 | The entry-by-entry writing loop writes the merged list. |
| `DeltaBytes.ReadAllParts` | source/host/memblock.c:2501-2534 | The reading loops, with every refusal and its code. |
| `DeltaBytes.ComposeStreams` | source/host/memblock.c:2657-2696 | Composing two streams: refused exactly when either is not a delta or they are of different sizes, otherwise the merge is written and both tails are left. |
| `DeltaBytes.ComposeInMemory` | source/host/memblock.c:2615-2655 | Composing two buffers: the same, by the in-memory reader's looser test, and where the later delta ends. |
| `DeltaBytes.ViewSees` | source/host/memblock.c:2577-2596 | What the streaming reader accepts the in-memory one sees, to the byte. |
| `DeltaBytes.ComposersAgree` | source/host/memblock.c:2615-2696 | On deltas the streaming reader accepts, both composers write the same bytes and leave the later tail at the same place. |
| `DeltaBytes.ComposedBytes` | source/host/memblock.c:2657-2696 | Composing the bytes of two deltas gives the bytes of their composition. |
| `DeltaBytes.ComposeHost` | source/host/host.c:1821-1854 | The host's composer: refused exactly when a header is bad, the machines differ or the blocks' deltas cannot be composed; otherwise the later break and tail around the merge. |
| `DeltaBytes.ComposeHostInMemory` | source/host/host.c:1859-1888 | The same for two buffers. |
| `DeltaBytes.ComposedHostReads` | source/host/host.c:1821-1888 | Read again, a composed host delta is the later one's break and tail and the composition of the two between them. |
| `Arena.FindFreePages` | source/host/memblock.c:1359-1412 | The walk that skips by group counts answers as the page-by-page definition does: from 4096 pages on the highest start that fits, below that the lowest of the shortest free runs that fit, and nothing only if nothing fits. |
| `Arena.PlacementUnique` | source/host/memblock.c:1374-1412 | That definition has one answer: the map and the request alone decide where memory lands. |
| `Arena.GroupSays` | source/host/memblock.c:1359-1371 | A group's count is 0 or full exactly when all its pages are taken or free. |
| `Calls.PageRange` | source/host/memblock.c:1004-1017 | A byte range is taken exactly when it is whole pages inside the block, not empty, and the pages are those. |
| `Calls.UnmapGives` | source/host/memblock.c:1530-1560 | Giving pages back: every page of the range reads zero and is free, or still allocated when the call was advice, a visible one is clean exactly when the seal knows it as zeros, and every other page is untouched. |
| `Calls.UnmapKeeps` | source/host/memblock.c:1562-1570 | Giving pages back, with what a plan is owed copied first, keeps the invariant. |
| `Calls.MapFixedKeeps` | source/host/memblock.c:1228-1246 | A fixed mapping, zeroing allocated stretches when asked, keeps the invariant. |
| `Calls.MoveCarries` | source/host/memblock.c:1624-1654 | A move carries every page's bytes over, zeros past the old range, with the status and visibility of the page it comes from, the last one lending its own past the end. |
| `Calls.MoveKeeps` | source/host/memblock.c:1624-1654 | A whole move keeps the invariant, and keeps the list of writable pages whole if and only if, where a host page is one machine page, no page of the new range was invisible, dirty and on no hold and is made visible and tracked. |
| `Loads.LoadedSafe` | source/host/memblock.c:2144-2259 | A load cut off anywhere leaves every page it touched protected as its state now says, but for exactly what it opens. |
| `Loads.LoadedValid` | source/host/memblock.c:2144-2259 | A state of the same seal read whole is what the machine then shows, and every page is sound. |
| `Loads.AppliedValid` | source/host/memblock.c:2708-2791 | The same for a delta: sound when it leads to a sound view, the watch kept if and only if it opens no host page. |
| `Machine.PicksSorted` | source/host/memblock.c:1973-2034 | The list of carried pages is ascending, and each stands at the number of carried pages before it: its slot. |
| `Workings.PicksCount` | source/host/memblock.c:1946-1950 | A count kept beside a bitmap is the length of the list its set bits give. |
| `Effects.ProtectGives` | source/host/memblock.c:1066-1078 | A protection call: every page of the range has the status asked for and the bytes, dirty mark and visibility it had; every other page is untouched. |
| `Effects.MapGives` | source/host/memblock.c:1228-1246 | A fixed mapping: the status asked for; what was allocated there reads zero if asked, every other page holds what it held; pages outside untouched. |
| `Effects.NewMapGives` | source/host/memblock.c:1414-1461 | Memory mapped where it was free has the status asked for and reads zero, pages no state shows apart; pages outside untouched. |
| `Effects.RemapGives` | source/host/memblock.c:1587-1610 | Resizing in place: past a shrunk range every page is free and reads zero; in a grown one every new page has the first page's status and the bytes it held; every other page is untouched. |
| `Effects.MoveGives` | source/host/memblock.c:1624-1654 | A move: every page of the new range as `Calls.MoveCarries` says, every page of the old one free and reading zero, every other page untouched. |
| `Effects.HideGives` | source/host/memblock.c:1671-1678 | Hidden pages keep status and bytes and are marked dirty; the rest untouched. |
| `Effects.SealGives` | source/host/memblock.c:1718-1756 | A seal leaves every page its status, bytes and visibility, and every visible one clean. |
| `Effects.CutShows` | source/host/memblock.c:2144-2259 | A load whose stream ends early: the pages before the first it has no bytes for show the state's status and mark, with the stream's bytes or the sealed ones; that one holds what arrived and is dirty; the rest are untouched. |
| `Loads.ApplicableFinds` | source/host/memblock.c:2708-2791 | What is applied of ascending lists that may name pages there are not: of every page of the block what they say of it, but no data once a status names no page. |
| `Workings.OwedCounts` | source/host/memblock.c:2097-2106 | The number of pages a copier reports is the number of places of its stretch that were owed. |
| `Findings.PairReached` | source/host/memblock.c:2344-2385 | The machine of the next two rows is reached from a sealed block by two mappings and a write. |
| `Findings.GroupedLoadLosesWrite` | source/host/memblock.c:2252 | On it, a state in which the read-only neighbour of a written page has become writable loads with the host page left writable: a write to the neighbour is not recorded. |
| `Findings.GroupedApplyLosesWrite` | source/host/memblock.c:2735 | The same for the delta of a frame that makes the neighbour writable. |
| `Findings.MoveCannotBeTrusted` | source/host/memblock.c:1642-1644 | A mapped page that cannot grow in place, moved by `mremap`: the answer the call gives, and that no epoch can be trusted from then on. |
| `Findings.CurtainedReached` | source/host/memblock.c:1671-1678 | The machine of the next two rows: pages hidden, a seal and a mapping. |
| `Findings.MoveUncovers` | source/host/memblock.c:1642-1644 | A mapped page that cannot grow in place, moved by `mremap` onto pages that were hidden: they are writable and missing from the list of writable pages. |
| `Findings.VisibilityNotCarried` | source/host/memblock.c:1643 | Such a move inside a frame that opened with no orphan: the frame's delta does not lead to its end. |
| `Findings.StrayLost` | source/host/memblock.c:776-796 | A read-only page beside a written one in a host page is written: the state and the delta are as before, and the page no longer holds what the seal says. |
| `Findings.PlannedReprotectOrphans` | source/host/memblock.c:1066-1069 | A page owed to a plan whose writable status is changed to another in an open epoch becomes an orphan. |
| `Findings.PlannedReprotectReached` | source/host/memblock.c:1066-1069 | Such a machine: a page written, an epoch opened, a state planned, the page made executable. |
| `Findings.ApplyTears` | source/host/memblock.c:2708-2791 | A page written, a state planned, and a delta applied that brings it other bytes: the copiers finish with a buffer that is not the state asked for. |
| `MemBlock.Block.constructor` | source/host/memblock.c:516-574 | A new block is the machine with every page free and reading zero, its indexes in agreement. |
| `MemBlock.Block.NoteProt` | source/host/memblock.c:314-327 | The list of writable pages follows the protection, hot and invisible pages apart, and every index still agrees with the page array. |
| `MemBlock.Block.NoteUnheld` | source/host/memblock.c:332-334 | A page let go goes on that list unless it is hot. |
| `MemBlock.Block.NoteStatus` | source/host/memblock.c:340-358 | The status, the packed map and the group's count move together, and a hot page that stops being writable cools. |
| `MemBlock.Block.SetDirty` | source/host/memblock.c:365-369 | The mark and the packed map move together. |
| `MemBlock.Block.PageCool` | source/host/memblock.c:422-434 | A page cools: flag, shadow, bitmap and count, and back on the list of writable pages. |
| `MemBlock.Block.PageHeat` | source/host/memblock.c:439-453 | A page heats, below the limit on hot pages: its shadow is what it holds. |
| `MemBlock.Block.GetHotEpoch` | source/host/memblock.c:456-475 | Every hot page is compared with its shadow, and recorded if it differs, cooled after enough quiet epochs if not. |
| `MemBlock.Block.HeatWrittenPages` | source/host/memblock.c:480-494 | Pages written in enough epochs running are heated, in page order, up to the limit. |
| `MemBlock.Block.EpochCapture` | source/host/memblock.c:499-512 | The first write of an epoch sets flag, bit and count once. |
| `MemBlock.Block.MaybeSnapshot` | source/host/memblock.c:211-224 | The baseline is copied once, before the first write. |
| `MemBlock.Block.GroupNativeProt` | source/host/memblock.c:776-796 | A host page gets the protection its machine pages together call for: executable if and only if the status of one of them is, readable if and only if the status of one of them is, and never writable while one of them is armed. |
| `MemBlock.Block.RefreshGroups` | source/host/memblock.c:818-833 | Every host page the range touches is told what its pages call for, in coalesced runs. |
| `MemBlock.Block.ProtectGroup` | source/host/memblock.c:835-839 | The one host page of a page is told. |
| `MemBlock.Block.RefreshRange` | source/host/memblock.c:901-948 | Every page of the range is noted and every host page it touches told, whatever the host's page size. |
| `MemBlock.Block.EpochNoteStatusChange` | source/host/memblock.c:1042-1063 | A change of allocation in an open epoch is recorded, and a visible page enters the epoch as a written one does, its hold lifted if it was tracked. |
| `MemBlock.Block.SetProtections` | source/host/memblock.c:1066-1078 | A range gets a status: the machine's protection step. |
| `MemBlock.Block.ZeroRun` | source/host/memblock.c:1492-1497 | The pages read zero and nothing else changes. |
| `MemBlock.Block.FreePages` | source/host/memblock.c:1530-1560 | The loop with its runs of zeroing is: what the plan is owed copied, then the machine's giving back. |
| `MemBlock.Block.Munmap` | source/host/memblock.c:1562-1570 | Refused exactly when the range is not whole allocated pages; otherwise the pages are given back, each as `Calls.UnmapGives` says. |
| `MemBlock.Block.Mprotect` | source/host/memblock.c:1470-1478 | Which error, exactly when; otherwise the range has the protection asked for, with the bytes it had, and nothing else changes. |
| `MemBlock.Block.MmapFixed` | source/host/memblock.c:1228-1246 | Which error, exactly when; otherwise the range has the protection asked for, reads zero where it was allocated if asked and what it held elsewhere, and no other page changes. |
| `MemBlock.Block.FindRoom` | source/host/memblock.c:1374-1412 | Free pages found on the block's own packed map. |
| `MemBlock.Block.MmapAnywhere` | source/host/memblock.c:1414-1461 | Refused exactly when the size or the arena is bad or nothing fits; otherwise at the one place the definition of placement gives, with the protection asked for, reading zero where states show it, and no other page changed. |
| `MemBlock.Block.Mremap` | source/host/memblock.c:1587-1610 | Growing or shrinking in place, with the error for each reason not to. After a shrink every page of the tail is free and reads zero; after a growth every new page has the first page's status and its old bytes; every other page keeps status and bytes. |
| `MemBlock.Block.MremapMove` | source/host/memblock.c:1624-1654 | Moving: where, what every page of the new range then holds, that the old range is free and reads zero and nothing else changes; and that the list of writable pages stays whole if and only if no page is uncovered. |
| `MemBlock.Block.MremapMayMove` | source/host/memblock.c:1656-1669 | In place when it can be, moved only when growth is blocked and allowed, with what each does page by page. |
| `MemBlock.Block.WriteFault` | source/host/tripguard.c:436-521 | The handler, loop by loop: serves exactly the tracked pages, the plan getting what it is owed first, and keeps the block valid. |
| `MemBlock.Block.GuestStore` | source/host/tripguard.c:436-521 | A guest's write: stored exactly on tracked pages, after the handler if it must, and on pages whose host page is writable; the block is valid afterwards if and only if it was no stray write, or the page can bear it. |
| `MemBlock.Block.EpochForget` | source/host/memblock.c:2296-2308 | Forgetting an epoch by its bits clears every flag it set. |
| `MemBlock.Block.ClearEpoch` | source/host/memblock.c:2310-2313 | No epoch open afterwards, and nothing else changed. |
| `MemBlock.Block.BeginEpoch` | source/host/memblock.c:2344-2385 | Refused before the seal; otherwise every writable page is held again, the hot ones shadowed, and what the last epoch recorded forgotten. |
| `MemBlock.Block.DeltaSave` | source/host/memblock.c:2396-2445 | Refused with no epoch or backwards; otherwise the delta, with counts that are its lists' lengths. |
| `MemBlock.Block.NextStatePage` | source/host/memblock.c:1933-1944 | The next carried page, passing eight clean ones at a time. |
| `MemBlock.Block.CountStatePages` | source/host/memblock.c:1946-1950 | How many pages a state carries. |
| `MemBlock.Block.Save` | source/host/memblock.c:1865-1889 | The state of the machine, or refused before the seal. |
| `MemBlock.Block.StatePlan` | source/host/memblock.c:1973-2034 | A plan is opened exactly when the block is sealed, none is open and the buffer is large enough; then every carried page is held or copied. |
| `MemBlock.Block.PlanTake` | source/host/memblock.c:2066-2085 | An owed page is copied to its slot once. |
| `MemBlock.Block.PlanFill` | source/host/memblock.c:2097-2106 | The copier's part of the list, and how many pages it copied. |
| `MemBlock.Block.PlanFinish` | source/host/memblock.c:2113-2135 | What is left is copied, the plan ends, its pages get their protection back, and the buffer is a state. |
| `MemBlock.Block.Load` | source/host/memblock.c:2144-2259 | Refused, cut off or whole, with the code for each; the machine then, with no epoch and no plan left open; and valid again if and only if a state of the same seal opened no host page. |
| `MemBlock.Block.DeltaApply` | source/host/memblock.c:2708-2791 | The same for a delta: what is applied when an entry names no page or the stream ends, no epoch left open, and valid again if and only if no host page was opened. |
| `MemBlock.Block.CopyIn` | source/host/memblock.c:1687-1697 | The loader's pages hold what was copied, marked dirty; a range outside the block is refused. |
| `MemBlock.Block.MarkInvisible` | source/host/memblock.c:1671-1678 | Refused after the seal or outside the block; otherwise the pages are hidden from states, and the block is valid if and only if none of them was hot. |
| `MemBlock.Block.ReadsBackZero` | source/host/memblock.c:1709-1714 | True exactly when the page reads zero. |
| `MemBlock.Block.SealBlock` | source/host/memblock.c:1718-1756 | Refused a second time; otherwise what every visible page holds is its baseline, every page keeps status and bytes, and no epoch is open. |
| `ThreadRuns.RunKeeps` | source/host/threading.c:70-130 | Over every run of system calls, for every machine spec and kit revision: a live thread is waiting exactly when its tid stands once, in one queue, no queue is empty, and the thread that runs is live and not waiting. |
| `ThreadRuns.TimeRuns` | source/host/threading.c:157-379 | Over every run in virtual time, kit revision 2: the clock never runs backwards and start plus clock fits 64 bits, and every parked deadline is ahead of it. |
| `ThreadRuns.ExpiredExactly` | source/host/threading.c:337-353 | Expiry hands the timeout to exactly the waiting threads whose deadline has come, and changes no other record. |
| `ThreadRuns.NsInRange` | source/host/threading.c:159-170 | From revision 2 on times add and convert exactly below the ceiling and stop at it above. |
| `ThreadRuns.WaitParks` | source/host/threading.c:325-329 | A wait is refused at once unless the word is what the caller saw; otherwise it stops the machine if and only if nobody else can ever run, and if not the caller is parked, last in that word's queue. |
| `ThreadRuns.WaitUntilParks` | source/host/threading.c:357-379 | A timed wait likewise, and it never stops the machine: a deadline ahead parks the caller until then, last in the queue, or the clock has gone forward to it and it will see the timeout; one already past costs a tick and, from revision 2, the caller's turn. |
| `ThreadRuns.LockParks` | source/host/threading.c:400-405 | A free lock word is taken and the caller goes on; a taken one gets its waiters bit and the caller is parked last in its queue, which stops the machine if and only if nobody else can ever run. |
| `ThreadRuns.ServeStops` | source/host/threading.c:185-224 | For every call: it stops the machine if and only if it parks the last thread that could ever run, or ends the first thread, or ends the last one with nobody waiting for it. |
| `Contexts.ServeConserves` | source/host/threading.c:175-443 | For every call: every other thread goes on as it was, with what it was owed or, if it had a deadline, the timeout; the caller goes on in the context it called from, with what the call came to; a new thread starts in the context it was made with; threads come only by a clone and go only by their own end, and the word a thread's end clears is the one it named last. |
| `Contexts.GoesOnIn` | source/host/threading.c:175-183 | After every call, whoever runs is in the caller's context if it is the caller, and else has the stack and area that thread had before. |
| `Contexts.AwayKeeps` | source/host/threading.c:175-224 | Over every run of others' calls, in whatever contexts and however long, a thread stays and its next context is the one it had. |
| `Contexts.GaveWay` | source/host/threading.c:175-224 | A thread that gave way in a call made in one context next goes on in exactly that one, with what the call came to, whoever runs between. |
| `Contexts.SwapKeepsAll` | source/host/threading.c:185-224 | The switch itself: the caller's context and answer are stored, every other record kept, and the chosen one handed its own. |
| `Contexts.UnlockConserves` | source/host/threading.c:406-415 | An unlock: the longest waiter goes on in its own context, and the caller later in its own. |
| `Contexts.ExitConserves` | source/host/threading.c:277-294 | A thread's end leaves every other thread what it goes on with, and exactly one thread fewer. |
| `Contexts.SpawnConserves` | source/host/threading.c:249-275 | A clone changes nobody else, and the new thread will start with the stack and area given. |
| `Contexts.WakeCount` | source/host/threading.c:383-398 | A wake answers how many it woke: as many as asked for or as there are. |
| `Wakings.ServeWakes` | source/host/threading.c:92-443 | For every call and every thread but its caller, with every deadline still ahead before it: the thread waits afterwards if and only if it waited, is not among the first waiters on the word the call wakes, as many as it asks for, and has no deadline the clock has come to. |
| `Wakings.RequeueRouses` | source/host/threading.c:383-394 | A requeue wakes exactly the first so many waiters, whatever the two words, one and the same included. |
| `Turns.ServeTurns` | source/host/threading.c:185-443 | Who runs after every call: the caller where the call answers at once, the longest waiter where a lock is handed over, and everywhere else the next in turn after the caller, upwards by tid and round, of all who can then run. |
| `Timing.ServeClock` | source/host/host.c:903-934 | For every call that leaves its caller able to run, where the clock then stands: a tick on for a clock read, so much on for a sleep, at the later of now and the moment for a sleep until one, a tick on for a wait already due and for a yield among sleepers, and otherwise where it was; at the ceiling from revision 2 on, wrapped before. |
| `Timing.TimedWaits` | source/host/host.c:999-1008 | A timed wait is due at now plus the guest's seconds and nanoseconds, or at the time of day it names less the clock's start: due already it costs a tick and is handed the timeout, due later the caller is parked until exactly then. |
| `Timing.ParkClock` | source/host/threading.c:185-224 | A call that parks its caller lets no time pass while another thread can run; when none can, the clock goes forward to the first moment anybody is parked until, its own among them. |
| `Timing.EndClock` | source/host/threading.c:277-294 | So does a thread's end, unless it wakes its joiner. |
| `Timing.TimesFit` | source/host/threading.c:157-170 | The clock's sums, of the guest's own numbers. |
| `Timing.ClockTold` | source/host/host.c:777-789 | A clock read tells the time the clock then stands at. |
| `ThreadLaws.RequeueSpec` | source/host/threading.c:383-398 | Between two words: the first so many waiters woken, the next so many moved in order behind those already there, the rest left in order, the count how many it took, and no other thread or queue touched. |
| `ThreadLaws.RequeueKeeps` | source/host/threading.c:383-394 | Requeue keeps queues and threads in step whatever the two words, one and the same included. |
| `ThreadLaws.UnparkIs` | source/host/threading.c:92-115 | Waking one takes the head of the queue and nobody else. |
| `ThreadLaws.SwapNextOk` | source/host/threading.c:185-224 | The scheduler ends, declares a deadlock exactly when nobody is runnable and nobody parked will ever be due, and otherwise lets a runnable thread go on. |
| `ThreadLaws.ExitOk` | source/host/threading.c:277-294 | A thread's end keeps queues and threads in step, and it is gone; it stops the machine if and only if nobody waits for its end and nobody else can ever run. |
| `ThreadLaws.ExitWakes` | source/host/threading.c:277-294 | With somebody waiting on its word the machine goes on, and the first of them, its joiner, is runnable. |
| `ThreadLaws.LockPiOk` | source/host/threading.c:400-405 | A lock call keeps queues and threads in step, and stops the machine if and only if the word is taken and nobody else can ever run. |
| `ThreadLaws.UnlockPiOk` | source/host/threading.c:406-415 | Unlock hands over to the longest waiter, which runs, with the waiters bit exactly when more wait; or clears the word. |
| `PiLocks.UseOk` | source/host/threading.c:400-415 | Every use of a lock word, and every call that leaves it alone, keeps the protocol: the word names the holder, and its waiters bit is set exactly when the queue is not empty. |
| `PiLocks.LockRuns` | source/host/threading.c:400-415 | Over every run of such uses there is never more than one holder, and the word names it. |
| `Fairness.EachRunsOnce` | source/host/threading.c:185-224 | Over n yields among n runnable threads each runs exactly once, in turn, if and only if the first yield does not wake another thread. |
| `Fairness.TickGivesWay` | source/host/threading.c:432-443 | If it does, it is another thread that goes on. |
| `ThreadSaves.ServeAlike` | source/host/threading.c:337-353 | Two sets of threads that differ in the order their threads parked in, or before virtual time in the clock, answer every call alike. |
| `ThreadSaves.RunAlike` | source/host/threading.c:337-353 | ... and every run of calls, values and words written alike. |
| `ThreadSaves.LoadedAlike` | source/host/threading.c:450-539 | Threads loaded from what others wrote are those, but for the park order. |
| `ThreadSaves.LoadedRunsOn` | source/host/threading.c:450-539 | So the loaded threads answer every later run of calls exactly as the saved ones would. |
| `ThreadTable.Table.constructor` | source/host/threading.c:133-141 | One thread, running. |
| `ThreadTable.Table.InsertThread` | source/host/threading.c:55-61 | The array shifted up in place holds the thread in tid order. |
| `ThreadTable.Table.RemoveThread` | source/host/threading.c:62-65 | The thread is gone and the order kept. |
| `ThreadTable.Table.UnparkOne` | source/host/threading.c:92-115 | Entries whose thread is not waiting are passed over; the first that is wakes; an emptied queue goes. |
| `ThreadTable.Table.Unqueue` | source/host/threading.c:121-130 | The tid is out of every queue, the others in their order, and no queue is left empty. |
| `ThreadTable.Table.RequeueWaiters` | source/host/threading.c:383-394 | The loop is the model's requeue. |
| `ThreadTable.Table.PickDue` | source/host/threading.c:338-345 | The earliest deadline that has come, ties in park order, or nobody due. |
| `ThreadTable.Table.ExpireNow` | source/host/threading.c:337-353 | Expiring one at a time in that order leaves what expiring all at once does: the order cannot be seen. |
| `ThreadTable.Table.AdvanceClock` | source/host/threading.c:355 | The clock moved and what is due expired. |
| `ThreadTable.Table.GoOn` | source/host/threading.c:185-224 | Looking once, and once more after going forward to the earliest deadline, is the model's choice; the one chosen goes on in the caller's context if it is the caller, and else with the stack and area it had before. |
| `ThreadTable.Table.ResumeThread` | source/host/threading.c:175-183 | The chosen thread runs, in its own context and with the value stored for it. |
| `ThreadTable.Table.FutexWait` | source/host/threading.c:325-329 | The wait call as `ThreadRuns.WaitParks` describes, the table valid after it. |
| `ThreadTable.Table.FutexWaitUntil` | source/host/threading.c:357-379 | The timed wait as `ThreadRuns.WaitUntilParks` describes. |
| `ThreadTable.Table.FutexWake` | source/host/host.c:1014-1018 | The wake, after which in virtual time the waker gives way. |
| `ThreadTable.Table.LockWord` | source/host/threading.c:400-405 | The word after a lock call, and who goes on. |
| `ThreadTable.Table.UnlockWord` | source/host/threading.c:406-415 | The word after an unlock, and that the longest waiter goes on. |
| `ThreadTable.Table.SpawnThread` | source/host/threading.c:249-275 | The new thread under the next tid. |
| `ThreadTable.Table.YieldNow` | source/host/threading.c:432-443 | A yield that leaves only threads with deadlines costs a tick from revision 2 on. |
| `ThreadTable.Table.PassTime` | source/host/host.c:777-790 | The clock read and the sleeps: time passes, then somebody goes on. |
| `ThreadTable.Table.EndThread` | source/host/threading.c:277-294 | A thread's end, after which it is not live. |
| `ThreadTable.Table.SetTidAddress` | source/host/threading.c:417-421 | The word to clear at the thread's end. |
| `ThreadTable.Table.Save` | source/host/threading.c:450-484 | What is written, and refused unless the first thread runs. |
| `ThreadTable.Table.Load` | source/host/threading.c:488-539 | Refused as the source refuses; otherwise the threads written, sorted in, without park orders. |
| `VkTable.ResolvesExactly` | source/vk/vk-host.c:267-281 | For every handle ever given out and whatever happened since: it resolves exactly when the context is its own, its slot was given back a multiple of 256 times since, and the slot holds a live object of the kind; to its own object if it was never given back; and to nothing in between. |
| `VkTable.RunFollows` | source/vk/vk-host.c:228-386 | Over every run of makes, destroys, pool resets, device and context ends a handle names its object or nothing while its slot is its own, and never again once destroyed. |
| `VkTable.MadeResolves` | source/vk/vk-host.c:228-265 | A new handle resolves to the slot made for it; none is given exactly for a null object or a full table. |
| `VkTable.DestroyedStaysDead` | source/vk/vk-host.c:333-347 | A destroyed handle resolves to nothing over every run until its slot has been given back 256 times, or in any other context. |
| `VkTable.PoolReset` | source/vk/vk-host.c:353-372 | Resetting a pool: every child's object is gone, its slot given back and of the next generation; every other slot keeps its object, kind and generation; the pool has no child left. |
| `VkTable.ResetStaysDead` | source/vk/vk-host.c:353-372 | So every handle of the pool's children resolves to nothing, over every run, until its slot has been given back 256 times. |
| `VkTable.DeviceStaysDead` | source/vk/vk-host.c:1364-1376 | So does every handle of a kind that ends with a device. |
| `VkTable.ContextStaysDead` | source/vk/vk-host.c:1391-1416 | Every handle of a context that ended resolves to nothing for good. |
| `VkTable.MadeInPool` | source/vk/vk-host.c:228-265 | A new object takes the slot given back last, or a new one, stands first on its pool's list, and changes no other slot's object, kind or generation nor any other pool's list. |
| `VkTable.DestroyGivesBack` | source/vk/vk-host.c:333-347 | A destroyed object's slot is the next to be given out, one generation on, unless it is a pool's child or has children. |
| `VkTable.HandleLives` | source/vk/vk-host.c:228-386 | Over every run a live handle resolves to its own object at the end if and only if no step destroyed it, reset its pool, or ended its device or context. |
| `VkTable.LiveDistinct` | source/vk/vk-host.c:228-281 | Live handles are distinct, and each resolves to its own slot. |
| `VkTable.NamesAnother` | source/vk/vk-host.c:333-386 | A run from an empty table after which the first handle given out, its object destroyed, resolves again: its slot has been given back 256 times. |
| `VkTable.RegisterKeeps` | source/vk/vk-host.c:228-265 | Making an object keeps the free list without repeats and apart from live slots and from every pool's child list, the lists acyclic and apart from each other. |
| `VkTable.ForgetKeeps` | source/vk/vk-host.c:333-347 | Destroying one keeps that. |
| `VkTable.ForgetChildrenKeeps` | source/vk/vk-host.c:353-372 | Emptying a pool keeps that. |
| `VkTable.ForgetDeviceKeeps` | source/vk/vk-host.c:1364-1376 | Ending a device keeps that. |
| `VkTable.KidsApart` | source/vk/vk-host.c:197-207 | Two pools share no child. |
| `VkTable.InternAgain` | source/vk/vk-host.c:287-293 | Asked for the same object again, the guest gets the same handle and the table does not change. |
| `VkTable.Handles.Lookup` | source/vk/vk-host.c:267-281 | The entry a handle names, if it names one of the kind. |
| `VkTable.Handles.New` | source/vk/vk-host.c:228-265 | A slot reused or added, linked first in its pool's list, and its handle. |
| `VkTable.Handles.Again` | source/vk/vk-host.c:287-293 | The handle an object already has, or a new one. |
| `VkTable.Handles.GiveBack` | source/vk/vk-host.c:374-386 | The slot goes on the free list, one generation on, its object gone. |
| `VkTable.Handles.Drop` | source/vk/vk-host.c:333-347 | The object a handle names is gone; its slot is given back at once unless it is a child, or has children, of a pool. |
| `VkTable.Handles.DropPool` | source/vk/vk-host.c:353-372 | The walk along a pool's list gives back every child, each once and of the next generation, its object gone; every other slot keeps its object, kind and generation. |
| `VkTable.Handles.DropDevice` | source/vk/vk-host.c:1364-1376 | Every object but those of the kinds kept is gone. |
| `VkTable.Handles.DropContext` | source/vk/vk-host.c:1391-1416 | An empty table under the next ordinal. |
| `OpenFiles.StateCarriesFiles` | source/host/fs.c:337-404 | A table saved, written and read back where the same files are mounted in any order: every descriptor has its file open at the saved position if that is before the mounted file's end or seeks may go anywhere, and else at its end; no descriptor more or less, no writable file twice, and the stream left just past the record. |
| `OpenFiles.TableBack` | source/host/fs.c:368-404 | A record is read past whole whether it is taken or not, and taken exactly when every name in it, up to its first zero byte, is mounted. |
| `OpenFiles.LoadOutcome` | source/host/fs.c:368-404 | Any stream: taken if and only if the whole record is there, its descriptors rise and every file is mounted; left alone if and only if it is all there, a file is not mounted and the descriptors rise up to that one; either way the stream is left behind the record; and taken, every handle has its record's descriptor and file, at its position or at the file's end. |
| `OpenFiles.SavedLoads` | source/host/fs.c:337-404 | The records of a table, reopened under reordered mounts, give back what every descriptor had. |
| `OpenFiles.SoleExactly` | source/host/fs.c:368-404 | A record that is taken leaves every writable file open at most once if and only if no two of its entries name one writable file, for every stream. |
| `OpenFiles.OpenTwice` | source/host/fs.c:368-404 | One writable file and a record with two descriptors on it: taken, and the file open twice. |
| `OpenFiles.RecordsBack` | source/host/fs.c:337-355 | The records read off a stream are those written to it. |
| `OpenFiles.SavedAlike` | source/host/fs.c:337-355 | Tables with the same files open write the same records, however they hold them. |
| `OpenFiles.SavesAll` | source/host/fs.c:337-355 | The walk from the lowest descriptor up leaves no handle out. |
| `OpenFiles.TakenFits` | source/host/fs.c:182-189 | The search for a free descriptor ends: n taken in a row need n handles. |
| `OpenFiles.AddKeeps` | source/host/fs.c:182-189 | A new handle keeps descriptors distinct and every writable file open at most once, and every other descriptor as it was. |
| `OpenFiles.CloseKeeps` | source/host/fs.c:325-330 | Moving the last handle into the gap closes that descriptor and no other. |
| `OpenFiles.UnmountKeeps` | source/host/fs.c:256-284 | Shifting the files down a place and the handles with them leaves every descriptor its file. |
| `OpenFiles.UnmountNames` | source/host/fs.c:256-284 | The name is gone, and every other still mounted once. |
| `OpenFiles.FileTable.constructor` | source/host/fs.c:191-201 | The three standard streams on 0, 1 and 2. |
| `OpenFiles.FileTable.Add` | source/host/fs.c:182-189 | The lowest free descriptor. |
| `OpenFiles.FileTable.Mount` | source/host/fs.c:218-226 | Refused exactly when the name is mounted. |
| `OpenFiles.FileTable.Unmount` | source/host/fs.c:256-284 | Which refusal, exactly when; a host file that could not be written out is unmounted and said to be lost; otherwise the name is gone, and every descriptor keeps its file. |
| `OpenFiles.FileTable.Open` | source/host/fs.c:286-302 | Which refusal, exactly when; otherwise the lowest free descriptor at the start of the file. |
| `OpenFiles.FileTable.Dup` | source/host/fs.c:314-323 | Which refusal, exactly when; otherwise the lowest free descriptor where the old one is. |
| `OpenFiles.FileTable.Close` | source/host/fs.c:325-330 | The descriptor is free and the others as they were. |
| `OpenFiles.FileTable.Save` | source/host/fs.c:337-355 | One record a handle, in descriptor order. |
| `OpenFiles.FileTable.Load` | source/host/fs.c:368-404 | The table replaced, left alone or refused, with the code for each; descriptors distinct and files mounted whatever the record says; each handle with its record's descriptor and file, at the record's position if that is before the file's end or seeks may go anywhere and else at its end; and the table valid if and only if the record was not taken or names no writable file twice. |
| `Jsmn.Parser.Parse` | extern/jsmn/jsmn.h:268-453 | Succeeds if and only if the text has no bad character or unfinished string, its brackets match and the tokens fit; then the answer is the count of the pass without an array, the tokens are those of the text in order, each of its kind and where the text starts it, ending at its closing quote, where the primitive stops or just past the bracket that matches its own, its size the number of the text's tokens that are its children, and any two spans nest or are apart. |
| `Jsmn.Parser.Comma` | extern/jsmn/jsmn.h:381-400 | A comma gives back to the innermost open bracket what a colon took. |
| `Jsmn.SizedToken` | extern/jsmn/jsmn.h:281-433 | A new token is a child of the one the text puts it under, and only that one's size grows. |
| `JsonDocs.DocumentParents` | extern/jsmn/jsmn.h:268-453 | In a whole document each member's key is a child of its object, each value of its key, and each element of its array. |
| `JsonDocs.DocumentSizes` | extern/jsmn/jsmn.h:268-453 | So in a parsed document an array's size is its number of elements, an object's its number of members, a key's is one and everything else's none. |
| `Jsmn.Parser.Count` | extern/jsmn/jsmn.h:268-453 | The pass without an array counts the tokens of the text, or says what is wrong with it. |
| `Jsmn.Parser.PassString` | extern/jsmn/jsmn.h:193-263 | Leaves the position at the closing quote past every escape, or as it was with the error. |
| `Jsmn.Parser.PassPrimitive` | extern/jsmn/jsmn.h:135-188 | Leaves it at the primitive's last character, or as it was with the error. |
| `Jsmn.Parser.OpenOne` | extern/jsmn/jsmn.h:281-307 | An opening bracket: a token more, or no room. |
| `Jsmn.Parser.CloseOne` | extern/jsmn/jsmn.h:308-360 | A closing bracket closes the last open token if that is its kind; otherwise the text cannot parse. |
| `Jsmn.Parser.TextOne` | extern/jsmn/jsmn.h:361-433 | A string or a primitive: a token more, or an error only where the text cannot parse. |
| `Jsmn.Mismatched` | extern/jsmn/jsmn.h:308-360 | A bracket that closes the wrong thing, or nothing, means the text's brackets do not match. |
| `Jsmn.AwaitClose` | extern/jsmn/jsmn.h:308-360 | The bracket a closing character ends is, in the text, the match of the last open token's own. |

## Findings

Where the code does not meet what it promises, the model keeps the code as it is,
gives an input and proves exactly when the promise holds.

- A host page of several machine pages can be left writable by a load or a delta:
  a page that becomes writable while its own protection stays read-only is not
  noted (`source/host/memblock.c:2252`, `2735`). Exactly when: `Restore.LoadWatched`,
  `Restore.ApplyWatched`. Inputs: `Findings.GroupedLoadLosesWrite`,
  `Findings.GroupedApplyLosesWrite`. Never where a host page is one machine page.
- `mremap` that moves marks its pages dirty after their protection was worked out
  (`source/host/memblock.c:1642-1644`): a free page it lands on that was clean or
  invisible becomes an orphan, and a later write to it can be missing from a
  delta. Exactly when: `Orphans.LandOrphans`. Input: `Findings.MoveCannotBeTrusted`.
- A move also takes visibility along after the protection was worked out
  (`source/host/memblock.c:1643`): a hidden page it shows can be left writable and
  missing from the list of pages the next epoch holds. Exactly when:
  `Invariant.LandedListed`, and for whole moves and runs `Calls.MoveKeeps` and
  `Runs.RunKeeps`. Input: `Findings.MoveUncovers`.
- Which pages are visible is in no delta, and a move can change it: a frame's
  delta is complete only if the frame ends with the same pages visible. Exactly
  when: `Epochs.DeltaComplete`. Input: `Findings.VisibilityNotCarried`. The
  history theorems are about frames that do.
- Where a host page is several machine pages, a page the guest may not write can
  be written when its neighbour may (`source/host/memblock.c:776-796`), and no
  state or delta tells. Which pages and with what effect: `Strays.StrayGrouped`,
  `Strays.StrayKeeps`, `Strays.StrayUnrecorded`, `Strays.StrayDelta`. Input:
  `Findings.StrayLost`.
- A protection call on a page a plan still owes can make an orphan of it
  (`source/host/memblock.c:1066-1069`). Exactly when: `Orphans.ReprotectOrphans`.
  Input: `Findings.PlannedReprotectReached`.
- Those are the only two ways to make an orphan (`Orphans.OnlyThoseOrphan`, over
  runs `Orphans.RunOrphans`), and an orphan is exactly what makes a frame's delta
  incomplete (`Orphans.TrustworthyExactly`). The history theorems therefore ask
  for no orphan at the start of each frame, or of the run and for careful steps
  (`History.CarefulHistory`).
- Pages marked invisible while they are hot would break the block's own
  consistency; nothing checks, and nothing before the seal heats a page. Exactly
  when: `Restore.HideKeeps`.
- `mb_block_delta_apply` does not finish an open plan, as a load does: the
  captured state can come out torn. Exactly when: `Tearing.ApplyUnderPlan`.
  Input: `Findings.ApplyTears`.
- A Vulkan handle destroyed long ago resolves again once its slot has been given
  back a multiple of 256 times. Exactly when: `VkTable.ResolvesExactly`. Input:
  `VkTable.NamesAnother`.
- `mremap` to the size a range already has is refused as invalid
  (`source/host/memblock.c:1587-1610`, stated by `MemBlock.Block.Mremap`).
- A record of open files that names a writable file twice is taken, and the file
  is then open twice (`source/host/fs.c:368-404`); no table writes such a record
  (`OpenFiles.SavedLoads`). Exactly when: `OpenFiles.SoleExactly`. Input:
  `OpenFiles.OpenTwice`.
- The comment on futexes in `source/host/host.c:988-989` says timeouts are not
  honoured; in virtual time the code honours them, and the model follows the code.

## Left out

- Windows' stack shadows and lazy commit, and Apple's write/execute flip: the model is the path that commits everything.
- Failures of allocation and protection changes the operating system refuses: every snapshot, shadow and protection call succeeds.
- The tracking lock: each critical section is one step. Copying a planned page is the part that is interleaved, byte by byte.
- SHA-256: hashes of machines are values that are compared. The seal's hash is not computed.
- Activating and deactivating a block (`source/host/memblock.c:613-649`): the block is always the one mapped in.
- Status bytes that name no status, in a state or a delta.
- How a packed map is read eight bytes at a time as a word: modelled as eight equal entries.
- Writes of part of a page, and copies of part of one by the loader: a write replaces the whole page.
- MemBlock.Block.CopyIn: whole pages, before the seal and already mapped, as the loader does it.
- MemBlock.Block.DeltaApply: lists in ascending page order, as every delta written or composed has them.
- MemBlock.Block.StatePlan: the buffer's unfilled slots all hold one arbitrary value, and the header's bytes are not laid out.
- MemBlock.Block.Save: the state is a value; the byte format of a state and its header, unlike a delta's, is not modelled.
- MemBlock.Block.PlanTake: with no copier at the page. Waiting for one is `Capture.WaiterReleased`.
- Invariant.NoUnrecordedWrite: where a host page is several machine pages, being on the list of writable pages is tied to being no orphan, not proved outright.
- DeltaBytes.ViewMerged: stated of two buffers in which the lists lie whole, which the view's bounds check has seen to.
- A write to a page the guest may not write, as a step of a run: `Strays` says what one does, and the run theorems have none.
- Frames that end with other pages visible than they started with, in the history theorems; see Findings.
- The statistics and diagnostics of `source/host/memblock.c`, `mb_block_page_info`, `mb_block_host_can` and the read view.
- The host's own state and delta framing around the block's (`source/host/host.c`), but for composing; the signal and exception handlers around `trip`.
- ThreadLaws.ExitOk: the unmap of its own stack that a thread leaves behind is not modelled.
- ThreadTable.Table.SpawnThread: the new stack's protection and the words written to it, and the refusals for bad addresses, are not modelled.
- ThreadTable.Table.constructor: the arrays of deadlines and park orders are fields of the thread records.
- ThreadTable.Table.Save: the floating-point control words and the byte format.
- ThreadTable.Table.FutexWait: bad addresses, and bitset masks, which the host ignores.
- The timeouts of requeued waiters, which the code drops, and the order of expiry, which cannot be seen: neither is a promise.
- Entries left in a queue by states of older hosts: passed over by `ThreadTable.Table.UnparkOne`, outside the run theorems.
- The 32-bit wrap of tids and of the Vulkan context ordinal.
- Vulkan driver calls, memory and template state, and the structure translators.
- VkTable.Handles.New: the parent is 0 or the slot of a live object that is itself no child, as the callers pass it.
- VkTable.Handles.GiveBack: called on a slot in the table, as its callers do; a free list that cannot grow, and so drops the slot, is a failed allocation.
- OpenFiles.FileTable.Open: the access mode alone of the flags, as the source looks at.
- Reading, writing, seeking and truncating files, host files' contents and the output ring.
- JsonDocs.DocumentSizes: of documents written without blanks and escapes; `Jsmn.Parser.Parse` says what every text comes to.
- Jsmn.Parser.Parse: strict mode, parent links and resumed parses are not in the build modelled.
- The GL generators, ELF loading, mounts on the host's disk, musl, libco and the C ABI wrappers.
