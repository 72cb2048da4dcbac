# Mecocoa kernel protocols, modelled and proved in Dafny

This project models the parts of the Mecocoa kernel and of its C library whose correctness is spread over
several functions, and proves what they promise. `dafny verify dfyconfig.toml` checks everything. Nothing was
executed.

A protocol between threads, processors or interrupts is a state machine: a state datatype, one action per
section run under a lock (or per atomic access), a function for each action, and theorems over every run, that
is every interleaving. Where the kernel updates tables, chains, trees or buffers in place, a class or a method
on arrays does the same, and its contract ties the new contents to the functions of the state machine.

* **Shared file mappings and executable pins** (`SharedPages`, `SharedPageCoherence`, `ExecutablePins`,
  `SharedPageTable`, `SharedPageForks`). Every run of mapping, first store, regular write, truncate, flush,
  eviction, pinning and fork behaves for readers like one flat byte file per inode, as long as failed forks find the
  pages they make writable again still dirty.
* **The life of shared pages** (`SharedPageLife`, `SharedPageLifeSafety`, `SharedPageLifeTheorems`,
  `SharedPageCalls`). However threads fill, map, store to, flush, fork, unmap, evict and forget them, references are
  counted exactly, pages are freed once and the kernel's assertions about them hold.
* **The versioned page cache** (`FileCache`, `FileCacheSafety`, `FileCacheTheorems`, `FileCacheCalls`,
  `FileCacheTable`, `CachedRead`, `JointRead`). Ready pages are exact for their version in every interleaving,
  references are counted exactly, and a cached read returns one slice of one version while no shared page of the file is dirty.
* **Interrupt routing** (`GsiRouting`, `GsiSafety`, `GsiTheorems`, `GsiTables`, `GsiOverlap`,
  `GsiReads`): any number of callers bind and unbind while any number of processors dispatch.
* **Soft timers** (`SoftTimers`, `SoftTimerSafety`, `SoftTimerTheorems`, `SoftTimerRefusals`, `SoftTimerDelays`,
  `SoftTimerSections`, `SoftTimerChains`), **storage waits** (`StorageWait`) and **sleeping locks** (`SleepLocks`).
* **ACPI discovery**: flattening property trees (`AcpiProperties`, `AcpiPropertyArena`) and the device status
  pass (`AcpiPresence`).
* **Touch input** (`HidTouch`, `HidTouchHistory`, `HidTouchSections`, `HidInputRuntime`) and **USB tree pruning**
  (`UsbTree`, `UsbDeviceTree`).
* **Calendar** (`Calendar`, `CalendarGregorian`), **DNS names** (`DnsNames`, `DnsPaths`) and **audio tracks**
  (`AudioTrack`, `AudioSamples`).

`FileBytes` and `Counting` hold what several of these share.

What the machine, the backend or another component decides (how many bytes a backend write accepts, whether an
allocation succeeds, which page-table entries still match, what `_STA` evaluates to) is a parameter. Atomics are
sequentially consistent; ticks, serials, generations and content versions are unbounded.

Some promises do not hold of the code as they stand. For these the model keeps the code, shows an input on which
the promise fails and states exactly when it holds:

* A fork that fails makes the parent's entries writable again under `vma_lock` alone. That keeps the shared pages
  coherent exactly when each of these pages is still dirty (`RestoreCoherentIff`, `DiscardCoherentIff`), and only a
  flush of the page or a truncation before it ends that (`OnlyWriteBackCleans`). When a flush came in between,
  later stores are lost with the page, and a pin taken meanwhile freezes nothing (`CleanedBehindFork`,
  `StoreIsLost`, `PinnedButWritable`).
* Taken by its own contract, cloning pins keeps one mapped-file pin per process and inode exactly when parent and
  child map no inode in common (`CloneUnique`, `CloneCanDuplicate`). Fork, its only caller, passes a new child, and
  over runs with new children the rule always holds (`RunsKeepUnique`).
* An undelivered timer message can be dropped before its fifth refusal, but only when it cannot be appended again
  for lack of memory (`DroppedAfterFiveOrOutOfMemory`, `SoftTimerRefusals.DropsFollowRefusals`,
  `DroppedAfterOneAttempt`).
* A device below an absent ACPI device is never present, but it is absent only if absence reaches it through
  registered devices (`AbsentExactlyWhen`, `AbsenceCanStop`).
* `mktime` writes the broken-down time of its result exactly when the hours carry days or the day lies in its
  month (`MkTime`, `DayOutsideMonth`).
* A cached read returns one slice of one content version exactly when each shared page was clean or equal to the
  backend where and when it was copied from; while nobody stores to the file, writes it back or changes it, this is
  a condition on the pages before the call (`ReadsOneSliceIffSettled`, `UndisturbedReadIff`, `DirtyReadIsNoSlice`).
* An I/O APIC entry is read before the lock is taken. A line without a live binding holds its original entry
  exactly when no route was opened on it or the call that last did so read the line while it held that entry, which
  is always so when calls do not overlap; an overlapping call can put another call's configuration back
  (`RestoredIffReadInTime`, `SequentialCallsRestore`, `StaleReadIsPutBack`).
* Copying sound data reports the bytes it took over exactly when all that fits can be read, none of it, or a part
  that ends where the ring does (`ReportsWhatItTook`, `ReportsTooMuch`).
* Observers of an ALPS pad see Begin and End take turns exactly when no release finds a finger on the pad
  (`AlpsTurnsSeen`).
* The upper end of a coordinate range lands on the upper end of the scale exactly when the product fits a word or
  the range is a multiple of the scale (`NormalizedEnds`).
* An encoded DNS name reads back as the host exactly up to a trailing dot, the root spelled as one dot, 31 labels
  and the room for the text (`AnyEncodingReadsBack`).

## Model

| member | source | states |
|---|---|---|
| SharedPageCoherence.RunsRefineFlatFiles | mecocoa/fileman-cache.cpp:946-1237 | after every run, forks included, whose failed forks find the pages they make writable again still dirty, the table is coherent with the backend (a writable alias implies a dirty page with its inode retained, a clean page equals the backend below EOF, a dirty page starts below EOF and its inode is not pinned), and the files readers see are the initial ones with exactly the reported edits replayed |
| SharedPageCoherence.SectionFaithful | mecocoa/fileman-cache.cpp:732-1237 | the same for each single section from any coherent state |
| SharedPageCoherence.FlushCoherent | mecocoa/fileman-cache.cpp:1205-1237 | write-back, complete or short, keeps coherence and never changes what readers see |
| SharedPageCoherence.FlushReachesBackend | mecocoa/fileman-cache.cpp:1205-1237 | a flush of a dirty page succeeds exactly when the backend accepts the whole length; then the page is clean, its inode released, the backend has its bytes below EOF at the next version and the same size; otherwise it stays dirty with the inode retained |
| SharedPageCoherence.WriteCoherent | mecocoa/filesys.cpp:1619-1705 | a regular write of nothing, to a pinned inode or with an alias it must but cannot revoke changes nothing readers see; any other puts exactly the accepted prefix of the data at its position, behind zeros where it starts past EOF, or only grows the file by what the backend took of the gap; it succeeds exactly when there is nothing to write or the position is reached |
| SharedPageCoherence.TruncateCoherent | mecocoa/filesys.cpp:312-330 | truncation succeeds exactly when the inode is there and not pinned, all its aliases can be revoked and the backend agrees; then readers see the file cut or zero-extended to the size, otherwise no change |
| SharedPageCoherence.ResizedCoherent | mecocoa/fileman-cache.cpp:574-602 | zeroing and cleaning shared pages after a size change keeps every page coherent with the resized file |
| SharedPageCoherence.StoreCoherent | mecocoa/fileman-cache.cpp:1151-1200 | a store is possible exactly through a writable mapping; below EOF it changes that one byte of the file for readers, past it nothing |
| SharedPageCoherence.PinCoherent | mecocoa/fileman-cache.cpp:779-825 | pinning keeps coherence; it succeeds only when no page of the inode is dirty |
| FileBytes.SplicedBytes | mecocoa/filesys.cpp:1685-1697 | an overlay has the new bytes where they were put and the old ones elsewhere, and grows the file only as far as they reach |
| FileBytes.ResizedBytes | mecocoa/filesys.cpp:312-330 | a resized file keeps its bytes up to the smaller size and is zero beyond |
| FileBytes.PaddedBytes | mecocoa/fileman-cache.cpp:341-363 | a page holds the bytes of the file at its offset and zeros past EOF |
| SharedPageCoherence.ForkProtectCoherent | mecocoa/taskman-new.cpp:685-714 | making a parent's entry read-only for fork keeps coherence and what readers see |
| SharedPageCoherence.RestoreCoherentIff | mecocoa/taskman-new.cpp:531-554 | making an entry writable again after a failed fork changes nothing readers see, and keeps the table coherent if and only if the page is still dirty |
| SharedPageForks.DiscardCoherentIff | mecocoa/taskman-new.cpp:531-554 | a failed fork as a whole, over all entries it made read-only, keeps the table coherent if and only if every page it makes writable again is still dirty |
| SharedPageForks.OnlyWriteBackCleans | mecocoa/fileman-cache.cpp:574-602 | no section but a flush of the page or a truncation before it cleans or removes a dirty page |
| SharedPageForks.SparingRunsRestore | mecocoa/taskman-new.cpp:531-714 | over every run in which no page is cleaned that a fork under way has made read-only, failed forks restore dirty pages only |
| SharedPageForks.CleanedBehindFork | mecocoa/taskman-new.cpp:531-714 | from every coherent state with a writable entry: protect, flush, failed fork leaves the entry writable on a clean page |
| SharedPageForks.StoreIsLost | mecocoa/fileman-cache.cpp:445-474 | a store through such an entry is reported, and gone once the page is unmapped and evicted |
| SharedPageForks.PinnedButWritable | mecocoa/taskman-new.cpp:531-554 | a restore after a pin leaves the inode pinned with a writable entry |
| ExecutablePins.PinFreezesInode | mecocoa/fileman-cache.cpp:772-930 | over any run during which the inode stays pinned and failed forks find their pages still dirty, its bytes and version never change, no shared page of it is dirty and none is mapped writable |
| ExecutablePins.PinnedSectionKeepsFile | mecocoa/fileman-cache.cpp:772-777 | no section changes the bytes or the version of a pinned inode |
| ExecutablePins.CloneKeepsPinned | mecocoa/fileman-cache.cpp:858-868 | cloning pins nothing new and drops nothing |
| ExecutablePins.TransferKeepsPinned | mecocoa/fileman-cache.cpp:894-930 | an inode is pinned after a transfer if and only if someone other than the old destination pinned it, so no source inode has an unpinned gap |
| ExecutablePins.CloneUnique | mecocoa/fileman-cache.cpp:858-868 | after a full clone there is at most one mapped pin per process and inode if and only if parent and child had no mapped inode in common |
| ExecutablePins.CloneCanDuplicate | mecocoa/fileman-cache.cpp:858-868 | a pin list on which cloning breaks that rule |
| ExecutablePins.RunsKeepUnique | mecocoa/fileman-cache.cpp:779-930 | every run whose clones go to processes without common inodes keeps the rule |
| ExecutablePins.UnpinUndoesPin | mecocoa/fileman-cache.cpp:839-856 | unpinning a mapped file undoes the pin taken last and leaves none |
| ExecutablePins.PinTakenIff | mecocoa/fileman-cache.cpp:779-825 | a pin is taken exactly when every alias of the inode can be revoked and no page of it is dirty, and it is the only one added |
| ExecutablePins.UnpinTakesMapped | mecocoa/fileman-cache.cpp:839-856 | unpinning a mapped file takes one mapped pin of the pair, if there is one, and no other |
| ExecutablePins.UnpinTakesProcess | mecocoa/fileman-cache.cpp:870-891 | unpinning a process takes all its pins and no other |
| ExecutablePins.CloneCopiesAll | mecocoa/fileman-cache.cpp:858-868 | a full clone gives the child every pin of its parent, image pins included, and pins nothing else |
| ExecutablePins.TransferMovesAll | mecocoa/fileman-cache.cpp:894-930 | after a transfer the destination has exactly the pins of the source, the source none, everyone else their own |
| ExecutablePins.FirstStoreOpensEntry | mecocoa/fileman-cache.cpp:1151-1200 | a first store is let through exactly when the entry is registered and read-only, the inode not pinned and the page below EOF; then this entry alone becomes writable, the page dirty, and readers see no change |
| ExecutablePins.UnmapUndoesMap | mecocoa/fileman-cache.cpp:1097-1147 | an alias is registered exactly when the page is there and the place free, read-only, and unregistering it restores the table |
| ExecutablePins.UnmapTakesOne | mecocoa/fileman-cache.cpp:1129-1147 | unregistering takes one alias of the pair, if there is one |
| SharedPageTable.SharedFilePages.ProtectSharedFileAliases | mecocoa/fileman-cache.cpp:732-756 | revokes aliases in order up to the first that cannot be revoked |
| SharedPageTable.SharedFilePages.ProtectListed | mecocoa/fileman-cache.cpp:990-1004 | protects the pages of a snapshot in order, stopping at a failure |
| SharedPageTable.SharedFilePages.PrepareSharedFileWrite | mecocoa/fileman-cache.cpp:946-966 | protects exactly the pages a write touches |
| SharedPageTable.SharedFilePages.UpdateSharedFilePages | mecocoa/fileman-cache.cpp:970-986 | overlays the accepted bytes on every published page, chunk by chunk |
| SharedPageTable.SharedFilePages.CompleteSharedFileTruncate | mecocoa/fileman-cache.cpp:574-602 | adjusts every page of the inode to the new size |
| SharedPageTable.SharedFilePages.FlushSharedFilePage | mecocoa/fileman-cache.cpp:1205-1237 | performs the flush section of the state machine |
| SharedPageTable.SharedFilePages.TruncateInode | mecocoa/filesys.cpp:312-330 | performs the truncate section: the same condition for success, and readers see the resized file or no change |
| SharedPageTable.SharedFilePages.WriteRegularFile | mecocoa/filesys.cpp:1619-1705 | performs the write section: the accepted prefix of the data, or the part of the gap taken, is all that readers see change, with the same condition for success |
| SharedPageTable.SharedFilePages.ResolveSharedFileWrite | mecocoa/fileman-cache.cpp:1151-1200 | performs the first-store section: marks the page dirty, retains the inode and makes one alias writable |
| SharedPageTable.SharedFilePages.ProtectParentEntry | mecocoa/taskman-new.cpp:685-714 | performs fork's protect section, or refuses |
| SharedPageTable.SharedFilePages.RestoreParentEntries | mecocoa/taskman-new.cpp:533-554 | the loop over the entries restores exactly those that still map their page read-only |
| SharedPageTable.SharedFilePages.ExecutableFilePinned | mecocoa/fileman-cache.cpp:772-777 | finds a pin of the inode exactly when there is one |
| SharedPageTable.SharedFilePages.PinExecutableImage | mecocoa/fileman-cache.cpp:779-837 | performs the pin sections of the state machine, including the refusals |
| SharedPageTable.SharedFilePages.UnpinMappedExecutableImage | mecocoa/fileman-cache.cpp:839-856 | unlinks the first mapped pin of the pair |
| SharedPageTable.SharedFilePages.UnpinExecutableImage | mecocoa/fileman-cache.cpp:870-891 | unlinks every pin of the process |
| SharedPageTable.SharedFilePages.CloneExecutableImagePin | mecocoa/fileman-cache.cpp:858-868 | links a copy of every pin of the parent, up to the first failed allocation |
| SharedPageTable.SharedFilePages.TransferExecutableImagePin | mecocoa/fileman-cache.cpp:894-930 | replaces the destination's pins by the source's in one section |
| SharedPageLifeSafety.RunsSafe | mecocoa/fileman-cache.cpp:445-1237 | every run of lookups, fills, mappings, stores, flushes, forks, unmappings, evictions and inode destruction keeps the ownership invariant of shared pages, threads, frames, mappings and records |
| SharedPageLifeSafety.SectionSafe | mecocoa/fileman-cache.cpp:445-1237 | so does every single section |
| SharedPageLifeTheorems.OneFillerPerKey | mecocoa/fileman-cache.cpp:499-529 | a key has one filler at a time, which holds the completion mutex; its page is recorded and Loading until that filler has completed it |
| SharedPageLifeTheorems.WaitersSeeFinalState | mecocoa/fileman-cache.cpp:653-658 | whoever gets the completion mutex finds a final state |
| SharedPageLifeTheorems.CompletionIsFinal | mecocoa/fileman-cache.cpp:531-549 | no later section changes the outcome of a completed page |
| SharedPageLifeTheorems.PublishedPageIsCurrent | mecocoa/fileman-cache.cpp:670-703 | vfs_lock is held from the read to the publication, so the page published is the zero-padded page the backend holds then: the publish section of the coherence model |
| SharedPageLifeTheorems.NoFailureAfterAdoption | mecocoa/fileman-cache.cpp:688-702 | after adoption neither of the two later failure exits is taken |
| SharedPageLifeTheorems.CarriedReferenceCounts | mecocoa/fileman-cache.cpp:1088-1091 | the page of every mapping reference a thread carries is managed and counts it, so giving it back succeeds |
| SharedPageLifeTheorems.SecondLookupFindsThePage | mecocoa/fileman-cache.cpp:1041-1048 | between the two lookups of a mapping call nobody can remove the record: the second finds the same page, Ready and at the same address |
| SharedPageLifeTheorems.UnmappingSucceeds | mecocoa/fileman-cache.cpp:1129-1147 | unmapping finds the alias it registered and gives back a reference that is counted |
| SharedPageLifeTheorems.UsedPagesStay | mecocoa/fileman-cache.cpp:445-474 | a dirty or mapped page is Ready, recorded and of an inode that is alive, and eviction does not take it |
| SharedPageLifeTheorems.DestroyedPagesAreClean | mecocoa/fileman-cache.cpp:411-412 | whichever section destroys a page, it is neither dirty nor mapped |
| SharedPageLifeTheorems.DestructorReleases | mecocoa/fileman-cache.cpp:413-416 | the destructor's release of the cache reference succeeds |
| SharedPageLifeTheorems.ForgottenPagesAreClean | mecocoa/fileman-cache.cpp:604-629 | what is unlinked with its inode is neither dirty nor mapped, although nobody asks who else owns it |
| SharedPageLifeTheorems.ExactlyReachedIsAllocated | mecocoa/fileman-cache.cpp:648-705 | exactly the shared pages and frames something still reaches are allocated: no early free, no leak |
| SharedPageLifeTheorems.CountersCountReferences | include/memoman.hpp:228-236 | owner, mapping and cache counters of shared pages equal the number of references |
| SharedPageCalls.MissFills | mecocoa/fileman-cache.cpp:648-705 | undisturbed, a call for a page nobody has ends holding a recorded, clean Ready page without aliases whose frame, kept by one cache reference, is the zero-padded page of the file; nothing else changes |
| SharedPageCalls.FailureLeavesNothing | mecocoa/fileman-cache.cpp:660-692 | undisturbed, a call that gets no frame, cannot read or cannot adopt leaves no record, page, frame or lock behind |
| SharedPageCalls.MapInstalls | mecocoa/fileman-cache.cpp:1037-1092 | with a carried reference the leaf entry and the alias appear together, and nothing else changes |
| SharedPageCalls.RefusedMapGivesBack | mecocoa/fileman-cache.cpp:1086-1091 | a mapping the area or the page table does not agree with gives its reference back, and nothing else changes |
| SharedPageCalls.UnmapReleases | mecocoa/fileman-cache.cpp:1129-1147 | unmapping takes the mapping, its alias and its reference to the frame, and nothing else |
| SharedPageCalls.UnmapUndoesMap | mecocoa/fileman-cache.cpp:1023-1147 | of acquiring, mapping and unmapping nothing is left but the owner that went |
| SharedPageCalls.StoreMarks | mecocoa/fileman-cache.cpp:1151-1200 | the first store through a mapping makes the page dirty exactly when it is allowed |
| SharedPageCalls.FlushCleans | mecocoa/fileman-cache.cpp:1205-1237 | a flush leaves a dirty page clean exactly when the write succeeded, and no other page changes |
| SharedPageCalls.DetachDestroysUnused | mecocoa/fileman-cache.cpp:446-474 | eviction destroys, with its frame, a page that is clean, without alias and referred to by the table and the cache alone, and no other |
| FileCacheSafety.RunsSafe | mecocoa/fileman-cache.cpp:140-380 | every run keeps the ownership, content and version invariant of entries, threads, pages and records |
| FileCacheSafety.SectionSafe | mecocoa/fileman-cache.cpp:140-380 | so does every single section |
| FileCacheSafety.FillSafe | mecocoa/fileman-cache.cpp:341-363 | the fill under vfs_lock reads the page of the key's version or refuses a stale key |
| FileCacheSafety.CompleteSafe | mecocoa/fileman-cache.cpp:188-212 | completion publishes or fails an entry without losing or freeing a reference |
| FileCacheSafety.InvalidateSafe | mecocoa/fileman-cache.cpp:215-238 | after an invalidation under the same vfs_lock no recorded Ready page is stale |
| FileCacheTheorems.ReadyPagesAreExact | mecocoa/fileman-cache.cpp:140-238 | a Ready entry holds the zero-padded page of its inode at its key's version, and while vfs_lock is free a Ready record carries the current version |
| FileCacheTheorems.ValidatedPageIsCurrent | mecocoa/fileman-cache.cpp:1246-1284 | a mapping is handed out only for a page that shows the current contents |
| FileCacheTheorems.OneFillerPerEntry | mecocoa/fileman-cache.cpp:140-186 | an entry has one filler, which holds the completion mutex; it is Loading exactly until that filler has completed it |
| FileCacheTheorems.WaitersSeeFinalState | mecocoa/fileman-cache.cpp:320-329 | whoever gets the completion mutex finds a final state |
| FileCacheTheorems.CompletionIsFinal | mecocoa/fileman-cache.cpp:188-212 | no later section changes the outcome of a completed entry |
| FileCacheTheorems.AdoptedPageStays | mecocoa/fileman-cache.cpp:364-377 | after adoption neither retaining the cache reference nor releasing the first mapping can fail |
| FileCacheTheorems.ExactlyReachedIsAllocated | mecocoa/fileman-cache.cpp:46-67 | exactly the entries and pages something still reaches are allocated: no early free, no leak |
| FileCacheTheorems.CountersCountReferences | include/memoman.hpp:228-236 | owner, mapping and cache counters equal the number of references |
| FileCacheCalls.MissFills | mecocoa/fileman-cache.cpp:315-380 | undisturbed, a call for a page nobody has ends holding a recorded Ready entry whose frame, kept by one cache reference, is the zero-padded page of the current contents; nothing else changes |
| FileCacheCalls.FailureLeavesNothing | mecocoa/fileman-cache.cpp:330-366 | undisturbed, a call that gets no frame, cannot read or cannot adopt leaves no record, entry or frame behind |
| FileCacheCalls.HitHolds | mecocoa/fileman-cache.cpp:315-329 | undisturbed, a call for a recorded Ready page ends holding it as one more owner, and nothing else changes |
| FileCacheCalls.MappingIffCurrent | mecocoa/fileman-cache.cpp:1246-1284 | a held page is handed out as one more mapping exactly while its key is current, and leaves none otherwise |
| FileCacheCalls.DetachDestroysUnused | mecocoa/fileman-cache.cpp:108-131 | eviction destroys, with its frame, a Ready page referred to by the table and the cache alone, and no other |
| FileCacheTable.Table.Find | mecocoa/fileman-cache.cpp:93-97 | the chained buckets find exactly what the map of records holds |
| FileCacheTable.Table.Link | mecocoa/fileman-cache.cpp:165-177 | linking at the end of a chain adds the key to the map |
| FileCacheTable.Table.Remove | mecocoa/fileman-cache.cpp:289-304 | unlinks the record exactly when it belongs to the expected entry |
| FileCacheTable.Table.InvalidateVersions | mecocoa/fileman-cache.cpp:215-238 | the sweep takes exactly the records of the inode at other versions |
| FileCacheTable.Table.DetachInactive | mecocoa/fileman-cache.cpp:108-131 | takes at most the limit, each record once, only records of the inactive set, and fewer only when none of it is left |
| FileCacheTable.Table.TrimReadyPages | mecocoa/fileman-cache.cpp:134-137 | afterwards the table is within 1024 records or no record of the inactive set is left; takes each record once |
| FileCacheTable.SweepInvalidates | mecocoa/fileman-cache.cpp:215-238 | what the sweep returns is a complete stale list of the cache model |
| FileCacheTable.SweepDetaches | mecocoa/fileman-cache.cpp:108-137 | with the inactive set of a cache state, what either sweep takes is a run of Detach sections of the cache model, which keeps its invariant and removes exactly these records |
| CachedRead.ReadsOneSlice | mecocoa/fileman-cache.cpp:1286-1341 | without dirty shared pages, however writers, readers and seeks interleave, the bytes copied are one contiguous slice of one content version from where the first copy began, and the call moves f_pos by exactly their number |
| JointRead.JointNextGood | mecocoa/fileman-cache.cpp:1286-1341 | with cache and shared pages as one machine, every step keeps the cache invariant, coherence, the account of the read, and every file's current version equal to the backend |
| JointRead.ReadsOneSliceIffSettled | mecocoa/fileman-cache.cpp:1286-1341 | over every run of that machine the call moves f_pos by exactly the bytes copied, and these are one slice of one version if and only if at each copy the shared page was clean or equal to the backend there |
| JointRead.UndisturbedReadIff | mecocoa/fileman-cache.cpp:1286-1341 | while nobody stores to the file, writes it back or changes it, the call returns a slice of what readers of the shared pages saw before the call, and it is a slice of the file if and only if before the call every shared page over it was clean or equal to the backend there |
| CachedRead.DirtyReadIsNoSlice | mecocoa/fileman-cache.cpp:934-943 | a read over a dirty page that returns a byte no version of the file has |
| CachedRead.DirtyPageShowsView | mecocoa/fileman-cache.cpp:934-943 | what a page of a coherent table shows, dirty or clean, is the file its readers see at that moment |
| CachedRead.QuietReadIsComplete | mecocoa/fileman-cache.cpp:1286-1341 | undisturbed, the call returns everything from the start position up to the count or EOF |
| CachedRead.CoherentPageIsClean | mecocoa/fileman-cache.cpp:934-943 | a clean page of a coherent shared-page table is one the read may copy from |
| GsiSafety.RunsSafe | mecocoa/devsman-acpi-gsi.cpp:97-279 | every interleaving of any number of bind and unbind calls and of dispatch keeps the slot, caller, processor, route and line invariants |
| GsiTheorems.NoFilterAfterUnbind | mecocoa/devsman-acpi-gsi.cpp:97-107 | a running filter belongs to a binding whose Unbind has not returned and was called with that binding's own filter and context |
| GsiTheorems.DrainOnlyShrinks | mecocoa/devsman-acpi-gsi.cpp:254-263 | while an Unbind waits nobody new is admitted to its slot |
| GsiTheorems.UnbindReturnsDrained | mecocoa/devsman-acpi-gsi.cpp:263-276 | every Unbind gives its slot back only when nobody is inside a filter of it |
| GsiTheorems.ReferencesCountBindings | mecocoa/devsman-acpi-gsi.cpp:195-257 | a route's reference count is its number of live bindings, however calls overlap; with no call under way it is active exactly while it has one |
| GsiTheorems.LastUnbindRestores | mecocoa/devsman-acpi-gsi.cpp:184-276 | with no call under way, a line without live binding holds the I/O APIC entry read by the call that last opened a route on it; a line with a binding holds that entry with vector 0xA0, the mask bit clear and polarity, trigger mode and destination of its configuration |
| GsiTheorems.MaskedExactlyWithoutBinding | mecocoa/devsman-acpi-gsi.cpp:184-262 | in every reachable state the line of an active route delivers as configured, and its mask bit is set exactly while no binding is live on it |
| GsiTheorems.BindProceedsIff | mecocoa/devsman-acpi-gsi.cpp:175-193 | past the lock a Bind goes on exactly when both sides agree to share a route in use with the same trigger mode and polarity, or no route serves the line, one is free and the hardware confirms the entry |
| GsiTheorems.InterruptCallsFilter | mecocoa/devsman-acpi-gsi.cpp:97-107 | undisturbed, an interrupt that finds a live slot calls the filter of its binding with its own context, and leaves the slot as it was |
| GsiReads.RestoredIffReadInTime | mecocoa/devsman-acpi-gsi.cpp:172-276 | over every run that leaves no call under way, a line without live binding has its original entry back if and only if no route was ever opened on it or the call that opened the last one read the line while it held that entry |
| GsiReads.SavedWasRead | mecocoa/devsman-acpi-gsi.cpp:172-193 | over every run, what a line has saved is what it held when the call that last opened a route on it read it |
| GsiTheorems.SequentialCallsReadCurrent | mecocoa/devsman-acpi-gsi.cpp:172-175 | when a call begins only after the others have returned, every route is opened with the entry in place and saves the original one |
| GsiTheorems.SequentialCallsRestore | mecocoa/devsman-acpi-gsi.cpp:172-276 | so over such runs a line without live binding always has its original entry back |
| GsiOverlap.LeavesWhatItRead | mecocoa/devsman-acpi-gsi.cpp:167-279 | whatever else is bound, a Bind on a line without route and its Unbind leave the entry Bind read, stale or not; the route and the slot they used are empty again and all other tables as they were |
| GsiOverlap.StaleReadIsPutBack | mecocoa/devsman-acpi-gsi.cpp:172-193 | on every line a reachable run of two overlapping callers ends with nothing bound and the line reconfigured, its mask bit clear |
| GsiTheorems.StaleHandleRefused | mecocoa/devsman-acpi-gsi.cpp:245-251 | Unbind accepts exactly the handles of bindings made, not given back and not being unbound by another call |
| GsiTheorems.HandlesAreFresh | mecocoa/devsman-acpi-gsi.cpp:205-228 | a handle's generation was never handed out before, stands for the caller's filter and context, and Unbind would accept it |
| GsiRouting.ConfigureKeepsOtherBits | mecocoa/devsman-acpi-gsi.cpp:73-81 | reconfiguring an entry leaves all bits outside the configuration fields |
| GsiRouting.ConfigureSetsFields | mecocoa/devsman-acpi-gsi.cpp:73-81 | bit 16 is set exactly when asked to mask; bits 0 to 11 are 0xA0, bit 13 is set exactly for active low, bit 15 exactly for level triggered, and bits 56 to 63 are the destination |
| GsiRouting.FindRoute | mecocoa/devsman-acpi-gsi.cpp:125-132 | the first active route of the line |
| GsiRouting.FreeRoute | mecocoa/devsman-acpi-gsi.cpp:134-141 | the first inactive route |
| GsiTables.Tables.FindGsi | mecocoa/devsman-acpi-gsi.cpp:125-132 | the scan loop returns that route |
| GsiTables.Tables.AllocateBinding | mecocoa/devsman-acpi-gsi.cpp:143-150 | the scan loop returns the first free and idle slot, turn by turn with the state machine |
| GsiTables.Tables.ReadEntry | mecocoa/devsman-acpi-gsi.cpp:167-173 | the argument tests and the unlocked read of the entry |
| GsiTables.Tables.OpenRoute | mecocoa/devsman-acpi-gsi.cpp:175-193 | under the lock, with the entry read before, finds, opens or refuses the route as the state machine does, with the matching status; a line it opens is masked and configured as asked |
| GsiTables.Tables.ScanSlot | mecocoa/devsman-acpi-gsi.cpp:143-150 | one turn of the scan, from whatever dispatch has left |
| GsiTables.Tables.NameSlot | mecocoa/devsman-acpi-gsi.cpp:205 | the step that sets the filter, from whatever dispatch has left |
| GsiTables.Tables.PassContext | mecocoa/devsman-acpi-gsi.cpp:206 | the step that sets the context, likewise |
| GsiTables.Tables.PublishSlot | mecocoa/devsman-acpi-gsi.cpp:207-228 | the step that makes the slot live, likewise; the handle is new, Unbind accepts it, and the line is configured with its mask bit clear |
| GsiTables.Tables.Bind | mecocoa/devsman-acpi-gsi.cpp:195-229 | the rest of Bind under the lock performs the steps of the state machine and returns a handle Unbind accepts, with the line unmasked |
| GsiTables.Tables.BeginUnbind | mecocoa/devsman-acpi-gsi.cpp:244-262 | the first locked section of Unbind, refusing other handles; with the last reference the line is masked |
| GsiTables.Tables.EndUnbind | mecocoa/devsman-acpi-gsi.cpp:264-276 | the last locked section: slot cleared and, for the last reference, entry restored and route freed |
| SoftTimerSafety.RunsSafe | mecocoa/handler-tim.cpp:56-304 | every interleaving keeps conservation, sorted chains, expiry and the announcement token |
| SoftTimerTheorems.TimersAreConserved | mecocoa/handler-tim.cpp:56-304 | every appended serial is in exactly one of main chain, retry chain, a processor, the dispatcher, or the record of fired, cancelled, dropped and requeued timers |
| SoftTimerTheorems.NeverEarly | mecocoa/handler-tim.cpp:183-195 | no timer runs before its timeout (which is the tick of its request plus the delay: SoftTimerDelays.NotBeforeTheDelay) |
| SoftTimerDelays.NotBeforeTheDelay | mecocoa/handler-tim.cpp:97-298 | over every run, with a history of what was asked when: a timer is called, dispatched or recorded as fired only when the delay asked for has passed since the request, carrying what was asked; one sent again waited two ticks |
| SoftTimerDelays.RefusedTimersRest | mecocoa/handler-tim.cpp:183-241 | over every run a timer whose event was refused is announced again only two ticks after the refusal |
| SoftTimerSections.RequestAddsOne | mecocoa/handler-tim.cpp:97-149 | a request adds one timer, due its delay from now with what was asked, under a new serial; without memory it only uses the serial up |
| SoftTimerSections.CollectsEarliest | mecocoa/handler-tim.cpp:166-201 | one turn of the collector takes the earliest callback that is due; with none due and nothing pending it announces the earliest deferred timer whose rest is over; otherwise it stops |
| SoftTimerSections.RevivesLongestRested | mecocoa/handler-tim.cpp:171-180 | at most one timer comes back from the retry chain, the one that rested longest, and only when nothing is pending |
| SoftTimerSections.DispatchesEarliest | mecocoa/handler-tim.cpp:255-272 | one turn of the dispatcher takes the earliest due deferred timer, or ends the announcement when there is none |
| SoftTimerSections.RefusalCounts | mecocoa/handler-tim.cpp:217-241 | a refusal adds one attempt: with the fifth the timer is dropped, before that it rests two ticks in the retry chain or, without memory, in place |
| SoftTimerSections.UndeliveredGoesOn | mecocoa/handler-tim.cpp:273-299 | only an undelivered driver message goes on: dropped with the fifth attempt, else appended again, due in two ticks with what it carried and one more attempt |
| SoftTimerSections.CancelWakesTakes | mecocoa/handler-tim.cpp:71-80 | cancelling the wake-ups of a thread takes exactly these from both chains |
| SoftTimerSections.CancelDeferredTakes | mecocoa/handler-tim.cpp:82-95 | cancelling deferred callbacks takes exactly those with the number and, if one is named, the function |
| SoftTimerSections.CancelRecords | mecocoa/handler-tim.cpp:151-161 | what is taken is recorded as cancelled, and nothing else |
| SoftTimerTheorems.PendingIsOneToken | mecocoa/handler-tim.cpp:163-270 | the pending flag is set exactly while one event is being delivered, queued or drained |
| SoftTimerTheorems.ClearsOnlyWhenDrained | mecocoa/handler-tim.cpp:257-269 | the dispatcher clears the flag only when no expired deferred timer is left |
| SoftTimerTheorems.LeavesNothingDue | mecocoa/handler-tim.cpp:166-206 | a processor stops collecting only when no plain callback is due and no deferred timer may be announced |
| SoftTimerTheorems.DroppedAfterFiveOrOutOfMemory | mecocoa/handler-tim.cpp:218-298 | a dropped timer failed exactly five deliveries, or fewer and could not be appended again |
| SoftTimerTheorems.FiveAttempts | mecocoa/handler-tim.cpp:218-298 | in runs whose re-appends find memory every drop follows five attempts |
| SoftTimerRefusals.DropsFollowRefusals | mecocoa/handler-tim.cpp:218-298 | over every run a timer dropped for want of delivery was refused exactly five times, counted through all serials it was requeued under; one lost for want of memory as often as its counter says, fewer than five |
| SoftTimerTheorems.LostIffOutOfMemory | mecocoa/handler-tim.cpp:288-299 | a message below its fifth attempt is lost if and only if its re-append finds no memory |
| SoftTimerTheorems.DroppedAfterOneAttempt | mecocoa/handler-tim.cpp:288-299 | a run that loses a timer after one attempt |
| SoftTimerChains.FindTimerBySerial | mecocoa/handler-tim.cpp:64-69 | the first timer with the serial |
| SoftTimerChains.CancelFromChain | mecocoa/handler-tim.cpp:71-95 | keeps exactly the timers that do not match, and counts the others |
| SoftTimerChains.Manager.AppendTimer | mecocoa/handler-tim.cpp:97-105 | a new serial and, with memory, exactly one more timer: the one given, with that serial and due at the tick plus the delay |
| SoftTimerChains.Manager.Cancel | mecocoa/handler-tim.cpp:151-161 | cancels in both chains and returns the number |
| SoftTimerChains.Manager.CollectSection | mecocoa/handler-tim.cpp:169-201 | one locked turn of the collector performs the state machine's step |
| SoftTimerChains.Manager.FailSection | mecocoa/handler-tim.cpp:217-241 | the section after a refused event: attempt counted, timer dropped, moved to the retry chain or marked in place |
| SoftTimerChains.Manager.DrainSection | mecocoa/handler-tim.cpp:255-272 | one locked turn of the dispatcher performs the state machine's step |
| StorageWait.NoLostWakeUp | mecocoa/devsman-storage.cpp:262-346 | once the request is complete and all notifications have finished, the waiter is not blocked, even if the timer never fires |
| StorageWait.SleeperWillBeWoken | mecocoa/devsman-storage.cpp:262-266 | while the waiter sleeps on a complete request, a notification in progress will still load its thread and unblock it |
| StorageWait.DoneMeansCompleteOrTimedOut | mecocoa/devsman-storage.cpp:298-346 | the wait ends complete or timed out, unregistered and unblocked |
| StorageWait.WaitFinishes | mecocoa/devsman-storage.cpp:296-346 | once the request is complete and all notifications have finished, the thread, wherever it stands, ends within six steps of its own, and not as timed out unless it had given up before |
| StorageWait.CompleteAtOnce | mecocoa/devsman-storage.cpp:296-302 | a request already complete is found by the first probe, without sleep or timeout |
| StorageWait.TimeoutIsReported | mecocoa/devsman-storage.cpp:303-311 | a thread that gives up reports the timeout, and only such a thread |
| StorageWait.RecheckSafe | mecocoa/devsman-storage.cpp:320-333 | the recheck after Block is what closes the race with an uncounted notification |
| SleepLocks.MutexHandsOff | mecocoa/taskman-lock.cpp:41-76 | over every run: locked exactly while owned, a queue implies locked, first in first out, never more than one grant outstanding |
| SleepLocks.MutexSleepersAreWoken | mecocoa/taskman-lock.cpp:41-76 | a thread is blocked exactly while it queues or the release that granted it the lock has yet to unblock it |
| SleepLocks.SemaphoreCounts | mecocoa/taskman-lock.cpp:79-119 | over every run: value is initial plus releases minus grants, zero while someone waits, first in first out |
| SleepLocks.Mutex.Acquire | mecocoa/taskman-lock.cpp:42-58 | takes the lock or queues the caller, which sleeps exactly when it did not get it |
| SleepLocks.Mutex.Release | mecocoa/taskman-lock.cpp:60-76 | hands the lock to the longest waiter or frees it |
| SleepLocks.Semaphore.Acquire | mecocoa/taskman-lock.cpp:80-100 | takes a unit or queues the caller |
| SleepLocks.Semaphore.Release | mecocoa/taskman-lock.cpp:103-119 | hands the unit to the longest waiter or returns it |
| AcpiPropertyArena.CountValue | mecocoa/devsman-acpi.cpp:3061-3082 | accepts exactly the supported trees of at most nine levels whose totals fit a word, and adds up their sizes |
| AcpiProperties.SupportedIffNodes | mecocoa/devsman-acpi.cpp:3061-3082 | a tree is supported exactly when every value in it is of a known type, every reference formattable, and none lies more than eight arrays deep |
| AcpiPropertyArena.Arena.CopyBytes | mecocoa/devsman-acpi.cpp:3084-3093 | copies a run, terminated if asked, exactly when it fits, and disturbs no byte before it |
| AcpiPropertyArena.Arena.CopyValue | mecocoa/devsman-acpi.cpp:3095-3138 | succeeds exactly when the tree fits what is left of the arenas, ends at the counted sizes, places the tree and disturbs nothing placed before |
| AcpiPropertyArena.Populate | mecocoa/devsman-acpi.cpp:3150-3242 | succeeds exactly for supported lists within the uint16 and uint32 limits, with arenas of exactly the counted sizes; the copy pass then never fails |
| AcpiProperties.DecodeRebuilds | mecocoa/devsman-acpi.cpp:3095-3138 | reading a placed record back rebuilds the source tree |
| AcpiProperties.PropertyRebuilt | mecocoa/devsman-acpi.cpp:3211-3222 | every property of a populated device reads back with its name and tree |
| AcpiProperties.ListTiles | mecocoa/devsman-acpi.cpp:3211-3222 | the array slices and byte runs of a populated device tile the two arenas without gap or overlap |
| AcpiProperties.TilesDisjoint | mecocoa/devsman-acpi.cpp:3125-3134 | tiling extents are pairwise disjoint |
| AcpiProperties.PlacedFrame | mecocoa/devsman-acpi.cpp:3095-3138 | a placed value depends only on its own stretch of the arenas |
| AcpiPresence.EvaluateStatuses | mecocoa/devsman-acpi.cpp:1938-1987 | the depth-ordered in-place pass computes the top-down reference evaluation of every registered device, settles each record by the devices above it field by field, makes a device present exactly when it and every device above are registered and show themselves present, and touches no other record |
| AcpiPresence.PresentIff | mecocoa/devsman-acpi.cpp:1916-1960 | a device ends up present exactly when it and every device above it are registered and show themselves present by status method, earlier status or PCI function |
| AcpiPresence.DepthOf | mecocoa/devsman-acpi.cpp:1904-1914 | the number of devices on the way to the root |
| AcpiPresence.ParentStateOf | mecocoa/devsman-acpi.cpp:1916-1936 | the state of the first deciding device above |
| AcpiPresence.PresenceIsClosed | mecocoa/devsman-acpi.cpp:2385-2389 | a device counted present has only registered and present device ancestors |
| AcpiPresence.AbsenceIsInherited | mecocoa/devsman-acpi.cpp:1916-1955 | a device below an absent one is never present, and absent when all devices between are registered |
| AcpiPresence.AbsentExactlyWhen | mecocoa/devsman-acpi.cpp:1916-1960 | exactly when a device below an absent one ends up absent |
| AcpiPresence.AbsenceCanStop | mecocoa/devsman-acpi.cpp:1926-1927 | a namespace in which an unregistered device stops absence from being inherited |
| HidTouchHistory.BeginAndEndAlternate | devdriv/hid.cpp:752-833 | over every sequence of reports and releases, Begin and End of each contact key alternate starting with Begin, and a contact is active exactly after a Begin |
| HidTouchHistory.PrimaryIsActive | devdriv/hid.cpp:784-808 | a valid primary contact is an active one |
| HidTouchHistory.MotionAddsUp | devdriv/hid.cpp:789-801 | while a contact stays primary, 256 times the emitted motion plus the residual is its displacement less the drift of samples without confidence, and less than one unit is owed |
| HidTouchHistory.ConfidentSamplesDoNotDrift | devdriv/hid.cpp:789-801 | a confident sample of the primary contact adds no drift and keeps it primary |
| HidTouchHistory.TrustedMotionAddsUp | devdriv/hid.cpp:789-801 | over every run of confident touchpad samples the emitted motion plus the residual is the whole displacement of the primary contact |
| HidTouchHistory.AlpsTurnsSeen | devdriv/hid.cpp:525-576 | observers of an ALPS pad see Begin and End of each contact take turns if and only if no release finds a finger on the pad |
| HidTouchHistory.TurnsSeenElsewhere | devdriv/hid.cpp:752-833 | over every run whose samples carry the report of their key, observers see Begin and End of each contact take turns |
| HidTouchHistory.SampleGood | devdriv/hid.cpp:525-576 | one sample keeps the table, the log and the motion account in step |
| HidTouchSections.SampleFindsPlace | devdriv/hid.cpp:426-438 | a sample finds the active contact of its key, else, if it touches, the first free place |
| HidTouchSections.SampleIsShown | devdriv/hid.cpp:754-812 | the contact takes the coordinates the sample has and keeps the others; observers are shown just these, with Begin for a new contact and End for a lifted one |
| HidTouchSections.PrimaryFollowsTouch | devdriv/hid.cpp:784-808 | the first touching contact of a touchpad becomes primary and stays so until it is lifted |
| HidTouchSections.ReportLiftsForgotten | devdriv/hid.cpp:813-830 | a report that lists all its contacts lifts exactly those no sample mentioned; another lifts none |
| HidTouchSections.ReleaseEmpties | devdriv/hid.cpp:858-873 | a release leaves no contact active |
| HidInputRuntime.Runtime.FindTouchContact | devdriv/hid.cpp:426-438 | the active contact of the key, else the first free place if one may be taken |
| HidInputRuntime.Runtime.DecodeSample | devdriv/hid.cpp:754-812 | one sample performs the state machine's step on the table |
| HidInputRuntime.Runtime.DecodeReport | devdriv/hid.cpp:752-833 | a whole report performs the state machine's action |
| HidInputRuntime.Runtime.EndUnseenContacts | devdriv/hid.cpp:813-830 | lifts exactly the active contacts of the report that were not seen |
| HidInputRuntime.Runtime.ReleaseState | devdriv/hid.cpp:858-873 | ends every active contact and clears the table and the primary contact |
| HidInputRuntime.NormalizeInputCoordinate | devdriv/hid.cpp:404-413 | the result lies in 0..65535 |
| HidInputRuntime.NormalizedEnds | devdriv/hid.cpp:404-413 | the lower end of the range lands on 0; the upper end on 65535 if and only if the product fits a word or the range is a multiple of 65535 |
| HidTouchSections.NormalizedShare | devdriv/hid.cpp:404-413 | the result is the share of 65535 the distance has of the range, rounded down, or where that product leaves 64 bits the distance in the smallest steps that keep the range within 65535 |
| HidTouchSections.NormalizedOrder | devdriv/hid.cpp:404-413 | as long as the product fits, larger values never come out smaller |
| HidInputRuntime.RouteMotion | devdriv/hid.cpp:885-904 | the chunks sent to the mouse handler fit signed bytes and add up to the event |
| UsbTree.MarkedDevicesAreNeeded | mecocoa/devsman-usb.cpp:98-161 | over every run of registrations and removals, a deferred-disconnected device has below it a USB device that is not deferred itself |
| UsbTree.RemoveGood | mecocoa/devsman-usb.cpp:514-528 | a removal keeps that rule and leaves every other live USB device in place |
| UsbTree.PrunedGood | mecocoa/devsman-usb.cpp:147-161 | climbing from a removed device to the root releases exactly the deferred devices that lost their last USB device |
| UsbTree.ClearedGood | mecocoa/devsman-usb.cpp:110-127 | marking a device defers it and no other USB device |
| UsbDeviceTree.DeviceTree.HasUsbDescendant | mecocoa/devsman-usb.cpp:100-108 | the depth-first search finds a USB device exactly when one hangs below |
| UsbDeviceTree.DeviceTree.ClearBinding | mecocoa/devsman-usb.cpp:110-127 | clears exactly the bindings of that driver reached without passing another USB device |
| UsbDeviceTree.DeviceTree.CutNode | mecocoa/devsman.cpp:486-550 | detaches the node and releases exactly it and everything below |
| UsbDeviceTree.DeviceTree.Prune | mecocoa/devsman-usb.cpp:147-161 | the upward loop terminates and computes the pruning |
| UsbDeviceTree.DeviceTree.FindReusable | mecocoa/devsman-usb.cpp:135-145 | the first child of that name which is a USB device and not deferred |
| UsbDeviceTree.DeviceTree.RegisterUsbDevice | mecocoa/devsman-usb.cpp:421-466 | binds a reusable child again if a driver is named, or appends a fresh device when there is none |
| UsbDeviceTree.DeviceTree.RemoveUsbDevice | mecocoa/devsman-usb.cpp:514-528 | marks the device or removes it and prunes, with the returned verdict |
| Calendar.TimeToTm | accmlib/lib_datime.cpp:72-124 | the fields are in range, agree with each other and describe the instant, for every time including before 1970 |
| Calendar.MkTime | accmlib/lib_datime.cpp:136-230 | returns the instant the fields describe, and the fields written always describe it too, with the time of day, month, weekday and day of the year in order; they are its broken-down time if and only if days were carried or the day lies in its month |
| Calendar.RoundTrip | accmlib/lib_datime.cpp:72-230 | mktime of time_to_tm returns the time with the same fields |
| Calendar.BreaksDownUnique | accmlib/lib_datime.cpp:72-124 | broken-down time is unique apart from tm_isdst |
| Calendar.DayOutsideMonth | accmlib/lib_datime.cpp:188-192 | mktime of 1970-01-32 returns 31 days and writes fields that are not its broken-down time |
| Calendar.MonthsTile | accmlib/lib_datime.cpp:40-56 | the month length and cumulative tables agree with each other and with the year |
| Calendar.YearOf | accmlib/lib_datime.cpp:92-103 | the year loops find the year and the day in it |
| Calendar.MonthOf | accmlib/lib_datime.cpp:106-111 | the month loop finds the month and the day in it |
| CalendarGregorian.YearStarts | accmlib/lib_datime.cpp:35-38 | for every year, before or after 1970, its first day is 365 times the years since 1970 plus the multiples of 4 less those of 100 plus those of 400 |
| CalendarGregorian.Period | accmlib/lib_datime.cpp:35-38 | the calendar repeats after 400 years of 146097 days, a whole number of weeks |
| CalendarGregorian.MonthLengths | accmlib/lib_datime.cpp:40-56 | the months have their 31, 30, 28 or 29 days |
| CalendarGregorian.CivilFields | accmlib/lib_datime.cpp:72-124 | time_to_tm gives the date whose day number by the closed civil formula is that of the time, with weekdays in turn from a Thursday |
| CalendarGregorian.InstantCarries | accmlib/lib_datime.cpp:136-230 | in the instant of mktime sixty seconds are a minute, sixty minutes an hour, 24 hours a day wherever it stands in its month, and twelve months a year |
| CalendarGregorian.KnownDates | accmlib/lib_datime.cpp:72-124 | the fields of the epoch, of the second before it and of the leap day of 2000 |
| DnsNames.EncodedNameReadsBack | accmlib/lib_network.cpp:675-758 | a host of 1 to 31 valid labels that fits both buffers encodes to its wire form and reads back as itself |
| DnsNames.AnyEncodingReadsBack | accmlib/lib_network.cpp:719-758 | every encoding reads back as the host without trailing dot, or one dot for the root, if and only if it has at most 31 labels and the text fits |
| DnsNames.EncodesLabels | accmlib/lib_network.cpp:675-695 | valid labels, with or without a trailing dot, encode to their wire form exactly when it fits |
| DnsNames.OnlyLabelsEncode | accmlib/lib_network.cpp:675-695 | nothing else encodes |
| DnsNames.TooManyLabels | accmlib/lib_network.cpp:726-757 | with 32 or more labels the reader gives up |
| DnsNames.SkipFollowsRead | accmlib/lib_network.cpp:697-758 | on every packet, whenever reading succeeds skipping succeeds at the same next offset |
| DnsNames.EncodeDnsName | accmlib/lib_network.cpp:675-695 | the loop on the buffer produces the encoding or fails with it |
| DnsNames.SkipDnsName | accmlib/lib_network.cpp:697-717 | the loop stops within 32 turns with the skipped offset |
| DnsNames.ReadDnsName | accmlib/lib_network.cpp:719-758 | the loop stops within 32 turns, also on pointer loops, with the terminated text and the next offset of the specification, which DnsPaths states by paths of labels and pointers |
| DnsPaths.ReadsThePath | accmlib/lib_network.cpp:719-758 | on every packet, a name that follows a path of labels and pointers (two bytes, the target in the low 14 bits) reads as its labels and ends behind its zero length or first pointer, if and only if the path has at most 31 parts and the text fits |
| DnsPaths.ReadsIffPath | accmlib/lib_network.cpp:719-758 | a name reads, given room, exactly when it follows some path of at most 31 parts, so pointer loops never do |
| DnsPaths.CompressedNameReads | accmlib/lib_network.cpp:732-746 | labels followed by a pointer to the wire form of others read as all of them and end behind the pointer, if and only if there are at most 30 labels and the text fits |
| DnsPaths.SkipsIffLeads | accmlib/lib_network.cpp:697-717 | skipping ends at an offset exactly when at most 31 labels lead there through a zero length or a pointer |
| AudioTrack.Track.Copy | mecocoa/devsman-au.cpp:349-378 | reports every byte it could read of what fits; the ring then holds the old bytes followed by those of the stretches read to their end |
| AudioTrack.ReportsWhatItTook | mecocoa/devsman-au.cpp:349-378 | the count reported is the bytes taken over if and only if all that fits can be read, none of it, or a part ending where the ring does; it is never less |
| AudioTrack.ReportsTooMuch | mecocoa/devsman-au.cpp:366-369 | a copy that reports one byte and holds none |
| AudioTrack.Track.Fetch | mecocoa/devsman-au.cpp:145-187 | takes and decodes the oldest frame or changes nothing; all bytes accepted since begin are those played followed by those held |
| AudioTrack.Track.Advance | mecocoa/devsman-au.cpp:208-217 | moves the phase on and fetches the frames it passes, keeping the frame account exact |
| AudioTrack.Track.NextSample | mecocoa/devsman-au.cpp:189-228 | the sample, its absence and what is left are those of the specification over queue, settings and resampler; the sample fits 16 bits and the frame account counts the output |
| AudioTrack.FramesPerOutputs | mecocoa/devsman-au.cpp:193-217 | for every track played from its start and every k: output k interpolates between frames floor(k * step / 65536) and the next, at phase k * step mod 65536, and exactly 2 + floor(k * step / 65536) frames have left the queue |
| AudioTrack.OutputBetweenFrames | mecocoa/devsman-au.cpp:193-206 | before mute and volume that output lies between these two frames |
| AudioTrack.BetweenNeighbours | mecocoa/devsman-au.cpp:204-206 | an interpolated value lies between its neighbours |
| AudioTrack.HeldGrow | mecocoa/devsman-au.cpp:349-378 | bytes written behind the held ones join them and disturb none, across the end of the ring |
| AudioTrack.MixedByteOrder | mecocoa/devsman-au.cpp:251-256 | mixing is monotone, silence is 128, overload saturates at 0 and 255 |
| AudioTrack.MixFrame | mecocoa/devsman-au.cpp:235-249 | the loop over the tracks adds up exactly what is heard of each, and moves each on by one output |
| AudioTrack.Refill | mecocoa/devsman-au.cpp:230-260 | every byte pair is the clamped sum of the tracks played alone; no sum leaves the range of eight 16-bit samples, and an odd last byte is not touched |
| AudioSamples.DecodesChannels | mecocoa/devsman-au.cpp:153-181 | each channel comes from its own bytes: a byte is 256 times its distance from 128, a word the signed little-endian value; a single channel is heard on both sides |
| AudioSamples.WordsDecodeBack | mecocoa/devsman-au.cpp:171-181 | 16-bit stereo frames decode to the values encoded |
| AudioSamples.StepIsRatio | mecocoa/devsman-au.cpp:193 | the step is the rate over 44100 in 65536ths, rounded down |
| AudioSamples.InterpolatesLinearly | mecocoa/devsman-au.cpp:204-206 | interpolation is linear, rounded down |
| AudioSamples.VolumeApplies | mecocoa/devsman-au.cpp:220-226 | muted or at volume 0 a track is silent, below 100 each side is that percentage rounded towards zero, otherwise unchanged |
| AudioSamples.PlainFrames | mecocoa/devsman-au.cpp:190-192 | at the master rate output k is frame k, and exactly the frames before it have left the queue |
| AudioSamples.SilentTrackStays | mecocoa/devsman-au.cpp:235-249 | a closed or paused track adds nothing and keeps its place |
| AudioSamples.DryTrack | mecocoa/devsman-au.cpp:235-249 | a track that has run dry adds nothing; a temporary one is closed then |
| AudioSamples.MixedByteExact | mecocoa/devsman-au.cpp:251-256 | a sum in range becomes its 256th part around 128, one out of range 0 or 255 |

## Left out

- Statistics counters, logging, boot-time fixtures and name tables: they carry no state the properties depend on.
- Port, MMIO, MSR, PCI, IOMMU, TLB and page-table encoding: a mapping is "this alias maps this page, writable or not", the I/O APIC is a table of entries.
- The AML executor and namespace, `_DSD` and `_DSM` evaluation, the HID report-descriptor parser and other `uni::` library code are not part of this model; their results are parameters.
- The reader side of the user-copy epoch: once `WaitForSharedFileCopies` returns no earlier copy is still running.
- SharedPageLifeSafety.RunsSafe: what a process does to one address follows its `mutex_mapping`, and the area around a mapping retains the inode; mapping and cache counters do not overflow; the limits of eviction and its order are those of `FileCacheTable` and are not repeated. The contents of Ready pages are the subject of `SharedPages`, with fill and publication as one section.
- Fork beyond its changes to leaf entries and pins: copying pages, stacks and descriptors is not modelled; the other mappings of the child are `Map` sections.
- Records, chains, queues and aliases are values held in fields and arrays, not linked heap nodes: aliasing of nodes is not modelled.
- SharedPageCoherence.RunsRefineFlatFiles: the snapshot of the pages of an inode is assumed complete, as `SnapshotInode` makes it; when its vector cannot grow the section fails without effect, which is not a separate case.
- SharedPageCoherence.WriteCoherent: a backend that reports more bytes than it was given is taken to have accepted all of them; the kernel then fails the call.
- GsiSafety.RunsSafe: the unmask write of Bind succeeds; its rollback leaves dispatch undrained.
- GsiTables.Tables.Bind: no processor dispatches between its steps; `ScanSlot`, `NameSlot`, `PassContext` and `PublishSlot` are the same steps one by one, with dispatch in between.
- SoftTimerChains.Manager.AppendTimer: the sorted insertion of `Dchain` is taken with equal keys kept in order; ticks do not wrap.
- StorageWait.NoLostWakeUp: for one waiter, and a driver that completes the request before notifying; `StorageTimer`, `StorageDmaBuffer` and the adapter messages are not modelled.
- Spinlock and the interrupt flag: the guard makes each lock operation one section.
- AcpiPresence.EvaluateStatuses: the namespace is a forest within the depth limit, paths are unique and object 0 is the root scope.
- HidTouchHistory.BeginAndEndAlternate: keyboard, wheel, absolute pointer and button events are not in the log.
- UsbDeviceTree.DeviceTree.RegisterUsbDevice: names are the set of nodes that carry the name; identification fields and resources are not modelled.
- Calendar.MkTime: fields are unbounded integers; overflow of int arithmetic is not modelled. Formatting and clock calls are left out.
- DnsNames.ReadDnsName: the DNS socket exchange, caches and health tables around it are left out.
- AudioTrack.Track.Copy: the source process is a byte sequence with a readable prefix.
- AudioTrack.Refill: the sound card, its DMA and the audio service loop are left out.
- Windows, desktop, consoles, fonts, the shell, system-call wrappers and the remaining network library: user interface and thin wrappers.
