/** What the life of shared pages promises, in every state any interleaving can reach. */
module SharedPageLifeTheorems {
  import opened FileBytes
  import opened Counting
  import opened SharedPageLife
  import opened SharedPageLifeSafety
  import C = FileCache
  import P = SharedPages

  /** Nothing was looked up yet. */
  ghost predicate Fresh(s: State) {
    s.vfs == None && s.table == map[] && s.entries == map[] && s.pages == map[] && s.mappings == map[] && s.threads == map[]
  }

  ghost predicate Reachable(s: State) {
    exists start, run :: Fresh(start) && s == Run(start, run)
  }

  lemma ReachableSafe(s: State)
    requires Reachable(s)
    ensures Safe(s)
  {
    var start, run :| Fresh(start) && s == Run(start, run);
    RunsSafe(start, run);
  }

  // ---- Filling ----

  /** A key has one filler at a time, it holds the completion mutex, and the page is Loading until it has completed it. */
  lemma OneFillerPerKey(s: State, t: ThreadId, u: ThreadId)
    requires Reachable(s) && t in s.threads && u in s.threads
    requires Plodding(s.threads[t]) && Plodding(s.threads[u]) && s.threads[t].key == s.threads[u].key
    ensures t == u
    ensures s.threads[t].entry in s.entries && s.entries[s.threads[t].entry].filler == Some(t)
    ensures s.entries[s.threads[t].entry].state == C.Loading && Recorded(s, s.threads[t].entry)
  {
    hide Reachable, Safe;
    ReachableSafe(s);
    ThreadFacts(s, t);
    ThreadFacts(s, u);
  }

  /** Whoever gets the completion mutex finds a final state. */
  lemma WaitersSeeFinalState(s: State, e: EntryId)
    requires Reachable(s) && e in s.entries && s.entries[e].filler == None
    ensures s.entries[e].state != C.Loading
  {
    hide Reachable, Safe;
    ReachableSafe(s);
    EntryFacts(s, e);
  }

  predicate SameOutcome(s: State, s': State, e: EntryId) {
    e in s.entries && e in s'.entries ==>
      && s'.entries[e].key == s.entries[e].key && s'.entries[e].state == s.entries[e].state
      && s'.entries[e].physical == s.entries[e].physical
  }

  /** A filler completes once: no later section changes the outcome of a completed page. */
  lemma CompletionIsFinal(s: State, a: Action, e: EntryId)
    requires Reachable(s) && e in s.entries && s.entries[e].state != C.Loading
    ensures SameOutcome(s, Apply(s, a), e)
  {
    hide Reachable, Safe, SameOutcome, DoComplete, DoInsert;
    ReachableSafe(s);
    if a.Complete? {
      CompleteKeepsOutcome(s, a.thread, e);
    } else if a.Insert? {
      InsertKeepsOutcome(s, a.thread, e);
    } else {
      OthersKeepOutcome(s, a, e);
    }
  }

  lemma CompleteKeepsOutcome(s: State, t: ThreadId, e: EntryId)
    requires Safe(s) && e in s.entries && s.entries[e].state != C.Loading
    ensures SameOutcome(s, DoComplete(s, t), e)
  {
    hide Safe;
    if t in s.threads {
      ThreadFacts(s, t);
    }
  }

  lemma InsertKeepsOutcome(s: State, t: ThreadId, e: EntryId)
    ensures SameOutcome(s, DoInsert(s, t), e)
  {
    hide DroppedPages;
  }

  lemma UnlockKeepsOutcome(s: State, t: ThreadId, e: EntryId)
    ensures SameOutcome(s, DoUnlock(s, t), e) && DoUnlock(s, t).table == s.table
  {
    hide DroppedPages;
  }

  lemma AwaitKeepsOutcome(s: State, t: ThreadId, e: EntryId)
    ensures SameOutcome(s, DoAwait(s, t), e) && DoAwait(s, t).table == s.table
  {
    hide DroppedPages;
  }

  lemma FinishKeepsOutcome(s: State, t: ThreadId, e: EntryId)
    ensures SameOutcome(s, DoFinish(s, t), e) && DoFinish(s, t).table == s.table
  {
    hide DroppedPages;
  }

  /** A thread that lets go of a page leaves its outcome and the records. */
  lemma LeavingKeepsOutcome(s: State, a: Action, e: EntryId)
    requires a.Unlock? || a.Await? || a.Finish?
    ensures SameOutcome(s, Apply(s, a), e) && Apply(s, a).table == s.table
  {
    hide DoUnlock, DoAwait, DoFinish, SameOutcome;
    UnlockKeepsOutcome(s, a.thread, e);
    AwaitKeepsOutcome(s, a.thread, e);
    FinishKeepsOutcome(s, a.thread, e);
  }

  lemma RemovalKeepsOutcome(s: State, a: Action, e: EntryId)
    requires a.Detach? || a.Forget?
    ensures SameOutcome(s, Apply(s, a), e)
  {
    hide DroppedPages, DroppedEntries, Inactive;
    if a.key in s.table {
      DroppedKeepsOutcome(s.entries, s.table[a.key], e);
    }
  }

  predicate Drops(a: Action) {
    a.Unlock? || a.Await? || a.Finish? || a.Detach? || a.Forget?
  }

  lemma DroppedKeepsOutcome(entries: map<EntryId, Entry>, x: EntryId, e: EntryId)
    ensures e in entries && e in DroppedEntries(entries, x) ==>
      DroppedEntries(entries, x)[e].(owners := 0) == entries[e].(owners := 0)
  {
  }

  lemma FindingKeepsOutcome(s: State, a: Action, e: EntryId)
    requires a.Look? || a.Hit? || a.Miss? || a.Signal?
    ensures SameOutcome(s, Apply(s, a), e) && Apply(s, a).table == s.table
  {
  }

  lemma FillingKeepsOutcome(s: State, a: Action, e: EntryId)
    requires a.Allocate? || a.Fill? || a.Adopt? || a.RetainCache? || a.ReleaseFirstMapping?
    ensures SameOutcome(s, Apply(s, a), e) && Apply(s, a).table == s.table
  {
    hide Unmapped, C.ReleaseCache, PaddedPage;
  }

  lemma MappingKeepsOutcome(s: State, a: Action, e: EntryId)
    requires a.RetainMapping? || a.Inherit? || a.Relook? || a.Install? || a.GiveBack?
    ensures SameOutcome(s, Apply(s, a), e) && Apply(s, a).table == s.table
  {
    hide Unmapped, OneMoreMapping;
  }

  lemma UsingKeepsOutcome(s: State, a: Action, e: EntryId)
    requires a.StartStore? || a.MarkDirty? || a.StartFlush? || a.WriteBack? || a.ReleaseInode? || a.Clean?
    ensures SameOutcome(s, Apply(s, a), e) && Apply(s, a).table == s.table
  {
  }

  lemma EndingKeepsOutcome(s: State, a: Action, e: EntryId)
    requires !Finds(a) && !Uses(a) && !Drops(a)
    ensures SameOutcome(s, Apply(s, a), e) && Apply(s, a).table == s.table
  {
    hide Unmapped, Unreferenced;
  }

  lemma OthersKeepOutcome(s: State, a: Action, e: EntryId)
    requires !a.Complete? && !a.Insert?
    ensures SameOutcome(s, Apply(s, a), e)
    ensures !a.Detach? && !a.Forget? ==> Apply(s, a).table == s.table
  {
    hide SameOutcome, Apply;
    if Drops(a) {
      if a.Detach? || a.Forget? { RemovalKeepsOutcome(s, a, e); } else { LeavingKeepsOutcome(s, a, e); }
    } else if a.Look? || a.Hit? || a.Miss? || a.Signal? {
      FindingKeepsOutcome(s, a, e);
    } else if Finds(a) {
      FillingKeepsOutcome(s, a, e);
    } else if a.RetainMapping? || a.Inherit? || a.Relook? || a.Install? || a.GiveBack? {
      MappingKeepsOutcome(s, a, e);
    } else if Uses(a) {
      UsingKeepsOutcome(s, a, e);
    } else {
      EndingKeepsOutcome(s, a, e);
    }
  }

  /**
   A page is published with what the backend holds at that moment, because vfs_lock is held from the read to
   the publication: the two together are the one section `SharedPages.DoPublish`.
   */
  lemma PublishedPageIsCurrent(s: State, t: ThreadId, shared: P.State)
    requires Reachable(s) && t in s.threads && s.threads[t].Owning?
    requires s.threads[t].key.identity in shared.files && s.threads[t].key !in shared.pages
    requires s.threads[t].key.identity in s.files ==> shared.files[s.threads[t].key.identity].bytes == s.files[s.threads[t].key.identity]
    ensures var pc := s.threads[t];
      && s.vfs == Some(t) && pc.key.identity in s.files && pc.page in s.pages
      && Backed(DoComplete(s, t), pc.key, pc.page)
      && P.DoPublish(shared, pc.key).ok
      && P.DoPublish(shared, pc.key).state.pages[pc.key].bytes == DoComplete(s, t).pages[pc.page].bytes
  {
    hide Reachable, Safe;
    ReachableSafe(s);
    ThreadFacts(s, t);
  }

  /** Once `AdoptManagedPage` succeeded, neither of the two failure exits behind it is taken. */
  lemma NoFailureAfterAdoption(s: State, t: ThreadId)
    requires Reachable(s) && t in s.threads
    ensures s.threads[t].Adopted? ==> PcOf(DoRetainCache(s, t), t).Retained?
    ensures s.threads[t].Retained? ==> PcOf(DoReleaseFirstMapping(s, t), t).Owning?
  {
    hide Reachable, Safe;
    ReachableSafe(s);
    ThreadFacts(s, t);
    if s.threads[t].Retained? {
      PageFacts(s, s.threads[t].page);
      assert t in Mappers(s.threads, s.threads[t].page);
    }
  }

  // ---- Mapping references ----

  /** The page of every mapping reference a thread carries is there, and giving the reference back succeeds. */
  lemma CarriedReferenceCounts(s: State, t: ThreadId, p: PageId)
    requires Reachable(s) && t in s.threads && HoldsMapping(s.threads[t], p)
    ensures p in s.pages && s.pages[p].managed && s.pages[p].mapping >= 1
  {
    hide Reachable, Safe;
    ReachableSafe(s);
    CarriedPage(s, t, p);
    PageFacts(s, p);
    assert t in Mappers(s.threads, p);
  }

  lemma CarriedPage(s: State, t: ThreadId, p: PageId)
    requires Safe(s) && t in s.threads && HoldsMapping(s.threads[t], p)
    ensures p in s.pages && s.pages[p].managed
  {
    hide Safe;
    ThreadFacts(s, t);
    if !s.threads[t].Adopted? && !s.threads[t].Retained? {
      BackedPage(s, s.threads[t].key, p);
    }
  }

  /**
   Between taking the mapping reference and looking the page up again nobody can remove the record: the second
   lookup finds the same page, Ready and at the same address, so its comparison never fails.
   */
  lemma SecondLookupFindsThePage(s: State, t: ThreadId)
    requires Reachable(s) && t in s.threads
    ensures !s.threads[t].Lost?
    ensures s.threads[t].Carrying? ==> Backed(s, s.threads[t].key, s.threads[t].page)
    ensures HasErrand(s.threads[t]) && s.threads[t].errand.Join? ==>
      && s.threads[t].entry in s.entries && Recorded(s, s.threads[t].entry)
      && s.entries[s.threads[t].entry].state == C.Ready
      && s.entries[s.threads[t].entry].physical == Some(s.threads[t].errand.page)
  {
    hide Reachable, Safe;
    ReachableSafe(s);
    ThreadFacts(s, t);
  }

  /** Unmapping finds the alias it registered, and then gives back a reference that is counted. */
  lemma UnmappingSucceeds(s: State, t: ThreadId, m: MappingId)
    requires Reachable(s) && t in s.threads && Leaves(s.threads[t], m)
    ensures m in s.mappings && s.mappings[m].page in s.pages && s.pages[s.mappings[m].page].mapping >= 1
    ensures HasErrand(s.threads[t]) && s.threads[t].errand == Leave(m) ==>
      s.threads[t].entry in s.entries && m in s.entries[s.threads[t].entry].aliases
  {
    hide Reachable, Safe;
    ReachableSafe(s);
    ThreadFacts(s, t);
    MappingFacts(s, m);
    MappedPage(s, m);
    assert m in Mapped(s.mappings, s.mappings[m].page);
  }

  // ---- Destruction ----

  /** A dirty or mapped page is Ready, stands in the table and belongs to an inode that is alive. */
  lemma UsedPagesStay(s: State, e: EntryId)
    requires Reachable(s) && e in s.entries && !CleanPage(s.entries[e])
    ensures Recorded(s, e) && s.entries[e].state == C.Ready && s.entries[e].key.identity in s.files
    ensures !Inactive(s, s.entries[e].key)
  {
    hide Reachable, Safe;
    ReachableSafe(s);
    EntryFacts(s, e);
  }

  /** Whatever section destroys a page, it is neither dirty nor mapped. */
  lemma DestroyedPagesAreClean(s: State, a: Action, e: EntryId)
    requires Reachable(s) && e in s.entries && e !in Apply(s, a).entries
    ensures CleanPage(s.entries[e])
  {
    hide Reachable, Safe, Apply, CleanPage;
    ReachableSafe(s);
    SectionSafe(s, a);
    if !CleanPage(s.entries[e]) {
      UsedPagesStay(s, e);
      UsedRecordStays(s, a, s.entries[e].key);
      RecordFacts(Apply(s, a), s.entries[e].key);
    }
  }

  lemma UsedRecordStays(s: State, a: Action, key: Key)
    requires Safe(s) && key in s.table && s.table[key] in s.entries && key.identity in s.files
    requires s.entries[s.table[key]].state == C.Ready && !Inactive(s, key)
    ensures key in Apply(s, a).table && Apply(s, a).table[key] == s.table[key]
  {
    hide Safe, Inactive, DoComplete, DoInsert, DoDetach, DoForget;
    if a.Complete? {
      CompletedRecordStays(s, a.thread, key);
    } else if a.Insert? || a.Detach? || a.Forget? {
      LinkingKeepsRecord(s, a, key);
    } else {
      OthersKeepOutcome(s, a, s.table[key]);
    }
  }

  lemma LinkingKeepsRecord(s: State, a: Action, key: Key)
    requires a.Insert? || a.Detach? || a.Forget?
    requires key in s.table && key.identity in s.files && !Inactive(s, key)
    ensures key in Apply(s, a).table && Apply(s, a).table[key] == s.table[key]
  {
    hide DroppedPages, DroppedEntries;
  }

  lemma CompletedRecordStays(s: State, t: ThreadId, key: Key)
    requires Safe(s) && key in s.table && s.table[key] in s.entries && s.entries[s.table[key]].state == C.Ready
    ensures key in DoComplete(s, t).table && DoComplete(s, t).table[key] == s.table[key]
  {
    hide Safe;
    if t in s.threads {
      ThreadFacts(s, t);
    }
  }

  /** The destructor's release of the cache reference succeeds for every page that has one. */
  lemma DestructorReleases(s: State, e: EntryId)
    requires Reachable(s) && e in s.entries && s.entries[e].physical.Some?
    ensures s.entries[e].physical.value in s.pages && s.pages[s.entries[e].physical.value].cache >= 1
  {
    hide Reachable, Safe;
    ReachableSafe(s);
    EntryFacts(s, e);
    PageFacts(s, s.entries[e].physical.value);
    assert e in CacheEntries(s.entries, s.entries[e].physical.value);
  }

  /** What `ForgetInode` unlinks is neither dirty nor mapped, although it does not ask who else owns the page. */
  lemma ForgottenPagesAreClean(s: State, key: Key)
    requires Reachable(s) && key in s.table && key.identity !in s.files
    ensures s.table[key] in s.entries && CleanPage(s.entries[s.table[key]])
  {
    hide Reachable, Safe;
    ReachableSafe(s);
    ForgottenUnneeded(s, key);
  }

  // ---- Freed once, and only when unreachable ----

  predicate EntryReached(s: State, e: EntryId) {
    || (exists key :: key in s.table && s.table[key] == e)
    || (exists t :: t in s.threads && Holds(s.threads[t], e))
  }

  predicate PageReached(s: State, p: PageId) {
    || (exists m :: m in s.mappings && s.mappings[m].page == p)
    || (exists t :: t in s.threads && UsesPage(s.threads[t], p))
    || (exists e :: e in s.entries && s.entries[e].physical == Some(p))
  }

  /** Exactly the reached shared pages and frames are allocated: nothing is freed early and nothing leaks. */
  lemma ExactlyReachedIsAllocated(s: State, e: EntryId, p: PageId)
    requires Reachable(s)
    ensures e in s.entries <==> EntryReached(s, e)
    ensures p in s.pages <==> PageReached(s, p)
  {
    hide Reachable, Safe;
    ReachableSafe(s);
    if e in s.entries {
      AllocatedEntryReached(s, e);
    } else {
      Unknown(s, e);
      UniqueRecord(s, e);
    }
    if p in s.pages {
      AllocatedPageReached(s, p);
    } else {
      UnallocatedPage(s, p);
    }
  }

  lemma AllocatedEntryReached(s: State, e: EntryId)
    requires Safe(s) && e in s.entries
    ensures EntryReached(s, e)
  {
    EntryFacts(s, e);
    if !Recorded(s, e) {
      var t :| t in Owners(s.threads, e);
    }
  }

  lemma AllocatedPageReached(s: State, p: PageId)
    requires Safe(s) && p in s.pages
    ensures PageReached(s, p)
  {
    PageFacts(s, p);
    if !s.pages[p].managed {
      var t :| t in RawHolders(s.threads, p);
      assert UsesPage(s.threads[t], p);
    } else if Mappers(s.threads, p) != {} {
      var t :| t in Mappers(s.threads, p);
      assert UsesPage(s.threads[t], p);
    } else if CacheHolders(s.threads, p) != {} {
      var t :| t in CacheHolders(s.threads, p);
      assert UsesPage(s.threads[t], p);
    } else if Mapped(s.mappings, p) != {} {
      var m :| m in Mapped(s.mappings, p);
    } else {
      var e :| e in CacheEntries(s.entries, p);
    }
  }

  lemma UnallocatedPage(s: State, p: PageId)
    requires Safe(s) && p !in s.pages
    ensures !PageReached(s, p)
  {
    hide Safe;
    NewPage(s, p);
    assert forall e :: e in s.entries && s.entries[e].physical == Some(p) ==> e in CacheEntries(s.entries, p);
    assert forall m :: m in s.mappings && s.mappings[m].page == p ==> m in Mapped(s.mappings, p);
  }

  /** Every reference is counted once. */
  lemma CountersCountReferences(s: State, e: EntryId, p: PageId)
    requires Reachable(s) && e in s.entries && p in s.pages
    ensures s.entries[e].owners == One(Recorded(s, e)) + |Owners(s.threads, e)|
    ensures s.pages[p].mapping == |Mappers(s.threads, p)| + |Mapped(s.mappings, p)|
    ensures s.pages[p].cache == |CacheHolders(s.threads, p)| + |CacheEntries(s.entries, p)|
  {
    hide Reachable, Safe;
    ReachableSafe(s);
    EntryFacts(s, e);
    PageFacts(s, p);
  }
}
