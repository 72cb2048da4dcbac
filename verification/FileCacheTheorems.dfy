/** What the page cache promises, in every state any interleaving can reach. */
module FileCacheTheorems {
  import opened FileBytes
  import opened FileCache
  import opened FileCacheSafety
  import opened Counting

  /** Reachable from a cache that holds nothing, over any files. */
  ghost predicate Reachable(s: State) {
    exists start, run :: Fresh(start) && s == Run(start, run)
  }

  lemma ReachableSafe(s: State)
    requires Reachable(s)
    ensures Safe(s)
  {
    var start, run :| Fresh(start) && s == Run(start, run);
    RunsSafe(start, run);
  }

  /**
   A Ready entry holds exactly the zero-padded page of its inode at the version in its key, and
   while vfs_lock is free a Ready record in the table carries the inode's current version.
   */
  lemma ReadyPagesAreExact(s: State, e: EntryId)
    requires Reachable(s) && e in s.entries && s.entries[e].state == Ready
    ensures ValidKey(s, s.entries[e].key)
    ensures s.entries[e].physical in s.pages
    ensures s.pages[s.entries[e].physical].bytes == Expected(s, s.entries[e].key)
    ensures Recorded(s, e) && s.busy == None ==> s.entries[e].key.version == Version(s, s.entries[e].key.identity)
  {
    hide Reachable, Safe;
    ReachableSafe(s);
    EntryFacts(s, e);
    if Recorded(s, e) {
      RecordFacts(s, s.entries[e].key);
    }
  }

  /** A mapping is handed out only for a page that shows the current contents. */
  lemma ValidatedPageIsCurrent(s: State, t: ThreadId, p: PageId)
    requires Reachable(s) && Installed(DoValidate(s, t), p) > Installed(s, p)
    ensures var key := PcOf(s, t).key;
      && Known(s, key.identity) && p in s.pages
      && s.pages[p].bytes == PaddedPage(Current(s, key.identity), key.index)
  {
    hide Reachable, Safe;
    ReachableSafe(s);
    ThreadFacts(s, t);
    EntryFacts(s, s.threads[t].entry);
  }

  /** An entry has one filler; while it is Loading that filler holds the completion mutex. */
  lemma OneFillerPerEntry(s: State, t: ThreadId, u: ThreadId)
    requires Reachable(s) && t in s.threads && u in s.threads
    requires Fills(s.threads[t]) && Fills(s.threads[u]) && s.threads[t].entry == s.threads[u].entry
    ensures t == u
    ensures s.threads[t].entry in s.entries && s.entries[s.threads[t].entry].filler == Some(t)
    ensures s.entries[s.threads[t].entry].state == Loading <==> !s.threads[t].Published?
  {
    hide Reachable, Safe;
    ReachableSafe(s);
    ThreadFacts(s, t);
    ThreadFacts(s, u);
  }

  /** Whoever gets the completion mutex finds a final state: a filler still at work never leaves it free. */
  lemma WaitersSeeFinalState(s: State, e: EntryId)
    requires Reachable(s) && e in s.entries && s.entries[e].filler == None
    ensures s.entries[e].state != Loading
  {
    hide Reachable, Safe;
    ReachableSafe(s);
    EntryFacts(s, e);
  }

  /** The entry's identity, outcome and page. */
  predicate SameOutcome(s: State, s': State, e: EntryId) {
    e in s.entries && e in s'.entries ==>
      && s'.entries[e].key == s.entries[e].key
      && s'.entries[e].state == s.entries[e].state
      && s'.entries[e].physical == s.entries[e].physical
  }

  /** A filler completes once: no later section changes the outcome of a completed entry. */
  lemma CompletionIsFinal(s: State, a: Action, e: EntryId)
    requires Reachable(s) && e in s.entries && s.entries[e].state != Loading
    ensures SameOutcome(s, Apply(s, a), e)
  {
    hide Reachable, Safe, SameOutcome, DoComplete, DoInvalidate;
    ReachableSafe(s);
    if a.Complete? {
      CompleteKeepsOutcome(s, a.thread, e);
    } else if a.Invalidate? {
      InvalidateKeepsOutcome(s, a.stale, e);
    } else {
      OthersKeepOutcome(s, a, e);
    }
  }

  lemma CompleteKeepsOutcome(s: State, t: ThreadId, e: EntryId)
    requires Safe(s) && e in s.entries && s.entries[e].state != Loading
    ensures SameOutcome(s, DoComplete(s, t), e)
  {
    hide Safe, EntrySafe, DroppedPages;
    if t in s.threads {
      ThreadFacts(s, t);
    }
  }

  lemma InvalidateKeepsOutcome(s: State, stale: seq<Key>, e: EntryId)
    ensures SameOutcome(s, DoInvalidate(s, stale), e)
  {
    if e in RemoveRecords(s, stale).entries {
      RemovalKeepsState(s, stale, e);
    }
  }

  lemma OthersKeepOutcome(s: State, a: Action, e: EntryId)
    requires !a.Complete? && !a.Invalidate?
    ensures SameOutcome(s, Apply(s, a), e)
  {
    hide DroppedPages, ReleaseMapping;
  }

  lemma {:induction false} RemovalKeepsState(s: State, keys: seq<Key>, e: EntryId)
    requires e in RemoveRecords(s, keys).entries
    ensures e in s.entries && RemoveRecords(s, keys).entries[e].(owners := 0) == s.entries[e].(owners := 0)
    decreases |keys|
  {
    if keys != [] {
      RemovalKeepsState(RemoveRecord(s, keys[0]), keys[1..], e);
    }
  }

  /** After `AdoptManagedPage` succeeded, neither taking the cache reference nor dropping the first mapping can fail. */
  lemma AdoptedPageStays(s: State, t: ThreadId)
    requires Reachable(s) && t in s.threads && (s.threads[t].Adopted? || s.threads[t].Retained?)
    ensures s.threads[t].page in s.pages && s.pages[s.threads[t].page].mapping >= 1
  {
    hide Reachable, Safe;
    ReachableSafe(s);
    ThreadFacts(s, t);
    PageFacts(s, s.threads[t].page);
    assert t in Mappers(s.threads, s.threads[t].page);
  }

  // ---- Freed once, and only when unreachable ----

  predicate PageReached(s: State, p: PageId) {
    || Installed(s, p) > 0
    || (exists t :: t in s.threads && HasPage(s.threads[t]) && s.threads[t].page == p)
    || (exists e :: e in s.entries && OwnsPage(s.entries[e], p))
  }

  predicate EntryReached(s: State, e: EntryId) {
    || (exists key :: key in s.table && s.table[key] == e)
    || (exists t :: t in s.threads && Holds(s.threads[t], e))
  }

  /** Exactly the reachable entries and pages are allocated: nothing is freed early and nothing leaks. */
  lemma ExactlyReachedIsAllocated(s: State, e: EntryId, p: PageId)
    requires Reachable(s)
    ensures e in s.entries <==> EntryReached(s, e)
    ensures p in s.pages <==> PageReached(s, p)
  {
    hide Reachable, Safe;
    ReachableSafe(s);
    if e in s.entries {
      AllocatedEntryReached(s, e);
    } else {
      UnknownEntryUnreached(s, e);
    }
    if p in s.pages {
      AllocatedPageReached(s, p);
    } else {
      NewPage(s, p);
      forall x | x in s.entries ensures !OwnsPage(s.entries[x], p) {
        assert OwnsPage(s.entries[x], p) ==> x in CacheEntries(s.entries, p);
      }
    }
  }

  lemma AllocatedEntryReached(s: State, e: EntryId)
    requires Safe(s) && e in s.entries
    ensures EntryReached(s, e)
  {
    EntryFacts(s, e);
    if !Recorded(s, e) {
      var t :| t in Owners(s.threads, e);
    }
  }

  lemma UnknownEntryUnreached(s: State, e: EntryId)
    requires Safe(s) && e !in s.entries
    ensures !EntryReached(s, e)
  {
    Unknown(s, e);
    UniqueRecord(s, e);
  }

  lemma AllocatedPageReached(s: State, p: PageId)
    requires Safe(s) && p in s.pages
    ensures PageReached(s, p)
  {
    PageFacts(s, p);
    if !s.pages[p].managed {
      var t :| t in RawHolders(s.threads, p);
    } else if Mappers(s.threads, p) != {} {
      var t :| t in Mappers(s.threads, p);
    } else if CacheHolders(s.threads, p) != {} {
      var t :| t in CacheHolders(s.threads, p);
    } else if Installed(s, p) == 0 {
      var e :| e in CacheEntries(s.entries, p);
    }
  }

  /** The counters are what the name says: every reference is counted once. */
  lemma CountersCountReferences(s: State, e: EntryId, p: PageId)
    requires Reachable(s) && e in s.entries && p in s.pages
    ensures s.entries[e].owners == One(Recorded(s, e)) + |Owners(s.threads, e)|
    ensures s.pages[p].mapping == |Mappers(s.threads, p)| + Installed(s, p)
    ensures s.pages[p].cache == |CacheHolders(s.threads, p)| + |CacheEntries(s.entries, p)|
  {
    hide Reachable, Safe;
    ReachableSafe(s);
    EntryFacts(s, e);
    PageFacts(s, p);
  }
}
