/** Ownership, contents and versions in every interleaving of the page cache. */
module FileCacheSafety {
  import opened FileBytes
  import opened Counting
  import opened FileCache

  // ---- Who refers to what ----

  predicate HasEntry(pc: Pc) {
    !pc.Idle? && !pc.Looking?
  }

  predicate Holds(pc: Pc, entry: EntryId) {
    HasEntry(pc) && pc.entry == entry
  }

  /** Between building the entry and releasing its completion mutex. */
  predicate Fills(pc: Pc) {
    pc.Prepared? || pc.Filling? || pc.Blank? || pc.Filled? || pc.Adopted? || pc.Retained? || pc.Owning? || pc.Failing? || pc.Published?
  }

  predicate HasPage(pc: Pc) {
    pc.Blank? || pc.Filled? || pc.Adopted? || pc.Retained? || pc.Owning? || pc.Mapped?
  }

  predicate Unmanaged(pc: Pc) {
    pc.Blank? || pc.Filled?
  }

  /** The thread's page already carries the contents its key names. */
  predicate Carries(pc: Pc) {
    pc.Filled? || pc.Adopted? || pc.Retained? || pc.Owning?
  }

  predicate HoldsMapping(pc: Pc, page: PageId) {
    (pc.Adopted? || pc.Retained? || pc.Mapped?) && pc.page == page
  }

  predicate HoldsCache(pc: Pc, page: PageId) {
    (pc.Retained? || pc.Owning?) && pc.page == page
  }

  predicate OwnsPage(entry: Entry, page: PageId) {
    entry.ownsCache && entry.physical == page
  }

  function Owners(threads: map<ThreadId, Pc>, entry: EntryId): set<ThreadId> {
    set t | t in threads && Holds(threads[t], entry)
  }

  function Mappers(threads: map<ThreadId, Pc>, page: PageId): set<ThreadId> {
    set t | t in threads && HoldsMapping(threads[t], page)
  }

  function CacheHolders(threads: map<ThreadId, Pc>, page: PageId): set<ThreadId> {
    set t | t in threads && HoldsCache(threads[t], page)
  }

  /** The thread that allocated the page and has not handed it over yet. */
  function RawHolders(threads: map<ThreadId, Pc>, page: PageId): set<ThreadId> {
    set t | t in threads && Unmanaged(threads[t]) && threads[t].page == page
  }

  function CacheEntries(entries: map<EntryId, Entry>, page: PageId): set<EntryId> {
    set e | e in entries && OwnsPage(entries[e], page)
  }

  predicate Recorded(s: State, entry: EntryId) {
    entry in s.entries && s.entries[entry].key in s.table && s.table[s.entries[entry].key] == entry
  }

  // ---- The invariant ----

  /** `surplus` owners are accounted for by a reference that is about to be dropped. */
  ghost predicate EntrySafe(s: State, e: EntryId, surplus: nat)
    requires e in s.entries
  {
    var entry := s.entries[e];
    && ValidKey(s, entry.key)
    && entry.owners == surplus + One(Recorded(s, e)) + |Owners(s.threads, e)|
    && entry.owners > 0
    && (entry.filler.Some? ==> entry.filler.value in s.threads && Fills(s.threads[entry.filler.value])
                               && s.threads[entry.filler.value].entry == e)
    && (entry.state == Loading ==> entry.filler.Some?)
    && (entry.state == Ready <==> entry.ownsCache)
    && (entry.state == Ready ==> entry.physical in s.pages && s.pages[entry.physical].managed
                                 && s.pages[entry.physical].bytes == Expected(s, entry.key))
  }

  ghost predicate ThreadSafe(s: State, t: ThreadId)
    requires t in s.threads
  {
    var pc := s.threads[t];
    && (pc.Looking? ==> ValidKey(s, pc.key))
    && (HasEntry(pc) ==> pc.entry in s.entries && s.entries[pc.entry].key == pc.key)
    && (Fills(pc) ==> s.entries[pc.entry].filler == Some(t)
                      && (pc.Published? <==> s.entries[pc.entry].state != Loading))
    && (pc.Prepared? ==> !Recorded(s, pc.entry) && s.entries[pc.entry].owners == 1)
    && (pc.Holding? ==> s.entries[pc.entry].state == Ready)
    && (pc.Mapped? ==> s.entries[pc.entry].state == Ready && s.entries[pc.entry].physical == pc.page)
    && (HasPage(pc) ==> pc.page in s.pages && (Unmanaged(pc) <==> !s.pages[pc.page].managed))
    && (Carries(pc) ==> ValidKey(s, pc.key) && s.pages[pc.page].bytes == Expected(s, pc.key))
  }

  ghost predicate PageSafe(s: State, p: PageId)
    requires p in s.pages
  {
    var page := s.pages[p];
    && page.mapping == |Mappers(s.threads, p)| + Installed(s, p)
    && page.cache == |CacheHolders(s.threads, p)| + |CacheEntries(s.entries, p)|
    && (page.managed <==> page.mapping + page.cache > 0)
    && (!page.managed ==> RawHolders(s.threads, p) != {})
  }

  /** The record's page is (or is about to be) readable by others. */
  predicate Exposed(s: State, e: EntryId)
    requires e in s.entries
  {
    s.entries[e].state == Ready ||
    (s.entries[e].filler.Some? && s.entries[e].filler.value in s.threads && Carries(s.threads[s.entries[e].filler.value]))
  }

  ghost predicate RecordSafe(s: State, key: Key)
    requires key in s.table
  {
    var e := s.table[key];
    && e in s.entries && s.entries[e].key == key && s.entries[e].state != Error
    && (Exposed(s, e) && s.busy != Some(key.identity) ==> Known(s, key.identity) && key.version == Version(s, key.identity))
  }

  predicate SamePage(left: Pc, right: Pc) {
    Unmanaged(left) && Unmanaged(right) && left.page == right.page
  }

  /** A page that is not managed yet belongs to one thread. */
  ghost predicate PrivatePages(s: State) {
    forall t, u :: t in s.threads && u in s.threads && SamePage(s.threads[t], s.threads[u]) ==> t == u
  }

  ghost predicate SafeUpTo(s: State, dropped: Option<EntryId>) {
    && (forall e :: e in s.entries ==> EntrySafe(s, e, One(dropped == Some(e))))
    && (forall t :: t in s.threads ==> ThreadSafe(s, t))
    && (forall p :: p in s.pages ==> PageSafe(s, p))
    && (forall p :: p in s.installed && s.installed[p] > 0 ==> p in s.pages)
    && (forall key :: key in s.table ==> RecordSafe(s, key))
    && PrivatePages(s)
    && (s.busy.Some? ==> Known(s, s.busy.value))
  }

  ghost predicate Safe(s: State) {
    SafeUpTo(s, None)
  }

  // ---- Counting after one thread or one entry changed ----

  lemma OwnersMoved(threads: map<ThreadId, Pc>, t: ThreadId, pc: Pc, e: EntryId)
    ensures Recounted(Owners(threads, e), Owners(threads[t := pc], e), t in threads && Holds(threads[t], e), Holds(pc, e))
  {
    Replaced(Owners(threads, e), Owners(threads[t := pc], e), t);
  }

  lemma PageHoldersMoved(threads: map<ThreadId, Pc>, t: ThreadId, pc: Pc, p: PageId)
    ensures Recounted(Mappers(threads, p), Mappers(threads[t := pc], p),
                      t in threads && HoldsMapping(threads[t], p), HoldsMapping(pc, p))
    ensures Recounted(CacheHolders(threads, p), CacheHolders(threads[t := pc], p),
                      t in threads && HoldsCache(threads[t], p), HoldsCache(pc, p))
  {
    Replaced(Mappers(threads, p), Mappers(threads[t := pc], p), t);
    Replaced(CacheHolders(threads, p), CacheHolders(threads[t := pc], p), t);
  }

  lemma CacheEntriesChanged(entries: map<EntryId, Entry>, e: EntryId, entry: Entry, p: PageId)
    ensures Recounted(CacheEntries(entries, p), CacheEntries(entries[e := entry], p),
                      e in entries && OwnsPage(entries[e], p), OwnsPage(entry, p))
    ensures Recounted(CacheEntries(entries, p), CacheEntries(entries - {e}, p),
                      e in entries && OwnsPage(entries[e], p), false)
  {
    Replaced(CacheEntries(entries, p), CacheEntries(entries[e := entry], p), e);
    Replaced(CacheEntries(entries, p), CacheEntries(entries - {e}, p), e);
  }

  // ---- What the invariant says about one thing ----

  lemma ThreadFacts(s: State, t: ThreadId)
    requires Safe(s) && t in s.threads
    ensures ThreadSafe(s, t)
  {
  }

  lemma EntryFacts(s: State, e: EntryId)
    requires Safe(s) && e in s.entries
    ensures EntrySafe(s, e, 0)
  {
  }

  lemma PageFacts(s: State, p: PageId)
    requires Safe(s) && p in s.pages
    ensures PageSafe(s, p)
  {
  }

  lemma InstalledFacts(s: State, p: PageId)
    requires Safe(s) && Installed(s, p) > 0
    ensures p in s.pages
  {
  }

  // ---- A thread moves on inside one entry, touching at most one page ----

  predicate PageKept(s: State, s': State, p: PageId) {
    p in s.pages ==> p in s'.pages && s'.pages[p].managed == s.pages[p].managed && s'.pages[p].bytes == s.pages[p].bytes
  }

  predicate SameDuty(pc: Pc, pc': Pc, p: PageId) {
    && (HasEntry(pc) <==> HasEntry(pc')) && (HasEntry(pc) ==> pc'.entry == pc.entry && pc'.key == pc.key)
    && (Fills(pc) <==> Fills(pc')) && !pc.Published? && !pc'.Published?
    && (HasPage(pc) ==> pc.page == p) && (HasPage(pc') ==> pc'.page == p)
  }

  /** The thread keeps its entry; entries, records and other threads and pages stay as they are. */
  ghost predicate Moves(s: State, s': State, t: ThreadId, p: PageId) {
    && s' == s.(threads := s'.threads, pages := s'.pages, installed := s'.installed)
    && t in s'.threads && s'.threads == s.threads[t := s'.threads[t]]
    && SameDuty(PcOf(s, t), s'.threads[t], p)
    && (forall q :: q != p ==> (q in s'.pages <==> q in s.pages) && Installed(s', q) == Installed(s, q))
    && (forall q :: q != p && q in s.pages ==> s'.pages[q] == s.pages[q])
  }

  /** Nobody else misses the touched page. */
  ghost predicate OthersKeepPage(s: State, s': State, t: ThreadId, p: PageId) {
    && (forall u :: u in s.threads && u != t && HasPage(s.threads[u]) && s.threads[u].page == p ==> PageKept(s, s', p))
    && (forall e :: e in s.entries && OwnsPage(s.entries[e], p) ==> PageKept(s, s', p))
  }

  lemma MovedEntry(s: State, s': State, t: ThreadId, p: PageId, e: EntryId)
    requires Moves(s, s', t, p) && OthersKeepPage(s, s', t, p) && e in s.entries && EntrySafe(s, e, 0)
    ensures EntrySafe(s', e, 0)
  {
    OwnersMoved(s.threads, t, s'.threads[t], e);
  }

  lemma MovedThread(s: State, s': State, t: ThreadId, p: PageId, u: ThreadId)
    requires Moves(s, s', t, p) && OthersKeepPage(s, s', t, p) && u in s.threads && u != t && ThreadSafe(s, u)
    ensures ThreadSafe(s', u)
  {
  }

  lemma MovedPage(s: State, s': State, t: ThreadId, p: PageId, q: PageId)
    requires Moves(s, s', t, p) && q in s.pages && q != p && PageSafe(s, q)
    ensures PageSafe(s', q)
  {
    PageHoldersMoved(s.threads, t, s'.threads[t], q);
  }

  lemma MovedRecord(s: State, s': State, t: ThreadId, p: PageId, key: Key)
    requires Moves(s, s', t, p) && key in s.table && RecordSafe(s, key) && EntrySafe(s, s.table[key], 0)
    requires Carries(s'.threads[t]) ==> Carries(PcOf(s, t)) || (Known(s, PcOf(s, t).key.identity)
                                                               && PcOf(s, t).key.version == Version(s, PcOf(s, t).key.identity))
    requires HasEntry(PcOf(s, t)) ==> PcOf(s, t).entry in s.entries && s.entries[PcOf(s, t).entry].key == PcOf(s, t).key
    ensures RecordSafe(s', key)
  {
  }

  lemma MoveSafe(s: State, s': State, t: ThreadId, p: PageId)
    requires Safe(s) && Moves(s, s', t, p) && OthersKeepPage(s, s', t, p)
    requires ThreadSafe(s', t) && (p in s'.pages ==> PageSafe(s', p)) && (Installed(s', p) > 0 ==> p in s'.pages)
    requires Carries(s'.threads[t]) ==> Carries(PcOf(s, t)) || (Known(s, PcOf(s, t).key.identity)
                                                               && PcOf(s, t).key.version == Version(s, PcOf(s, t).key.identity))
    requires forall u :: u in s.threads && SamePage(s'.threads[t], s.threads[u]) ==> u == t
    ensures Safe(s')
  {
    hide EntrySafe, PageSafe, RecordSafe;
    assert t in s.threads ==> ThreadSafe(s, t);
    forall e | e in s'.entries ensures EntrySafe(s', e, 0) { MovedEntry(s, s', t, p, e); }
    forall u | u in s'.threads ensures ThreadSafe(s', u) {
      if u != t { MovedThread(s, s', t, p, u); }
    }
    forall q | q in s'.pages ensures PageSafe(s', q) {
      if q != p { MovedPage(s, s', t, p, q); }
    }
    forall key | key in s'.table ensures RecordSafe(s', key) {
      RecordEntry(s, key);
      MovedRecord(s, s', t, p, key);
    }
  }

  lemma RecordEntry(s: State, key: Key)
    requires key in s.table && RecordSafe(s, key)
    ensures s.table[key] in s.entries
  {
  }

  // ---- The filler's own steps ----

  /** A move that touches no page. */
  lemma PlainMoveSafe(s: State, t: ThreadId, pc: Pc)
    requires Safe(s) && SameDuty(PcOf(s, t), pc, 0) && !HasPage(PcOf(s, t)) && !HasPage(pc) && ThreadSafe(At(s, t, pc), t)
    ensures Safe(At(s, t, pc))
  {
    hide EntrySafe, ThreadSafe, RecordSafe, SafeUpTo;
    if 0 in s.pages {
      PageFacts(s, 0);
    }
    if Installed(s, 0) > 0 {
      InstalledFacts(s, 0);
    }
    PageHoldersMoved(s.threads, t, pc, 0);
    MoveSafe(s, At(s, t, pc), t, 0);
  }

  lemma LookSafe(s: State, t: ThreadId, identity: Identity, index: nat)
    requires Safe(s)
    ensures Safe(DoLook(s, t, identity, index))
  {
    hide SafeUpTo;
    if DoLook(s, t, identity, index) != s {
      PlainMoveSafe(s, t, Looking(Key(identity, Version(s, identity), index)));
    }
  }

  lemma AllocateSafe(s: State, t: ThreadId, got: Option<PageId>)
    requires Safe(s)
    ensures Safe(DoAllocate(s, t, got))
  {
    hide SafeUpTo, EntrySafe, RecordSafe;
    var s' := DoAllocate(s, t, got);
    if s' != s {
      ThreadFacts(s, t);
      var pc := PcOf(s, t);
      match got
      case None =>
        PlainMoveSafe(s, t, Failing(pc.key, pc.entry));
      case Some(p) =>
        NewPage(s, p);
        PageHoldersMoved(s.threads, t, s'.threads[t], p);
        assert t in RawHolders(s'.threads, p);
        MoveSafe(s, s', t, p);
    }
  }

  /** Nothing refers to a page that is not there. */
  lemma NewPage(s: State, p: PageId)
    requires Safe(s) && p !in s.pages
    ensures Mappers(s.threads, p) == {} && CacheHolders(s.threads, p) == {} && CacheEntries(s.entries, p) == {}
    ensures Installed(s, p) == 0
    ensures forall u :: u in s.threads && HasPage(s.threads[u]) ==> s.threads[u].page != p
  {
    forall u | u in s.threads && HasPage(s.threads[u]) ensures s.threads[u].page != p {
      assert ThreadSafe(s, u);
    }
    forall e | e in s.entries && s.entries[e].ownsCache ensures s.entries[e].physical != p {
      assert EntrySafe(s, e, 0);
    }
  }

  /** A page that is not managed is reached by the one thread that allocated it. */
  lemma PrivatePage(s: State, t: ThreadId)
    requires Safe(s) && t in s.threads && Unmanaged(s.threads[t])
    ensures var p := s.threads[t].page;
      && p in s.pages && s.pages[p].mapping == s.pages[p].cache == 0
      && Mappers(s.threads, p) == {} && CacheHolders(s.threads, p) == {} && CacheEntries(s.entries, p) == {} && Installed(s, p) == 0
      && (forall e :: e in s.entries ==> !OwnsPage(s.entries[e], p))
      && forall u :: u in s.threads && u != t && HasPage(s.threads[u]) ==> s.threads[u].page != p
  {
    var p := s.threads[t].page;
    assert ThreadSafe(s, t);
    assert PageSafe(s, p);
    forall u | u in s.threads && u != t && HasPage(s.threads[u]) ensures s.threads[u].page != p {
      assert ThreadSafe(s, u);
      assert Unmanaged(s.threads[u]) ==> !SamePage(s.threads[t], s.threads[u]);
    }
    forall e | e in s.entries ensures !OwnsPage(s.entries[e], p) {
      assert OwnsPage(s.entries[e], p) ==> e in CacheEntries(s.entries, p);
    }
  }

  lemma FillSafe(s: State, t: ThreadId, readable: bool)
    requires Safe(s)
    ensures Safe(DoFill(s, t, readable))
  {
    hide SafeUpTo, EntrySafe, RecordSafe;
    var s' := DoFill(s, t, readable);
    if s' != s {
      ThreadFacts(s, t);
      PrivatePage(s, t);
      var p := s.threads[t].page;
      PageHoldersMoved(s.threads, t, s'.threads[t], p);
      assert s'.threads[t].Filled? ==> t in RawHolders(s'.threads, p);
      MoveSafe(s, s', t, p);
    }
  }

  lemma AdoptSafe(s: State, t: ThreadId, success: bool)
    requires Safe(s)
    ensures Safe(DoAdopt(s, t, success))
  {
    hide SafeUpTo, EntrySafe, RecordSafe;
    var s' := DoAdopt(s, t, success);
    if s' != s {
      ThreadFacts(s, t);
      PrivatePage(s, t);
      var p := s.threads[t].page;
      PageHoldersMoved(s.threads, t, s'.threads[t], p);
      MoveSafe(s, s', t, p);
    }
  }

  lemma RetainCacheSafe(s: State, t: ThreadId)
    requires Safe(s)
    ensures Safe(DoRetainCache(s, t))
  {
    hide SafeUpTo, EntrySafe, RecordSafe;
    var s' := DoRetainCache(s, t);
    if s' != s {
      ThreadFacts(s, t);
      var p := s.threads[t].page;
      PageFacts(s, p);
      PageHoldersMoved(s.threads, t, s'.threads[t], p);
      MoveSafe(s, s', t, p);
    }
  }

  lemma ReleaseFirstMappingSafe(s: State, t: ThreadId)
    requires Safe(s)
    ensures Safe(DoReleaseFirstMapping(s, t))
  {
    hide SafeUpTo, EntrySafe, RecordSafe;
    var s' := DoReleaseFirstMapping(s, t);
    if s' != s {
      ThreadFacts(s, t);
      var p := s.threads[t].page;
      PageFacts(s, p);
      PageHoldersMoved(s.threads, t, s'.threads[t], p);
      assert t in Mappers(s.threads, p) && t in CacheHolders(s.threads, p);
      MoveSafe(s, s', t, p);
    }
  }

  lemma RetainMappingSafe(s: State, t: ThreadId)
    requires Safe(s)
    ensures Safe(DoRetainMapping(s, t))
  {
    hide SafeUpTo, RecordSafe;
    var s' := DoRetainMapping(s, t);
    if s' != s {
      ThreadFacts(s, t);
      EntryFacts(s, s.threads[t].entry);
      var p := s.entries[s.threads[t].entry].physical;
      PageFacts(s, p);
      PageHoldersMoved(s.threads, t, s'.threads[t], p);
      MoveSafe(s, s', t, p);
    }
  }

  // ---- A step that changes one entry, its record and the thread that works on it ----

  predicate OnlyHolds(pc: Pc, e: EntryId) {
    HasEntry(pc) ==> pc.entry == e
  }

  /** What another thread that refers to the entry may rely on. */
  predicate Evolves(s: State, s': State, t: ThreadId, e: EntryId)
    requires e in s'.entries
  {
    e in s.entries ==>
      && s'.entries[e].key == s.entries[e].key
      && (s.entries[e].state == Ready ==> s'.entries[e].state == Ready && s'.entries[e].physical == s.entries[e].physical)
      && (s.entries[e].filler == Some(t) || (s'.entries[e].filler == s.entries[e].filler && s'.entries[e].state == s.entries[e].state))
  }

  /** Only the entry's own record comes or goes. */
  ghost predicate RecordsKept(s: State, s': State, e: EntryId)
    requires e in s'.entries
  {
    && (forall key :: key != s'.entries[e].key ==> (key in s'.table <==> key in s.table))
    && (forall key :: key in s.table && key in s'.table ==> s'.table[key] == s.table[key])
    && (s'.entries[e].key in s.table && s'.entries[e].key !in s'.table ==> s.table[s'.entries[e].key] == e)
    && (s'.entries[e].key in s'.table && s'.entries[e].key !in s.table ==> s'.table[s'.entries[e].key] == e)
  }

  /** Page references move between the thread and the entry, but none appears or disappears. */
  ghost predicate SamePageHolders(s: State, s': State, t: ThreadId, e: EntryId)
    requires e in s'.entries && t in s'.threads
  {
    && (forall p :: HoldsMapping(s'.threads[t], p) == HoldsMapping(PcOf(s, t), p))
    && (forall p :: One(HoldsCache(s'.threads[t], p)) + One(OwnsPage(s'.entries[e], p)) ==
                    One(HoldsCache(PcOf(s, t), p)) + One(e in s.entries && OwnsPage(s.entries[e], p)))
  }

  ghost predicate EntryWork(s: State, s': State, t: ThreadId, e: EntryId) {
    && s' == s.(entries := s'.entries, threads := s'.threads, table := s'.table)
    && t in s'.threads && s'.threads == s.threads[t := s'.threads[t]]
    && e in s'.entries && s'.entries == s.entries[e := s'.entries[e]]
    && OnlyHolds(PcOf(s, t), e) && OnlyHolds(s'.threads[t], e)
    && !Unmanaged(PcOf(s, t)) && !Unmanaged(s'.threads[t])
    && Evolves(s, s', t, e) && RecordsKept(s, s', e) && SamePageHolders(s, s', t, e)
  }

  lemma WorkedEntry(s: State, s': State, t: ThreadId, e: EntryId, x: EntryId)
    requires EntryWork(s, s', t, e) && x in s.entries && x != e && EntrySafe(s, x, 0)
    ensures EntrySafe(s', x, 0)
  {
    OwnersMoved(s.threads, t, s'.threads[t], x);
  }

  lemma WorkedThread(s: State, s': State, t: ThreadId, e: EntryId, u: ThreadId)
    requires EntryWork(s, s', t, e) && u in s.threads && u != t && ThreadSafe(s, u)
    requires !(Holds(s.threads[u], e) && s.threads[u].Prepared?)
    ensures ThreadSafe(s', u)
  {
  }

  lemma WorkedPage(s: State, s': State, t: ThreadId, e: EntryId, p: PageId)
    requires EntryWork(s, s', t, e) && p in s.pages && PageSafe(s, p)
    ensures PageSafe(s', p)
  {
    PageHoldersMoved(s.threads, t, s'.threads[t], p);
    CacheEntriesChanged(s.entries, e, s'.entries[e], p);
  }

  lemma WorkedRecord(s: State, s': State, t: ThreadId, e: EntryId, key: Key)
    requires EntryWork(s, s', t, e) && key in s'.table && s'.table[key] != e
    requires key in s.table ==> RecordSafe(s, key) && EntrySafe(s, s.table[key], 0)
    ensures RecordSafe(s', key)
  {
  }

  lemma EntryWorkSafe(s: State, s': State, t: ThreadId, e: EntryId, before: Option<EntryId>, after: Option<EntryId>)
    requires SafeUpTo(s, before) && EntryWork(s, s', t, e)
    requires (before.Some? ==> before.value == e) && (after.Some? ==> after.value == e)
    requires EntrySafe(s', e, One(after == Some(e))) && ThreadSafe(s', t)
    requires s'.entries[e].key in s'.table && s'.table[s'.entries[e].key] == e ==> RecordSafe(s', s'.entries[e].key)
    requires forall key :: key in s.table && s.table[key] == e && key in s'.table ==> key == s'.entries[e].key
    requires forall u :: u in s.threads && u != t && Holds(s.threads[u], e) ==> !s.threads[u].Prepared?
    ensures SafeUpTo(s', after)
  {
    hide EntrySafe, PageSafe, RecordSafe, ThreadSafe, Evolves, SamePageHolders;
    forall x | x in s'.entries ensures EntrySafe(s', x, One(after == Some(x))) {
      if x != e { WorkedEntry(s, s', t, e, x); }
    }
    forall u | u in s'.threads ensures ThreadSafe(s', u) {
      if u != t { WorkedThread(s, s', t, e, u); }
    }
    forall p | p in s'.pages ensures PageSafe(s', p) { WorkedPage(s, s', t, e, p); }
    forall key | key in s'.table ensures RecordSafe(s', key) {
      if s'.table[key] != e {
        assert key in s.table;
        RecordEntry(s, key);
        WorkedRecord(s, s', t, e, key);
      }
    }
  }

  // ---- Losing an owner ----

  /** Unlinking a record leaves its entry with one owner too many, until it is dropped. */
  lemma UnlinkedSafe(s: State, key: Key)
    requires Safe(s) && key in s.table
    ensures s.table[key] in s.entries
    ensures SafeUpTo(s.(table := s.table - {key}), Some(s.table[key]))
  {
    hide RecordSafe, EntrySafe, ThreadSafe, PageSafe;
    var s', e := s.(table := s.table - {key}), s.table[key];
    RecordEntry(s, key);
    forall x | x in s'.entries ensures EntrySafe(s', x, One(x == e)) { UnlinkedEntry(s, key, x); }
    forall t | t in s'.threads ensures ThreadSafe(s', t) { UnlinkedThread(s, key, t); }
    forall p | p in s'.pages ensures PageSafe(s', p) { UnlinkedPage(s, key, p); }
    forall other | other in s'.table ensures RecordSafe(s', other) { UnlinkedRecord(s, key, other); }
  }

  lemma UnlinkedEntry(s: State, key: Key, x: EntryId)
    requires key in s.table && RecordSafe(s, key) && x in s.entries && EntrySafe(s, x, 0)
    ensures EntrySafe(s.(table := s.table - {key}), x, One(x == s.table[key]))
  {
  }

  lemma UnlinkedThread(s: State, key: Key, t: ThreadId)
    requires t in s.threads && ThreadSafe(s, t)
    ensures ThreadSafe(s.(table := s.table - {key}), t)
  {
  }

  lemma UnlinkedPage(s: State, key: Key, p: PageId)
    requires p in s.pages && PageSafe(s, p)
    ensures PageSafe(s.(table := s.table - {key}), p)
  {
  }

  lemma UnlinkedRecord(s: State, key: Key, other: Key)
    requires other in s.table && other != key && RecordSafe(s, other)
    ensures RecordSafe(s.(table := s.table - {key}), other)
  {
  }

  lemma DropSafe(s: State, e: EntryId)
    requires e in s.entries && SafeUpTo(s, Some(e))
    ensures Safe(DropOwner(s, e))
  {
    assert EntrySafe(s, e, 1);
    if s.entries[e].owners > 1 {
      DecrementSafe(s, e);
    } else {
      DestroySafe(s, e);
    }
  }

  lemma DecrementSafe(s: State, e: EntryId)
    requires e in s.entries && SafeUpTo(s, Some(e)) && s.entries[e].owners > 1
    ensures Safe(DropOwner(s, e))
  {
    hide RecordSafe, EntrySafe, ThreadSafe, PageSafe;
    var s' := DropOwner(s, e);
    forall x | x in s'.entries ensures EntrySafe(s', x, 0) { DecrementedEntry(s, e, x); }
    forall t | t in s'.threads ensures ThreadSafe(s', t) { DecrementedThread(s, e, t); }
    forall p | p in s'.pages ensures PageSafe(s', p) { DecrementedPage(s, e, p); }
    forall key | key in s'.table ensures RecordSafe(s', key) { DecrementedRecord(s, e, key); }
  }

  lemma DecrementedEntry(s: State, e: EntryId, x: EntryId)
    requires e in s.entries && s.entries[e].owners > 1 && x in s.entries && EntrySafe(s, x, One(x == e))
    ensures EntrySafe(DropOwner(s, e), x, 0)
  {
  }

  lemma DecrementedThread(s: State, e: EntryId, t: ThreadId)
    requires e in s.entries && s.entries[e].owners > 1 && t in s.threads && ThreadSafe(s, t)
    ensures ThreadSafe(DropOwner(s, e), t)
  {
  }

  lemma DecrementedPage(s: State, e: EntryId, p: PageId)
    requires e in s.entries && s.entries[e].owners > 1 && p in s.pages && PageSafe(s, p)
    ensures PageSafe(DropOwner(s, e), p)
  {
    CacheEntriesChanged(s.entries, e, DropOwner(s, e).entries[e], p);
  }

  lemma DecrementedRecord(s: State, e: EntryId, key: Key)
    requires e in s.entries && s.entries[e].owners > 1 && key in s.table && RecordSafe(s, key)
    ensures RecordSafe(DropOwner(s, e), key)
  {
  }

  /** With the last owner gone nothing refers to the entry; its page goes when nothing refers to that either. */
  lemma DestroySafe(s: State, e: EntryId)
    requires e in s.entries && SafeUpTo(s, Some(e)) && s.entries[e].owners == 1
    ensures Safe(DropOwner(s, e))
  {
    hide RecordSafe, EntrySafe, ThreadSafe, PageSafe;
    var s' := DropOwner(s, e);
    assert EntrySafe(s, e, 1);
    LastOwner(s, e);
    var p := s.entries[e].physical;
    if s.entries[e].ownsCache {
      assert p in s.pages && PageSafe(s, p);
      FreedPage(s, e);
    }
    forall x | x in s'.entries ensures EntrySafe(s', x, 0) { DestroyedEntry(s, e, x); }
    forall t | t in s'.threads ensures ThreadSafe(s', t) { DestroyedThread(s, e, t); }
    forall q | q in s'.pages ensures PageSafe(s', q) { DestroyedPage(s, e, q); }
    forall key | key in s'.table ensures RecordSafe(s', key) { DestroyedRecord(s, e, key); }
  }

  lemma LastOwner(s: State, e: EntryId)
    requires e in s.entries && EntrySafe(s, e, 1) && s.entries[e].owners == 1
    ensures !Recorded(s, e)
    ensures forall t :: t in s.threads ==> !Holds(s.threads[t], e)
    ensures s.entries[e].ownsCache ==> s.entries[e].physical in s.pages
  {
    assert Owners(s.threads, e) == {};
    forall t | t in s.threads ensures !Holds(s.threads[t], e) {
      assert Holds(s.threads[t], e) ==> t in Owners(s.threads, e);
    }
  }

  /** Whoever still refers to the page of a destroyed entry holds one of its counted references. */
  predicate StillReferenced(s: State, e: EntryId, p: PageId) {
    Installed(s, p) > 0 || Mappers(s.threads, p) != {} || CacheHolders(s.threads, p) != {} || CacheEntries(s.entries - {e}, p) != {}
  }

  lemma FreedPage(s: State, e: EntryId)
    requires e in s.entries && s.entries[e].ownsCache && s.entries[e].physical in s.pages && PageSafe(s, s.entries[e].physical)
    ensures s.entries[e].owners == 1 ==>
      (s.entries[e].physical in DropOwner(s, e).pages <==> StillReferenced(s, e, s.entries[e].physical))
  {
    var p := s.entries[e].physical;
    CacheEntriesChanged(s.entries, e, s.entries[e], p);
    assert e in CacheEntries(s.entries, p);
  }

  lemma DestroyedEntry(s: State, e: EntryId, x: EntryId)
    requires e in s.entries && s.entries[e].owners == 1 && x in s.entries && x != e && EntrySafe(s, x, 0) && !Recorded(s, e)
    requires s.entries[e].ownsCache ==>
      (s.entries[e].physical in DropOwner(s, e).pages <==> StillReferenced(s, e, s.entries[e].physical))
    ensures EntrySafe(DropOwner(s, e), x, 0)
  {
    if s.entries[x].ownsCache && s.entries[e].ownsCache && s.entries[x].physical == s.entries[e].physical {
      assert x in CacheEntries(s.entries - {e}, s.entries[e].physical);
    }
  }

  lemma DestroyedThread(s: State, e: EntryId, t: ThreadId)
    requires e in s.entries && s.entries[e].owners == 1 && t in s.threads && ThreadSafe(s, t) && !Holds(s.threads[t], e)
    requires EntrySafe(s, e, 1)
    requires s.entries[e].ownsCache ==>
      (s.entries[e].physical in DropOwner(s, e).pages <==> StillReferenced(s, e, s.entries[e].physical))
    ensures ThreadSafe(DropOwner(s, e), t)
  {
    var pc := s.threads[t];
    if s.entries[e].ownsCache && HasPage(pc) && pc.page == s.entries[e].physical {
      assert t in Mappers(s.threads, pc.page) || t in CacheHolders(s.threads, pc.page);
    }
  }

  lemma DestroyedPage(s: State, e: EntryId, q: PageId)
    requires e in s.entries && s.entries[e].owners == 1 && q in DropOwner(s, e).pages && q in s.pages && PageSafe(s, q)
    requires EntrySafe(s, e, 1)
    ensures PageSafe(DropOwner(s, e), q)
  {
    CacheEntriesChanged(s.entries, e, s.entries[e], q);
  }

  lemma DestroyedRecord(s: State, e: EntryId, key: Key)
    requires e in s.entries && s.entries[e].owners == 1 && key in s.table && RecordSafe(s, key) && !Recorded(s, e)
    ensures RecordSafe(DropOwner(s, e), key)
  {
  }

  lemma RemoveRecordSafe(s: State, key: Key)
    requires Safe(s)
    ensures Safe(RemoveRecord(s, key))
  {
    hide SafeUpTo;
    if key in s.table {
      UnlinkedSafe(s, key);
      DropSafe(s.(table := s.table - {key}), s.table[key]);
    }
  }

  // ---- Looking up and linking ----

  lemma RecordFacts(s: State, key: Key)
    requires Safe(s) && key in s.table
    ensures RecordSafe(s, key)
  {
  }

  lemma HitSafe(s: State, t: ThreadId)
    requires Safe(s)
    ensures Safe(DoHit(s, t))
  {
    hide SafeUpTo, PageSafe;
    var s' := DoHit(s, t);
    if s' != s {
      var e := s.table[s.threads[t].key];
      ThreadFacts(s, t);
      EntryFacts(s, e);
      RecordFacts(s, s.threads[t].key);
      OwnersMoved(s.threads, t, s'.threads[t], e);
      NoOtherPrepared(s, e);
      UniqueRecord(s, e);
      EntryWorkSafe(s, s', t, e, None, None);
    }
  }

  /** A record that is linked has no thread still preparing it. */
  lemma NoOtherPrepared(s: State, e: EntryId)
    requires Safe(s) && Recorded(s, e)
    ensures forall u :: u in s.threads && Holds(s.threads[u], e) ==> !s.threads[u].Prepared?
  {
    forall u | u in s.threads && Holds(s.threads[u], e) ensures !s.threads[u].Prepared? {
      assert ThreadSafe(s, u);
    }
  }

  lemma UniqueRecord(s: State, e: EntryId)
    requires Safe(s)
    ensures forall key :: key in s.table && s.table[key] == e ==> e in s.entries && s.entries[e].key == key
  {
    forall key | key in s.table && s.table[key] == e ensures e in s.entries && s.entries[e].key == key {
      assert RecordSafe(s, key);
    }
  }

  /** The filler is the only thread that may still be preparing its entry. */
  lemma OneFiller(s: State, t: ThreadId)
    requires Safe(s) && t in s.threads && Fills(s.threads[t])
    ensures forall u :: u in s.threads && u != t && Holds(s.threads[u], s.threads[t].entry) ==> !Fills(s.threads[u])
  {
    assert ThreadSafe(s, t);
    forall u | u in s.threads && u != t && Holds(s.threads[u], s.threads[t].entry) ensures !Fills(s.threads[u]) {
      assert ThreadSafe(s, u);
    }
  }

  lemma Unknown(s: State, e: EntryId)
    requires Safe(s) && e !in s.entries
    ensures Owners(s.threads, e) == {} && forall u :: u in s.threads ==> !Holds(s.threads[u], e)
  {
    forall u | u in s.threads ensures !Holds(s.threads[u], e) {
      assert ThreadSafe(s, u);
    }
  }

  lemma MissSafe(s: State, t: ThreadId, made: EntryId)
    requires Safe(s)
    ensures Safe(DoMiss(s, t, made))
  {
    hide SafeUpTo, PageSafe;
    var s' := DoMiss(s, t, made);
    if s' != s {
      ThreadFacts(s, t);
      Unknown(s, made);
      OwnersMoved(s.threads, t, s'.threads[t], made);
      UniqueRecord(s, made);
      EntryWorkSafe(s, s', t, made, None, None);
    }
  }

  lemma LinkSafe(s: State, t: ThreadId)
    requires Safe(s) && t in s.threads && s.threads[t].Prepared? && s.threads[t].key !in s.table
    ensures Safe(DoInsert(s, t))
  {
    hide SafeUpTo, PageSafe;
    var s' := DoInsert(s, t);
    var e := s.threads[t].entry;
    ThreadFacts(s, t);
    EntryFacts(s, e);
    OneFiller(s, t);
    UniqueRecord(s, e);
    OwnersMoved(s.threads, t, s'.threads[t], e);
    EntryWorkSafe(s, s', t, e, None, None);
  }

  // ---- Completion ----

  lemma PublishSafe(s: State, t: ThreadId)
    requires Safe(s) && t in s.threads && s.threads[t].Owning?
    ensures Safe(DoComplete(s, t))
  {
    hide SafeUpTo, PageSafe;
    var s' := DoComplete(s, t);
    var e := s.threads[t].entry;
    ThreadFacts(s, t);
    EntryFacts(s, e);
    OneFiller(s, t);
    UniqueRecord(s, e);
    if s.threads[t].key in s.table {
      RecordFacts(s, s.threads[t].key);
    }
    OwnersMoved(s.threads, t, s'.threads[t], e);
    EntryWorkSafe(s, s', t, e, None, None);
  }

  lemma FailSafe(s: State, t: ThreadId)
    requires Safe(s) && t in s.threads && s.threads[t].Failing? && !Recorded(s, s.threads[t].entry)
    ensures s.threads[t].entry in s.entries
    ensures Safe(At(s.(entries := s.entries[s.threads[t].entry := s.entries[s.threads[t].entry].(state := Error)]),
                    t, Published(s.threads[t].key, s.threads[t].entry)))
  {
    hide SafeUpTo, PageSafe;
    var e := s.threads[t].entry;
    ThreadFacts(s, t);
    EntryFacts(s, e);
    var s' := At(s.(entries := s.entries[e := s.entries[e].(state := Error)]), t, Published(s.threads[t].key, e));
    OneFiller(s, t);
    UniqueRecord(s, e);
    OwnersMoved(s.threads, t, s'.threads[t], e);
    EntryWorkSafe(s, s', t, e, None, None);
  }

  lemma CompleteSafe(s: State, t: ThreadId)
    requires Safe(s)
    ensures Safe(DoComplete(s, t))
  {
    hide SafeUpTo, EntrySafe, PageSafe;
    var pc := PcOf(s, t);
    if pc.Owning? {
      PublishSafe(s, t);
    } else if pc.Failing? {
      ThreadFacts(s, t);
      if Recorded(s, pc.entry) {
        RemoveRecordSafe(s, pc.key);
        StillOwned(s, t);
        FailSafe(RemoveRecord(s, pc.key), t);
      } else {
        FailSafe(s, t);
      }
    }
  }

  /** The filler keeps its entry alive when the record goes. */
  lemma StillOwned(s: State, t: ThreadId)
    requires Safe(s) && t in s.threads && HasEntry(s.threads[t]) && Recorded(s, s.threads[t].entry)
    ensures var e := s.threads[t].entry;
      var s' := RemoveRecord(s, s.entries[e].key);
      && s'.threads == s.threads && e in s'.entries && s'.entries[e].key == s.entries[e].key
      && !Recorded(s', e)
  {
    var e := s.threads[t].entry;
    EntryFacts(s, e);
    assert t in Owners(s.threads, e);
  }

  // ---- Leaving an entry ----

  lemma LeaveSafe(s: State, t: ThreadId)
    requires Safe(s) && t in s.threads && (s.threads[t].Waiting? || s.threads[t].Holding?)
    ensures s.threads[t].entry in s.entries
    ensures Safe(At(DropOwner(s, s.threads[t].entry), t, Idle))
  {
    hide SafeUpTo, PageSafe;
    var e := s.threads[t].entry;
    var s' := At(s, t, Idle);
    ThreadFacts(s, t);
    EntryFacts(s, e);
    UniqueRecord(s, e);
    LeavingPrepared(s, t);
    if s.entries[e].key in s.table {
      RecordFacts(s, s.entries[e].key);
    }
    OwnersMoved(s.threads, t, Idle, e);
    assert s'.entries == s.entries[e := s.entries[e]];
    EntryWorkSafe(s, s', t, e, None, Some(e));
    DropSafe(s', e);
    assert DropOwner(s', e) == At(DropOwner(s, e), t, Idle);
  }

  /** Nobody prepares an entry that another thread already found. */
  lemma LeavingPrepared(s: State, t: ThreadId)
    requires Safe(s) && t in s.threads && HasEntry(s.threads[t]) && !Fills(s.threads[t])
    ensures forall u :: u in s.threads && Holds(s.threads[u], s.threads[t].entry) ==> !s.threads[u].Prepared?
  {
    var e := s.threads[t].entry;
    ThreadFacts(s, t);
    EntryFacts(s, e);
    forall u | u in s.threads && Holds(s.threads[u], e) ensures !s.threads[u].Prepared? {
      ThreadFacts(s, u);
      if s.threads[u].Prepared? {
        TwoOwners(s, t, u, e);
      }
    }
  }

  lemma TwoOwners(s: State, t: ThreadId, u: ThreadId, e: EntryId)
    requires t in s.threads && u in s.threads && t != u && Holds(s.threads[t], e) && Holds(s.threads[u], e)
    ensures |Owners(s.threads, e)| >= 2
  {
    assert {t, u} <= Owners(s.threads, e);
    assert |Owners(s.threads, e)| == |Owners(s.threads, e) - {t, u}| + 2;
  }

  /** Two threads missed the same key: the loser throws its entry away and waits for the winner. */
  lemma JoinSafe(s: State, t: ThreadId)
    requires Safe(s) && t in s.threads && s.threads[t].Prepared? && s.threads[t].key in s.table
    ensures Safe(DoInsert(s, t))
  {
    hide SafeUpTo, PageSafe, RecordSafe;
    var own, key := s.threads[t].entry, s.threads[t].key;
    var other := s.table[key];
    ThreadFacts(s, t);
    EntryFacts(s, own);
    RecordFacts(s, key);
    RecordEntry(s, key);
    AbandonSafe(s, t);
    var alone := At(s.(entries := s.entries - {own}), t, Looking(key));
    UniqueRecord(s, own);
    HitSafe(alone, t);
    assert DoHit(alone, t) == DoInsert(s, t);
  }

  /** Throwing away a prepared entry takes the thread back to where it found nothing. */
  lemma AbandonSafe(s: State, t: ThreadId)
    requires Safe(s) && t in s.threads && s.threads[t].Prepared?
    ensures Safe(At(s.(entries := s.entries - {s.threads[t].entry}), t, Looking(s.threads[t].key)))
  {
    hide RecordSafe, EntrySafe, ThreadSafe, PageSafe;
    var own := s.threads[t].entry;
    var s' := At(s.(entries := s.entries - {own}), t, Looking(s.threads[t].key));
    PreparedAlone(s, t);
    forall x | x in s'.entries ensures EntrySafe(s', x, 0) { AbandonedEntry(s, t, x); }
    forall u | u in s'.threads ensures ThreadSafe(s', u) { AbandonedThread(s, t, u); }
    forall p | p in s'.pages ensures PageSafe(s', p) { AbandonedPage(s, t, p); }
    forall key | key in s'.table ensures RecordSafe(s', key) { AbandonedRecord(s, t, key); }
  }

  lemma PreparedAlone(s: State, t: ThreadId)
    requires Safe(s) && t in s.threads && s.threads[t].Prepared?
    ensures s.threads[t].entry in s.entries && !s.entries[s.threads[t].entry].ownsCache
    ensures ValidKey(s, s.threads[t].key)
    ensures forall u :: u in s.threads && u != t ==> !Holds(s.threads[u], s.threads[t].entry)
    ensures forall key :: key in s.table ==> s.table[key] != s.threads[t].entry
  {
    var own := s.threads[t].entry;
    ThreadFacts(s, t);
    EntryFacts(s, own);
    UniqueRecord(s, own);
    forall u | u in s.threads && u != t ensures !Holds(s.threads[u], own) {
      if Holds(s.threads[u], own) {
        TwoOwners(s, t, u, own);
      }
    }
  }

  lemma AbandonedEntry(s: State, t: ThreadId, x: EntryId)
    requires t in s.threads && s.threads[t].Prepared? && x in s.entries && x != s.threads[t].entry && EntrySafe(s, x, 0)
    ensures EntrySafe(At(s.(entries := s.entries - {s.threads[t].entry}), t, Looking(s.threads[t].key)), x, 0)
  {
    OwnersMoved(s.threads, t, Looking(s.threads[t].key), x);
  }

  lemma AbandonedThread(s: State, t: ThreadId, u: ThreadId)
    requires t in s.threads && s.threads[t].Prepared? && u in s.threads && ThreadSafe(s, u) && ValidKey(s, s.threads[t].key)
    requires u != t ==> !Holds(s.threads[u], s.threads[t].entry)
    ensures ThreadSafe(At(s.(entries := s.entries - {s.threads[t].entry}), t, Looking(s.threads[t].key)), u)
  {
  }

  lemma AbandonedPage(s: State, t: ThreadId, p: PageId)
    requires t in s.threads && s.threads[t].Prepared? && p in s.pages && PageSafe(s, p)
    requires s.threads[t].entry in s.entries && !s.entries[s.threads[t].entry].ownsCache
    ensures PageSafe(At(s.(entries := s.entries - {s.threads[t].entry}), t, Looking(s.threads[t].key)), p)
  {
    var own := s.threads[t].entry;
    PageHoldersMoved(s.threads, t, Looking(s.threads[t].key), p);
    CacheEntriesChanged(s.entries, own, s.entries[own], p);
  }

  lemma AbandonedRecord(s: State, t: ThreadId, key: Key)
    requires t in s.threads && s.threads[t].Prepared? && key in s.table && RecordSafe(s, key) && s.table[key] != s.threads[t].entry
    ensures RecordSafe(At(s.(entries := s.entries - {s.threads[t].entry}), t, Looking(s.threads[t].key)), key)
  {
  }

  lemma InsertSafe(s: State, t: ThreadId)
    requires Safe(s)
    ensures Safe(DoInsert(s, t))
  {
    hide SafeUpTo;
    if PcOf(s, t).Prepared? {
      if s.threads[t].key in s.table {
        JoinSafe(s, t);
      } else {
        LinkSafe(s, t);
      }
    }
  }

  // ---- The filler returns ----

  /** Releasing the completion mutex turns the filler into an ordinary owner. */
  lemma ReleasedSafe(s: State, t: ThreadId, pc: Pc)
    requires Safe(s) && t in s.threads && s.threads[t].Published?
    requires pc == Holding(s.threads[t].key, s.threads[t].entry) || pc == Waiting(s.threads[t].key, s.threads[t].entry)
    requires s.threads[t].entry in s.entries
    requires pc.Holding? ==> s.entries[s.threads[t].entry].state == Ready
    ensures Safe(At(s.(entries := s.entries[s.threads[t].entry := s.entries[s.threads[t].entry].(filler := None)]), t, pc))
  {
    hide SafeUpTo, PageSafe;
    var e := s.threads[t].entry;
    var s' := At(s.(entries := s.entries[e := s.entries[e].(filler := None)]), t, pc);
    ThreadFacts(s, t);
    EntryFacts(s, e);
    OneFiller(s, t);
    UniqueRecord(s, e);
    if s.entries[e].key in s.table {
      RecordFacts(s, s.entries[e].key);
    }
    OwnersMoved(s.threads, t, pc, e);
    EntryWorkSafe(s, s', t, e, None, None);
  }

  /** Where the thread stood does not matter once it is idle. */
  lemma LastPlace(s: State, t: ThreadId, pc: Pc, e: EntryId)
    ensures At(DropOwner(At(s, t, pc), e), t, Idle) == At(DropOwner(s, e), t, Idle)
  {
    hide DroppedEntries, DroppedPages;
    assert s.threads[t := pc][t := Idle] == s.threads[t := Idle];
  }

  lemma SignalSafe(s: State, t: ThreadId)
    requires Safe(s)
    ensures Safe(DoSignal(s, t))
  {
    hide Safe, DropOwner;
    if DoSignal(s, t) != s {
      var pc := s.threads[t];
      var woken := s.(entries := s.entries[pc.entry := s.entries[pc.entry].(filler := None)]);
      if s.entries[pc.entry].state == Ready {
        ReleasedSafe(s, t, Holding(pc.key, pc.entry));
      } else {
        var waiting := At(woken, t, Waiting(pc.key, pc.entry));
        ReleasedSafe(s, t, Waiting(pc.key, pc.entry));
        LeaveSafe(waiting, t);
        LastPlace(woken, t, Waiting(pc.key, pc.entry), pc.entry);
      }
    }
  }

  lemma AwaitSafe(s: State, t: ThreadId)
    requires Safe(s)
    ensures Safe(DoAwait(s, t))
  {
    hide SafeUpTo, EntrySafe;
    if DoAwait(s, t) != s {
      var pc := s.threads[t];
      ThreadFacts(s, t);
      if s.entries[pc.entry].state == Ready {
        PlainMoveSafe(s, t, Holding(pc.key, pc.entry));
      } else {
        LeaveSafe(s, t);
      }
    }
  }

  lemma FinishSafe(s: State, t: ThreadId)
    requires Safe(s)
    ensures Safe(DoFinish(s, t))
  {
    hide SafeUpTo;
    if PcOf(s, t).Holding? {
      LeaveSafe(s, t);
    }
  }

  // ---- Mappings ----

  /** Handing the mapping to a process, or giving it back, leaves the thread holding the entry. */
  lemma UnmappedSafe(s: State, t: ThreadId, keep: bool)
    requires Safe(s) && t in s.threads && s.threads[t].Mapped? && s.threads[t].page in s.pages
    ensures var pc := s.threads[t];
      Safe(At(if keep then s.(installed := s.installed[pc.page := Installed(s, pc.page) + 1])
              else s.(pages := ReleaseMapping(s.pages, pc.page)), t, Holding(pc.key, pc.entry)))
  {
    hide SafeUpTo, RecordSafe;
    var pc := s.threads[t];
    var s' := At(if keep then s.(installed := s.installed[pc.page := Installed(s, pc.page) + 1])
                 else s.(pages := ReleaseMapping(s.pages, pc.page)), t, Holding(pc.key, pc.entry));
    ThreadFacts(s, t);
    EntryFacts(s, pc.entry);
    PageFacts(s, pc.page);
    PageHoldersMoved(s.threads, t, s'.threads[t], pc.page);
    assert pc.entry in CacheEntries(s.entries, pc.page) && t in Mappers(s.threads, pc.page);
    MoveSafe(s, s', t, pc.page);
  }

  lemma ValidateSafe(s: State, t: ThreadId)
    requires Safe(s)
    ensures Safe(DoValidate(s, t))
  {
    hide Safe, DropOwner, ReleaseMapping, IsCurrent;
    if DoValidate(s, t) != s {
      var pc := s.threads[t];
      var keep := IsCurrent(s, pc.key);
      UnmappedSafe(s, t, keep);
      var moved := if keep then s.(installed := s.installed[pc.page := Installed(s, pc.page) + 1])
                   else s.(pages := ReleaseMapping(s.pages, pc.page));
      var holding := At(moved, t, Holding(pc.key, pc.entry));
      LeaveSafe(holding, t);
      LastPlace(moved, t, Holding(pc.key, pc.entry), pc.entry);
    }
  }

  lemma UnmapSafe(s: State, p: PageId)
    requires Safe(s)
    ensures Safe(DoUnmap(s, p))
  {
    hide RecordSafe, EntrySafe, ThreadSafe, PageSafe;
    var s' := DoUnmap(s, p);
    if s' != s {
      forall e | e in s'.entries ensures EntrySafe(s', e, 0) { UnmappedEntry(s, p, e); }
      forall t | t in s'.threads ensures ThreadSafe(s', t) { UnmappedThread(s, p, t); }
      forall q | q in s'.pages ensures PageSafe(s', q) { UnmappedPage(s, p, q); }
      UnmappedInstalled(s, p);
      forall key | key in s'.table ensures RecordSafe(s', key) { UnmappedRecord(s, p, key); }
    }
  }

  lemma UnmappedEntry(s: State, p: PageId, e: EntryId)
    requires e in s.entries && EntrySafe(s, e, 0) && (p in s.pages ==> PageSafe(s, p))
    ensures EntrySafe(DoUnmap(s, p), e, 0)
  {
    assert OwnsPage(s.entries[e], p) ==> e in CacheEntries(s.entries, p);
  }

  lemma UnmappedThread(s: State, p: PageId, t: ThreadId)
    requires t in s.threads && ThreadSafe(s, t) && (p in s.pages ==> PageSafe(s, p))
    ensures ThreadSafe(DoUnmap(s, p), t)
  {
    assert HoldsMapping(s.threads[t], p) ==> t in Mappers(s.threads, p);
    assert HoldsCache(s.threads[t], p) ==> t in CacheHolders(s.threads, p);
  }

  lemma UnmappedPage(s: State, p: PageId, q: PageId)
    requires q in s.pages && q in DoUnmap(s, p).pages && PageSafe(s, q)
    ensures PageSafe(DoUnmap(s, p), q)
  {
  }

  lemma UnmappedInstalled(s: State, p: PageId)
    requires p in s.pages ==> PageSafe(s, p)
    requires forall q :: q in s.installed && s.installed[q] > 0 ==> q in s.pages
    ensures forall q :: q in DoUnmap(s, p).installed && DoUnmap(s, p).installed[q] > 0 ==> q in DoUnmap(s, p).pages
  {
  }

  lemma UnmappedRecord(s: State, p: PageId, key: Key)
    requires key in s.table && RecordSafe(s, key)
    ensures RecordSafe(DoUnmap(s, p), key)
  {
  }

  // ---- Writers ----

  lemma BumpSafe(s: State, identity: Identity, bytes: seq<Byte>)
    requires Safe(s)
    ensures Safe(DoBump(s, identity, bytes))
  {
    hide RecordSafe, EntrySafe, ThreadSafe, PageSafe;
    var s' := DoBump(s, identity, bytes);
    if s' != s {
      forall e | e in s'.entries ensures EntrySafe(s', e, 0) { BumpedEntry(s, identity, bytes, e); }
      forall t | t in s'.threads ensures ThreadSafe(s', t) { BumpedThread(s, identity, bytes, t); }
      forall q | q in s'.pages ensures PageSafe(s', q) { BumpedPage(s, identity, bytes, q); }
      forall key | key in s'.table ensures RecordSafe(s', key) { BumpedRecord(s, identity, bytes, key); }
    }
  }

  lemma BumpedKey(s: State, identity: Identity, bytes: seq<Byte>, key: Key)
    requires ValidKey(s, key)
    ensures ValidKey(DoBump(s, identity, bytes), key)
    ensures Expected(DoBump(s, identity, bytes), key) == Expected(s, key)
  {
  }

  lemma BumpedEntry(s: State, identity: Identity, bytes: seq<Byte>, e: EntryId)
    requires e in s.entries && EntrySafe(s, e, 0)
    ensures EntrySafe(DoBump(s, identity, bytes), e, 0)
  {
    BumpedKey(s, identity, bytes, s.entries[e].key);
  }

  lemma BumpedThread(s: State, identity: Identity, bytes: seq<Byte>, t: ThreadId)
    requires t in s.threads && ThreadSafe(s, t)
    ensures ThreadSafe(DoBump(s, identity, bytes), t)
  {
    if s.threads[t].Looking? || Carries(s.threads[t]) {
      BumpedKey(s, identity, bytes, s.threads[t].key);
    }
  }

  lemma BumpedPage(s: State, identity: Identity, bytes: seq<Byte>, p: PageId)
    requires p in s.pages && PageSafe(s, p)
    ensures PageSafe(DoBump(s, identity, bytes), p)
  {
  }

  lemma BumpedRecord(s: State, identity: Identity, bytes: seq<Byte>, key: Key)
    requires key in s.table && RecordSafe(s, key)
    ensures RecordSafe(DoBump(s, identity, bytes), key)
  {
  }

  lemma {:induction false} RemoveRecordsSafe(s: State, keys: seq<Key>)
    requires Safe(s)
    ensures var s' := RemoveRecords(s, keys);
      && Safe(s') && s'.files == s.files && s'.busy == s.busy
      && forall key :: key in s'.table ==> key in s.table && key !in keys
    decreases |keys|
  {
    hide SafeUpTo;
    if keys != [] {
      RemoveRecordSafe(s, keys[0]);
      RemoveRecordsSafe(RemoveRecord(s, keys[0]), keys[1..]);
    }
  }

  lemma InvalidateSafe(s: State, stale: seq<Key>)
    requires Safe(s)
    ensures Safe(DoInvalidate(s, stale))
  {
    if Stale(s, stale) {
      RemoveRecordsSafe(s, stale);
      UnlockedSafe(RemoveRecords(s, stale));
    }
  }

  /** Once no record of the bumped inode is stale, vfs_lock can be released. */
  lemma UnlockedSafe(s: State)
    requires Safe(s) && s.busy.Some?
    requires forall key :: key in s.table && key.identity == s.busy.value ==>
      Known(s, key.identity) && key.version == Version(s, key.identity)
    ensures Safe(s.(busy := None))
  {
    hide EntrySafe, ThreadSafe, PageSafe;
    var s' := s.(busy := None);
    forall e | e in s'.entries ensures EntrySafe(s', e, 0) { UnlockedEntry(s, e); }
    forall t | t in s'.threads ensures ThreadSafe(s', t) { UnlockedThread(s, t); }
    forall p | p in s'.pages ensures PageSafe(s', p) { UnlockedPage(s, p); }
    forall key | key in s'.table ensures RecordSafe(s', key) { assert RecordSafe(s, key); }
  }

  lemma UnlockedEntry(s: State, e: EntryId)
    requires e in s.entries && EntrySafe(s, e, 0)
    ensures EntrySafe(s.(busy := None), e, 0)
  {
  }

  lemma UnlockedThread(s: State, t: ThreadId)
    requires t in s.threads && ThreadSafe(s, t)
    ensures ThreadSafe(s.(busy := None), t)
  {
  }

  lemma UnlockedPage(s: State, p: PageId)
    requires p in s.pages && PageSafe(s, p)
    ensures PageSafe(s.(busy := None), p)
  {
  }

  // ---- Every section, every run ----

  lemma SectionSafe(s: State, a: Action)
    requires Safe(s)
    ensures Safe(Apply(s, a))
  {
    hide Safe;
    match a
    case Look(thread, identity, index) => LookSafe(s, thread, identity, index);
    case Hit(thread) => HitSafe(s, thread);
    case Miss(thread, made) => MissSafe(s, thread, made);
    case Insert(thread) => InsertSafe(s, thread);
    case Allocate(thread, got) => AllocateSafe(s, thread, got);
    case Fill(thread, readable) => FillSafe(s, thread, readable);
    case Adopt(thread, success) => AdoptSafe(s, thread, success);
    case RetainCache(thread) => RetainCacheSafe(s, thread);
    case ReleaseFirstMapping(thread) => ReleaseFirstMappingSafe(s, thread);
    case Complete(thread) => CompleteSafe(s, thread);
    case Signal(thread) => SignalSafe(s, thread);
    case Await(thread) => AwaitSafe(s, thread);
    case Finish(thread) => FinishSafe(s, thread);
    case RetainMapping(thread) => RetainMappingSafe(s, thread);
    case Validate(thread) => ValidateSafe(s, thread);
    case Unmap(page) => UnmapSafe(s, page);
    case Bump(identity, bytes) => BumpSafe(s, identity, bytes);
    case Invalidate(stale) => InvalidateSafe(s, stale);
    case Detach(key) => RemoveRecordSafe(s, key);
    case ForgetRecord(key) => RemoveRecordSafe(s, key);
  }

  /** The cache before anything was looked up. */
  ghost predicate Fresh(s: State) {
    s.busy == None && s.table == map[] && s.entries == map[] && s.pages == map[] && s.installed == map[] && s.threads == map[]
  }

  lemma {:induction false} RunsSafe(s: State, run: seq<Action>)
    requires Safe(s)
    ensures Safe(Run(s, run))
    decreases |run|
  {
    hide Safe;
    if run != [] {
      SectionSafe(s, run[0]);
      RunsSafe(Apply(s, run[0]), run[1..]);
    }
  }
}
