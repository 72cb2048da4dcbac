/** Who keeps a shared page alive, in every interleaving. */
module SharedPageLifeSafety {
  import opened FileBytes
  import opened SharedPageLife
  import C = FileCache
  import opened Counting

  // ---- Who refers to what ----

  predicate HasErrand(pc: Pc) {
    pc.Waiting? || pc.Holding?
  }

  predicate Fills(pc: Pc) {
    pc.Prepared? || pc.Filling? || pc.Blank? || pc.Filled? || pc.Adopted? || pc.Retained? || pc.Owning? || pc.Failing? || pc.Published?
  }

  predicate HasEntry(pc: Pc) {
    Fills(pc) || pc.Settled? || HasErrand(pc)
  }

  predicate Holds(pc: Pc, e: EntryId) {
    HasEntry(pc) && pc.entry == e
  }

  /** The page belongs to the thread that allocated it. */
  predicate Unmanaged(pc: Pc) {
    pc.Blank? || pc.Filled?
  }

  /** Between the read of the backend and the publication. */
  predicate Carries(pc: Pc) {
    pc.Filled? || pc.Adopted? || pc.Retained? || pc.Owning?
  }

  predicate FillsPage(pc: Pc) {
    Unmanaged(pc) || Carries(pc)
  }

  predicate PageErrand(errand: Errand) {
    errand.Take? || errand.Join? || errand.Back?
  }

  predicate HoldsMapping(pc: Pc, p: PageId) {
    || ((pc.Adopted? || pc.Retained? || pc.Carrying? || pc.Lost?) && pc.page == p)
    || (HasErrand(pc) && PageErrand(pc.errand) && pc.errand.page == p)
  }

  predicate HoldsCache(pc: Pc, p: PageId) {
    (pc.Retained? || pc.Owning?) && pc.page == p
  }

  predicate UsesPage(pc: Pc, p: PageId) {
    (FillsPage(pc) && pc.page == p) || HoldsMapping(pc, p)
  }

  predicate UnderVfs(pc: Pc) {
    Carries(pc) || pc.Failing? || pc.Published? || pc.Settled?
  }

  /** The thread took this mapping out of the page table. */
  predicate Leaves(pc: Pc, m: MappingId) {
    (pc.Leaving? && pc.mapping == m) || (HasErrand(pc) && (pc.errand == Leave(m) || pc.errand == Left(m)))
  }

  function Owners(threads: map<ThreadId, Pc>, e: EntryId): set<ThreadId> {
    set t | t in threads && Holds(threads[t], e)
  }

  function Mappers(threads: map<ThreadId, Pc>, p: PageId): set<ThreadId> {
    set t | t in threads && HoldsMapping(threads[t], p)
  }

  function CacheHolders(threads: map<ThreadId, Pc>, p: PageId): set<ThreadId> {
    set t | t in threads && HoldsCache(threads[t], p)
  }

  function RawHolders(threads: map<ThreadId, Pc>, p: PageId): set<ThreadId> {
    set t | t in threads && Unmanaged(threads[t]) && threads[t].page == p
  }

  function CacheEntries(entries: map<EntryId, Entry>, p: PageId): set<EntryId> {
    set e | e in entries && entries[e].physical == Some(p)
  }

  function Mapped(mappings: map<MappingId, Mapping>, p: PageId): set<MappingId> {
    set m | m in mappings && mappings[m].page == p
  }

  predicate Recorded(s: State, e: EntryId) {
    e in s.entries && s.entries[e].key in s.table && s.table[s.entries[e].key] == e
  }

  /** The table still leads from the key to a Ready page at this address. */
  predicate Backed(s: State, key: Key, p: PageId) {
    key in s.table && s.table[key] in s.entries && s.entries[s.table[key]].state == C.Ready
    && s.entries[s.table[key]].physical == Some(p)
  }

  // ---- The invariant ----

  /** Neither dirty nor mapped. */
  predicate CleanPage(entry: Entry) {
    !entry.dirty && entry.aliases == {}
  }

  predicate AliasSafe(s: State, entry: Entry, m: MappingId) {
    m in s.mappings && s.mappings[m].attached && s.mappings[m].key == entry.key && Some(s.mappings[m].page) == entry.physical
  }

  /** `surplus` owners are accounted for by a reference that is about to be dropped. */
  ghost predicate EntrySafe(s: State, e: EntryId, surplus: nat)
    requires e in s.entries
  {
    var entry := s.entries[e];
    && entry.owners == surplus + One(Recorded(s, e)) + |Owners(s.threads, e)|
    && entry.owners > 0
    && (entry.filler.Some? ==> entry.filler.value in s.threads && Fills(s.threads[entry.filler.value])
                               && s.threads[entry.filler.value].entry == e)
    && (entry.state == C.Loading ==> entry.filler.Some?)
    && (entry.state == C.Ready <==> entry.physical.Some?)
    && (entry.physical.Some? ==> entry.physical.value in s.pages && s.pages[entry.physical.value].managed)
    && (!CleanPage(entry) ==> entry.state == C.Ready && Recorded(s, e) && entry.key.identity in s.files)
    && (forall m :: m in entry.aliases ==> AliasSafe(s, entry, m))
  }

  ghost predicate ErrandSafe(s: State, t: ThreadId, key: Key, e: EntryId, errand: Errand) {
    && (PageErrand(errand) ==> Backed(s, key, errand.page) && Recorded(s, e))
    && (errand.Leave? || errand.Left? ==>
          && Recorded(s, e) && errand.mapping in s.mappings && s.mappings[errand.mapping].leaver == Some(t)
          && s.mappings[errand.mapping].key == key && s.mappings[errand.mapping].attached == errand.Leave?
          && Backed(s, key, s.mappings[errand.mapping].page))
  }

  ghost predicate HolderSafe(s: State, t: ThreadId)
    requires t in s.threads && HasEntry(s.threads[t])
  {
    var pc := s.threads[t];
    && pc.entry in s.entries && s.entries[pc.entry].key == pc.key
    && (Fills(pc) ==> s.entries[pc.entry].filler == Some(t) && (pc.Published? <==> s.entries[pc.entry].state != C.Loading))
    && (pc.Prepared? ==> !Recorded(s, pc.entry) && s.entries[pc.entry].owners == 1)
    && (pc.Settled? ==> s.entries[pc.entry].state != C.Loading)
    && (pc.Holding? ==> s.entries[pc.entry].state == C.Ready)
    && (!pc.Prepared? && s.entries[pc.entry].state != C.Error && pc.key.identity in s.files ==> Recorded(s, pc.entry))
    && (HasErrand(pc) ==> ErrandSafe(s, t, pc.key, pc.entry, pc.errand))
  }

  ghost predicate ThreadSafe(s: State, t: ThreadId)
    requires t in s.threads
  {
    var pc := s.threads[t];
    && !pc.Lost?
    && (HasEntry(pc) ==> HolderSafe(s, t))
    && (FillsPage(pc) ==> pc.page in s.pages && (Unmanaged(pc) <==> !s.pages[pc.page].managed))
    && (!pc.Idle? && !pc.Leaving? && RetainsInode(pc, pc.key.identity) ==> pc.key.identity in s.files)
    && (pc.Carrying? ==> Backed(s, pc.key, pc.page))
    && (pc.Leaving? ==> pc.mapping in s.mappings && s.mappings[pc.mapping].leaver == Some(t) && !s.mappings[pc.mapping].attached)
    && (Carries(pc) ==> s.vfs == Some(t) && pc.key.identity in s.files
                        && s.pages[pc.page].bytes == PaddedPage(s.files[pc.key.identity], pc.key.index))
    && (s.vfs == Some(t) ==> UnderVfs(pc))
  }

  ghost predicate PageSafe(s: State, p: PageId)
    requires p in s.pages
  {
    var page := s.pages[p];
    && page.mapping == |Mappers(s.threads, p)| + |Mapped(s.mappings, p)|
    && page.cache == |CacheHolders(s.threads, p)| + |CacheEntries(s.entries, p)|
    && (page.managed <==> page.mapping + page.cache > 0)
    && (!page.managed ==> RawHolders(s.threads, p) != {})
  }

  ghost predicate MappingSafe(s: State, m: MappingId)
    requires m in s.mappings
  {
    var mapping := s.mappings[m];
    && mapping.key.identity in s.files
    && Backed(s, mapping.key, mapping.page)
    && (mapping.attached <==> m in s.entries[s.table[mapping.key]].aliases)
    && (mapping.leaver.None? ==> mapping.attached)
  }

  ghost predicate RecordSafe(s: State, key: Key)
    requires key in s.table
  {
    s.table[key] in s.entries && s.entries[s.table[key]].key == key && s.entries[s.table[key]].state != C.Error
  }

  predicate SamePage(left: Pc, right: Pc) {
    Unmanaged(left) && Unmanaged(right) && left.page == right.page
  }

  ghost predicate PrivatePages(s: State) {
    forall t, u :: t in s.threads && u in s.threads && SamePage(s.threads[t], s.threads[u]) ==> t == u
  }

  ghost predicate SafeUpTo(s: State, dropped: Option<EntryId>) {
    && (forall e :: e in s.entries ==> EntrySafe(s, e, One(dropped == Some(e))))
    && (forall t :: t in s.threads ==> ThreadSafe(s, t))
    && (forall p :: p in s.pages ==> PageSafe(s, p))
    && (forall m :: m in s.mappings ==> MappingSafe(s, m))
    && (forall key :: key in s.table ==> RecordSafe(s, key))
    && PrivatePages(s)
    && (s.vfs.Some? ==> s.vfs.value in s.threads)
  }

  ghost predicate Safe(s: State) {
    SafeUpTo(s, None)
  }

  // ---- What the invariant says about one thing ----

  lemma ThreadFacts(s: State, t: ThreadId)
    requires Safe(s) && t in s.threads
    ensures ThreadSafe(s, t)
  {
  }

  lemma EntryFacts(s: State, e: EntryId)
    requires Safe(s) && e in s.entries
    ensures EntrySafe(s, e, 0)
  {
  }

  lemma PageFacts(s: State, p: PageId)
    requires Safe(s) && p in s.pages
    ensures PageSafe(s, p)
  {
  }

  lemma MappingFacts(s: State, m: MappingId)
    requires Safe(s) && m in s.mappings
    ensures MappingSafe(s, m)
  {
  }

  lemma RecordFacts(s: State, key: Key)
    requires Safe(s) && key in s.table
    ensures RecordSafe(s, key)
  {
  }

  // ---- A section that changes one thread and at most one entry, page and mapping ----

  /** Entries other than `e` are held as before. */
  predicate Loyal(pc: Pc, pc': Pc, e: Option<EntryId>) {
    && (HasEntry(pc) && Some(pc.entry) != e ==> HasEntry(pc') && pc'.entry == pc.entry && Fills(pc') == Fills(pc))
    && (HasEntry(pc') && Some(pc'.entry) != e ==> HasEntry(pc) && pc.entry == pc'.entry)
  }

  /** What others that refer to the entry rely on. */
  ghost predicate EntryKept(s: State, s': State, t: ThreadId, e: EntryId, m: Option<MappingId>) {
    e in s.entries ==>
      && e in s'.entries && s'.entries[e].key == s.entries[e].key
      && (s.entries[e].state == C.Ready ==> s'.entries[e].state == C.Ready)
      && (s.entries[e].physical.Some? ==> s'.entries[e].physical == s.entries[e].physical)
      && (s.entries[e].state == C.Error ==> s'.entries[e].state == C.Error)
      && (s.entries[e].filler == Some(t) || (s'.entries[e].filler == s.entries[e].filler && s'.entries[e].state == s.entries[e].state))
      && (forall n :: Some(n) != m ==> (n in s'.entries[e].aliases <==> n in s.entries[e].aliases))
  }

  /** The record of a page that failed to load. */
  predicate RecordFails(s: State, s': State, key: Key, e: Option<EntryId>)
    requires key in s.table
  {
    e == Some(s.table[key]) && e.value in s.entries && s.entries[e.value].state == C.Loading
    && e.value in s'.entries && s'.entries[e.value].state == C.Error
  }

  ghost predicate RecordsKept(s: State, s': State, e: Option<EntryId>) {
    && (forall key :: key in s.table ==> (key in s'.table && s'.table[key] == s.table[key]) || RecordFails(s, s', key, e))
    && (forall key :: key in s'.table ==> (key in s.table && s'.table[key] == s.table[key]) || Some(s'.table[key]) == e)
  }

  predicate PageKept(s: State, s': State, p: PageId) {
    p in s.pages ==> p in s'.pages && s'.pages[p].managed == s.pages[p].managed && s'.pages[p].bytes == s.pages[p].bytes
  }

  /** A mapping that another thread takes down is left alone. */
  predicate MappingKept(s: State, s': State, t: ThreadId, m: MappingId) {
    m in s.mappings && s.mappings[m].leaver.Some? && s.mappings[m].leaver.value != t ==>
      m in s'.mappings && s'.mappings[m] == s.mappings[m]
  }

  predicate MapsHere(s: State, m: Option<MappingId>, p: PageId) {
    m.Some? && m.value in s.mappings && s.mappings[m.value].page == p
  }

  predicate OwnsHere(s: State, e: Option<EntryId>, p: PageId) {
    e.Some? && e.value in s.entries && s.entries[e.value].physical == Some(p)
  }

  /** References to the page move between thread, entry and mapping, but their number stays. */
  predicate SameReferences(s: State, s': State, t: ThreadId, e: Option<EntryId>, m: Option<MappingId>, q: PageId) {
    && One(HoldsMapping(PcOf(s', t), q)) + One(MapsHere(s', m, q)) == One(HoldsMapping(PcOf(s, t), q)) + One(MapsHere(s, m, q))
    && One(HoldsCache(PcOf(s', t), q)) + One(OwnsHere(s', e, q)) == One(HoldsCache(PcOf(s, t), q)) + One(OwnsHere(s, e, q))
    && (Unmanaged(PcOf(s, t)) && PcOf(s, t).page == q ==> Unmanaged(PcOf(s', t)) && PcOf(s', t).page == q)
  }

  ghost predicate OthersSame(s: State, s': State, t: ThreadId, e: Option<EntryId>, p: Option<PageId>, m: Option<MappingId>) {
    && s'.files == s.files
    && (forall u :: u != t ==> (u in s'.threads <==> u in s.threads))
    && (forall u :: u in s.threads && u in s'.threads && u != t ==> s'.threads[u] == s.threads[u])
    && (forall x :: Some(x) != e ==> (x in s'.entries <==> x in s.entries))
    && (forall x :: x in s.entries && x in s'.entries && Some(x) != e ==> s'.entries[x] == s.entries[x])
    && (forall q :: Some(q) != p ==> (q in s'.pages <==> q in s.pages))
    && (forall q :: q in s.pages && q in s'.pages && Some(q) != p ==> s'.pages[q] == s.pages[q])
    && (forall n :: Some(n) != m ==> (n in s'.mappings <==> n in s.mappings))
    && (forall n :: n in s.mappings && n in s'.mappings && Some(n) != m ==> s'.mappings[n] == s.mappings[n])
    && (t in s.threads ==> t in s'.threads)
    && (s'.vfs == s.vfs || ((s.vfs == None || s.vfs == Some(t)) && (s'.vfs == None || (s'.vfs == Some(t) && t in s'.threads))))
  }

  ghost predicate Step(s: State, s': State, t: ThreadId, e: Option<EntryId>, p: Option<PageId>, m: Option<MappingId>) {
    && OthersSame(s, s', t, e, p, m)
    && Loyal(PcOf(s, t), PcOf(s', t), e)
    && (e.Some? ==> EntryKept(s, s', t, e.value, m))
    && RecordsKept(s, s', e)
    && (m.Some? ==> MappingKept(s, s', t, m.value))
    && (forall q: PageId :: Some(q) != p ==> SameReferences(s, s', t, e, m, q))
  }

  lemma BackedKept(s: State, s': State, t: ThreadId, e: Option<EntryId>, p: Option<PageId>, m: Option<MappingId>, key: Key, q: PageId)
    requires Step(s, s', t, e, p, m) && Backed(s, key, q)
    ensures Backed(s', key, q) && s'.table[key] == s.table[key]
  {
  }

  lemma RecordedKept(s: State, s': State, t: ThreadId, e: Option<EntryId>, p: Option<PageId>, m: Option<MappingId>, x: EntryId)
    requires Step(s, s', t, e, p, m) && x in s.entries && x in s'.entries
    ensures Recorded(s, x) && s'.entries[x].state != C.Error ==> Recorded(s', x)
    ensures Some(x) != e ==> (Recorded(s', x) <==> Recorded(s, x))
  {
  }

  lemma StepEntry(s: State, s': State, t: ThreadId, e: Option<EntryId>, p: Option<PageId>, m: Option<MappingId>, x: EntryId)
    requires Step(s, s', t, e, p, m) && x in s.entries && x in s'.entries && Some(x) != e && EntrySafe(s, x, 0)
    requires p.Some? && s.entries[x].physical == p ==> PageKept(s, s', p.value)
    requires m.Some? && m.value in s.entries[x].aliases ==> AliasSafe(s', s.entries[x], m.value)
    ensures EntrySafe(s', x, 0)
  {
    hide EntryKept, SameReferences, RecordsKept;
    assert Owners(s'.threads, x) == Owners(s.threads, x);
    RecordedKept(s, s', t, e, p, m, x);
    forall n | n in s'.entries[x].aliases ensures AliasSafe(s', s'.entries[x], n) {
      assert AliasSafe(s, s.entries[x], n);
    }
  }

  lemma StepErrand(s: State, s': State, t: ThreadId, e: Option<EntryId>, p: Option<PageId>, m: Option<MappingId>, u: ThreadId)
    requires Step(s, s', t, e, p, m) && u in s.threads && u in s'.threads && u != t
    requires HasErrand(s.threads[u]) && HolderSafe(s, u) && s.threads[u].entry in s'.entries
    ensures ErrandSafe(s', u, s.threads[u].key, s.threads[u].entry, s.threads[u].errand)
  {
    hide SameReferences, Loyal;
    var pc := s.threads[u];
    if PageErrand(pc.errand) {
      BackedKept(s, s', t, e, p, m, pc.key, pc.errand.page);
    } else if pc.errand.Leave? || pc.errand.Left? {
      BackedKept(s, s', t, e, p, m, pc.key, s.mappings[pc.errand.mapping].page);
    }
  }

  lemma StepHolder(s: State, s': State, t: ThreadId, e: Option<EntryId>, p: Option<PageId>, m: Option<MappingId>, u: ThreadId)
    requires Step(s, s', t, e, p, m) && u in s.threads && u in s'.threads && u != t && HasEntry(s.threads[u]) && HolderSafe(s, u)
    requires !(s.threads[u].Prepared? && Some(s.threads[u].entry) == e)
    ensures HolderSafe(s', u)
  {
    hide SameReferences, Loyal, ErrandSafe, RecordsKept;
    RecordedKept(s, s', t, e, p, m, s.threads[u].entry);
    if HasErrand(s.threads[u]) {
      StepErrand(s, s', t, e, p, m, u);
    }
  }

  lemma StepThread(s: State, s': State, t: ThreadId, e: Option<EntryId>, p: Option<PageId>, m: Option<MappingId>, u: ThreadId)
    requires Step(s, s', t, e, p, m) && u in s.threads && u in s'.threads && u != t && ThreadSafe(s, u)
    requires !(s.threads[u].Prepared? && Some(s.threads[u].entry) == e)
    requires p.Some? && FillsPage(s.threads[u]) && s.threads[u].page == p.value ==> PageKept(s, s', p.value)
    ensures ThreadSafe(s', u)
  {
    hide SameReferences, Loyal, HolderSafe, RecordsKept, EntryKept, Backed;
    var pc := s.threads[u];
    if HasEntry(pc) {
      StepHolder(s, s', t, e, p, m, u);
    }
    if pc.Carrying? {
      BackedKept(s, s', t, e, p, m, pc.key, pc.page);
    }
  }

  lemma RecountThreads(s: State, s': State, t: ThreadId, e: Option<EntryId>, p: Option<PageId>, m: Option<MappingId>, q: PageId)
    requires OthersSame(s, s', t, e, p, m)
    ensures |Mappers(s'.threads, q)| == |Mappers(s.threads, q)| - One(HoldsMapping(PcOf(s, t), q)) + One(HoldsMapping(PcOf(s', t), q))
    ensures |CacheHolders(s'.threads, q)| == |CacheHolders(s.threads, q)| - One(HoldsCache(PcOf(s, t), q)) + One(HoldsCache(PcOf(s', t), q))
  {
    hide HoldsMapping, HoldsCache;
    NobodyIdle(q);
    Replaced(Mappers(s.threads, q), Mappers(s'.threads, q), t);
    Replaced(CacheHolders(s.threads, q), CacheHolders(s'.threads, q), t);
  }

  lemma NobodyIdle(q: PageId)
    ensures !HoldsMapping(Idle, q) && !HoldsCache(Idle, q)
  {
  }

  lemma RecountMapped(s: State, s': State, t: ThreadId, e: Option<EntryId>, p: Option<PageId>, m: Option<MappingId>, q: PageId)
    requires OthersSame(s, s', t, e, p, m)
    ensures |Mapped(s'.mappings, q)| == |Mapped(s.mappings, q)| - One(MapsHere(s, m, q)) + One(MapsHere(s', m, q))
  {
    if m.Some? {
      Replaced(Mapped(s.mappings, q), Mapped(s'.mappings, q), m.value);
    } else {
      assert Mapped(s.mappings, q) == Mapped(s'.mappings, q);
    }
  }

  lemma RecountEntries(s: State, s': State, t: ThreadId, e: Option<EntryId>, p: Option<PageId>, m: Option<MappingId>, q: PageId)
    requires OthersSame(s, s', t, e, p, m)
    ensures |CacheEntries(s'.entries, q)| == |CacheEntries(s.entries, q)| - One(OwnsHere(s, e, q)) + One(OwnsHere(s', e, q))
  {
    if e.Some? {
      Replaced(CacheEntries(s.entries, q), CacheEntries(s'.entries, q), e.value);
    } else {
      assert CacheEntries(s.entries, q) == CacheEntries(s'.entries, q);
    }
  }

  /** How the holders of a page change with one thread, entry and mapping. */
  lemma Recount(s: State, s': State, t: ThreadId, e: Option<EntryId>, p: Option<PageId>, m: Option<MappingId>, q: PageId)
    requires OthersSame(s, s', t, e, p, m)
    ensures |Mappers(s'.threads, q)| == |Mappers(s.threads, q)| - One(HoldsMapping(PcOf(s, t), q)) + One(HoldsMapping(PcOf(s', t), q))
    ensures |CacheHolders(s'.threads, q)| == |CacheHolders(s.threads, q)| - One(HoldsCache(PcOf(s, t), q)) + One(HoldsCache(PcOf(s', t), q))
    ensures |Mapped(s'.mappings, q)| == |Mapped(s.mappings, q)| - One(MapsHere(s, m, q)) + One(MapsHere(s', m, q))
    ensures |CacheEntries(s'.entries, q)| == |CacheEntries(s.entries, q)| - One(OwnsHere(s, e, q)) + One(OwnsHere(s', e, q))
  {
    hide OthersSame, HoldsMapping, HoldsCache, MapsHere, OwnsHere, Mappers, CacheHolders, Mapped, CacheEntries;
    RecountThreads(s, s', t, e, p, m, q);
    RecountMapped(s, s', t, e, p, m, q);
    RecountEntries(s, s', t, e, p, m, q);
  }

  lemma RecountOwners(s: State, s': State, t: ThreadId, e: Option<EntryId>, p: Option<PageId>, m: Option<MappingId>, x: EntryId)
    requires OthersSame(s, s', t, e, p, m)
    ensures |Owners(s'.threads, x)| == |Owners(s.threads, x)| - One(Holds(PcOf(s, t), x)) + One(Holds(PcOf(s', t), x))
  {
    Replaced(Owners(s.threads, x), Owners(s'.threads, x), t);
  }

  lemma StepPage(s: State, s': State, t: ThreadId, e: Option<EntryId>, p: Option<PageId>, m: Option<MappingId>, q: PageId)
    requires Step(s, s', t, e, p, m) && q in s.pages && q in s'.pages && Some(q) != p && PageSafe(s, q)
    ensures PageSafe(s', q)
  {
    hide Loyal, EntryKept, RecordsKept, HoldsMapping, HoldsCache, MapsHere, OwnsHere, Mappers, CacheHolders, Mapped, CacheEntries;
    Recount(s, s', t, e, p, m, q);
    assert SameReferences(s, s', t, e, m, q);
    if RawHolders(s.threads, q) != {} {
      var u :| u in RawHolders(s.threads, q);
      assert u in RawHolders(s'.threads, q);
    }
  }

  lemma StepMapping(s: State, s': State, t: ThreadId, e: Option<EntryId>, p: Option<PageId>, m: Option<MappingId>, n: MappingId)
    requires Step(s, s', t, e, p, m) && n in s.mappings && n in s'.mappings && Some(n) != m && MappingSafe(s, n)
    ensures MappingSafe(s', n)
  {
    hide Loyal, RecordsKept, SameReferences;
    BackedKept(s, s', t, e, p, m, s.mappings[n].key, s.mappings[n].page);
  }

  lemma StepRecord(s: State, s': State, t: ThreadId, e: Option<EntryId>, p: Option<PageId>, m: Option<MappingId>, key: Key)
    requires Step(s, s', t, e, p, m) && key in s'.table && Some(s'.table[key]) != e && (key in s.table ==> RecordSafe(s, key))
    ensures RecordSafe(s', key)
  {
  }

  /** The changed page is kept for whoever else uses it. */
  ghost predicate OthersKeepPage(s: State, s': State, t: ThreadId, p: PageId) {
    && (forall u :: u in s.threads && u != t && FillsPage(s.threads[u]) && s.threads[u].page == p ==> PageKept(s, s', p))
    && (forall x :: x in s.entries && s.entries[x].physical == Some(p) ==> PageKept(s, s', p))
  }

  /** What remains to be shown of the thread, entry, page and mapping that changed. */
  ghost predicate Arrived(s: State, s': State, t: ThreadId, e: Option<EntryId>, p: Option<PageId>, m: Option<MappingId>, after: Option<EntryId>) {
    && (t in s'.threads ==> ThreadSafe(s', t))
    && (e.Some? && e.value in s'.entries ==> EntrySafe(s', e.value, One(after == e)))
    && (e.Some? ==> forall key :: key in s'.table && s'.table[key] == e.value ==> RecordSafe(s', key))
    && (p.Some? && p.value in s'.pages ==> PageSafe(s', p.value))
    && (m.Some? && m.value in s'.mappings ==> MappingSafe(s', m.value))
  }

  /** What the others need of the change. */
  ghost predicate Considerate(s: State, s': State, t: ThreadId, e: Option<EntryId>, p: Option<PageId>, m: Option<MappingId>) {
    && (forall u :: u in s.threads && u != t && s.threads[u].Prepared? ==> Some(s.threads[u].entry) != e)
    && (p.Some? ==> OthersKeepPage(s, s', t, p.value))
    && (m.Some? ==> forall x :: x in s.entries && Some(x) != e && m.value in s.entries[x].aliases ==> AliasSafe(s', s.entries[x], m.value))
    && (forall u :: u in s.threads && SamePage(PcOf(s', t), s.threads[u]) ==> u == t)
  }

  lemma StepSafe(s: State, s': State, t: ThreadId, e: Option<EntryId>, p: Option<PageId>, m: Option<MappingId>,
                 before: Option<EntryId>, after: Option<EntryId>)
    requires SafeUpTo(s, before) && Step(s, s', t, e, p, m) && Considerate(s, s', t, e, p, m) && Arrived(s, s', t, e, p, m, after)
    requires (before.Some? ==> before == e) && (after.Some? ==> after == e)
    ensures SafeUpTo(s', after)
  {
    hide EntrySafe, ThreadSafe, PageSafe, MappingSafe, RecordSafe, EntryKept, RecordsKept, SameReferences, Loyal, PageKept, AliasSafe, MappingKept;
    forall x | x in s'.entries ensures EntrySafe(s', x, One(after == Some(x))) {
      if Some(x) != e { StepEntry(s, s', t, e, p, m, x); }
    }
    forall u | u in s'.threads ensures ThreadSafe(s', u) {
      if u != t { StepThread(s, s', t, e, p, m, u); }
    }
    forall q | q in s'.pages ensures PageSafe(s', q) {
      if Some(q) != p { StepPage(s, s', t, e, p, m, q); }
    }
    forall n | n in s'.mappings ensures MappingSafe(s', n) {
      if Some(n) != m { StepMapping(s, s', t, e, p, m, n); }
    }
    forall key | key in s'.table ensures RecordSafe(s', key) {
      if Some(s'.table[key]) != e { StepRecord(s, s', t, e, p, m, key); }
    }
  }

  // ---- Losing an owner ----

  lemma FreshThread(s: State) returns (t: ThreadId)
    ensures t !in s.threads
  {
    t := FreshNumber(s.threads.Keys);
  }

  lemma DropSafe(s: State, e: EntryId)
    requires e in s.entries && SafeUpTo(s, Some(e))
    ensures Safe(DropOwner(s, e))
  {
    assert EntrySafe(s, e, 1);
    if s.entries[e].owners > 1 {
      DecrementSafe(s, e);
    } else {
      DestroySafe(s, e);
    }
  }

  lemma DecrementSafe(s: State, e: EntryId)
    requires e in s.entries && SafeUpTo(s, Some(e)) && s.entries[e].owners > 1
    ensures Safe(DropOwner(s, e))
  {
    hide SafeUpTo, EntrySafe, RecordSafe;
    var s' := DropOwner(s, e);
    var t := FreshThread(s);
    DecrementedEntry(s, e);
    NothingPrepared(s, e);
    StepSafe(s, s', t, Some(e), None, None, Some(e), None);
  }

  lemma DecrementedEntry(s: State, e: EntryId)
    requires e in s.entries && SafeUpTo(s, Some(e)) && s.entries[e].owners > 1
    ensures EntrySafe(DropOwner(s, e), e, 0)
    ensures forall key :: key in s.table && s.table[key] == e ==> RecordSafe(DropOwner(s, e), key)
  {
    hide ThreadSafe, PageSafe, MappingSafe, PrivatePages, AliasSafe;
    assert EntrySafe(s, e, 1);
    forall key | key in s.table && s.table[key] == e ensures RecordSafe(DropOwner(s, e), key) {
      assert RecordSafe(s, key);
    }
    var s' := DropOwner(s, e);
    forall m | m in s'.entries[e].aliases ensures AliasSafe(s', s'.entries[e], m) {
      SameAlias(s, s', s.entries[e], s'.entries[e], m);
    }
  }

  /** An entry with a reference to spare is not one that is still being prepared. */
  lemma NothingPrepared(s: State, e: EntryId)
    requires e in s.entries && SafeUpTo(s, Some(e))
    ensures forall u :: u in s.threads && s.threads[u].Prepared? ==> s.threads[u].entry != e
  {
    assert EntrySafe(s, e, 1);
    forall u | u in s.threads && s.threads[u].Prepared? ensures s.threads[u].entry != e {
      assert ThreadSafe(s, u);
      assert s.threads[u].entry == e ==> u in Owners(s.threads, e);
    }
  }

  /** With the last owner gone nothing refers to the page; its frame goes when nothing refers to that either. */
  lemma DestroySafe(s: State, e: EntryId)
    requires e in s.entries && SafeUpTo(s, Some(e)) && s.entries[e].owners == 1
    ensures Safe(DropOwner(s, e))
  {
    hide RecordSafe, EntrySafe, ThreadSafe, PageSafe, MappingSafe;
    var s' := DropOwner(s, e);
    assert EntrySafe(s, e, 1);
    LastOwner(s, e);
    RecordsElsewhere(s, e);
    if s.entries[e].physical.Some? {
      FreedPage(s, e);
    }
    forall x | x in s'.entries ensures EntrySafe(s', x, 0) { DestroyedEntry(s, e, x); }
    forall t | t in s'.threads ensures ThreadSafe(s', t) { DestroyedThread(s, e, t); }
    forall q | q in s'.pages ensures PageSafe(s', q) { DestroyedPage(s, e, q); }
    forall m | m in s'.mappings ensures MappingSafe(s', m) { DestroyedMapping(s, e, m); }
    forall key | key in s'.table ensures RecordSafe(s', key) { DestroyedRecord(s, e, key); }
  }

  lemma LastOwner(s: State, e: EntryId)
    requires e in s.entries && EntrySafe(s, e, 1) && s.entries[e].owners == 1
    ensures !Recorded(s, e) && CleanPage(s.entries[e])
    ensures forall t :: t in s.threads ==> !Holds(s.threads[t], e)
    ensures s.entries[e].physical.Some? ==> s.entries[e].physical.value in s.pages
  {
    assert Owners(s.threads, e) == {};
    forall t | t in s.threads ensures !Holds(s.threads[t], e) {
      assert Holds(s.threads[t], e) ==> t in Owners(s.threads, e);
    }
  }

  predicate StillReferenced(s: State, e: EntryId, p: PageId) {
    Mapped(s.mappings, p) != {} || Mappers(s.threads, p) != {} || CacheHolders(s.threads, p) != {} || CacheEntries(s.entries - {e}, p) != {}
  }

  lemma WithoutEntry(entries: map<EntryId, Entry>, e: EntryId, p: PageId)
    requires e in entries
    ensures |CacheEntries(entries - {e}, p)| == |CacheEntries(entries, p)| - One(entries[e].physical == Some(p))
  {
    Replaced(CacheEntries(entries, p), CacheEntries(entries - {e}, p), e);
  }

  /** The frame stays exactly while a counted reference to it is left. */
  lemma FreedPage(s: State, e: EntryId)
    requires e in s.entries && s.entries[e].physical.Some? && s.entries[e].owners == 1
    requires s.entries[e].physical.value in s.pages && SafeUpTo(s, Some(e))
    ensures s.entries[e].physical.value in DropOwner(s, e).pages <==> StillReferenced(s, e, s.entries[e].physical.value)
  {
    var p := s.entries[e].physical.value;
    assert PageSafe(s, p);
    WithoutEntry(s.entries, e, p);
  }

  lemma DestroyedEntry(s: State, e: EntryId, x: EntryId)
    requires e in s.entries && s.entries[e].owners == 1 && x in s.entries && x != e && EntrySafe(s, x, 0) && !Recorded(s, e)
    requires s.entries[e].physical.Some? ==>
      (s.entries[e].physical.value in DropOwner(s, e).pages <==> StillReferenced(s, e, s.entries[e].physical.value))
    ensures EntrySafe(DropOwner(s, e), x, 0)
  {
    if s.entries[x].physical.Some? && s.entries[x].physical == s.entries[e].physical {
      assert x in CacheEntries(s.entries - {e}, s.entries[e].physical.value);
    }
    forall m | m in s.entries[x].aliases ensures AliasSafe(DropOwner(s, e), s.entries[x], m) {
      assert AliasSafe(s, s.entries[x], m);
    }
  }

  lemma DestroyedThread(s: State, e: EntryId, t: ThreadId)
    requires e in s.entries && s.entries[e].owners == 1 && t in s.threads && SafeUpTo(s, Some(e)) && !Holds(s.threads[t], e)
    requires !Recorded(s, e)
    requires s.entries[e].physical.Some? ==>
      (s.entries[e].physical.value in DropOwner(s, e).pages <==> StillReferenced(s, e, s.entries[e].physical.value))
    ensures ThreadSafe(DropOwner(s, e), t)
  {
    hide SafeUpTo, Mapped, CacheEntries;
    var pc := s.threads[t];
    FactsUpTo(s, e, t);
    RecordsElsewhere(s, e);
    if HasEntry(pc) {
      DestroyedHolder(s, e, t);
    }
    if s.entries[e].physical.Some? && FillsPage(pc) && !Unmanaged(pc) && pc.page == s.entries[e].physical.value {
      assert t in Mappers(s.threads, pc.page) || t in CacheHolders(s.threads, pc.page);
    }
  }

  lemma FactsUpTo(s: State, e: EntryId, t: ThreadId)
    requires e in s.entries && SafeUpTo(s, Some(e)) && t in s.threads
    ensures ThreadSafe(s, t)
    ensures s.entries[e].physical.Some? ==> s.entries[e].physical.value in s.pages && s.pages[s.entries[e].physical.value].managed
  {
    assert EntrySafe(s, e, 1);
  }

  lemma DestroyedHolder(s: State, e: EntryId, t: ThreadId)
    requires e in s.entries && s.entries[e].owners == 1 && t in s.threads && HasEntry(s.threads[t]) && HolderSafe(s, t)
    requires s.threads[t].entry != e && forall key :: key in s.table ==> s.table[key] != e
    ensures HolderSafe(DropOwner(s, e), t)
  {
  }

  /** Records lead to other entries. */
  lemma RecordsElsewhere(s: State, e: EntryId)
    requires SafeUpTo(s, Some(e)) && e in s.entries && !Recorded(s, e)
    ensures forall key :: key in s.table ==> s.table[key] != e
  {
    forall key | key in s.table ensures s.table[key] != e {
      assert RecordSafe(s, key);
    }
  }

  lemma DestroyedPage(s: State, e: EntryId, q: PageId)
    requires e in s.entries && s.entries[e].owners == 1 && q in DropOwner(s, e).pages && q in s.pages && PageSafe(s, q)
    ensures PageSafe(DropOwner(s, e), q)
  {
    hide Mappers, CacheHolders, Mapped, CacheEntries, RawHolders;
    WithoutEntry(s.entries, e, q);
  }

  lemma DestroyedMapping(s: State, e: EntryId, m: MappingId)
    requires e in s.entries && s.entries[e].owners == 1 && m in s.mappings && MappingSafe(s, m)
    requires forall key :: key in s.table ==> s.table[key] != e
    ensures MappingSafe(DropOwner(s, e), m)
  {
  }

  lemma DestroyedRecord(s: State, e: EntryId, key: Key)
    requires e in s.entries && s.entries[e].owners == 1 && key in s.table && RecordSafe(s, key)
    requires forall key :: key in s.table ==> s.table[key] != e
    ensures RecordSafe(DropOwner(s, e), key)
  {
  }

  // ---- Facts for the sections ----

  /** What is known of a thread, also of one that never did anything. */
  lemma PcFacts(s: State, t: ThreadId)
    requires Safe(s)
    ensures t in s.threads ==> ThreadSafe(s, t)
    ensures s.vfs == Some(t) ==> UnderVfs(PcOf(s, t))
  {
    if s.vfs == Some(t) {
      assert ThreadSafe(s, t);
    }
  }

  lemma UniqueRecord(s: State, e: EntryId)
    requires Safe(s)
    ensures forall key :: key in s.table && s.table[key] == e ==> e in s.entries && s.entries[e].key == key && s.entries[e].state != C.Error
  {
    forall key | key in s.table && s.table[key] == e
      ensures e in s.entries && s.entries[e].key == key && s.entries[e].state != C.Error
    {
      assert RecordSafe(s, key);
    }
  }

  /** Nobody is preparing an entry that is recorded or that this thread holds. */
  lemma NoOtherPrepared(s: State, t: ThreadId, e: EntryId)
    requires Safe(s) && e in s.entries && (Recorded(s, e) || Holds(PcOf(s, t), e))
    ensures forall u :: u in s.threads && u != t && s.threads[u].Prepared? ==> s.threads[u].entry != e
  {
    forall u | u in s.threads && u != t && s.threads[u].Prepared? ensures s.threads[u].entry != e {
      ThreadFacts(s, u);
      EntryFacts(s, e);
      if Holds(PcOf(s, t), e) && Holds(s.threads[u], e) {
        TwoOwners(s, t, u, e);
      }
    }
  }

  lemma TwoOwners(s: State, t: ThreadId, u: ThreadId, e: EntryId)
    requires t in s.threads && u in s.threads && t != u && Holds(s.threads[t], e) && Holds(s.threads[u], e)
    ensures |Owners(s.threads, e)| >= 2
  {
    assert {t, u} <= Owners(s.threads, e);
    assert |Owners(s.threads, e)| == |Owners(s.threads, e) - {t, u}| + 2;
  }

  // ---- Finding ----

  lemma LookSafe(s: State, t: ThreadId, key: Key)
    requires Safe(s)
    ensures Safe(DoLook(s, t, key))
  {
    hide SafeUpTo;
    var s' := DoLook(s, t, key);
    if s' != s {
      PcFacts(s, t);
      StepSafe(s, s', t, None, None, None, None, None);
    }
  }

  /** The references the thread carries are those of the errand. */
  predicate Begins(pc: Pc, errand: Errand) {
    && (pc.Idle? || pc.Looking? || pc.Carrying?) && !errand.Back? && !errand.Take?
    && (pc.Carrying? <==> errand.Join?) && (pc.Carrying? ==> pc.page == errand.page)
  }

  lemma JoinedEntry(s: State, t: ThreadId, key: Key, errand: Errand)
    requires Safe(s) && key in s.table && Begins(PcOf(s, t), errand)
    ensures s.table[key] in s.entries
    ensures EntrySafe(Joined(s, t, key, errand), s.table[key], 0)
    ensures forall k :: k in s.table && s.table[k] == s.table[key] ==> RecordSafe(Joined(s, t, key, errand), k)
  {
    hide SafeUpTo, HoldsMapping, AliasSafe, OthersSame;
    var e := s.table[key];
    RecordFacts(s, key);
    EntryFacts(s, e);
    UniqueRecord(s, e);
    Replaced(Owners(s.threads, e), Owners(Joined(s, t, key, errand).threads, e), t);
    var s' := Joined(s, t, key, errand);
    forall m | m in s'.entries[e].aliases ensures AliasSafe(s', s'.entries[e], m) {
      SameAlias(s, s', s.entries[e], s'.entries[e], m);
    }
  }

  lemma JoinedThread(s: State, t: ThreadId, key: Key, errand: Errand)
    requires Safe(s) && key in s.table && Begins(PcOf(s, t), errand) && !errand.Leave? && !errand.Left?
    requires errand != Flush(false) ==> key.identity in s.files
    requires errand.Join? ==> Backed(s, key, errand.page)
    ensures s.table[key] in s.entries && ThreadSafe(Joined(s, t, key, errand), t)
  {
    hide SafeUpTo, PageSafe, MappingSafe, EntrySafe;
    RecordFacts(s, key);
    PcFacts(s, t);
  }

  lemma JoinedSafe(s: State, t: ThreadId, key: Key, errand: Errand)
    requires Safe(s) && key in s.table && Begins(PcOf(s, t), errand) && !errand.Leave? && !errand.Left?
    requires errand != Flush(false) ==> key.identity in s.files
    requires errand.Join? ==> Backed(s, key, errand.page)
    ensures Safe(Joined(s, t, key, errand))
  {
    hide SafeUpTo, EntrySafe, ThreadSafe;
    var s', e := Joined(s, t, key, errand), s.table[key];
    JoinedEntry(s, t, key, errand);
    JoinedThread(s, t, key, errand);
    RecordFacts(s, key);
    NoOtherPrepared(s, t, e);
    StepSafe(s, s', t, Some(e), None, None, None, None);
  }

  lemma HitSafe(s: State, t: ThreadId)
    requires Safe(s)
    ensures Safe(DoHit(s, t))
  {
    hide SafeUpTo;
    if DoHit(s, t) != s {
      ThreadFacts(s, t);
      JoinedSafe(s, t, s.threads[t].key, Get);
    }
  }

  lemma RelookSafe(s: State, t: ThreadId)
    requires Safe(s)
    ensures Safe(DoRelook(s, t))
  {
    hide SafeUpTo;
    if PcOf(s, t).Carrying? {
      ThreadFacts(s, t);
      JoinedSafe(s, t, s.threads[t].key, Join(s.threads[t].page));
    }
  }

  lemma StartStoreSafe(s: State, t: ThreadId, m: MappingId)
    requires Safe(s)
    ensures Safe(DoStartStore(s, t, m))
  {
    hide SafeUpTo;
    if DoStartStore(s, t, m) != s {
      MappingFacts(s, m);
      JoinedSafe(s, t, s.mappings[m].key, Store(m));
    }
  }

  lemma StartFlushSafe(s: State, t: ThreadId, key: Key)
    requires Safe(s)
    ensures Safe(DoStartFlush(s, t, key))
  {
    hide SafeUpTo;
    if DoStartFlush(s, t, key) != s {
      JoinedSafe(s, t, key, Flush(false));
    }
  }

  // ---- Building and linking ----

  lemma Unknown(s: State, e: EntryId)
    requires Safe(s) && e !in s.entries
    ensures Owners(s.threads, e) == {} && forall u :: u in s.threads ==> !Holds(s.threads[u], e)
  {
    forall u | u in s.threads ensures !Holds(s.threads[u], e) {
      assert ThreadSafe(s, u);
    }
  }

  lemma MadeEntry(s: State, t: ThreadId, made: EntryId)
    requires Safe(s) && DoMiss(s, t, made) != s
    ensures EntrySafe(DoMiss(s, t, made), made, 0)
    ensures forall key :: key in s.table ==> s.table[key] != made
  {
    hide SafeUpTo, HoldsMapping;
    Unknown(s, made);
    UniqueRecord(s, made);
    RecountOwners(s, DoMiss(s, t, made), t, Some(made), None, None, made);
  }

  lemma MadeThread(s: State, t: ThreadId, made: EntryId)
    requires Safe(s) && DoMiss(s, t, made) != s && forall key :: key in s.table ==> s.table[key] != made
    ensures ThreadSafe(DoMiss(s, t, made), t)
    ensures Step(s, DoMiss(s, t, made), t, Some(made), None, None)
    ensures forall u :: u in s.threads ==> !SamePage(DoMiss(s, t, made).threads[t], s.threads[u])
  {
    hide SafeUpTo;
    ThreadFacts(s, t);
  }

  lemma MissSafe(s: State, t: ThreadId, made: EntryId)
    requires Safe(s)
    ensures Safe(DoMiss(s, t, made))
  {
    hide SafeUpTo, EntrySafe, ThreadSafe, Step;
    if DoMiss(s, t, made) != s {
      MadeEntry(s, t, made);
      MadeThread(s, t, made);
      Unknown(s, made);
      StepSafe(s, DoMiss(s, t, made), t, Some(made), None, None, None, None);
    }
  }

  lemma LinkedThread(s: State, t: ThreadId)
    requires Safe(s) && t in s.threads && s.threads[t].Prepared? && s.threads[t].key !in s.table
    ensures ThreadSafe(DoInsert(s, t), t)
    ensures s.threads[t].entry in s.entries && s.entries[s.threads[t].entry].key == s.threads[t].key
  {
    hide SafeUpTo, EntrySafe, PageSafe;
    PcFacts(s, t);
  }

  lemma LinkedEntry(s: State, t: ThreadId)
    requires Safe(s) && t in s.threads && s.threads[t].Prepared? && s.threads[t].key !in s.table
    ensures s.threads[t].entry in s.entries && EntrySafe(DoInsert(s, t), s.threads[t].entry, 0)
    ensures forall k :: k in DoInsert(s, t).table && DoInsert(s, t).table[k] == s.threads[t].entry ==> RecordSafe(DoInsert(s, t), k)
  {
    hide SafeUpTo, PageSafe, MappingSafe;
    var e := s.threads[t].entry;
    ThreadFacts(s, t);
    EntryFacts(s, e);
    UniqueRecord(s, e);
    RecountOwners(s, DoInsert(s, t), t, Some(e), None, None, e);
  }

  lemma LinkSafe(s: State, t: ThreadId)
    requires Safe(s) && t in s.threads && s.threads[t].Prepared? && s.threads[t].key !in s.table
    ensures Safe(DoInsert(s, t))
  {
    hide SafeUpTo, EntrySafe, ThreadSafe, RecordSafe;
    LinkedThread(s, t);
    LinkedEntry(s, t);
    NoOtherPrepared(s, t, s.threads[t].entry);
    StepSafe(s, DoInsert(s, t), t, Some(s.threads[t].entry), None, None, None, None);
  }

  /** The state without the prepared entry; its thread is back where it found nothing. */
  function Abandoned(s: State, t: ThreadId): State
    requires t in s.threads && s.threads[t].Prepared?
  {
    At(s.(entries := s.entries - {s.threads[t].entry}), t, Looking(s.threads[t].key))
  }

  lemma PreparedAlone(s: State, t: ThreadId)
    requires Safe(s) && t in s.threads && s.threads[t].Prepared?
    ensures s.threads[t].entry in s.entries && s.entries[s.threads[t].entry].physical == None
    ensures s.entries[s.threads[t].entry].owners == 1 && s.threads[t].key.identity in s.files && s.vfs != Some(t)
    ensures forall u :: u in s.threads && u != t ==> !Holds(s.threads[u], s.threads[t].entry)
    ensures forall key :: key in s.table ==> s.table[key] != s.threads[t].entry
  {
    hide SafeUpTo;
    var own := s.threads[t].entry;
    ThreadFacts(s, t);
    EntryFacts(s, own);
    UniqueRecord(s, own);
    forall u | u in s.threads && u != t ensures !Holds(s.threads[u], own) {
      if Holds(s.threads[u], own) {
        TwoOwners(s, t, u, own);
      }
    }
  }

  lemma AbandonedEntry(s: State, t: ThreadId, x: EntryId)
    requires t in s.threads && s.threads[t].Prepared? && x in s.entries && x != s.threads[t].entry && EntrySafe(s, x, 0)
    ensures EntrySafe(Abandoned(s, t), x, 0)
  {
    assert Owners(Abandoned(s, t).threads, x) == Owners(s.threads, x);
    forall m | m in s.entries[x].aliases ensures AliasSafe(Abandoned(s, t), s.entries[x], m) {
      assert AliasSafe(s, s.entries[x], m);
    }
  }

  lemma AbandonedThread(s: State, t: ThreadId, u: ThreadId)
    requires t in s.threads && s.threads[t].Prepared? && u in s.threads && u != t && ThreadSafe(s, u)
    requires !Holds(s.threads[u], s.threads[t].entry) && forall key :: key in s.table ==> s.table[key] != s.threads[t].entry
    ensures ThreadSafe(Abandoned(s, t), u)
  {
  }

  lemma AbandonedPage(s: State, t: ThreadId, p: PageId)
    requires t in s.threads && s.threads[t].Prepared? && p in s.pages && PageSafe(s, p)
    requires s.threads[t].entry in s.entries && s.entries[s.threads[t].entry].physical == None
    ensures PageSafe(Abandoned(s, t), p)
  {
    var s' := Abandoned(s, t);
    assert Mappers(s'.threads, p) == Mappers(s.threads, p);
    assert CacheHolders(s'.threads, p) == CacheHolders(s.threads, p);
    assert RawHolders(s'.threads, p) == RawHolders(s.threads, p);
    assert CacheEntries(s'.entries, p) == CacheEntries(s.entries, p);
  }

  lemma AbandonedMapping(s: State, t: ThreadId, m: MappingId)
    requires t in s.threads && s.threads[t].Prepared? && m in s.mappings && MappingSafe(s, m)
    requires forall key :: key in s.table ==> s.table[key] != s.threads[t].entry
    ensures MappingSafe(Abandoned(s, t), m)
  {
  }

  /** Throwing away a prepared entry takes the thread back to where it found nothing. */
  lemma AbandonSafe(s: State, t: ThreadId)
    requires Safe(s) && t in s.threads && s.threads[t].Prepared?
    ensures Safe(Abandoned(s, t))
  {
    hide EntrySafe, ThreadSafe, PageSafe, MappingSafe, RecordSafe;
    var s' := Abandoned(s, t);
    PreparedAlone(s, t);
    forall x | x in s'.entries ensures EntrySafe(s', x, 0) { AbandonedEntry(s, t, x); }
    forall u | u in s'.threads ensures ThreadSafe(s', u) {
      if u != t { AbandonedThread(s, t, u); } else { AbandonedSelf(s, t); }
    }
    forall p | p in s'.pages ensures PageSafe(s', p) { AbandonedPage(s, t, p); }
    forall m | m in s'.mappings ensures MappingSafe(s', m) { AbandonedMapping(s, t, m); }
    forall key | key in s'.table ensures RecordSafe(s', key) { AbandonedRecord(s, t, key); }
  }

  lemma AbandonedSelf(s: State, t: ThreadId)
    requires t in s.threads && s.threads[t].Prepared? && s.threads[t].key.identity in s.files && s.vfs != Some(t)
    ensures ThreadSafe(Abandoned(s, t), t)
  {
  }

  lemma AbandonedRecord(s: State, t: ThreadId, key: Key)
    requires t in s.threads && s.threads[t].Prepared? && key in s.table && RecordSafe(s, key) && s.table[key] != s.threads[t].entry
    ensures RecordSafe(Abandoned(s, t), key)
  {
  }

  lemma InsertSafe(s: State, t: ThreadId)
    requires Safe(s)
    ensures Safe(DoInsert(s, t))
  {
    hide SafeUpTo, Joined;
    if PcOf(s, t).Prepared? {
      var key := s.threads[t].key;
      PreparedAlone(s, t);
      if key in s.table {
        AbandonSafe(s, t);
        assert At(DropOwner(s, s.threads[t].entry), t, Looking(key)) == Abandoned(s, t);
        JoinedSafe(Abandoned(s, t), t, key, Get);
      } else {
        LinkSafe(s, t);
      }
    }
  }

  // ---- Filling ----

  /** Nothing refers to a page that is not there. */
  lemma NewPage(s: State, p: PageId)
    requires Safe(s) && p !in s.pages
    ensures Mappers(s.threads, p) == {} && CacheHolders(s.threads, p) == {} && CacheEntries(s.entries, p) == {} && Mapped(s.mappings, p) == {}
    ensures forall u :: u in s.threads ==> !UsesPage(s.threads[u], p)
  {
    forall e | e in s.entries ensures s.entries[e].physical != Some(p) {
      assert EntrySafe(s, e, 0);
    }
    forall m | m in s.mappings ensures s.mappings[m].page != p {
      assert MappingSafe(s, m);
    }
    forall u | u in s.threads ensures !UsesPage(s.threads[u], p) {
      assert ThreadSafe(s, u);
    }
  }

  /** A filler goes on with its entry and touches at most one page. */
  ghost predicate FillMove(s: State, s': State, t: ThreadId, p: Option<PageId>) {
    && t in s.threads && t in s'.threads
    && s' == s.(threads := s.threads[t := s'.threads[t]], pages := s'.pages, vfs := s'.vfs)
    && (forall q :: Some(q) != p ==> (q in s'.pages <==> q in s.pages))
    && (forall q :: q in s.pages && q in s'.pages && Some(q) != p ==> s'.pages[q] == s.pages[q])
    && Plodding(s.threads[t]) && Plodding(s'.threads[t])
    && s'.threads[t].key == s.threads[t].key && s'.threads[t].entry == s.threads[t].entry
    && (FillsPage(s.threads[t]) ==> Some(s.threads[t].page) == p) && (FillsPage(s'.threads[t]) ==> Some(s'.threads[t].page) == p)
    && (s'.vfs == s.vfs || (s.vfs == None && s'.vfs == Some(t)))
  }

  predicate Plodding(pc: Pc) {
    Fills(pc) && !pc.Prepared? && !pc.Published?
  }

  lemma FillMoveStep(s: State, s': State, t: ThreadId, p: Option<PageId>)
    requires FillMove(s, s', t, p)
    ensures Step(s, s', t, None, p, None)
  {
    hide HoldsMapping, HoldsCache;
    forall q: PageId | Some(q) != p ensures SameReferences(s, s', t, None, None, q) {
      PloddingElsewhere(s.threads[t], q);
      PloddingElsewhere(s'.threads[t], q);
    }
  }

  lemma PloddingElsewhere(pc: Pc, q: PageId)
    requires Plodding(pc) && (FillsPage(pc) ==> pc.page != q)
    ensures !HoldsMapping(pc, q) && !HoldsCache(pc, q) && !(Unmanaged(pc) && pc.page == q)
  {
  }

  lemma FillMoveThread(s: State, s': State, t: ThreadId, p: Option<PageId>)
    requires FillMove(s, s', t, p) && ThreadSafe(s, t)
    requires FillsPage(s'.threads[t]) ==>
      p.value in s'.pages && (Unmanaged(s'.threads[t]) <==> !s'.pages[p.value].managed)
    requires Carries(s'.threads[t]) ==>
      && s'.vfs == Some(t) && s.threads[t].key.identity in s.files
      && s'.pages[p.value].bytes == PaddedPage(s.files[s.threads[t].key.identity], s.threads[t].key.index)
    requires s'.vfs == Some(t) ==> UnderVfs(s'.threads[t])
    ensures ThreadSafe(s', t)
  {
    hide Backed, ErrandSafe;
  }

  lemma FillMoveSafe(s: State, s': State, t: ThreadId, p: Option<PageId>)
    requires Safe(s) && FillMove(s, s', t, p) && ThreadSafe(s', t)
    requires p.Some? ==> OthersKeepPage(s, s', t, p.value)
    requires p.Some? && p.value in s'.pages ==> PageSafe(s', p.value)
    requires forall u :: u in s.threads && SamePage(s'.threads[t], s.threads[u]) ==> u == t
    ensures Safe(s')
  {
    hide SafeUpTo, ThreadSafe, PageSafe, Step, FillMove, EntrySafe, MappingSafe;
    FillMoveStep(s, s', t, p);
    StepSafe(s, s', t, None, p, None, None, None);
  }

  lemma AllocateSafe(s: State, t: ThreadId, got: Option<PageId>)
    requires Safe(s)
    ensures Safe(DoAllocate(s, t, got))
  {
    hide SafeUpTo, EntrySafe, HolderSafe;
    var s' := DoAllocate(s, t, got);
    if s' != s {
      ThreadFacts(s, t);
      FillMoveThread(s, s', t, got);
      if got.Some? {
        NewPage(s, got.value);
        NobodyUses(s, got.value);
        AllocatedPage(s, t, got.value);
      }
      FillMoveSafe(s, s', t, got);
    }
  }

  lemma AllocatedPage(s: State, t: ThreadId, p: PageId)
    requires Safe(s) && PcOf(s, t).Filling? && p !in s.pages
    ensures PageSafe(DoAllocate(s, t, Some(p)), p)
  {
    hide SafeUpTo;
    NewPage(s, p);
    var s' := DoAllocate(s, t, Some(p));
    Recount(s, s', t, None, Some(p), None, p);
    assert t in RawHolders(s'.threads, p);
  }

  lemma NobodyUses(s: State, p: PageId)
    requires forall u :: u in s.threads ==> !UsesPage(s.threads[u], p)
    ensures forall u :: u in s.threads && FillsPage(s.threads[u]) ==> s.threads[u].page != p
  {
    forall u | u in s.threads && FillsPage(s.threads[u]) ensures s.threads[u].page != p {
      assert !UsesPage(s.threads[u], p);
    }
  }

  /** A page that is not managed is reached by the one thread that allocated it. */
  lemma PrivatePage(s: State, t: ThreadId)
    requires Safe(s) && t in s.threads && Unmanaged(s.threads[t])
    ensures var p := s.threads[t].page;
      && p in s.pages && s.pages[p].mapping == s.pages[p].cache == 0
      && Mappers(s.threads, p) == {} && CacheHolders(s.threads, p) == {} && CacheEntries(s.entries, p) == {} && Mapped(s.mappings, p) == {}
      && (forall e :: e in s.entries ==> s.entries[e].physical != Some(p))
      && forall u :: u in s.threads && u != t && FillsPage(s.threads[u]) ==> s.threads[u].page != p
  {
    hide SafeUpTo, HoldsMapping;
    var p := s.threads[t].page;
    ThreadFacts(s, t);
    PageFacts(s, p);
    forall e | e in s.entries ensures s.entries[e].physical != Some(p) {
      assert s.entries[e].physical == Some(p) ==> e in CacheEntries(s.entries, p);
    }
    forall u | u in s.threads && u != t && FillsPage(s.threads[u]) ensures s.threads[u].page != p {
      ThreadFacts(s, u);
      DifferentPages(s, t, u);
    }
  }

  lemma DifferentPages(s: State, t: ThreadId, u: ThreadId)
    requires Safe(s) && t in s.threads && u in s.threads && t != u
    ensures !SamePage(s.threads[t], s.threads[u])
  {
  }

  lemma FillSafe(s: State, t: ThreadId, readable: bool)
    requires Safe(s)
    ensures Safe(DoFill(s, t, readable))
  {
    hide SafeUpTo, EntrySafe, HolderSafe, PageSafe;
    var s' := DoFill(s, t, readable);
    if s' != s {
      var p := s.threads[t].page;
      ThreadFacts(s, t);
      PrivatePage(s, t);
      FillMoveThread(s, s', t, Some(p));
      FilledPage(s, t, readable);
      FillMoveSafe(s, s', t, Some(p));
    }
  }

  lemma FilledPage(s: State, t: ThreadId, readable: bool)
    requires Safe(s) && t in s.threads && s.threads[t].Blank? && DoFill(s, t, readable) != s
    ensures s.threads[t].page in DoFill(s, t, readable).pages ==> PageSafe(DoFill(s, t, readable), s.threads[t].page)
  {
    hide SafeUpTo;
    var p, s' := s.threads[t].page, DoFill(s, t, readable);
    ThreadFacts(s, t);
    PrivatePage(s, t);
    Recount(s, s', t, None, Some(p), None, p);
    assert s'.threads[t].Filled? ==> t in RawHolders(s'.threads, p);
  }

  lemma AdoptSafe(s: State, t: ThreadId, success: bool)
    requires Safe(s)
    ensures Safe(DoAdopt(s, t, success))
  {
    hide SafeUpTo, EntrySafe, HolderSafe;
    var s' := DoAdopt(s, t, success);
    if s' != s {
      var p := s.threads[t].page;
      ThreadFacts(s, t);
      PrivatePage(s, t);
      FillMoveThread(s, s', t, Some(p));
      Recount(s, s', t, None, Some(p), None, p);
      FillMoveSafe(s, s', t, Some(p));
    }
  }

  lemma RetainCacheSafe(s: State, t: ThreadId)
    requires Safe(s)
    ensures Safe(DoRetainCache(s, t))
  {
    hide SafeUpTo, EntrySafe, HolderSafe, PageSafe;
    var s' := DoRetainCache(s, t);
    if s' != s {
      var p := s.threads[t].page;
      ThreadFacts(s, t);
      RetainCachePage(s, t);
      FillMoveThread(s, s', t, Some(p));
      FillMoveSafe(s, s', t, Some(p));
    }
  }

  lemma RetainCachePage(s: State, t: ThreadId)
    requires Safe(s) && t in s.threads && s.threads[t].Adopted?
    ensures var p, s' := s.threads[t].page, DoRetainCache(s, t);
      && p in s.pages && p in s'.pages && PageSafe(s', p) && PageKept(s, s', p) && s'.threads[t].Retained?
  {
    hide SafeUpTo;
    var p, s' := s.threads[t].page, DoRetainCache(s, t);
    ThreadFacts(s, t);
    PageFacts(s, p);
    Recount(s, s', t, None, Some(p), None, p);
  }

  lemma ReleaseFirstMappingSafe(s: State, t: ThreadId)
    requires Safe(s)
    ensures Safe(DoReleaseFirstMapping(s, t))
  {
    hide SafeUpTo, EntrySafe, HolderSafe, PageSafe;
    var s' := DoReleaseFirstMapping(s, t);
    if s' != s {
      var p := s.threads[t].page;
      ThreadFacts(s, t);
      ReleaseFirstMappingPage(s, t);
      FillMoveThread(s, s', t, Some(p));
      FillMoveSafe(s, s', t, Some(p));
    }
  }

  lemma ReleaseFirstMappingPage(s: State, t: ThreadId)
    requires Safe(s) && t in s.threads && s.threads[t].Retained?
    ensures var p, s' := s.threads[t].page, DoReleaseFirstMapping(s, t);
      && p in s.pages && p in s'.pages && PageSafe(s', p) && PageKept(s, s', p) && s'.threads[t].Owning?
  {
    hide SafeUpTo;
    var p, s' := s.threads[t].page, DoReleaseFirstMapping(s, t);
    ThreadFacts(s, t);
    PageFacts(s, p);
    assert t in Mappers(s.threads, p) && t in CacheHolders(s.threads, p);
    Recount(s, s', t, None, Some(p), None, p);
  }

  // ---- Completion ----

  /** The entry a thread holds changes together with the thread, and perhaps with one mapping. */
  ghost predicate EntryMove(s: State, s': State, t: ThreadId, e: EntryId, m: Option<MappingId>) {
    && t in s.threads && t in s'.threads && e in s.entries && e in s'.entries
    && s' == s.(threads := s.threads[t := s'.threads[t]], entries := s.entries[e := s'.entries[e]], table := s'.table, mappings := s'.mappings)
    && (forall n :: Some(n) != m ==> (n in s'.mappings <==> n in s.mappings))
    && (forall n :: n in s.mappings && n in s'.mappings && Some(n) != m ==> s'.mappings[n] == s.mappings[n])
    && Holds(s.threads[t], e) && Holds(s'.threads[t], e) && !s.threads[t].Prepared?
    && !Unmanaged(s.threads[t]) && !Unmanaged(s'.threads[t])
    && EntryKept(s, s', t, e, m) && RecordsKept(s, s', Some(e))
    && (m.Some? ==> MappingKept(s, s', t, m.value))
    && (forall q: PageId :: SameReferences(s, s', t, Some(e), m, q))
  }

  lemma EntryMoveSafe(s: State, s': State, t: ThreadId, e: EntryId, m: Option<MappingId>)
    requires Safe(s) && EntryMove(s, s', t, e, m) && ThreadSafe(s', t) && EntrySafe(s', e, 0)
    requires (s'.table == s.table && (s'.entries[e].state == C.Error ==> s.entries[e].state == C.Error))
             || forall key :: key in s'.table ==> s'.table[key] != e
    requires m.Some? && m.value in s'.mappings ==> MappingSafe(s', m.value)
    requires m.Some? ==> forall x :: x in s.entries && x != e ==> m.value !in s.entries[x].aliases
    ensures Safe(s')
  {
    hide SafeUpTo, ThreadSafe, PageSafe, EntrySafe, MappingSafe, EntryKept, SameReferences, MappingKept, RecordsKept;
    UniqueRecord(s, e);
    EntryMoveKey(s, s', t, e, m);
    NoOtherPrepared(s, t, e);
    StepSafe(s, s', t, Some(e), None, m, None, None);
  }

  lemma EntryMoveKey(s: State, s': State, t: ThreadId, e: EntryId, m: Option<MappingId>)
    requires EntryMove(s, s', t, e, m)
    ensures s'.entries[e].key == s.entries[e].key
    ensures Step(s, s', t, Some(e), None, m)
    ensures forall u :: u in s.threads ==> !SamePage(s'.threads[t], s.threads[u])
  {
    hide SameReferences;
  }

  lemma PublishedEntry(s: State, t: ThreadId)
    requires Safe(s) && t in s.threads && s.threads[t].Owning?
    ensures s.threads[t].entry in s.entries && EntrySafe(DoComplete(s, t), s.threads[t].entry, 0)
    ensures s.entries[s.threads[t].entry].state == C.Loading && s.entries[s.threads[t].entry].physical == None
  {
    hide SafeUpTo, PageSafe, HoldsMapping;
    var s', e := DoComplete(s, t), s.threads[t].entry;
    ThreadFacts(s, t);
    EntryFacts(s, e);
    RecountOwners(s, s', t, Some(e), None, None, e);
  }

  lemma PublishedThread(s: State, t: ThreadId)
    requires Safe(s) && t in s.threads && s.threads[t].Owning? && s.threads[t].entry in s.entries
    requires s.entries[s.threads[t].entry].state == C.Loading && s.entries[s.threads[t].entry].physical == None
    ensures ThreadSafe(DoComplete(s, t), t) && EntryMove(s, DoComplete(s, t), t, s.threads[t].entry, None)
  {
    hide SafeUpTo, PageSafe, EntrySafe;
    ThreadFacts(s, t);
  }

  lemma PublishSafe(s: State, t: ThreadId)
    requires Safe(s) && t in s.threads && s.threads[t].Owning?
    ensures Safe(DoComplete(s, t))
  {
    hide SafeUpTo, EntrySafe, ThreadSafe, EntryMove;
    PublishedEntry(s, t);
    PublishedThread(s, t);
    EntryMoveSafe(s, DoComplete(s, t), t, s.threads[t].entry, None);
  }

  lemma FailedEntry(s: State, t: ThreadId)
    requires Safe(s) && t in s.threads && s.threads[t].Failing?
    ensures s.threads[t].entry in s.entries && EntrySafe(DoComplete(s, t), s.threads[t].entry, 0)
    ensures forall key :: key in DoComplete(s, t).table ==> DoComplete(s, t).table[key] != s.threads[t].entry
    ensures s.entries[s.threads[t].entry].state == C.Loading
  {
    hide SafeUpTo, PageSafe, HoldsMapping;
    var s', e := DoComplete(s, t), s.threads[t].entry;
    ThreadFacts(s, t);
    EntryFacts(s, e);
    UniqueRecord(s, e);
    assert t in Owners(s.threads, e);
    RecountOwners(s, s', t, Some(e), None, None, e);
  }

  lemma FailedThread(s: State, t: ThreadId)
    requires Safe(s) && t in s.threads && s.threads[t].Failing?
    ensures ThreadSafe(DoComplete(s, t), t)
  {
    hide SafeUpTo, PageSafe, EntrySafe;
    ThreadFacts(s, t);
  }

  lemma FailedMove(s: State, t: ThreadId)
    requires Safe(s) && t in s.threads && s.threads[t].Failing?
    ensures EntryMove(s, DoComplete(s, t), t, s.threads[t].entry, None)
  {
    hide SafeUpTo, HoldsMapping, ThreadSafe, EntryKept, RecordsKept, DoComplete;
    FailingEntry(s, t);
    FailedShape(s, t);
    FillerHoldsNothing(s.threads[t]);
  }

  /** What the failing completion leaves alone. */
  lemma FailedShape(s: State, t: ThreadId)
    requires t in s.threads && s.threads[t].Failing? && s.threads[t].entry in s.entries
    requires s.entries[s.threads[t].entry].state == C.Loading && s.entries[s.threads[t].entry].physical == None
    requires s.entries[s.threads[t].entry].filler == Some(t)
    requires forall key :: key in s.table && s.table[key] == s.threads[t].entry ==> s.entries[s.threads[t].entry].key == key
    ensures var e, s' := s.threads[t].entry, DoComplete(s, t);
      && e in s'.entries && s'.entries[e].physical == None
      && s' == s.(threads := s.threads[t := Published(s.threads[t].key, e)], entries := s.entries[e := s'.entries[e]], table := s'.table)
      && EntryKept(s, s', t, e, None) && RecordsKept(s, s', Some(e))
  {
  }

  lemma FillerHoldsNothing(pc: Pc)
    requires pc.Failing?
    ensures forall q: PageId :: !HoldsMapping(pc, q) && !HoldsMapping(Published(pc.key, pc.entry), q)
  {
  }

  lemma FailingEntry(s: State, t: ThreadId)
    requires Safe(s) && t in s.threads && s.threads[t].Failing?
    ensures s.threads[t].entry in s.entries && s.entries[s.threads[t].entry].physical == None
    ensures s.entries[s.threads[t].entry].state == C.Loading && s.entries[s.threads[t].entry].filler == Some(t)
    ensures forall key :: key in s.table && s.table[key] == s.threads[t].entry ==> s.entries[s.threads[t].entry].key == key
  {
    hide SafeUpTo;
    ThreadFacts(s, t);
    EntryFacts(s, s.threads[t].entry);
    UniqueRecord(s, s.threads[t].entry);
  }

  lemma FailSafe(s: State, t: ThreadId)
    requires Safe(s) && t in s.threads && s.threads[t].Failing?
    ensures Safe(DoComplete(s, t))
  {
    hide SafeUpTo, EntrySafe, ThreadSafe, EntryMove, DoComplete;
    FailedEntry(s, t);
    FailedThread(s, t);
    FailedMove(s, t);
    EntryMoveSafe(s, DoComplete(s, t), t, s.threads[t].entry, None);
  }

  lemma CompleteSafe(s: State, t: ThreadId)
    requires Safe(s)
    ensures Safe(DoComplete(s, t))
  {
    hide SafeUpTo;
    if PcOf(s, t).Owning? {
      PublishSafe(s, t);
    } else if PcOf(s, t).Failing? {
      FailSafe(s, t);
    }
  }

  lemma SignalledEntry(s: State, t: ThreadId)
    requires Safe(s) && t in s.threads && s.threads[t].Published?
    ensures s.threads[t].entry in s.entries && EntrySafe(DoSignal(s, t), s.threads[t].entry, 0)
  {
    hide SafeUpTo, PageSafe, HoldsMapping;
    var s', e := DoSignal(s, t), s.threads[t].entry;
    ThreadFacts(s, t);
    EntryFacts(s, e);
    RecountOwners(s, s', t, Some(e), None, None, e);
    forall m | m in s.entries[e].aliases ensures AliasSafe(s', s'.entries[e], m) {
      assert AliasSafe(s, s.entries[e], m);
    }
  }

  lemma SignalledThread(s: State, t: ThreadId)
    requires Safe(s) && t in s.threads && s.threads[t].Published?
    ensures ThreadSafe(DoSignal(s, t), t) && EntryMove(s, DoSignal(s, t), t, s.threads[t].entry, None)
  {
    hide SafeUpTo, PageSafe, EntrySafe;
    ThreadFacts(s, t);
  }

  lemma SignalSafe(s: State, t: ThreadId)
    requires Safe(s)
    ensures Safe(DoSignal(s, t))
  {
    hide SafeUpTo, EntrySafe, ThreadSafe, EntryMove;
    if PcOf(s, t).Published? {
      SignalledEntry(s, t);
      SignalledThread(s, t);
      EntryMoveSafe(s, DoSignal(s, t), t, s.threads[t].entry, None);
    }
  }

  // ---- Leaving an entry ----

  /** The thread lets go of its entry and keeps what else it holds. */
  ghost predicate LetsGo(pc: Pc, pc': Pc) {
    && (pc.Settled? || HasErrand(pc)) && !HasEntry(pc') && !pc'.Lost? && !FillsPage(pc')
    && (forall q: PageId :: HoldsMapping(pc', q) == HoldsMapping(pc, q))
    && (!pc'.Idle? && !pc'.Leaving? ==> RetainsInode(pc, pc'.key.identity))
  }

  lemma LeaveSafe(s: State, t: ThreadId, pc': Pc, vfs: Option<ThreadId>)
    requires Safe(s) && t in s.threads && LetsGo(s.threads[t], pc')
    requires ThreadSafe(At(s.(vfs := vfs), t, pc'), t)
    requires vfs == s.vfs || (s.vfs == Some(t) && vfs == None)
    ensures s.threads[t].entry in s.entries
    ensures Safe(At(DropOwner(s.(vfs := vfs), s.threads[t].entry), t, pc'))
  {
    hide SafeUpTo, PageSafe, HoldsMapping;
    var e, s' := s.threads[t].entry, At(s.(vfs := vfs), t, pc');
    LeftThread(s, t);
    EntryFacts(s, e);
    LeftEntry(s, t, pc', vfs);
    LeftStep(s, t, pc', vfs);
    NoOtherPrepared(s, t, e);
    UniqueRecord(s, e);
    StepSafe(s, s', t, Some(e), None, None, None, Some(e));
    DropSafe(s', e);
    assert DropOwner(s', e) == At(DropOwner(s.(vfs := vfs), e), t, pc');
  }

  lemma LeftThread(s: State, t: ThreadId)
    requires Safe(s) && t in s.threads && (s.threads[t].Settled? || HasErrand(s.threads[t]))
    ensures s.threads[t].entry in s.entries && s.entries[s.threads[t].entry].key == s.threads[t].key
  {
    ThreadFacts(s, t);
  }

  lemma LeftEntry(s: State, t: ThreadId, pc': Pc, vfs: Option<ThreadId>)
    requires Safe(s) && t in s.threads && LetsGo(s.threads[t], pc') && s.threads[t].entry in s.entries
    requires vfs == s.vfs || (s.vfs == Some(t) && vfs == None)
    ensures EntrySafe(At(s.(vfs := vfs), t, pc'), s.threads[t].entry, 1)
  {
    hide SafeUpTo, HoldsMapping;
    var e, s' := s.threads[t].entry, At(s.(vfs := vfs), t, pc');
    EntryFacts(s, e);
    RecountOwners(s, s', t, Some(e), None, None, e);
    forall m | m in s.entries[e].aliases ensures AliasSafe(s', s.entries[e], m) {
      assert AliasSafe(s, s.entries[e], m);
    }
  }

  lemma LeftStep(s: State, t: ThreadId, pc': Pc, vfs: Option<ThreadId>)
    requires t in s.threads && LetsGo(s.threads[t], pc') && s.threads[t].entry in s.entries
    requires vfs == s.vfs || (s.vfs == Some(t) && vfs == None)
    ensures Step(s, At(s.(vfs := vfs), t, pc'), t, Some(s.threads[t].entry), None, None)
    ensures forall u :: u in s.threads ==> !SamePage(pc', s.threads[u])
  {
    hide HoldsMapping;
  }

  /** The thread keeps its entry and its references and only goes on. */
  lemma PlainMoveSafe(s: State, t: ThreadId, pc': Pc, vfs: Option<ThreadId>)
    requires Safe(s) && t in s.threads && (s.threads[t].Settled? || HasErrand(s.threads[t])) && HasErrand(pc')
    requires pc'.entry == s.threads[t].entry && forall q: PageId :: HoldsMapping(pc', q) == HoldsMapping(s.threads[t], q)
    requires ThreadSafe(At(s.(vfs := vfs), t, pc'), t)
    requires vfs == s.vfs || (s.vfs == Some(t) && vfs == None)
    ensures Safe(At(s.(vfs := vfs), t, pc'))
  {
    hide SafeUpTo, ThreadSafe, HoldsMapping;
    StepSafe(s, At(s.(vfs := vfs), t, pc'), t, None, None, None, None, None);
  }

  lemma UnlockSafe(s: State, t: ThreadId)
    requires Safe(s)
    ensures Safe(DoUnlock(s, t))
  {
    hide SafeUpTo, EntrySafe, DropOwner;
    if DoUnlock(s, t) != s {
      var pc := s.threads[t];
      var vfs := if s.vfs == Some(t) then None else s.vfs;
      ThreadFacts(s, t);
      if s.entries[pc.entry].state == C.Ready {
        PlainMoveSafe(s, t, Holding(pc.key, pc.entry, Get), vfs);
      } else {
        LeaveSafe(s, t, Idle, vfs);
      }
    }
  }

  /** A reference that is carried, or a mapping that is taken down, keeps its page Ready. */
  lemma AwaitedPage(s: State, t: ThreadId)
    requires Safe(s) && t in s.threads && s.threads[t].Waiting?
    ensures s.threads[t].entry in s.entries
    ensures PageErrand(s.threads[t].errand) || s.threads[t].errand.Leave? || s.threads[t].errand.Left? ==>
      s.entries[s.threads[t].entry].state == C.Ready
  {
    ThreadFacts(s, t);
  }

  lemma AwaitSafe(s: State, t: ThreadId)
    requires Safe(s)
    ensures Safe(DoAwait(s, t))
  {
    hide SafeUpTo, EntrySafe, DropOwner, ErrandSafe;
    if DoAwait(s, t) != s {
      var pc := s.threads[t];
      ThreadFacts(s, t);
      AwaitedPage(s, t);
      assert s.(vfs := s.vfs) == s;
      if s.entries[pc.entry].state == C.Ready {
        AwaitedThread(s, t);
        PlainMoveSafe(s, t, Holding(pc.key, pc.entry, pc.errand), s.vfs);
      } else {
        LeaveSafe(s, t, Idle, s.vfs);
      }
    }
  }

  lemma AwaitedThread(s: State, t: ThreadId)
    requires t in s.threads && s.threads[t].Waiting? && ThreadSafe(s, t) && s.entries[s.threads[t].entry].state == C.Ready
    ensures ThreadSafe(At(s, t, Holding(s.threads[t].key, s.threads[t].entry, s.threads[t].errand)), t)
  {
  }

  lemma FinishSafe(s: State, t: ThreadId)
    requires Safe(s)
    ensures Safe(DoFinish(s, t))
  {
    hide SafeUpTo, EntrySafe, DropOwner;
    if DoFinish(s, t) != s {
      var pc := s.threads[t];
      ThreadFacts(s, t);
      assert s.(vfs := s.vfs) == s;
      match pc.errand {
        case Take(p) => LeaveSafe(s, t, Carrying(pc.key, p), s.vfs);
        case Left(m) => LeaveSafe(s, t, Leaving(m), s.vfs);
        case _ => LeaveSafe(s, t, Idle, s.vfs);
      }
    }
  }

  lemma ReleaseInodeSafe(s: State, t: ThreadId)
    requires Safe(s)
    ensures Safe(DoReleaseInode(s, t))
  {
    hide SafeUpTo, EntrySafe;
    if DoReleaseInode(s, t) != s {
      ThreadFacts(s, t);
      assert s.(vfs := s.vfs) == s;
      PlainMoveSafe(s, t, Holding(s.threads[t].key, s.threads[t].entry, Flush(false)), s.vfs);
    }
  }

  // ---- Mapping references ----

  /** The Ready page behind a record keeps its cache reference. */
  lemma BackedPage(s: State, key: Key, p: PageId)
    requires Safe(s) && Backed(s, key, p)
    ensures p in s.pages && s.pages[p].managed && s.pages[p].cache > 0 && PageSafe(s, p)
  {
    hide SafeUpTo, Mappers, CacheHolders, Mapped;
    EntryFacts(s, s.table[key]);
    PageFacts(s, p);
    assert s.table[key] in CacheEntries(s.entries, p);
  }

  /** One mapping reference to a backed page comes or goes with the thread, or with a mapping. */
  ghost predicate MappingMove(s: State, s': State, t: ThreadId, p: PageId, m: Option<MappingId>) {
    && p in s.pages && p in s'.pages && t in s'.threads
    && s' == s.(threads := s.threads[t := s'.threads[t]], pages := s.pages[p := s'.pages[p]], mappings := s'.mappings)
    && (forall n :: Some(n) != m ==> (n in s'.mappings <==> n in s.mappings))
    && (forall n :: n in s.mappings && n in s'.mappings && Some(n) != m ==> s'.mappings[n] == s.mappings[n])
    && s'.pages[p] == s.pages[p].(mapping := s'.pages[p].mapping)
    && s'.pages[p].mapping + One(HoldsMapping(PcOf(s, t), p)) + One(MapsHere(s, m, p)) ==
       s.pages[p].mapping + One(HoldsMapping(s'.threads[t], p)) + One(MapsHere(s', m, p))
    && Steady(PcOf(s, t)) && Steady(s'.threads[t]) && Loyal(PcOf(s, t), s'.threads[t], None)
    && (m.Some? ==> MappingKept(s, s', t, m.value))
    && (forall q: PageId :: q != p ==> SameReferences(s, s', t, None, m, q))
  }

  /** Outside the filling of a page. */
  predicate Steady(pc: Pc) {
    !Fills(pc)
  }

  lemma MappingMovePage(s: State, s': State, t: ThreadId, p: PageId, m: Option<MappingId>)
    requires MappingMove(s, s', t, p, m) && PageSafe(s, p) && s.pages[p].managed && s.pages[p].cache > 0
    ensures PageSafe(s', p) && PageKept(s, s', p)
  {
    hide HoldsMapping, SameReferences, Loyal, Mappers, CacheHolders, Mapped, CacheEntries;
    Recount(s, s', t, None, Some(p), m, p);
    SteadyHoldsNoCache(PcOf(s, t), p);
    SteadyHoldsNoCache(PcOf(s', t), p);
  }

  lemma SteadyHoldsNoCache(pc: Pc, p: PageId)
    requires Steady(pc)
    ensures !HoldsCache(pc, p) && !Unmanaged(pc)
  {
  }

  lemma MappingMoveSafe(s: State, s': State, t: ThreadId, p: PageId, m: Option<MappingId>)
    requires Safe(s) && MappingMove(s, s', t, p, m) && s.pages[p].managed && s.pages[p].cache > 0 && ThreadSafe(s', t)
    requires m.Some? ==> m.value !in s'.mappings && forall x :: x in s.entries ==> m.value !in s.entries[x].aliases
    ensures Safe(s')
  {
    hide SafeUpTo, ThreadSafe, PageSafe, SameReferences, PageKept;
    PageFacts(s, p);
    MappingMovePage(s, s', t, p, m);
    SteadyHoldsNoCache(PcOf(s', t), p);
    StepSafe(s, s', t, None, Some(p), m, None, None);
  }

  lemma RetainMappingSafe(s: State, t: ThreadId)
    requires Safe(s)
    ensures Safe(DoRetainMapping(s, t))
  {
    hide SafeUpTo, PageSafe, EntrySafe;
    var s' := DoRetainMapping(s, t);
    if s' != s {
      var p, pc := s.entries[s.threads[t].entry].physical.value, s.threads[t];
      ThreadFacts(s, t);
      BackedPage(s, pc.key, p);
      MappingMoveSafe(s, s', t, p, None);
    }
  }

  lemma InheritSafe(s: State, t: ThreadId, m: MappingId)
    requires Safe(s)
    ensures Safe(DoInherit(s, t, m))
  {
    hide SafeUpTo, PageSafe, EntrySafe;
    var s' := DoInherit(s, t, m);
    if s' != s {
      MappingFacts(s, m);
      PcFacts(s, t);
      BackedPage(s, s.mappings[m].key, s.mappings[m].page);
      MappingMoveSafe(s, s', t, s.mappings[m].page, None);
    }
  }

  lemma GiveBackSafe(s: State, t: ThreadId)
    requires Safe(s)
    ensures Safe(DoGiveBack(s, t))
  {
    hide SafeUpTo, EntrySafe;
    var s' := DoGiveBack(s, t);
    if s' != s {
      ThreadFacts(s, t);
      var p := s.threads[t].errand.page;
      BackedPage(s, s.threads[t].key, p);
      assert t in Mappers(s.threads, p);
      MappingMoveSafe(s, s', t, p, None);
    }
  }

  /** An alias stands on the list of the page its mapping leads to. */
  lemma AliasOwner(s: State, m: MappingId, x: EntryId)
    requires Safe(s) && x in s.entries && m in s.entries[x].aliases
    ensures m in s.mappings && s.mappings[m].attached && s.mappings[m].key in s.table && s.table[s.mappings[m].key] == x
  {
    EntryFacts(s, x);
    assert AliasSafe(s, s.entries[x], m);
  }

  lemma ReleaseMappingSafe(s: State, t: ThreadId)
    requires Safe(s)
    ensures Safe(DoReleaseMapping(s, t))
  {
    hide SafeUpTo, EntrySafe, MappingSafe, PageSafe;
    var s' := DoReleaseMapping(s, t);
    if s' != s {
      var m := s.threads[t].mapping;
      var p := s.mappings[m].page;
      ThreadFacts(s, t);
      MappedPage(s, m);
      ReleasedPage(s, m);
      forall x | x in s.entries ensures m !in s.entries[x].aliases {
        if m in s.entries[x].aliases { AliasOwner(s, m, x); }
      }
      MappingMoveSafe(s, s', t, p, Some(m));
    }
  }

  lemma ReleasedPage(s: State, m: MappingId)
    requires m in s.mappings && s.mappings[m].page in s.pages && PageSafe(s, s.mappings[m].page)
    ensures s.pages[s.mappings[m].page].mapping > 0
  {
    assert m in Mapped(s.mappings, s.mappings[m].page);
  }

  lemma MappedPage(s: State, m: MappingId)
    requires Safe(s) && m in s.mappings
    ensures s.mappings[m].page in s.pages && s.pages[s.mappings[m].page].managed && s.pages[s.mappings[m].page].cache > 0
    ensures PageSafe(s, s.mappings[m].page)
  {
    MappingFacts(s, m);
    BackedPage(s, s.mappings[m].key, s.mappings[m].page);
  }

  // ---- Aliases and dirty pages ----

  lemma InstalledEntry(s: State, t: ThreadId, m: MappingId)
    requires Safe(s) && t in s.threads && s.threads[t].Holding? && s.threads[t].errand.Join? && m !in s.mappings
    ensures var e := s.threads[t].entry;
      && e in s.entries && s.entries[e].physical == Some(s.threads[t].errand.page) && Recorded(s, e) && s.entries[e].key == s.threads[t].key
      && s.entries[e].state == C.Ready && s.threads[t].key.identity in s.files
      && EntrySafe(DoInstall(s, t, m, true), e, 0)
  {
    hide SafeUpTo, PageSafe, MappingSafe;
    var s', e := DoInstall(s, t, m, true), s.threads[t].entry;
    ThreadFacts(s, t);
    EntryFacts(s, e);
    RecountOwners(s, s', t, Some(e), None, Some(m), e);
    forall n | n in s'.entries[e].aliases ensures AliasSafe(s', s'.entries[e], n) {
      assert n != m ==> AliasSafe(s, s.entries[e], n);
    }
  }

  lemma InstalledThread(s: State, t: ThreadId, m: MappingId)
    requires Safe(s) && t in s.threads && s.threads[t].Holding? && s.threads[t].errand.Join? && m !in s.mappings
    ensures s.threads[t].entry in s.entries && ThreadSafe(DoInstall(s, t, m, true), t)
    ensures EntryMove(s, DoInstall(s, t, m, true), t, s.threads[t].entry, Some(m))
  {
    hide SafeUpTo, PageSafe, EntrySafe, MappingSafe;
    ThreadFacts(s, t);
  }

  lemma InstallSafe(s: State, t: ThreadId, m: MappingId, agreed: bool)
    requires Safe(s)
    ensures Safe(DoInstall(s, t, m, agreed))
  {
    hide SafeUpTo, EntrySafe, EntryMove, ThreadSafe;
    var s' := DoInstall(s, t, m, agreed);
    if s' != s {
      var pc := s.threads[t];
      if agreed && m !in s.mappings {
        InstalledEntry(s, t, m);
        InstalledThread(s, t, m);
        NewAlias(s, m);
        EntryMoveSafe(s, s', t, pc.entry, Some(m));
      } else {
        RefusedThread(s, t);
        assert s.(vfs := s.vfs) == s;
        PlainMoveSafe(s, t, Holding(pc.key, pc.entry, Back(pc.errand.page)), s.vfs);
      }
    }
  }

  lemma RefusedThread(s: State, t: ThreadId)
    requires Safe(s) && t in s.threads && s.threads[t].Holding? && s.threads[t].errand.Join?
    ensures s.threads[t].entry in s.entries && s.entries[s.threads[t].entry].physical == Some(s.threads[t].errand.page)
    ensures ThreadSafe(At(s, t, Holding(s.threads[t].key, s.threads[t].entry, Back(s.threads[t].errand.page))), t)
  {
    hide SafeUpTo;
    ThreadFacts(s, t);
  }

  lemma NewAlias(s: State, m: MappingId)
    requires Safe(s) && m !in s.mappings
    ensures forall x :: x in s.entries ==> m !in s.entries[x].aliases
  {
    hide SafeUpTo;
    forall x | x in s.entries ensures m !in s.entries[x].aliases {
      if m in s.entries[x].aliases { AliasOwner(s, m, x); }
    }
  }

  function Redirtied(s: State, t: ThreadId, dirty: bool, errand: Errand): State
    requires t in s.threads && s.threads[t].Holding? && s.threads[t].entry in s.entries
  {
    var pc := s.threads[t];
    At(s.(entries := s.entries[pc.entry := s.entries[pc.entry].(dirty := dirty)]), t, Holding(pc.key, pc.entry, errand))
  }

  predicate MayRedirty(s: State, t: ThreadId, dirty: bool, errand: Errand) {
    && t in s.threads && s.threads[t].Holding? && s.threads[t].entry in s.entries
    && ((s.threads[t].errand.Store? && errand == Get)
        || (s.threads[t].errand.Flush? && s.entries[s.threads[t].entry].dirty && errand == Flush(true)))
    && (dirty ==> !CleanPage(s.entries[s.threads[t].entry]))
  }

  lemma RedirtiedEntry(s: State, t: ThreadId, dirty: bool, errand: Errand)
    requires Safe(s) && MayRedirty(s, t, dirty, errand)
    ensures EntrySafe(Redirtied(s, t, dirty, errand), s.threads[t].entry, 0)
  {
    hide SafeUpTo, HoldsMapping;
    var s', e := Redirtied(s, t, dirty, errand), s.threads[t].entry;
    EntryFacts(s, e);
    RecountOwners(s, s', t, Some(e), None, None, e);
    forall n | n in s'.entries[e].aliases ensures AliasSafe(s', s'.entries[e], n) {
      assert AliasSafe(s, s.entries[e], n);
    }
  }

  lemma RedirtiedThread(s: State, t: ThreadId, dirty: bool, errand: Errand)
    requires Safe(s) && MayRedirty(s, t, dirty, errand)
    ensures ThreadSafe(Redirtied(s, t, dirty, errand), t)
    ensures EntryMove(s, Redirtied(s, t, dirty, errand), t, s.threads[t].entry, None)
  {
    hide SafeUpTo;
    ThreadFacts(s, t);
    DirtyIsAlive(s, s.threads[t].entry);
  }

  lemma DirtyIsAlive(s: State, e: EntryId)
    requires Safe(s) && e in s.entries
    ensures s.entries[e].dirty ==> s.entries[e].key.identity in s.files
  {
    EntryFacts(s, e);
  }

  /** The dirty flag of a held Ready page changes; it is set only where an alias stands. */
  lemma RedirtiedSafe(s: State, t: ThreadId, dirty: bool, errand: Errand)
    requires Safe(s) && MayRedirty(s, t, dirty, errand)
    ensures Safe(Redirtied(s, t, dirty, errand))
  {
    hide SafeUpTo, EntrySafe, ThreadSafe, EntryMove;
    RedirtiedEntry(s, t, dirty, errand);
    RedirtiedThread(s, t, dirty, errand);
    EntryMoveSafe(s, Redirtied(s, t, dirty, errand), t, s.threads[t].entry, None);
  }

  lemma MarkDirtySafe(s: State, t: ThreadId, allowed: bool)
    requires Safe(s)
    ensures Safe(DoMarkDirty(s, t, allowed))
  {
    hide SafeUpTo;
    if DoMarkDirty(s, t, allowed) != s {
      var m, entry := s.threads[t].errand.mapping, s.entries[s.threads[t].entry];
      var stored := allowed && m in entry.aliases && m in s.mappings && s.mappings[m].leaver.None?;
      RedirtiedSafe(s, t, entry.dirty || stored, Get);
    }
  }

  lemma WriteBackSafe(s: State, t: ThreadId, written: bool)
    requires Safe(s)
    ensures Safe(DoWriteBack(s, t, written))
  {
    hide SafeUpTo;
    if DoWriteBack(s, t, written) != s {
      RedirtiedSafe(s, t, !written, Flush(true));
    }
  }

  lemma CleanSafe(s: State, key: Key)
    requires Safe(s)
    ensures Safe(DoClean(s, key))
  {
    hide SafeUpTo, EntrySafe, RecordSafe;
    var s' := DoClean(s, key);
    if s' != s {
      var e := s.table[key];
      var t := FreshThread(s);
      CleanedEntry(s, key);
      RecordFacts(s, key);
      CleanedRecord(s, key, t);
      NoOtherPrepared(s, t, e);
      StepSafe(s, s', t, Some(e), None, None, None, None);
    }
  }

  lemma CleanedEntry(s: State, key: Key)
    requires Safe(s) && key in s.table && s.table[key] in s.entries && DoClean(s, key) != s
    ensures EntrySafe(DoClean(s, key), s.table[key], 0)
  {
    hide SafeUpTo;
    var s', e := DoClean(s, key), s.table[key];
    EntryFacts(s, e);
    forall n | n in s'.entries[e].aliases ensures AliasSafe(s', s'.entries[e], n) {
      assert AliasSafe(s, s.entries[e], n);
    }
  }

  lemma CleanedRecord(s: State, key: Key, t: ThreadId)
    requires Safe(s) && key in s.table && s.table[key] in s.entries && DoClean(s, key) != s && t !in s.threads
    ensures Recorded(s, s.table[key])
    ensures forall k :: k in s.table && s.table[k] == s.table[key] ==> RecordSafe(DoClean(s, key), k)
  {
    hide SafeUpTo;
    RecordFacts(s, key);
    UniqueRecord(s, s.table[key]);
  }

  // ---- Unmapping ----

  lemma LeavingMapping(s: State, t: ThreadId, m: MappingId)
    requires Safe(s) && PcOf(s, t) == Idle && m in s.mappings && s.mappings[m].leaver == None
    ensures s.mappings[m].key in s.table && s.table[s.mappings[m].key] in s.entries
    ensures MappingSafe(DoStartLeave(s, t, m), m) && s.mappings[m].attached && Recorded(s, s.table[s.mappings[m].key])
  {
    hide SafeUpTo, PageSafe, EntrySafe;
    MappingFacts(s, m);
    RecordFacts(s, s.mappings[m].key);
  }

  lemma LeavingEntry(s: State, t: ThreadId, m: MappingId)
    requires Safe(s) && PcOf(s, t) == Idle && m in s.mappings && s.mappings[m].leaver == None
    requires s.mappings[m].key in s.table && s.table[s.mappings[m].key] in s.entries
    ensures EntrySafe(DoStartLeave(s, t, m), s.table[s.mappings[m].key], 0)
    ensures forall k :: k in s.table && s.table[k] == s.table[s.mappings[m].key] ==> RecordSafe(DoStartLeave(s, t, m), k)
  {
    hide SafeUpTo, OthersSame, AliasSafe;
    var e, s' := s.table[s.mappings[m].key], DoStartLeave(s, t, m);
    EntryFacts(s, e);
    UniqueRecord(s, e);
    Replaced(Owners(s.threads, e), Owners(s'.threads, e), t);
    forall n | n in s'.entries[e].aliases ensures AliasSafe(s', s'.entries[e], n) {
      SameAlias(s, s', s.entries[e], s'.entries[e], n);
    }
  }

  lemma SameAlias(s: State, s': State, entry: Entry, entry': Entry, n: MappingId)
    requires AliasSafe(s, entry, n) && entry'.key == entry.key && entry'.physical == entry.physical
    requires n in s.mappings ==> n in s'.mappings && s'.mappings[n].(leaver := None) == s.mappings[n].(leaver := None)
    ensures AliasSafe(s', entry', n)
  {
  }

  lemma LeavingThread(s: State, t: ThreadId, m: MappingId)
    requires Safe(s) && PcOf(s, t) == Idle && m in s.mappings && s.mappings[m].leaver == None
    requires s.mappings[m].key in s.table && s.table[s.mappings[m].key] in s.entries
    ensures ThreadSafe(DoStartLeave(s, t, m), t)
    ensures Step(s, DoStartLeave(s, t, m), t, Some(s.table[s.mappings[m].key]), None, Some(m))
  {
    hide SafeUpTo, PageSafe, EntrySafe;
    MappingFacts(s, m);
    RecordFacts(s, s.mappings[m].key);
    PcFacts(s, t);
  }

  lemma StartLeaveSafe(s: State, t: ThreadId, m: MappingId)
    requires Safe(s)
    ensures Safe(DoStartLeave(s, t, m))
  {
    hide SafeUpTo, EntrySafe, MappingSafe, ThreadSafe, RecordSafe, Step;
    var s' := DoStartLeave(s, t, m);
    if s' != s {
      LeavingMapping(s, t, m);
      LeavingEntry(s, t, m);
      var e := s.table[s.mappings[m].key];
      LeavingThread(s, t, m);
      NoOtherPrepared(s, t, e);
      forall x | x in s.entries && x != e ensures m !in s.entries[x].aliases {
        if m in s.entries[x].aliases { AliasOwner(s, m, x); }
      }
      StepSafe(s, s', t, Some(e), None, Some(m), None, None);
    }
  }

  lemma UnregisteredEntry(s: State, t: ThreadId)
    requires Safe(s) && t in s.threads && s.threads[t].Holding? && s.threads[t].errand.Leave?
    ensures s.threads[t].entry in s.entries && s.threads[t].errand.mapping in s.mappings
    ensures EntrySafe(DoUnregister(s, t), s.threads[t].entry, 0)
    ensures MappingSafe(DoUnregister(s, t), s.threads[t].errand.mapping) && Recorded(s, s.threads[t].entry)
  {
    hide SafeUpTo, PageSafe;
    ThreadFacts(s, t);
    var s', e, m := DoUnregister(s, t), s.threads[t].entry, s.threads[t].errand.mapping;
    MappingFacts(s, m);
    EntryFacts(s, e);
    RecountOwners(s, s', t, Some(e), None, Some(m), e);
    forall n | n in s'.entries[e].aliases ensures AliasSafe(s', s'.entries[e], n) {
      assert AliasSafe(s, s.entries[e], n);
    }
  }

  lemma UnregisteredThread(s: State, t: ThreadId)
    requires Safe(s) && t in s.threads && s.threads[t].Holding? && s.threads[t].errand.Leave?
    ensures s.threads[t].entry in s.entries && s.threads[t].errand.mapping in s.mappings
    ensures ThreadSafe(DoUnregister(s, t), t)
    ensures EntryMove(s, DoUnregister(s, t), t, s.threads[t].entry, Some(s.threads[t].errand.mapping))
    ensures s.mappings[s.threads[t].errand.mapping].key == s.threads[t].key == s.entries[s.threads[t].entry].key
  {
    hide SafeUpTo, PageSafe, EntrySafe, MappingSafe;
    ThreadFacts(s, t);
  }

  lemma UnregisterSafe(s: State, t: ThreadId)
    requires Safe(s)
    ensures Safe(DoUnregister(s, t))
  {
    hide SafeUpTo, EntrySafe, MappingSafe, ThreadSafe, EntryMove;
    var s' := DoUnregister(s, t);
    if s' != s {
      var e, m := s.threads[t].entry, s.threads[t].errand.mapping;
      UnregisteredEntry(s, t);
      UnregisteredThread(s, t);
      forall x | x in s.entries && x != e ensures m !in s.entries[x].aliases {
        if m in s.entries[x].aliases { AliasOwner(s, m, x); }
      }
      EntryMoveSafe(s, s', t, e, Some(m));
    }
  }

  // ---- Records that leave the table ----

  /** Neither a thread nor a mapping counts on finding the record. */
  ghost predicate Unneeded(s: State, key: Key)
    requires key in s.table
  {
    && (forall t :: t in s.threads && Holds(s.threads[t], s.table[key]) ==>
          && key.identity !in s.files && !RetainsInode(s.threads[t], key.identity)
          && !(HasErrand(s.threads[t]) && (s.threads[t].errand.Leave? || s.threads[t].errand.Left?)))
    && (forall t :: t in s.threads && s.threads[t].Carrying? ==> s.threads[t].key != key)
    && (forall m :: m in s.mappings ==> s.mappings[m].key != key)
  }

  function Unlinked(s: State, key: Key): State {
    s.(table := s.table - {key})
  }

  lemma UnlinkedEntry(s: State, key: Key, x: EntryId)
    requires key in s.table && RecordSafe(s, key) && x in s.entries && EntrySafe(s, x, 0)
    requires x == s.table[key] ==> CleanPage(s.entries[x])
    ensures EntrySafe(Unlinked(s, key), x, One(x == s.table[key]))
  {
    forall m | m in s.entries[x].aliases ensures AliasSafe(Unlinked(s, key), s.entries[x], m) {
      assert AliasSafe(s, s.entries[x], m);
    }
  }

  lemma UnlinkedThread(s: State, key: Key, t: ThreadId)
    requires key in s.table && RecordSafe(s, key) && t in s.threads && ThreadSafe(s, t) && Unneeded(s, key)
    ensures ThreadSafe(Unlinked(s, key), t)
  {
    var pc := s.threads[t];
    if HasEntry(pc) {
      UnlinkedHolder(s, key, t);
    }
  }

  lemma UnlinkedHolder(s: State, key: Key, t: ThreadId)
    requires key in s.table && RecordSafe(s, key) && t in s.threads && HasEntry(s.threads[t]) && HolderSafe(s, t) && Unneeded(s, key)
    requires ThreadSafe(s, t)
    ensures HolderSafe(Unlinked(s, key), t)
  {
    var pc := s.threads[t];
    assert Holds(pc, pc.entry);
    if pc.entry != s.table[key] {
      assert pc.key != key || !Recorded(s, pc.entry);
      assert Recorded(Unlinked(s, key), pc.entry) <==> Recorded(s, pc.entry);
    }
  }

  lemma UnlinkedMapping(s: State, key: Key, m: MappingId)
    requires m in s.mappings && MappingSafe(s, m) && s.mappings[m].key != key
    ensures MappingSafe(Unlinked(s, key), m)
  {
  }

  lemma UnlinkedPage(s: State, key: Key, p: PageId)
    requires p in s.pages && PageSafe(s, p)
    ensures PageSafe(Unlinked(s, key), p)
  {
  }

  lemma UnlinkedRecord(s: State, key: Key, other: Key)
    requires other in s.table && other != key && RecordSafe(s, other)
    ensures RecordSafe(Unlinked(s, key), other)
  {
  }

  lemma UnlinkedSafe(s: State, key: Key)
    requires Safe(s) && key in s.table && s.table[key] in s.entries && Unneeded(s, key) && CleanPage(s.entries[s.table[key]])
    ensures SafeUpTo(Unlinked(s, key), Some(s.table[key]))
  {
    hide EntrySafe, ThreadSafe, PageSafe, MappingSafe, RecordSafe;
    var s', e := Unlinked(s, key), s.table[key];
    forall x | x in s'.entries ensures EntrySafe(s', x, One(Some(e) == Some(x))) { UnlinkedEntry(s, key, x); }
    forall t | t in s'.threads ensures ThreadSafe(s', t) { UnlinkedThread(s, key, t); }
    forall p | p in s'.pages ensures PageSafe(s', p) { UnlinkedPage(s, key, p); }
    forall m | m in s'.mappings ensures MappingSafe(s', m) { UnlinkedMapping(s, key, m); }
    forall other | other in s'.table ensures RecordSafe(s', other) { UnlinkedRecord(s, key, other); }
  }

  lemma RemoveRecordSafe(s: State, key: Key)
    requires Safe(s) && key in s.table && s.table[key] in s.entries && Unneeded(s, key) && CleanPage(s.entries[s.table[key]])
    ensures Safe(RemoveRecord(s, key))
  {
    hide SafeUpTo;
    UnlinkedSafe(s, key);
    DropSafe(Unlinked(s, key), s.table[key]);
  }

  /** A page that passes the eviction test is one that nothing else leads to. */
  lemma InactiveUnneeded(s: State, key: Key)
    requires Safe(s) && Inactive(s, key)
    ensures Unneeded(s, key)
  {
    hide SafeUpTo;
    var e := s.table[key];
    var p := s.entries[e].physical.value;
    RecordFacts(s, key);
    EntryFacts(s, e);
    PageFacts(s, p);
    forall t | t in s.threads ensures !Holds(s.threads[t], e) && (s.threads[t].Carrying? ==> s.threads[t].key != key) {
      ThreadFacts(s, t);
      assert Holds(s.threads[t], e) ==> t in Owners(s.threads, e);
      assert s.threads[t].Carrying? && s.threads[t].key == key ==> t in Mappers(s.threads, p);
    }
    forall m | m in s.mappings ensures s.mappings[m].key != key {
      MappingFacts(s, m);
      assert s.mappings[m].key == key ==> m in Mapped(s.mappings, p);
    }
  }

  lemma DetachSafe(s: State, key: Key)
    requires Safe(s)
    ensures Safe(DoDetach(s, key))
  {
    hide SafeUpTo;
    if Inactive(s, key) {
      InactiveUnneeded(s, key);
      RemoveRecordSafe(s, key);
    }
  }

  /** A destroyed inode left no dirty page, no alias and nobody who counts on the record. */
  lemma ForgottenUnneeded(s: State, key: Key)
    requires Safe(s) && key in s.table && key.identity !in s.files
    ensures s.table[key] in s.entries && Unneeded(s, key) && CleanPage(s.entries[s.table[key]])
  {
    hide SafeUpTo;
    RecordFacts(s, key);
    EntryFacts(s, s.table[key]);
    forall m | m in s.mappings ensures s.mappings[m].key != key { MappingFacts(s, m); }
    forall t | t in s.threads
      ensures Holds(s.threads[t], s.table[key]) ==>
        && !RetainsInode(s.threads[t], key.identity)
        && !(HasErrand(s.threads[t]) && (s.threads[t].errand.Leave? || s.threads[t].errand.Left?))
      ensures s.threads[t].Carrying? ==> s.threads[t].key != key
    {
      ThreadFacts(s, t);
    }
  }

  lemma ForgetSafe(s: State, key: Key)
    requires Safe(s)
    ensures Safe(DoForget(s, key))
  {
    hide SafeUpTo;
    if key in s.table && key.identity !in s.files {
      ForgottenUnneeded(s, key);
      RemoveRecordSafe(s, key);
    }
  }

  // ---- Inodes ----

  lemma DestroyedInodeSafe(s: State, identity: Identity)
    requires Safe(s)
    ensures Safe(DoDestroy(s, identity))
  {
    hide EntrySafe, ThreadSafe, PageSafe, MappingSafe, RecordSafe;
    var s' := s.(files := s.files - {identity});
    if Unreferenced(s, identity) {
      forall e | e in s'.entries ensures EntrySafe(s', e, 0) { InodelessEntry(s, identity, e); }
      forall t | t in s'.threads ensures ThreadSafe(s', t) { InodelessThread(s, identity, t); }
      forall p | p in s'.pages ensures PageSafe(s', p) { assert PageSafe(s, p); FilesDoNotCount(s, s'.files, p); }
      forall m | m in s'.mappings ensures MappingSafe(s', m) { InodelessMapping(s, identity, m); }
      forall key | key in s'.table ensures RecordSafe(s', key) { SameRecord(s, s'.files, key); }
    }
  }

  lemma FilesDoNotCount(s: State, files: map<Identity, seq<Byte>>, p: PageId)
    requires p in s.pages && PageSafe(s, p)
    ensures PageSafe(s.(files := files), p)
  {
  }

  lemma SameRecord(s: State, files: map<Identity, seq<Byte>>, key: Key)
    requires key in s.table && RecordSafe(s, key)
    ensures RecordSafe(s.(files := files), key)
  {
  }

  lemma InodelessEntry(s: State, identity: Identity, e: EntryId)
    requires e in s.entries && EntrySafe(s, e, 0) && Unreferenced(s, identity)
    ensures EntrySafe(s.(files := s.files - {identity}), e, 0)
  {
    var s' := s.(files := s.files - {identity});
    forall m | m in s.entries[e].aliases
      ensures AliasSafe(s', s.entries[e], m) && s.entries[e].key.identity != identity
    {
      assert AliasSafe(s, s.entries[e], m);
    }
  }

  lemma InodelessThread(s: State, identity: Identity, t: ThreadId)
    requires t in s.threads && ThreadSafe(s, t) && Unreferenced(s, identity)
    ensures ThreadSafe(s.(files := s.files - {identity}), t)
  {
  }

  lemma InodelessMapping(s: State, identity: Identity, m: MappingId)
    requires m in s.mappings && MappingSafe(s, m) && Unreferenced(s, identity)
    ensures MappingSafe(s.(files := s.files - {identity}), m)
  {
  }

  lemma ChangeSafe(s: State, identity: Identity, bytes: seq<Byte>)
    requires Safe(s)
    ensures Safe(DoChange(s, identity, bytes))
  {
    hide EntrySafe, ThreadSafe, PageSafe, MappingSafe, RecordSafe;
    var s' := DoChange(s, identity, bytes);
    if s' != s {
      forall e | e in s'.entries ensures EntrySafe(s', e, 0) { ChangedEntry(s, identity, bytes, e); }
      forall t | t in s'.threads ensures ThreadSafe(s', t) { ChangedThread(s, identity, bytes, t); }
      forall p | p in s'.pages ensures PageSafe(s', p) { assert PageSafe(s, p); FilesDoNotCount(s, s'.files, p); }
      forall m | m in s'.mappings ensures MappingSafe(s', m) { ChangedMapping(s, identity, bytes, m); }
      forall key | key in s'.table ensures RecordSafe(s', key) { SameRecord(s, s'.files, key); }
    }
  }

  lemma ChangedEntry(s: State, identity: Identity, bytes: seq<Byte>, e: EntryId)
    requires e in s.entries && EntrySafe(s, e, 0)
    ensures EntrySafe(DoChange(s, identity, bytes), e, 0)
  {
    forall m | m in s.entries[e].aliases ensures AliasSafe(DoChange(s, identity, bytes), s.entries[e], m) {
      assert AliasSafe(s, s.entries[e], m);
    }
  }

  /** Nobody carries a page from the backend to the table while another holds vfs_lock. */
  lemma ChangedThread(s: State, identity: Identity, bytes: seq<Byte>, t: ThreadId)
    requires t in s.threads && ThreadSafe(s, t)
    ensures ThreadSafe(DoChange(s, identity, bytes), t)
  {
  }

  lemma ChangedMapping(s: State, identity: Identity, bytes: seq<Byte>, m: MappingId)
    requires m in s.mappings && MappingSafe(s, m)
    ensures MappingSafe(DoChange(s, identity, bytes), m)
  {
  }

  // ---- Every section, every run ----

  /** The sections of `GetSharedFilePage`. */
  predicate Finds(a: Action) {
    a.Look? || a.Hit? || a.Miss? || a.Insert? || a.Allocate? || a.Fill? || a.Adopt? || a.RetainCache? || a.ReleaseFirstMapping?
    || a.Complete? || a.Signal? || a.Unlock? || a.Await?
  }

  /** The sections that map, dirty and write back. */
  predicate Uses(a: Action) {
    a.RetainMapping? || a.Finish? || a.Inherit? || a.Relook? || a.Install? || a.GiveBack? || a.StartStore? || a.MarkDirty?
    || a.StartFlush? || a.WriteBack? || a.ReleaseInode? || a.Clean?
  }

  lemma FindingSafe(s: State, a: Action)
    requires Safe(s) && Finds(a)
    ensures Safe(Apply(s, a))
  {
    hide Safe, Joined, DoLook, DoHit, DoMiss, DoInsert, DoAllocate, DoFill, DoAdopt, DoRetainCache, DoReleaseFirstMapping, DoComplete,
      DoSignal, DoUnlock, DoAwait;
    match a
    case Look(t, key) => LookSafe(s, t, key);
    case Hit(t) => HitSafe(s, t);
    case Miss(t, made) => MissSafe(s, t, made);
    case Insert(t) => InsertSafe(s, t);
    case Allocate(t, got) => AllocateSafe(s, t, got);
    case Fill(t, readable) => FillSafe(s, t, readable);
    case Adopt(t, success) => AdoptSafe(s, t, success);
    case RetainCache(t) => RetainCacheSafe(s, t);
    case ReleaseFirstMapping(t) => ReleaseFirstMappingSafe(s, t);
    case Complete(t) => CompleteSafe(s, t);
    case Signal(t) => SignalSafe(s, t);
    case Unlock(t) => UnlockSafe(s, t);
    case Await(t) => AwaitSafe(s, t);
  }

  lemma UsingSafe(s: State, a: Action)
    requires Safe(s) && Uses(a)
    ensures Safe(Apply(s, a))
  {
    hide Safe, Joined, DoRetainMapping, DoFinish, DoInherit, DoRelook, DoInstall, DoGiveBack, DoStartStore, DoMarkDirty, DoStartFlush,
      DoWriteBack, DoReleaseInode, DoClean;
    match a
    case RetainMapping(t) => RetainMappingSafe(s, t);
    case Finish(t) => FinishSafe(s, t);
    case Inherit(t, m) => InheritSafe(s, t, m);
    case Relook(t) => RelookSafe(s, t);
    case Install(t, m, agreed) => InstallSafe(s, t, m, agreed);
    case GiveBack(t) => GiveBackSafe(s, t);
    case StartStore(t, m) => StartStoreSafe(s, t, m);
    case MarkDirty(t, allowed) => MarkDirtySafe(s, t, allowed);
    case StartFlush(t, key) => StartFlushSafe(s, t, key);
    case WriteBack(t, written) => WriteBackSafe(s, t, written);
    case ReleaseInode(t) => ReleaseInodeSafe(s, t);
    case Clean(key) => CleanSafe(s, key);
  }

  lemma EndingSafe(s: State, a: Action)
    requires Safe(s) && !Finds(a) && !Uses(a)
    ensures Safe(Apply(s, a))
  {
    hide Safe, Joined, DoStartLeave, DoUnregister, DoReleaseMapping, DoDestroy, DoChange, DoDetach, DoForget;
    match a
    case StartLeave(t, m) => StartLeaveSafe(s, t, m);
    case Unregister(t) => UnregisterSafe(s, t);
    case ReleaseMapping(t) => ReleaseMappingSafe(s, t);
    case Destroy(identity) => DestroyedInodeSafe(s, identity);
    case Change(identity, bytes) => ChangeSafe(s, identity, bytes);
    case Detach(key) => DetachSafe(s, key);
    case Forget(key) => ForgetSafe(s, key);
  }

  lemma SectionSafe(s: State, a: Action)
    requires Safe(s)
    ensures Safe(Apply(s, a))
  {
    hide Safe, Apply, Finds, Uses;
    if Finds(a) {
      FindingSafe(s, a);
    } else if Uses(a) {
      UsingSafe(s, a);
    } else {
      EndingSafe(s, a);
    }
  }

  lemma {:induction false} RunsSafe(s: State, run: seq<Action>)
    requires Safe(s)
    ensures Safe(Run(s, run))
    decreases |run|
  {
    hide Safe, Apply;
    if run != [] {
      SectionSafe(s, run[0]);
      RunsSafe(Apply(s, run[0]), run[1..]);
    }
  }
}
