/**
 What the calls on shared file pages do when no other section comes between their own: filling a page,
 failing to, mapping it, refusing to, storing to it, flushing it and unmapping it, each with its whole outcome.
 */
module SharedPageCalls {
  import opened FileBytes
  import opened SharedPageLife
  import C = FileCache
  import F = FileCacheCalls

  /** The state with the thread at `pc` and `entry` under `e`. */
  function WithEntry(s: State, e: EntryId, entry: Entry, t: ThreadId, pc: Pc): State {
    s.(entries := s.entries[e := entry], threads := s.threads[t := pc])
  }

  lemma EntryAgain(s: State, e: EntryId, entry: Entry, t: ThreadId, pc: Pc, entry': Entry, pc': Pc)
    ensures WithEntry(WithEntry(s, e, entry, t, pc), e, entry', t, pc') == WithEntry(s, e, entry', t, pc')
  {
    F.Overwritten(s.entries, e, entry, entry');
    F.Overwritten(s.threads, t, pc, pc');
  }

  lemma PcAgain(s: State, t: ThreadId, pc: Pc, pc': Pc)
    ensures At(At(s, t, pc), t, pc') == At(s, t, pc')
  {
    F.Overwritten(s.threads, t, pc, pc');
  }

  // ---- Filling ----

  /** The sections of `FindOrInsert` on a miss. */
  function Claimed(s: State, t: ThreadId, key: Key, made: EntryId): State {
    DoInsert(DoMiss(DoLook(s, t, key), t, made), t)
  }

  lemma ClaimLinks(s: State, t: ThreadId, key: Key, made: EntryId)
    requires PcOf(s, t) == Idle && key.identity in s.files && key !in s.table && made !in s.entries
    ensures Claimed(s, t, key, made) ==
      WithEntry(s.(table := s.table[key := made]), made, Entry(key, C.Loading, None, false, {}, Some(t), 2), t, Filling(key, made))
  {
    var entry := Entry(key, C.Loading, None, false, {}, Some(t), 1);
    var s1 := At(s, t, Looking(key));
    assert DoLook(s, t, key) == s1;
    var s2 := WithEntry(s, made, entry, t, Prepared(key, made));
    assert DoMiss(s1, t, made) == s2 by {
      F.Overwritten(s.threads, t, Looking(key), Prepared(key, made));
    }
    var linked := s2.(table := s.table[key := made]);
    assert DoInsert(s2, t) == WithEntry(linked, made, entry.(owners := 2), t, Filling(key, made));
    EntryAgain(s.(table := s.table[key := made]), made, entry, t, Prepared(key, made), entry.(owners := 2), Filling(key, made));
  }

  /** The state with the thread at `pc`, `page` in frame `p` and `vfs` the holder of vfs_lock. */
  function WithFrame(s: State, t: ThreadId, p: PageId, page: C.Page, pc: Pc, vfs: Option<ThreadId>): State {
    s.(pages := s.pages[p := page], threads := s.threads[t := pc], vfs := vfs)
  }

  lemma FrameAgain(s: State, t: ThreadId, p: PageId, page: C.Page, pc: Pc, vfs: Option<ThreadId>, page': C.Page, pc': Pc, vfs': Option<ThreadId>)
    ensures WithFrame(WithFrame(s, t, p, page, pc, vfs), t, p, page', pc', vfs') == WithFrame(s, t, p, page', pc', vfs')
  {
    F.Overwritten(s.pages, p, page, page');
    F.Overwritten(s.threads, t, pc, pc');
  }

  /** Allocation and the read, after which vfs_lock stays held. */
  function Read(s: State, t: ThreadId, p: PageId): State {
    DoFill(DoAllocate(s, t, Some(p)), t, true)
  }

  predicate CanFill(s: State, t: ThreadId) {
    PcOf(s, t).Filling? && PcOf(s, t).key.identity in s.files && s.vfs.None?
  }

  lemma ReadFills(s: State, t: ThreadId, p: PageId)
    requires CanFill(s, t) && p !in s.pages
    ensures Read(s, t, p) ==
      var key := PcOf(s, t).key;
      WithFrame(s, t, p, C.Page(false, 0, 0, PaddedPage(s.files[key.identity], key.index)), Filled(key, PcOf(s, t).entry, p), Some(t))
  {
    hide PaddedPage, Zeros;
    var key, e := PcOf(s, t).key, PcOf(s, t).entry;
    var blank := C.Page(false, 0, 0, Zeros(PAGE_SIZE));
    var s1 := WithFrame(s, t, p, blank, Blank(key, e, p), None);
    assert DoAllocate(s, t, Some(p)) == s1;
    var bytes := PaddedPage(s.files[key.identity], key.index);
    assert DoFill(s1, t, true) == WithFrame(s1, t, p, blank.(bytes := bytes), Filled(key, e, p), Some(t));
    FrameAgain(s, t, p, blank, Blank(key, e, p), None, blank.(bytes := bytes), Filled(key, e, p), Some(t));
  }

  /** Adoption, the cache reference and the end of the first mapping. */
  function Kept(s: State, t: ThreadId): State {
    DoReleaseFirstMapping(DoRetainCache(DoAdopt(s, t, true), t), t)
  }

  lemma AdoptManages(s: State, t: ThreadId, p: PageId, bytes: seq<Byte>, key: Key, e: EntryId)
    ensures DoAdopt(WithFrame(s, t, p, C.Page(false, 0, 0, bytes), Filled(key, e, p), Some(t)), t, true) ==
            WithFrame(s, t, p, C.Page(true, 1, 0, bytes), Adopted(key, e, p), Some(t))
  {
    FrameAgain(s, t, p, C.Page(false, 0, 0, bytes), Filled(key, e, p), Some(t), C.Page(true, 1, 0, bytes), Adopted(key, e, p), Some(t));
  }

  lemma RetainCaches(s: State, t: ThreadId, p: PageId, bytes: seq<Byte>, key: Key, e: EntryId)
    ensures DoRetainCache(WithFrame(s, t, p, C.Page(true, 1, 0, bytes), Adopted(key, e, p), Some(t)), t) ==
            WithFrame(s, t, p, C.Page(true, 1, 1, bytes), Retained(key, e, p), Some(t))
  {
    FrameAgain(s, t, p, C.Page(true, 1, 0, bytes), Adopted(key, e, p), Some(t), C.Page(true, 1, 1, bytes), Retained(key, e, p), Some(t));
  }

  lemma ReleaseUnmaps(s: State, t: ThreadId, p: PageId, bytes: seq<Byte>, key: Key, e: EntryId)
    ensures DoReleaseFirstMapping(WithFrame(s, t, p, C.Page(true, 1, 1, bytes), Retained(key, e, p), Some(t)), t) ==
            WithFrame(s, t, p, C.Page(true, 0, 1, bytes), Owning(key, e, p), Some(t))
  {
    FrameAgain(s, t, p, C.Page(true, 1, 1, bytes), Retained(key, e, p), Some(t), C.Page(true, 0, 1, bytes), Owning(key, e, p), Some(t));
  }

  lemma KeptByCache(s: State, t: ThreadId, p: PageId, bytes: seq<Byte>, key: Key, e: EntryId)
    ensures Kept(WithFrame(s, t, p, C.Page(false, 0, 0, bytes), Filled(key, e, p), Some(t)), t) ==
            WithFrame(s, t, p, C.Page(true, 0, 1, bytes), Owning(key, e, p), Some(t))
  {
    hide WithFrame, DoAdopt, DoRetainCache, DoReleaseFirstMapping;
    AdoptManages(s, t, p, bytes, key, e);
    RetainCaches(s, t, p, bytes, key, e);
    ReleaseUnmaps(s, t, p, bytes, key, e);
  }

  /** `Complete`, and the filler leaves vfs_lock. */
  function Settle(s: State, t: ThreadId): State {
    DoUnlock(DoSignal(DoComplete(s, t), t), t)
  }

  lemma SettlePublishes(s: State, t: ThreadId)
    requires PcOf(s, t).Owning? && PcOf(s, t).entry in s.entries && s.vfs == Some(t)
    ensures Settle(s, t) ==
      var pc := PcOf(s, t);
      WithEntry(s.(vfs := None), pc.entry, s.entries[pc.entry].(state := C.Ready, physical := Some(pc.page), filler := None), t, Holding(pc.key, pc.entry, Get))
  {
    var pc := PcOf(s, t);
    var entry := s.entries[pc.entry].(state := C.Ready, physical := Some(pc.page));
    var s1 := WithEntry(s, pc.entry, entry, t, Published(pc.key, pc.entry));
    assert DoComplete(s, t) == s1;
    var s2 := WithEntry(s, pc.entry, entry.(filler := None), t, Settled(pc.key, pc.entry));
    assert DoSignal(s1, t) == s2 by {
      EntryAgain(s, pc.entry, entry, t, Published(pc.key, pc.entry), entry.(filler := None), Settled(pc.key, pc.entry));
    }
    var free := WithEntry(s.(vfs := None), pc.entry, entry.(filler := None), t, Settled(pc.key, pc.entry));
    assert DoUnlock(s2, t) == At(free, t, Holding(pc.key, pc.entry, Get));
    F.Overwritten(s.threads, t, Settled(pc.key, pc.entry), Holding(pc.key, pc.entry, Get));
  }

  /**
   `GetSharedFilePage` on a page nobody has: the call ends holding a recorded, clean Ready page without
   aliases whose frame is the zero-padded page of the file, and changes nothing else.
   */
  lemma MissFills(s: State, t: ThreadId, key: Key, made: EntryId, p: PageId)
    requires PcOf(s, t) == Idle && key.identity in s.files && s.vfs.None?
    requires key !in s.table && made !in s.entries && p !in s.pages
    ensures Settle(Kept(Read(Claimed(s, t, key, made), t, p), t), t) ==
      s.(table := s.table[key := made],
         entries := s.entries[made := Entry(key, C.Ready, Some(p), false, {}, None, 2)],
         pages := s.pages[p := C.Page(true, 0, 1, PaddedPage(s.files[key.identity], key.index))],
         threads := s.threads[t := Holding(key, made, Get)])
  {
    hide Claimed, Read, Kept, Settle, PaddedPage;
    var bytes := PaddedPage(s.files[key.identity], key.index);
    ClaimLinks(s, t, key, made);
    var s1 := Claimed(s, t, key, made);
    ReadFills(s1, t, p);
    KeptByCache(s1, t, p, bytes, key, made);
    var s2 := WithFrame(s1, t, p, C.Page(true, 0, 1, bytes), Owning(key, made, p), Some(t));
    SettlePublishes(s2, t);
    F.Overwritten(s.threads, t, Filling(key, made), Owning(key, made, p));
    F.Overwritten(s.threads, t, Owning(key, made, p), Holding(key, made, Get));
    F.Overwritten(s.entries, made, Entry(key, C.Loading, None, false, {}, Some(t), 2), Entry(key, C.Ready, Some(p), false, {}, None, 2));
  }

  /** Why a fill fails: no frame, a backend that does not answer, or a frame the page manager refuses. */
  function Refused(s: State, t: ThreadId, why: F.Refusal): State {
    match why
    case NoFrame => DoAllocate(s, t, None)
    case Unreadable(p) => DoFill(DoAllocate(s, t, Some(p)), t, false)
    case NotAdopted(p) => DoAdopt(Read(s, t, p), t, false)
  }

  lemma FrameFreed(s: State, t: ThreadId, p: PageId, page: C.Page, pc: Pc, vfs: Option<ThreadId>, pc': Pc)
    requires p !in s.pages
    ensures var filled := WithFrame(s, t, p, page, pc, vfs);
      At(filled.(pages := filled.pages - {p}, vfs := Some(t)), t, pc') == At(s.(vfs := Some(t)), t, pc')
  {
    F.TakenAway(s.pages, p, page);
    F.Overwritten(s.threads, t, pc, pc');
  }

  lemma RefusalFreesFrame(s: State, t: ThreadId, why: F.Refusal)
    requires CanFill(s, t) && (!why.NoFrame? ==> why.p !in s.pages)
    ensures Refused(s, t, why) ==
      At(s.(vfs := if why.NoFrame? then None else Some(t)), t, Failing(PcOf(s, t).key, PcOf(s, t).entry))
  {
    hide PaddedPage, Zeros, Read;
    var key, e := PcOf(s, t).key, PcOf(s, t).entry;
    match why
    case NoFrame =>
    case Unreadable(p) =>
      var blank := C.Page(false, 0, 0, Zeros(PAGE_SIZE));
      assert DoAllocate(s, t, Some(p)) == WithFrame(s, t, p, blank, Blank(key, e, p), None);
      FrameFreed(s, t, p, blank, Blank(key, e, p), None, Failing(key, e));
    case NotAdopted(p) =>
      ReadFills(s, t, p);
      FrameFreed(s, t, p, C.Page(false, 0, 0, PaddedPage(s.files[key.identity], key.index)), Filled(key, e, p), Some(t), Failing(key, e));
  }

  lemma CompleteUnlinks(s: State, t: ThreadId, key: Key, e: EntryId)
    requires key !in s.table
    ensures
      var entry := Entry(key, C.Loading, None, false, {}, Some(t), 2);
      DoComplete(WithEntry(s.(table := s.table[key := e]), e, entry, t, Failing(key, e)), t) ==
      WithEntry(s, e, entry.(state := C.Error, owners := 1), t, Published(key, e))
  {
    var entry := Entry(key, C.Loading, None, false, {}, Some(t), 2);
    F.TakenAway(s.table, key, e);
    EntryAgain(s, e, entry, t, Failing(key, e), entry.(state := C.Error, owners := 1), Published(key, e));
  }

  lemma SignalOpens(s: State, t: ThreadId, key: Key, e: EntryId, entry: Entry)
    ensures DoSignal(WithEntry(s, e, entry, t, Published(key, e)), t) == WithEntry(s, e, entry.(filler := None), t, Settled(key, e))
  {
    EntryAgain(s, e, entry, t, Published(key, e), entry.(filler := None), Settled(key, e));
  }

  lemma UnlockDestroys(s: State, t: ThreadId, key: Key, e: EntryId, entry: Entry)
    requires e !in s.entries && entry.state == C.Error && entry.owners == 1 && entry.physical.None? && (s.vfs.None? || s.vfs == Some(t))
    ensures DoUnlock(WithEntry(s, e, entry, t, Settled(key, e)), t) == At(s.(vfs := None), t, Idle)
  {
    F.TakenAway(s.entries, e, entry);
    F.Overwritten(s.threads, t, Settled(key, e), Idle);
  }

  lemma SettleUnlinks(s: State, t: ThreadId, key: Key, e: EntryId, vfs: Option<ThreadId>)
    requires key !in s.table && e !in s.entries && s.vfs.None? && (vfs.None? || vfs == Some(t))
    ensures
      var failing := WithEntry(s.(table := s.table[key := e], vfs := vfs), e, Entry(key, C.Loading, None, false, {}, Some(t), 2), t, Failing(key, e));
      Settle(failing, t) == At(s, t, Idle)
  {
    hide WithEntry, DoComplete, DoSignal, DoUnlock;
    var failed := Entry(key, C.Error, None, false, {}, Some(t), 1);
    var base := s.(vfs := vfs);
    CompleteUnlinks(base, t, key, e);
    SignalOpens(base, t, key, e, failed);
    UnlockDestroys(base, t, key, e, failed.(filler := None));
  }

  /** `GetSharedFilePage` that fails leaves no record, no page and no frame behind, and vfs_lock free. */
  lemma FailureLeavesNothing(s: State, t: ThreadId, key: Key, made: EntryId, why: F.Refusal)
    requires PcOf(s, t) == Idle && key.identity in s.files && s.vfs.None? && key !in s.table && made !in s.entries
    requires !why.NoFrame? ==> why.p !in s.pages
    ensures Settle(Refused(Claimed(s, t, key, made), t, why), t) == s.(threads := s.threads[t := Idle])
  {
    hide Claimed, Refused, Settle;
    ClaimLinks(s, t, key, made);
    RefusalFreesFrame(Claimed(s, t, key, made), t, why);
    F.Overwritten(s.threads, t, Filling(key, made), Failing(key, made));
    SettleUnlinks(s, t, key, made, if why.NoFrame? then None else Some(t));
  }

  // ---- Mapping ----

  /** A recorded Ready page whose frame `p` the cache keeps. */
  predicate Standing(s: State, key: Key, e: EntryId, p: PageId) {
    && key in s.table && s.table[key] == e && e in s.entries
    && s.entries[e].state == C.Ready && s.entries[e].filler.None? && s.entries[e].physical == Some(p) && s.entries[e].owners > 0
    && p in s.pages && s.pages[p].cache > 0
  }

  /** The second lookup of a recorded page and the wait for its completion. */
  lemma JoinHolds(s: State, t: ThreadId, key: Key, e: EntryId, p: PageId, errand: Errand)
    requires Standing(s, key, e, p)
    ensures DoAwait(Joined(s, t, key, errand), t) ==
      WithEntry(s, e, s.entries[e].(owners := s.entries[e].owners + 1), t, Holding(key, e, errand))
  {
    var entry := s.entries[e].(owners := s.entries[e].owners + 1);
    assert Joined(s, t, key, errand) == WithEntry(s, e, entry, t, Waiting(key, e, errand));
    F.Overwritten(s.threads, t, Waiting(key, e, errand), Holding(key, e, errand));
  }

  /** `AcquireSharedFileMappingPage` on a held page: one more mapping of the frame, carried by the thread alone. */
  lemma TakeCarries(s: State, t: ThreadId, key: Key, e: EntryId, p: PageId)
    requires Standing(s, key, e, p) && PcOf(s, t) == Holding(key, e, Get) && s.entries[e].owners > 1
    ensures DoFinish(DoRetainMapping(s, t), t) ==
      WithEntry(s, e, s.entries[e].(owners := s.entries[e].owners - 1), t, Carrying(key, p)).(pages := OneMoreMapping(s.pages, p))
  {
    var s1 := At(s.(pages := OneMoreMapping(s.pages, p)), t, Holding(key, e, Take(p)));
    assert DoRetainMapping(s, t) == s1;
    F.Overwritten(s.threads, t, Holding(key, e, Take(p)), Carrying(key, p));
  }

  /** What an owner that goes leaves of a page with others. */
  lemma FinishDrops(s: State, e: EntryId, entry: Entry, t: ThreadId, pc: Pc, pc': Pc)
    requires entry.owners > 1
    ensures At(DropOwner(WithEntry(s, e, entry, t, pc), e), t, pc') == WithEntry(s, e, entry.(owners := entry.owners - 1), t, pc')
  {
    EntryAgain(s, e, entry, t, pc, entry.(owners := entry.owners - 1), pc');
  }

  /** `MapSharedFileVmaPage` with a carried reference: the leaf entry and the alias appear, and nothing else changes. */
  lemma MapInstalls(s: State, t: ThreadId, key: Key, e: EntryId, p: PageId, m: MappingId)
    requires Standing(s, key, e, p) && PcOf(s, t) == Carrying(key, p) && m !in s.mappings
    ensures DoFinish(DoInstall(DoAwait(DoRelook(s, t), t), t, m, true), t) ==
      s.(mappings := s.mappings[m := Mapping(key, p, None, true)],
         entries := s.entries[e := s.entries[e].(aliases := s.entries[e].aliases + {m})],
         threads := s.threads[t := Idle])
  {
    hide DoAwait, Joined;
    var held := s.entries[e].(owners := s.entries[e].owners + 1);
    JoinHolds(s, t, key, e, p, Join(p));
    var s1 := WithEntry(s, e, held, t, Holding(key, e, Join(p)));
    var named := held.(aliases := held.aliases + {m});
    var base := s.(mappings := s.mappings[m := Mapping(key, p, None, true)]);
    assert DoInstall(s1, t, m, true) == WithEntry(base, e, named, t, Holding(key, e, Get)) by {
      EntryAgain(base, e, held, t, Holding(key, e, Join(p)), named, Holding(key, e, Get));
    }
    FinishDrops(base, e, named, t, Holding(key, e, Get), Idle);
  }

  lemma EntryBack(s: State, e: EntryId, t: ThreadId, pc: Pc)
    requires e in s.entries
    ensures WithEntry(s, e, s.entries[e], t, pc) == At(s, t, pc)
  {
    assert s.entries[e := s.entries[e]] == s.entries;
  }

  /** When the area or the page table does not agree, the carried reference is given back and nothing else changes. */
  lemma RefusedMapGivesBack(s: State, t: ThreadId, key: Key, e: EntryId, p: PageId, m: MappingId)
    requires Standing(s, key, e, p) && PcOf(s, t) == Carrying(key, p) && s.pages[p].mapping > 0
    ensures DoFinish(DoGiveBack(DoInstall(DoAwait(DoRelook(s, t), t), t, m, false), t), t) ==
      s.(pages := s.pages[p := s.pages[p].(mapping := s.pages[p].mapping - 1)], threads := s.threads[t := Idle])
  {
    hide DoAwait, Joined;
    var held := s.entries[e].(owners := s.entries[e].owners + 1);
    JoinHolds(s, t, key, e, p, Join(p));
    var s1 := WithEntry(s, e, held, t, Holding(key, e, Join(p)));
    var s2 := WithEntry(s, e, held, t, Holding(key, e, Back(p)));
    assert DoInstall(s1, t, m, false) == s2 by {
      F.Overwritten(s.threads, t, Holding(key, e, Join(p)), Holding(key, e, Back(p)));
    }
    var base := s.(pages := s.pages[p := s.pages[p].(mapping := s.pages[p].mapping - 1)]);
    assert DoGiveBack(s2, t) == WithEntry(base, e, held, t, Holding(key, e, Get)) by {
      F.Overwritten(s.threads, t, Holding(key, e, Back(p)), Holding(key, e, Get));
    }
    FinishDrops(base, e, held, t, Holding(key, e, Get), Idle);
    EntryBack(base, e, t, Idle);
  }

  /** `fork` carries one more reference to the page of a mapping of the parent. */
  lemma InheritCarries(s: State, t: ThreadId, m: MappingId)
    requires PcOf(s, t) == Idle && m in s.mappings && s.mappings[m].leaver.None? && s.mappings[m].page in s.pages
    ensures var p := s.mappings[m].page;
      DoInherit(s, t, m) == s.(pages := s.pages[p := s.pages[p].(mapping := s.pages[p].mapping + 1)],
                               threads := s.threads[t := Carrying(s.mappings[m].key, p)])
  {
  }

  // ---- Unmapping ----

  /** An installed mapping of a standing page. */
  predicate MappedTo(s: State, m: MappingId, e: EntryId) {
    && m in s.mappings && s.mappings[m].leaver.None? && s.mappings[m].attached
    && Standing(s, s.mappings[m].key, e, s.mappings[m].page) && m in s.entries[e].aliases && s.pages[s.mappings[m].page].mapping > 0
  }

  /** The leaf entry is taken out and its alias unregistered. */
  lemma LeaveUnregisters(s: State, t: ThreadId, m: MappingId, e: EntryId)
    requires PcOf(s, t) == Idle && MappedTo(s, m, e)
    ensures
      var mapping, entry := s.mappings[m], s.entries[e];
      DoUnregister(DoAwait(DoStartLeave(s, t, m), t), t) ==
      WithEntry(s.(mappings := s.mappings[m := mapping.(leaver := Some(t), attached := false)]), e,
                entry.(owners := entry.owners + 1, aliases := entry.aliases - {m}), t, Holding(mapping.key, e, Left(m)))
  {
    hide DoAwait, Joined;
    var mapping, entry := s.mappings[m], s.entries[e];
    var taken := s.(mappings := s.mappings[m := mapping.(leaver := Some(t))]);
    JoinHolds(taken, t, mapping.key, e, mapping.page, Leave(m));
    var held := entry.(owners := entry.owners + 1);
    F.Overwritten(s.mappings, m, mapping.(leaver := Some(t)), mapping.(leaver := Some(t), attached := false));
    var base := s.(mappings := s.mappings[m := mapping.(leaver := Some(t), attached := false)]);
    EntryAgain(base, e, held, t, Holding(mapping.key, e, Leave(m)), held.(aliases := entry.aliases - {m}), Holding(mapping.key, e, Left(m)));
  }

  /** The sections of an unmapping. */
  function Gone(s: State, t: ThreadId, m: MappingId): State {
    DoReleaseMapping(DoFinish(DoUnregister(DoAwait(DoStartLeave(s, t, m), t), t), t), t)
  }

  /** Unmapping takes the mapping, its alias and its reference to the frame, and nothing else. */
  lemma UnmapReleases(s: State, t: ThreadId, m: MappingId, e: EntryId)
    requires PcOf(s, t) == Idle && MappedTo(s, m, e)
    ensures Gone(s, t, m) ==
      var p := s.mappings[m].page;
      s.(mappings := s.mappings - {m},
         entries := s.entries[e := s.entries[e].(aliases := s.entries[e].aliases - {m})],
         pages := s.pages[p := s.pages[p].(mapping := s.pages[p].mapping - 1)],
         threads := s.threads[t := Idle])
  {
    hide DoAwait, DoStartLeave, DoUnregister;
    var mapping, entry := s.mappings[m], s.entries[e];
    LeaveUnregisters(s, t, m, e);
    var base := s.(mappings := s.mappings[m := mapping.(leaver := Some(t), attached := false)]);
    var left := entry.(owners := entry.owners + 1, aliases := entry.aliases - {m});
    FinishDrops(base, e, left, t, Holding(mapping.key, e, Left(m)), Leaving(m));
    var s2 := WithEntry(base, e, left.(owners := entry.owners), t, Leaving(m));
    assert base.mappings - {m} == s.mappings - {m};
    F.Overwritten(s.threads, t, Leaving(m), Idle);
  }

  lemma UndoneMaps(s: State, t: ThreadId, e: EntryId, p: PageId, m: MappingId, fewer: Entry)
    requires p in s.pages && m !in s.mappings && m !in fewer.aliases
    ensures s.mappings[m := Mapping(fewer.key, p, None, true)] - {m} == s.mappings
    ensures OneMoreMapping(s.pages, p)[p := s.pages[p]] == s.pages
    ensures s.entries[e := fewer.(aliases := fewer.aliases + {m})][e := fewer] == s.entries[e := fewer]
    ensures s.threads[t := Idle][t := Idle] == s.threads[t := Idle]
    ensures fewer.(aliases := fewer.aliases + {m} - {m}) == fewer
  {
    assert fewer.aliases + {m} - {m} == fewer.aliases;
    F.Overwritten(s.entries, e, fewer.(aliases := fewer.aliases + {m}), fewer);
  }

  /** Unmapping undoes mapping: of taking, installing and unmapping nothing is left but the owner that went. */
  lemma UnmapUndoesMap(s: State, t: ThreadId, key: Key, e: EntryId, p: PageId, m: MappingId)
    requires Standing(s, key, e, p) && PcOf(s, t) == Holding(key, e, Get) && s.entries[e].owners > 1
    requires m !in s.mappings && m !in s.entries[e].aliases
    ensures Gone(DoFinish(DoInstall(DoAwait(DoRelook(DoFinish(DoRetainMapping(s, t), t), t), t), t, m, true), t), t, m) ==
      s.(entries := s.entries[e := s.entries[e].(owners := s.entries[e].owners - 1)], threads := s.threads[t := Idle])
  {
    hide DoFinish, DoInstall, DoAwait, DoRelook, DoRetainMapping, Gone;
    var fewer := s.entries[e].(owners := s.entries[e].owners - 1);
    TakeCarries(s, t, key, e, p);
    var s1 := WithEntry(s, e, fewer, t, Carrying(key, p)).(pages := OneMoreMapping(s.pages, p));
    MapInstalls(s1, t, key, e, p, m);
    var named := fewer.(aliases := fewer.aliases + {m});
    var s2 := s.(mappings := s.mappings[m := Mapping(key, p, None, true)], entries := s.entries[e := named],
                 pages := OneMoreMapping(s.pages, p), threads := s.threads[t := Idle]);
    assert DoFinish(DoInstall(DoAwait(DoRelook(s1, t), t), t, m, true), t) == s2 by {
      EntryAgain(s, e, fewer, t, Carrying(key, p), named, Idle);
    }
    UnmapReleases(s2, t, m, e);
    UndoneMaps(s, t, e, p, m, fewer);
  }

  // ---- Stores and write-back ----

  /** The first store through a mapping marks the page dirty exactly when it is allowed. */
  lemma StoreMarks(s: State, t: ThreadId, m: MappingId, e: EntryId, allowed: bool)
    requires PcOf(s, t) == Idle && MappedTo(s, m, e) && s.vfs.None?
    ensures DoFinish(DoMarkDirty(DoAwait(DoStartStore(s, t, m), t), t, allowed), t) ==
      s.(entries := s.entries[e := s.entries[e].(dirty := s.entries[e].dirty || allowed)], threads := s.threads[t := Idle])
  {
    hide DoAwait, Joined;
    var mapping, entry := s.mappings[m], s.entries[e];
    JoinHolds(s, t, mapping.key, e, mapping.page, Store(m));
    var held := entry.(owners := entry.owners + 1);
    var s1 := WithEntry(s, e, held, t, Holding(mapping.key, e, Store(m)));
    var stored := held.(dirty := entry.dirty || allowed);
    assert DoMarkDirty(s1, t, allowed) == WithEntry(s, e, stored, t, Holding(mapping.key, e, Get)) by {
      EntryAgain(s, e, held, t, Holding(mapping.key, e, Store(m)), stored, Holding(mapping.key, e, Get));
    }
    FinishDrops(s, e, stored, t, Holding(mapping.key, e, Get), Idle);
  }

  /** A flush leaves a dirty page clean exactly when the write succeeded. */
  lemma FlushCleans(s: State, t: ThreadId, key: Key, e: EntryId, p: PageId, written: bool)
    requires PcOf(s, t) == Idle && Standing(s, key, e, p) && s.vfs.None? && s.entries[e].dirty
    ensures DoFinish(DoReleaseInode(DoWriteBack(DoAwait(DoStartFlush(s, t, key), t), t, written), t), t) ==
      s.(entries := s.entries[e := s.entries[e].(dirty := !written)], threads := s.threads[t := Idle])
  {
    hide DoAwait, Joined;
    var entry := s.entries[e];
    JoinHolds(s, t, key, e, p, Flush(false));
    var held := entry.(owners := entry.owners + 1);
    var s1 := WithEntry(s, e, held, t, Holding(key, e, Flush(false)));
    var flushed := held.(dirty := !written);
    var s2 := WithEntry(s, e, flushed, t, Holding(key, e, Flush(true)));
    assert DoWriteBack(s1, t, written) == s2 by {
      EntryAgain(s, e, held, t, Holding(key, e, Flush(false)), flushed, Holding(key, e, Flush(true)));
    }
    assert DoReleaseInode(s2, t) == WithEntry(s, e, flushed, t, Holding(key, e, Flush(false))) by {
      F.Overwritten(s.threads, t, Holding(key, e, Flush(true)), Holding(key, e, Flush(false)));
    }
    FinishDrops(s, e, flushed, t, Holding(key, e, Flush(false)), Idle);
  }

  // ---- Eviction ----

  /** Eviction destroys a clean page that only the table and the cache refer to, with its frame, and no other. */
  lemma DetachDestroysUnused(s: State, key: Key, e: EntryId, p: PageId)
    requires Standing(s, key, e, p)
    ensures DoDetach(s, key) ==
      if s.entries[e].owners == 1 && !s.entries[e].dirty && s.entries[e].aliases == {} && s.pages[p].mapping == 0 && s.pages[p].cache == 1
      then s.(table := s.table - {key}, entries := s.entries - {e}, pages := s.pages - {p})
      else s
  {
  }
}
