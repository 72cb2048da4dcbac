/**
 What the calls of the page cache do when no other section comes between their own: the miss, the hit,
 the failure and the mapping, each with its whole outcome.
 */
module FileCacheCalls {
  import opened FileBytes
  import opened FileCache

  /** The thread may start a call for page `index`, which lies below EOF. */
  predicate CanLook(s: State, t: ThreadId, identity: Identity, index: nat) {
    PcOf(s, t) == Idle && s.busy.None? && Known(s, identity) && index * PAGE_SIZE < |Current(s, identity)|
  }

  function KeyNow(s: State, identity: Identity, index: nat): Key
    requires Known(s, identity)
  {
    Key(identity, |s.files[identity]|, index)
  }

  lemma Overwritten<K, V>(m: map<K, V>, k: K, first: V, second: V)
    ensures m[k := first][k := second] == m[k := second]
  {
  }

  lemma TakenAway<K, V>(m: map<K, V>, k: K, v: V)
    requires k !in m
    ensures m[k := v] - {k} == m
  {
  }

  // ---- A page that is not there ----

  /** The sections of `FindOrInsert` on a miss. */
  function Claimed(s: State, t: ThreadId, identity: Identity, index: nat, made: EntryId): State {
    DoInsert(DoMiss(DoLook(s, t, identity, index), t, made), t)
  }

  lemma InsertLinks(s: State, t: ThreadId)
    requires PcOf(s, t).Prepared? && PcOf(s, t).entry in s.entries && PcOf(s, t).key !in s.table
    ensures DoInsert(s, t) ==
      var pc := PcOf(s, t);
      s.(table := s.table[pc.key := pc.entry],
         entries := s.entries[pc.entry := s.entries[pc.entry].(owners := s.entries[pc.entry].owners + 1)],
         threads := s.threads[t := Filling(pc.key, pc.entry)])
  {
  }

  /** The record is linked, owned by the table and the thread, and its completion mutex held. */
  lemma ClaimLinks(s: State, t: ThreadId, identity: Identity, index: nat, made: EntryId)
    requires CanLook(s, t, identity, index) && KeyNow(s, identity, index) !in s.table && made !in s.entries
    ensures Claimed(s, t, identity, index, made) ==
      var key := KeyNow(s, identity, index);
      s.(table := s.table[key := made], entries := s.entries[made := Entry(key, Loading, 0, false, Some(t), 2)],
         threads := s.threads[t := Filling(key, made)])
  {
    hide DoInsert;
    var key := KeyNow(s, identity, index);
    var entry := Entry(key, Loading, 0, false, Some(t), 1);
    var s1 := DoLook(s, t, identity, index);
    assert s1 == At(s, t, Looking(key));
    Overwritten(s.threads, t, Looking(key), Prepared(key, made));
    var s2 := DoMiss(s1, t, made);
    assert s2 == s.(entries := s.entries[made := entry], threads := s.threads[t := Prepared(key, made)]);
    InsertLinks(s2, t);
    Overwritten(s.entries, made, entry, entry.(owners := 2));
    Overwritten(s.threads, t, Prepared(key, made), Filling(key, made));
  }

  /** The state with the thread at `pc` and `page` in frame `p`. */
  function WithFrame(s: State, t: ThreadId, p: PageId, page: Page, pc: Pc): State {
    s.(pages := s.pages[p := page], threads := s.threads[t := pc])
  }

  lemma FrameAgain(s: State, t: ThreadId, p: PageId, page: Page, pc: Pc, page': Page, pc': Pc)
    ensures WithFrame(WithFrame(s, t, p, page, pc), t, p, page', pc') == WithFrame(s, t, p, page', pc')
  {
    Overwritten(s.pages, p, page, page');
    Overwritten(s.threads, t, pc, pc');
  }

  /** Allocation and the read under vfs_lock. */
  function Read(s: State, t: ThreadId, p: PageId): State {
    DoFill(DoAllocate(s, t, Some(p)), t, true)
  }

  lemma ReadFills(s: State, t: ThreadId, p: PageId)
    requires PcOf(s, t).Filling? && IsCurrent(s, PcOf(s, t).key) && s.busy.None? && p !in s.pages
    ensures Read(s, t, p) ==
      var key := PcOf(s, t).key;
      WithFrame(s, t, p, Page(false, 0, 0, PaddedPage(Current(s, key.identity), key.index)), Filled(key, PcOf(s, t).entry, p))
  {
    hide PaddedPage, Zeros;
    var key, e := PcOf(s, t).key, PcOf(s, t).entry;
    var blank := Page(false, 0, 0, Zeros(PAGE_SIZE));
    var s1 := WithFrame(s, t, p, blank, Blank(key, e, p));
    assert DoAllocate(s, t, Some(p)) == s1;
    var bytes := PaddedPage(Current(s, key.identity), key.index);
    assert DoFill(s1, t, true) == WithFrame(s1, t, p, blank.(bytes := bytes), Filled(key, e, p));
    FrameAgain(s, t, p, blank, Blank(key, e, p), blank.(bytes := bytes), Filled(key, e, p));
  }

  /** Adoption, the cache reference and the end of the first mapping. */
  function Kept(s: State, t: ThreadId): State {
    DoReleaseFirstMapping(DoRetainCache(DoAdopt(s, t, true), t), t)
  }

  lemma AdoptManages(s: State, t: ThreadId, p: PageId, bytes: seq<Byte>, key: Key, e: EntryId)
    ensures DoAdopt(WithFrame(s, t, p, Page(false, 0, 0, bytes), Filled(key, e, p)), t, true) ==
            WithFrame(s, t, p, Page(true, 1, 0, bytes), Adopted(key, e, p))
  {
    FrameAgain(s, t, p, Page(false, 0, 0, bytes), Filled(key, e, p), Page(true, 1, 0, bytes), Adopted(key, e, p));
  }

  lemma RetainCaches(s: State, t: ThreadId, p: PageId, bytes: seq<Byte>, key: Key, e: EntryId)
    ensures DoRetainCache(WithFrame(s, t, p, Page(true, 1, 0, bytes), Adopted(key, e, p)), t) ==
            WithFrame(s, t, p, Page(true, 1, 1, bytes), Retained(key, e, p))
  {
    FrameAgain(s, t, p, Page(true, 1, 0, bytes), Adopted(key, e, p), Page(true, 1, 1, bytes), Retained(key, e, p));
  }

  lemma ReleaseUnmaps(s: State, t: ThreadId, p: PageId, bytes: seq<Byte>, key: Key, e: EntryId)
    ensures DoReleaseFirstMapping(WithFrame(s, t, p, Page(true, 1, 1, bytes), Retained(key, e, p)), t) ==
            WithFrame(s, t, p, Page(true, 0, 1, bytes), Owning(key, e, p))
  {
    FrameAgain(s, t, p, Page(true, 1, 1, bytes), Retained(key, e, p), Page(true, 0, 1, bytes), Owning(key, e, p));
  }

  lemma KeptByCache(s: State, t: ThreadId, p: PageId, bytes: seq<Byte>, key: Key, e: EntryId)
    ensures Kept(WithFrame(s, t, p, Page(false, 0, 0, bytes), Filled(key, e, p)), t) ==
            WithFrame(s, t, p, Page(true, 0, 1, bytes), Owning(key, e, p))
  {
    hide WithFrame, DoAdopt, DoRetainCache, DoReleaseFirstMapping;
    AdoptManages(s, t, p, bytes, key, e);
    RetainCaches(s, t, p, bytes, key, e);
    ReleaseUnmaps(s, t, p, bytes, key, e);
  }

  /** The sections of a fill into frame `p` that succeeds. */
  function Loaded(s: State, t: ThreadId, p: PageId): State {
    Kept(Read(s, t, p), t)
  }

  /** The frame holds the padded page of the file and is kept by one cache reference alone. */
  lemma LoadFills(s: State, t: ThreadId, p: PageId)
    requires PcOf(s, t).Filling? && IsCurrent(s, PcOf(s, t).key) && s.busy.None? && p !in s.pages
    ensures Loaded(s, t, p) ==
      var key := PcOf(s, t).key;
      s.(pages := s.pages[p := Page(true, 0, 1, PaddedPage(Current(s, key.identity), key.index))],
         threads := s.threads[t := Owning(key, PcOf(s, t).entry, p)])
  {
    hide Kept, Read, PaddedPage;
    var key, e := PcOf(s, t).key, PcOf(s, t).entry;
    ReadFills(s, t, p);
    KeptByCache(s, t, p, PaddedPage(Current(s, key.identity), key.index), key, e);
  }

  /** `Complete` after a successful fill publishes the frame and opens the completion mutex. */
  lemma CompletionPublishes(s: State, t: ThreadId)
    requires PcOf(s, t).Owning? && PcOf(s, t).entry in s.entries
    ensures DoSignal(DoComplete(s, t), t) ==
      var pc := PcOf(s, t);
      s.(entries := s.entries[pc.entry := s.entries[pc.entry].(state := Ready, physical := pc.page, ownsCache := true, filler := None)],
         threads := s.threads[t := Holding(pc.key, pc.entry)])
  {
    var pc := PcOf(s, t);
    var entry := s.entries[pc.entry].(state := Ready, physical := pc.page, ownsCache := true);
    var s1 := DoComplete(s, t);
    assert s1 == s.(entries := s.entries[pc.entry := entry], threads := s.threads[t := Published(pc.key, pc.entry)]);
    var s2 := DoSignal(s1, t);
    assert s2.entries == s.entries[pc.entry := entry.(filler := None)];
    assert s2.threads == s.threads[t := Holding(pc.key, pc.entry)];
  }

  /**
   `GetCachedPage` on a page nobody has: the call ends holding a recorded Ready entry whose frame is
   the zero-padded page of the current contents, and changes nothing else.
   */
  lemma MissFills(s: State, t: ThreadId, identity: Identity, index: nat, made: EntryId, p: PageId)
    requires CanLook(s, t, identity, index) && KeyNow(s, identity, index) !in s.table && made !in s.entries && p !in s.pages
    ensures DoSignal(DoComplete(Loaded(Claimed(s, t, identity, index, made), t, p), t), t) ==
      var key := KeyNow(s, identity, index);
      s.(table := s.table[key := made],
         entries := s.entries[made := Entry(key, Ready, p, true, None, 2)],
         pages := s.pages[p := Page(true, 0, 1, PaddedPage(Current(s, identity), index))],
         threads := s.threads[t := Holding(key, made)])
  {
    hide Claimed, Loaded, PaddedPage, DoSignal, DoComplete;
    var key := KeyNow(s, identity, index);
    ClaimLinks(s, t, identity, index, made);
    var s1 := Claimed(s, t, identity, index, made);
    LoadFills(s1, t, p);
    var s2 := Loaded(s1, t, p);
    assert s2.threads == s.threads[t := Owning(key, made, p)];
    CompletionPublishes(s2, t);
    var s3 := DoSignal(DoComplete(s2, t), t);
    assert s3.threads == s.threads[t := Holding(key, made)];
    assert s3.entries == s.entries[made := Entry(key, Ready, p, true, None, 2)];
  }

  // ---- A fill that fails ----

  /** Why a fill fails: no frame, a backend that does not answer, or a frame the page manager refuses. */
  datatype Refusal = NoFrame | Unreadable(p: PageId) | NotAdopted(p: PageId)

  function Refused(s: State, t: ThreadId, why: Refusal): State {
    match why
    case NoFrame => DoAllocate(s, t, None)
    case Unreadable(p) => DoFill(DoAllocate(s, t, Some(p)), t, false)
    case NotAdopted(p) => DoAdopt(Read(s, t, p), t, false)
  }

  lemma FrameFreed(s: State, t: ThreadId, p: PageId, page: Page, pc: Pc, pc': Pc)
    requires p !in s.pages
    ensures var filled := WithFrame(s, t, p, page, pc);
      At(filled.(pages := filled.pages - {p}), t, pc') == At(s, t, pc')
  {
    TakenAway(s.pages, p, page);
    Overwritten(s.threads, t, pc, pc');
  }

  lemma RefusalFreesFrame(s: State, t: ThreadId, why: Refusal)
    requires PcOf(s, t).Filling? && IsCurrent(s, PcOf(s, t).key) && s.busy.None? && (!why.NoFrame? ==> why.p !in s.pages)
    ensures Refused(s, t, why) == s.(threads := s.threads[t := Failing(PcOf(s, t).key, PcOf(s, t).entry)])
  {
    hide PaddedPage, Zeros, Read;
    var key, e := PcOf(s, t).key, PcOf(s, t).entry;
    match why
    case NoFrame =>
    case Unreadable(p) =>
      var blank := Page(false, 0, 0, Zeros(PAGE_SIZE));
      assert DoAllocate(s, t, Some(p)) == WithFrame(s, t, p, blank, Blank(key, e, p));
      FrameFreed(s, t, p, blank, Blank(key, e, p), Failing(key, e));
    case NotAdopted(p) =>
      ReadFills(s, t, p);
      FrameFreed(s, t, p, Page(false, 0, 0, PaddedPage(Current(s, key.identity), key.index)), Filled(key, e, p), Failing(key, e));
  }

  lemma CompleteUnlinks(s: State, t: ThreadId, key: Key, e: EntryId)
    requires key !in s.table
    ensures
      var entry := Entry(key, Loading, 0, false, Some(t), 2);
      DoComplete(s.(table := s.table[key := e], entries := s.entries[e := entry], threads := s.threads[t := Failing(key, e)]), t) ==
      s.(entries := s.entries[e := entry.(state := Error, owners := 1)], threads := s.threads[t := Published(key, e)])
  {
    var entry := Entry(key, Loading, 0, false, Some(t), 2);
    TakenAway(s.table, key, e);
    Overwritten(s.entries, e, entry, entry.(owners := 1));
    Overwritten(s.entries, e, entry.(owners := 1), entry.(owners := 1, state := Error));
    Overwritten(s.threads, t, Failing(key, e), Published(key, e));
  }

  lemma SignalDestroys(s: State, t: ThreadId, key: Key, e: EntryId, entry: Entry)
    requires e !in s.entries && entry.state == Error && entry.owners == 1 && !entry.ownsCache
    ensures DoSignal(s.(entries := s.entries[e := entry], threads := s.threads[t := Published(key, e)]), t) == At(s, t, Idle)
  {
    Overwritten(s.threads, t, Published(key, e), Idle);
    Overwritten(s.entries, e, entry, entry.(filler := None));
    TakenAway(s.entries, e, entry.(filler := None));
  }

  /** `Complete` without a frame takes the record, and the thread's owner was the last. */
  lemma CompletionUnlinks(s: State, t: ThreadId, key: Key, e: EntryId)
    requires key !in s.table && e !in s.entries
    ensures
      var failing := s.(table := s.table[key := e], entries := s.entries[e := Entry(key, Loading, 0, false, Some(t), 2)],
                        threads := s.threads[t := Failing(key, e)]);
      DoSignal(DoComplete(failing, t), t) == At(s, t, Idle)
  {
    hide DoComplete, DoSignal;
    CompleteUnlinks(s, t, key, e);
    SignalDestroys(s, t, key, e, Entry(key, Error, 0, false, Some(t), 1));
  }

  /** `GetCachedPage` that fails at any of its three exits leaves no record, no entry and no frame behind. */
  lemma FailureLeavesNothing(s: State, t: ThreadId, identity: Identity, index: nat, made: EntryId, why: Refusal)
    requires CanLook(s, t, identity, index) && KeyNow(s, identity, index) !in s.table && made !in s.entries
    requires !why.NoFrame? ==> why.p !in s.pages
    ensures DoSignal(DoComplete(Refused(Claimed(s, t, identity, index, made), t, why), t), t) == s.(threads := s.threads[t := Idle])
  {
    hide Claimed, Refused, DoSignal, DoComplete;
    var key := KeyNow(s, identity, index);
    ClaimLinks(s, t, identity, index, made);
    var s1 := Claimed(s, t, identity, index, made);
    RefusalFreesFrame(s1, t, why);
    Overwritten(s.threads, t, Filling(key, made), Failing(key, made));
    CompletionUnlinks(s, t, key, made);
  }

  // ---- A page that is there ----

  /** `GetCachedPage` on a recorded Ready page: the call ends holding it as one more owner, and changes nothing else. */
  lemma HitHolds(s: State, t: ThreadId, identity: Identity, index: nat)
    requires CanLook(s, t, identity, index) && KeyNow(s, identity, index) in s.table
    requires var e := s.table[KeyNow(s, identity, index)]; e in s.entries && s.entries[e].state == Ready && s.entries[e].filler.None?
    ensures DoAwait(DoHit(DoLook(s, t, identity, index), t), t) ==
      var e := s.table[KeyNow(s, identity, index)];
      s.(entries := s.entries[e := s.entries[e].(owners := s.entries[e].owners + 1)],
         threads := s.threads[t := Holding(KeyNow(s, identity, index), e)])
  {
    var key := KeyNow(s, identity, index);
    var e := s.table[key];
    var s1 := DoLook(s, t, identity, index);
    assert s1 == At(s, t, Looking(key));
    var s2 := DoHit(s1, t);
    assert s2 == s.(entries := s.entries[e := s.entries[e].(owners := s.entries[e].owners + 1)], threads := s.threads[t := Waiting(key, e)]);
    assert DoAwait(s2, t).threads == s.threads[t := Holding(key, e)];
  }

  /**
   `AcquireCachedFileMappingPage` on a held page: exactly while the key is current the caller gets one
   more mapping of the frame; otherwise no mapping is left. Either way the thread's owner is gone.
   */
  lemma MappingIffCurrent(s: State, t: ThreadId)
    requires PcOf(s, t).Holding? && s.busy.None? && PcOf(s, t).entry in s.entries && s.entries[PcOf(s, t).entry].owners > 1
    requires s.entries[PcOf(s, t).entry].physical in s.pages && s.pages[s.entries[PcOf(s, t).entry].physical].cache > 0
    ensures DoValidate(DoRetainMapping(s, t), t) ==
      var e := PcOf(s, t).entry;
      var p := s.entries[e].physical;
      var left := s.(entries := s.entries[e := s.entries[e].(owners := s.entries[e].owners - 1)], threads := s.threads[t := Idle]);
      if IsCurrent(s, PcOf(s, t).key)
      then left.(pages := s.pages[p := s.pages[p].(mapping := s.pages[p].mapping + 1)], installed := s.installed[p := Installed(s, p) + 1])
      else left
  {
    var key, e := PcOf(s, t).key, PcOf(s, t).entry;
    var p := s.entries[e].physical;
    var more := s.pages[p].(mapping := s.pages[p].mapping + 1);
    var s1 := DoRetainMapping(s, t);
    assert s1 == s.(pages := s.pages[p := more], threads := s.threads[t := Mapped(key, e, p)]);
    assert IsCurrent(s1, key) == IsCurrent(s, key);
    var s2 := DoValidate(s1, t);
    assert s2.threads == s.threads[t := Idle];
    if !IsCurrent(s, key) {
      assert ReleaseMapping(s1.pages, p) == s.pages;
    }
  }

  /** Eviction destroys a Ready page that only the table and the cache refer to, with its frame, and no other. */
  lemma DetachDestroysUnused(s: State, key: Key)
    requires key in s.table && s.table[key] in s.entries && s.entries[s.table[key]].ownsCache && s.entries[s.table[key]].physical in s.pages
    ensures
      var e := s.table[key];
      var p := s.entries[e].physical;
      DoDetach(s, key) ==
        if s.entries[e].state == Ready && s.entries[e].owners == 1 && s.pages[p].mapping == 0 && s.pages[p].cache == 1
        then s.(table := s.table - {key}, entries := s.entries - {e}, pages := s.pages - {p})
        else s
  {
  }
}
