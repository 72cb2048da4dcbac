/**
 The life of shared file pages (`SharedFilePageTable`, `GetSharedFilePage` and the mapping calls around
 them in `mecocoa/fileman-cache.cpp`) as an interleaving state machine.

 A thread's program point records how far it is inside a call and which references it holds there. Each
 action is one section under the table lock, a page lock or the managed-page lock; `vfs_lock` is held
 over several of them while a page is filled and published. What a page contains once it is Ready is the
 subject of `SharedPages`; here it matters who keeps it alive.
 */
module SharedPageLife {
  import opened FileBytes
  import C = FileCache
  import P = SharedPages

  type Identity = P.Identity
  type Key = P.PageKey
  type ThreadId = nat
  type EntryId = nat
  type PageId = C.PageId
  /** A user mapping, named by its process and address. */
  type MappingId = nat

  /** `SharedFilePage` with its shared-pointer count; `filler` is who holds the completion mutex. */
  datatype Entry = Entry(key: Key, state: C.EntryState, physical: Option<PageId>, dirty: bool, aliases: set<MappingId>,
                         filler: Option<ThreadId>, owners: nat)

  /**
   A leaf entry with the mapping reference it carries. `leaver` is the thread that took the entry out of
   the page table, `attached` says whether the alias is still registered. The area around it retains the
   inode until the reference is given back.
   */
  datatype Mapping = Mapping(key: Key, page: PageId, leaver: Option<ThreadId>, attached: bool)

  /** What a thread looked the page up for, with the mapping reference it carries meanwhile. */
  datatype Errand =
    | Get
    | Take(page: PageId)
    | Join(page: PageId)
    | Back(page: PageId)
    | Store(mapping: MappingId)
    | Leave(mapping: MappingId)
    | Left(mapping: MappingId)
    | Flush(retained: bool)

  datatype Pc =
    | Idle
    | Looking(key: Key)
    | Prepared(key: Key, entry: EntryId)
    | Filling(key: Key, entry: EntryId)
    | Blank(key: Key, entry: EntryId, page: PageId)
    | Filled(key: Key, entry: EntryId, page: PageId)
    | Adopted(key: Key, entry: EntryId, page: PageId)
    | Retained(key: Key, entry: EntryId, page: PageId)
    | Owning(key: Key, entry: EntryId, page: PageId)
    | Failing(key: Key, entry: EntryId)
    | Published(key: Key, entry: EntryId)
    | Settled(key: Key, entry: EntryId)
    | Waiting(key: Key, entry: EntryId, errand: Errand)
    | Holding(key: Key, entry: EntryId, errand: Errand)
    | Carrying(key: Key, page: PageId)
    | Lost(key: Key, page: PageId)
    | Leaving(mapping: MappingId)

  /** `files` holds the contents of the inodes that are alive. */
  datatype State = State(
    files: map<Identity, seq<Byte>>,
    vfs: Option<ThreadId>,
    table: map<Key, EntryId>,
    entries: map<EntryId, Entry>,
    pages: map<PageId, C.Page>,
    mappings: map<MappingId, Mapping>,
    threads: map<ThreadId, Pc>)

  function PcOf(s: State, t: ThreadId): Pc {
    if t in s.threads then s.threads[t] else Idle
  }

  function At(s: State, t: ThreadId, pc: Pc): State {
    s.(threads := s.threads[t := pc])
  }

  // ---- References ----

  function DroppedEntries(entries: map<EntryId, Entry>, e: EntryId): map<EntryId, Entry> {
    if e !in entries then entries
    else if entries[e].owners > 1 then entries[e := entries[e].(owners := entries[e].owners - 1)]
    else entries - {e}
  }

  /** `~SharedFilePage` gives back the cache reference. */
  function DroppedPages(entries: map<EntryId, Entry>, pages: map<PageId, C.Page>, e: EntryId): map<PageId, C.Page> {
    if e in entries && entries[e].owners <= 1 && entries[e].physical.Some?
    then C.ReleaseCache(pages, entries[e].physical.value) else pages
  }

  function DropOwner(s: State, e: EntryId): (r: State)
    ensures r.table == s.table
  {
    s.(entries := DroppedEntries(s.entries, e), pages := DroppedPages(s.entries, s.pages, e))
  }

  function RemoveRecord(s: State, key: Key): State {
    if key !in s.table then s else DropOwner(s.(table := s.table - {key}), s.table[key])
  }

  /** `ReleaseManagedPageMapping`, which fails for a page without a mapping. */
  function Unmapped(pages: map<PageId, C.Page>, p: PageId): map<PageId, C.Page> {
    if p in pages then C.ReleaseMapping(pages, p) else pages
  }

  function OneMoreMapping(pages: map<PageId, C.Page>, p: PageId): map<PageId, C.Page>
    requires p in pages
  {
    pages[p := pages[p].(mapping := pages[p].mapping + 1)]
  }

  // ---- Finding and filling ----

  /** The thread becomes one more owner of the recorded page and will wait for its completion. */
  function Joined(s: State, t: ThreadId, key: Key, errand: Errand): (r: State)
    ensures r.table == s.table
  {
    if key !in s.table || s.table[key] !in s.entries then s
    else
      var e := s.table[key];
      At(s.(entries := s.entries[e := s.entries[e].(owners := s.entries[e].owners + 1)]), t, Waiting(key, e, errand))
  }

  /** `GetSharedFilePage` on an inode the caller retains. */
  function DoLook(s: State, t: ThreadId, key: Key): State {
    if PcOf(s, t) != Idle || key.identity !in s.files then s else At(s, t, Looking(key))
  }

  function DoHit(s: State, t: ThreadId): State {
    if PcOf(s, t).Looking? then Joined(s, t, PcOf(s, t).key, Get) else s
  }

  /** No record: a new page is built with its completion mutex already held. */
  function DoMiss(s: State, t: ThreadId, made: EntryId): State {
    var pc := PcOf(s, t);
    if !pc.Looking? || pc.key in s.table || made in s.entries then s
    else At(s.(entries := s.entries[made := Entry(pc.key, C.Loading, None, false, {}, Some(t), 1)]), t, Prepared(pc.key, made))
  }

  /** The second section of `FindOrInsert`: links the record, or throws it away for the one that is there now. */
  function DoInsert(s: State, t: ThreadId): State {
    var pc := PcOf(s, t);
    if !pc.Prepared? || pc.entry !in s.entries then s
    else if pc.key in s.table then Joined(At(DropOwner(s, pc.entry), t, Looking(pc.key)), t, pc.key, Get)
    else
      At(s.(table := s.table[pc.key := pc.entry],
            entries := s.entries[pc.entry := s.entries[pc.entry].(owners := s.entries[pc.entry].owners + 1)]),
         t, Filling(pc.key, pc.entry))
  }

  function DoAllocate(s: State, t: ThreadId, got: Option<PageId>): State {
    var pc := PcOf(s, t);
    if !pc.Filling? then s
    else match got
      case None => At(s, t, Failing(pc.key, pc.entry))
      case Some(p) =>
        if p in s.pages then s
        else At(s.(pages := s.pages[p := C.Page(false, 0, 0, Zeros(PAGE_SIZE))]), t, Blank(pc.key, pc.entry, p))
  }

  /** Takes vfs_lock and reads the backend; past EOF the page stays zero. */
  function DoFill(s: State, t: ThreadId, readable: bool): State {
    var pc := PcOf(s, t);
    if !pc.Blank? || s.vfs.Some? || pc.page !in s.pages || pc.key.identity !in s.files then s
    else
      var locked := s.(vfs := Some(t));
      if !readable then At(locked.(pages := s.pages - {pc.page}), t, Failing(pc.key, pc.entry))
      else
        var bytes := PaddedPage(s.files[pc.key.identity], pc.key.index);
        At(locked.(pages := s.pages[pc.page := s.pages[pc.page].(bytes := bytes)]), t, Filled(pc.key, pc.entry, pc.page))
  }

  /** `AdoptManagedPage` owns the page even when it fails. */
  function DoAdopt(s: State, t: ThreadId, success: bool): State {
    var pc := PcOf(s, t);
    if !pc.Filled? || pc.page !in s.pages then s
    else if !success then At(s.(pages := s.pages - {pc.page}), t, Failing(pc.key, pc.entry))
    else At(s.(pages := s.pages[pc.page := s.pages[pc.page].(managed := true, mapping := 1)]), t, Adopted(pc.key, pc.entry, pc.page))
  }

  function DoRetainCache(s: State, t: ThreadId): State {
    var pc := PcOf(s, t);
    if !pc.Adopted? then s
    else if pc.page !in s.pages || !s.pages[pc.page].managed then
      At(s.(pages := Unmapped(s.pages, pc.page)), t, Failing(pc.key, pc.entry))
    else At(s.(pages := s.pages[pc.page := s.pages[pc.page].(cache := s.pages[pc.page].cache + 1)]),
            t, Retained(pc.key, pc.entry, pc.page))
  }

  function DoReleaseFirstMapping(s: State, t: ThreadId): State {
    var pc := PcOf(s, t);
    if !pc.Retained? then s
    else if pc.page !in s.pages || s.pages[pc.page].mapping == 0 then
      At(s.(pages := C.ReleaseCache(s.pages, pc.page)), t, Failing(pc.key, pc.entry))
    else At(s.(pages := Unmapped(s.pages, pc.page)), t, Owning(pc.key, pc.entry, pc.page))
  }

  /** `Complete` without a page: the own record goes together with the Error state. */
  function Failed(s: State, e: EntryId): State
    requires e in s.entries
  {
    var entry := s.entries[e];
    if entry.key in s.table && s.table[entry.key] == e && entry.owners > 1 then
      s.(table := s.table - {entry.key}, entries := s.entries[e := entry.(state := C.Error, owners := entry.owners - 1)])
    else s.(entries := s.entries[e := entry.(state := C.Error)])
  }

  /** The locked part of `Complete`. */
  function DoComplete(s: State, t: ThreadId): State {
    var pc := PcOf(s, t);
    if pc.Owning? && pc.entry in s.entries then
      At(s.(entries := s.entries[pc.entry := s.entries[pc.entry].(state := C.Ready, physical := Some(pc.page))]),
         t, Published(pc.key, pc.entry))
    else if pc.Failing? && pc.entry in s.entries then At(Failed(s, pc.entry), t, Published(pc.key, pc.entry))
    else s
  }

  /** The end of `Complete`: the completion mutex is released. */
  function DoSignal(s: State, t: ThreadId): State {
    var pc := PcOf(s, t);
    if !pc.Published? || pc.entry !in s.entries then s
    else At(s.(entries := s.entries[pc.entry := s.entries[pc.entry].(filler := None)]), t, Settled(pc.key, pc.entry))
  }

  /** The filler leaves vfs_lock, if it got that far, and returns the page or nothing. */
  function DoUnlock(s: State, t: ThreadId): State {
    var pc := PcOf(s, t);
    if !pc.Settled? || pc.entry !in s.entries then s
    else
      var free := s.(vfs := if s.vfs == Some(t) then None else s.vfs);
      if s.entries[pc.entry].state == C.Ready then At(free, t, Holding(pc.key, pc.entry, Get))
      else At(DropOwner(free, pc.entry), t, Idle)
  }

  /** Where a thread goes on when the page it waited for is not there. */
  function Missed(key: Key, errand: Errand): Pc {
    match errand
    case Take(p) => Lost(key, p)
    case Join(p) => Lost(key, p)
    case Back(p) => Lost(key, p)
    case Leave(m) => Leaving(m)
    case Left(m) => Leaving(m)
    case _ => Idle
  }

  /** A waiter gets the completion mutex, looks at the state and lets go. */
  function DoAwait(s: State, t: ThreadId): State {
    var pc := PcOf(s, t);
    if !pc.Waiting? || pc.entry !in s.entries || s.entries[pc.entry].filler.Some? then s
    else if s.entries[pc.entry].state == C.Ready then At(s, t, Holding(pc.key, pc.entry, pc.errand))
    else At(DropOwner(s, pc.entry), t, Missed(pc.key, pc.errand))
  }

  // ---- Mapping ----

  /** `AcquireSharedFileMappingPage` takes a mapping reference. */
  function DoRetainMapping(s: State, t: ThreadId): State {
    var pc := PcOf(s, t);
    if !pc.Holding? || pc.errand != Get || pc.entry !in s.entries || s.entries[pc.entry].physical.None?
       || s.entries[pc.entry].physical.value !in s.pages then s
    else
      var p := s.entries[pc.entry].physical.value;
      At(s.(pages := OneMoreMapping(s.pages, p)), t, Holding(pc.key, pc.entry, Take(p)))
  }

  /** The call returns and its owner of the page goes. */
  function DoFinish(s: State, t: ThreadId): State {
    var pc := PcOf(s, t);
    if !pc.Holding? then s
    else match pc.errand
      case Get => At(DropOwner(s, pc.entry), t, Idle)
      case Flush(_) => At(DropOwner(s, pc.entry), t, Idle)
      case Take(p) => At(DropOwner(s, pc.entry), t, Carrying(pc.key, p))
      case Left(m) => At(DropOwner(s, pc.entry), t, Leaving(m))
      case _ => s
  }

  /** `fork` takes a reference to the page of a mapping of the parent. */
  function DoInherit(s: State, t: ThreadId, m: MappingId): State {
    if PcOf(s, t) != Idle || m !in s.mappings || s.mappings[m].leaver.Some? || s.mappings[m].page !in s.pages then s
    else At(s.(pages := OneMoreMapping(s.pages, s.mappings[m].page)), t, Carrying(s.mappings[m].key, s.mappings[m].page))
  }

  /** `FindReadySharedFilePage` in `MapSharedFileVmaPage` and `RegisterSharedFileAlias`: the second lookup. */
  function DoRelook(s: State, t: ThreadId): State {
    var pc := PcOf(s, t);
    if !pc.Carrying? then s
    else if pc.key in s.table then Joined(s, t, pc.key, Join(pc.page))
    else At(s, t, Lost(pc.key, pc.page))
  }

  /** Under the page lock: the leaf entry and its alias appear together, or neither does. */
  function DoInstall(s: State, t: ThreadId, m: MappingId, agreed: bool): State {
    var pc := PcOf(s, t);
    if !pc.Holding? || !pc.errand.Join? || pc.entry !in s.entries then s
    else
      var p, entry := pc.errand.page, s.entries[pc.entry];
      if agreed && m !in s.mappings && entry.physical == Some(p) then
        At(s.(mappings := s.mappings[m := Mapping(pc.key, p, None, true)],
              entries := s.entries[pc.entry := entry.(aliases := entry.aliases + {m})]), t, Holding(pc.key, pc.entry, Get))
      else At(s, t, Holding(pc.key, pc.entry, Back(p)))
  }

  /** Without a leaf entry the mapping reference is given back. */
  function DoGiveBack(s: State, t: ThreadId): State {
    var pc := PcOf(s, t);
    if pc.Lost? then At(s.(pages := Unmapped(s.pages, pc.page)), t, Idle)
    else if pc.Holding? && pc.errand.Back? then
      At(s.(pages := Unmapped(s.pages, pc.errand.page)), t, Holding(pc.key, pc.entry, Get))
    else s
  }

  // ---- First stores, write-back and truncation ----

  function DoStartStore(s: State, t: ThreadId, m: MappingId): State {
    if PcOf(s, t) != Idle || m !in s.mappings || s.mappings[m].leaver.Some? then s
    else Joined(s, t, s.mappings[m].key, Store(m))
  }

  /** `ResolveSharedFileWrite` under vfs_lock and the page lock; `allowed` are the tests on pins, size and area. */
  function DoMarkDirty(s: State, t: ThreadId, allowed: bool): State {
    var pc := PcOf(s, t);
    if !pc.Holding? || !pc.errand.Store? || pc.entry !in s.entries || s.vfs.Some? then s
    else
      var m, entry := pc.errand.mapping, s.entries[pc.entry];
      var stored := allowed && m in entry.aliases && m in s.mappings && s.mappings[m].leaver.None?;
      At(s.(entries := s.entries[pc.entry := entry.(dirty := entry.dirty || stored)]), t, Holding(pc.key, pc.entry, Get))
  }

  function DoStartFlush(s: State, t: ThreadId, key: Key): State {
    if PcOf(s, t) != Idle then s else Joined(s, t, key, Flush(false))
  }

  /** `FlushSharedFilePageWithCopyLock` copies the inode reference of a dirty page and may clean it. */
  function DoWriteBack(s: State, t: ThreadId, written: bool): State {
    var pc := PcOf(s, t);
    if !pc.Holding? || !pc.errand.Flush? || pc.entry !in s.entries || s.vfs.Some? || !s.entries[pc.entry].dirty then s
    else At(s.(entries := s.entries[pc.entry := s.entries[pc.entry].(dirty := !written)]), t, Holding(pc.key, pc.entry, Flush(true)))
  }

  /** The copied inode reference goes before the owner of the page. */
  function DoReleaseInode(s: State, t: ThreadId): State {
    var pc := PcOf(s, t);
    if !pc.Holding? || !pc.errand.Flush? then s else At(s, t, Holding(pc.key, pc.entry, Flush(false)))
  }

  /** `CompleteTruncate` cleans a page past the new end. */
  function DoClean(s: State, key: Key): State {
    if s.vfs.Some? || key !in s.table || s.table[key] !in s.entries || s.entries[s.table[key]].state != C.Ready then s
    else s.(entries := s.entries[s.table[key] := s.entries[s.table[key]].(dirty := false)])
  }

  // ---- Unmapping ----

  /** The leaf entry is gone from the page table; now its alias is looked up. */
  function DoStartLeave(s: State, t: ThreadId, m: MappingId): State {
    if PcOf(s, t) != Idle || m !in s.mappings || s.mappings[m].leaver.Some? then s
    else
      var taken := s.(mappings := s.mappings[m := s.mappings[m].(leaver := Some(t))]);
      if s.mappings[m].key in s.table then Joined(taken, t, s.mappings[m].key, Leave(m)) else At(taken, t, Leaving(m))
  }

  /** `UnregisterSharedFileAlias` under the page lock. */
  function DoUnregister(s: State, t: ThreadId): State {
    var pc := PcOf(s, t);
    if !pc.Holding? || !pc.errand.Leave? || pc.entry !in s.entries || pc.errand.mapping !in s.mappings then s
    else
      var m, entry := pc.errand.mapping, s.entries[pc.entry];
      At(s.(entries := s.entries[pc.entry := entry.(aliases := entry.aliases - {m})],
            mappings := s.mappings[m := s.mappings[m].(attached := false)]), t, Holding(pc.key, pc.entry, Left(m)))
  }

  /** The mapping reference goes last. */
  function DoReleaseMapping(s: State, t: ThreadId): State {
    var pc := PcOf(s, t);
    if !pc.Leaving? || pc.mapping !in s.mappings then s
    else At(s.(mappings := s.mappings - {pc.mapping}, pages := Unmapped(s.pages, s.mappings[pc.mapping].page)), t, Idle)
  }

  // ---- Inodes ----

  /** The call at this point was handed the inode by a caller that retains it, or copied a reference. */
  predicate RetainsInode(pc: Pc, identity: Identity) {
    !pc.Idle? && !pc.Leaving? && pc.key.identity == identity
    && ((pc.Waiting? || pc.Holding?) ==> !pc.errand.Leave? && !pc.errand.Left? && pc.errand != Flush(false))
  }

  ghost predicate Unreferenced(s: State, identity: Identity) {
    && (forall t :: t in s.threads ==> !RetainsInode(s.threads[t], identity))
    && (forall m :: m in s.mappings ==> s.mappings[m].key.identity != identity)
    && (forall e :: e in s.entries ==> !(s.entries[e].dirty && s.entries[e].key.identity == identity))
  }

  /** The last reference to the inode is gone. */
  ghost function DoDestroy(s: State, identity: Identity): State {
    if Unreferenced(s, identity) then s.(files := s.files - {identity}) else s
  }

  /** A writer holds vfs_lock and changes the backend. */
  function DoChange(s: State, identity: Identity, bytes: seq<Byte>): State {
    if s.vfs.Some? || identity !in s.files then s else s.(files := s.files[identity := bytes])
  }

  // ---- Records ----

  /** `DetachInactive` takes a clean Ready page without aliases that nothing else refers to. */
  predicate Inactive(s: State, key: Key) {
    && key in s.table && s.table[key] in s.entries
    && var entry := s.entries[s.table[key]];
       && entry.state == C.Ready && entry.owners == 1 && !entry.dirty && entry.aliases == {}
       && entry.physical.Some? && entry.physical.value in s.pages
       && s.pages[entry.physical.value].mapping == 0 && s.pages[entry.physical.value].cache == 1
  }

  function DoDetach(s: State, key: Key): State {
    if Inactive(s, key) then RemoveRecord(s, key) else s
  }

  /** `ForgetInode`, from the destructor of the inode; it does not ask who else owns the page. */
  function DoForget(s: State, key: Key): State {
    if key.identity in s.files then s else RemoveRecord(s, key)
  }

  datatype Action =
    | Look(thread: ThreadId, key: Key)
    | Hit(thread: ThreadId)
    | Miss(thread: ThreadId, made: EntryId)
    | Insert(thread: ThreadId)
    | Allocate(thread: ThreadId, got: Option<PageId>)
    | Fill(thread: ThreadId, readable: bool)
    | Adopt(thread: ThreadId, success: bool)
    | RetainCache(thread: ThreadId)
    | ReleaseFirstMapping(thread: ThreadId)
    | Complete(thread: ThreadId)
    | Signal(thread: ThreadId)
    | Unlock(thread: ThreadId)
    | Await(thread: ThreadId)
    | RetainMapping(thread: ThreadId)
    | Finish(thread: ThreadId)
    | Inherit(thread: ThreadId, m: MappingId)
    | Relook(thread: ThreadId)
    | Install(thread: ThreadId, m: MappingId, agreed: bool)
    | GiveBack(thread: ThreadId)
    | StartStore(thread: ThreadId, m: MappingId)
    | MarkDirty(thread: ThreadId, allowed: bool)
    | StartFlush(thread: ThreadId, key: Key)
    | WriteBack(thread: ThreadId, written: bool)
    | ReleaseInode(thread: ThreadId)
    | Clean(key: Key)
    | StartLeave(thread: ThreadId, m: MappingId)
    | Unregister(thread: ThreadId)
    | ReleaseMapping(thread: ThreadId)
    | Destroy(identity: Identity)
    | Change(identity: Identity, bytes: seq<Byte>)
    | Detach(key: Key)
    | Forget(key: Key)

  ghost function Apply(s: State, a: Action): State {
    match a
    case Look(t, key) => DoLook(s, t, key)
    case Hit(t) => DoHit(s, t)
    case Miss(t, made) => DoMiss(s, t, made)
    case Insert(t) => DoInsert(s, t)
    case Allocate(t, got) => DoAllocate(s, t, got)
    case Fill(t, readable) => DoFill(s, t, readable)
    case Adopt(t, success) => DoAdopt(s, t, success)
    case RetainCache(t) => DoRetainCache(s, t)
    case ReleaseFirstMapping(t) => DoReleaseFirstMapping(s, t)
    case Complete(t) => DoComplete(s, t)
    case Signal(t) => DoSignal(s, t)
    case Unlock(t) => DoUnlock(s, t)
    case Await(t) => DoAwait(s, t)
    case RetainMapping(t) => DoRetainMapping(s, t)
    case Finish(t) => DoFinish(s, t)
    case Inherit(t, m) => DoInherit(s, t, m)
    case Relook(t) => DoRelook(s, t)
    case Install(t, m, agreed) => DoInstall(s, t, m, agreed)
    case GiveBack(t) => DoGiveBack(s, t)
    case StartStore(t, m) => DoStartStore(s, t, m)
    case MarkDirty(t, allowed) => DoMarkDirty(s, t, allowed)
    case StartFlush(t, key) => DoStartFlush(s, t, key)
    case WriteBack(t, written) => DoWriteBack(s, t, written)
    case ReleaseInode(t) => DoReleaseInode(s, t)
    case Clean(key) => DoClean(s, key)
    case StartLeave(t, m) => DoStartLeave(s, t, m)
    case Unregister(t) => DoUnregister(s, t)
    case ReleaseMapping(t) => DoReleaseMapping(s, t)
    case Destroy(identity) => DoDestroy(s, identity)
    case Change(identity, bytes) => DoChange(s, identity, bytes)
    case Detach(key) => DoDetach(s, key)
    case Forget(key) => DoForget(s, key)
  }

  ghost function Run(s: State, run: seq<Action>): State
    decreases |run|
  {
    if run == [] then s else Run(Apply(s, run[0]), run[1..])
  }
}
