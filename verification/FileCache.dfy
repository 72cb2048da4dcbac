/**
 The versioned page cache of `mecocoa/fileman-cache.cpp` as an interleaving state machine.

 A thread's program point records how far it is inside `GetCachedPage` (and, around it,
 `AcquireCachedFileMappingPage`), together with the references it holds at that point. Each
 action is one section run under the table lock, `vfs_lock` or the managed-page lock, so a run
 is any interleaving of the sections of any number of threads.
 */
module FileCache {
  import opened FileBytes

  type Identity = nat
  type ThreadId = nat
  type EntryId = nat
  type PageId = nat

  /** `FileCacheKey`; `index` is the page number of its file offset. */
  datatype Key = Key(identity: Identity, version: nat, index: nat)

  datatype EntryState = Loading | Ready | Error

  /** `FileCacheEntry` with its shared-pointer count; `filler` is who holds the completion mutex. */
  datatype Entry = Entry(key: Key, state: EntryState, physical: PageId, ownsCache: bool,
                         filler: Option<ThreadId>, owners: nat)

  /** A physical page; an unmanaged one belongs to the thread that allocated it. */
  datatype Page = Page(managed: bool, mapping: nat, cache: nat, bytes: seq<Byte>)

  datatype Pc =
    | Idle
    | Looking(key: Key)
    | Prepared(key: Key, entry: EntryId)
    | Waiting(key: Key, entry: EntryId)
    | Filling(key: Key, entry: EntryId)
    | Blank(key: Key, entry: EntryId, page: PageId)
    | Filled(key: Key, entry: EntryId, page: PageId)
    | Adopted(key: Key, entry: EntryId, page: PageId)
    | Retained(key: Key, entry: EntryId, page: PageId)
    | Owning(key: Key, entry: EntryId, page: PageId)
    | Failing(key: Key, entry: EntryId)
    | Published(key: Key, entry: EntryId)
    | Holding(key: Key, entry: EntryId)
    | Mapped(key: Key, entry: EntryId, page: PageId)

  /**
   `files[i]` lists the contents of inode `i` at versions 1, 2, ...; the last one is current.
   `busy` is the inode whose version was advanced but whose stale records are not yet removed.
   */
  datatype State = State(
    files: map<Identity, seq<seq<Byte>>>,
    busy: Option<Identity>,
    table: map<Key, EntryId>,
    entries: map<EntryId, Entry>,
    pages: map<PageId, Page>,
    installed: map<PageId, nat>,
    threads: map<ThreadId, Pc>)

  predicate Known(s: State, identity: Identity) {
    identity in s.files && s.files[identity] != []
  }

  function Version(s: State, identity: Identity): nat
    requires Known(s, identity)
  {
    |s.files[identity]|
  }

  function Current(s: State, identity: Identity): seq<Byte>
    requires Known(s, identity)
  {
    s.files[identity][|s.files[identity]| - 1]
  }

  predicate ValidKey(s: State, key: Key) {
    Known(s, key.identity) && 1 <= key.version <= Version(s, key.identity)
  }

  /** The zero-padded page the key names, in the file as it was at the key's version. */
  function Expected(s: State, key: Key): seq<Byte>
    requires ValidKey(s, key)
  {
    PaddedPage(s.files[key.identity][key.version - 1], key.index)
  }

  /** The key still names the current contents and lies below EOF. */
  predicate IsCurrent(s: State, key: Key) {
    Known(s, key.identity) && key.version == Version(s, key.identity) &&
    key.index * PAGE_SIZE < |Current(s, key.identity)|
  }

  function Installed(s: State, page: PageId): nat {
    if page in s.installed then s.installed[page] else 0
  }

  // ---- References ----

  /** `ReleaseManagedPageMapping` / `ReleaseManagedPageCache`: the last reference frees the page. */
  function WithoutPageIfFree(pages: map<PageId, Page>, page: PageId, left: Page): map<PageId, Page> {
    if left.mapping == 0 && left.cache == 0 then pages - {page} else pages[page := left]
  }

  function ReleaseMapping(pages: map<PageId, Page>, page: PageId): map<PageId, Page>
    requires page in pages
  {
    if pages[page].mapping == 0 then pages
    else WithoutPageIfFree(pages, page, pages[page].(mapping := pages[page].mapping - 1))
  }

  function ReleaseCache(pages: map<PageId, Page>, page: PageId): map<PageId, Page> {
    if page !in pages || pages[page].cache == 0 then pages
    else WithoutPageIfFree(pages, page, pages[page].(cache := pages[page].cache - 1))
  }

  function DroppedEntries(entries: map<EntryId, Entry>, entry: EntryId): map<EntryId, Entry> {
    if entry !in entries then entries
    else if entries[entry].owners > 1 then entries[entry := entries[entry].(owners := entries[entry].owners - 1)]
    else entries - {entry}
  }

  /** `~FileCacheEntry` gives back the cache reference. */
  function DroppedPages(entries: map<EntryId, Entry>, pages: map<PageId, Page>, entry: EntryId): map<PageId, Page> {
    if entry in entries && entries[entry].owners <= 1 && entries[entry].ownsCache
    then ReleaseCache(pages, entries[entry].physical) else pages
  }

  /** Drops one owner; the last one destroys the entry. */
  function DropOwner(s: State, entry: EntryId): State {
    s.(entries := DroppedEntries(s.entries, entry), pages := DroppedPages(s.entries, s.pages, entry))
  }

  function At(s: State, thread: ThreadId, pc: Pc): State {
    s.(threads := s.threads[thread := pc])
  }

  /** Unlinks one record and drops its owner. */
  function RemoveRecord(s: State, key: Key): State {
    if key !in s.table then s else DropOwner(s.(table := s.table - {key}), s.table[key])
  }

  function RemoveRecords(s: State, keys: seq<Key>): State
    decreases |keys|
  {
    if keys == [] then s else RemoveRecords(RemoveRecord(s, keys[0]), keys[1..])
  }

  /** `DetachInactiveReadyPages` takes only a Ready record whose entry and page nobody else uses. */
  predicate Inactive(s: State, key: Key) {
    && key in s.table && s.table[key] in s.entries
    && var entry := s.entries[s.table[key]];
       && entry.state == Ready && entry.owners == 1
       && entry.physical in s.pages && s.pages[entry.physical].mapping == 0 && s.pages[entry.physical].cache == 1
  }

  // ---- The sections ----

  datatype Action =
    | Look(thread: ThreadId, identity: Identity, index: nat)
    | Hit(thread: ThreadId)
    | Miss(thread: ThreadId, made: EntryId)
    | Insert(thread: ThreadId)
    | Allocate(thread: ThreadId, got: Option<PageId>)
    | Fill(thread: ThreadId, readable: bool)
    | Adopt(thread: ThreadId, success: bool)
    | RetainCache(thread: ThreadId)
    | ReleaseFirstMapping(thread: ThreadId)
    | Complete(thread: ThreadId)
    | Signal(thread: ThreadId)
    | Await(thread: ThreadId)
    | Finish(thread: ThreadId)
    | RetainMapping(thread: ThreadId)
    | Validate(thread: ThreadId)
    | Unmap(page: PageId)
    | Bump(identity: Identity, bytes: seq<Byte>)
    | Invalidate(stale: seq<Key>)
    | Detach(key: Key)
    | ForgetRecord(key: Key)

  function PcOf(s: State, thread: ThreadId): Pc {
    if thread in s.threads then s.threads[thread] else Idle
  }

  /** The caller reads identity and version under vfs_lock. */
  function DoLook(s: State, thread: ThreadId, identity: Identity, index: nat): State {
    if PcOf(s, thread) != Idle || s.busy.Some? || !Known(s, identity)
       || index * PAGE_SIZE >= |Current(s, identity)| then s
    else At(s, thread, Looking(Key(identity, Version(s, identity), index)))
  }

  /** `FindOrInsert`: a record exists, so the thread becomes one more owner. */
  function DoHit(s: State, thread: ThreadId): State {
    var pc := PcOf(s, thread);
    if !pc.Looking? || pc.key !in s.table || s.table[pc.key] !in s.entries then s
    else
      var entry := s.table[pc.key];
      At(s.(entries := s.entries[entry := s.entries[entry].(owners := s.entries[entry].owners + 1)]),
         thread, Waiting(pc.key, entry))
  }

  /** `FindOrInsert`: no record; a new entry is built with its completion mutex already held. */
  function DoMiss(s: State, thread: ThreadId, made: EntryId): State {
    var pc := PcOf(s, thread);
    if !pc.Looking? || pc.key in s.table || made in s.entries then s
    else
      At(s.(entries := s.entries[made := Entry(pc.key, Loading, 0, false, Some(thread), 1)]),
         thread, Prepared(pc.key, made))
  }

  /** `FindOrInsert`, second section: links the record unless another thread did so meanwhile. */
  function DoInsert(s: State, thread: ThreadId): State {
    var pc := PcOf(s, thread);
    if !pc.Prepared? || pc.entry !in s.entries then s
    else if pc.key in s.table then
      if s.table[pc.key] !in s.entries then s
      else
        var other := s.table[pc.key];
        var joined := s.(entries := s.entries[other := s.entries[other].(owners := s.entries[other].owners + 1)]);
        At(DropOwner(joined, pc.entry), thread, Waiting(pc.key, other))
    else
      At(s.(table := s.table[pc.key := pc.entry],
            entries := s.entries[pc.entry := s.entries[pc.entry].(owners := s.entries[pc.entry].owners + 1)]),
         thread, Filling(pc.key, pc.entry))
  }

  function DoAllocate(s: State, thread: ThreadId, page: Option<PageId>): State {
    var pc := PcOf(s, thread);
    if !pc.Filling? then s
    else match page
      case None => At(s, thread, Failing(pc.key, pc.entry))
      case Some(p) =>
        if p in s.pages then s
        else At(s.(pages := s.pages[p := Page(false, 0, 0, Zeros(PAGE_SIZE))]), thread, Blank(pc.key, pc.entry, p))
  }

  /** Under vfs_lock: refuses a stale key, otherwise reads the backend into the page. */
  function DoFill(s: State, thread: ThreadId, readable: bool): State {
    var pc := PcOf(s, thread);
    if !pc.Blank? || s.busy.Some? || pc.page !in s.pages then s
    else if !IsCurrent(s, pc.key) || !readable then
      At(s.(pages := s.pages - {pc.page}), thread, Failing(pc.key, pc.entry))
    else
      var bytes := PaddedPage(Current(s, pc.key.identity), pc.key.index);
      At(s.(pages := s.pages[pc.page := s.pages[pc.page].(bytes := bytes)]), thread, Filled(pc.key, pc.entry, pc.page))
  }

  /** `AdoptManagedPage` owns the page even when it fails. */
  function DoAdopt(s: State, thread: ThreadId, success: bool): State {
    var pc := PcOf(s, thread);
    if !pc.Filled? || pc.page !in s.pages then s
    else if !success then At(s.(pages := s.pages - {pc.page}), thread, Failing(pc.key, pc.entry))
    else At(s.(pages := s.pages[pc.page := s.pages[pc.page].(managed := true, mapping := 1)]),
            thread, Adopted(pc.key, pc.entry, pc.page))
  }

  function DoRetainCache(s: State, thread: ThreadId): State {
    var pc := PcOf(s, thread);
    if !pc.Adopted? || pc.page !in s.pages then s
    else At(s.(pages := s.pages[pc.page := s.pages[pc.page].(cache := s.pages[pc.page].cache + 1)]),
            thread, Retained(pc.key, pc.entry, pc.page))
  }

  function DoReleaseFirstMapping(s: State, thread: ThreadId): State {
    var pc := PcOf(s, thread);
    if !pc.Retained? || pc.page !in s.pages then s
    else At(s.(pages := ReleaseMapping(s.pages, pc.page)), thread, Owning(pc.key, pc.entry, pc.page))
  }

  /** The locked part of `Complete`: publishes the page, or marks Error and unlinks the own record. */
  function DoComplete(s: State, thread: ThreadId): State {
    var pc := PcOf(s, thread);
    if pc.Owning? && pc.entry in s.entries then
      At(s.(entries := s.entries[pc.entry :=
             s.entries[pc.entry].(state := Ready, physical := pc.page, ownsCache := true)]),
         thread, Published(pc.key, pc.entry))
    else if pc.Failing? && pc.entry in s.entries then
      var unlinked := if pc.key in s.table && s.table[pc.key] == pc.entry then RemoveRecord(s, pc.key) else s;
      if pc.entry !in unlinked.entries then s
      else At(unlinked.(entries := unlinked.entries[pc.entry := unlinked.entries[pc.entry].(state := Error)]),
              thread, Published(pc.key, pc.entry))
    else s
  }

  /** The end of `Complete`: the completion mutex is released and the filler returns. */
  function DoSignal(s: State, thread: ThreadId): State {
    var pc := PcOf(s, thread);
    if !pc.Published? || pc.entry !in s.entries then s
    else
      var woken := s.(entries := s.entries[pc.entry := s.entries[pc.entry].(filler := None)]);
      if s.entries[pc.entry].state == Ready then At(woken, thread, Holding(pc.key, pc.entry))
      else At(DropOwner(woken, pc.entry), thread, Idle)
  }

  /** A waiter gets the completion mutex, looks at the state and lets go. */
  function DoAwait(s: State, thread: ThreadId): State {
    var pc := PcOf(s, thread);
    if !pc.Waiting? || pc.entry !in s.entries || s.entries[pc.entry].filler.Some? then s
    else if s.entries[pc.entry].state == Ready then At(s, thread, Holding(pc.key, pc.entry))
    else At(DropOwner(s, pc.entry), thread, Idle)
  }

  /** The caller is done with the entry. */
  function DoFinish(s: State, thread: ThreadId): State {
    var pc := PcOf(s, thread);
    if !pc.Holding? then s else At(DropOwner(s, pc.entry), thread, Idle)
  }

  function DoRetainMapping(s: State, thread: ThreadId): State {
    var pc := PcOf(s, thread);
    if !pc.Holding? || pc.entry !in s.entries || s.entries[pc.entry].physical !in s.pages then s
    else
      var page := s.entries[pc.entry].physical;
      At(s.(pages := s.pages[page := s.pages[page].(mapping := s.pages[page].mapping + 1)]),
         thread, Mapped(pc.key, pc.entry, page))
  }

  /** `AcquireCachedFileMappingPage`: hands the mapping to the caller only if the version is still current. */
  function DoValidate(s: State, thread: ThreadId): State {
    var pc := PcOf(s, thread);
    if !pc.Mapped? || s.busy.Some? || pc.page !in s.pages then s
    else if IsCurrent(s, pc.key) then
      At(DropOwner(s.(installed := s.installed[pc.page := Installed(s, pc.page) + 1]), pc.entry), thread, Idle)
    else
      At(DropOwner(s.(pages := ReleaseMapping(s.pages, pc.page)), pc.entry), thread, Idle)
  }

  function DoUnmap(s: State, page: PageId): State {
    if Installed(s, page) == 0 || page !in s.pages then s
    else s.(installed := s.installed[page := s.installed[page] - 1], pages := ReleaseMapping(s.pages, page))
  }

  /** Under vfs_lock the backend changes and the version advances; the lock stays held. */
  function DoBump(s: State, identity: Identity, bytes: seq<Byte>): State {
    if s.busy.Some? || !Known(s, identity) then s
    else s.(files := s.files[identity := s.files[identity] + [bytes]], busy := Some(identity))
  }

  /** `InvalidateVersions` under the same vfs_lock; `stale` enumerates the records it finds. */
  ghost predicate Stale(s: State, stale: seq<Key>) {
    s.busy.Some? && Known(s, s.busy.value) &&
    forall key :: key in s.table ==>
      (key in stale <==> key.identity == s.busy.value && key.version != Version(s, s.busy.value))
  }

  ghost function DoInvalidate(s: State, stale: seq<Key>): State {
    if !Stale(s, stale) then s else RemoveRecords(s, stale).(busy := None)
  }

  function DoDetach(s: State, key: Key): State {
    if Inactive(s, key) then RemoveRecord(s, key) else s
  }

  ghost function Apply(s: State, a: Action): State {
    match a
    case Look(thread, identity, index) => DoLook(s, thread, identity, index)
    case Hit(thread) => DoHit(s, thread)
    case Miss(thread, made) => DoMiss(s, thread, made)
    case Insert(thread) => DoInsert(s, thread)
    case Allocate(thread, page) => DoAllocate(s, thread, page)
    case Fill(thread, readable) => DoFill(s, thread, readable)
    case Adopt(thread, success) => DoAdopt(s, thread, success)
    case RetainCache(thread) => DoRetainCache(s, thread)
    case ReleaseFirstMapping(thread) => DoReleaseFirstMapping(s, thread)
    case Complete(thread) => DoComplete(s, thread)
    case Signal(thread) => DoSignal(s, thread)
    case Await(thread) => DoAwait(s, thread)
    case Finish(thread) => DoFinish(s, thread)
    case RetainMapping(thread) => DoRetainMapping(s, thread)
    case Validate(thread) => DoValidate(s, thread)
    case Unmap(page) => DoUnmap(s, page)
    case Bump(identity, bytes) => DoBump(s, identity, bytes)
    case Invalidate(stale) => DoInvalidate(s, stale)
    case Detach(key) => DoDetach(s, key)
    case ForgetRecord(key) => RemoveRecord(s, key)
  }

  ghost function Run(s: State, run: seq<Action>): State
    decreases |run|
  {
    if run == [] then s else Run(Apply(s, run[0]), run[1..])
  }
}
