/**
 The shared file mappings of `mecocoa/fileman-cache.cpp` as a state machine.

 `files` is the plain backend, `pages` the table of Ready shared pages, `pins` the list of
 executable pins (head first). Every action is one section that runs under `vfs_lock`
 (or, for alias bookkeeping and user stores, under the page lock; fork changes leaf entries under
 `vma_lock` alone). What the machine and the
 backend decide on their own (which page-table entries still match, how many bytes a
 backend write accepts) is a parameter of the action.
 */
module SharedPages {
  import opened FileBytes

  type Identity = nat
  type Process = nat
  type Address = nat

  datatype PageKey = PageKey(identity: Identity, index: nat) {
    function Offset(): nat { index * PAGE_SIZE }
  }

  /** One registered user mapping of a shared page; `writable` is the bit in its leaf entry. */
  datatype Alias = Alias(process: Process, address: Address, writable: bool)

  datatype SharedPage = SharedPage(bytes: seq<Byte>, dirty: bool, dirtyInode: Option<Identity>, aliases: seq<Alias>)

  datatype File = File(bytes: seq<Byte>, version: nat)

  datatype Pin = Pin(process: Process, identity: Identity, mapped: bool)

  type Pages = map<PageKey, SharedPage>

  /** A leaf entry of the forking process that fork made read-only and would make writable again if it fails. */
  datatype Downgrade = Downgrade(key: PageKey, process: Process, address: Address)

  /** `forked` collects the entries that the forks under way have made read-only. */
  datatype State = State(files: map<Identity, File>, pages: Pages, pins: seq<Pin>, forked: set<Downgrade>)

  /** What `AliasPageMatches` finds, and whether permissions can be revoked on this machine. */
  datatype PageTables = PageTables(matching: set<(Process, Address)>, multicore: bool)

  // ---- Revoking write permission ----

  /** `ProtectSharedFileAliases`: stops at the first alias it cannot revoke. */
  function Protect(aliases: seq<Alias>, tables: PageTables): (seq<Alias>, bool) {
    if aliases == [] then ([], true)
    else if (aliases[0].process, aliases[0].address) !in tables.matching then (aliases, false)
    else if aliases[0].writable && tables.multicore then (aliases, false)
    else
      var (rest, done) := Protect(aliases[1..], tables);
      ([aliases[0].(writable := false)] + rest, done)
  }

  /** Protects the listed pages of one inode in order, skipping those that are not in the table. */
  function ProtectPages(pages: Pages, identity: Identity, order: seq<nat>, tables: PageTables): (Pages, bool) {
    if order == [] then (pages, true)
    else
      var key := PageKey(identity, order[0]);
      if key !in pages then ProtectPages(pages, identity, order[1..], tables)
      else
        var (aliases, done) := Protect(pages[key].aliases, tables);
        var pages' := pages[key := pages[key].(aliases := aliases)];
        if !done then (pages', false) else ProtectPages(pages', identity, order[1..], tables)
  }

  /** `SnapshotInode`: some enumeration of every Ready page of the inode. */
  ghost predicate Snapshot(pages: Pages, identity: Identity, order: seq<nat>) {
    forall key :: key in pages && key.identity == identity ==> key.index in order
  }

  /** The page numbers a write of `length > 0` bytes at `pos` touches, in order. */
  function Touched(pos: nat, length: nat): seq<nat>
    requires length > 0
  {
    var first := pos / PAGE_SIZE;
    seq((pos + length - 1) / PAGE_SIZE - first + 1, i requires 0 <= i => first + i)
  }

  // ---- Keeping page bytes in step with the backend ----

  /** What `CompleteTruncate` does to the bytes of one Ready page of the inode. */
  function TruncatedBytes(bytes: seq<Byte>, offset: nat, oldSize: nat, newSize: nat): seq<Byte>
    requires |bytes| == PAGE_SIZE
  {
    if newSize < oldSize && offset < newSize && newSize - offset < PAGE_SIZE then
      bytes[..newSize - offset] + Zeros(PAGE_SIZE - (newSize - offset))
    else if newSize < oldSize && offset >= newSize then
      Zeros(PAGE_SIZE)
    else if newSize > oldSize && offset < newSize && (oldSize <= offset || oldSize - offset < PAGE_SIZE) then
      var begin := if oldSize > offset then oldSize - offset else 0;
      var end := Min(PAGE_SIZE, newSize - offset);
      bytes[..begin] + Zeros(end - begin) + bytes[end..]
    else bytes
  }

  function TruncatedPage(page: SharedPage, offset: nat, oldSize: nat, newSize: nat): SharedPage
    requires |page.bytes| == PAGE_SIZE
  {
    var bytes := TruncatedBytes(page.bytes, offset, oldSize, newSize);
    if newSize < oldSize && offset >= newSize
    then page.(bytes := bytes, dirty := false, dirtyInode := None)
    else page.(bytes := bytes)
  }

  ghost predicate WholePages(pages: Pages) {
    forall key :: key in pages ==> |pages[key].bytes| == PAGE_SIZE
  }

  ghost function CompleteTruncate(pages: Pages, identity: Identity, oldSize: nat, newSize: nat): Pages
    requires WholePages(pages)
  {
    map key | key in pages ::
      if key.identity == identity then TruncatedPage(pages[key], key.Offset(), oldSize, newSize) else pages[key]
  }

  /** The bytes of a page after `data` was copied over the file range that starts at `pos`. */
  function OverlaidBytes(bytes: seq<Byte>, offset: nat, pos: nat, data: seq<Byte>): seq<Byte>
    requires |bytes| == PAGE_SIZE
  {
    seq(PAGE_SIZE, at requires 0 <= at < PAGE_SIZE =>
      if pos <= offset + at < pos + |data| then data[offset + at - pos] else bytes[at])
  }

  /** `UpdateSharedFilePages`. */
  ghost function UpdatePages(pages: Pages, identity: Identity, pos: nat, data: seq<Byte>): Pages
    requires WholePages(pages)
  {
    map key | key in pages ::
      if key.identity == identity
      then pages[key].(bytes := OverlaidBytes(pages[key].bytes, key.Offset(), pos, data))
      else pages[key]
  }

  // ---- Executable pins ----

  predicate Pinned(pins: seq<Pin>, identity: Identity) {
    exists i :: 0 <= i < |pins| && pins[i].identity == identity
  }

  function MappedPins(pins: seq<Pin>, process: Process, identity: Identity): nat {
    if pins == [] then 0
    else (if pins[0] == Pin(process, identity, true) then 1 else 0) + MappedPins(pins[1..], process, identity)
  }

  /** `UnpinMappedExecutableImage` unlinks the first mapped pin of the pair. */
  function RemoveMapped(pins: seq<Pin>, process: Process, identity: Identity): seq<Pin> {
    if pins == [] then []
    else if pins[0] == Pin(process, identity, true) then pins[1..]
    else [pins[0]] + RemoveMapped(pins[1..], process, identity)
  }

  /** `UnpinExecutableImage` unlinks every pin of the process. */
  function RemoveProcess(pins: seq<Pin>, process: Process): seq<Pin> {
    if pins == [] then []
    else if pins[0].process == process then RemoveProcess(pins[1..], process)
    else [pins[0]] + RemoveProcess(pins[1..], process)
  }

  /** The pins `CloneExecutableImagePin` puts in front of the list when `budget` allocations succeed. */
  function Clones(pins: seq<Pin>, parent: Process, child: Process, budget: nat): seq<Pin> {
    if pins == [] || budget == 0 then []
    else if pins[0].process == parent then Clones(pins[1..], parent, child, budget - 1) + [pins[0].(process := child)]
    else Clones(pins[1..], parent, child, budget)
  }

  function PinsOf(pins: seq<Pin>, process: Process): nat {
    if pins == [] then 0 else (if pins[0].process == process then 1 else 0) + PinsOf(pins[1..], process)
  }

  function Renamed(pins: seq<Pin>, source: Process, destination: Process): seq<Pin> {
    seq(|pins|, i requires 0 <= i < |pins| =>
      if pins[i].process == source then pins[i].(process := destination) else pins[i])
  }

  function Transferred(pins: seq<Pin>, source: Process, destination: Process): seq<Pin> {
    if source == destination || (forall i :: 0 <= i < |pins| ==> pins[i].process != source) then pins
    else Renamed(RemoveProcess(pins, destination), source, destination)
  }

  // ---- Aliases ----

  predicate Registered(aliases: seq<Alias>, process: Process, address: Address) {
    exists i :: 0 <= i < |aliases| && aliases[i].process == process && aliases[i].address == address
  }

  predicate Writable(aliases: seq<Alias>) {
    exists i :: 0 <= i < |aliases| && aliases[i].writable
  }

  function Without(aliases: seq<Alias>, process: Process, address: Address): seq<Alias> {
    if aliases == [] then []
    else if aliases[0].process == process && aliases[0].address == address then aliases[1..]
    else [aliases[0]] + Without(aliases[1..], process, address)
  }

  function MadeWritable(aliases: seq<Alias>, process: Process, address: Address): seq<Alias> {
    seq(|aliases|, i requires 0 <= i < |aliases| =>
      if aliases[i].process == process && aliases[i].address == address
      then aliases[i].(writable := true) else aliases[i])
  }

  function MadeReadOnly(aliases: seq<Alias>, process: Process, address: Address): seq<Alias> {
    seq(|aliases|, i requires 0 <= i < |aliases| =>
      if aliases[i].process == process && aliases[i].address == address
      then aliases[i].(writable := false) else aliases[i])
  }

  predicate WritableAt(aliases: seq<Alias>, process: Process, address: Address) {
    exists i :: 0 <= i < |aliases| && aliases[i] == Alias(process, address, true)
  }

  // ---- The sections ----

  datatype Action =
    | Publish(key: PageKey)
    | Map(key: PageKey, process: Process, address: Address)
    | Unregister(key: PageKey, process: Process, address: Address)
    | ResolveWrite(key: PageKey, process: Process, address: Address)
    | UserStore(key: PageKey, process: Process, address: Address, at: nat, value: Byte)
    | Flush(key: PageKey, tables: PageTables, written: nat)
    | Write(identity: Identity, pos: nat, data: seq<Byte>, order: seq<nat>, tables: PageTables, gap: nat, accepted: nat)
    | Truncate(identity: Identity, size: nat, order: seq<nat>, tables: PageTables, backend: bool)
    | PinImage(process: Process, identity: Identity, expected: nat, order: seq<nat>, tables: PageTables)
    | PinMapped(process: Process, identity: Identity, order: seq<nat>, tables: PageTables)
    | UnpinMapped(process: Process, identity: Identity)
    | ClonePins(parent: Process, child: Process, budget: nat)
    | UnpinAll(process: Process)
    | TransferPins(source: Process, destination: Process)
    | Evict(key: PageKey)
    | Forget(identity: Identity)
    | ForkProtect(entry: Downgrade, multicore: bool)
    | ForkRestore(entry: Downgrade)
    | ForkDone(process: Process)

  /** How an edit changes the file that readers see. */
  datatype Edit = SetLength(identity: Identity, size: nat) | Put(identity: Identity, pos: nat, data: seq<Byte>)

  /** The new state, what the call returns, and the edits it reports to its caller. */
  datatype Outcome = Outcome(state: State, ok: bool, edits: seq<Edit>)

  ghost predicate NoDirtyPage(pages: Pages, identity: Identity) {
    forall key :: key in pages && key.identity == identity ==> !pages[key].dirty
  }

  /** `GetSharedFilePage`: filled and published in one section under vfs_lock. */
  function DoPublish(s: State, key: PageKey): Outcome {
    if key in s.pages || key.identity !in s.files then Outcome(s, false, [])
    else
      var page := SharedPage(PaddedPage(s.files[key.identity].bytes, key.index), false, None, []);
      Outcome(s.(pages := s.pages[key := page]), true, [])
  }

  /** `MapSharedFileVmaPage` and `RegisterSharedFileAlias`: the entry is installed read-only. */
  function DoMap(s: State, key: PageKey, process: Process, address: Address): Outcome {
    if key !in s.pages || Registered(s.pages[key].aliases, process, address) then Outcome(s, false, [])
    else
      var page := s.pages[key];
      Outcome(s.(pages := s.pages[key := page.(aliases := [Alias(process, address, false)] + page.aliases)]), true, [])
  }

  function DoUnregister(s: State, key: PageKey, process: Process, address: Address): Outcome {
    if key !in s.pages then Outcome(s, false, [])
    else
      var page := s.pages[key];
      Outcome(s.(pages := s.pages[key := page.(aliases := Without(page.aliases, process, address))]),
              Registered(page.aliases, process, address), [])
  }

  /** `ResolveSharedFileWrite`: the first store through a mapping. */
  function DoResolveWrite(s: State, key: PageKey, process: Process, address: Address): Outcome {
    if key !in s.pages || key.identity !in s.files then Outcome(s, false, [])
    else if Pinned(s.pins, key.identity) then Outcome(s, false, [])
    else if key.Offset() >= |s.files[key.identity].bytes| then Outcome(s, false, [])
    else
      var page := s.pages[key];
      if !Registered(page.aliases, process, address) || WritableAt(page.aliases, process, address)
      then Outcome(s, false, [])
      else
        var page' := page.(dirtyInode := Some(key.identity), dirty := true,
                           aliases := MadeWritable(page.aliases, process, address));
        Outcome(s.(pages := s.pages[key := page']), true, [])
  }

  /** A user store through a leaf entry that is writable. */
  function DoUserStore(s: State, key: PageKey, process: Process, address: Address, at: nat, value: Byte): Outcome {
    if key !in s.pages || key.identity !in s.files || |s.pages[key].bytes| <= at
       || !WritableAt(s.pages[key].aliases, process, address)
    then Outcome(s, false, [])
    else
      var page := s.pages[key];
      Outcome(s.(pages := s.pages[key := page.(bytes := page.bytes[at := value])]), true,
              if key.Offset() + at < |s.files[key.identity].bytes|
              then [Put(key.identity, key.Offset() + at, [value])] else [])
  }

  /** `FlushSharedFilePageWithCopyLock`; the backend accepts a prefix of what it is offered. */
  function DoFlush(s: State, key: PageKey, tables: PageTables, written: nat): Outcome {
    if key !in s.pages || !s.pages[key].dirty then Outcome(s, true, [])
    else
      var page := s.pages[key];
      if page.dirtyInode != Some(key.identity) || key.identity !in s.files then Outcome(s, false, [])
      else
        var (aliases, done) := Protect(page.aliases, tables);
        var guarded := s.(pages := s.pages[key := page.(aliases := aliases)]);
        if !done then Outcome(guarded, false, [])
        else
          var file := s.files[key.identity];
          if key.Offset() >= |file.bytes| then Outcome(guarded, false, [])
          else
            var length := Min(PAGE_SIZE, |file.bytes| - key.Offset());
            var taken := Min(written, Min(length, |page.bytes|));
            var file' := File(Splice(file.bytes, key.Offset(), page.bytes[..taken]),
                              if taken > 0 then file.version + 1 else file.version);
            var flushed := guarded.(files := s.files[key.identity := file']);
            if taken != length then Outcome(flushed, false, [])
            else Outcome(flushed.(pages := flushed.pages[key :=
                           page.(aliases := aliases, dirty := false, dirtyInode := None)]), true, [])
  }

  ghost function WithFile(s: State, pages: Pages, identity: Identity, bytes: seq<Byte>, version: nat): State {
    s.(pages := pages, files := s.files[identity := File(bytes, version)])
  }

  /** The backend is cut or extended with zeros and `CompleteTruncate` follows it. */
  ghost function Resized(s: State, identity: Identity, size: nat, version: nat): State
    requires WholePages(s.pages) && identity in s.files
  {
    var file := s.files[identity].bytes;
    WithFile(s, CompleteTruncate(s.pages, identity, |file|, size), identity, Resize(file, size), version)
  }

  /** The table after the backend accepted `taken` at `pos`: grown pages are zeroed, then overlaid. */
  ghost function AcceptedPages(s: State, identity: Identity, pos: nat, taken: seq<Byte>): Pages
    requires WholePages(s.pages) && identity in s.files
  {
    var size := |s.files[identity].bytes|;
    var pages := if pos + |taken| > size then CompleteTruncate(s.pages, identity, size, pos + |taken|) else s.pages;
    CompleteTruncateWhole(s.pages, identity, size, pos + |taken|);
    UpdatePages(pages, identity, pos, taken)
  }

  ghost function Accepted(s: State, identity: Identity, pos: nat, taken: seq<Byte>, version: nat): State
    requires WholePages(s.pages) && identity in s.files && pos <= |s.files[identity].bytes|
  {
    WithFile(s, if taken != [] then AcceptedPages(s, identity, pos, taken) else s.pages, identity,
             Splice(s.files[identity].bytes, pos, taken), version)
  }

  function PutIfAny(identity: Identity, pos: nat, taken: seq<Byte>): seq<Edit> {
    if taken != [] then [Put(identity, pos, taken)] else []
  }

  /**
   `Filesys::Write` on a regular file once the touched pages are protected. A write that starts
   past EOF first writes `gap` zero bytes behind EOF; the backend then accepts `accepted` bytes.
   */
  ghost function WriteProtected(s: State, identity: Identity, pos: nat, data: seq<Byte>, gap: nat, accepted: nat): Outcome
    requires WholePages(s.pages) && identity in s.files
  {
    var size, version := |s.files[identity].bytes|, s.files[identity].version;
    var taken := data[..Min(accepted, |data|)];
    if pos <= size then
      Outcome(Accepted(s, identity, pos, taken, if taken != [] then version + 1 else version), true,
              PutIfAny(identity, pos, taken))
    else if gap == 0 then Outcome(s, false, [])
    else if size + gap < pos then
      Outcome(Resized(s, identity, size + gap, version + 1), false, [SetLength(identity, size + gap)])
    else
      var grown := Resized(s, identity, pos, version + 1);
      CompleteTruncateWhole(s.pages, identity, size, pos);
      Outcome(Accepted(grown, identity, pos, taken, version + 1), true,
              [SetLength(identity, pos)] + PutIfAny(identity, pos, taken))
  }

  /** `Filesys::Write` on a regular file. */
  ghost function DoWrite(s: State, identity: Identity, pos: nat, data: seq<Byte>, order: seq<nat>,
                         tables: PageTables, gap: nat, accepted: nat): Outcome
    requires WholePages(s.pages)
  {
    if identity !in s.files || Pinned(s.pins, identity) || data == [] then Outcome(s, data == [], [])
    else
      var (cleared, proceed) := if pos > |s.files[identity].bytes|
                                then ProtectPages(s.pages, identity, order, tables) else (s.pages, true);
      if !proceed then Outcome(s.(pages := cleared), false, [])
      else
        var (pages, ready) := ProtectPages(cleared, identity, Touched(pos, |data|), tables);
        ProtectPagesKeep(s.pages, identity, order, tables);
        ProtectPagesKeep(cleared, identity, Touched(pos, |data|), tables);
        if !ready then Outcome(s.(pages := pages), false, [])
        else WriteProtected(s.(pages := pages), identity, pos, data, gap, accepted)
  }

  /** `TruncateInode`. */
  ghost function DoTruncate(s: State, identity: Identity, size: nat, order: seq<nat>, tables: PageTables,
                            backend: bool): Outcome
    requires WholePages(s.pages)
  {
    if identity !in s.files || Pinned(s.pins, identity) then Outcome(s, false, [])
    else
      var (pages', done) := ProtectPages(s.pages, identity, order, tables);
      ProtectPagesKeep(s.pages, identity, order, tables);
      if !done || !backend then Outcome(s.(pages := pages'), false, [])
      else
        Outcome(Resized(s.(pages := pages'), identity, size, s.files[identity].version + 1), true,
                [SetLength(identity, size)])
  }

  /** The part of `PinExecutableImageInternal` that follows the duplicate check. */
  ghost function DoPin(s: State, pin: Pin, order: seq<nat>, tables: PageTables): Outcome {
    var (pages', done) := ProtectPages(s.pages, pin.identity, order, tables);
    if done && NoDirtyPage(pages', pin.identity)
    then Outcome(s.(pages := pages', pins := [pin] + s.pins), true, [])
    else Outcome(s.(pages := pages'), false, [])
  }

  /** `DetachInactive`: only clean, unmapped pages leave the table. */
  function DoEvict(s: State, key: PageKey): Outcome {
    if key in s.pages && !s.pages[key].dirty && s.pages[key].aliases == []
    then Outcome(s.(pages := s.pages - {key}), true, [])
    else Outcome(s, false, [])
  }

  /** The inode is destroyed only when no mapping, no dirty page and no pin retains it. */
  ghost predicate Unreferenced(s: State, identity: Identity) {
    && (forall key :: key in s.pages ==> s.pages[key].dirtyInode != Some(identity))
    && (forall key :: key in s.pages && key.identity == identity ==> s.pages[key].aliases == [])
    && !Pinned(s.pins, identity)
  }

  ghost function DoForget(s: State, identity: Identity): Outcome {
    if identity in s.files && Unreferenced(s, identity)
    then Outcome(s.(pages := map key | key in s.pages && key.identity != identity :: s.pages[key]), true, [])
    else Outcome(s, false, [])
  }

  /** Fork makes a writable leaf entry of its process read-only; where it may not, it gives up. */
  function DoForkProtect(s: State, d: Downgrade, multicore: bool): Outcome {
    if d.key !in s.pages || !WritableAt(s.pages[d.key].aliases, d.process, d.address) || multicore then Outcome(s, false, [])
    else
      var page := s.pages[d.key];
      Outcome(s.(pages := s.pages[d.key := page.(aliases := MadeReadOnly(page.aliases, d.process, d.address))],
                 forked := s.forked + {d}), true, [])
  }

  /** The entry still maps the page, read-only as fork left it. */
  predicate Restorable(s: State, d: Downgrade) {
    && d in s.forked && d.key in s.pages && Registered(s.pages[d.key].aliases, d.process, d.address)
    && !WritableAt(s.pages[d.key].aliases, d.process, d.address)
  }

  /** One turn of `discard_child`: the entry becomes writable again, whatever happened to the page meanwhile. */
  function DoForkRestore(s: State, d: Downgrade): Outcome {
    var s' := s.(forked := s.forked - {d});
    if !Restorable(s, d) then Outcome(s', false, [])
    else
      var page := s.pages[d.key];
      Outcome(s'.(pages := s.pages[d.key := page.(aliases := MadeWritable(page.aliases, d.process, d.address))]), true, [])
  }

  /** The loop of `discard_child` over the entries fork has made read-only. */
  function RestoreAll(s: State, entries: seq<Downgrade>): State
    decreases |entries|
  {
    if entries == [] then s else RestoreAll(DoForkRestore(s, entries[0]).state, entries[1..])
  }

  /** A page that a failed fork makes writable again is still dirty. */
  predicate StillDirty(s: State, a: Action) {
    a.ForkRestore? && Restorable(s, a.entry) ==> s.pages[a.entry.key].dirty
  }

  /** The lists an action carries really enumerate the inode's Ready pages. */
  ghost predicate Honest(s: State, a: Action) {
    match a
    case Write(identity, _, _, order, _, _, _) => Snapshot(s.pages, identity, order)
    case Truncate(identity, _, order, _, _) => Snapshot(s.pages, identity, order)
    case PinImage(_, identity, _, order, _) => Snapshot(s.pages, identity, order)
    case PinMapped(_, identity, order, _) => Snapshot(s.pages, identity, order)
    case _ => true
  }

  ghost function Apply(s: State, a: Action): Outcome
    requires WholePages(s.pages)
  {
    match a
    case Publish(key) => DoPublish(s, key)
    case Map(key, process, address) => DoMap(s, key, process, address)
    case Unregister(key, process, address) => DoUnregister(s, key, process, address)
    case ResolveWrite(key, process, address) => DoResolveWrite(s, key, process, address)
    case UserStore(key, process, address, at, value) => DoUserStore(s, key, process, address, at, value)
    case Flush(key, tables, written) => DoFlush(s, key, tables, written)
    case Write(identity, pos, data, order, tables, gap, accepted) =>
      DoWrite(s, identity, pos, data, order, tables, gap, accepted)
    case Truncate(identity, size, order, tables, backend) => DoTruncate(s, identity, size, order, tables, backend)
    case PinImage(process, identity, expected, order, tables) =>
      if identity !in s.files || s.files[identity].version != expected then Outcome(s, false, [])
      else DoPin(s, Pin(process, identity, false), order, tables)
    case PinMapped(process, identity, order, tables) =>
      if identity !in s.files then Outcome(s, false, [])
      else if MappedPins(s.pins, process, identity) > 0 then Outcome(s, true, [])
      else DoPin(s, Pin(process, identity, true), order, tables)
    case UnpinMapped(process, identity) =>
      Outcome(s.(pins := RemoveMapped(s.pins, process, identity)), true, [])
    case ClonePins(parent, child, budget) =>
      Outcome(s.(pins := Clones(s.pins, parent, child, budget) + s.pins),
              PinsOf(s.pins, parent) <= budget, [])
    case UnpinAll(process) => Outcome(s.(pins := RemoveProcess(s.pins, process)), true, [])
    case TransferPins(source, destination) =>
      Outcome(s.(pins := Transferred(s.pins, source, destination)),
              source != destination && exists i :: 0 <= i < |s.pins| && s.pins[i].process == source, [])
    case Evict(key) => DoEvict(s, key)
    case Forget(identity) => DoForget(s, identity)
    case ForkProtect(d, multicore) => DoForkProtect(s, d, multicore)
    case ForkRestore(d) => DoForkRestore(s, d)
    case ForkDone(process) => Outcome(s.(forked := set d | d in s.forked && d.process != process), true, [])
  }

  // ---- What protection leaves alone ----

  /** Same pages and bytes; only writable bits were cleared. */
  ghost predicate Restricts(pages: Pages, pages': Pages) {
    && pages'.Keys == pages.Keys
    && forall key :: key in pages ==>
         && pages'[key].bytes == pages[key].bytes
         && pages'[key].dirty == pages[key].dirty
         && pages'[key].dirtyInode == pages[key].dirtyInode
         && (Writable(pages'[key].aliases) ==> Writable(pages[key].aliases))
  }

  lemma {:induction false} ProtectKeeps(aliases: seq<Alias>, tables: PageTables)
    ensures Writable(Protect(aliases, tables).0) ==> Writable(aliases)
    ensures Protect(aliases, tables).1 ==> !Writable(Protect(aliases, tables).0)
    ensures |Protect(aliases, tables).0| == |aliases|
    ensures forall i :: 0 <= i < |aliases| ==>
      && Protect(aliases, tables).0[i].process == aliases[i].process
      && Protect(aliases, tables).0[i].address == aliases[i].address
  {
    if aliases != [] {
      ProtectKeeps(aliases[1..], tables);
      var rest := Protect(aliases[1..], tables).0;
      var r := Protect(aliases, tables).0;
      if r != aliases {
        assert forall i :: 0 < i < |r| ==> r[i] == rest[i - 1];
      }
      if Writable(r) && r != aliases {
        var i :| 0 <= i < |r| && r[i].writable;
        assert rest[i - 1].writable;
        var j :| 0 <= j < |aliases[1..]| && aliases[1..][j].writable;
        assert aliases[j + 1].writable;
      }
    }
  }

  lemma {:induction false} ProtectPagesKeep(pages: Pages, identity: Identity, order: seq<nat>, tables: PageTables)
    ensures Restricts(pages, ProtectPages(pages, identity, order, tables).0)
    ensures WholePages(pages) ==> WholePages(ProtectPages(pages, identity, order, tables).0)
    ensures ProtectPages(pages, identity, order, tables).1 ==>
      forall key :: key in pages && key.identity == identity && key.index in order ==>
        !Writable(ProtectPages(pages, identity, order, tables).0[key].aliases)
    decreases |order|
  {
    if order != [] {
      var key := PageKey(identity, order[0]);
      if key !in pages {
        ProtectPagesKeep(pages, identity, order[1..], tables);
      } else {
        ProtectKeeps(pages[key].aliases, tables);
        var pages' := pages[key := pages[key].(aliases := Protect(pages[key].aliases, tables).0)];
        ProtectPagesKeep(pages', identity, order[1..], tables);
      }
    }
  }

  lemma CompleteTruncateWhole(pages: Pages, identity: Identity, oldSize: nat, newSize: nat)
    requires WholePages(pages)
    ensures WholePages(CompleteTruncate(pages, identity, oldSize, newSize))
  {
  }

  lemma UpdatePagesWhole(pages: Pages, identity: Identity, pos: nat, data: seq<Byte>)
    requires WholePages(pages)
    ensures WholePages(UpdatePages(pages, identity, pos, data))
  {
  }

  lemma AcceptedWhole(s: State, identity: Identity, pos: nat, taken: seq<Byte>, version: nat)
    requires WholePages(s.pages) && identity in s.files && pos <= |s.files[identity].bytes|
    ensures WholePages(Accepted(s, identity, pos, taken, version).pages)
  {
    hide CompleteTruncate, UpdatePages, Splice;
    var size := |s.files[identity].bytes|;
    var pages := if pos + |taken| > size then CompleteTruncate(s.pages, identity, size, pos + |taken|) else s.pages;
    CompleteTruncateWhole(s.pages, identity, size, pos + |taken|);
    UpdatePagesWhole(pages, identity, pos, taken);
  }

  lemma WriteWhole(s: State, identity: Identity, pos: nat, data: seq<Byte>, gap: nat, accepted: nat)
    requires WholePages(s.pages) && identity in s.files
    ensures WholePages(WriteProtected(s, identity, pos, data, gap, accepted).state.pages)
  {
    hide CompleteTruncate, Accepted;
    var size, version := |s.files[identity].bytes|, s.files[identity].version;
    var taken := data[..Min(accepted, |data|)];
    if pos <= size {
      AcceptedWhole(s, identity, pos, taken, if taken != [] then version + 1 else version);
    } else {
      CompleteTruncateWhole(s.pages, identity, size, size + gap);
      CompleteTruncateWhole(s.pages, identity, size, pos);
      AcceptedWhole(Resized(s, identity, pos, version + 1), identity, pos, taken, version + 1);
    }
  }

  lemma DoWriteWhole(s: State, identity: Identity, pos: nat, data: seq<Byte>, order: seq<nat>, tables: PageTables, gap: nat, accepted: nat)
    requires WholePages(s.pages)
    ensures WholePages(DoWrite(s, identity, pos, data, order, tables, gap, accepted).state.pages)
  {
    hide ProtectPages, WriteProtected, WholePages;
    if data != [] && identity in s.files {
      var cleared := if pos > |s.files[identity].bytes| then ProtectPages(s.pages, identity, order, tables).0 else s.pages;
      ProtectPagesKeep(s.pages, identity, order, tables);
      ProtectPagesKeep(cleared, identity, Touched(pos, |data|), tables);
      WriteWhole(s.(pages := ProtectPages(cleared, identity, Touched(pos, |data|), tables).0), identity, pos, data, gap, accepted);
    }
  }

  /** Pages stay whole in every section, also in one from a state that is not coherent. */
  lemma SectionWhole(s: State, a: Action)
    requires WholePages(s.pages)
    ensures WholePages(Apply(s, a).state.pages)
  {
    hide Protect, ProtectPages, CompleteTruncate, DoWrite, Splice;
    match a
    case Write(identity, pos, data, order, tables, gap, accepted) =>
      DoWriteWhole(s, identity, pos, data, order, tables, gap, accepted);
    case Truncate(identity, size, order, tables, _) =>
      if identity in s.files {
        ProtectPagesKeep(s.pages, identity, order, tables);
        CompleteTruncateWhole(ProtectPages(s.pages, identity, order, tables).0, identity, |s.files[identity].bytes|, size);
      }
    case PinImage(_, identity, _, order, tables) => ProtectPagesKeep(s.pages, identity, order, tables);
    case PinMapped(_, identity, order, tables) => ProtectPagesKeep(s.pages, identity, order, tables);
    case _ =>
  }
}
