/**
 Every run of the shared-page machine keeps the table coherent with the backend, and the file
 a reader sees through it behaves like one flat byte file.
 */
module SharedPageCoherence {
  import opened FileBytes
  import opened SharedPages

  /** The page holds the file's bytes wherever the file has any. */
  ghost predicate Agrees(page: seq<Byte>, file: seq<Byte>, offset: nat)
    requires |page| == PAGE_SIZE
  {
    forall at :: 0 <= at < PAGE_SIZE && offset + at < |file| ==> page[at] == file[offset + at]
  }

  ghost predicate PageCoherent(s: State, key: PageKey)
    requires key in s.pages && |s.pages[key].bytes| == PAGE_SIZE
  {
    var page := s.pages[key];
    && key.identity in s.files
    && (Writable(page.aliases) ==> page.dirty)
    && page.dirtyInode == (if page.dirty then Some(key.identity) else None)
    && (page.dirty ==> key.Offset() < |s.files[key.identity].bytes| && !Pinned(s.pins, key.identity))
    && (!page.dirty ==> Agrees(page.bytes, s.files[key.identity].bytes, key.Offset()))
  }

  ghost predicate Coherent(s: State) {
    && WholePages(s.pages)
    && forall key :: key in s.pages ==> PageCoherent(s, key)
  }

  // ---- The file readers see ----

  ghost function SeenByte(s: State, identity: Identity, i: nat): Byte
    requires WholePages(s.pages) && identity in s.files && i < |s.files[identity].bytes|
  {
    var key := PageKey(identity, i / PAGE_SIZE);
    if key in s.pages then s.pages[key].bytes[i % PAGE_SIZE] else s.files[identity].bytes[i]
  }

  /** What `ReadSharedFilePageIfPresent` and the backend together return for the whole file. */
  ghost function Seen(s: State, identity: Identity): seq<Byte>
    requires WholePages(s.pages) && identity in s.files
  {
    seq(|s.files[identity].bytes|, i requires 0 <= i < |s.files[identity].bytes| => SeenByte(s, identity, i))
  }

  type Flat = map<Identity, seq<Byte>>

  ghost function View(s: State): Flat
    requires WholePages(s.pages)
  {
    map identity | identity in s.files :: Seen(s, identity)
  }

  /** The plain file system: one byte string per inode. */
  function Edited(flat: Flat, e: Edit): Flat {
    if e.identity !in flat then flat
    else match e
      case SetLength(identity, size) => flat[identity := Resize(flat[identity], size)]
      case Put(identity, pos, data) =>
        if pos > |flat[identity]| then flat else flat[identity := Splice(flat[identity], pos, data)]
  }

  function Replay(flat: Flat, edits: seq<Edit>): Flat {
    if edits == [] then flat else Replay(Edited(flat, edits[0]), edits[1..])
  }

  /** The outcome keeps the table coherent and reports exactly the edits readers observe. */
  ghost predicate Faithful(s: State, o: Outcome)
    requires WholePages(s.pages)
  {
    Coherent(o.state) && View(o.state) == Replay(View(s), o.edits)
  }

  // ---- Bytes after one edit ----

  lemma TruncatedByte(bytes: seq<Byte>, offset: nat, oldSize: nat, newSize: nat, at: nat)
    requires |bytes| == PAGE_SIZE && at < PAGE_SIZE
    ensures |TruncatedBytes(bytes, offset, oldSize, newSize)| == PAGE_SIZE
    ensures offset + at < newSize ==>
      TruncatedBytes(bytes, offset, oldSize, newSize)[at] == if offset + at < oldSize then bytes[at] else
        if newSize > oldSize then 0 as Byte else bytes[at]
  {
  }

  lemma PageOf(i: nat)
    ensures i == PageKey(0, i / PAGE_SIZE).Offset() + i % PAGE_SIZE
    ensures 0 <= i % PAGE_SIZE < PAGE_SIZE
  {
  }

  /** Two states whose pages and files agree byte by byte show the same files. */
  lemma SameView(s: State, s': State)
    requires WholePages(s.pages) && WholePages(s'.pages)
    requires s'.files.Keys == s.files.Keys
    requires forall identity :: identity in s.files ==> |s'.files[identity].bytes| == |s.files[identity].bytes|
    requires forall identity, i :: identity in s.files && 0 <= i < |s.files[identity].bytes| ==>
      SeenByte(s', identity, i) == SeenByte(s, identity, i)
    ensures View(s') == View(s)
  {
    forall identity | identity in s.files ensures Seen(s', identity) == Seen(s, identity) {}
  }

  lemma RestrictedCoherent(s: State, pages: Pages)
    requires Coherent(s) && Restricts(s.pages, pages)
    ensures Coherent(s.(pages := pages))
    ensures View(s.(pages := pages)) == View(s)
  {
    var s' := s.(pages := pages);
    forall key | key in pages ensures PageCoherent(s', key) {
      assert PageCoherent(s, key);
    }
    SameView(s, s');
  }

  // ---- The two edits of the backend ----

  lemma ResizedCoherent(s: State, identity: Identity, size: nat, version: nat)
    requires Coherent(s) && identity in s.files && !Pinned(s.pins, identity)
    requires size < |s.files[identity].bytes| ==>
      forall key :: key in s.pages && key.identity == identity ==> !Writable(s.pages[key].aliases)
    ensures Coherent(Resized(s, identity, size, version))
    ensures View(Resized(s, identity, size, version)) == Edited(View(s), SetLength(identity, size))
  {
    var file := s.files[identity].bytes;
    var s' := Resized(s, identity, size, version);
    var pages := s'.pages;
    forall key | key in pages && key.identity == identity
      ensures |pages[key].bytes| == PAGE_SIZE && PageCoherent(s', key)
    {
      assert PageCoherent(s, key);
      TruncatedByte(s.pages[key].bytes, key.Offset(), |file|, size, 0);
      if !pages[key].dirty {
        forall at | 0 <= at < PAGE_SIZE && key.Offset() + at < |Resize(file, size)|
          ensures pages[key].bytes[at] == Resize(file, size)[key.Offset() + at]
        {
          TruncatedByte(s.pages[key].bytes, key.Offset(), |file|, size, at);
        }
      }
    }
    forall key | key in pages && key.identity != identity ensures PageCoherent(s', key) {
      assert PageCoherent(s, key);
    }
    var after := Edited(View(s), SetLength(identity, size));
    forall i | 0 <= i < size ensures Seen(s', identity)[i] == after[identity][i] {
      ResizedByte(s, identity, size, version, i);
    }
    assert Seen(s', identity) == after[identity];
    OthersUnchanged(s, s', identity);
  }

  lemma ResizedByte(s: State, identity: Identity, size: nat, version: nat, i: nat)
    requires Coherent(s) && identity in s.files && i < size
    ensures WholePages(Resized(s, identity, size, version).pages)
    ensures SeenByte(Resized(s, identity, size, version), identity, i) == Resize(Seen(s, identity), size)[i]
  {
    CompleteTruncateWhole(s.pages, identity, |s.files[identity].bytes|, size);
    var file := s.files[identity].bytes;
    var key := PageKey(identity, i / PAGE_SIZE);
    PageOf(i);
    if key in s.pages {
      TruncatedByte(s.pages[key].bytes, key.Offset(), |file|, size, i % PAGE_SIZE);
    }
  }

  /** A section that only touches one inode leaves the view of every other inode alone. */
  lemma OthersUnchanged(s: State, s': State, identity: Identity)
    requires WholePages(s.pages) && WholePages(s'.pages)
    requires identity in s.files && s'.files.Keys == s.files.Keys
    requires forall other :: other in s.files && other != identity ==> s'.files[other] == s.files[other]
    requires forall key: PageKey :: key.identity != identity ==>
      (key in s'.pages <==> key in s.pages) && (key in s.pages ==> s'.pages[key].bytes == s.pages[key].bytes)
    ensures forall other :: other in s.files && other != identity ==> Seen(s', other) == Seen(s, other)
    ensures View(s') == View(s)[identity := Seen(s', identity)]
  {
    forall other | other in s.files && other != identity ensures Seen(s', other) == Seen(s, other) {
      forall i | 0 <= i < |s.files[other].bytes| ensures SeenByte(s', other, i) == SeenByte(s, other, i) {
        var key := PageKey(other, i / PAGE_SIZE);
        assert key.identity != identity;
      }
    }
  }

  ghost function Overlaid(s: State, identity: Identity, pos: nat, data: seq<Byte>, version: nat): State
    requires Coherent(s) && identity in s.files && pos + |data| <= |s.files[identity].bytes|
  {
    WithFile(s, UpdatePages(s.pages, identity, pos, data), identity, Splice(s.files[identity].bytes, pos, data), version)
  }

  lemma OverlaidCoherent(s: State, identity: Identity, pos: nat, data: seq<Byte>, version: nat)
    requires Coherent(s) && identity in s.files && pos + |data| <= |s.files[identity].bytes|
    ensures Coherent(Overlaid(s, identity, pos, data, version))
    ensures View(Overlaid(s, identity, pos, data, version)) == Edited(View(s), Put(identity, pos, data))
  {
    var s' := Overlaid(s, identity, pos, data, version);
    forall key | key in s'.pages ensures PageCoherent(s', key) {
      OverlaidPageCoherent(s, identity, pos, data, version, key);
    }
    var after := Edited(View(s), Put(identity, pos, data))[identity];
    forall i | 0 <= i < |after| ensures Seen(s', identity)[i] == after[i] {
      OverlaidByte(s, identity, pos, data, version, i);
    }
    assert Seen(s', identity) == after;
    OthersUnchanged(s, s', identity);
  }

  lemma OverlaidPageCoherent(s: State, identity: Identity, pos: nat, data: seq<Byte>, version: nat, key: PageKey)
    requires Coherent(s) && identity in s.files && pos + |data| <= |s.files[identity].bytes| && key in s.pages
    ensures |Overlaid(s, identity, pos, data, version).pages[key].bytes| == PAGE_SIZE
    ensures PageCoherent(Overlaid(s, identity, pos, data, version), key)
  {
    assert PageCoherent(s, key);
    var file := s.files[identity].bytes;
    assert |Splice(file, pos, data)| == |file|;
    if key.identity == identity && !s.pages[key].dirty {
      var bytes := OverlaidBytes(s.pages[key].bytes, key.Offset(), pos, data);
      forall at | 0 <= at < PAGE_SIZE && key.Offset() + at < |file|
        ensures bytes[at] == Splice(file, pos, data)[key.Offset() + at]
      {
      }
    }
  }

  lemma SplicedByte(file: seq<Byte>, pos: nat, data: seq<Byte>, i: nat)
    requires pos + |data| <= |file| && i < |file|
    ensures |Splice(file, pos, data)| == |file|
    ensures Splice(file, pos, data)[i] == if pos <= i < pos + |data| then data[i - pos] else file[i]
  {
  }

  lemma OverlaidByte(s: State, identity: Identity, pos: nat, data: seq<Byte>, version: nat, i: nat)
    requires Coherent(s) && identity in s.files && pos + |data| <= |s.files[identity].bytes|
    requires i < |s.files[identity].bytes|
    ensures WholePages(Overlaid(s, identity, pos, data, version).pages)
    ensures |Splice(s.files[identity].bytes, pos, data)| == |s.files[identity].bytes|
    ensures SeenByte(Overlaid(s, identity, pos, data, version), identity, i) == Splice(Seen(s, identity), pos, data)[i]
  {
    SplicedByte(Seen(s, identity), pos, data, i);
    SplicedByte(s.files[identity].bytes, pos, data, i);
    PageOf(i);
    var key := PageKey(identity, i / PAGE_SIZE);
    if key in s.pages {
      assert key.Offset() + i % PAGE_SIZE == i;
      assert Overlaid(s, identity, pos, data, version).pages[key].bytes
          == OverlaidBytes(s.pages[key].bytes, key.Offset(), pos, data);
    }
  }

  lemma SpliceGrown(file: seq<Byte>, pos: nat, data: seq<Byte>, size: nat)
    requires pos <= |file| && size == pos + |data| && size >= |file|
    ensures Splice(Resize(file, size), pos, data) == Splice(file, pos, data)
  {
  }

  // ---- Pin list operations never pin a new inode ----

  lemma {:induction false} RemovedPins(pins: seq<Pin>, process: Process, identity: Identity)
    ensures forall i :: 0 <= i < |RemoveMapped(pins, process, identity)| ==> RemoveMapped(pins, process, identity)[i] in pins
    ensures forall i :: 0 <= i < |RemoveProcess(pins, process)| ==>
      RemoveProcess(pins, process)[i] in pins && RemoveProcess(pins, process)[i].process != process
    ensures forall pin :: pin in pins && pin.process != process ==> pin in RemoveProcess(pins, process)
    ensures forall pin :: pin in pins && pin != Pin(process, identity, true) ==> pin in RemoveMapped(pins, process, identity)
  {
    if pins != [] {
      RemovedPins(pins[1..], process, identity);
      assert forall pin :: pin in pins <==> pin == pins[0] || pin in pins[1..];
    }
  }

  lemma {:induction false} ClonedPins(pins: seq<Pin>, parent: Process, child: Process, budget: nat)
    ensures forall pin :: pin in Clones(pins, parent, child, budget) ==>
      pin.process == child && pin.(process := parent) in pins
  {
    if pins != [] && budget > 0 {
      ClonedPins(pins[1..], parent, child, if pins[0].process == parent then budget - 1 else budget);
      assert forall pin :: pin in pins <==> pin == pins[0] || pin in pins[1..];
    }
  }

  lemma TransferredPins(pins: seq<Pin>, source: Process, destination: Process, identity: Identity)
    ensures Pinned(Transferred(pins, source, destination), identity) ==> Pinned(pins, identity)
  {
    RemovedPins(pins, destination, identity);
    var kept := RemoveProcess(pins, destination);
    var moved := Transferred(pins, source, destination);
    if Pinned(moved, identity) && moved != pins {
      var i :| 0 <= i < |moved| && moved[i].identity == identity;
      assert kept[i] in pins && kept[i].identity == identity;
    }
  }

  lemma RepinnedCoherent(s: State, pins: seq<Pin>)
    requires Coherent(s)
    requires forall identity :: Pinned(pins, identity) ==> Pinned(s.pins, identity)
    ensures Coherent(s.(pins := pins)) && View(s.(pins := pins)) == View(s)
  {
    forall key | key in s.pages ensures PageCoherent(s.(pins := pins), key) {
      assert PageCoherent(s, key);
    }
    SameView(s, s.(pins := pins));
  }

  // ---- One section ----

  /** Replacing one page by a coherent one with the same bytes changes nothing readers see. */
  lemma ReplacedCoherent(s: State, key: PageKey, page: SharedPage)
    requires Coherent(s) && key in s.pages && page.bytes == s.pages[key].bytes
    requires PageCoherent(s.(pages := s.pages[key := page]), key)
    ensures Coherent(s.(pages := s.pages[key := page])) && View(s.(pages := s.pages[key := page])) == View(s)
  {
    var s' := s.(pages := s.pages[key := page]);
    forall k | k in s'.pages ensures PageCoherent(s', k) {
      assert k != key ==> PageCoherent(s, k);
    }
    SameView(s, s');
  }

  lemma AliasSectionsCoherent(s: State, a: Action)
    requires Coherent(s)
    requires a.Map? || a.Unregister? || a.ResolveWrite?
    ensures Faithful(s, Apply(s, a))
  {
    var o := Apply(s, a);
    if a.key in s.pages && o.state != s {
      assert PageCoherent(s, a.key);
      if a.Map? {
        assert Writable(o.state.pages[a.key].aliases) ==> Writable(s.pages[a.key].aliases) by {
          assert o.state.pages[a.key].aliases[1..] == s.pages[a.key].aliases;
        }
      } else if a.Unregister? {
        WithoutKeeps(s.pages[a.key].aliases, a.process, a.address);
      }
      ReplacedCoherent(s, a.key, o.state.pages[a.key]);
      assert o.state == s.(pages := s.pages[a.key := o.state.pages[a.key]]);
    }
  }

  lemma ReadOnlyKeeps(aliases: seq<Alias>, process: Process, address: Address)
    ensures Writable(MadeReadOnly(aliases, process, address)) ==> Writable(aliases)
  {
  }

  lemma SetWritable(aliases: seq<Alias>, process: Process, address: Address)
    requires Registered(aliases, process, address)
    ensures Writable(MadeWritable(aliases, process, address))
  {
    var i :| 0 <= i < |aliases| && aliases[i].process == process && aliases[i].address == address;
    assert MadeWritable(aliases, process, address)[i].writable;
  }

  lemma RecordCoherent(s: State, forked: set<Downgrade>)
    requires Coherent(s)
    ensures Coherent(s.(forked := forked)) && View(s.(forked := forked)) == View(s)
  {
    var s' := s.(forked := forked);
    forall key | key in s'.pages ensures PageCoherent(s', key) { assert PageCoherent(s, key); }
    SameView(s, s');
  }

  lemma ForkProtectCoherent(s: State, d: Downgrade, multicore: bool)
    requires Coherent(s)
    ensures Faithful(s, DoForkProtect(s, d, multicore))
  {
    var o := DoForkProtect(s, d, multicore);
    if o.ok {
      assert PageCoherent(s, d.key);
      ReadOnlyKeeps(s.pages[d.key].aliases, d.process, d.address);
      ReplacedCoherent(s, d.key, o.state.pages[d.key]);
      RecordCoherent(s.(pages := s.pages[d.key := o.state.pages[d.key]]), o.state.forked);
    }
  }

  /**
   A failed fork that makes an entry writable again changes nothing readers see, and it keeps the table coherent if
   and only if the page is still dirty.
   */
  lemma RestoreCoherentIff(s: State, d: Downgrade)
    requires Coherent(s) && Restorable(s, d)
    ensures Coherent(DoForkRestore(s, d).state) <==> s.pages[d.key].dirty
    ensures WholePages(DoForkRestore(s, d).state.pages) && View(DoForkRestore(s, d).state) == View(s)
  {
    var s' := DoForkRestore(s, d).state;
    assert PageCoherent(s, d.key);
    SetWritable(s.pages[d.key].aliases, d.process, d.address);
    SameView(s, s');
    if s.pages[d.key].dirty {
      ReplacedCoherent(s, d.key, s'.pages[d.key]);
      RecordCoherent(s.(pages := s'.pages), s'.forked);
    } else {
      assert !PageCoherent(s', d.key);
    }
  }

  lemma ForkSectionsCoherent(s: State, a: Action)
    requires Coherent(s) && (a.ForkProtect? || a.ForkRestore? || a.ForkDone?) && StillDirty(s, a)
    ensures Faithful(s, Apply(s, a))
  {
    hide Coherent, View;
    match a
    case ForkProtect(d, multicore) => ForkProtectCoherent(s, d, multicore);
    case ForkRestore(d) =>
      if Restorable(s, d) { RestoreCoherentIff(s, d); } else { RecordCoherent(s, s.forked - {d}); }
    case ForkDone(process) => RecordCoherent(s, set d | d in s.forked && d.process != process);
  }

  /** A clean page agrees with the backend, so publishing or dropping it cannot be observed. */
  lemma CleanPageUnseen(s: State, s': State)
    requires Coherent(s) && Coherent(s') && s'.files == s.files
    requires forall key :: key in s.pages && key in s'.pages ==> s'.pages[key].bytes == s.pages[key].bytes
    requires forall key :: key in s.pages && key !in s'.pages ==> !s.pages[key].dirty
    requires forall key :: key in s'.pages && key !in s.pages ==> !s'.pages[key].dirty
    ensures View(s') == View(s)
  {
    forall identity, i | identity in s.files && 0 <= i < |s.files[identity].bytes|
      ensures SeenByte(s', identity, i) == SeenByte(s, identity, i)
    {
      PageOf(i);
      var key := PageKey(identity, i / PAGE_SIZE);
      assert key in s.pages ==> PageCoherent(s, key);
      assert key in s'.pages ==> PageCoherent(s', key);
    }
    SameView(s, s');
  }

  lemma TableSectionsCoherent(s: State, a: Action)
    requires Coherent(s)
    requires a.Publish? || a.Evict? || a.Forget?
    ensures Faithful(s, Apply(s, a))
  {
    var s' := Apply(s, a).state;
    forall key | key in s'.pages ensures |s'.pages[key].bytes| == PAGE_SIZE && PageCoherent(s', key) {
      assert key in s.pages ==> PageCoherent(s, key);
    }
    forall key | key in s.pages && key !in s'.pages ensures !s.pages[key].dirty {
      assert PageCoherent(s, key);
    }
    CleanPageUnseen(s, s');
  }

  lemma {:induction false} WithoutKeeps(aliases: seq<Alias>, process: Process, address: Address)
    ensures forall i :: 0 <= i < |Without(aliases, process, address)| ==> Without(aliases, process, address)[i] in aliases
    ensures Writable(Without(aliases, process, address)) ==> Writable(aliases)
  {
    if aliases != [] {
      WithoutKeeps(aliases[1..], process, address);
    }
  }

  ghost function Stored(s: State, key: PageKey, at: nat, value: Byte): State
    requires Coherent(s) && key in s.pages && at < PAGE_SIZE
  {
    s.(pages := s.pages[key := s.pages[key].(bytes := s.pages[key].bytes[at := value])])
  }

  lemma StoredByte(s: State, key: PageKey, at: nat, value: Byte, i: nat)
    requires Coherent(s) && key in s.pages && at < PAGE_SIZE && key.identity in s.files
    requires i < |s.files[key.identity].bytes|
    ensures WholePages(Stored(s, key, at, value).pages)
    ensures SeenByte(Stored(s, key, at, value), key.identity, i) ==
      if i == key.Offset() + at then value else SeenByte(s, key.identity, i)
  {
    PageOf(i);
  }

  lemma StoredSeen(s: State, key: PageKey, at: nat, value: Byte)
    requires Coherent(s) && key in s.pages && at < PAGE_SIZE && key.identity in s.files
    ensures WholePages(Stored(s, key, at, value).pages)
    ensures Seen(Stored(s, key, at, value), key.identity) ==
      if key.Offset() + at < |s.files[key.identity].bytes|
      then Splice(Seen(s, key.identity), key.Offset() + at, [value]) else Seen(s, key.identity)
  {
    var before, after := Seen(s, key.identity), Seen(Stored(s, key, at, value), key.identity);
    var target := key.Offset() + at;
    forall i | 0 <= i < |before| ensures after[i] == if i == target then value else before[i] {
      StoredByte(s, key, at, value, i);
    }
    assert target >= |before| ==> after == before;
    assert target < |before| ==> after == Splice(before, target, [value]);
  }

  lemma StoredCoherent(s: State, key: PageKey, at: nat, value: Byte)
    requires Coherent(s) && key in s.pages && at < PAGE_SIZE && s.pages[key].dirty
    ensures Coherent(Stored(s, key, at, value))
  {
    var s' := Stored(s, key, at, value);
    forall k | k in s'.pages ensures PageCoherent(s', k) {
      assert PageCoherent(s, k);
    }
  }

  lemma StoredView(s: State, key: PageKey, at: nat, value: Byte)
    requires Coherent(s) && key in s.pages && at < PAGE_SIZE && key.identity in s.files
    ensures WholePages(Stored(s, key, at, value).pages)
    ensures View(Stored(s, key, at, value)) ==
      if key.Offset() + at < |s.files[key.identity].bytes|
      then Edited(View(s), Put(key.identity, key.Offset() + at, [value])) else View(s)
  {
    StoredSeen(s, key, at, value);
    OthersUnchanged(s, Stored(s, key, at, value), key.identity);
  }

  lemma StoreCoherent(s: State, key: PageKey, process: Process, address: Address, at: nat, value: Byte)
    requires Coherent(s)
    ensures Faithful(s, DoUserStore(s, key, process, address, at, value))
    ensures var o := DoUserStore(s, key, process, address, at, value);
      && (o.ok <==> key in s.pages && at < PAGE_SIZE && WritableAt(s.pages[key].aliases, process, address))
      && (o.ok ==> key.identity in s.files)
      && View(o.state) ==
         (if o.ok && key.Offset() + at < |View(s)[key.identity]|
          then View(s)[key.identity := View(s)[key.identity][key.Offset() + at := value]] else View(s))
  {
    if key in s.pages { assert PageCoherent(s, key); }
    var o := DoUserStore(s, key, process, address, at, value);
    if o.ok {
      assert o.state == Stored(s, key, at, value);
      assert PageCoherent(s, key);
      assert Writable(s.pages[key].aliases);
      hide View, Splice, Coherent, PageCoherent;
      StoredCoherent(s, key, at, value);
      StoredView(s, key, at, value);
      ReplayAppend(View(s), Put(key.identity, key.Offset() + at, [value]), []);
      if key.Offset() + at < |View(s)[key.identity]| {
        SpliceOne(View(s)[key.identity], key.Offset() + at, value);
      }
    }
  }

  lemma SpliceOne(file: seq<Byte>, pos: nat, value: Byte)
    requires pos < |file|
    ensures Splice(file, pos, [value]) == file[pos := value]
  {
  }

  /** Writing a prefix of a dirty page back changes the backend but not what readers see. */
  lemma WrittenBack(s: State, key: PageKey, taken: nat, version: nat)
    requires Coherent(s) && key in s.pages && s.pages[key].dirty && key.identity in s.files
    requires taken <= PAGE_SIZE && key.Offset() + taken <= |s.files[key.identity].bytes|
    ensures var bytes := Splice(s.files[key.identity].bytes, key.Offset(), s.pages[key].bytes[..taken]);
      var s' := WithFile(s, s.pages, key.identity, bytes, version);
      Coherent(s') && View(s') == View(s)
  {
    var file := s.files[key.identity].bytes;
    var bytes := Splice(file, key.Offset(), s.pages[key].bytes[..taken]);
    var s' := WithFile(s, s.pages, key.identity, bytes, version);
    forall i | 0 <= i < |file| && i / PAGE_SIZE != key.index ensures bytes[i] == file[i] {
      PageOf(i);
    }
    forall k | k in s.pages ensures PageCoherent(s', k) {
      assert PageCoherent(s, k);
      if k.identity == key.identity && k != key && !s.pages[k].dirty {
        forall at | 0 <= at < PAGE_SIZE && k.Offset() + at < |file|
          ensures s.pages[k].bytes[at] == bytes[k.Offset() + at]
        {
          assert (k.Offset() + at) / PAGE_SIZE == k.index;
        }
      }
    }
    forall i | 0 <= i < |file| ensures SeenByte(s', key.identity, i) == SeenByte(s, key.identity, i) {}
    assert Seen(s', key.identity) == Seen(s, key.identity);
    OthersUnchanged(s, s', key.identity);
  }

  /** A dirty page that agrees with the backend and has no writable alias may become clean. */
  lemma CleanedCoherent(s: State, key: PageKey)
    requires Coherent(s) && key in s.pages && key.identity in s.files && !Writable(s.pages[key].aliases)
    requires Agrees(s.pages[key].bytes, s.files[key.identity].bytes, key.Offset())
    ensures var s' := s.(pages := s.pages[key := s.pages[key].(dirty := false, dirtyInode := None)]);
      Coherent(s') && View(s') == View(s)
  {
    var s' := s.(pages := s.pages[key := s.pages[key].(dirty := false, dirtyInode := None)]);
    forall k | k in s'.pages ensures PageCoherent(s', k) {
      assert PageCoherent(s, k);
    }
    SameView(s, s');
  }

  /** A flush, even a short one, keeps coherence and never changes what readers see. */
  lemma FlushCoherent(s: State, key: PageKey, tables: PageTables, written: nat)
    requires Coherent(s)
    ensures Faithful(s, DoFlush(s, key, tables, written))
  {
    var o := DoFlush(s, key, tables, written);
    if key !in s.pages || !s.pages[key].dirty {
      assert o.state == s && o.edits == [];
    } else {
      var page := s.pages[key];
      assert PageCoherent(s, key);
      var (aliases, done) := Protect(page.aliases, tables);
      ProtectKeeps(page.aliases, tables);
      var guarded := s.(pages := s.pages[key := page.(aliases := aliases)]);
      RestrictedCoherent(s, guarded.pages);
      if done {
        ProtectedFlush(s, guarded, key, tables, written);
      } else {
        assert o.state == guarded && o.edits == [];
      }
    }
  }

  lemma ProtectedFlush(s: State, guarded: State, key: PageKey, tables: PageTables, written: nat)
    requires Coherent(s) && Coherent(guarded) && View(guarded) == View(s)
    requires key in s.pages && s.pages[key].dirty && key.identity in s.files
    requires var (aliases, done) := Protect(s.pages[key].aliases, tables);
      done && !Writable(aliases) && guarded == s.(pages := s.pages[key := s.pages[key].(aliases := aliases)])
    ensures Faithful(s, DoFlush(s, key, tables, written))
  {
    var o := DoFlush(s, key, tables, written);
    assert PageCoherent(s, key);
    var file := s.files[key.identity];
    var length := Min(PAGE_SIZE, |file.bytes| - key.Offset());
    var taken := Min(written, length);
    var version := if taken > 0 then file.version + 1 else file.version;
    var bytes := Splice(file.bytes, key.Offset(), s.pages[key].bytes[..taken]);
    var flushed := WithFile(guarded, guarded.pages, key.identity, bytes, version);
    WrittenBack(guarded, key, taken, version);
    if taken == length {
      CleanedCoherent(flushed, key);
      assert o.state == flushed.(pages := flushed.pages[key := flushed.pages[key].(dirty := false, dirtyInode := None)]);
    } else {
      assert o.state == flushed;
    }
  }

  // ---- What can be revoked ----

  /** Every alias still matches its page table, and none is writable where permissions cannot be revoked. */
  ghost predicate Revocable(aliases: seq<Alias>, tables: PageTables) {
    forall i :: 0 <= i < |aliases| ==>
      (aliases[i].process, aliases[i].address) in tables.matching && !(aliases[i].writable && tables.multicore)
  }

  /** Protection succeeds exactly when every alias can be revoked, and then it can be repeated. */
  lemma {:induction false} ProtectIff(aliases: seq<Alias>, tables: PageTables)
    ensures Protect(aliases, tables).1 <==> Revocable(aliases, tables)
    ensures Protect(aliases, tables).1 ==> Revocable(Protect(aliases, tables).0, tables)
  {
    if aliases != [] {
      ProtectIff(aliases[1..], tables);
      var rest := Protect(aliases[1..], tables).0;
      assert aliases == [aliases[0]] + aliases[1..];
      assert Revocable(aliases, tables) <==>
        (aliases[0].process, aliases[0].address) in tables.matching && !(aliases[0].writable && tables.multicore)
        && Revocable(aliases[1..], tables) by {
        RevocableParts(aliases[0], aliases[1..], tables);
      }
      RevocableParts(aliases[0].(writable := false), rest, tables);
    }
  }

  lemma RevocableParts(first: Alias, rest: seq<Alias>, tables: PageTables)
    ensures Revocable([first] + rest, tables) <==>
      (first.process, first.address) in tables.matching && !(first.writable && tables.multicore) && Revocable(rest, tables)
  {
    var all := [first] + rest;
    if Revocable(all, tables) {
      assert all[0] == first;
      forall i | 0 <= i < |rest|
        ensures (rest[i].process, rest[i].address) in tables.matching && !(rest[i].writable && tables.multicore)
      {
        assert all[i + 1] == rest[i];
      }
    }
  }

  ghost predicate AllRevocable(pages: Pages, identity: Identity, order: seq<nat>, tables: PageTables) {
    forall n :: n in order && PageKey(identity, n) in pages ==> Revocable(pages[PageKey(identity, n)].aliases, tables)
  }

  lemma {:induction false} ProtectPagesIff(pages: Pages, identity: Identity, order: seq<nat>, tables: PageTables)
    ensures ProtectPages(pages, identity, order, tables).1 <==> AllRevocable(pages, identity, order, tables)
    ensures ProtectPages(pages, identity, order, tables).1 ==>
      forall key :: key in pages && Revocable(pages[key].aliases, tables) ==>
        key in ProtectPages(pages, identity, order, tables).0
        && Revocable(ProtectPages(pages, identity, order, tables).0[key].aliases, tables)
    decreases |order|
  {
    hide Revocable, Protect;
    if order != [] {
      assert forall n :: n in order <==> n == order[0] || n in order[1..];
      var key := PageKey(identity, order[0]);
      if key !in pages {
        ProtectPagesIff(pages, identity, order[1..], tables);
      } else {
        ProtectIff(pages[key].aliases, tables);
        ProtectPagesIff(pages[key := pages[key].(aliases := Protect(pages[key].aliases, tables).0)], identity, order[1..], tables);
      }
    }
  }

  /** Every page of the inode can be protected. */
  ghost predicate InodeRevocable(s: State, identity: Identity, tables: PageTables) {
    forall key :: key in s.pages && key.identity == identity ==> Revocable(s.pages[key].aliases, tables)
  }

  lemma SnapshotRevocable(s: State, identity: Identity, order: seq<nat>, tables: PageTables)
    requires Snapshot(s.pages, identity, order)
    ensures AllRevocable(s.pages, identity, order, tables) <==> InodeRevocable(s, identity, tables)
  {
    hide Revocable;
    forall key | key in s.pages && key.identity == identity ensures key == PageKey(identity, key.index) && key.index in order {}
  }

  /** A truncation takes place exactly when the inode exists, is not pinned, every page can be protected and the backend agrees. */
  ghost predicate MayTruncate(s: State, identity: Identity, tables: PageTables, backend: bool) {
    identity in s.files && !Pinned(s.pins, identity) && InodeRevocable(s, identity, tables) && backend
  }

  lemma TruncateCoherent(s: State, identity: Identity, size: nat, order: seq<nat>, tables: PageTables, backend: bool)
    requires Coherent(s) && Snapshot(s.pages, identity, order)
    ensures Faithful(s, DoTruncate(s, identity, size, order, tables, backend))
    ensures var o := DoTruncate(s, identity, size, order, tables, backend);
      && (o.ok <==> MayTruncate(s, identity, tables, backend))
      && View(o.state) == if o.ok then View(s)[identity := Resize(View(s)[identity], size)] else View(s)
  {
    hide Revocable;
    if identity in s.files && !Pinned(s.pins, identity) {
      var (pages, done) := ProtectPages(s.pages, identity, order, tables);
      ProtectPagesKeep(s.pages, identity, order, tables);
      ProtectPagesIff(s.pages, identity, order, tables);
      SnapshotRevocable(s, identity, order, tables);
      RestrictedCoherent(s, pages);
      if done && backend {
        ResizedFaithful(s.(pages := pages), identity, size, s.files[identity].version + 1, true);
        ReplayAppend(View(s), SetLength(identity, size), []);
      }
    }
  }

  /** A write that does not start past EOF is one `Put` of the accepted bytes. */
  lemma AcceptedCoherent(s: State, identity: Identity, pos: nat, taken: seq<Byte>, version: nat)
    requires Coherent(s) && identity in s.files && !Pinned(s.pins, identity)
    requires pos <= |s.files[identity].bytes|
    ensures Faithful(s, Outcome(Accepted(s, identity, pos, taken, version), true, PutIfAny(identity, pos, taken)))
  {
    if taken == [] {
      NothingAccepted(s, identity, pos, version);
    } else if pos + |taken| > |s.files[identity].bytes| {
      GrownCoherent(s, identity, pos, taken, version);
      ReplayAppend(View(s), Put(identity, pos, taken), []);
    } else {
      OverlaidCoherent(s, identity, pos, taken, version);
      assert Overlaid(s, identity, pos, taken, version) == Accepted(s, identity, pos, taken, version);
      ReplayAppend(View(s), Put(identity, pos, taken), []);
    }
  }

  lemma NothingAccepted(s: State, identity: Identity, pos: nat, version: nat)
    requires Coherent(s) && identity in s.files && pos <= |s.files[identity].bytes|
    ensures Faithful(s, Outcome(Accepted(s, identity, pos, [], version), true, []))
  {
    var s' := Accepted(s, identity, pos, [], version);
    assert Splice(s.files[identity].bytes, pos, []) == s.files[identity].bytes;
    forall key | key in s.pages ensures PageCoherent(s', key) {
      assert PageCoherent(s, key);
    }
    SameView(s, s');
  }

  lemma GrownIsOverlaid(s: State, identity: Identity, pos: nat, taken: seq<Byte>, version: nat)
    requires Coherent(s) && identity in s.files && pos <= |s.files[identity].bytes| < pos + |taken|
    requires Coherent(Resized(s, identity, pos + |taken|, version))
    ensures |Resize(s.files[identity].bytes, pos + |taken|)| == pos + |taken|
    ensures Accepted(s, identity, pos, taken, version)
         == Overlaid(Resized(s, identity, pos + |taken|, version), identity, pos, taken, version)
  {
    SpliceGrown(s.files[identity].bytes, pos, taken, pos + |taken|);
  }

  lemma GrownCoherent(s: State, identity: Identity, pos: nat, taken: seq<Byte>, version: nat)
    requires Coherent(s) && identity in s.files && !Pinned(s.pins, identity)
    requires pos <= |s.files[identity].bytes| < pos + |taken|
    ensures Coherent(Accepted(s, identity, pos, taken, version))
    ensures View(Accepted(s, identity, pos, taken, version)) == Edited(View(s), Put(identity, pos, taken))
  {
    hide View, CompleteTruncate, UpdatePages, Edited;
    var grown := Resized(s, identity, pos + |taken|, version);
    ResizedCoherent(s, identity, pos + |taken|, version);
    GrownIsOverlaid(s, identity, pos, taken, version);
    OverlaidCoherent(grown, identity, pos, taken, version);
    GrownView(s, grown, Accepted(s, identity, pos, taken, version), identity, pos, taken);
  }

  lemma GrownView(s: State, grown: State, final: State, identity: Identity, pos: nat, taken: seq<Byte>)
    requires WholePages(s.pages) && WholePages(grown.pages) && WholePages(final.pages)
    requires identity in s.files && pos <= |s.files[identity].bytes| <= pos + |taken|
    requires View(grown) == Edited(View(s), SetLength(identity, pos + |taken|))
    requires View(final) == Edited(View(grown), Put(identity, pos, taken))
    ensures View(final) == Edited(View(s), Put(identity, pos, taken))
  {
    EditsGrown(View(s), identity, pos, taken);
  }

  lemma EditsGrown(flat: Flat, identity: Identity, pos: nat, data: seq<Byte>)
    requires identity in flat && pos <= |flat[identity]| <= pos + |data|
    ensures Edited(Edited(flat, SetLength(identity, pos + |data|)), Put(identity, pos, data))
         == Edited(flat, Put(identity, pos, data))
  {
    SpliceGrown(flat[identity], pos, data, pos + |data|);
  }

  lemma ReplayAppend(flat: Flat, first: Edit, rest: seq<Edit>)
    ensures Replay(flat, [first] + rest) == Replay(Edited(flat, first), rest)
    ensures Replay(flat, [first]) == Edited(flat, first)
  {
    assert ([first] + rest)[1..] == rest;
  }

  lemma WriteProtectedCoherent(s: State, identity: Identity, pos: nat, data: seq<Byte>, gap: nat, accepted: nat)
    requires Coherent(s) && identity in s.files && !Pinned(s.pins, identity)
    ensures Faithful(s, WriteProtected(s, identity, pos, data, gap, accepted))
  {
    hide Faithful, CompleteTruncate, UpdatePages, Splice, Resize, Resized, Accepted;
    var size, version := |s.files[identity].bytes|, s.files[identity].version;
    var taken := data[..Min(accepted, |data|)];
    if pos <= size {
      AcceptedCoherent(s, identity, pos, taken, if taken != [] then version + 1 else version);
    } else if 0 < gap && size + gap < pos {
      ResizedFaithful(s, identity, size + gap, version + 1, false);
    } else if 0 < gap {
      GapWriteCoherent(s, identity, pos, taken, version + 1);
    } else {
      Unchanged(s, false);
    }
  }

  lemma Unchanged(s: State, ok: bool)
    requires Coherent(s)
    ensures Faithful(s, Outcome(s, ok, []))
  {
  }

  lemma ResizedFaithful(s: State, identity: Identity, size: nat, version: nat, ok: bool)
    requires Coherent(s) && identity in s.files && !Pinned(s.pins, identity)
    requires size < |s.files[identity].bytes| ==>
      forall key :: key in s.pages && key.identity == identity ==> !Writable(s.pages[key].aliases)
    ensures Faithful(s, Outcome(Resized(s, identity, size, version), ok, [SetLength(identity, size)]))
  {
    ResizedCoherent(s, identity, size, version);
    ReplayAppend(View(s), SetLength(identity, size), []);
  }

  lemma GapWriteCoherent(s: State, identity: Identity, pos: nat, taken: seq<Byte>, version: nat)
    requires Coherent(s) && identity in s.files && !Pinned(s.pins, identity) && pos > |s.files[identity].bytes|
    ensures WholePages(Resized(s, identity, pos, version).pages)
    ensures |Resize(s.files[identity].bytes, pos)| == pos
    ensures Faithful(s, Outcome(Accepted(Resized(s, identity, pos, version), identity, pos, taken, version), true,
                                [SetLength(identity, pos)] + PutIfAny(identity, pos, taken)))
  {
    ResizedCoherent(s, identity, pos, version);
    AcceptedCoherent(Resized(s, identity, pos, version), identity, pos, taken, version);
    ReplayAppend(View(s), SetLength(identity, pos), PutIfAny(identity, pos, taken));
  }

  /** The write `[pos, pos + length)` touches the page. */
  predicate Meets(key: PageKey, pos: nat, length: nat) {
    pos < key.Offset() + PAGE_SIZE && key.Offset() < pos + length
  }

  lemma TouchedMeets(pos: nat, length: nat, n: nat)
    requires length > 0
    ensures n in Touched(pos, length) <==> Meets(PageKey(0, n), pos, length)
  {
    var first, last := pos / PAGE_SIZE, (pos + length - 1) / PAGE_SIZE;
    var touched := Touched(pos, length);
    assert first <= last;
    if first <= n <= last {
      assert touched[n - first] == n;
    }
  }

  /**
   A regular write takes place exactly when the inode exists and is not pinned and the pages it touches can be
   protected; one that starts past EOF needs that of all pages of the inode.
   */
  ghost predicate MayWrite(s: State, identity: Identity, pos: nat, data: seq<Byte>, tables: PageTables) {
    && identity in s.files && !Pinned(s.pins, identity)
    && forall key :: key in s.pages && key.identity == identity ==>
         pos > |s.files[identity].bytes| || Meets(key, pos, |data|) ==> Revocable(s.pages[key].aliases, tables)
  }

  /**
   What readers see of a write and whether it succeeds: the accepted prefix of the data stands at `pos`, behind the zeros
   that fill a gap; if the backend does not fill the gap the file only grows by what it took.
   */
  ghost predicate WritesData(s: State, o: Outcome, identity: Identity, pos: nat, data: seq<Byte>, tables: PageTables,
                             gap: nat, accepted: nat)
    requires WholePages(s.pages) && WholePages(o.state.pages)
  {
    if data == [] || !MayWrite(s, identity, pos, data, tables) then (o.ok <==> data == []) && View(o.state) == View(s)
    else
      var seen := View(s)[identity];
      if pos <= |seen| then o.ok && View(o.state) == View(s)[identity := Splice(seen, pos, data[..Min(accepted, |data|)])]
      else if |seen| + gap < pos then !o.ok && View(o.state) == View(s)[identity := Resize(seen, |seen| + gap)]
      else
        ResizedBytes(seen, pos);
        o.ok && View(o.state) == View(s)[identity := Splice(Resize(seen, pos), pos, data[..Min(accepted, |data|)])]
  }

  lemma ProtectsTouched(s: State, cleared: Pages, identity: Identity, pos: nat, data: seq<Byte>, order: seq<nat>, tables: PageTables)
    requires identity in s.files && !Pinned(s.pins, identity) && data != [] && Snapshot(s.pages, identity, order)
    requires cleared == if pos > |s.files[identity].bytes| then ProtectPages(s.pages, identity, order, tables).0 else s.pages
    ensures MayWrite(s, identity, pos, data, tables) <==>
      (pos > |s.files[identity].bytes| ==> ProtectPages(s.pages, identity, order, tables).1)
      && ProtectPages(cleared, identity, Touched(pos, |data|), tables).1
  {
    hide Revocable, ProtectPages, Touched;
    var touched := Touched(pos, |data|);
    ProtectPagesIff(s.pages, identity, order, tables);
    ProtectPagesIff(cleared, identity, touched, tables);
    ProtectPagesKeep(s.pages, identity, order, tables);
    SnapshotRevocable(s, identity, order, tables);
    forall key: PageKey | key.identity == identity
      ensures key == PageKey(identity, key.index) && (key.index in touched <==> Meets(key, pos, |data|))
    {
      TouchedMeets(pos, |data|, key.index);
    }
    if pos <= |s.files[identity].bytes| {
      assert MayWrite(s, identity, pos, data, tables) <==> AllRevocable(s.pages, identity, touched, tables);
    }
  }

  lemma PutView(flat: Flat, identity: Identity, pos: nat, taken: seq<Byte>)
    requires identity in flat && pos <= |flat[identity]|
    ensures Replay(flat, PutIfAny(identity, pos, taken)) == flat[identity := Splice(flat[identity], pos, taken)]
  {
    if taken == [] {
      assert Splice(flat[identity], pos, []) == flat[identity];
      assert flat[identity := flat[identity]] == flat;
    } else {
      ReplayAppend(flat, Put(identity, pos, taken), []);
    }
  }

  lemma WriteProtectedData(s: State, identity: Identity, pos: nat, data: seq<Byte>, gap: nat, accepted: nat)
    requires Coherent(s) && identity in s.files && !Pinned(s.pins, identity)
    ensures var o, seen := WriteProtected(s, identity, pos, data, gap, accepted), View(s)[identity];
      WholePages(o.state.pages) &&
      if pos <= |seen| then o.ok && View(o.state) == View(s)[identity := Splice(seen, pos, data[..Min(accepted, |data|)])]
      else if |seen| + gap < pos then !o.ok && View(o.state) == View(s)[identity := Resize(seen, |seen| + gap)]
      else (ResizedBytes(seen, pos);
            o.ok && View(o.state) == View(s)[identity := Splice(Resize(seen, pos), pos, data[..Min(accepted, |data|)])])
  {
    hide View, WriteProtected, Splice, Resize, Replay;
    var o, flat := WriteProtected(s, identity, pos, data, gap, accepted), View(s);
    SeenLength(s, identity);
    var seen, taken := flat[identity], data[..Min(accepted, |data|)];
    WriteProtectedCoherent(s, identity, pos, data, gap, accepted);
    WriteEdits(s, identity, pos, data, gap, accepted);
    if pos <= |seen| {
      PutView(flat, identity, pos, taken);
    } else if |seen| + gap < pos {
      if gap == 0 { GrownByNothing(flat, identity); } else { ReplayAppend(flat, SetLength(identity, |seen| + gap), []); }
    } else {
      ResizedBytes(seen, pos);
      ReplayAppend(flat, SetLength(identity, pos), PutIfAny(identity, pos, taken));
      PutView(flat[identity := Resize(seen, pos)], identity, pos, taken);
    }
  }

  lemma SeenLength(s: State, identity: Identity)
    requires WholePages(s.pages) && identity in s.files
    ensures identity in View(s) && |View(s)[identity]| == |s.files[identity].bytes|
  {
  }

  lemma GrownByNothing(flat: Flat, identity: Identity)
    requires identity in flat
    ensures flat[identity := Resize(flat[identity], |flat[identity]|)] == flat && Replay(flat, []) == flat
  {
    assert Resize(flat[identity], |flat[identity]|) == flat[identity];
  }

  lemma WriteEdits(s: State, identity: Identity, pos: nat, data: seq<Byte>, gap: nat, accepted: nat)
    requires WholePages(s.pages) && identity in s.files
    ensures var o, size := WriteProtected(s, identity, pos, data, gap, accepted), |s.files[identity].bytes|;
      var taken := data[..Min(accepted, |data|)];
      && (o.ok <==> pos <= size || size + gap >= pos)
      && o.edits == if pos <= size then PutIfAny(identity, pos, taken)
                    else if size + gap >= pos then [SetLength(identity, pos)] + PutIfAny(identity, pos, taken)
                    else if gap > 0 then [SetLength(identity, size + gap)] else []
  {
    hide CompleteTruncate, UpdatePages;
  }

  lemma WriteCoherent(s: State, identity: Identity, pos: nat, data: seq<Byte>, order: seq<nat>,
                      tables: PageTables, gap: nat, accepted: nat)
    requires Coherent(s) && Snapshot(s.pages, identity, order)
    ensures Faithful(s, DoWrite(s, identity, pos, data, order, tables, gap, accepted))
    ensures WritesData(s, DoWrite(s, identity, pos, data, order, tables, gap, accepted), identity, pos, data, tables, gap, accepted)
  {
    hide ProtectPages, WriteProtected, MayWrite, View, Splice, Resize, Snapshot, Touched;
    if identity in s.files && !Pinned(s.pins, identity) && data != [] {
      var (cleared, proceed) := if pos > |s.files[identity].bytes|
                                then ProtectPages(s.pages, identity, order, tables) else (s.pages, true);
      ProtectPagesKeep(s.pages, identity, order, tables);
      RestrictedCoherent(s, cleared);
      if proceed {
        var (pages, ready) := ProtectPages(cleared, identity, Touched(pos, |data|), tables);
        ProtectPagesKeep(cleared, identity, Touched(pos, |data|), tables);
        RestrictedCoherent(s.(pages := cleared), pages);
        if ready {
          WriteProtectedCoherent(s.(pages := pages), identity, pos, data, gap, accepted);
          WriteProtectedData(s.(pages := pages), identity, pos, data, gap, accepted);
        }
      }
      ProtectsTouched(s, cleared, identity, pos, data, order, tables);
    } else {
      NotWritten(s, identity, pos, data, tables);
    }
  }

  lemma NotWritten(s: State, identity: Identity, pos: nat, data: seq<Byte>, tables: PageTables)
    requires identity !in s.files || Pinned(s.pins, identity) || data == []
    ensures data == [] || !MayWrite(s, identity, pos, data, tables)
  {
  }

  lemma PinCoherent(s: State, pin: Pin, order: seq<nat>, tables: PageTables)
    requires Coherent(s) && Snapshot(s.pages, pin.identity, order)
    ensures Faithful(s, DoPin(s, pin, order, tables))
  {
    var o := DoPin(s, pin, order, tables);
    var pages := ProtectPages(s.pages, pin.identity, order, tables).0;
    ProtectPagesKeep(s.pages, pin.identity, order, tables);
    RestrictedCoherent(s, pages);
    if o.ok {
      var guarded := s.(pages := pages);
      forall key | key in pages ensures PageCoherent(o.state, key) {
        assert PageCoherent(guarded, key);
        assert Pinned(o.state.pins, key.identity) ==> key.identity == pin.identity || Pinned(s.pins, key.identity) by {
          assert o.state.pins[1..] == s.pins;
        }
      }
      SameView(guarded, o.state);
    }
  }

  lemma PinSectionsCoherent(s: State, a: Action)
    requires Coherent(s)
    requires a.UnpinMapped? || a.ClonePins? || a.UnpinAll? || a.TransferPins?
    ensures Faithful(s, Apply(s, a))
  {
    var pins := Apply(s, a).state.pins;
    forall identity | Pinned(pins, identity) ensures Pinned(s.pins, identity) {
      var i :| 0 <= i < |pins| && pins[i].identity == identity;
      match a
      case UnpinMapped(process, unpinned) => RemovedPins(s.pins, process, unpinned);
      case UnpinAll(process) => RemovedPins(s.pins, process, identity);
      case TransferPins(source, destination) => TransferredPins(s.pins, source, destination, identity);
      case ClonePins(parent, child, budget) =>
        ClonedPins(s.pins, parent, child, budget);
        var clones := Clones(s.pins, parent, child, budget);
        if i < |clones| {
          assert clones[i] in clones;
        } else {
          assert pins[i] == s.pins[i - |clones|];
        }
    }
    RepinnedCoherent(s, pins);
  }

  /**
   Every section keeps coherence, and readers observe exactly the edits it reports; a failed fork must find the pages
   it makes writable again still dirty.
   */
  lemma SectionFaithful(s: State, a: Action)
    requires Coherent(s) && Honest(s, a) && StillDirty(s, a)
    ensures Faithful(s, Apply(s, a))
  {
    hide Faithful, DoPublish, DoMap, DoUnregister, DoResolveWrite, DoUserStore, DoFlush, DoWrite, DoTruncate, DoPin,
      DoEvict, DoForget, DoForkProtect, DoForkRestore, Restorable, Clones, Transferred, RemoveMapped, RemoveProcess, MappedPins;
    match a
    case Publish(_) => TableSectionsCoherent(s, a);
    case Evict(_) => TableSectionsCoherent(s, a);
    case Forget(_) => TableSectionsCoherent(s, a);
    case Map(_, _, _) => AliasSectionsCoherent(s, a);
    case Unregister(_, _, _) => AliasSectionsCoherent(s, a);
    case ResolveWrite(_, _, _) => AliasSectionsCoherent(s, a);
    case UserStore(key, process, address, at, value) => StoreCoherent(s, key, process, address, at, value);
    case Flush(key, tables, written) => FlushCoherent(s, key, tables, written);
    case Write(identity, pos, data, order, tables, gap, accepted) =>
      WriteCoherent(s, identity, pos, data, order, tables, gap, accepted);
    case Truncate(identity, size, order, tables, backend) => TruncateCoherent(s, identity, size, order, tables, backend);
    case PinImage(process, identity, expected, order, tables) =>
      PinCoherent(s, Pin(process, identity, false), order, tables);
      Unchanged(s, false);
    case PinMapped(process, identity, order, tables) =>
      PinCoherent(s, Pin(process, identity, true), order, tables);
      Unchanged(s, false);
      Unchanged(s, true);
    case UnpinMapped(_, _) => PinSectionsCoherent(s, a);
    case ClonePins(_, _, _) => PinSectionsCoherent(s, a);
    case UnpinAll(_) => PinSectionsCoherent(s, a);
    case TransferPins(_, _) => PinSectionsCoherent(s, a);
    case ForkProtect(_, _) => ForkSectionsCoherent(s, a);
    case ForkRestore(_) => ForkSectionsCoherent(s, a);
    case ForkDone(_) => ForkSectionsCoherent(s, a);
  }

  // ---- Whole runs ----

  /** Every snapshot the run takes is honest in the state where it is taken. */
  ghost predicate HonestRun(s: State, run: seq<Action>)
    requires WholePages(s.pages)
    decreases |run|
  {
    run == [] || (Honest(s, run[0]) && (SectionWhole(s, run[0]); HonestRun(Apply(s, run[0]).state, run[1..])))
  }

  /** Whatever failed forks of the run make writable again is still dirty then. */
  ghost predicate DirtyRestores(s: State, run: seq<Action>)
    requires WholePages(s.pages)
    decreases |run|
  {
    run == [] || (StillDirty(s, run[0]) && (SectionWhole(s, run[0]); DirtyRestores(Apply(s, run[0]).state, run[1..])))
  }

  /** The state and all reported edits after a run. */
  ghost function After(s: State, run: seq<Action>): (State, seq<Edit>)
    requires WholePages(s.pages)
    decreases |run|
  {
    if run == [] then (s, [])
    else
      SectionWhole(s, run[0]);
      var o := Apply(s, run[0]);
      var (final, edits) := After(o.state, run[1..]);
      (final, o.edits + edits)
  }

  lemma {:induction false} ReplayConcat(flat: Flat, first: seq<Edit>, second: seq<Edit>)
    ensures Replay(flat, first + second) == Replay(Replay(flat, first), second)
    decreases |first|
  {
    if first == [] {
      assert first + second == second;
    } else {
      assert (first + second)[1..] == first[1..] + second;
      ReplayConcat(Edited(flat, first[0]), first[1..], second);
    }
  }

  /**
   The shared-page machine refines the flat file system: however mapping, first writes, stores,
   regular writes, truncation, short flushes, eviction, pinning and forks interleave, the table stays
   coherent and readers see the flat files with the reported edits applied in order, as long as failed
   forks find the pages they make writable again still dirty.
   */
  lemma {:induction false} RunsRefineFlatFiles(s: State, run: seq<Action>)
    requires Coherent(s) && HonestRun(s, run) && DirtyRestores(s, run)
    ensures Coherent(After(s, run).0)
    ensures View(After(s, run).0) == Replay(View(s), After(s, run).1)
    decreases |run|
  {
    if run != [] {
      SectionFaithful(s, run[0]);
      var o := Apply(s, run[0]);
      RunsRefineFlatFiles(o.state, run[1..]);
      ReplayConcat(View(s), o.edits, After(o.state, run[1..]).1);
    }
  }

  /**
   No flush in a coherent state meets a page it cannot write: a failed flush is the machine's or the backend's doing
   and leaves the page dirty with its inode retained. After a successful one the page is clean and the backend has
   its bytes, at a new version and the same size.
   */
  lemma FlushReachesBackend(s: State, key: PageKey, tables: PageTables, written: nat)
    requires Coherent(s) && key in s.pages && s.pages[key].dirty
    requires Protect(s.pages[key].aliases, tables).1
    ensures key.identity in s.files && key.Offset() < |s.files[key.identity].bytes|
    ensures DoFlush(s, key, tables, written).ok <==>
      written >= Min(PAGE_SIZE, |s.files[key.identity].bytes| - key.Offset())
    ensures var o := DoFlush(s, key, tables, written);
      && key in o.state.pages && key.identity in o.state.files
      && o.state.pages[key].bytes == s.pages[key].bytes && !Writable(o.state.pages[key].aliases)
      && |o.state.files[key.identity].bytes| == |s.files[key.identity].bytes|
      && (o.ok ==>
            && !o.state.pages[key].dirty && o.state.pages[key].dirtyInode == None
            && Agrees(o.state.pages[key].bytes, o.state.files[key.identity].bytes, key.Offset())
            && o.state.files[key.identity].version == s.files[key.identity].version + 1)
      && (!o.ok ==> o.state.pages[key].dirty && o.state.pages[key].dirtyInode == Some(key.identity))
  {
    assert PageCoherent(s, key);
    ProtectKeeps(s.pages[key].aliases, tables);
    FlushCoherent(s, key, tables, written);
    var o := DoFlush(s, key, tables, written);
    assert PageCoherent(o.state, key);
  }
}
