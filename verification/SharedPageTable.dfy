/**
 The shared-page sections as the kernel runs them: loops over alias lists, touched pages and the
 pin list, updating the table in place. Each method is proved against the section it implements.
 */
module SharedPageTable {
  import opened FileBytes
  import opened SharedPages
  import opened SharedPageCoherence
  import opened ExecutablePins

  /** Unpinning a mapped file takes the first pin of the pair. */
  lemma {:induction false} RemovedFirst(pins: seq<Pin>, process: Process, identity: Identity, i: nat)
    requires i <= |pins| && (i < |pins| ==> pins[i] == Pin(process, identity, true))
    requires forall k :: 0 <= k < i ==> pins[k] != Pin(process, identity, true)
    ensures RemoveMapped(pins, process, identity) == pins[..i] + (if i < |pins| then pins[i + 1..] else [])
    decreases i
  {
    if i > 0 {
      var rest := pins[1..];
      RemovedFirst(rest, process, identity, i - 1);
      assert rest[..i - 1] == pins[1..i] && [pins[0]] + pins[1..i] == pins[..i];
      if i < |pins| {
        assert rest[i..] == pins[i + 1..];
      }
    }
  }

  class SharedFilePages {
    var files: map<Identity, File>
    var pages: Pages
    var pins: seq<Pin>
    var forked: set<Downgrade>

    ghost function Model(): State
      reads this
    {
      State(files, pages, pins, forked)
    }

    constructor (files: map<Identity, File>)
      ensures Model() == State(files, map[], [], {})
      ensures Coherent(Model())
    {
      this.files := files;
      pages := map[];
      pins := [];
      forked := {};
    }

    /** Revokes write permission alias by alias, stopping at the first one that cannot be revoked. */
    method ProtectSharedFileAliases(key: PageKey, tables: PageTables) returns (done: bool)
      requires key in pages
      modifies this`pages
      ensures pages == old(pages)[key := old(pages)[key].(aliases := Protect(old(pages)[key].aliases, tables).0)]
      ensures done == Protect(old(pages)[key].aliases, tables).1
    {
      var guarded: seq<Alias> := [];
      var rest := pages[key].aliases;
      done := true;
      while rest != [] && done
        invariant Protect(pages[key].aliases, tables).0 == guarded + if done then Protect(rest, tables).0 else rest
        invariant Protect(pages[key].aliases, tables).1 == (done && Protect(rest, tables).1)
        decreases |rest|, done
      {
        var alias := rest[0];
        if (alias.process, alias.address) !in tables.matching || (alias.writable && tables.multicore) {
          done := false;
        } else {
          guarded := guarded + [alias.(writable := false)];
          rest := rest[1..];
        }
      }
      pages := pages[key := pages[key].(aliases := guarded + rest)];
    }

    /** Protects the listed pages of one inode. */
    method ProtectListed(identity: Identity, order: seq<nat>, tables: PageTables) returns (done: bool)
      modifies this`pages
      ensures (pages, done) == ProtectPages(old(pages), identity, order, tables)
    {
      var i := 0;
      while i < |order|
        invariant 0 <= i <= |order|
        invariant ProtectPages(old(pages), identity, order, tables) == ProtectPages(pages, identity, order[i..], tables)
      {
        var key := PageKey(identity, order[i]);
        assert order[i..][0] == order[i] && order[i..][1..] == order[i + 1..];
        if key in pages {
          var revoked := ProtectSharedFileAliases(key, tables);
          if !revoked {
            return false;
          }
        }
        i := i + 1;
      }
      assert order[i..] == [];
      return true;
    }

    /** Walks the pages a write touches, one page-aligned offset at a time. */
    method PrepareSharedFileWrite(identity: Identity, position: nat, length: nat, tables: PageTables) returns (done: bool)
      modifies this`pages
      ensures length == 0 ==> pages == old(pages) && done
      ensures length > 0 ==> (pages, done) == ProtectPages(old(pages), identity, Touched(position, length), tables)
    {
      if length == 0 {
        return true;
      }
      hide Protect;
      var end := position + length;
      var index := position / PAGE_SIZE;
      ghost var rest := Touched(position, length);
      while true
        invariant 0 < |rest| && rest[0] == index && rest[|rest| - 1] == (end - 1) / PAGE_SIZE
        invariant forall i :: 0 <= i < |rest| ==> rest[i] == index + i
        invariant ProtectPages(old(pages), identity, Touched(position, length), tables)
               == ProtectPages(pages, identity, rest, tables)
        decreases |rest|
      {
        var key := PageKey(identity, index);
        if key in pages {
          var revoked := ProtectSharedFileAliases(key, tables);
          if !revoked {
            return false;
          }
        }
        LastPage(end, index);
        rest := rest[1..];
        if end - index * PAGE_SIZE <= PAGE_SIZE {
          return true;
        }
        index := index + 1;
      }
    }

    /** Copies the accepted bytes into the published pages, chunk by chunk. */
    method UpdateSharedFilePages(identity: Identity, position: nat, data: seq<Byte>)
      requires WholePages(pages)
      modifies this`pages
      ensures pages == UpdatePages(old(pages), identity, position, data)
    {
      var done := 0;
      assert forall key :: key in pages ==> OverlaidBytes(pages[key].bytes, key.Offset(), position, []) == pages[key].bytes;
      assert data[..0] == [];
      while done < |data|
        invariant 0 <= done <= |data|
        invariant WholePages(pages)
        invariant pages == UpdatePages(old(pages), identity, position, data[..done])
      {
        var at := position + done;
        var index := at / PAGE_SIZE;
        var within := at % PAGE_SIZE;
        var chunk := Min(|data| - done, PAGE_SIZE - within);
        var key := PageKey(identity, index);
        ghost var before := pages;
        if key in pages {
          var bytes := pages[key].bytes;
          pages := pages[key := pages[key].(bytes := bytes[..within] + data[done..done + chunk] + bytes[within + chunk..])];
        }
        OverlayChunk(old(pages), before, pages, identity, position, data, done, chunk);
        done := done + chunk;
      }
      assert data[..done] == data;
    }

    /** Visits every Ready page of the inode after the backend changed its size. */
    method CompleteSharedFileTruncate(identity: Identity, oldSize: nat, newSize: nat)
      requires WholePages(pages)
      modifies this`pages
      ensures pages == CompleteTruncate(old(pages), identity, oldSize, newSize)
    {
      var todo := pages.Keys;
      while todo != {}
        invariant todo <= pages.Keys == old(pages).Keys
        invariant forall key :: key in todo ==> pages[key] == old(pages)[key]
        invariant forall key :: key in pages && key !in todo ==>
          pages[key] == CompleteTruncate(old(pages), identity, oldSize, newSize)[key]
        decreases |todo|
      {
        var key :| key in todo;
        todo := todo - {key};
        if key.identity == identity {
          pages := pages[key := TruncatedPage(pages[key], key.Offset(), oldSize, newSize)];
        }
      }
    }

    method FlushSharedFilePage(key: PageKey, tables: PageTables, written: nat) returns (ok: bool)
      requires Coherent(Model())
      modifies this`pages, this`files
      ensures Model() == DoFlush(old(Model()), key, tables, written).state
      ensures ok == DoFlush(old(Model()), key, tables, written).ok
      ensures Coherent(Model()) && View(Model()) == View(old(Model()))
    {
      FlushCoherent(Model(), key, tables, written);
      if key !in pages || !pages[key].dirty {
        return true;
      }
      if pages[key].dirtyInode != Some(key.identity) || key.identity !in files {
        return false;
      }
      assert PageCoherent(Model(), key);
      var revoked := ProtectSharedFileAliases(key, tables);
      if !revoked {
        return false;
      }
      var file := files[key.identity];
      if key.Offset() >= |file.bytes| {
        return false;
      }
      var length := Min(PAGE_SIZE, |file.bytes| - key.Offset());
      var taken := Min(written, length);
      files := files[key.identity := File(Splice(file.bytes, key.Offset(), pages[key].bytes[..taken]),
                                          if taken > 0 then file.version + 1 else file.version)];
      if taken != length {
        return false;
      }
      pages := pages[key := pages[key].(dirty := false, dirtyInode := None)];
      return true;
    }

    /** Protects every shared page before the backend changes size; a failure leaves the inode unchanged. */
    method TruncateInode(identity: Identity, size: nat, order: seq<nat>, tables: PageTables, backend: bool)
      returns (ok: bool)
      requires Coherent(Model()) && Snapshot(pages, identity, order)
      modifies this`pages, this`files
      ensures Model() == DoTruncate(old(Model()), identity, size, order, tables, backend).state
      ensures ok == DoTruncate(old(Model()), identity, size, order, tables, backend).ok
      ensures Coherent(Model()) && (ok <==> MayTruncate(old(Model()), identity, tables, backend))
      ensures View(Model()) ==
        if ok then View(old(Model()))[identity := Resize(View(old(Model()))[identity], size)] else View(old(Model()))
    {
      TruncateCoherent(Model(), identity, size, order, tables, backend);
      hide Coherent, MayTruncate, View, ProtectPages, CompleteTruncate, Resize;
      if identity !in files {
        return false;
      }
      var pinned := ExecutableFilePinned(identity);
      if pinned {
        return false;
      }
      ProtectPagesKeep(pages, identity, order, tables);
      var done := ProtectListed(identity, order, tables);
      if !done || !backend {
        return false;
      }
      var file := files[identity];
      files := files[identity := File(Resize(file.bytes, size), file.version + 1)];
      CompleteSharedFileTruncate(identity, |file.bytes|, size);
      return true;
    }

    /** `Filesys::Write` on a regular file; `gap` and `accepted` are what the backend takes. */
    method WriteRegularFile(identity: Identity, pos: nat, data: seq<Byte>, order: seq<nat>, tables: PageTables,
                            gap: nat, accepted: nat) returns (ok: bool)
      requires Coherent(Model()) && Snapshot(pages, identity, order)
      modifies this`pages, this`files
      ensures Model() == DoWrite(old(Model()), identity, pos, data, order, tables, gap, accepted).state
      ensures ok == DoWrite(old(Model()), identity, pos, data, order, tables, gap, accepted).ok
      ensures Faithful(old(Model()), DoWrite(old(Model()), identity, pos, data, order, tables, gap, accepted))
      ensures Coherent(Model()) && WritesData(old(Model()), Outcome(Model(), ok, []), identity, pos, data, tables, gap, accepted)
    {
      WriteCoherent(Model(), identity, pos, data, order, tables, gap, accepted);
      hide Faithful, Coherent, MayWrite, View, ProtectPages, CompleteTruncate, UpdatePages, Splice, Resize;
      if identity !in files || data == [] {
        return data == [];
      }
      var pinned := ExecutableFilePinned(identity);
      if pinned {
        return false;
      }
      var size, version := |files[identity].bytes|, files[identity].version;
      if pos > size {
        ProtectPagesKeep(pages, identity, order, tables);
        var cleared := ProtectListed(identity, order, tables);
        if !cleared {
          return false;
        }
      }
      ProtectPagesKeep(pages, identity, Touched(pos, |data|), tables);
      var ready := PrepareSharedFileWrite(identity, pos, |data|, tables);
      if !ready {
        return false;
      }
      ok := WriteProtectedPages(identity, pos, data, gap, accepted);
    }

    /** The backend part of a write, once every touched page is protected. */
    method WriteProtectedPages(identity: Identity, pos: nat, data: seq<Byte>, gap: nat, accepted: nat)
      returns (ok: bool)
      requires WholePages(pages) && identity in files
      modifies this`pages, this`files
      ensures Model() == WriteProtected(old(Model()), identity, pos, data, gap, accepted).state
      ensures ok == WriteProtected(old(Model()), identity, pos, data, gap, accepted).ok
    {
      hide CompleteTruncate, UpdatePages;
      var version := files[identity].version;
      var taken := data[..Min(accepted, |data|)];
      var fill := pos > |files[identity].bytes|;
      if fill {
        if gap == 0 {
          return false;
        }
        var size := |files[identity].bytes|;
        var filled := Min(size + gap, pos);
        CompleteTruncateWhole(pages, identity, size, filled);
        CompleteSharedFileTruncate(identity, size, filled);
        files := files[identity := File(Resize(files[identity].bytes, filled), version + 1)];
        if filled < pos {
          return false;
        }
      }
      var base := files[identity].bytes;
      if taken != [] {
        if pos + |taken| > |base| {
          CompleteTruncateWhole(pages, identity, |base|, pos + |taken|);
          CompleteSharedFileTruncate(identity, |base|, pos + |taken|);
        }
        UpdateSharedFilePages(identity, pos, taken);
      }
      files := files[identity := File(Splice(base, pos, taken), if taken != [] || fill then version + 1 else version)];
      return true;
    }

    method ResolveSharedFileWrite(key: PageKey, process: Process, address: Address) returns (ok: bool)
      requires Coherent(Model())
      modifies this`pages
      ensures Model() == DoResolveWrite(old(Model()), key, process, address).state
      ensures ok == DoResolveWrite(old(Model()), key, process, address).ok
      ensures Coherent(Model()) && View(Model()) == View(old(Model()))
    {
      AliasSectionsCoherent(Model(), ResolveWrite(key, process, address));
      if key !in pages || key.identity !in files {
        return false;
      }
      var pinned := ExecutableFilePinned(key.identity);
      if pinned || key.Offset() >= |files[key.identity].bytes| {
        return false;
      }
      var page := pages[key];
      var registered, writable := false, false;
      var i := 0;
      while i < |page.aliases|
        invariant 0 <= i <= |page.aliases|
        invariant registered <==> Registered(page.aliases[..i], process, address)
        invariant writable <==> WritableAt(page.aliases[..i], process, address)
      {
        var alias := page.aliases[i];
        ghost var seen, next := page.aliases[..i], page.aliases[..i + 1];
        assert next == seen + [alias];
        if alias.process == process && alias.address == address {
          registered := true;
          writable := writable || alias.writable;
          assert next[i] == alias;
        }
        assert Registered(seen, process, address) ==> Registered(next, process, address) by {
          if j :| 0 <= j < |seen| && seen[j].process == process && seen[j].address == address {
            assert next[j] == seen[j];
          }
        }
        assert WritableAt(seen, process, address) ==> WritableAt(next, process, address) by {
          if j :| 0 <= j < |seen| && seen[j] == Alias(process, address, true) {
            assert next[j] == seen[j];
          }
        }
        i := i + 1;
      }
      assert page.aliases[..i] == page.aliases;
      if !registered || writable {
        return false;
      }
      pages := pages[key := page.(dirtyInode := Some(key.identity), dirty := true,
                                  aliases := MadeWritable(page.aliases, process, address))];
      return true;
    }

    // ---- Fork ----

    /** Makes a writable leaf entry of the forking process read-only. */
    method ProtectParentEntry(entry: Downgrade, multicore: bool) returns (ok: bool)
      requires Coherent(Model())
      modifies this`pages, this`forked
      ensures Model() == DoForkProtect(old(Model()), entry, multicore).state
      ensures ok == DoForkProtect(old(Model()), entry, multicore).ok
      ensures Coherent(Model()) && View(Model()) == View(old(Model()))
    {
      ForkProtectCoherent(Model(), entry, multicore);
      if entry.key !in pages || !WritableAt(pages[entry.key].aliases, entry.process, entry.address) || multicore {
        return false;
      }
      var page := pages[entry.key];
      pages := pages[entry.key := page.(aliases := MadeReadOnly(page.aliases, entry.process, entry.address))];
      forked := forked + {entry};
      return true;
    }

    /** `discard_child`: every entry that still maps its page becomes writable again. */
    method RestoreParentEntries(entries: seq<Downgrade>)
      modifies this`pages, this`forked
      ensures Model() == RestoreAll(old(Model()), entries)
    {
      var i := 0;
      while i < |entries|
        invariant 0 <= i <= |entries|
        invariant RestoreAll(old(Model()), entries) == RestoreAll(Model(), entries[i..])
        invariant files == old(files) && pins == old(pins)
      {
        var entry := entries[i];
        assert entries[i..][0] == entry && entries[i..][1..] == entries[i + 1..];
        if entry in forked && entry.key in pages && Registered(pages[entry.key].aliases, entry.process, entry.address)
           && !WritableAt(pages[entry.key].aliases, entry.process, entry.address) {
          var page := pages[entry.key];
          pages := pages[entry.key := page.(aliases := MadeWritable(page.aliases, entry.process, entry.address))];
        }
        forked := forked - {entry};
        i := i + 1;
      }
    }

    // ---- The pin list ----

    method ExecutableFilePinned(identity: Identity) returns (pinned: bool)
      ensures pinned <==> Pinned(pins, identity)
    {
      var i := 0;
      while i < |pins|
        invariant 0 <= i <= |pins|
        invariant forall j :: 0 <= j < i ==> pins[j].identity != identity
      {
        if pins[i].identity == identity {
          return true;
        }
        i := i + 1;
      }
      return false;
    }

    method HoldsMappedPin(process: Process, identity: Identity) returns (held: bool)
      ensures held <==> MappedPins(pins, process, identity) > 0
    {
      var i := 0;
      while i < |pins|
        invariant 0 <= i <= |pins|
        invariant MappedPins(pins, process, identity) == MappedPins(pins[i..], process, identity)
      {
        assert pins[i..][0] == pins[i] && pins[i..][1..] == pins[i + 1..];
        if pins[i] == Pin(process, identity, true) {
          return true;
        }
        i := i + 1;
      }
      return false;
    }

    method AllClean(identity: Identity, order: seq<nat>) returns (clean: bool)
      requires Snapshot(pages, identity, order)
      ensures clean <==> NoDirtyPage(pages, identity)
    {
      var i := 0;
      while i < |order|
        invariant 0 <= i <= |order|
        invariant forall key :: key in pages && key.identity == identity && key.index in order[..i] ==> !pages[key].dirty
      {
        var key := PageKey(identity, order[i]);
        if key in pages && pages[key].dirty {
          return false;
        }
        i := i + 1;
      }
      assert order[..i] == order;
      return true;
    }

    /** Pins the inode once every shared page of it is clean and mapped read-only. */
    method PinExecutableImage(pin: Pin, expected: nat, order: seq<nat>, tables: PageTables)
      returns (ok: bool, created: bool)
      requires Coherent(Model()) && pin.identity in files && Snapshot(pages, pin.identity, order)
      modifies this`pages, this`pins
      ensures var a := if pin.mapped then PinMapped(pin.process, pin.identity, order, tables)
                       else PinImage(pin.process, pin.identity, expected, order, tables);
        Model() == Apply(old(Model()), a).state && ok == Apply(old(Model()), a).ok
      ensures pins == if created then [pin] + old(pins) else old(pins)
      ensures created ==> Frozen(Model(), pin.identity)
      ensures Coherent(Model()) && View(Model()) == View(old(Model()))
    {
      PinCoherent(Model(), pin, order, tables);
      hide View, Agrees, Writable, MappedPins;
      if pin.mapped {
        var held := HoldsMappedPin(pin.process, pin.identity);
        if held {
          return true, false;
        }
      } else if files[pin.identity].version != expected {
        return false, false;
      }
      ProtectPagesKeep(pages, pin.identity, order, tables);
      var done := ProtectListed(pin.identity, order, tables);
      if !done {
        return false, false;
      }
      var clean := AllClean(pin.identity, order);
      if !clean {
        return false, false;
      }
      pins := [pin] + pins;
      return true, true;
    }

    /** Unlinks the first mapped-file pin of the pair. */
    method UnpinMappedExecutableImage(process: Process, identity: Identity)
      modifies this`pins
      ensures pins == RemoveMapped(old(pins), process, identity)
    {
      hide RemoveMapped;
      var i := 0;
      while i < |pins| && pins[i] != Pin(process, identity, true)
        invariant 0 <= i <= |pins| && pins == old(pins)
        invariant forall k :: 0 <= k < i ==> pins[k] != Pin(process, identity, true)
      {
        i := i + 1;
      }
      RemovedFirst(pins, process, identity, i);
      if i < |pins| {
        pins := pins[..i] + pins[i + 1..];
      } else {
        assert pins == pins[..i] + [];
      }
    }

    /** Unlinks every pin of the process. */
    method UnpinExecutableImage(process: Process)
      modifies this`pins
      ensures pins == RemoveProcess(old(pins), process)
    {
      var kept: seq<Pin> := [];
      var i := 0;
      while i < |pins|
        invariant 0 <= i <= |pins| && pins == old(pins)
        invariant RemoveProcess(pins, process) == kept + RemoveProcess(pins[i..], process)
      {
        assert pins[i..][0] == pins[i] && pins[i..][1..] == pins[i + 1..];
        if pins[i].process != process {
          kept := kept + [pins[i]];
        }
        i := i + 1;
      }
      assert pins[i..] == [];
      pins := kept;
    }

    /** Copies the parent's pins for the child; every copy is linked in front of the list. */
    method CloneExecutableImagePin(parent: Process, child: Process, budget: nat) returns (ok: bool)
      modifies this`pins
      ensures pins == Clones(old(pins), parent, child, budget) + old(pins)
      ensures ok <==> PinsOf(old(pins), parent) <= budget
      ensures forall identity :: Pinned(pins, identity) <==> Pinned(old(pins), identity)
    {
      forall identity ensures Pinned(Clones(pins, parent, child, budget) + pins, identity) <==> Pinned(pins, identity) {
        CloneKeepsPinned(pins, parent, child, budget, identity);
      }
      var sources := pins;
      var left := budget;
      var i := 0;
      while i < |sources|
        invariant 0 <= i <= |sources| && sources == old(pins)
        invariant Clones(sources, parent, child, budget) + sources == Clones(sources[i..], parent, child, left) + pins
        invariant PinsOf(sources, parent) <= budget <==> PinsOf(sources[i..], parent) <= left
      {
        assert sources[i..][0] == sources[i] && sources[i..][1..] == sources[i + 1..];
        if sources[i].process == parent {
          if left == 0 {
            return false;
          }
          var pin := sources[i].(process := child);
          assert Clones(sources[i..], parent, child, left) + pins
              == Clones(sources[i + 1..], parent, child, left - 1) + ([pin] + pins);
          pins := [pin] + pins;
          left := left - 1;
        }
        i := i + 1;
      }
      assert sources[i..] == [];
      return true;
    }

    /** Replaces the destination's pins by the source's in one section. */
    method TransferExecutableImagePin(source: Process, destination: Process) returns (ok: bool)
      modifies this`pins
      ensures pins == Transferred(old(pins), source, destination)
      ensures ok <==> source != destination && exists i :: 0 <= i < |old(pins)| && old(pins)[i].process == source
    {
      if source == destination {
        return false;
      }
      var i := 0;
      while i < |pins| && pins[i].process != source
        invariant 0 <= i <= |pins| && pins == old(pins)
        invariant forall j :: 0 <= j < i ==> pins[j].process != source
      {
        i := i + 1;
      }
      if i == |pins| {
        return false;
      }
      assert pins[i].process == source;
      UnpinExecutableImage(destination);
      hide RemoveProcess;
      ghost var kept := pins;
      i := 0;
      while i < |pins|
        invariant 0 <= i <= |pins| == |kept|
        invariant forall j :: 0 <= j < i ==> pins[j] == Renamed(kept, source, destination)[j]
        invariant forall j :: i <= j < |pins| ==> pins[j] == kept[j]
      {
        if pins[i].process == source {
          pins := pins[i := pins[i].(process := destination)];
        }
        i := i + 1;
      }
      assert pins == Renamed(kept, source, destination);
      return true;
    }
  }

  lemma LastPage(end: nat, index: nat)
    requires 0 < end && index <= (end - 1) / PAGE_SIZE
    ensures end - index * PAGE_SIZE <= PAGE_SIZE <==> index == (end - 1) / PAGE_SIZE
  {
  }

  /** One chunk that stays inside page `at / PAGE_SIZE` extends the overlay by its bytes. */
  lemma OverlayChunk(start: Pages, before: Pages, after: Pages, identity: Identity, position: nat, data: seq<Byte>,
                     done: nat, chunk: nat)
    requires WholePages(start) && WholePages(before) && done < |data|
    requires before == UpdatePages(start, identity, position, data[..done])
    requires chunk == Min(|data| - done, PAGE_SIZE - (position + done) % PAGE_SIZE)
    requires var key := PageKey(identity, (position + done) / PAGE_SIZE);
      var within := (position + done) % PAGE_SIZE;
      after == if key !in before then before else
        before[key := before[key].(bytes :=
          before[key].bytes[..within] + data[done..done + chunk] + before[key].bytes[within + chunk..])]
    ensures WholePages(after)
    ensures after == UpdatePages(start, identity, position, data[..done + chunk])
  {
    var longer := UpdatePages(start, identity, position, data[..done + chunk]);
    forall key | key in start ensures after[key] == longer[key] {
      if key.identity == identity {
        OverlayPage(start[key].bytes, key, position, data, done, chunk);
      }
    }
  }

  lemma OverlayPage(bytes: seq<Byte>, key: PageKey, position: nat, data: seq<Byte>, done: nat, chunk: nat)
    requires |bytes| == PAGE_SIZE && done < |data|
    requires chunk == Min(|data| - done, PAGE_SIZE - (position + done) % PAGE_SIZE)
    ensures var shorter := OverlaidBytes(bytes, key.Offset(), position, data[..done]);
      var within := (position + done) % PAGE_SIZE;
      OverlaidBytes(bytes, key.Offset(), position, data[..done + chunk]) ==
        if key.index == (position + done) / PAGE_SIZE
        then shorter[..within] + data[done..done + chunk] + shorter[within + chunk..] else shorter
  {
    var within := (position + done) % PAGE_SIZE;
    var index := (position + done) / PAGE_SIZE;
    assert position + done == index * PAGE_SIZE + within;
    var shorter := OverlaidBytes(bytes, key.Offset(), position, data[..done]);
    var longer := OverlaidBytes(bytes, key.Offset(), position, data[..done + chunk]);
    forall at | 0 <= at < PAGE_SIZE
      ensures longer[at] == if key.index == index && within <= at < within + chunk
                            then data[done + at - within] else shorter[at]
    {
      var i := key.Offset() + at;
      if position + done <= i < position + done + chunk {
        assert i / PAGE_SIZE == index;
      }
    }
  }
}
