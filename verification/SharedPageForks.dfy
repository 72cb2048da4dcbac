/**
 Forks beside the other sections: when a failed fork finds the pages it makes writable again still dirty, and what is
 lost when it does not.
 */
module SharedPageForks {
  import opened FileBytes
  import opened SharedPages
  import opened SharedPageCoherence
  import opened ExecutablePins

  // ---- What cleans a page ----

  /** The section may clean the page: it flushes it, or cuts the file off before it. */
  predicate MayClean(a: Action, key: PageKey) {
    || (a.Flush? && a.key == key)
    || (a.Truncate? && a.identity == key.identity && a.size <= key.Offset())
  }

  lemma TruncateKeepsDirty(pages: Pages, identity: Identity, oldSize: nat, newSize: nat, key: PageKey)
    requires WholePages(pages) && key in pages && (key.identity == identity ==> oldSize <= newSize || key.Offset() < newSize)
    ensures key in CompleteTruncate(pages, identity, oldSize, newSize)
    ensures CompleteTruncate(pages, identity, oldSize, newSize)[key].dirty == pages[key].dirty
  {
  }

  lemma AcceptedKeepsDirty(s: State, identity: Identity, pos: nat, taken: seq<Byte>, version: nat, key: PageKey)
    requires WholePages(s.pages) && identity in s.files && pos <= |s.files[identity].bytes| && key in s.pages
    ensures key in Accepted(s, identity, pos, taken, version).pages
    ensures Accepted(s, identity, pos, taken, version).pages[key].dirty == s.pages[key].dirty
  {
    hide CompleteTruncate, Splice, OverlaidBytes;
    var size := |s.files[identity].bytes|;
    CompleteTruncateWhole(s.pages, identity, size, pos + |taken|);
    if pos + |taken| > size { TruncateKeepsDirty(s.pages, identity, size, pos + |taken|, key); }
  }

  lemma WriteKeepsDirty(s: State, identity: Identity, pos: nat, data: seq<Byte>, gap: nat, accepted: nat, key: PageKey)
    requires WholePages(s.pages) && identity in s.files && key in s.pages
    ensures var s' := WriteProtected(s, identity, pos, data, gap, accepted).state;
      key in s'.pages && s'.pages[key].dirty == s.pages[key].dirty
  {
    hide CompleteTruncate, Accepted;
    var size, version := |s.files[identity].bytes|, s.files[identity].version;
    var taken := data[..Min(accepted, |data|)];
    if pos <= size {
      AcceptedKeepsDirty(s, identity, pos, taken, if taken != [] then version + 1 else version, key);
    } else {
      TruncateKeepsDirty(s.pages, identity, size, size + gap, key);
      TruncateKeepsDirty(s.pages, identity, size, pos, key);
      CompleteTruncateWhole(s.pages, identity, size, pos);
      AcceptedKeepsDirty(Resized(s, identity, pos, version + 1), identity, pos, taken, version + 1, key);
    }
  }

  lemma DoWriteKeepsDirty(s: State, identity: Identity, pos: nat, data: seq<Byte>, order: seq<nat>, tables: PageTables, gap: nat,
                          accepted: nat, key: PageKey)
    requires WholePages(s.pages) && key in s.pages
    ensures var s' := DoWrite(s, identity, pos, data, order, tables, gap, accepted).state;
      key in s'.pages && s'.pages[key].dirty == s.pages[key].dirty
  {
    hide ProtectPages, WriteProtected;
    if data != [] && identity in s.files {
      var cleared := if pos > |s.files[identity].bytes| then ProtectPages(s.pages, identity, order, tables).0 else s.pages;
      ProtectPagesKeep(s.pages, identity, order, tables);
      ProtectPagesKeep(cleared, identity, Touched(pos, |data|), tables);
      WriteKeepsDirty(s.(pages := ProtectPages(cleared, identity, Touched(pos, |data|), tables).0), identity, pos, data, gap, accepted, key);
    }
  }

  /** Only a flush of the page, or a truncation before it, ends its being dirty; nothing removes it meanwhile. */
  lemma OnlyWriteBackCleans(s: State, a: Action, key: PageKey)
    requires Coherent(s) && key in s.pages && s.pages[key].dirty && !MayClean(a, key)
    ensures key in Apply(s, a).state.pages && Apply(s, a).state.pages[key].dirty
  {
    hide Protect, ProtectPages, CompleteTruncate, DoWrite, Splice, Writable, WritableAt, Registered;
    assert PageCoherent(s, key);
    match a
    case Write(identity, pos, data, order, tables, gap, accepted) =>
      DoWriteKeepsDirty(s, identity, pos, data, order, tables, gap, accepted, key);
    case Truncate(identity, size, order, tables, _) =>
      if identity in s.files {
        ProtectPagesKeep(s.pages, identity, order, tables);
        TruncateKeepsDirty(ProtectPages(s.pages, identity, order, tables).0, identity, |s.files[identity].bytes|, size, key);
      }
    case PinImage(_, identity, _, order, tables) => ProtectPagesKeep(s.pages, identity, order, tables);
    case PinMapped(_, identity, order, tables) => ProtectPagesKeep(s.pages, identity, order, tables);
    case _ =>
  }

  // ---- Forks nobody cleans behind ----

  /** The section cleans no page that a fork under way has made read-only. */
  ghost predicate Spares(s: State, a: Action) {
    forall d :: d in s.forked ==> !MayClean(a, d.key)
  }

  ghost predicate SparingRun(s: State, run: seq<Action>)
    requires WholePages(s.pages)
    decreases |run|
  {
    run == [] || (Spares(s, run[0]) && (SectionWhole(s, run[0]); SparingRun(Apply(s, run[0]).state, run[1..])))
  }

  ghost predicate ForkedDirty(s: State) {
    forall d :: d in s.forked ==> d.key in s.pages && s.pages[d.key].dirty
  }

  lemma ForkedPlaces(s: State, a: Action, d: Downgrade)
    requires Coherent(s) && d in Apply(s, a).state.forked && d !in s.forked
    ensures a.ForkProtect? && d == a.entry && d.key in s.pages && s.pages[d.key].dirty && !MayClean(a, d.key)
  {
    hide Protect, ProtectPages, CompleteTruncate, UpdatePages, Splice, Resize;
    assert d.key in s.pages ==> PageCoherent(s, d.key);
  }

  lemma SectionKeepsForkedDirty(s: State, a: Action)
    requires Coherent(s) && ForkedDirty(s) && Spares(s, a)
    ensures ForkedDirty(Apply(s, a).state) && StillDirty(s, a)
  {
    hide Apply, Coherent, MayClean;
    CoherentWhole(s);
    forall d | d in Apply(s, a).state.forked ensures d.key in Apply(s, a).state.pages && Apply(s, a).state.pages[d.key].dirty {
      if d !in s.forked { ForkedPlaces(s, a, d); }
      OnlyWriteBackCleans(s, a, d.key);
    }
  }

  /** As long as no page is cleaned that a fork under way has made read-only, every failed fork restores dirty pages only. */
  lemma {:induction false} SparingRunsRestore(s: State, run: seq<Action>)
    requires Coherent(s) && ForkedDirty(s) && HonestRun(s, run) && SparingRun(s, run)
    ensures DirtyRestores(s, run)
    decreases |run|
  {
    hide Coherent, Honest, StillDirty, Spares, ForkedDirty, Apply;
    if run != [] {
      CoherentWhole(s);
      SectionKeepsForkedDirty(s, run[0]);
      SectionFaithful(s, run[0]);
      SparingRunsRestore(Apply(s, run[0]).state, run[1..]);
    }
  }

  lemma CoherentWhole(s: State)
    requires Coherent(s)
    ensures WholePages(s.pages)
  {
  }

  // ---- A whole failed fork ----

  /** Every entry that will become writable again maps a page that is still dirty. */
  ghost predicate AllStillDirty(s: State, entries: seq<Downgrade>) {
    forall d :: d in entries && Restorable(s, d) ==> s.pages[d.key].dirty
  }

  lemma MadeWritableAt(aliases: seq<Alias>, p: Process, x: Address, q: Process, y: Address)
    ensures Registered(MadeWritable(aliases, p, x), q, y) <==> Registered(aliases, q, y)
    ensures (p, x) != (q, y) ==> (WritableAt(MadeWritable(aliases, p, x), q, y) <==> WritableAt(aliases, q, y))
    ensures WritableAt(aliases, q, y) ==> WritableAt(MadeWritable(aliases, p, x), q, y)
    ensures Writable(aliases) ==> Writable(MadeWritable(aliases, p, x))
  {
    var made := MadeWritable(aliases, p, x);
    assert forall i :: 0 <= i < |aliases| ==> made[i].(writable := true) == aliases[i].(writable := true);
    assert forall i :: 0 <= i < |aliases| && aliases[i].writable ==> made[i].writable;
    if i :| 0 <= i < |aliases| && aliases[i].process == q && aliases[i].address == y { assert made[i].process == q; }
    if i :| 0 <= i < |aliases| && aliases[i] == Alias(q, y, true) { assert made[i] == Alias(q, y, true); }
    if i :| 0 <= i < |aliases| && aliases[i].writable { assert made[i].writable; }
  }

  /** Restoring one entry leaves what can be said of another. */
  lemma RestoredOther(s: State, d: Downgrade, e: Downgrade)
    ensures var s' := DoForkRestore(s, d).state; Restorable(s', e) <==> d != e && Restorable(s, e)
    ensures var s' := DoForkRestore(s, d).state; s'.pages.Keys == s.pages.Keys
    ensures var s' := DoForkRestore(s, d).state; e.key in s.pages ==>
      && s'.pages[e.key].dirty == s.pages[e.key].dirty
      && (Writable(s.pages[e.key].aliases) ==> Writable(s'.pages[e.key].aliases))
  {
    if d.key in s.pages {
      MadeWritableAt(s.pages[d.key].aliases, d.process, d.address, e.process, e.address);
    }
  }

  lemma {:induction false} StaysWritable(s: State, entries: seq<Downgrade>, e: Downgrade)
    requires e.key in s.pages && !s.pages[e.key].dirty && Writable(s.pages[e.key].aliases)
    ensures var s' := RestoreAll(s, entries); e.key in s'.pages && !s'.pages[e.key].dirty && Writable(s'.pages[e.key].aliases)
    decreases |entries|
  {
    hide Restorable, Writable, DoForkRestore;
    if entries != [] {
      RestoredOther(s, entries[0], e);
      StaysWritable(DoForkRestore(s, entries[0]).state, entries[1..], e);
    }
  }

  /** A failed fork as a whole keeps the table coherent if and only if all pages it makes writable again are still dirty. */
  lemma {:induction false} DiscardCoherentIff(s: State, entries: seq<Downgrade>)
    requires Coherent(s)
    ensures Coherent(RestoreAll(s, entries)) <==> AllStillDirty(s, entries)
    decreases |entries|
  {
    hide Coherent, Restorable, DoForkRestore, Writable;
    if entries != [] {
      var d, rest := entries[0], entries[1..];
      var s1 := DoForkRestore(s, d).state;
      if Restorable(s, d) && !RestorablePage(s, d).dirty {
        RestoredWritable(s, d);
        StaysWritable(s1, rest, d);
        WritableCleanBad(RestoreAll(s, entries), d.key);
      } else {
        OneRestoreCoherent(s, d);
        RestStillDirty(s, entries);
        DiscardCoherentIff(s1, rest);
      }
    }
  }

  lemma RestStillDirty(s: State, entries: seq<Downgrade>)
    requires entries != [] && (Restorable(s, entries[0]) ==> s.pages[entries[0].key].dirty)
    ensures AllStillDirty(s, entries) <==> AllStillDirty(DoForkRestore(s, entries[0]).state, entries[1..])
  {
    hide Registered, WritableAt, DoForkRestore, MadeWritable;
    var d, s1 := entries[0], DoForkRestore(s, entries[0]).state;
    forall e | e in entries
      ensures e == d || e in entries[1..]
      ensures Restorable(s1, e) <==> d != e && Restorable(s, e)
      ensures e.key in s.pages ==> e.key in s1.pages && s1.pages[e.key].dirty == s.pages[e.key].dirty
    {
      RestoredOther(s, d, e);
    }
  }

  function RestorablePage(s: State, d: Downgrade): SharedPage
    requires Restorable(s, d)
  {
    s.pages[d.key]
  }

  lemma RestoredWritable(s: State, d: Downgrade)
    requires Restorable(s, d)
    ensures var s' := DoForkRestore(s, d).state;
      && d.key in s'.pages && Writable(s'.pages[d.key].aliases) && s'.pages[d.key].dirty == s.pages[d.key].dirty
  {
    SetWritable(s.pages[d.key].aliases, d.process, d.address);
  }

  lemma WritableCleanBad(s: State, key: PageKey)
    requires key in s.pages && !s.pages[key].dirty && Writable(s.pages[key].aliases)
    ensures !Coherent(s)
  {
    if Coherent(s) { CoherentPage(s, key); }
  }

  lemma OneRestoreCoherent(s: State, d: Downgrade)
    requires Coherent(s) && StillDirty(s, ForkRestore(d))
    ensures Coherent(DoForkRestore(s, d).state)
  {
    hide Coherent, View, DoForkRestore;
    CoherentWhole(s);
    ForkSectionsCoherent(s, ForkRestore(d));
  }

  // ---- A page cleaned behind a fork ----

  /** A dirty page with a writable entry that a flush can write back. */
  ghost predicate Flushable(s: State, d: Downgrade, tables: PageTables, written: nat) {
    && Coherent(s) && d.key in s.pages && WritableAt(s.pages[d.key].aliases, d.process, d.address)
    && Protect(MadeReadOnly(s.pages[d.key].aliases, d.process, d.address), tables).1
    && written >= PAGE_SIZE
  }

  lemma StillRegistered(aliases: seq<Alias>, d: Downgrade, tables: PageTables)
    requires WritableAt(aliases, d.process, d.address)
    ensures Registered(Protect(MadeReadOnly(aliases, d.process, d.address), tables).0, d.process, d.address)
  {
    hide Protect;
    var guarded := MadeReadOnly(aliases, d.process, d.address);
    ProtectKeeps(guarded, tables);
    var i :| 0 <= i < |aliases| && aliases[i] == Alias(d.process, d.address, true);
    assert guarded[i].process == d.process && Protect(guarded, tables).0[i].address == d.address;
  }

  lemma Unwritable(aliases: seq<Alias>, process: Process, address: Address)
    requires !Writable(aliases)
    ensures !WritableAt(aliases, process, address)
  {
  }

  /** The fork under way has made the entry read-only and the page was written back behind it. */
  lemma FlushedBehindFork(s: State, d: Downgrade, tables: PageTables, written: nat)
    requires Flushable(s, d, tables, written)
    ensures WholePages(s.pages)
    ensures var s1 := DoForkProtect(s, d, false).state; var s2 := DoFlush(s1, d.key, tables, written).state;
      && Coherent(s1) && Coherent(s2) && Restorable(s2, d) && !s2.pages[d.key].dirty && View(s2) == View(s)
  {
    hide Protect, View, Coherent;
    assert PageCoherent(s, d.key) by { CoherentPage(s, d.key); }
    CoherentWhole(s);
    ForkProtectCoherent(s, d, false);
    var s1 := DoForkProtect(s, d, false).state;
    assert s1.pages[d.key].dirty;
    FlushReachesBackend(s1, d.key, tables, written);
    FlushCoherent(s1, d.key, tables, written);
    StillRegistered(s.pages[d.key].aliases, d, tables);
    var s2 := DoFlush(s1, d.key, tables, written).state;
    Unwritable(s2.pages[d.key].aliases, d.process, d.address);
  }

  lemma CoherentPage(s: State, key: PageKey)
    requires Coherent(s) && key in s.pages
    ensures |s.pages[key].bytes| == PAGE_SIZE && PageCoherent(s, key)
  {
  }

  lemma AfterThree(s: State, a: Action, b: Action, c: Action)
    requires WholePages(s.pages)
    ensures WholePages(Apply(s, a).state.pages) && WholePages(Apply(Apply(s, a).state, b).state.pages)
    ensures After(s, [a, b, c]).0 == Apply(Apply(Apply(s, a).state, b).state, c).state
  {
    hide Apply;
    SectionWhole(s, a);
    SectionWhole(Apply(s, a).state, b);
    SectionWhole(Apply(Apply(s, a).state, b).state, c);
    assert [a, b, c][1..] == [b, c] && [b, c][1..] == [c] && [c][1..] == [];
    var s2 := Apply(Apply(s, a).state, b).state;
    assert After(s2, [c]).0 == Apply(s2, c).state;
    assert After(Apply(s, a).state, [b, c]).0 == After(s2, [c]).0;
  }

  /**
   From every coherent state: fork makes an entry of a dirty page read-only, a flush writes the page back, and the fork
   fails. The entry is then writable on a clean page.
   */
  lemma CleanedBehindFork(s: State, d: Downgrade, tables: PageTables, written: nat)
    requires Flushable(s, d, tables, written)
    ensures WholePages(s.pages)
    ensures var s' := After(s, [ForkProtect(d, false), Flush(d.key, tables, written), ForkRestore(d)]).0;
      && d.key in s'.pages && !s'.pages[d.key].dirty && WritableAt(s'.pages[d.key].aliases, d.process, d.address)
      && !Coherent(s')
  {
    hide Flushable, Coherent, View, DoForkProtect, DoFlush;
    FlushedBehindFork(s, d, tables, written);
    AfterThree(s, ForkProtect(d, false), Flush(d.key, tables, written), ForkRestore(d));
    var s2 := DoFlush(DoForkProtect(s, d, false).state, d.key, tables, written).state;
    RestoreCoherentIff(s2, d);
    RestoredAt(s2.pages[d.key].aliases, d.process, d.address);
  }

  lemma RestoredAt(aliases: seq<Alias>, process: Process, address: Address)
    requires Registered(aliases, process, address)
    ensures WritableAt(MadeWritable(aliases, process, address), process, address)
  {
    var i :| 0 <= i < |aliases| && aliases[i].process == process && aliases[i].address == address;
    assert MadeWritable(aliases, process, address)[i] == Alias(process, address, true);
  }

  /** A clean page whose only entry is writable, and a place below EOF. */
  ghost predicate Exposed(s: State, d: Downgrade, at: nat) {
    && WholePages(s.pages) && d.key in s.pages && d.key.identity in s.files
    && !s.pages[d.key].dirty && s.pages[d.key].aliases == [Alias(d.process, d.address, true)]
    && at < PAGE_SIZE && d.key.Offset() + at < |s.files[d.key.identity].bytes|
  }

  function WithPage(s: State, key: PageKey, page: SharedPage): State {
    s.(pages := s.pages[key := page])
  }

  lemma StoreStep(s: State, d: Downgrade, at: nat, value: Byte)
    requires Exposed(s, d, at)
    ensures Apply(s, UserStore(d.key, d.process, d.address, at, value)) ==
      Outcome(WithPage(s, d.key, s.pages[d.key].(bytes := s.pages[d.key].bytes[at := value])), true,
              [Put(d.key.identity, d.key.Offset() + at, [value])])
  {
    assert s.pages[d.key].aliases[0] == Alias(d.process, d.address, true);
  }

  lemma LeaveStep(s: State, d: Downgrade)
    requires WholePages(s.pages) && d.key in s.pages && s.pages[d.key].aliases == [Alias(d.process, d.address, true)]
    ensures var o := Apply(s, Unregister(d.key, d.process, d.address));
      o.state == WithPage(s, d.key, s.pages[d.key].(aliases := [])) && o.edits == []
  {
    assert s.pages[d.key].aliases[0] == Alias(d.process, d.address, true);
    assert s.pages[d.key].aliases[1..] == [];
  }

  lemma BackendSeen(s: State, key: PageKey, at: nat)
    requires WholePages(s.pages) && key !in s.pages && key.identity in s.files
    requires at < PAGE_SIZE && key.Offset() + at < |s.files[key.identity].bytes|
    ensures Seen(s, key.identity)[key.Offset() + at] == s.files[key.identity].bytes[key.Offset() + at]
  {
    assert (key.Offset() + at) / PAGE_SIZE == key.index;
  }

  /** A store through such an entry is reported, but nothing writes it back: it goes with the page. */
  lemma StoreIsLost(s: State, d: Downgrade, at: nat, value: Byte)
    requires Exposed(s, d, at)
    ensures var i := d.key.Offset() + at;
      var (s', edits) := After(s, [UserStore(d.key, d.process, d.address, at, value), Unregister(d.key, d.process, d.address), Evict(d.key)]);
      && edits == [Put(d.key.identity, i, [value])] && s'.files == s.files && WholePages(s'.pages)
      && Seen(s', d.key.identity)[i] == s.files[d.key.identity].bytes[i]
  {
    hide Apply, Seen;
    var a, b, c := UserStore(d.key, d.process, d.address, at, value), Unregister(d.key, d.process, d.address), Evict(d.key);
    StoreStep(s, d, at, value);
    AfterThree(s, a, b, c);
    EditsOfThree(s, a, b, c);
    var s1 := Apply(s, a).state;
    LeaveStep(s1, d);
    var s2 := Apply(s1, b).state;
    SectionWhole(s2, c);
    EvictStep(s2, d.key);
    BackendSeen(Apply(s2, c).state, d.key, at);
  }

  lemma EvictStep(s: State, key: PageKey)
    requires WholePages(s.pages) && key in s.pages && !s.pages[key].dirty && s.pages[key].aliases == []
    ensures Apply(s, Evict(key)) == Outcome(s.(pages := s.pages - {key}), true, [])
  {
  }

  lemma EditsOfThree(s: State, a: Action, b: Action, c: Action)
    requires WholePages(s.pages) && WholePages(Apply(s, a).state.pages) && WholePages(Apply(Apply(s, a).state, b).state.pages)
    ensures After(s, [a, b, c]).1 == Apply(s, a).edits + (Apply(Apply(s, a).state, b).edits + Apply(Apply(Apply(s, a).state, b).state, c).edits)
  {
    hide Apply;
    assert [a, b, c][1..] == [b, c] && [b, c][1..] == [c] && [c][1..] == [];
    var s2 := Apply(Apply(s, a).state, b).state;
    SectionWhole(s2, c);
    assert After(s2, [c]).1 == Apply(s2, c).edits + [];
  }

  /** A pin taken before the restore is no freeze: the inode stays pinned with a writable entry. */
  lemma PinnedButWritable(s: State, d: Downgrade)
    requires Coherent(s) && Restorable(s, d) && Pinned(s.pins, d.key.identity)
    ensures var s' := DoForkRestore(s, d).state; Pinned(s'.pins, d.key.identity) && !Frozen(s', d.key.identity) && !Coherent(s')
  {
    hide Coherent, View;
    CoherentPage(s, d.key);
    RestoreCoherentIff(s, d);
    SetWritable(s.pages[d.key].aliases, d.process, d.address);
  }
}
