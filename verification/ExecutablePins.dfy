/**
 Executable pins: an inode is frozen from a successful pin until its last unpin, cloning and
 transferring leave no gap, and a process holds at most one mapped-file pin per inode.
 */
module ExecutablePins {
  import opened FileBytes
  import opened SharedPages
  import opened SharedPageCoherence

  // ---- Freezing ----

  /** While an inode is pinned no section changes its bytes or its version. */
  lemma PinnedSectionKeepsFile(s: State, a: Action, identity: Identity)
    requires Coherent(s) && Pinned(s.pins, identity) && identity in s.files
    ensures identity in Apply(s, a).state.files && Apply(s, a).state.files[identity] == s.files[identity]
  {
    if a.Flush? && a.key in s.pages {
      assert PageCoherent(s, a.key);
    }
  }

  /** The inode is pinned in every state the run passes through. */
  ghost predicate PinnedThroughout(s: State, run: seq<Action>, identity: Identity)
    requires WholePages(s.pages)
    decreases |run|
  {
    && Pinned(s.pins, identity)
    && (run != [] ==> (SectionWhole(s, run[0]); PinnedThroughout(Apply(s, run[0]).state, run[1..], identity)))
  }

  /** No shared page of the inode is dirty and none is mapped writable. */
  ghost predicate Frozen(s: State, identity: Identity) {
    forall key :: key in s.pages && key.identity == identity ==>
      !s.pages[key].dirty && !Writable(s.pages[key].aliases)
  }

  lemma {:induction false} PinFreezesInode(s: State, run: seq<Action>, identity: Identity)
    requires Coherent(s) && HonestRun(s, run) && DirtyRestores(s, run)
    requires identity in s.files && PinnedThroughout(s, run, identity)
    ensures var final := After(s, run).0;
      && identity in final.files && final.files[identity] == s.files[identity]
      && Frozen(final, identity)
    decreases |run|
  {
    if run != [] {
      SectionFaithful(s, run[0]);
      PinnedSectionKeepsFile(s, run[0], identity);
      PinFreezesInode(Apply(s, run[0]).state, run[1..], identity);
    } else {
      forall key | key in s.pages && key.identity == identity
        ensures !s.pages[key].dirty && !Writable(s.pages[key].aliases)
      {
        assert PageCoherent(s, key);
      }
    }
  }

  // ---- Who is pinned after each list operation ----

  lemma PinnedMembers(pins: seq<Pin>, identity: Identity)
    ensures Pinned(pins, identity) <==> exists pin :: pin in pins && pin.identity == identity
  {
    if pin :| pin in pins && pin.identity == identity {
      var i :| 0 <= i < |pins| && pins[i] == pin;
    }
  }

  /** Cloning pins nothing new and drops nothing. */
  lemma CloneKeepsPinned(pins: seq<Pin>, parent: Process, child: Process, budget: nat, identity: Identity)
    ensures Pinned(Clones(pins, parent, child, budget) + pins, identity) <==> Pinned(pins, identity)
  {
    var clones := Clones(pins, parent, child, budget);
    ClonedPins(pins, parent, child, budget);
    PinnedMembers(pins, identity);
    PinnedMembers(clones + pins, identity);
    if pin :| pin in clones && pin.identity == identity {
      assert pin.(process := parent) in pins;
    }
  }

  /** A transfer drops exactly the inodes that only the destination had pinned. */
  lemma TransferKeepsPinned(pins: seq<Pin>, source: Process, destination: Process, identity: Identity)
    requires source != destination && exists i :: 0 <= i < |pins| && pins[i].process == source
    ensures Pinned(Transferred(pins, source, destination), identity) <==>
      exists pin :: pin in pins && pin.identity == identity && pin.process != destination
  {
    var kept := RemoveProcess(pins, destination);
    var moved := Transferred(pins, source, destination);
    RemovedPins(pins, destination, identity);
    if Pinned(moved, identity) {
      var i :| 0 <= i < |moved| && moved[i].identity == identity;
      assert kept[i] in pins && kept[i].identity == identity && kept[i].process != destination;
    }
    if pin :| pin in pins && pin.identity == identity && pin.process != destination {
      assert pin in kept;
      var i :| 0 <= i < |kept| && kept[i] == pin;
      assert moved[i].identity == identity;
    }
  }

  // ---- What each list operation leaves, pin by pin ----

  lemma CountFirst(first: Pin, rest: seq<Pin>, pin: Pin)
    ensures multiset([first] + rest)[pin] == multiset(rest)[pin] + (if first == pin then 1 else 0)
  {
  }

  lemma SplitFirst(pins: seq<Pin>, pin: Pin)
    requires pins != []
    ensures multiset(pins)[pin] == multiset(pins[1..])[pin] + (if pins[0] == pin then 1 else 0)
  {
    assert pins == [pins[0]] + pins[1..];
    CountFirst(pins[0], pins[1..], pin);
  }

  /** Unpinning a process takes all its pins, and no other. */
  lemma {:induction false} UnpinTakesProcess(pins: seq<Pin>, process: Process, pin: Pin)
    ensures multiset(RemoveProcess(pins, process))[pin] == if pin.process == process then 0 else multiset(pins)[pin]
  {
    if pins != [] {
      UnpinTakesProcess(pins[1..], process, pin);
      SplitFirst(pins, pin);
      CountFirst(pins[0], RemoveProcess(pins[1..], process), pin);
    }
  }

  /** Unpinning a mapped file takes one mapped pin of the pair, if there is one, and no other. */
  lemma {:induction false} UnpinTakesMapped(pins: seq<Pin>, process: Process, identity: Identity, pin: Pin)
    ensures multiset(RemoveMapped(pins, process, identity))[pin] ==
      multiset(pins)[pin] - (if pin == Pin(process, identity, true) && pin in pins then 1 else 0)
  {
    if pins != [] {
      SplitFirst(pins, pin);
      if pins[0] != Pin(process, identity, true) {
        UnpinTakesMapped(pins[1..], process, identity, pin);
        CountFirst(pins[0], RemoveMapped(pins[1..], process, identity), pin);
        assert pin in pins <==> pins[0] == pin || pin in pins[1..];
      }
    }
  }

  /** A full clone gives the child every pin of its parent, image pins included, and pins nothing else. */
  lemma {:induction false} CloneCopiesAll(pins: seq<Pin>, parent: Process, child: Process, budget: nat, pin: Pin)
    requires PinsOf(pins, parent) <= budget
    ensures multiset(Clones(pins, parent, child, budget))[pin] ==
      if pin.process == child then multiset(pins)[pin.(process := parent)] else 0
  {
    if pins != [] {
      var source := pin.(process := parent);
      SplitFirst(pins, source);
      if pins[0].process == parent && budget > 0 {
        var rest, clone := Clones(pins[1..], parent, child, budget - 1), pins[0].(process := child);
        CloneCopiesAll(pins[1..], parent, child, budget - 1, pin);
        assert multiset(rest + [clone])[pin] == multiset(rest)[pin] + (if clone == pin then 1 else 0);
      } else if budget > 0 {
        CloneCopiesAll(pins[1..], parent, child, budget, pin);
      } else {
        NoPins(pins, parent, source);
      }
    }
  }

  lemma {:induction false} NoPins(pins: seq<Pin>, process: Process, pin: Pin)
    requires PinsOf(pins, process) == 0 && pin.process == process
    ensures multiset(pins)[pin] == 0
  {
    if pins != [] {
      NoPins(pins[1..], process, pin);
      SplitFirst(pins, pin);
    }
  }

  lemma {:induction false} RenamedCounts(pins: seq<Pin>, source: Process, destination: Process, pin: Pin)
    requires source != destination
    ensures multiset(Renamed(pins, source, destination))[pin] ==
      if pin.process == destination then multiset(pins)[pin] + multiset(pins)[pin.(process := source)]
      else if pin.process == source then 0 else multiset(pins)[pin]
  {
    if pins != [] {
      var rest := Renamed(pins[1..], source, destination);
      RenamedCounts(pins[1..], source, destination, pin);
      SplitFirst(pins, pin);
      SplitFirst(pins, pin.(process := source));
      assert Renamed(pins, source, destination) == [Renamed(pins, source, destination)[0]] + rest;
      CountFirst(Renamed(pins, source, destination)[0], rest, pin);
    }
  }

  /** After a transfer the destination holds exactly the source's pins, the source none, everyone else their own. */
  lemma TransferMovesAll(pins: seq<Pin>, source: Process, destination: Process, pin: Pin)
    requires source != destination && exists i :: 0 <= i < |pins| && pins[i].process == source
    ensures multiset(Transferred(pins, source, destination))[pin] ==
      if pin.process == destination then multiset(pins)[pin.(process := source)]
      else if pin.process == source then 0 else multiset(pins)[pin]
  {
    RenamedCounts(RemoveProcess(pins, destination), source, destination, pin);
    UnpinTakesProcess(pins, destination, pin);
    UnpinTakesProcess(pins, destination, pin.(process := source));
  }

  // ---- When a first store, a mapping and a pin take effect ----

  /**
   The first store through a mapping is let through exactly when the entry is registered and still read-only, the inode
   is not pinned and the page starts below EOF; then that entry and no other becomes writable, and the page dirty.
   */
  lemma FirstStoreOpensEntry(s: State, key: PageKey, process: Process, address: Address, q: Process, y: Address)
    requires Coherent(s)
    ensures var o := DoResolveWrite(s, key, process, address);
      && (o.ok <==>
            && key in s.pages && key.identity in s.files && !Pinned(s.pins, key.identity) && key.Offset() < |s.files[key.identity].bytes|
            && Registered(s.pages[key].aliases, process, address) && !WritableAt(s.pages[key].aliases, process, address))
      && (o.ok ==>
            && o.state.pages.Keys == s.pages.Keys && o.state.pages[key].dirty
            && (Registered(o.state.pages[key].aliases, q, y) <==> Registered(s.pages[key].aliases, q, y))
            && (WritableAt(o.state.pages[key].aliases, q, y) <==> (q, y) == (process, address) || WritableAt(s.pages[key].aliases, q, y)))
      && View(o.state) == View(s) && o.state.files == s.files
  {
    AliasSectionsCoherent(s, ResolveWrite(key, process, address));
    if DoResolveWrite(s, key, process, address).ok {
      OneMadeWritable(s.pages[key].aliases, process, address, q, y);
    }
  }

  lemma OneMadeWritable(aliases: seq<Alias>, p: Process, x: Address, q: Process, y: Address)
    requires Registered(aliases, p, x)
    ensures Registered(MadeWritable(aliases, p, x), q, y) <==> Registered(aliases, q, y)
    ensures WritableAt(MadeWritable(aliases, p, x), q, y) <==> (p, x) == (q, y) || WritableAt(aliases, q, y)
  {
    var made := MadeWritable(aliases, p, x);
    assert forall i :: 0 <= i < |aliases| ==> made[i].(writable := true) == aliases[i].(writable := true);
    if i :| 0 <= i < |aliases| && aliases[i].process == q && aliases[i].address == y {
      assert made[i].process == q;
    }
    if i :| 0 <= i < |aliases| && aliases[i] == Alias(q, y, true) {
      assert made[i] == Alias(q, y, true);
    }
  }

  /** A mapping is installed exactly when the page is there and the place is free; it is read-only and unmapping undoes it. */
  lemma UnmapUndoesMap(s: State, key: PageKey, process: Process, address: Address)
    ensures var o := DoMap(s, key, process, address);
      && (o.ok <==> key in s.pages && !Registered(s.pages[key].aliases, process, address))
      && (o.ok ==>
            && key in o.state.pages && Registered(o.state.pages[key].aliases, process, address)
            && !WritableAt(o.state.pages[key].aliases, process, address)
            && DoUnregister(o.state, key, process, address).ok && DoUnregister(o.state, key, process, address).state == s)
  {
    if key in s.pages && !Registered(s.pages[key].aliases, process, address) {
      var aliases := [Alias(process, address, false)] + s.pages[key].aliases;
      assert aliases[0] == Alias(process, address, false) && aliases[1..] == s.pages[key].aliases;
      forall i | 0 <= i < |aliases| ensures aliases[i] != Alias(process, address, true) {
        if i > 0 { assert aliases[i] == s.pages[key].aliases[i - 1]; }
      }
      assert DoUnregister(DoMap(s, key, process, address).state, key, process, address).state.pages == s.pages;
    }
  }

  lemma RegisteredSplit(aliases: seq<Alias>, process: Process, address: Address)
    requires aliases != []
    ensures Registered(aliases, process, address) <==>
      (aliases[0].process == process && aliases[0].address == address) || Registered(aliases[1..], process, address)
  {
    if Registered(aliases[1..], process, address) {
      var i :| 0 <= i < |aliases[1..]| && aliases[1..][i].process == process && aliases[1..][i].address == address;
      assert aliases[i + 1] == aliases[1..][i];
    }
    if Registered(aliases, process, address) {
      var i :| 0 <= i < |aliases| && aliases[i].process == process && aliases[i].address == address;
      if i > 0 { assert aliases[1..][i - 1] == aliases[i]; }
    }
  }

  /** Unmapping takes exactly one alias of the pair, if there is one. */
  lemma {:induction false} UnmapTakesOne(aliases: seq<Alias>, process: Process, address: Address)
    ensures Registered(aliases, process, address) ==>
      exists w :: multiset(aliases) == multiset(Without(aliases, process, address)) + multiset{Alias(process, address, w)}
    ensures !Registered(aliases, process, address) ==> Without(aliases, process, address) == aliases
  {
    if aliases != [] {
      var first, rest := aliases[0], aliases[1..];
      assert aliases == [first] + rest;
      RegisteredSplit(aliases, process, address);
      hide Registered;
      if first.process == process && first.address == address {
        assert multiset(aliases) == multiset(rest) + multiset{Alias(process, address, first.writable)};
      } else {
        UnmapTakesOne(rest, process, address);
        if Registered(rest, process, address) {
          var w :| multiset(rest) == multiset(Without(rest, process, address)) + multiset{Alias(process, address, w)};
          assert multiset(aliases) == multiset([first] + Without(rest, process, address)) + multiset{Alias(process, address, w)};
        }
      }
    }
  }

  /** A pin is taken exactly when every page of the inode can be protected and none is dirty; it is the only one added. */
  lemma PinTakenIff(s: State, pin: Pin, order: seq<nat>, tables: PageTables)
    requires Coherent(s) && Snapshot(s.pages, pin.identity, order)
    ensures var o := DoPin(s, pin, order, tables);
      && (o.ok <==> InodeRevocable(s, pin.identity, tables) && NoDirtyPage(s.pages, pin.identity))
      && o.state.pins == if o.ok then [pin] + s.pins else s.pins
  {
    hide Revocable, ProtectPages;
    ProtectPagesIff(s.pages, pin.identity, order, tables);
    ProtectPagesKeep(s.pages, pin.identity, order, tables);
    SnapshotRevocable(s, pin.identity, order, tables);
  }

  // ---- At most one mapped pin per process and inode ----

  ghost predicate UniqueMapped(pins: seq<Pin>) {
    forall process, identity :: MappedPins(pins, process, identity) <= 1
  }

  lemma {:induction false} MappedPinsAppend(left: seq<Pin>, right: seq<Pin>, process: Process, identity: Identity)
    ensures MappedPins(left + right, process, identity)
         == MappedPins(left, process, identity) + MappedPins(right, process, identity)
  {
    if left == [] {
      assert left + right == right;
    } else {
      assert (left + right)[1..] == left[1..] + right;
      MappedPinsAppend(left[1..], right, process, identity);
    }
  }

  lemma {:induction false} MappedPinsRemoved(pins: seq<Pin>, removed: Process, gone: Identity,
                                             process: Process, identity: Identity)
    ensures MappedPins(RemoveMapped(pins, removed, gone), process, identity) ==
      if process == removed && identity == gone && MappedPins(pins, process, identity) > 0
      then MappedPins(pins, process, identity) - 1 else MappedPins(pins, process, identity)
    ensures MappedPins(RemoveProcess(pins, removed), process, identity) ==
      if process == removed then 0 else MappedPins(pins, process, identity)
  {
    if pins != [] {
      MappedPinsRemoved(pins[1..], removed, gone, process, identity);
      MappedPinsAppend([pins[0]], RemoveMapped(pins[1..], removed, gone), process, identity);
      MappedPinsAppend([pins[0]], RemoveProcess(pins[1..], removed), process, identity);
      assert pins[1..] == [pins[0]][1..] + pins[1..];
      assert MappedPins([pins[0]], process, identity) == if pins[0] == Pin(process, identity, true) then 1 else 0;
    }
  }

  /** A full clone gives the child as many mapped pins as the parent has; a short one at most that many. */
  lemma {:induction false} MappedPinsCloned(pins: seq<Pin>, parent: Process, child: Process, budget: nat,
                                            process: Process, identity: Identity)
    ensures process != child ==> MappedPins(Clones(pins, parent, child, budget), process, identity) == 0
    ensures MappedPins(Clones(pins, parent, child, budget), child, identity) <= MappedPins(pins, parent, identity)
    ensures budget >= |pins| ==>
      MappedPins(Clones(pins, parent, child, budget), child, identity) == MappedPins(pins, parent, identity)
  {
    if pins != [] && budget > 0 {
      if pins[0].process == parent {
        var rest := Clones(pins[1..], parent, child, budget - 1);
        var clone := pins[0].(process := child);
        MappedPinsCloned(pins[1..], parent, child, budget - 1, process, identity);
        MappedPinsAppend(rest, [clone], process, identity);
        MappedPinsAppend(rest, [clone], child, identity);
        assert MappedPins([clone], process, identity) == if clone == Pin(process, identity, true) then 1 else 0;
        assert MappedPins([clone], child, identity) == if pins[0] == Pin(parent, identity, true) then 1 else 0;
      } else {
        MappedPinsCloned(pins[1..], parent, child, budget, process, identity);
      }
    }
  }

  lemma {:induction false} MappedPinsRenamed(pins: seq<Pin>, source: Process, destination: Process,
                                             process: Process, identity: Identity)
    requires source != destination
    ensures MappedPins(Renamed(pins, source, destination), process, identity) ==
      if process == source then 0
      else if process == destination
      then MappedPins(pins, source, identity) + MappedPins(pins, destination, identity)
      else MappedPins(pins, process, identity)
  {
    if pins != [] {
      MappedPinsRenamed(pins[1..], source, destination, process, identity);
      assert Renamed(pins, source, destination)[1..] == Renamed(pins[1..], source, destination);
    }
  }

  /** After a full clone the rule holds exactly when parent and child had no mapped inode in common. */
  lemma CloneUnique(pins: seq<Pin>, parent: Process, child: Process)
    requires UniqueMapped(pins)
    ensures UniqueMapped(Clones(pins, parent, child, |pins|) + pins) <==>
      forall identity :: MappedPins(pins, parent, identity) == 0 || MappedPins(pins, child, identity) == 0
  {
    var clones := Clones(pins, parent, child, |pins|);
    forall process, identity
      ensures MappedPins(clones + pins, process, identity) == MappedPins(pins, process, identity) +
        if process == child then MappedPins(pins, parent, identity) else 0
    {
      MappedPinsAppend(clones, pins, process, identity);
      MappedPinsCloned(pins, parent, child, |pins|, process, identity);
    }
    if UniqueMapped(clones + pins) {
      forall identity ensures MappedPins(pins, parent, identity) == 0 || MappedPins(pins, child, identity) == 0 {
        assert MappedPins(clones + pins, child, identity) <= 1;
      }
    } else {
      var process, identity :| MappedPins(clones + pins, process, identity) > 1;
      assert MappedPins(pins, process, identity) <= 1 && MappedPins(pins, parent, identity) > 0;
    }
  }

  /** The rule fails when the child already maps an inode of its parent. */
  lemma CloneCanDuplicate()
    ensures var pins := [Pin(1, 7, true), Pin(2, 7, true)];
      UniqueMapped(pins) && !UniqueMapped(Clones(pins, 1, 2, 2) + pins)
  {
    var pins := [Pin(1, 7, true), Pin(2, 7, true)];
    assert pins[1..] == [Pin(2, 7, true)] && pins[1..][1..] == [];
    forall process, identity
      ensures MappedPins(pins, process, identity) == if process in {1, 2} && identity == 7 then 1 else 0
    {
      assert MappedPins(pins[1..][1..], process, identity) == 0;
      assert MappedPins(pins[1..], process, identity) == if process == 2 && identity == 7 then 1 else 0;
    }
    CloneUnique(pins, 1, 2);
    assert MappedPins(pins, 1, 7) == 1 && MappedPins(pins, 2, 7) == 1;
  }

  /** Every clone of the section goes to a process that maps none of its parent's inodes. */
  ghost predicate FreshChild(s: State, a: Action) {
    a.ClonePins? ==> forall identity :: MappedPins(s.pins, a.parent, identity) == 0 || MappedPins(s.pins, a.child, identity) == 0
  }

  lemma SectionKeepsUnique(s: State, a: Action)
    requires WholePages(s.pages) && UniqueMapped(s.pins) && FreshChild(s, a)
    ensures UniqueMapped(Apply(s, a).state.pins)
  {
    hide ProtectPages, CompleteTruncate, UpdatePages, Splice, Resize, WholePages;
    var pins := Apply(s, a).state.pins;
    forall process, identity ensures MappedPins(pins, process, identity) <= 1 {
      match a
      case UnpinMapped(removed, gone) => MappedPinsRemoved(s.pins, removed, gone, process, identity);
      case UnpinAll(removed) => MappedPinsRemoved(s.pins, removed, identity, process, identity);
      case ClonePins(parent, child, budget) =>
        MappedPinsCloned(s.pins, parent, child, budget, process, identity);
        MappedPinsAppend(Clones(s.pins, parent, child, budget), s.pins, process, identity);
      case TransferPins(source, destination) =>
        if pins != s.pins {
          MappedPinsRemoved(s.pins, destination, identity, source, identity);
          MappedPinsRemoved(s.pins, destination, identity, destination, identity);
          MappedPinsRemoved(s.pins, destination, identity, process, identity);
          MappedPinsRenamed(RemoveProcess(s.pins, destination), source, destination, process, identity);
        }
      case PinMapped(owner, pinned, _, _) =>
        if pins != s.pins {
          MappedPinsAppend([Pin(owner, pinned, true)], s.pins, process, identity);
          assert [Pin(owner, pinned, true)][1..] == [];
        }
      case PinImage(owner, pinned, _, _, _) =>
        if pins != s.pins {
          MappedPinsAppend([Pin(owner, pinned, false)], s.pins, process, identity);
          assert [Pin(owner, pinned, false)][1..] == [];
        }
      case _ =>
        assert pins == s.pins;
    }
  }

  /** Clones in the run only go to processes that map none of the parent's inodes. */
  ghost predicate FreshChildren(s: State, run: seq<Action>)
    requires WholePages(s.pages)
    decreases |run|
  {
    run == [] || (FreshChild(s, run[0]) &&
                  (SectionWhole(s, run[0]); FreshChildren(Apply(s, run[0]).state, run[1..])))
  }

  lemma {:induction false} RunsKeepUnique(s: State, run: seq<Action>)
    requires WholePages(s.pages) && UniqueMapped(s.pins) && FreshChildren(s, run)
    ensures UniqueMapped(After(s, run).0.pins)
    decreases |run|
  {
    if run != [] {
      SectionWhole(s, run[0]);
      SectionKeepsUnique(s, run[0]);
      RunsKeepUnique(Apply(s, run[0]).state, run[1..]);
    }
  }

  /** Unpinning undoes the mapped pin that was taken last, and leaves the process none for that inode. */
  lemma UnpinUndoesPin(s: State, process: Process, identity: Identity, order: seq<nat>, tables: PageTables)
    requires Coherent(s) && identity in s.files && MappedPins(s.pins, process, identity) == 0
    requires Apply(s, PinMapped(process, identity, order, tables)).ok
    ensures RemoveMapped(Apply(s, PinMapped(process, identity, order, tables)).state.pins, process, identity) == s.pins
  {
    assert ([Pin(process, identity, true)] + s.pins)[1..] == s.pins;
  }
}
