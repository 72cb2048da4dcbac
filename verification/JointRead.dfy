/**
 `ReadCachedRegularFile` with the page cache and the shared pages as one machine: the versions the cache knows are the
 backend's, and every section of the shared pages that changes the backend advances the version under the same lock.
 */
module JointRead {
  import opened FileBytes
  import C = FileCache
  import CS = FileCacheSafety
  import P = SharedPages
  import Shared = SharedPageCoherence
  import opened CachedRead

  datatype Joint = Joint(world: World, shared: P.State)

  datatype JointStep =
    | StartTurn
    | TakePage
    | NoPage(retry: bool)
    | SeekTo(position: nat)
    | CacheSection(action: C.Action)
    | SharedSection(section: P.Action)

  /** `ReadSharedFilePageIfPresent` at the file position. */
  function Present(call: Call, j: Joint): Option<seq<Byte>> {
    var key := P.PageKey(call.identity, j.world.position / PAGE_SIZE);
    if key in j.shared.pages then Some(j.shared.pages[key].bytes) else None
  }

  /** The inode whose contents the section may change. */
  function Target(a: P.Action): Option<P.Identity> {
    match a
    case Flush(key, _, _) => Some(key.identity)
    case Write(identity, _, _, _, _, _, _) => Some(identity)
    case Truncate(identity, _, _, _, _) => Some(identity)
    case _ => None
  }

  /** Sections that run under vfs_lock. */
  predicate Locked(a: P.Action) {
    Target(a).Some? || a.Publish? || a.ResolveWrite? || a.PinImage? || a.PinMapped?
  }

  predicate Changes(s: P.State, s': P.State, identity: P.Identity) {
    identity in s.files && identity in s'.files && s'.files[identity].version != s.files[identity].version
  }

  /** A section of the shared pages; with a new version the cache learns the new contents. */
  ghost function DoShared(call: Call, j: Joint, a: P.Action): Joint
    requires P.WholePages(j.shared.pages)
  {
    if Locked(a) && j.world.cache.busy.Some? then j
    else
      var s' := P.Apply(j.shared, a).state;
      if Target(a).Some? && Changes(j.shared, s', Target(a).value)
      then Joint(CachedRead.Next(call, j.world, Other(C.Bump(Target(a).value, s'.files[Target(a).value].bytes))), s')
      else j.(shared := s')
  }

  ghost function JointNext(call: Call, j: Joint, step: JointStep): Joint
    requires P.WholePages(j.shared.pages)
  {
    match step
    case StartTurn => j.(world := DoBegin(call, j.world, Present(call, j)))
    case TakePage => j.(world := DoTake(call, j.world, Present(call, j)))
    case NoPage(retry) => j.(world := DoGiveUp(call, j.world, retry))
    case SeekTo(position) => j.(world := CachedRead.Next(call, j.world, Seek(position)))
    case CacheSection(a) => if a.Bump? then j else j.(world := CachedRead.Next(call, j.world, Other(a)))
    case SharedSection(a) => DoShared(call, j, a)
  }

  // ---- The invariant ----

  /** The cache's current version of every file is the backend. */
  ghost predicate Linked(j: Joint) {
    forall identity :: identity in j.shared.files ==> LinkedFile(j, identity)
  }

  predicate LinkedFile(j: Joint, identity: P.Identity)
    requires identity in j.shared.files
  {
    && C.Known(j.world.cache, identity) && C.Version(j.world.cache, identity) == j.shared.files[identity].version
    && C.Current(j.world.cache, identity) == j.shared.files[identity].bytes
  }

  ghost predicate JointGood(call: Call, j: Joint) {
    Good(call, j.world) && Shared.Coherent(j.shared) && Linked(j) && call.identity in j.shared.files
  }

  /** The section's lists are honest, and failed forks restore dirty pages only. */
  ghost predicate Fair(j: Joint, step: JointStep) {
    step.SharedSection? ==> P.Honest(j.shared, step.section) && P.StillDirty(j.shared, step.section)
  }

  // ---- Sections and versions ----

  lemma SpliceNothing(file: seq<Byte>, pos: nat)
    requires pos <= |file|
    ensures Splice(file, pos, []) == file
  {
  }

  /** A section changes the contents of at most its target, and then the version goes up by one. */
  predicate BumpsOnce(s: P.State, s': P.State, target: Option<P.Identity>) {
    && s'.files.Keys == s.files.Keys
    && forall identity :: identity in s.files && identity in s'.files ==>
         s'.files[identity] == s.files[identity]
         || (target == Some(identity) && s'.files[identity].version == s.files[identity].version + 1)
  }

  lemma FlushBumps(s: P.State, key: P.PageKey, tables: P.PageTables, written: nat)
    ensures BumpsOnce(s, P.DoFlush(s, key, tables, written).state, Some(key.identity))
  {
    hide P.Protect;
    if key.identity in s.files && key.Offset() <= |s.files[key.identity].bytes| {
      SpliceNothing(s.files[key.identity].bytes, key.Offset());
    }
  }

  lemma WriteBumps(s: P.State, identity: P.Identity, pos: nat, data: seq<Byte>, gap: nat, accepted: nat)
    requires P.WholePages(s.pages) && identity in s.files
    ensures BumpsOnce(s, P.WriteProtected(s, identity, pos, data, gap, accepted).state, Some(identity))
  {
    hide P.CompleteTruncate, P.UpdatePages;
    if pos <= |s.files[identity].bytes| {
      SpliceNothing(s.files[identity].bytes, pos);
    }
  }

  lemma DoWriteBumps(s: P.State, identity: P.Identity, pos: nat, data: seq<Byte>, order: seq<nat>, tables: P.PageTables, gap: nat,
                     accepted: nat)
    requires P.WholePages(s.pages)
    ensures BumpsOnce(s, P.DoWrite(s, identity, pos, data, order, tables, gap, accepted).state, Some(identity))
  {
    hide P.ProtectPages, P.WriteProtected;
    if data != [] && identity in s.files {
      var cleared := if pos > |s.files[identity].bytes| then P.ProtectPages(s.pages, identity, order, tables).0 else s.pages;
      P.ProtectPagesKeep(s.pages, identity, order, tables);
      P.ProtectPagesKeep(cleared, identity, P.Touched(pos, |data|), tables);
      WriteBumps(s.(pages := P.ProtectPages(cleared, identity, P.Touched(pos, |data|), tables).0), identity, pos, data, gap, accepted);
    }
  }

  lemma UntargetedFiles(s: P.State, a: P.Action)
    requires P.WholePages(s.pages) && Target(a).None?
    ensures P.Apply(s, a).state.files == s.files
  {
    hide P.ProtectPages, P.Clones, P.Transferred, P.RemoveMapped, P.RemoveProcess, P.Registered, P.WritableAt, P.Pinned;
  }

  lemma TruncateBumps(s: P.State, identity: P.Identity, size: nat, order: seq<nat>, tables: P.PageTables, backend: bool)
    requires P.WholePages(s.pages)
    ensures BumpsOnce(s, P.DoTruncate(s, identity, size, order, tables, backend).state, Some(identity))
  {
    hide P.ProtectPages, P.CompleteTruncate;
  }

  lemma SectionBumps(s: P.State, a: P.Action)
    requires P.WholePages(s.pages)
    ensures BumpsOnce(s, P.Apply(s, a).state, Target(a))
  {
    hide P.DoTruncate, P.DoWrite, P.DoFlush;
    match a
    case Flush(key, tables, written) => FlushBumps(s, key, tables, written);
    case Write(identity, pos, data, order, tables, gap, accepted) => DoWriteBumps(s, identity, pos, data, order, tables, gap, accepted);
    case Truncate(identity, size, order, tables, backend) => TruncateBumps(s, identity, size, order, tables, backend);
    case _ => UntargetedFiles(s, a);
  }

  // ---- Every step keeps the invariant ----

  lemma BumpLinked(call: Call, j: Joint, s': P.State, identity: P.Identity)
    requires Linked(j) && identity in j.shared.files && BumpsOnce(j.shared, s', Some(identity)) && j.world.cache.busy == None
    requires Changes(j.shared, s', identity)
    ensures Linked(Joint(CachedRead.Next(call, j.world, Other(C.Bump(identity, s'.files[identity].bytes))), s'))
  {
    hide CS.Safe;
    var world := CachedRead.Next(call, j.world, Other(C.Bump(identity, s'.files[identity].bytes)));
    var j' := Joint(world, s');
    assert LinkedFile(j, identity);
    assert world.cache == C.DoBump(j.world.cache, identity, s'.files[identity].bytes);
    forall other | other in s'.files ensures LinkedFile(j', other) {
      assert other in j.shared.files && LinkedFile(j, other);
    }
  }

  lemma SameLinked(j: Joint, s': P.State, target: Option<P.Identity>)
    requires Linked(j) && BumpsOnce(j.shared, s', target)
    requires target.Some? ==> !Changes(j.shared, s', target.value)
    ensures Linked(j.(shared := s'))
  {
    forall identity | identity in s'.files ensures LinkedFile(j.(shared := s'), identity) {
      assert identity in j.shared.files && LinkedFile(j, identity);
    }
  }

  lemma SharedGood(call: Call, j: Joint, a: P.Action)
    requires JointGood(call, j) && Fair(j, SharedSection(a))
    ensures P.WholePages(j.shared.pages) && JointGood(call, DoShared(call, j, a))
  {
    hide Good, P.Apply, P.Honest, P.StillDirty, Linked, BumpsOnce, CachedRead.Next;
    var s' := P.Apply(j.shared, a).state;
    SectionBumps(j.shared, a);
    Shared.SectionFaithful(j.shared, a);
    SameFiles(j.shared, s', Target(a));
    if Target(a).Some? && Changes(j.shared, s', Target(a).value) {
      var step := Other(C.Bump(Target(a).value, s'.files[Target(a).value].bytes));
      NextGood(call, j.world, step);
      if !(Locked(a) && j.world.cache.busy.Some?) { BumpLinked(call, j, s', Target(a).value); }
    } else {
      SameLinked(j, s', Target(a));
    }
  }

  lemma SameFiles(s: P.State, s': P.State, target: Option<P.Identity>)
    requires BumpsOnce(s, s', target)
    ensures s'.files.Keys == s.files.Keys
  {
  }

  lemma SameCacheFiles(call: Call, j: Joint, world: World)
    requires Linked(j) && world.cache.files == j.world.cache.files
    ensures Linked(j.(world := world))
  {
    forall identity | identity in j.shared.files ensures LinkedFile(j.(world := world), identity) {
      assert LinkedFile(j, identity);
    }
  }

  lemma PresentWhole(call: Call, j: Joint)
    requires Shared.Coherent(j.shared)
    ensures Present(call, j).Some? ==> |Present(call, j).value| == PAGE_SIZE
  {
  }

  lemma ReadKeepsFiles(call: Call, w: World, shared: Option<seq<Byte>>)
    ensures DoBegin(call, w, shared).cache.files == w.cache.files && DoTake(call, w, shared).cache.files == w.cache.files
  {
    hide Shows, C.DroppedEntries, C.DroppedPages;
  }

  lemma JointNextGood(call: Call, j: Joint, step: JointStep)
    requires JointGood(call, j) && Fair(j, step)
    ensures P.WholePages(j.shared.pages) && JointGood(call, JointNext(call, j, step))
  {
    hide Good, Linked, DoShared, DoBegin, DoTake, CachedRead.Next, P.Honest, P.StillDirty;
    match step
    case StartTurn =>
      PresentWhole(call, j);
      BeginGood(call, j.world, Present(call, j));
      ReadKeepsFiles(call, j.world, Present(call, j));
      SameCacheFiles(call, j, DoBegin(call, j.world, Present(call, j)));
    case TakePage =>
      PresentWhole(call, j);
      TakeGood(call, j.world, Present(call, j));
      ReadKeepsFiles(call, j.world, Present(call, j));
      SameCacheFiles(call, j, DoTake(call, j.world, Present(call, j)));
    case NoPage(retry) =>
      GiveUpGood(call, j.world, retry);
      SameCacheFiles(call, j, DoGiveUp(call, j.world, retry));
    case SeekTo(position) =>
      SeekGood(call, j.world, position);
      SeekKeepsFiles(call, j.world, position);
      SameCacheFiles(call, j, CachedRead.Next(call, j.world, Seek(position)));
    case CacheSection(a) =>
      if !a.Bump? {
        NextGood(call, j.world, Other(a));
        SectionKeepsFiles(call, j.world, a);
        SameCacheFiles(call, j, CachedRead.Next(call, j.world, Other(a)));
      }
    case SharedSection(a) => SharedGood(call, j, a);
  }

  lemma SeekKeepsFiles(call: Call, w: World, position: nat)
    ensures CachedRead.Next(call, w, Seek(position)).cache == w.cache
  {
  }

  lemma SectionKeepsFiles(call: Call, w: World, a: C.Action)
    requires !a.Bump?
    ensures CachedRead.Next(call, w, Other(a)).cache.files == w.cache.files
  {
    hide C.Apply;
    SectionFramed(call, w.cache, a);
  }

  ghost predicate FairRun(call: Call, j: Joint, run: seq<JointStep>)
    requires P.WholePages(j.shared.pages)
    decreases |run|
  {
    run == [] || (Fair(j, run[0]) && (JointWhole(call, j, run[0]); FairRun(call, JointNext(call, j, run[0]), run[1..])))
  }

  ghost function JointRan(call: Call, j: Joint, run: seq<JointStep>): Joint
    requires P.WholePages(j.shared.pages)
    decreases |run|
  {
    if run == [] then j
    else
      JointWhole(call, j, run[0]);
      JointRan(call, JointNext(call, j, run[0]), run[1..])
  }

  lemma JointWhole(call: Call, j: Joint, step: JointStep)
    requires P.WholePages(j.shared.pages)
    ensures P.WholePages(JointNext(call, j, step).shared.pages)
  {
    hide P.Apply, DoBegin, DoTake, CachedRead.Next;
    if step.SharedSection? { P.SectionWhole(j.shared, step.section); }
  }

  // ---- What a step copies ----

  /** The page a turn copies from: the shared one if there is one, else the cached one. */
  function Source(call: Call, j: Joint): seq<Byte> {
    var pc := C.PcOf(j.world.cache, call.thread);
    if Present(call, j).Some? then Present(call, j).value
    else if pc.Holding? && pc.entry in j.world.cache.entries && j.world.cache.entries[pc.entry].physical in j.world.cache.pages
    then j.world.cache.pages[j.world.cache.entries[pc.entry].physical].bytes else []
  }

  /** The turn appends `n` bytes of the source at the file position, going on where the last copy ended. */
  ghost predicate Appends(call: Call, j: Joint, w': World, n: nat) {
    var w, page := j.world, Source(call, j);
    && C.Known(w.cache, call.identity) && w.position + n <= |C.Current(w.cache, call.identity)|
    && |page| == PAGE_SIZE && w.position % PAGE_SIZE + n <= PAGE_SIZE
    && w'.copied == w.copied + page[w.position % PAGE_SIZE..w.position % PAGE_SIZE + n]
    && (w.copied != [] ==> w.position == w.expected)
    && w'.first == (if w.copied == [] then w.position else w.first) && w'.expected == w.position + n
    && w'.exact == (w.exact && Shows(page, C.Current(w.cache, call.identity), w.position, n))
    && (Present(call, j).None? ==> Shows(page, C.Current(w.cache, call.identity), w.position, n))
  }

  predicate SameCopy(w: World, w': World) {
    w'.copied == w.copied && w'.first == w.first && w'.expected == w.expected && w'.exact == w.exact
  }

  ghost predicate CopiesAtMost(call: Call, j: Joint, w': World) {
    SameCopy(j.world, w') || (|j.world.copied| <= |w'.copied| && Appends(call, j, w', |w'.copied| - |j.world.copied|))
  }

  lemma BeginCopies(call: Call, j: Joint)
    requires JointGood(call, j)
    ensures CopiesAtMost(call, j, DoBegin(call, j.world, Present(call, j)))
  {
    hide CS.Safe, OneSlice, Continues, Undisturbed, C.DoLook, Shows, Linked;
    PresentWhole(call, j);
  }

  lemma HeldShows(call: Call, j: Joint, n: nat)
    requires Good(call, j.world) && j.world.stage.Getting? && C.PcOf(j.world.cache, call.thread).Holding? && Present(call, j).None?
    requires C.Version(j.world.cache, call.identity) == j.world.stage.key.version && j.world.position == j.world.stage.position
    requires j.world.position % PAGE_SIZE + n <= PAGE_SIZE && j.world.position + n <= |C.Current(j.world.cache, call.identity)|
    ensures |Source(call, j)| == PAGE_SIZE && Shows(Source(call, j), C.Current(j.world.cache, call.identity), j.world.position, n)
  {
    hide CS.Safe, Shows, OneSlice, Undisturbed, Shared.Agrees;
    HeldPageAgrees(call, j.world);
    CleanShows(call, j.world, Source(call, j), n);
  }

  lemma TakeCopies(call: Call, j: Joint)
    requires JointGood(call, j)
    ensures CopiesAtMost(call, j, DoTake(call, j.world, Present(call, j)))
  {
    hide Good, C.DoFinish, Shows, Linked, Shared.Coherent, Appends, Copied;
    var w, pc := j.world, C.PcOf(j.world.cache, call.thread);
    if w.stage.Getting? && w.cache.busy == None && pc.Holding? && C.Known(w.cache, call.identity)
       && C.Version(w.cache, call.identity) == w.stage.key.version && w.position == w.stage.position {
      TakenAppends(call, j);
    }
  }

  /** The version and the position are unchanged, so the page can be copied. */
  ghost predicate Takes(call: Call, j: Joint) {
    && JointGood(call, j) && j.world.stage.Getting? && j.world.cache.busy == None && C.PcOf(j.world.cache, call.thread).Holding?
    && C.Known(j.world.cache, call.identity) && C.Version(j.world.cache, call.identity) == j.world.stage.key.version
    && j.world.position == j.world.stage.position
  }

  lemma TakesPlace(call: Call, j: Joint)
    requires Takes(call, j)
    ensures var w := j.world;
      && w.position < |C.Current(w.cache, call.identity)| && w.position % PAGE_SIZE + w.stage.length <= PAGE_SIZE
      && (w.copied != [] ==> w.position == w.expected)
  {
    hide CS.Safe, OneSlice, Undisturbed, Linked, Shared.Coherent;
  }

  lemma TakesPage(call: Call, j: Joint)
    requires Takes(call, j)
    ensures var w, pc := j.world, C.PcOf(j.world.cache, call.thread);
      && pc.entry in w.cache.entries && w.cache.entries[pc.entry].physical in w.cache.pages && |Source(call, j)| == PAGE_SIZE
  {
    hide Good, Linked, Shared.Agrees;
    PresentWhole(call, j);
    HeldPageAgrees(call, j.world);
  }

  lemma TakenAppends(call: Call, j: Joint)
    requires Takes(call, j)
    ensures CopiesAtMost(call, j, DoTake(call, j.world, Present(call, j)))
  {
    hide Good, C.DoFinish, Shows, Linked, Shared.Coherent;
    TakesPlace(call, j);
    TakesPage(call, j);
    var n := Min(j.world.stage.length, |C.Current(j.world.cache, call.identity)| - j.world.position);
    if Present(call, j).None? { HeldShows(call, j, n); }
  }

  // ---- When the bytes are those of a version ----

  /** The shared page over the bytes the step copies, if there is one, is clean or equals the backend there. */
  ghost predicate Settled(call: Call, j: Joint, step: JointStep)
    requires P.WholePages(j.shared.pages)
  {
    var n := |JointNext(call, j, step).world.copied| - |j.world.copied|;
    (step.StartTurn? || step.TakePage?) && n > 0 ==> SettledPage(call, j, n)
  }

  ghost predicate SettledPage(call: Call, j: Joint, n: nat) {
    var key := P.PageKey(call.identity, j.world.position / PAGE_SIZE);
    key in j.shared.pages && call.identity in j.shared.files ==>
      !j.shared.pages[key].dirty || Shows(j.shared.pages[key].bytes, j.shared.files[call.identity].bytes, j.world.position, n)
  }

  ghost predicate SettledRun(call: Call, j: Joint, run: seq<JointStep>)
    requires P.WholePages(j.shared.pages)
    decreases |run|
  {
    run == [] || (Settled(call, j, run[0]) && (JointWhole(call, j, run[0]); SettledRun(call, JointNext(call, j, run[0]), run[1..])))
  }

  lemma SettledShows(call: Call, j: Joint, n: nat)
    requires JointGood(call, j) && Present(call, j).Some? && j.world.position % PAGE_SIZE + n <= PAGE_SIZE
    requires j.world.position + n <= |C.Current(j.world.cache, call.identity)|
    ensures SettledPage(call, j, n) <==> Shows(Present(call, j).value, C.Current(j.world.cache, call.identity), j.world.position, n)
  {
    hide Good, Shows;
    assert LinkedFile(j, call.identity);
    var key := P.PageKey(call.identity, j.world.position / PAGE_SIZE);
    if !j.shared.pages[key].dirty {
      CoherentPageIsClean(call, j.world, j.shared, Present(call, j).value);
      CleanShows(call, j.world, Present(call, j).value, n);
    }
  }

  lemma NothingShows(page: seq<Byte>, file: seq<Byte>, position: nat)
    requires |page| == PAGE_SIZE && position <= |file|
    ensures Shows(page, file, position, 0)
  {
  }

  lemma TurnExact(call: Call, j: Joint, w': World)
    requires JointGood(call, j) && CopiesAtMost(call, j, w')
    ensures w'.exact <==> j.world.exact && (|w'.copied| > |j.world.copied| ==> SettledPage(call, j, |w'.copied| - |j.world.copied|))
  {
    hide Good, Shows, Linked, Shared.Coherent, SettledPage;
    if !SameCopy(j.world, w') {
      var n := |w'.copied| - |j.world.copied|;
      if n == 0 {
        NothingShows(Source(call, j), C.Current(j.world.cache, call.identity), j.world.position);
      } else if Present(call, j).Some? {
        SettledShows(call, j, n);
      } else {
        AbsentSettled(call, j, n);
      }
    }
  }

  lemma AbsentSettled(call: Call, j: Joint, n: nat)
    requires Present(call, j).None?
    ensures SettledPage(call, j, n)
  {
  }

  lemma OthersExact(call: Call, j: Joint, step: JointStep)
    requires P.WholePages(j.shared.pages) && !step.StartTurn? && !step.TakePage?
    ensures SameCopy(j.world, JointNext(call, j, step).world)
  {
    hide C.Apply, P.Apply;
  }

  lemma StepExact(call: Call, j: Joint, step: JointStep)
    requires JointGood(call, j)
    ensures P.WholePages(j.shared.pages)
    ensures JointNext(call, j, step).world.exact <==> j.world.exact && Settled(call, j, step)
  {
    hide JointGood, DoBegin, DoTake, CopiesAtMost, SettledPage, DoShared;
    GoodWhole(call, j);
    match step
    case StartTurn => BeginCopies(call, j); TurnExact(call, j, DoBegin(call, j.world, Present(call, j)));
    case TakePage => TakeCopies(call, j); TurnExact(call, j, DoTake(call, j.world, Present(call, j)));
    case _ => OthersExact(call, j, step);
  }

  lemma GoodWhole(call: Call, j: Joint)
    requires JointGood(call, j)
    ensures P.WholePages(j.shared.pages)
  {
  }

  lemma {:induction false} RunExact(call: Call, j: Joint, run: seq<JointStep>)
    requires JointGood(call, j) && P.WholePages(j.shared.pages) && FairRun(call, j, run)
    ensures JointGood(call, JointRan(call, j, run))
    ensures JointRan(call, j, run).world.exact <==> j.world.exact && SettledRun(call, j, run)
    decreases |run|
  {
    hide JointGood, Settled, Fair, JointNext;
    if run != [] {
      JointWhole(call, j, run[0]);
      StepExact(call, j, run[0]);
      JointNextGood(call, j, run[0]);
      RunExact(call, JointNext(call, j, run[0]), run[1..]);
    }
  }

  /** A call about to start beside a coherent table of shared pages and a cache that agree on the files. */
  ghost predicate Ready(call: Call, cache: C.State, shared: P.State) {
    && CS.Safe(cache) && C.PcOf(cache, call.thread) == C.Idle && call.identity in shared.files
    && Shared.Coherent(shared) && Linked(Joint(Started(call, cache), shared))
  }

  lemma ReadyGood(call: Call, cache: C.State, shared: P.State)
    requires Ready(call, cache, shared)
    ensures JointGood(call, Joint(Started(call, cache), shared))
  {
    hide CS.Safe, Shared.Coherent;
    assert LinkedFile(Joint(Started(call, cache), shared), call.identity);
  }

  /**
   However readers, writers, stores through mappings, flushes, truncations, evictions and seeks interleave, the bytes
   copied are the contiguous slice of one content version that begins where the first copy began if and only if, at each
   copy, the shared page copied from was clean or equal to the backend there.
   */
  lemma ReadsOneSliceIffSettled(call: Call, cache: C.State, shared: P.State, run: seq<JointStep>)
    requires Ready(call, cache, shared) && P.WholePages(shared.pages) && FairRun(call, Joint(Started(call, cache), shared), run)
    ensures var j := Joint(Started(call, cache), shared);
      var w := JointRan(call, j, run).world;
      && |w.copied| <= call.count && w.position == call.start + |w.copied| + w.displaced
      && (w.copied != [] ==>
            && HasVersion(w.cache, call.identity, w.version)
            && w.first + |w.copied| <= |Contents(w.cache, call.identity, w.version)|
            && (w.copied == Contents(w.cache, call.identity, w.version)[w.first..w.first + |w.copied|] <==> SettledRun(call, j, run)))
  {
    hide CS.Safe, FairRun, JointRan, SettledRun, Linked, Shared.Coherent;
    ReadyGood(call, cache, shared);
    RunExact(call, Joint(Started(call, cache), shared), run);
  }

  // ---- A condition on the pages before the call ----

  /** The section stores to the file, writes it back or changes it. */
  predicate Touches(a: P.Action, identity: P.Identity) {
    Target(a) == Some(identity) || (a.UserStore? && a.key.identity == identity)
  }

  predicate Leaves(call: Call, step: JointStep) {
    step.SharedSection? ==> !Touches(step.section, call.identity)
  }

  lemma EditsOfOthers(s: P.State, a: P.Action, identity: P.Identity)
    requires P.WholePages(s.pages) && !Touches(a, identity)
    ensures forall e :: e in P.Apply(s, a).edits ==> e.identity != identity
  {
    hide P.Protect, P.ProtectPages, P.CompleteTruncate, P.Accepted, P.Resized;
  }

  lemma {:induction false} ReplayOfOthers(flat: Shared.Flat, edits: seq<P.Edit>, identity: P.Identity)
    requires identity in flat && forall e :: e in edits ==> e.identity != identity
    ensures identity in Shared.Replay(flat, edits) && Shared.Replay(flat, edits)[identity] == flat[identity]
    decreases |edits|
  {
    if edits != [] {
      ReplayOfOthers(Shared.Edited(flat, edits[0]), edits[1..], identity);
    }
  }

  lemma SectionKeepsSeen(call: Call, s: P.State, a: P.Action)
    requires Shared.Coherent(s) && P.Honest(s, a) && P.StillDirty(s, a) && call.identity in s.files && !Touches(a, call.identity)
    ensures P.WholePages(P.Apply(s, a).state.pages) && call.identity in P.Apply(s, a).state.files
    ensures P.Apply(s, a).state.files[call.identity] == s.files[call.identity]
    ensures Shared.Seen(P.Apply(s, a).state, call.identity) == Shared.Seen(s, call.identity)
  {
    hide P.Apply, P.Honest, P.StillDirty, Shared.Seen, Shared.Replay;
    var s' := P.Apply(s, a).state;
    Shared.SectionFaithful(s, a);
    SectionBumps(s, a);
    EditsOfOthers(s, a, call.identity);
    assert Shared.View(s)[call.identity] == Shared.Seen(s, call.identity);
    ReplayOfOthers(Shared.View(s), P.Apply(s, a).edits, call.identity);
    assert Shared.View(s')[call.identity] == Shared.Seen(s', call.identity);
  }

  /** What was copied is a slice of what readers of the shared pages see. */
  ghost predicate CopiedSeen(w: World, seen: seq<Byte>) {
    w.copied != [] ==> w.expected == w.first + |w.copied| <= |seen| && w.copied == seen[w.first..w.expected]
  }

  lemma SourceShowsSeen(call: Call, j: Joint, n: nat)
    requires JointGood(call, j) && |Source(call, j)| == PAGE_SIZE && j.world.position % PAGE_SIZE + n <= PAGE_SIZE
    requires j.world.position + n <= |C.Current(j.world.cache, call.identity)|
    requires Present(call, j).None? ==> Shows(Source(call, j), C.Current(j.world.cache, call.identity), j.world.position, n)
    ensures Shows(Source(call, j), Shared.Seen(j.shared, call.identity), j.world.position, n)
  {
    hide Good, Shows, Shared.Coherent;
    assert LinkedFile(j, call.identity);
    GoodWhole(call, j);
    if Present(call, j).Some? {
      DirtyPageShowsView(j.shared, call.identity, j.world.position, n);
    } else {
      BackendShown(call, j, n);
    }
  }

  /** Where there is no shared page readers see the backend. */
  lemma BackendShown(call: Call, j: Joint, n: nat)
    requires P.WholePages(j.shared.pages) && call.identity in j.shared.files && Present(call, j).None?
    requires j.world.position % PAGE_SIZE + n <= PAGE_SIZE && j.world.position + n <= |j.shared.files[call.identity].bytes|
    ensures Shared.Seen(j.shared, call.identity)[j.world.position..j.world.position + n]
         == j.shared.files[call.identity].bytes[j.world.position..j.world.position + n]
    ensures Shows(Source(call, j), j.shared.files[call.identity].bytes, j.world.position, n) ==>
      Shows(Source(call, j), Shared.Seen(j.shared, call.identity), j.world.position, n)
  {
    var p, seen, file := j.world.position, Shared.Seen(j.shared, call.identity), j.shared.files[call.identity].bytes;
    var left, right := seen[p..p + n], file[p..p + n];
    forall i | 0 <= i < n ensures left[i] == right[i] {
      SamePage(p, i);
    }
  }

  lemma TurnSeen(call: Call, j: Joint, w': World)
    requires JointGood(call, j) && CopiesAtMost(call, j, w') && P.WholePages(j.shared.pages)
    requires CopiedSeen(j.world, Shared.Seen(j.shared, call.identity))
    ensures CopiedSeen(w', Shared.Seen(j.shared, call.identity))
  {
    hide Good, Linked, Shared.Coherent, Shows, Source, Shared.Seen, CopiedSeen;
    if SameCopy(j.world, w') {
      SameSeen(j.world, w', Shared.Seen(j.shared, call.identity));
    } else {
      var n, seen := |w'.copied| - |j.world.copied|, Shared.Seen(j.shared, call.identity);
      SourceShowsSeen(call, j, n);
      ShownPart(Source(call, j), seen, j.world.position, n);
      GrownSeen(j.world, w', seen, n);
    }
  }

  lemma SameSeen(w: World, w': World, seen: seq<Byte>)
    requires CopiedSeen(w, seen) && SameCopy(w, w')
    ensures CopiedSeen(w', seen)
  {
  }

  lemma GrownSeen(w: World, w': World, seen: seq<Byte>, n: nat)
    requires CopiedSeen(w, seen) && w.position + n <= |seen| && w'.copied == w.copied + seen[w.position..w.position + n]
    requires (w.copied != [] ==> w.position == w.expected) && w'.expected == w.position + n
    requires w'.first == if w.copied == [] then w.position else w.first
    ensures CopiedSeen(w', seen)
  {
    if w.copied != [] {
      SliceGrows(seen, w.first, w.position, w.position + n);
    }
  }

  lemma ShownPart(page: seq<Byte>, file: seq<Byte>, position: nat, n: nat)
    requires Shows(page, file, position, n)
    ensures position % PAGE_SIZE + n <= |page| && position + n <= |file|
    ensures page[position % PAGE_SIZE..position % PAGE_SIZE + n] == file[position..position + n]
  {
  }

  lemma LeavingSection(call: Call, j: Joint, a: P.Action)
    requires JointGood(call, j) && Fair(j, SharedSection(a)) && Leaves(call, SharedSection(a)) && P.WholePages(j.shared.pages)
    ensures var j' := DoShared(call, j, a);
      && P.WholePages(j'.shared.pages) && call.identity in j'.shared.files
      && j'.shared.files[call.identity] == j.shared.files[call.identity]
      && Shared.Seen(j'.shared, call.identity) == Shared.Seen(j.shared, call.identity)
  {
    hide P.Apply, P.Honest, P.StillDirty, Shared.Seen, Good, CachedRead.Next, Shared.Coherent;
    SectionKeepsSeen(call, j.shared, a);
  }

  lemma StepSeen(call: Call, j: Joint, step: JointStep)
    requires JointGood(call, j) && Fair(j, step) && Leaves(call, step) && P.WholePages(j.shared.pages)
    requires CopiedSeen(j.world, Shared.Seen(j.shared, call.identity))
    ensures var j' := JointNext(call, j, step);
      && P.WholePages(j'.shared.pages) && call.identity in j'.shared.files
      && j'.shared.files[call.identity] == j.shared.files[call.identity]
      && Shared.Seen(j'.shared, call.identity) == Shared.Seen(j.shared, call.identity)
      && CopiedSeen(j'.world, Shared.Seen(j.shared, call.identity))
  {
    hide Good, DoBegin, DoTake, CopiesAtMost, DoShared, Shared.Seen, Shared.Coherent, Fair;
    match step
    case StartTurn => BeginCopies(call, j); TurnSeen(call, j, DoBegin(call, j.world, Present(call, j)));
    case TakePage => TakeCopies(call, j); TurnSeen(call, j, DoTake(call, j.world, Present(call, j)));
    case SharedSection(a) => OthersExact(call, j, step); LeavingSection(call, j, a);
    case _ => OthersExact(call, j, step);
  }

  lemma {:induction false} RunSeen(call: Call, j: Joint, run: seq<JointStep>)
    requires JointGood(call, j) && P.WholePages(j.shared.pages) && FairRun(call, j, run)
    requires forall k :: 0 <= k < |run| ==> Leaves(call, run[k])
    requires CopiedSeen(j.world, Shared.Seen(j.shared, call.identity))
    ensures CopiedSeen(JointRan(call, j, run).world, Shared.Seen(j.shared, call.identity))
    decreases |run|
  {
    hide JointNext, Fair, CopiedSeen, Shared.Seen, Good, Shared.Coherent, Linked, Leaves;
    if run != [] {
      StepSeen(call, j, run[0]);
      JointNextGood(call, j, run[0]);
      RunSeen(call, JointNext(call, j, run[0]), run[1..]);
    }
  }

  /** From `first` on, for `n` bytes, every shared page of the file is clean or equals the backend. */
  ghost predicate SettledRange(shared: P.State, identity: P.Identity, first: nat, n: nat)
    requires P.WholePages(shared.pages) && identity in shared.files && first + n <= |shared.files[identity].bytes|
  {
    forall i :: first <= i < first + n ==> SettledByte(shared, identity, i)
  }

  ghost predicate SettledByte(shared: P.State, identity: P.Identity, i: nat)
    requires P.WholePages(shared.pages) && identity in shared.files && i < |shared.files[identity].bytes|
  {
    var key := P.PageKey(identity, i / PAGE_SIZE);
    key in shared.pages ==> !shared.pages[key].dirty || shared.pages[key].bytes[i % PAGE_SIZE] == shared.files[identity].bytes[i]
  }

  lemma SettledSeen(shared: P.State, identity: P.Identity, first: nat, n: nat)
    requires Shared.Coherent(shared) && identity in shared.files && first + n <= |shared.files[identity].bytes|
    ensures SettledRange(shared, identity, first, n) <==>
      Shared.Seen(shared, identity)[first..first + n] == shared.files[identity].bytes[first..first + n]
  {
    var seen, file := Shared.Seen(shared, identity), shared.files[identity].bytes;
    var left, right := seen[first..first + n], file[first..first + n];
    forall i | first <= i < first + n ensures SettledByte(shared, identity, i) <==> left[i - first] == right[i - first] {
      ByteSettled(shared, identity, i);
    }
    if SettledRange(shared, identity, first, n) {
      forall k | 0 <= k < n ensures left[k] == right[k] { assert SettledByte(shared, identity, first + k); }
    }
  }

  lemma ByteSettled(shared: P.State, identity: P.Identity, i: nat)
    requires Shared.Coherent(shared) && identity in shared.files && i < |shared.files[identity].bytes|
    ensures SettledByte(shared, identity, i) <==> Shared.Seen(shared, identity)[i] == shared.files[identity].bytes[i]
  {
    var key := P.PageKey(identity, i / PAGE_SIZE);
    if key in shared.pages {
      assert Shared.PageCoherent(shared, key);
      assert key.Offset() + i % PAGE_SIZE == i;
    }
  }

  /**
   While nobody stores to the file, writes it back or changes it, a call returns a slice of what readers of the shared
   pages saw before the call; that is a slice of the file if and only if, before the call, every shared page over it was
   clean or equal to the backend there.
   */
  lemma UndisturbedReadIff(call: Call, cache: C.State, shared: P.State, run: seq<JointStep>)
    requires Ready(call, cache, shared) && P.WholePages(shared.pages) && FairRun(call, Joint(Started(call, cache), shared), run)
    requires forall k :: 0 <= k < |run| ==> Leaves(call, run[k])
    ensures var w := JointRan(call, Joint(Started(call, cache), shared), run).world;
      w.copied != [] ==>
        var file, seen, n := shared.files[call.identity].bytes, Shared.Seen(shared, call.identity), |w.copied|;
        && w.first + n <= |file| && w.copied == seen[w.first..w.first + n]
        && (w.copied == file[w.first..w.first + n] <==> SettledRange(shared, call.identity, w.first, n))
  {
    hide CS.Safe, FairRun, JointRan, Linked, SettledRange, Shared.Coherent, Leaves;
    var j := Joint(Started(call, cache), shared);
    ReadyGood(call, cache, shared);
    RunSeen(call, j, run);
    var w := JointRan(call, j, run).world;
    if w.copied != [] {
      SettledSeen(shared, call.identity, w.first, |w.copied|);
    }
  }
}
