/**
 `ReadCachedRegularFile` beside any other users of the page cache and of the open file.

 One call is followed through the sections it runs under `vfs_lock`; between them the other
 threads run arbitrary cache sections, file contents change, and the file position moves.
 */
module CachedRead {
  import opened FileBytes
  import opened FileCache
  import opened FileCacheSafety
  import SharedPages
  import Shared = SharedPageCoherence

  /** One call: the calling thread, the inode, the requested length and the file position at entry. */
  datatype Call = Call(thread: ThreadId, identity: Identity, count: nat, start: nat)

  datatype Stage =
    | Top
    | Getting(position: nat, key: Key, length: nat)
    | Returned
    | Failed

  /**
   `copied`, `expected` and `version` are the loop's variables (`copied` stands for the filled part of
   the buffer). `first`, `displaced`, `quiet` and `exact` only record history: where the first copy began, how far
   others moved the file position, whether nobody moved it or changed the file and no page failed, and whether
   every page showed the file's own bytes where it was copied from.
   */
  datatype World = World(cache: State, position: nat, stage: Stage, copied: seq<Byte>, expected: nat, version: nat,
                         first: nat, displaced: int, quiet: bool, exact: bool)

  datatype Step =
    | Begin(shared: Option<seq<Byte>>)
    | Take(shared: Option<seq<Byte>>)
    | GiveUp(retry: bool)
    | Seek(position: nat)
    | Other(a: Action)

  function Started(call: Call, cache: State): World {
    World(cache, call.start, Top, [], 0, 0, 0, 0, true, true)
  }

  /** The page shows `length` bytes of the file at its place. */
  predicate Shows(page: seq<Byte>, file: seq<Byte>, position: nat, length: nat) {
    && position % PAGE_SIZE + length <= |page| && position + length <= |file|
    && page[position % PAGE_SIZE..position % PAGE_SIZE + length] == file[position..position + length]
  }

  /** Copies `length` bytes at `at` of a page, advances the position and the loop variables. */
  function Copied(w: World, page: seq<Byte>, at: nat, length: nat, version: nat, shows: bool): World
    requires at + length <= |page|
  {
    w.(position := w.position + length, copied := w.copied + page[at..at + length],
       expected := w.position + length, version := version, stage := Top,
       first := if w.copied == [] then w.position else w.first, exact := w.exact && shows)
  }

  /** The section at the top of the loop. */
  function DoBegin(call: Call, w: World, shared: Option<seq<Byte>>): World {
    if !w.stage.Top? || w.cache.busy.Some? || !Known(w.cache, call.identity) then w
    else if |w.copied| >= call.count then w.(stage := Returned)
    else
      var file := Current(w.cache, call.identity);
      var version := Version(w.cache, call.identity);
      if w.copied != [] && (version != w.version || w.position != w.expected) then w.(stage := Returned)
      else if w.position >= |file| then w.(stage := Returned)
      else
        var at := w.position % PAGE_SIZE;
        var key := Key(call.identity, version, w.position / PAGE_SIZE);
        var length := Min(call.count - |w.copied|, Min(PAGE_SIZE - at, |file| - w.position));
        match shared
        case Some(page) => if |page| != PAGE_SIZE then w else Copied(w, page, at, length, version, Shows(page, file, w.position, length))
        case None =>
          w.(stage := Getting(w.position, key, length),
             cache := DoLook(w.cache, call.thread, call.identity, key.index))
  }

  /** `GetCachedPage` returned a Ready page: the section that revalidates and copies. */
  function DoTake(call: Call, w: World, shared: Option<seq<Byte>>): World {
    var pc := PcOf(w.cache, call.thread);
    if !w.stage.Getting? || w.cache.busy.Some? || !Known(w.cache, call.identity)
       || !pc.Holding? || pc.entry !in w.cache.entries || w.cache.entries[pc.entry].physical !in w.cache.pages then w
    else
      var done := w.(cache := DoFinish(w.cache, call.thread));
      var file := Current(w.cache, call.identity);
      if Version(w.cache, call.identity) != w.stage.key.version || w.position != w.stage.position then done.(stage := Top)
      else
        var at := w.position % PAGE_SIZE;
        var length := if |file| < w.position then 0 else Min(w.stage.length, |file| - w.position);
        var page := if shared.Some? then shared.value else w.cache.pages[w.cache.entries[pc.entry].physical].bytes;
        if at + length > |page| then w else Copied(done, page, at, length, w.stage.key.version, Shows(page, file, w.position, length))
  }

  /** `GetCachedPage` returned Retry or Error. */
  function DoGiveUp(call: Call, w: World, retry: bool): World {
    if !w.stage.Getting? || PcOf(w.cache, call.thread) != Idle then w
    else if retry then w.(stage := Top)
    else w.(stage := if w.copied != [] then Returned else Failed, quiet := false)
  }

  /** Sections that are not the caller leaving `GetCachedPage` on its own account. */
  predicate Foreign(call: Call, a: Action) {
    !((a.Look? || a.Finish? || a.RetainMapping? || a.Validate?) && a.thread == call.thread)
  }

  ghost function Next(call: Call, w: World, step: Step): World {
    match step
    case Begin(shared) => DoBegin(call, w, shared)
    case Take(shared) => DoTake(call, w, shared)
    case GiveUp(retry) => DoGiveUp(call, w, retry)
    case Seek(position) =>
      w.(position := position, displaced := w.displaced + position - w.position, quiet := false)
    case Other(a) =>
      if !Foreign(call, a) then w
      else w.(cache := Apply(w.cache, a), quiet := w.quiet && !(a.Bump? && a.identity == call.identity))
  }

  /** A shared page of the position is clean: it agrees with the file wherever the file has bytes. */
  ghost predicate CleanPage(call: Call, w: World, page: seq<Byte>) {
    |page| == PAGE_SIZE && Known(w.cache, call.identity) &&
    Shared.Agrees(page, Current(w.cache, call.identity), w.position / PAGE_SIZE * PAGE_SIZE)
  }

  ghost predicate Clean(call: Call, w: World, step: Step) {
    (step.Begin? || step.Take?) && step.shared.Some? ==> CleanPage(call, w, step.shared.value)
  }

  /** Shared pages are whole pages, clean or not. */
  predicate Whole(step: Step) {
    (step.Begin? || step.Take?) && step.shared.Some? ==> |step.shared.value| == PAGE_SIZE
  }

  ghost predicate CleanRun(call: Call, w: World, run: seq<Step>)
    decreases |run|
  {
    run == [] || (Clean(call, w, run[0]) && CleanRun(call, Next(call, w, run[0]), run[1..]))
  }

  ghost function Ran(call: Call, w: World, run: seq<Step>): World
    decreases |run|
  {
    if run == [] then w else Ran(call, Next(call, w, run[0]), run[1..])
  }

  // ---- The invariant ----

  function Contents(s: State, identity: Identity, version: nat): seq<Byte>
    requires identity in s.files && 1 <= version <= |s.files[identity]|
  {
    s.files[identity][version - 1]
  }

  predicate HasVersion(s: State, identity: Identity, version: nat) {
    identity in s.files && 1 <= version <= |s.files[identity]|
  }

  /** What was copied stands for one slice of one version, and is that slice exactly when the pages showed it. */
  predicate OneSlice(call: Call, w: World) {
    && HasVersion(w.cache, call.identity, w.version)
    && w.expected == w.first + |w.copied| <= |Contents(w.cache, call.identity, w.version)|
    && (w.exact <==> w.copied == Contents(w.cache, call.identity, w.version)[w.first..w.expected])
  }

  /** The page being fetched continues what was copied. */
  predicate Continues(call: Call, w: World)
    requires w.stage.Getting?
  {
    var stage, pc := w.stage, PcOf(w.cache, call.thread);
    && HasVersion(w.cache, call.identity, stage.key.version) && stage.key.identity == call.identity
    && stage.position < |Contents(w.cache, call.identity, stage.key.version)|
    && stage.key.index == stage.position / PAGE_SIZE
    && stage.position % PAGE_SIZE + stage.length <= PAGE_SIZE
    && stage.length <= call.count - |w.copied|
    && (w.copied != [] ==> stage.position == w.expected && stage.key.version == w.version)
    && (pc.Idle? || pc.key == stage.key)
  }

  predicate Undisturbed(call: Call, w: World) {
    && w.displaced == 0 && Known(w.cache, call.identity)
    && (w.copied != [] ==> w.first == call.start && w.version == Version(w.cache, call.identity))
    && (w.stage.Returned? ==> |w.copied| >= call.count || w.position >= |Current(w.cache, call.identity)|)
  }

  ghost predicate Good(call: Call, w: World) {
    && Safe(w.cache) && Known(w.cache, call.identity)
    && (w.copied != [] ==> OneSlice(call, w))
    && |w.copied| <= call.count
    && w.position == call.start + |w.copied| + w.displaced
    && (if w.stage.Getting? then Continues(call, w) else PcOf(w.cache, call.thread).Idle?)
    && (w.quiet ==> Undisturbed(call, w))
    && (w.stage.Failed? ==> w.copied == [])
    && (w.copied == [] ==> w.exact)
  }

  // ---- What other sections leave alone ----

  lemma {:induction false} RemovalKeepsFiles(s: State, keys: seq<Key>)
    ensures RemoveRecords(s, keys).files == s.files && RemoveRecords(s, keys).threads == s.threads
    decreases |keys|
  {
    if keys != [] {
      RemovalKeepsFiles(RemoveRecord(s, keys[0]), keys[1..]);
    }
  }

  predicate BySelf(call: Call, a: Action) {
    !a.Unmap? && !a.Bump? && !a.Invalidate? && !a.Detach? && !a.ForgetRecord? && a.thread == call.thread
  }

  /** The section leaves the files alone unless it is a version bump, and moves no thread but its own. */
  predicate Framed(call: Call, s: State, a: Action, s': State) {
    && (!a.Bump? ==> s'.files == s.files)
    && (!BySelf(call, a) ==> PcOf(s', call.thread) == PcOf(s, call.thread))
  }

  lemma LookupFramed(call: Call, s: State, a: Action)
    requires a.Look? || a.Hit? || a.Miss? || a.Insert?
    ensures Framed(call, s, a, Apply(s, a))
  {
    hide DroppedEntries, DroppedPages;
  }

  lemma FillFramed(call: Call, s: State, a: Action)
    requires a.Allocate? || a.Fill?
    ensures Framed(call, s, a, Apply(s, a))
  {
    hide IsCurrent, PaddedPage, Zeros;
  }

  lemma ReferenceFramed(call: Call, s: State, a: Action)
    requires a.Adopt? || a.RetainCache? || a.ReleaseFirstMapping? || a.RetainMapping?
    ensures Framed(call, s, a, Apply(s, a))
  {
    hide ReleaseMapping;
  }

  lemma CompleteFramed(call: Call, s: State, a: Action)
    requires a.Complete?
    ensures Framed(call, s, a, Apply(s, a))
  {
    hide DroppedEntries, DroppedPages;
  }

  lemma LeaveFramed(call: Call, s: State, a: Action)
    requires a.Signal? || a.Await? || a.Finish? || a.Validate?
    ensures Framed(call, s, a, Apply(s, a))
  {
    hide DroppedEntries, DroppedPages, ReleaseMapping, IsCurrent, Installed;
  }

  lemma SharedFramed(call: Call, s: State, a: Action)
    requires a.Unmap? || a.Bump? || a.Invalidate? || a.Detach? || a.ForgetRecord?
    ensures Framed(call, s, a, Apply(s, a))
  {
    hide DroppedEntries, DroppedPages, ReleaseMapping, Inactive, Installed;
    if a.Invalidate? {
      RemovalKeepsFiles(s, a.stale);
    }
  }

  lemma SectionFramed(call: Call, s: State, a: Action)
    ensures Framed(call, s, a, Apply(s, a))
  {
    hide Framed, Apply;
    if a.Look? || a.Hit? || a.Miss? || a.Insert? {
      LookupFramed(call, s, a);
    } else if a.Allocate? || a.Fill? {
      FillFramed(call, s, a);
    } else if a.Adopt? || a.RetainCache? || a.ReleaseFirstMapping? || a.RetainMapping? {
      ReferenceFramed(call, s, a);
    } else if a.Complete? {
      CompleteFramed(call, s, a);
    } else if a.Signal? || a.Await? || a.Finish? || a.Validate? {
      LeaveFramed(call, s, a);
    } else {
      SharedFramed(call, s, a);
    }
  }

  lemma OwnSectionKeepsKey(call: Call, s: State, a: Action)
    requires BySelf(call, a) && Foreign(call, a)
    ensures PcOf(Apply(s, a), call.thread).Idle? ||
      (!PcOf(s, call.thread).Idle? && PcOf(Apply(s, a), call.thread).key == PcOf(s, call.thread).key)
  {
    hide DroppedEntries, DroppedPages, ReleaseMapping, Inactive, IsCurrent, Stale, PaddedPage, Zeros, Installed, Known;
  }

  /** Inside `GetCachedPage` the thread stays with the key it was called with. */
  lemma SectionKeepsKey(call: Call, s: State, a: Action)
    requires Foreign(call, a)
    ensures PcOf(Apply(s, a), call.thread).Idle? ||
      (!PcOf(s, call.thread).Idle? && PcOf(Apply(s, a), call.thread).key == PcOf(s, call.thread).key)
  {
    hide Apply, PcOf;
    if BySelf(call, a) {
      OwnSectionKeepsKey(call, s, a);
    } else {
      SectionFramed(call, s, a);
    }
  }

  lemma OtherGood(call: Call, w: World, a: Action)
    requires Good(call, w) && Foreign(call, a)
    ensures Good(call, Next(call, w, Other(a)))
  {
    hide Safe, Apply;
    SectionSafe(w.cache, a);
    SectionFramed(call, w.cache, a);
    SectionKeepsKey(call, w.cache, a);
    if a.Bump? {
      BumpAdds(call, w.cache, a.identity, a.bytes);
    }
  }

  /** Contents of a version never change; a bump adds one version. */
  lemma BumpAdds(call: Call, s: State, identity: Identity, bytes: seq<Byte>)
    requires Known(s, call.identity)
    ensures var s' := Apply(s, Bump(identity, bytes));
      && call.identity in s'.files && s.files[call.identity] <= s'.files[call.identity]
      && (identity != call.identity ==> s'.files[call.identity] == s.files[call.identity])
  {
  }

  // ---- The caller's own sections ----

  /** A page that agrees with the file yields exactly the file's bytes. */
  lemma PageSlice(page: seq<Byte>, file: seq<Byte>, position: nat, length: nat)
    requires |page| == PAGE_SIZE && Shared.Agrees(page, file, position / PAGE_SIZE * PAGE_SIZE)
    requires position % PAGE_SIZE + length <= PAGE_SIZE && position + length <= |file|
    ensures page[position % PAGE_SIZE..position % PAGE_SIZE + length] == file[position..position + length]
  {
    var at, offset := position % PAGE_SIZE, position / PAGE_SIZE * PAGE_SIZE;
    assert offset + at == position;
    var left, right := page[at..at + length], file[position..position + length];
    forall i | 0 <= i < length ensures left[i] == right[i] {
      assert offset + (at + i) == position + i;
    }
  }

  /** Copying `length` more bytes of a page of the current version keeps the account. */
  lemma CopyGood(call: Call, w: World, page: seq<Byte>, length: nat)
    requires Good(call, w) && (w.stage.Top? || w.stage.Getting?) && |page| == PAGE_SIZE
    requires PcOf(w.cache, call.thread) == Idle
    requires length <= call.count - |w.copied|
    requires w.position % PAGE_SIZE + length <= PAGE_SIZE
    requires w.position + length <= |Current(w.cache, call.identity)|
    requires w.copied != [] ==> w.position == w.expected && w.version == Version(w.cache, call.identity)
    ensures Good(call, Copied(w, page, w.position % PAGE_SIZE, length, Version(w.cache, call.identity),
                              Shows(page, Current(w.cache, call.identity), w.position, length)))
  {
    hide Safe;
    var file, at := Current(w.cache, call.identity), w.position % PAGE_SIZE;
    if w.copied != [] {
      SliceGrows(file, w.first, w.position, w.position + length);
      SameParts(w.copied, page[at..at + length], file[w.first..w.position], file[w.position..w.position + length]);
    }
  }

  lemma SameParts(a: seq<Byte>, b: seq<Byte>, c: seq<Byte>, d: seq<Byte>)
    requires |a| == |c|
    ensures a + b == c + d <==> a == c && b == d
  {
    if a + b == c + d {
      assert a == (a + b)[..|a|] && b == (a + b)[|a|..];
      assert c == (c + d)[..|a|] && d == (c + d)[|a|..];
    }
  }

  lemma SliceGrows(file: seq<Byte>, first: nat, middle: nat, end: nat)
    requires first <= middle <= end <= |file|
    ensures file[first..middle] + file[middle..end] == file[first..end]
  {
  }

  /** The top of the loop asks the cache for the page. */
  lemma AskGood(call: Call, w: World)
    requires Good(call, w) && w.stage.Top? && w.cache.busy == None
    requires |w.copied| < call.count && w.position < |Current(w.cache, call.identity)|
    requires w.copied != [] ==> w.position == w.expected && w.version == Version(w.cache, call.identity)
    ensures Good(call, DoBegin(call, w, None))
  {
    hide Safe;
    LookSafe(w.cache, call.thread, call.identity, w.position / PAGE_SIZE);
  }

  lemma BeginGood(call: Call, w: World, shared: Option<seq<Byte>>)
    requires Good(call, w) && Whole(Begin(shared))
    ensures Good(call, DoBegin(call, w, shared))
  {
    hide Safe, Copied, OneSlice, Continues, DoLook, Shows;
    if w.stage.Top? && w.cache.busy == None && |w.copied| < call.count {
      var file := Current(w.cache, call.identity);
      if !(w.copied != [] && (Version(w.cache, call.identity) != w.version || w.position != w.expected))
         && w.position < |file| {
        match shared
        case None => AskGood(call, w);
        case Some(page) =>
          var at := w.position % PAGE_SIZE;
          CopyGood(call, w, page, Min(call.count - |w.copied|, Min(PAGE_SIZE - at, |file| - w.position)));
      } else {
        StopGood(call, w);
      }
    } else if w.stage.Top? && w.cache.busy == None {
      StopGood(call, w);
    }
  }

  lemma StopGood(call: Call, w: World)
    requires Good(call, w) && w.stage.Top?
    requires (w.copied != [] && (Version(w.cache, call.identity) != w.version || w.position != w.expected))
             || w.position >= |Current(w.cache, call.identity)| || |w.copied| >= call.count
    ensures Good(call, w.(stage := Returned))
  {
    hide Safe;
  }

  lemma FinishGood(call: Call, w: World)
    requires Good(call, w) && w.stage.Getting? && PcOf(w.cache, call.thread).Holding?
    ensures PcOf(DoFinish(w.cache, call.thread), call.thread) == Idle
    ensures Good(call, w.(cache := DoFinish(w.cache, call.thread)))
    ensures Good(call, w.(cache := DoFinish(w.cache, call.thread), stage := Top))
    ensures DoFinish(w.cache, call.thread).files == w.cache.files
  {
    hide Safe, DroppedEntries, DroppedPages;
    FinishSafe(w.cache, call.thread);
  }

  /** The cached page of a key at the current version agrees with the file. */
  lemma HeldPageAgrees(call: Call, w: World)
    requires Good(call, w) && w.stage.Getting? && PcOf(w.cache, call.thread).Holding?
    requires Version(w.cache, call.identity) == w.stage.key.version && w.position == w.stage.position
    ensures var entry := PcOf(w.cache, call.thread).entry;
      && entry in w.cache.entries && w.cache.entries[entry].physical in w.cache.pages
      && CleanPage(call, w, w.cache.pages[w.cache.entries[entry].physical].bytes)
  {
    hide Safe;
    ThreadFacts(w.cache, call.thread);
    EntryFacts(w.cache, PcOf(w.cache, call.thread).entry);
  }

  /** The version and the position are unchanged, so the page in hand is copied. */
  lemma TakenGood(call: Call, w: World, shared: Option<seq<Byte>>)
    requires Good(call, w) && Whole(Take(shared))
    requires w.stage.Getting? && w.cache.busy == None && PcOf(w.cache, call.thread).Holding?
    requires Version(w.cache, call.identity) == w.stage.key.version && w.position == w.stage.position
    ensures Good(call, DoTake(call, w, shared))
  {
    hide Safe, Copied, OneSlice, DoFinish, Undisturbed, Shows;
    var pc := PcOf(w.cache, call.thread);
    FinishGood(call, w);
    HeldPageAgrees(call, w);
    var page := if shared.Some? then shared.value else w.cache.pages[w.cache.entries[pc.entry].physical].bytes;
    var done := w.(cache := DoFinish(w.cache, call.thread));
    CopyGood(call, done, page, Min(w.stage.length, |Current(w.cache, call.identity)| - w.position));
  }

  lemma TakeGood(call: Call, w: World, shared: Option<seq<Byte>>)
    requires Good(call, w) && Whole(Take(shared))
    ensures Good(call, DoTake(call, w, shared))
  {
    hide Good, Copied, DoFinish, Shows;
    var pc := PcOf(w.cache, call.thread);
    if w.stage.Getting? && w.cache.busy == None && Known(w.cache, call.identity) && pc.Holding? {
      if Version(w.cache, call.identity) == w.stage.key.version && w.position == w.stage.position {
        TakenGood(call, w, shared);
      } else {
        FinishGood(call, w);
      }
    }
  }

  lemma NextGood(call: Call, w: World, step: Step)
    requires Good(call, w) && Whole(step)
    ensures Good(call, Next(call, w, step))
  {
    hide Safe, DoBegin, DoTake, Apply, OneSlice, Continues;
    match step
    case Begin(shared) => BeginGood(call, w, shared);
    case Take(shared) => TakeGood(call, w, shared);
    case GiveUp(retry) => GiveUpGood(call, w, retry);
    case Seek(position) => SeekGood(call, w, position);
    case Other(a) => if Foreign(call, a) { OtherGood(call, w, a); }
  }

  lemma GiveUpGood(call: Call, w: World, retry: bool)
    requires Good(call, w)
    ensures Good(call, DoGiveUp(call, w, retry))
  {
    hide Safe;
  }

  lemma SeekGood(call: Call, w: World, position: nat)
    requires Good(call, w)
    ensures Good(call, Next(call, w, Seek(position)))
  {
    hide Safe;
  }

  ghost predicate WholeRun(run: seq<Step>) {
    forall i :: 0 <= i < |run| ==> Whole(run[i])
  }

  lemma {:induction false} RunGood(call: Call, w: World, run: seq<Step>)
    requires Good(call, w) && WholeRun(run)
    ensures Good(call, Ran(call, w, run))
    decreases |run|
  {
    hide Good, Whole, Next;
    if run != [] {
      NextGood(call, w, run[0]);
      RunGood(call, Next(call, w, run[0]), run[1..]);
    }
  }

  // ---- Clean pages ----

  lemma CleanShows(call: Call, w: World, page: seq<Byte>, length: nat)
    requires CleanPage(call, w, page) && w.position % PAGE_SIZE + length <= PAGE_SIZE
    requires w.position + length <= |Current(w.cache, call.identity)|
    ensures Shows(page, Current(w.cache, call.identity), w.position, length)
  {
    PageSlice(page, Current(w.cache, call.identity), w.position, length);
  }

  lemma BeginExact(call: Call, w: World, shared: Option<seq<Byte>>)
    requires Good(call, w) && w.exact && Clean(call, w, Begin(shared))
    ensures DoBegin(call, w, shared).exact
  {
    hide Safe, OneSlice, Continues, DoLook, CleanPage, Shows;
    if shared.Some? && Known(w.cache, call.identity) && |w.copied| < call.count && w.position < |Current(w.cache, call.identity)| {
      var at := w.position % PAGE_SIZE;
      CleanShows(call, w, shared.value,
                 Min(call.count - |w.copied|, Min(PAGE_SIZE - at, |Current(w.cache, call.identity)| - w.position)));
    }
  }

  lemma TakeExact(call: Call, w: World, shared: Option<seq<Byte>>)
    requires Good(call, w) && w.exact && Clean(call, w, Take(shared))
    ensures DoTake(call, w, shared).exact
  {
    hide Safe, OneSlice, DoFinish, CleanPage, Shows;
    var pc := PcOf(w.cache, call.thread);
    if w.stage.Getting? && w.cache.busy == None && pc.Holding?
       && Version(w.cache, call.identity) == w.stage.key.version && w.position == w.stage.position {
      HeldPageAgrees(call, w);
      var page := if shared.Some? then shared.value else w.cache.pages[w.cache.entries[pc.entry].physical].bytes;
      CleanShows(call, w, page, Min(w.stage.length, |Current(w.cache, call.identity)| - w.position));
    }
  }

  /** As long as the shared pages are clean every page shows the file. */
  lemma {:induction false} CleanRunExact(call: Call, w: World, run: seq<Step>)
    requires Good(call, w) && w.exact && CleanRun(call, w, run)
    ensures Ran(call, w, run).exact && WholeRun(run)
    decreases |run|
  {
    hide Good, DoBegin, DoTake, Apply;
    if run != [] {
      CleanWhole(call, w, run[0]);
      NextGood(call, w, run[0]);
      match run[0] {
        case Begin(shared) => BeginExact(call, w, shared);
        case Take(shared) => TakeExact(call, w, shared);
        case _ =>
      }
      CleanRunExact(call, Next(call, w, run[0]), run[1..]);
      assert run == [run[0]] + run[1..];
    }
  }

  lemma CleanWhole(call: Call, w: World, step: Step)
    requires Clean(call, w, step)
    ensures Whole(step)
  {
  }

  // ---- Main results ----

  /**
   However other threads interleave and whether or not shared pages are dirty, the call's own part in the file
   position is exactly the number of bytes it copied, and these are the contiguous slice of one content version that
   begins where the first copy began if and only if every page copied from showed that version's bytes there.
   */
  lemma ReadsOneSliceIff(call: Call, cache: State, run: seq<Step>)
    requires Safe(cache) && Known(cache, call.identity) && PcOf(cache, call.thread) == Idle && WholeRun(run)
    ensures var w := Ran(call, Started(call, cache), run);
      && |w.copied| <= call.count
      && w.position == call.start + |w.copied| + w.displaced
      && (w.copied != [] ==>
            && HasVersion(w.cache, call.identity, w.version)
            && w.first + |w.copied| <= |Contents(w.cache, call.identity, w.version)|
            && (w.copied == Contents(w.cache, call.identity, w.version)[w.first..w.first + |w.copied|] <==> w.exact))
      && (w.stage.Failed? ==> w.copied == [])
  {
    hide Safe;
    RunGood(call, Started(call, cache), run);
  }

  /**
   On an inode without dirty shared pages, the call copies one contiguous slice of the file at one content
   version, beginning where the first copy began, and its own part in the file position is exactly the
   number of bytes it copied. It fails only when it copied nothing.
   */
  lemma ReadsOneSlice(call: Call, cache: State, run: seq<Step>)
    requires Safe(cache) && Known(cache, call.identity) && PcOf(cache, call.thread) == Idle
    requires CleanRun(call, Started(call, cache), run)
    ensures var w := Ran(call, Started(call, cache), run);
      && |w.copied| <= call.count
      && w.position == call.start + |w.copied| + w.displaced
      && (w.copied != [] ==>
            && HasVersion(w.cache, call.identity, w.version)
            && w.first + |w.copied| <= |Contents(w.cache, call.identity, w.version)|
            && w.copied == Contents(w.cache, call.identity, w.version)[w.first..w.first + |w.copied|])
      && (w.stage.Failed? ==> w.copied == [])
  {
    hide Safe;
    CleanRunExact(call, Started(call, cache), run);
    RunGood(call, Started(call, cache), run);
  }

  /** With a dirty page the bytes may belong to no version at all: version 1 is [1], a store made the page begin with 2. */
  lemma DirtyReadIsNoSlice(cache: State, page: seq<Byte>)
    requires cache.files == map[1 := [[1]]] && cache.busy == None && |page| == PAGE_SIZE && page[0] == 2
    ensures var w := Ran(Call(0, 1, 1, 0), Started(Call(0, 1, 1, 0), cache), [Begin(Some(page)), Begin(None)]);
      && w.stage.Returned? && w.copied == [2] && w.cache == cache
      && forall version :: HasVersion(cache, 1, version) ==> 2 !in Contents(cache, 1, version)
  {
    var call := Call(0, 1, 1, 0);
    var w := Started(call, cache);
    var w1 := DoBegin(call, w, Some(page));
    assert w1.copied == [2] && w1.cache == cache && w1.stage.Top?;
    assert DoBegin(call, w1, None) == w1.(stage := Returned);
    var run := [Begin(Some(page)), Begin(None)];
    assert run[1..] == [Begin(None)];
    assert Ran(call, w, run) == Ran(call, w1, run[1..]) == Ran(call, DoBegin(call, w1, None), []);
  }

  /** What a dirty page shows is the file that readers of the shared pages see at that moment. */
  lemma DirtyPageShowsView(s: SharedPages.State, identity: Identity, position: nat, length: nat)
    requires Shared.Coherent(s) && identity in s.files && position + length <= |s.files[identity].bytes|
    requires position % PAGE_SIZE + length <= PAGE_SIZE && SharedPages.PageKey(identity, position / PAGE_SIZE) in s.pages
    ensures |Shared.Seen(s, identity)| == |s.files[identity].bytes|
    ensures Shows(s.pages[SharedPages.PageKey(identity, position / PAGE_SIZE)].bytes, Shared.Seen(s, identity), position, length)
  {
    var key := SharedPages.PageKey(identity, position / PAGE_SIZE);
    var page, seen, at := s.pages[key].bytes, Shared.Seen(s, identity), position % PAGE_SIZE;
    assert |page| == PAGE_SIZE;
    var left, right := page[at..at + length], seen[position..position + length];
    forall i | 0 <= i < length ensures left[i] == right[i] {
      SamePage(position, i);
    }
  }

  lemma SamePage(position: nat, i: nat)
    requires position % PAGE_SIZE + i < PAGE_SIZE
    ensures (position + i) / PAGE_SIZE == position / PAGE_SIZE && (position + i) % PAGE_SIZE == position % PAGE_SIZE + i
  {
  }

  /** When nobody interferes and no page fails, the call returns everything from the start position up to the limit. */
  lemma QuietReadIsComplete(call: Call, cache: State, run: seq<Step>)
    requires Safe(cache) && Known(cache, call.identity) && PcOf(cache, call.thread) == Idle
    requires CleanRun(call, Started(call, cache), run)
    requires Ran(call, Started(call, cache), run).quiet && Ran(call, Started(call, cache), run).stage.Returned?
    ensures var w := Ran(call, Started(call, cache), run);
      var file := Current(cache, call.identity);
      && w.copied == (if call.start < |file| then file[call.start..Min(call.start + call.count, |file|)] else [])
      && w.position == call.start + |w.copied|
  {
    hide Safe;
    CleanRunExact(call, Started(call, cache), run);
    RunGood(call, Started(call, cache), run);
    QuietKeepsFile(call, Started(call, cache), run);
  }

  lemma {:induction false} QuietKeepsFile(call: Call, w: World, run: seq<Step>)
    requires Known(w.cache, call.identity) && Ran(call, w, run).quiet
    ensures w.quiet && call.identity in Ran(call, w, run).cache.files
    ensures Ran(call, w, run).cache.files[call.identity] == w.cache.files[call.identity]
    decreases |run|
  {
    hide Next;
    if run != [] {
      StepKeepsFile(call, w, run[0]);
      QuietKeepsFile(call, Next(call, w, run[0]), run[1..]);
    }
  }

  lemma StepKeepsFile(call: Call, w: World, step: Step)
    requires Known(w.cache, call.identity)
    ensures Known(Next(call, w, step).cache, call.identity)
    ensures Next(call, w, step).quiet ==>
      w.quiet && Next(call, w, step).cache.files[call.identity] == w.cache.files[call.identity]
  {
    hide Apply, DroppedEntries, DroppedPages;
    if step.Other? {
      SectionFramed(call, w.cache, step.a);
      if step.a.Bump? {
        BumpAdds(call, w.cache, step.a.identity, step.a.bytes);
      }
    }
  }

  /** A clean page of a coherent shared-page table is the clean page the read relies on. */
  lemma CoherentPageIsClean(call: Call, w: World, s: SharedPages.State, page: seq<Byte>)
    requires Shared.Coherent(s) && Known(w.cache, call.identity)
    requires call.identity in s.files && s.files[call.identity].bytes == Current(w.cache, call.identity)
    requires var key := SharedPages.PageKey(call.identity, w.position / PAGE_SIZE);
      key in s.pages && !s.pages[key].dirty && page == s.pages[key].bytes
    ensures CleanPage(call, w, page)
  {
    assert Shared.PageCoherent(s, SharedPages.PageKey(call.identity, w.position / PAGE_SIZE));
  }
}
