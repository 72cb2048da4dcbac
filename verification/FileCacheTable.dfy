/**
 `FileCacheTable` as the kernel stores it: 256 buckets of chained records. Its methods relink the
 chains in place; together they implement the plain map from keys to entries of the page cache.
 */
module FileCacheTable {
  import opened FileBytes
  import opened FileCache
  import opened FileCacheSafety

  const BUCKET_COUNT: nat := 256
  const RETAINED_PAGE_LIMIT: nat := 1024
  const WORD: nat := 0x1_0000_0000_0000_0000

  datatype Record = Record(key: Key, entry: EntryId)

  function Mix(x: nat): bv64 {
    var word := (x % WORD) as bv64;
    word ^ (word >> 32)
  }

  /** The hash of a key; `% 256` keeps the low eight bits. */
  function Bucket(key: Key): (bucket: nat)
    ensures bucket < BUCKET_COUNT
  {
    ((Mix(key.identity) ^ Mix(key.version) ^ Mix(key.index)) as nat) % BUCKET_COUNT
  }

  // ---- Chains against the map they store ----

  ghost predicate Placed(records: map<Key, EntryId>, b: nat, record: Record) {
    Bucket(record.key) == b && record.key in records && records[record.key] == record.entry
  }

  ghost predicate DistinctKeys(chain: seq<Record>) {
    forall i, j :: 0 <= i < j < |chain| ==> chain[i].key != chain[j].key
  }

  ghost predicate ChainStores(chain: seq<Record>, b: nat, records: map<Key, EntryId>) {
    && (forall i :: 0 <= i < |chain| ==> Placed(records, b, chain[i]))
    && (forall key :: key in records && Bucket(key) == b ==> Record(key, records[key]) in chain)
    && DistinctKeys(chain)
  }

  ghost predicate Stores(chains: seq<seq<Record>>, records: map<Key, EntryId>) {
    |chains| == BUCKET_COUNT && forall b :: 0 <= b < BUCKET_COUNT ==> ChainStores(chains[b], b, records)
  }

  lemma LinkStores(chains: seq<seq<Record>>, records: map<Key, EntryId>, record: Record)
    requires Stores(chains, records) && record.key !in records
    ensures Stores(chains[Bucket(record.key) := chains[Bucket(record.key)] + [record]],
                   records[record.key := record.entry])
  {
    hide Bucket;
    var b := Bucket(record.key);
    var after := records[record.key := record.entry];
    forall c | 0 <= c < BUCKET_COUNT
      ensures ChainStores(if c == b then chains[b] + [record] else chains[c], c, after)
    {
      assert ChainStores(chains[c], c, records);
      assert forall i :: 0 <= i < |chains[c]| ==> Placed(records, c, chains[c][i]);
    }
  }

  function Without(chain: seq<Record>, i: nat): seq<Record>
    requires i < |chain|
  {
    chain[..i] + chain[i + 1..]
  }

  lemma ChainUnlinkStores(chain: seq<Record>, b: nat, records: map<Key, EntryId>, i: nat)
    requires ChainStores(chain, b, records) && i < |chain|
    ensures ChainStores(Without(chain, i), b, records - {chain[i].key})
  {
    hide Bucket;
    var rest, left := Without(chain, i), records - {chain[i].key};
    forall j | 0 <= j < |rest| ensures Placed(left, b, rest[j]) {
      var k := if j < i then j else j + 1;
      assert rest[j] == chain[k] && Placed(records, b, chain[k]);
    }
    forall key | key in left && Bucket(key) == b ensures Record(key, left[key]) in rest {
      var k :| 0 <= k < |chain| && chain[k] == Record(key, records[key]);
      assert rest[if k < i then k else k - 1] == chain[k];
    }
  }

  lemma OtherChainStores(chain: seq<Record>, c: nat, records: map<Key, EntryId>, key: Key)
    requires ChainStores(chain, c, records) && Bucket(key) != c
    ensures ChainStores(chain, c, records - {key})
  {
    hide Bucket;
    forall j | 0 <= j < |chain| ensures Placed(records - {key}, c, chain[j]) {
      assert Placed(records, c, chain[j]);
    }
  }

  lemma UnlinkStores(chains: seq<seq<Record>>, records: map<Key, EntryId>, b: nat, i: nat)
    requires Stores(chains, records) && b < BUCKET_COUNT && i < |chains[b]|
    ensures chains[b][i].key in records
    ensures Stores(chains[b := Without(chains[b], i)], records - {chains[b][i].key})
  {
    hide Bucket, ChainStores, Without;
    RecordPlaced(chains, records, b, i);
    var key := chains[b][i].key;
    var after := chains[b := Without(chains[b], i)];
    forall c | 0 <= c < BUCKET_COUNT ensures ChainStores(after[c], c, records - {key}) {
      if c == b { ChainUnlinkStores(chains[b], b, records, i); } else { OtherChainStores(chains[c], c, records, key); }
    }
  }

  lemma RecordPlaced(chains: seq<seq<Record>>, records: map<Key, EntryId>, b: nat, i: nat)
    requires Stores(chains, records) && b < BUCKET_COUNT && i < |chains[b]|
    ensures Placed(records, b, chains[b][i])
  {
    assert ChainStores(chains[b], b, records);
  }

  lemma AbsentFromChain(chains: seq<seq<Record>>, records: map<Key, EntryId>, key: Key)
    requires Stores(chains, records)
    requires forall j :: 0 <= j < |chains[Bucket(key)]| ==> chains[Bucket(key)][j].key != key
    ensures key !in records
  {
    hide Bucket;
    assert ChainStores(chains[Bucket(key)], Bucket(key), records);
  }

  // ---- Sweeps ----

  /** `removed` lists what a sweep has taken out so far; all of it was doomed. */
  ghost predicate Taken(before: map<Key, EntryId>, records: map<Key, EntryId>, removed: seq<Key>, doomed: set<Key>) {
    (forall key :: key in removed ==> key in before && key in doomed) && records == before - Listed(removed) && Distinct(removed)
  }

  ghost predicate Distinct(keys: seq<Key>) {
    forall i, j :: 0 <= i < j < |keys| ==> keys[i] != keys[j]
  }

  ghost function Listed(keys: seq<Key>): set<Key> {
    set key | key in keys
  }

  ghost predicate NoneBelow(records: map<Key, EntryId>, b: nat, doomed: set<Key>) {
    forall key :: key in records && Bucket(key) < b ==> key !in doomed
  }

  ghost predicate NoneBefore(chain: seq<Record>, i: nat, doomed: set<Key>) {
    forall j :: 0 <= j < i && j < |chain| ==> chain[j].key !in doomed
  }

  lemma TakenOneMore(before: map<Key, EntryId>, records: map<Key, EntryId>, removed: seq<Key>, doomed: set<Key>, key: Key)
    requires Taken(before, records, removed, doomed) && key in records && key in doomed
    ensures Taken(before, records - {key}, [key] + removed, doomed)
  {
    assert Listed([key] + removed) == Listed(removed) + {key};
  }

  lemma NoneBelowNext(chains: seq<seq<Record>>, records: map<Key, EntryId>, b: nat, doomed: set<Key>)
    requires Stores(chains, records) && b < BUCKET_COUNT
    requires NoneBelow(records, b, doomed) && NoneBefore(chains[b], |chains[b]|, doomed)
    ensures NoneBelow(records, b + 1, doomed)
  {
    hide Bucket;
    assert ChainStores(chains[b], b, records);
    forall key | key in records && Bucket(key) == b ensures key !in doomed {
      var k :| 0 <= k < |chains[b]| && chains[b][k] == Record(key, records[key]);
    }
  }

  /** A sweep over all buckets took exactly the doomed records. */
  lemma AllTaken(before: map<Key, EntryId>, records: map<Key, EntryId>, removed: seq<Key>, doomed: set<Key>)
    requires Taken(before, records, removed, doomed) && NoneBelow(records, BUCKET_COUNT, doomed)
    ensures forall key :: key in removed <==> key in before && key in doomed
  {
    hide Bucket;
    forall key | key in before && key in doomed ensures key in removed {
      assert key !in records;
    }
  }

  /**
   What the sweep of `InvalidateVersions` returns is a stale list of the abstract cache, and dropping
   that list there leaves the table the sweep leaves here.
   */
  lemma SweepInvalidates(s: State, removed: seq<Key>)
    requires s.busy.Some? && Known(s, s.busy.value)
    requires forall key :: key in removed <==>
      key in s.table && key.identity == s.busy.value && key.version != Version(s, s.busy.value)
    ensures DoInvalidate(s, removed) == RemoveRecords(s, removed).(busy := None)
    ensures DoInvalidate(s, removed).table == s.table - Listed(removed)
  {
    RemovedTable(s, removed);
  }

  lemma {:induction false} RemovedTable(s: State, keys: seq<Key>)
    ensures RemoveRecords(s, keys).table == s.table - Listed(keys)
    decreases |keys|
  {
    if keys != [] {
      RemovedTable(RemoveRecord(s, keys[0]), keys[1..]);
      assert keys == [keys[0]] + keys[1..];
      assert Listed(keys) == Listed(keys[1..]) + {keys[0]};
    }
  }

  // ---- Detaching in the abstract cache ----

  /** What `DetachInactiveReadyPages` tests for, in a state of the abstract cache. */
  ghost function InactiveKeys(s: State): set<Key> {
    set key | key in s.table && Inactive(s, key)
  }

  function Detaches(keys: seq<Key>): seq<Action> {
    if keys == [] then [] else [Detach(keys[0])] + Detaches(keys[1..])
  }

  /** An inactive record has its page to itself. */
  lemma InactivePagesDiffer(s: State, one: Key, other: Key)
    requires Safe(s) && Inactive(s, one) && Inactive(s, other) && one != other
    ensures s.table[one] != s.table[other] && s.entries[s.table[one]].physical != s.entries[s.table[other]].physical
    ensures s.entries[s.table[one]].ownsCache
  {
    hide SafeUpTo;
    var e, x := s.table[one], s.table[other];
    RecordFacts(s, one);
    RecordFacts(s, other);
    EntryFacts(s, e);
    EntryFacts(s, x);
    var p := s.entries[e].physical;
    PageFacts(s, p);
    assert e != x && e in CacheEntries(s.entries, p);
    if x in CacheEntries(s.entries, p) {
      TwoEntries(s, e, x, p);
    }
  }

  lemma TwoEntries(s: State, e: EntryId, x: EntryId, p: PageId)
    requires e != x && e in CacheEntries(s.entries, p) && x in CacheEntries(s.entries, p)
    ensures |CacheEntries(s.entries, p)| >= 2
  {
    assert |CacheEntries(s.entries, p)| == |CacheEntries(s.entries, p) - {e, x}| + 2;
  }

  lemma InactiveStays(s: State, one: Key, other: Key)
    requires Safe(s) && Inactive(s, one) && Inactive(s, other) && one != other
    ensures Inactive(RemoveRecord(s, one), other)
  {
    hide Safe;
    InactivePagesDiffer(s, one, other);
  }

  /** Records that are all inactive can be detached one after the other: none becomes active on the way. */
  lemma {:induction false} DetachesAll(s: State, keys: seq<Key>)
    requires Safe(s) && Distinct(keys) && forall key :: key in keys ==> Inactive(s, key)
    ensures Run(s, Detaches(keys)) == RemoveRecords(s, keys)
    decreases |keys|
  {
    hide Safe, Inactive;
    if keys != [] {
      var s' := RemoveRecord(s, keys[0]);
      assert Inactive(s, keys[0]);
      RemoveRecordSafe(s, keys[0]);
      forall key | key in keys[1..] ensures Inactive(s', key) {
        InactiveStays(s, keys[0], key);
      }
      DetachesAll(s', keys[1..]);
      assert Detaches(keys)[1..] == Detaches(keys[1..]);
    }
  }

  /** What the sweep over the chains takes, tested against a state of the abstract cache, is a run of Detach sections there. */
  lemma SweepDetaches(s: State, removed: seq<Key>)
    requires Safe(s) && Distinct(removed) && forall key :: key in removed ==> key in InactiveKeys(s)
    ensures Run(s, Detaches(removed)).table == s.table - Listed(removed) && Safe(Run(s, Detaches(removed)))
  {
    hide Safe;
    DetachesAll(s, removed);
    RemovedTable(s, removed);
    RunsSafe(s, Detaches(removed));
  }

  class Table {
    const buckets: array<seq<Record>>
    var recordCount: nat
    ghost var records: map<Key, EntryId>

    ghost predicate Valid()
      reads this, buckets
    {
      Stores(buckets[..], records) && recordCount == |records|
    }

    constructor ()
      ensures Valid() && records == map[] && fresh(buckets)
    {
      buckets := new seq<Record>[BUCKET_COUNT](_ => []);
      recordCount := 0;
      records := map[];
    }

    /** `FindLink`: walks the chain of the key's bucket. */
    method Find(key: Key) returns (found: Option<EntryId>)
      requires Valid()
      ensures found == if key in records then Some(records[key]) else None
    {
      hide Bucket, ChainStores;
      var b := Bucket(key);
      var i := 0;
      while i < |buckets[b]|
        invariant 0 <= i <= |buckets[b]|
        invariant forall j :: 0 <= j < i ==> buckets[b][j].key != key
      {
        if buckets[b][i].key == key {
          RecordPlaced(buckets[..], records, b, i);
          return Some(buckets[b][i].entry);
        }
        i := i + 1;
      }
      AbsentFromChain(buckets[..], records, key);
      return None;
    }

    /** Links a new record at the end of its chain. */
    method Link(key: Key, entry: EntryId)
      requires Valid() && key !in records
      modifies this, buckets
      ensures Valid() && records == old(records)[key := entry]
    {
      hide Bucket, ChainStores;
      var b := Bucket(key);
      LinkStores(buckets[..], records, Record(key, entry));
      buckets[b] := buckets[b] + [Record(key, entry)];
      recordCount := recordCount + 1;
      records := records[key := entry];
      assert buckets[..] == old(buckets[..])[b := old(buckets[b]) + [Record(key, entry)]];
    }

    /** Unlinks the record at position `i` of bucket `b`. */
    method UnlinkAt(b: nat, i: nat)
      requires Valid() && b < BUCKET_COUNT && i < |buckets[b]|
      modifies this, buckets
      ensures Valid()
      ensures old(buckets[b][i].key) in old(records) && records == old(records) - {old(buckets[b][i].key)}
      ensures buckets[..] == old(buckets[..])[b := Without(old(buckets[b]), i)]
    {
      hide Bucket, ChainStores;
      UnlinkStores(buckets[..], records, b, i);
      var key := buckets[b][i].key;
      buckets[b] := Without(buckets[b], i);
      recordCount := recordCount - 1;
      records := records - {key};
      assert buckets[..] == old(buckets[..])[b := Without(old(buckets[b]), i)];
    }

    /** Unlinks the record of the key if it still belongs to `expected`. */
    method Remove(key: Key, expected: EntryId) returns (found: bool)
      requires Valid()
      modifies this, buckets
      ensures Valid()
      ensures found <==> key in old(records) && old(records)[key] == expected
      ensures records == if found then old(records) - {key} else old(records)
    {
      hide Bucket, ChainStores;
      var b := Bucket(key);
      var i := 0;
      while i < |buckets[b]|
        invariant 0 <= i <= |buckets[b]| && Valid() && records == old(records)
        invariant forall j :: 0 <= j < i ==> buckets[b][j].key != key
      {
        if buckets[b][i].key == key {
          RecordPlaced(buckets[..], records, b, i);
          if buckets[b][i].entry != expected {
            return false;
          }
          UnlinkAt(b, i);
          return true;
        }
        i := i + 1;
      }
      AbsentFromChain(buckets[..], records, key);
      return false;
    }

    /** Sweeps every chain and unlinks the records of the inode whose version is not current. */
    method InvalidateVersions(identity: Identity, current: nat) returns (removed: seq<Key>)
      requires Valid()
      modifies this, buckets
      ensures Valid()
      ensures forall key :: key in removed <==> key in old(records) && key.identity == identity && key.version != current
      ensures records == old(records) - Listed(removed)
    {
      hide Bucket, Stores, Taken, NoneBelow, NoneBefore;
      ghost var doomed := set key | key in records && key.identity == identity && key.version != current;
      removed := [];
      NothingTaken(records, doomed);
      StoresAll(buckets[..], records);
      var b := 0;
      while b < BUCKET_COUNT
        invariant 0 <= b <= BUCKET_COUNT == buckets.Length && Valid()
        invariant Taken(old(records), records, removed, doomed) && NoneBelow(records, b, doomed)
      {
        var i := 0;
        NoneBeforeFirst(buckets[b], doomed);
        while i < |buckets[b]|
          invariant 0 <= i <= |buckets[b]| && Valid()
          invariant Taken(old(records), records, removed, doomed) && NoneBelow(records, b, doomed)
          invariant NoneBefore(buckets[b], i, doomed)
          decreases |buckets[b]| - i
        {
          var key := buckets[b][i].key;
          RecordPlaced(buckets[..], records, b, i);
          TakenFacts(old(records), records, removed, doomed);
          if key.identity != identity || key.version == current {
            NoneBeforeNext(buckets[b], i, doomed);
            i := i + 1;
          } else {
            KeepsNoneBelow(records, b, doomed, key);
            KeepsNoneBefore(buckets[b], i, doomed);
            TakenOneMore(old(records), records, removed, doomed, key);
            UnlinkAt(b, i);
            removed := [key] + removed;
          }
        }
        NoneBelowNext(buckets[..], records, b, doomed);
        b := b + 1;
      }
      AllTaken(old(records), records, removed, doomed);
      TakenFacts(old(records), records, removed, doomed);
    }

    /** Detaches at most `limit` inactive records, in chain order; it stops early only when none is left. */
    method DetachInactive(limit: nat, inactive: set<Key>) returns (removed: seq<Key>)
      requires Valid()
      modifies this, buckets
      ensures Valid() && recordCount == old(recordCount) - |removed| && |removed| <= limit
      ensures forall key :: key in removed ==> key in inactive && key in old(records)
      ensures records == old(records) - Listed(removed) && Distinct(removed)
      ensures |removed| < limit ==> forall key :: key in records ==> key !in inactive
    {
      hide Bucket, Stores, Taken, NoneBelow, NoneBefore;
      removed := [];
      NothingTaken(records, inactive);
      StoresAll(buckets[..], records);
      var b := 0;
      while b < BUCKET_COUNT && |removed| < limit
        invariant 0 <= b <= BUCKET_COUNT == buckets.Length && Valid()
        invariant recordCount == old(recordCount) - |removed| && |removed| <= limit
        invariant Taken(old(records), records, removed, inactive)
        invariant |removed| < limit ==> NoneBelow(records, b, inactive)
      {
        var i := 0;
        NoneBeforeFirst(buckets[b], inactive);
        while i < |buckets[b]| && |removed| < limit
          invariant 0 <= i <= |buckets[b]| && Valid()
          invariant recordCount == old(recordCount) - |removed| && |removed| <= limit
          invariant Taken(old(records), records, removed, inactive) && NoneBelow(records, b, inactive)
          invariant NoneBefore(buckets[b], i, inactive)
          decreases |buckets[b]| - i
        {
          var key := buckets[b][i].key;
          RecordPlaced(buckets[..], records, b, i);
          if key !in inactive {
            NoneBeforeNext(buckets[b], i, inactive);
            i := i + 1;
          } else {
            KeepsNoneBelow(records, b, inactive, key);
            KeepsNoneBefore(buckets[b], i, inactive);
            TakenOneMore(old(records), records, removed, inactive, key);
            UnlinkAt(b, i);
            removed := [key] + removed;
          }
        }
        if |removed| < limit {
          NoneBelowNext(buckets[..], records, b, inactive);
        }
        b := b + 1;
      }
      TakenFacts(old(records), records, removed, inactive);
      if |removed| < limit {
        AllTaken(old(records), records, removed, inactive);
      }
    }

    /** `TrimReadyPages`: afterwards the table is within its bound unless every remaining record is in use. */
    method TrimReadyPages(inactive: set<Key>) returns (removed: seq<Key>)
      requires Valid()
      modifies this, buckets
      ensures Valid()
      ensures forall key :: key in removed ==> key in inactive && key in old(records)
      ensures records == old(records) - Listed(removed) && Distinct(removed)
      ensures |records| <= RETAINED_PAGE_LIMIT || forall key :: key in records ==> key !in inactive
    {
      hide Stores;
      if recordCount <= RETAINED_PAGE_LIMIT {
        removed := [];
        return;
      }
      removed := DetachInactive(recordCount - RETAINED_PAGE_LIMIT, inactive);
    }
  }

  // ---- Bookkeeping of the sweeps ----

  lemma StoresAll(chains: seq<seq<Record>>, records: map<Key, EntryId>)
    requires Stores(chains, records)
    ensures |chains| == BUCKET_COUNT
  {
  }

  lemma NothingTaken(records: map<Key, EntryId>, doomed: set<Key>)
    ensures Taken(records, records, [], doomed) && NoneBelow(records, 0, doomed)
  {
    hide Bucket;
    assert records - Listed([]) == records;
  }

  lemma TakenFacts(before: map<Key, EntryId>, records: map<Key, EntryId>, removed: seq<Key>, doomed: set<Key>)
    requires Taken(before, records, removed, doomed)
    ensures forall key :: key in removed ==> key in before && key in doomed
    ensures records == before - Listed(removed) && Distinct(removed)
  {
  }

  lemma NoneBeforeFirst(chain: seq<Record>, doomed: set<Key>)
    ensures NoneBefore(chain, 0, doomed)
  {
  }

  lemma NoneBeforeNext(chain: seq<Record>, i: nat, doomed: set<Key>)
    requires i < |chain| && NoneBefore(chain, i, doomed) && chain[i].key !in doomed
    ensures NoneBefore(chain, i + 1, doomed)
  {
  }

  lemma KeepsNoneBefore(chain: seq<Record>, i: nat, doomed: set<Key>)
    requires i < |chain| && NoneBefore(chain, i, doomed)
    ensures NoneBefore(Without(chain, i), i, doomed)
  {
  }

  lemma KeepsNoneBelow(records: map<Key, EntryId>, b: nat, doomed: set<Key>, key: Key)
    requires NoneBelow(records, b, doomed)
    ensures NoneBelow(records - {key}, b, doomed)
  {
  }
}
