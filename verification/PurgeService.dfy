/** Retention over the store the recording service writes: explicit purges, eviction by age and by quota. */
module PurgeService {
  import opened Executions
  import opened CacheModel
  import opened Purging
  import Eviction
  import opened CacheSpec
  import opened Engine

  datatype PurgeReport = PurgeReport(executionsRemoved: nat, bytesFreed: nat, blobsRemoved: nat)

  /** The blobs of one history with their sizes; blobs shared by several rows are listed once. */
  method BlobSizesFor(h: seq<Row>) returns (sizes: map<BlobKey, nat>)
    requires forall j :: 0 <= j < |h| ==> OwnArtifacts(h[j])
    ensures SizesOf(h, sizes)
  {
    sizes := map[];
    for j := 0 to |h|
      invariant SizesOf(h[..j], sizes)
    {
      ghost var had := sizes;
      var artifacts := h[j].artifacts;
      for n := 0 to |artifacts|
        invariant forall b :: b in sizes <==> NamedIn(h[..j], b) || exists m :: 0 <= m < n && artifacts[m].blobKey == b
        invariant forall b: BlobKey :: b in sizes ==> sizes[b] == |b.fingerprint.preimage|
      {
        sizes := sizes[artifacts[n].blobKey := artifacts[n].size];
      }
      forall b
        ensures NamedIn(h[..j + 1], b) <==> NamedIn(h[..j], b) || Names(h[j], b)
      {
        NamedInNext(h, j, b);
      }
    }
    assert h[..|h|] == h;
  }

  lemma {:induction false} NamedInNext(h: seq<Row>, j: nat, b: BlobKey)
    requires j < |h|
    ensures NamedIn(h[..j + 1], b) <==> NamedIn(h[..j], b) || Names(h[j], b)
  {
    assert forall i :: 0 <= i < j ==> h[..j + 1][i] == h[..j][i];
    assert h[..j + 1][j] == h[j];
    if NamedIn(h[..j], b) {
      var i :| 0 <= i < j && Names(h[..j][i], b);
      assert Names(h[..j + 1][i], b);
    }
    if Names(h[j], b) {
      assert Names(h[..j + 1][j], b);
    }
  }

  lemma {:induction false} AllLeft(sizes: map<BlobKey, nat>)
    ensures sizes - {} == sizes && Total(sizes - sizes.Keys) == 0
  {
    assert (sizes - sizes.Keys).Keys == {};
  }

  lemma {:induction false} NextGone(sizes: map<BlobKey, nat>, gone: set<BlobKey>, b: BlobKey)
    requires b in sizes && b !in gone
    ensures Total(sizes - gone) == sizes[b] + Total(sizes - (gone + {b}))
  {
    TotalWithout(sizes - gone, b);
    assert sizes - gone - {b} == sizes - (gone + {b});
  }

  /** Deletes each collected blob and adds up what was collected. */
  method RemoveBlobs(store: BlobStore, sizes: map<BlobKey, nat>) returns (removed: nat, freed: nat)
    modifies store
    ensures store.blobs == old(store.blobs) - sizes.Keys
    ensures removed == |sizes.Keys| && freed == Total(sizes)
  {
    hide Total;
    freed := 0;
    var left, gone := sizes.Keys, {};
    AllLeft(sizes);
    while left != {}
      invariant left !! gone && sizes.Keys == gone + left
      invariant freed + Total(sizes - gone) == Total(sizes)
      invariant store.blobs == old(store.blobs) - gone
      decreases |left|
    {
      var b :| b in left;
      store.Remove(b);
      NextGone(sizes, gone, b);
      freed := freed + sizes[b];
      left, gone := left - {b}, gone + {b};
    }
    AllLeft(sizes);
    removed := |sizes.Keys|;
  }

  class PurgeService {
    const engine: CachedMlExecutionService
    const createdAt: Key -> Option<real>

    constructor (engine: CachedMlExecutionService, createdAt: Key -> Option<real>)
      ensures this.engine == engine && this.createdAt == createdAt
    {
      this.engine, this.createdAt := engine, createdAt;
    }

    method BlobSizes(k: Key) returns (sizes: map<BlobKey, nat>)
      requires engine.Valid()
      ensures SizesOf(History(engine.repo.View(), k), sizes)
    {
      var rows := engine.repo.FindAll(k);
      RowsOwn(engine.repo.View(), engine.inputParts, engine.nextId, k);
      hide *;
      sizes := BlobSizesFor(rows);
    }

    method DeleteBlobs(sizes: map<BlobKey, nat>) returns (removed: nat, freed: nat)
      requires engine.repo.Valid()
      modifies engine.store
      ensures engine.repo.Valid() && engine.repo.View() == old(engine.repo.View())
      ensures engine.store.blobs == old(engine.store.blobs) - sizes.Keys
      ensures removed == |sizes| && freed == Total(sizes)
    {
      hide *;
      removed, freed := RemoveBlobs(engine.store, sizes);
    }

    /** Sizes are read before the rows go, blobs are deleted after. */
    method SoftPurgeKey(k: Key) returns (removed: nat, freed: nat, sizes: map<BlobKey, nat>)
      requires engine.Valid()
      modifies engine.repo.rows, engine.store
      ensures engine.Valid() && engine.Answers() == old(engine.Answers()) - {k}
      ensures SizesOf(History(old(engine.repo.View()), k), sizes) && removed == |sizes| && freed == Total(sizes)
      ensures engine.repo.View() == SoftPurgedKey(old(engine.repo.View()), k)
      ensures engine.store.blobs == old(engine.store.blobs) - sizes.Keys
    {
      sizes := BlobSizes(k);
      SoftPurgeMeaning(engine.repo.View(), engine.store.blobs, engine.inputParts, engine.nextId, k, sizes);
      hide StoreOk, SizesOf, Total, SoftPurgedKey, WellFormed, Entries;
      engine.repo.SoftPurgeExecution(k);
      removed, freed := DeleteBlobs(sizes);
    }

    /**
     * Purges the keys one at a time. The bytes reported are the bytes that left the disk when no named blob was
     * missing.
     */
    method SoftPurgeKeys(keys: seq<Key>) returns (report: PurgeReport)
      requires engine.Valid()
      modifies engine.repo.rows, engine.store
      ensures engine.Valid()
      ensures KeysReleased(old(engine.repo.View()), old(engine.store.blobs), old(engine.Answers()), keys,
                         engine.repo.View(), engine.store.blobs, engine.Answers(), report.blobsRemoved,
                         report.bytesFreed)
      ensures report.executionsRemoved == |keys|
    {
      ghost var t, blobs, c := engine.repo.View(), engine.store.blobs, engine.Answers();
      var blobsRemoved, bytesFreed := 0, 0;
      assert WellFormed(t) && RowsOk(t, engine.inputParts, engine.nextId);
      hide *;
      NoKeysPurged(t, blobs, c, keys);
      for n := 0 to |keys|
        invariant engine.Valid()
        invariant KeysReleased(t, blobs, c, keys[..n], engine.repo.View(), engine.store.blobs, engine.Answers(),
                               blobsRemoved, bytesFreed)
      {
        var removed, freed := SoftPurgeNext(keys, n, t, blobs, c, blobsRemoved, bytesFreed);
        blobsRemoved, bytesFreed := blobsRemoved + removed, bytesFreed + freed;
      }
      report := PurgeReport(|keys|, bytesFreed, blobsRemoved);
    }

    method SoftPurgeNext(keys: seq<Key>, n: nat, ghost t: Table, ghost blobs: Blobs, ghost c: Cache, ghost had: nat,
                         ghost soFar: nat)
      returns (removed: nat, freed: nat)
      requires engine.Valid() && n < |keys| && WellFormed(t) && RowsOk(t, engine.inputParts, engine.nextId)
      requires KeysReleased(t, blobs, c, keys[..n], engine.repo.View(), engine.store.blobs, engine.Answers(), had,
                            soFar)
      modifies engine.repo.rows, engine.store
      ensures engine.Valid()
      ensures KeysReleased(t, blobs, c, keys[..n + 1], engine.repo.View(), engine.store.blobs, engine.Answers(),
                           had + removed, soFar + freed)
    {
      ghost var u, blobs', c' := engine.repo.View(), engine.store.blobs, engine.Answers();
      BlobsAreOk(u, blobs', engine.inputParts, engine.nextId);
      hide StoreOk, WellFormed, RowsOk, BlobsOk, KeysReleased, Entries, SizesOf, Total, SoftPurgedKey, History;
      var sizes;
      removed, freed, sizes := SoftPurgeKey(keys[n]);
      NextKeyPurged(t, blobs, engine.inputParts, engine.nextId, c, keys, n, u, blobs', c', sizes, had, removed, soFar,
                    freed);
    }

    /** Access times that cannot be read degrade to recording times. */
    function EpochOf(lastAccess: Option<map<Key, real>>): Eviction.Epochs
    {
      Eviction.Epoch(lastAccess, createdAt)
    }

    /** Which keys the quota evicts: none under the cap, else a prefix of the least-recently-used order. */
    method ChooseEviction(maxBytes: int, lastAccess: Option<map<Key, real>>) returns (keys: seq<Key>)
      requires engine.Valid()
      ensures Eviction.Victims(engine.repo.View(), EpochOf(lastAccess), maxBytes, keys)
    {
      hide StoreOk, WellFormed, Eviction.SizeEntries, Eviction.LeastRecentFirst;
      var current := engine.repo.TotalStoredBytes();
      if current <= maxBytes {
        return [];
      }
      var entries := engine.repo.CurrentExecutionsWithSizes();
      var sorted := Eviction.LeastRecentFirst(entries, EpochOf(lastAccess));
      keys := Eviction.ChooseVictims(sorted, current, maxBytes);
    }

    /** Evicts the shortest least-recently-used prefix that brings the store under the cap. */
    method EvictToQuota(maxBytes: int, lastAccess: Option<map<Key, real>>)
      returns (report: PurgeReport, ghost victims: seq<Key>)
      requires engine.Valid()
      modifies engine.repo.rows, engine.store
      ensures engine.Valid() && report.executionsRemoved == |victims|
      ensures Eviction.LeastRecentGo(old(engine.repo.View()), lastAccess, createdAt, victims)
      ensures Eviction.NoMoreThanMust(old(engine.repo.View()), maxBytes, victims)
      ensures Evicted(old(engine.repo.View()), old(engine.store.blobs), old(engine.Answers()), EpochOf(lastAccess),
                      maxBytes, victims,
                      engine.repo.View(), engine.store.blobs, engine.Answers(), report.blobsRemoved, report.bytesFreed)
    {
      ghost var t, blobs, c := engine.repo.View(), engine.store.blobs, engine.Answers();
      var keys := ChooseEviction(maxBytes, lastAccess);
      Eviction.VictimsAreLeastRecent(t, lastAccess, createdAt, maxBytes, keys);
      Eviction.VictimsAreFew(t, EpochOf(lastAccess), maxBytes, keys);
      VictimsFit(t, blobs, c, engine.inputParts, engine.nextId, EpochOf(lastAccess), maxBytes, keys);
      victims := keys;
      hide *;
      report := SoftPurgeKeys(keys);
      assert Evicted(t, blobs, c, EpochOf(lastAccess), maxBytes, victims, engine.repo.View(), engine.store.blobs,
                     engine.Answers(), report.blobsRemoved, report.bytesFreed);
    }

    method ChooseStale(maxAge: real, now: real, lastAccess: Option<map<Key, real>>) returns (keys: seq<Key>)
      requires engine.Valid()
      ensures Stale(engine.repo.View(), EpochOf(lastAccess), maxAge, now, keys)
    {
      hide StoreOk, WellFormed, Eviction.SizeEntries;
      if maxAge <= 0.0 {
        return [];
      }
      var entries := engine.repo.CurrentExecutionsWithSizes();
      keys := Eviction.ChooseStale(entries, EpochOf(lastAccess), now - maxAge);
    }

    /** Evicts what was last used more than `maxAge` ago. */
    method EvictStale(maxAge: real, now: real, lastAccess: Option<map<Key, real>>)
      returns (report: PurgeReport, ghost stale: seq<Key>)
      requires engine.Valid()
      modifies engine.repo.rows, engine.store
      ensures engine.Valid() && report.executionsRemoved == |stale|
      ensures Stale(old(engine.repo.View()), EpochOf(lastAccess), maxAge, now, stale)
      ensures Eviction.StaleGo(old(engine.repo.View()), lastAccess, createdAt, maxAge, now, stale)
      ensures KeysReleased(old(engine.repo.View()), old(engine.store.blobs), old(engine.Answers()), stale,
                           engine.repo.View(), engine.store.blobs, engine.Answers(), report.blobsRemoved,
                           report.bytesFreed)
    {
      ghost var t, blobs, c := engine.repo.View(), engine.store.blobs, engine.Answers();
      var keys := ChooseStale(maxAge, now, lastAccess);
      Eviction.StaleAreUnused(t, lastAccess, createdAt, maxAge, now, keys);
      stale := keys;
      hide *;
      report := SoftPurgeKeys(keys);
      assert KeysReleased(t, blobs, c, stale, engine.repo.View(), engine.store.blobs, engine.Answers(),
                          report.blobsRemoved, report.bytesFreed);
    }

    method HardDeleteKey(k: Key) returns (removed: nat, freed: nat, sizes: map<BlobKey, nat>)
      requires engine.Valid()
      modifies engine.repo, engine.store, engine.journal
      ensures engine.Valid() && engine.repo.rows == old(engine.repo.rows)
      ensures engine.Answers() == old(engine.Answers()) - {k}
      ensures SizesOf(History(old(engine.repo.View()), k), sizes) && removed == |sizes| && freed == Total(sizes)
      ensures engine.repo.View() == DropKey(old(engine.repo.View()), k)
      ensures engine.store.blobs == old(engine.store.blobs) - sizes.Keys
      ensures engine.journal.events == EventsWithout(old(engine.journal.events), k)
    {
      sizes := BlobSizes(k);
      DropMeaning(engine.repo.View(), engine.store.blobs, engine.inputParts, engine.nextId, k, sizes);
      hide StoreOk, SizesOf, Total, DropKey, WellFormed, Entries;
      engine.repo.HardDeleteExecution(k);
      ForgetEvents(k);
      removed, freed := DeleteBlobs(sizes);
    }

    method ForgetEvents(k: Key)
      requires engine.repo.Valid()
      modifies engine.journal
      ensures engine.repo.Valid() && engine.repo.View() == old(engine.repo.View())
      ensures engine.journal.events == EventsWithout(old(engine.journal.events), k)
    {
      engine.journal.events := EventsWithout(engine.journal.events, k);
    }

    /** Deletes the keys with their rows, blobs and journal events. */
    method HardDeleteKeys(keys: seq<Key>) returns (report: PurgeReport)
      requires engine.Valid()
      modifies engine.repo, engine.store, engine.journal
      ensures engine.Valid() && engine.repo.rows == old(engine.repo.rows) && report.executionsRemoved == |keys|
      ensures KeysDropped(old(engine.repo.View()), old(engine.store.blobs), old(engine.Answers()),
                          old(engine.journal.events), keys,
                          engine.repo.View(), engine.store.blobs, engine.Answers(), engine.journal.events,
                          report.blobsRemoved, report.bytesFreed)
    {
      ghost var t, blobs, c, events := engine.repo.View(), engine.store.blobs, engine.Answers(), engine.journal.events;
      var blobsRemoved, bytesFreed := 0, 0;
      assert WellFormed(t) && RowsOk(t, engine.inputParts, engine.nextId);
      hide StoreOk, WellFormed, RowsOk, KeysDropped, Entries, EventsWithout, Purged, Freed, Eviction.KeySet,
        NamedBlobs, History;
      NoKeysDropped(t, blobs, c, events, keys);
      for n := 0 to |keys|
        invariant engine.Valid() && engine.repo.rows == old(engine.repo.rows)
        invariant KeysDropped(t, blobs, c, events, keys[..n],
                              engine.repo.View(), engine.store.blobs, engine.Answers(), engine.journal.events,
                              blobsRemoved, bytesFreed)
      {
        var removed, freed := HardDeleteNext(keys, n, t, blobs, c, events, blobsRemoved, bytesFreed);
        blobsRemoved, bytesFreed := blobsRemoved + removed, bytesFreed + freed;
      }
      report := PurgeReport(|keys|, bytesFreed, blobsRemoved);
      assert KeysDropped(t, blobs, c, events, keys, engine.repo.View(), engine.store.blobs, engine.Answers(),
                         engine.journal.events, report.blobsRemoved, report.bytesFreed);
    }

    method HardDeleteNext(keys: seq<Key>, n: nat, ghost t: Table, ghost blobs: Blobs, ghost c: Cache,
                          ghost events: seq<Event>, ghost had: nat, ghost soFar: nat)
      returns (removed: nat, freed: nat)
      requires engine.Valid() && n < |keys| && WellFormed(t) && RowsOk(t, engine.inputParts, engine.nextId)
      requires KeysDropped(t, blobs, c, events, keys[..n],
                           engine.repo.View(), engine.store.blobs, engine.Answers(), engine.journal.events, had, soFar)
      modifies engine.repo, engine.store, engine.journal
      ensures engine.Valid() && engine.repo.rows == old(engine.repo.rows)
      ensures KeysDropped(t, blobs, c, events, keys[..n + 1],
                          engine.repo.View(), engine.store.blobs, engine.Answers(), engine.journal.events,
                          had + removed, soFar + freed)
    {
      ghost var u, blobs', c' := engine.repo.View(), engine.store.blobs, engine.Answers();
      ghost var events' := engine.journal.events;
      BlobsAreOk(u, blobs', engine.inputParts, engine.nextId);
      hide StoreOk, WellFormed, RowsOk, BlobsOk, KeysDropped, Entries, SizesOf, Total, DropKey, History, EventsWithout;
      var sizes;
      removed, freed, sizes := HardDeleteKey(keys[n]);
      NextKeyDropped(t, blobs, engine.inputParts, engine.nextId, c, events, keys, n, u, blobs', c', events', sizes,
                     had, removed, soFar, freed);
    }

    /** One key, gone only if it has rows at all. */
    method PurgeByKey(k: Key, hard: bool) returns (report: PurgeReport)
      requires engine.Valid()
      modifies engine.repo, engine.repo.rows, engine.store, engine.journal
      ensures engine.repo.Valid() && engine.repo.rows == old(engine.repo.rows)
      ensures KeyPurged(old(engine.repo.View()), old(engine.store.blobs), old(engine.Answers()),
                        old(engine.journal.events), k, hard,
                        engine.repo.View(), engine.store.blobs, engine.Answers(), engine.journal.events, report)
      ensures engine.Valid()
    {
      ghost var t, blobs, c, events := engine.repo.View(), engine.store.blobs, engine.Answers(), engine.journal.events;
      var rows := engine.repo.FindAll(k);
      if rows == [] {
        report := PurgeReport(0, 0, 0);
        NoRowsNoAnswer(t, blobs, c, events, k, hard, report);
        hide *;
        return;
      }
      assert WellFormed(t) && History(t, k) != [];
      hide *;
      ghost var sizes;
      report, sizes := PurgeRows(k, hard);
      Purges(t, blobs, c, events, k, hard, engine.repo.View(), engine.store.blobs, engine.Answers(),
             engine.journal.events, report, sizes);
    }

    method PurgeRows(k: Key, hard: bool) returns (report: PurgeReport, ghost sizes: map<BlobKey, nat>)
      requires engine.Valid()
      modifies engine.repo, engine.repo.rows, engine.store, engine.journal
      ensures engine.Valid() && engine.repo.rows == old(engine.repo.rows)
      ensures engine.Answers() == old(engine.Answers()) - {k}
      ensures SizesOf(History(old(engine.repo.View()), k), sizes) && report == PurgeReport(1, Total(sizes), |sizes|)
      ensures engine.repo.View() == PurgedTable(old(engine.repo.View()), k, hard)
      ensures engine.store.blobs == old(engine.store.blobs) - sizes.Keys
      ensures engine.journal.events ==
        if hard then EventsWithout(old(engine.journal.events), k) else old(engine.journal.events)
    {
      hide SizesOf, Total, EventsWithout, DropKey, SoftPurgedKey, History, StoreOk, WellFormed;
      var removed, freed, named;
      if hard {
        removed, freed, named := HardDeleteKey(k);
      } else {
        removed, freed, named := SoftPurgeKey(k);
      }
      report, sizes := PurgeReport(1, freed, removed), named;
    }

    /** Soft-purges everything current: no answer is left, and what no current answer stands for stays. */
    method PurgeAllSoft() returns (report: PurgeReport)
      requires engine.Valid()
      modifies engine.repo.rows, engine.store
      ensures engine.Valid() && engine.Answers() == map[]
      ensures KeysReleased(old(engine.repo.View()), old(engine.store.blobs), old(engine.Answers()),
                           Eviction.CurrentKeys(old(engine.repo.View())),
                           engine.repo.View(), engine.store.blobs, engine.Answers(), report.blobsRemoved,
                           report.bytesFreed)
      ensures report.executionsRemoved == |Eviction.CurrentKeys(old(engine.repo.View()))|
    {
      ghost var t, blobs, c := engine.repo.View(), engine.store.blobs, engine.Answers();
      AnswersAreCurrent(t, blobs, engine.inputParts, engine.nextId);
      var entries := engine.repo.CurrentExecutionsWithSizes();
      var keys := Eviction.KeysOf(entries);
      assert keys == Eviction.CurrentKeys(t);
      hide *;
      report := SoftPurgeKeys(keys);
      NoAnswerLeft(t, blobs, c, engine.repo.View(), engine.store.blobs, engine.Answers(), report.blobsRemoved,
                   report.bytesFreed);
    }

    /** Deletes everything: no key, no row, no blob and no answer is left. */
    method PurgeAllHard() returns (report: PurgeReport)
      requires engine.Valid()
      modifies engine.repo, engine.store, engine.journal
      ensures engine.Valid() && engine.repo.rows == old(engine.repo.rows)
      ensures engine.repo.View().hist == map[] && engine.store.blobs == map[] && engine.Answers() == map[]
      ensures |old(engine.store.blobs)| <= report.blobsRemoved && Physical(old(engine.store.blobs)) <= report.bytesFreed
    {
      ghost var t, blobs, c, events := engine.repo.View(), engine.store.blobs, engine.Answers(), engine.journal.events;
      DroppingAll(t, blobs, engine.inputParts, engine.nextId, c, events);
      hide *;
      report := HardDeleteKeys(engine.repo.order);
      assert AllGone(blobs, engine.repo.View(), engine.store.blobs, engine.Answers(), report.blobsRemoved,
                     report.bytesFreed);
    }
  }

  function PurgedTable(t: Table, k: Key, hard: bool): Table
    requires WellFormed(t)
  {
    if hard then DropKey(t, k) else SoftPurgedKey(t, k)
  }

  /**
   * The whole effect of purging one key: its rows, its answer, the blobs its rows name, and after a hard delete its
   * events. A key without rows is left as it is, events included.
   */
  ghost predicate KeyPurged(t: Table, blobs: Blobs, c: Cache, events: seq<Event>, k: Key, hard: bool,
                            u: Table, blobs': Blobs, c': Cache, events': seq<Event>, report: PurgeReport)
    requires WellFormed(t)
  {
    && u == PurgedTable(t, k, hard) && c' == c - {k}
    && events' == (if hard && History(t, k) != [] then EventsWithout(events, k) else events)
    && report.executionsRemoved == (if History(t, k) == [] then 0 else 1)
    && BlobsReleased(History(t, k), blobs, blobs', report)
  }

  /** The blobs the rows of one key name are gone, counted and measured. */
  ghost predicate BlobsReleased(h: seq<Row>, blobs: Blobs, blobs': Blobs, report: PurgeReport) {
    exists sizes ::
      && SizesOf(h, sizes) && blobs' == blobs - sizes.Keys
      && report.blobsRemoved == |sizes| && report.bytesFreed == Total(sizes)
  }

  lemma {:induction false} Purges(t: Table, blobs: Blobs, c: Cache, events: seq<Event>, k: Key, hard: bool,
                                  u: Table, blobs': Blobs, c': Cache, events': seq<Event>,
                                  report: PurgeReport, sizes: map<BlobKey, nat>)
    requires WellFormed(t) && History(t, k) != [] && SizesOf(History(t, k), sizes)
    requires report == PurgeReport(1, Total(sizes), |sizes|)
    requires u == PurgedTable(t, k, hard) && blobs' == blobs - sizes.Keys && c' == c - {k}
    requires events' == if hard then EventsWithout(events, k) else events
    ensures KeyPurged(t, blobs, c, events, k, hard, u, blobs', c', events', report)
  {
    hide SizesOf, Total, EventsWithout, PurgedTable, History;
  }

  ghost predicate AllGone(blobs: Blobs, u: Table, blobs': Blobs, c': Cache, removed: nat, freed: nat) {
    && u.hist == map[] && blobs' == map[] && c' == map[]
    && |blobs| <= removed && Physical(blobs) <= freed
  }

  lemma {:induction false} DroppingAll(t: Table, blobs: Blobs, inputs: Inputs, next: nat, c: Cache, events: seq<Event>)
    requires StoreOk(t, blobs, inputs, next) && c.Keys <= t.hist.Keys
    ensures forall u, blobs', c', events', removed, freed ::
      KeysDropped(t, blobs, c, events, t.order, u, blobs', c', events', removed, freed) ==>
        AllGone(blobs, u, blobs', c', removed, freed)
  {
    forall b | b in blobs
      ensures NamedBy(t, t.order, b)
    {
      OrderNames(t, blobs, inputs, next, b);
    }
    assert forall k :: k in t.hist ==> k in t.order;
    hide StoreOk, KeysDropped, AllGone, NamedBy;
    forall u, blobs', c', events', removed, freed |
        KeysDropped(t, blobs, c, events, t.order, u, blobs', c', events', removed, freed)
      ensures AllGone(blobs, u, blobs', c', removed, freed)
    {
      AllDropped(t, blobs, c, events, u, blobs', c', events', removed, freed);
    }
  }

  lemma {:induction false} OrderNames(t: Table, blobs: Blobs, inputs: Inputs, next: nat, b: BlobKey)
    requires StoreOk(t, blobs, inputs, next) && b in blobs
    ensures NamedBy(t, t.order, b)
  {
    var k, i :| NamedAt(t, k, i, b);
    var n :| 0 <= n < |t.order| && t.order[n] == k;
    assert NamedIn(History(t, t.order[n]), b);
  }

  lemma {:induction false} AllDropped(t: Table, blobs: Blobs, c: Cache, events: seq<Event>,
                                      u: Table, blobs': Blobs, c': Cache, events': seq<Event>, removed: nat, freed: nat)
    requires (forall b :: b in blobs ==> NamedBy(t, t.order, b)) && (forall k :: k in t.hist ==> k in t.order)
    requires c.Keys <= t.hist.Keys
    requires KeysDropped(t, blobs, c, events, t.order, u, blobs', c', events', removed, freed)
    ensures AllGone(blobs, u, blobs', c', removed, freed)
  {
    hide NamedBy, Sizes;
    NotMore(blobs.Keys, NamedBlobs(t, t.order));
    assert blobs'.Keys == {};
    assert Physical(blobs') == 0 by { NoBytes(); }
    assert u.hist.Keys == {};
    assert c'.Keys == {};
  }

  lemma {:induction false} NoBytes()
    ensures Physical(map[]) == 0
  {
    assert Sizes(map[]).Keys == {};
  }

  lemma {:induction false} NotMore(a: set<BlobKey>, b: set<BlobKey>)
    requires a <= b
    ensures |a| <= |b|
  {
    assert b == a + (b - a);
  }

  lemma {:induction false} NoRows(t: Table, blobs: Blobs, k: Key, hard: bool)
    requires WellFormed(t) && History(t, k) == []
    ensures Entries(t, blobs) - {k} == Entries(t, blobs) && PurgedTable(t, k, hard) == t
  {
    EntriesAt(t, blobs, k);
  }

  lemma {:induction false} NoRowsNoAnswer(t: Table, blobs: Blobs, c: Cache, events: seq<Event>, k: Key, hard: bool,
                                          report: PurgeReport)
    requires WellFormed(t) && History(t, k) == [] && c == Entries(t, blobs) && report == PurgeReport(0, 0, 0)
    ensures KeyPurged(t, blobs, c, events, k, hard, t, blobs, c, events, report)
  {
    NoRows(t, blobs, k, hard);
    NoBlobs(blobs);
    hide Entries, PurgedTable, History, WellFormed, BlobsReleased, EventsWithout;
  }

  lemma {:induction false} NoBlobs(blobs: Blobs)
    ensures BlobsReleased([], blobs, blobs, PurgeReport(0, 0, 0))
  {
    var sizes: map<BlobKey, nat> := map[];
    assert SizesOf([], sizes) && Total(sizes) == 0 && blobs - sizes.Keys == blobs;
  }

  /** The events of other keys, in their order. */
  function EventsKept(events: seq<Event>, keys: seq<Key>): seq<Event> {
    if events == [] then []
    else
      var last := events[|events| - 1];
      EventsKept(events[..|events| - 1], keys) + if last.key in keys then [] else [last]
  }

  /** Exactly the events of the named keys go: the rest keep their order and their number. */
  lemma {:induction false} EventsKeptAre(events: seq<Event>, more: seq<Event>, keys: seq<Key>, e: Event)
    ensures EventsKept(events + more, keys) == EventsKept(events, keys) + EventsKept(more, keys)
    ensures EventsKept([e], keys) == if e.key in keys then [] else [e]
  {
    assert EventsKept([e], keys) == EventsKept([e][..0], keys) + if e.key in keys then [] else [e];
    if more == [] {
      assert events + more == events;
    } else {
      var n := |more| - 1;
      EventsKeptAre(events, more[..n], keys, e);
      assert (events + more)[..|events + more| - 1] == events + more[..n];
    }
  }

  ghost predicate EventsDropped(events: seq<Event>, keys: seq<Key>, events': seq<Event>) {
    events' == EventsKept(events, keys)
  }

  lemma {:induction false} NothingKept(events: seq<Event>, keys: seq<Key>)
    requires keys == []
    ensures EventsKept(events, keys) == events
  {
    if events != [] {
      NothingKept(events[..|events| - 1], keys);
      assert events == events[..|events| - 1] + [events[|events| - 1]];
    }
  }

  lemma {:induction false} KeptWithout(events: seq<Event>, keys: seq<Key>, k: Key)
    ensures EventsWithout(EventsKept(events, keys), k) == EventsKept(events, keys + [k])
  {
    if events != [] {
      var init, last := events[..|events| - 1], events[|events| - 1];
      KeptWithout(init, keys, k);
      assert last.key in keys + [k] <==> last.key in keys || last.key == k;
      var kept := EventsKept(init, keys);
      if last.key in keys {
        assert EventsKept(events, keys) == kept;
      } else {
        assert (kept + [last])[..|kept + [last]| - 1] == kept;
      }
    }
  }

  /** Dropping one key's events is keeping the others'. */
  lemma {:induction false} WithoutIsKept(events: seq<Event>, k: Key)
    ensures EventsWithout(events, k) == EventsKept(events, [k])
  {
    NothingKept(events, []);
    KeptWithout(events, [], k);
    assert [] + [k] == [k];
  }

  /** The whole effect of deleting `keys`. */
  ghost predicate KeysDropped(t: Table, blobs: Blobs, c: Cache, events: seq<Event>, keys: seq<Key>,
                              u: Table, blobs': Blobs, c': Cache, events': seq<Event>, removed: nat, freed: nat) {
    && u.hist == t.hist - Eviction.KeySet(keys)
    && c' == c - Eviction.KeySet(keys)
    && EventsDropped(events, keys, events')
    && Purged(t, blobs, keys, u, blobs')
    && Freed(t, blobs, keys, blobs', removed, freed)
  }

  lemma {:induction false} NoKeysDropped(t: Table, blobs: Blobs, c: Cache, events: seq<Event>, keys: seq<Key>)
    ensures keys[..0] == [] && keys[..|keys|] == keys
    ensures KeysDropped(t, blobs, c, events, keys[..0], t, blobs, c, events, 0, 0)
  {
    NothingKept(events, keys[..0]);
    assert NamedBlobs(t, keys[..0]) == {};
  }

  lemma {:induction false} EventsNext(events: seq<Event>, events': seq<Event>, keys: seq<Key>, n: nat)
    requires n < |keys| && EventsDropped(events, keys[..n], events')
    ensures EventsDropped(events, keys[..n + 1], EventsWithout(events', keys[n]))
  {
    assert keys[..n + 1] == keys[..n] + [keys[n]];
    KeptWithout(events, keys[..n], keys[n]);
  }

  lemma {:induction false} NextKeyDropped(t: Table, blobs: Blobs, inputs: Inputs, next: nat, c: Cache,
                                          events: seq<Event>, keys: seq<Key>, n: nat, u: Table, blobs': Blobs,
                                          c': Cache, events': seq<Event>, sizes: map<BlobKey, nat>, had: nat,
                                          fewer: nat, freed: nat, more: nat)
    requires fewer == |sizes| && more == Total(sizes) && n < |keys|
    requires WellFormed(t) && RowsOk(t, inputs, next) && BlobsOk(u, blobs') && WellFormed(u)
    requires SizesOf(History(u, keys[n]), sizes)
    requires KeysDropped(t, blobs, c, events, keys[..n], u, blobs', c', events', had, freed)
    ensures KeysDropped(t, blobs, c, events, keys[..n + 1],
                        DropKey(u, keys[n]), blobs' - sizes.Keys, c' - {keys[n]}, EventsWithout(events', keys[n]),
                        had + fewer, freed + more)
  {
    var k := keys[n];
    hide RowsOk, BlobsOk, SizesOf, Purged, Freed, Total, History, Eviction.SoftPurgedKeys, Eviction.KeySet, WellFormed,
      DropKey,
      PurgedKey, EventsWithout, SoftPurgedKey;
    Dropped(u, k);
    OneMoreKey(t, keys, n);
    NextReleased(t, blobs, inputs, next, keys[..n], u, blobs', k, DropKey(u, k), sizes, had, fewer, freed, more);
    EventsNext(events, events', keys, n);
    LessMore(c, Eviction.KeySet(keys[..n]), k);
    LessMore(t.hist, Eviction.KeySet(keys[..n]), k);
  }

  lemma {:induction false} Dropped(t: Table, k: Key)
    requires WellFormed(t)
    ensures DropKey(t, k).hist == t.hist - {k} && PurgedKey(t, k, DropKey(t, k))
  {
    DropPurges(t, k);
  }

  lemma {:induction false} NextReleased(t: Table, blobs: Blobs, inputs: Inputs, next: nat, keys: seq<Key>, u: Table,
                                        blobs': Blobs, k: Key, u': Table, sizes: map<BlobKey, nat>, had: nat,
                                        fewer: nat, freed: nat, more: nat)
    requires WellFormed(t) && RowsOk(t, inputs, next) && BlobsOk(u, blobs') && SizesOf(History(u, k), sizes)
    requires Purged(t, blobs, keys, u, blobs') && PurgedKey(u, k, u') && Freed(t, blobs, keys, blobs', had, freed)
    requires fewer == |sizes| && more == Total(sizes)
    ensures Purged(t, blobs, keys + [k], u', blobs' - sizes.Keys)
    ensures Freed(t, blobs, keys + [k], blobs' - sizes.Keys, had + fewer, freed + more)
  {
    NextPurged(t, blobs, keys, u, blobs', k, u', sizes);
    NextFreed(t, blobs, inputs, next, keys, u, blobs', k, sizes, had, fewer, freed, more);
    hide *;
  }

  function EventsWithout(events: seq<Event>, k: Key): (r: seq<Event>)
    ensures forall e :: e in r <==> e in events && e.key != k
  {
    if events == [] then []
    else
      EventsWithout(events[..|events| - 1], k) + (if events[|events| - 1].key == k then [] else [events[|events| - 1]])
  }

  lemma {:induction false} DropMeaning(t: Table, blobs: Blobs, inputs: Inputs, next: nat, k: Key,
                                       sizes: map<BlobKey, nat>)
    requires StoreOk(t, blobs, inputs, next) && SizesOf(History(t, k), sizes)
    ensures StoreOk(DropKey(t, k), blobs - sizes.Keys, inputs, next)
    ensures Entries(DropKey(t, k), blobs - sizes.Keys) == Entries(t, blobs) - {k}
  {
    DroppedRows(t, inputs, next, k);
    DropPurges(t, k);
    PurgeMeaning(t, blobs, inputs, next, k, DropKey(t, k), sizes);
  }

  lemma {:induction false} AnswersAreCurrent(t: Table, blobs: Blobs, inputs: Inputs, next: nat)
    requires StoreOk(t, blobs, inputs, next)
    ensures forall k :: k in Entries(t, blobs) ==> k in Eviction.CurrentKeys(t)
  {
    forall k | k in Entries(t, blobs)
      ensures k in Eviction.CurrentKeys(t)
    {
      EntriesAt(t, blobs, k);
      Eviction.ServableIsListed(t, t.order, k, CurrentIndex(History(t, k)));
    }
  }

  lemma {:induction false} NoAnswerLeft(t: Table, blobs: Blobs, c: Cache, u: Table, blobs': Blobs, c': Cache,
                                        removed: nat, freed: nat)
    requires forall k :: k in c ==> k in Eviction.CurrentKeys(t)
    requires KeysReleased(t, blobs, c, Eviction.CurrentKeys(t), u, blobs', c', removed, freed)
    ensures c' == map[]
  {
    hide Purged, Freed, Eviction.SoftPurgedKeys, Eviction.CurrentKeys;
    assert c'.Keys == {};
  }

  /** A maximum age that is not positive evicts nothing. */
  ghost predicate Stale(t: Table, epoch: Eviction.Epochs, maxAge: real, now: real, keys: seq<Key>) {
    if maxAge <= 0.0 then keys == [] else Eviction.StaleKeys(t, epoch, now - maxAge, keys)
  }

  /** The victims, and nothing else, were purged; and that is enough for any cap that is not negative. */
  ghost predicate Evicted(t: Table, blobs: Blobs, c: Cache, epoch: Eviction.Epochs, cap: int, victims: seq<Key>,
                          u: Table, blobs': Blobs, c': Cache, removed: nat, freed: nat) {
    && Eviction.Victims(t, epoch, cap, victims)
    && KeysReleased(t, blobs, c, victims, u, blobs', c', removed, freed)
    && (0 <= cap ==> Eviction.TotalStored(u) <= cap)
  }

  /** Whatever purge of the victims it is, it fits the cap. */
  lemma {:induction false} VictimsFit(t: Table, blobs: Blobs, c: Cache, inputs: Inputs, next: nat,
                                      epoch: Eviction.Epochs, cap: int, keys: seq<Key>)
    requires StoreOk(t, blobs, inputs, next) && Eviction.Victims(t, epoch, cap, keys)
    ensures forall u, blobs', c', removed, freed ::
      KeysReleased(t, blobs, c, keys, u, blobs', c', removed, freed) ==>
        Evicted(t, blobs, c, epoch, cap, keys, u, blobs', c', removed, freed)
  {
    Eviction.EvictionFits(t, epoch, cap, keys);
  }

  lemma {:induction false} BlobsAreOk(t: Table, blobs: Blobs, inputs: Inputs, next: nat)
    requires StoreOk(t, blobs, inputs, next)
    ensures BlobsOk(t, blobs)
  {
  }

  /**
   * What was reported for `keys`: every blob their rows name, once; at least the bytes that left the disk, and exactly
   * those when no named blob was missing.
   */
  ghost predicate Freed(t: Table, blobs: Blobs, keys: seq<Key>, blobs': Blobs, removed: nat, freed: nat) {
    && removed == |NamedBlobs(t, keys)|
    && Physical(blobs) <= Physical(blobs') + freed
    && (NothingMissing(t, blobs, keys) ==> Physical(blobs) == Physical(blobs') + freed)
  }

  /** The whole effect of soft-purging `keys` on rows, blobs and answers, with the bytes reported for it. */
  ghost predicate KeysReleased(t: Table, blobs: Blobs, c: Cache, keys: seq<Key>,
                               u: Table, blobs': Blobs, c': Cache, removed: nat, freed: nat) {
    && u == Eviction.SoftPurgedKeys(t, keys)
    && c' == c - Eviction.KeySet(keys)
    && Purged(t, blobs, keys, u, blobs')
    && Freed(t, blobs, keys, blobs', removed, freed)
  }

  lemma {:induction false} NoKeysPurged(t: Table, blobs: Blobs, c: Cache, keys: seq<Key>)
    ensures keys[..0] == [] && keys[..|keys|] == keys
    ensures KeysReleased(t, blobs, c, keys[..0], t, blobs, c, 0, 0)
  {
    assert NamedBlobs(t, keys[..0]) == {};
  }

  lemma {:induction false} OneMoreKey(t: Table, keys: seq<Key>, n: nat)
    requires n < |keys|
    ensures keys[..n + 1] == keys[..n] + [keys[n]]
    ensures Eviction.KeySet(keys[..n + 1]) == Eviction.KeySet(keys[..n]) + {keys[n]}
    ensures Eviction.SoftPurgedKeys(t, keys[..n + 1]) == SoftPurgedKey(Eviction.SoftPurgedKeys(t, keys[..n]), keys[n])
  {
    assert keys[..n + 1][..n] == keys[..n];
  }

  lemma {:induction false} NextKeyPurged(t: Table, blobs: Blobs, inputs: Inputs, next: nat, c: Cache, keys: seq<Key>,
                                         n: nat, u: Table, blobs': Blobs, c': Cache, sizes: map<BlobKey, nat>, had: nat,
                                         fewer: nat, freed: nat, more: nat)
    requires fewer == |sizes| && more == Total(sizes) && n < |keys| && WellFormed(t) && RowsOk(t, inputs, next)
    requires BlobsOk(u, blobs')
    requires SizesOf(History(u, keys[n]), sizes) && KeysReleased(t, blobs, c, keys[..n], u, blobs', c', had, freed)
    ensures KeysReleased(t, blobs, c, keys[..n + 1], SoftPurgedKey(u, keys[n]), blobs' - sizes.Keys, c' - {keys[n]},
                         had + fewer, freed + more)
  {
    hide WellFormed, RowsOk, BlobsOk, SizesOf, Purged, Freed, Total, PurgedKey, SoftPurgedKey, Eviction.SoftPurgedKeys,
      Eviction.KeySet, History;
    var k := keys[n];
    OneMoreKey(t, keys, n);
    SoftPurgePurges(u, k);
    NextReleased(t, blobs, inputs, next, keys[..n], u, blobs', k, SoftPurgedKey(u, k), sizes, had, fewer, freed, more);
    LessMore(c, Eviction.KeySet(keys[..n]), k);
  }

  lemma {:induction false} LessMore<T>(c: map<Key, T>, gone: set<Key>, k: Key)
    ensures c - gone - {k} == c - (gone + {k})
  {
  }

  lemma {:induction false} NextFreed(t: Table, blobs: Blobs, inputs: Inputs, next: nat, keys: seq<Key>, u: Table,
                                     blobs': Blobs, k: Key, sizes: map<BlobKey, nat>, had: nat, fewer: nat, freed: nat,
                                     more: nat)
    requires WellFormed(t) && RowsOk(t, inputs, next) && BlobsOk(u, blobs') && SizesOf(History(u, k), sizes)
    requires Purged(t, blobs, keys, u, blobs') && Freed(t, blobs, keys, blobs', had, freed)
    requires fewer == |sizes| && more == Total(sizes)
    ensures Freed(t, blobs, keys + [k], blobs' - sizes.Keys, had + fewer, freed + more)
  {
    NextCount(t, blobs, inputs, next, keys, u, blobs', k, sizes);
    BytesAreConserved(blobs', History(u, k), sizes);
    TotalRestrictIsLess(sizes, blobs'.Keys);
    if NothingMissing(t, blobs, keys + [k]) {
      NextIsPresent(t, blobs, inputs, next, keys, u, blobs', k, sizes);
      forall b | NamedBy(t, keys, b)
        ensures b in blobs
      {
        NamedByNext(t, keys, k, b);
      }
    }
  }

  lemma {:induction false} TotalRestrictIsLess(sizes: map<BlobKey, nat>, part: set<BlobKey>)
    ensures Total(sizes - part) <= Total(sizes)
  {
    TotalSplit(sizes, part);
  }

  lemma {:induction false} SoftPurgeMeaning(t: Table, blobs: Blobs, inputs: Inputs, next: nat, k: Key,
                                            sizes: map<BlobKey, nat>)
    requires StoreOk(t, blobs, inputs, next) && SizesOf(History(t, k), sizes)
    ensures StoreOk(SoftPurgedKey(t, k), blobs - sizes.Keys, inputs, next)
    ensures Entries(SoftPurgedKey(t, k), blobs - sizes.Keys) == Entries(t, blobs) - {k}
  {
    SoftPurgedRows(t, inputs, next, k);
    SoftPurgePurges(t, k);
    PurgeMeaning(t, blobs, inputs, next, k, SoftPurgedKey(t, k), sizes);
  }

  lemma {:induction false} RowsOwn(t: Table, inputs: Inputs, next: nat, k: Key)
    requires RowsOk(t, inputs, next)
    ensures forall j :: 0 <= j < |History(t, k)| ==> OwnArtifacts(History(t, k)[j])
  {
    assert forall j :: 0 <= j < |History(t, k)| ==> Has(t, k, j);
  }
}
