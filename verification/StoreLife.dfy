/**
 * A store over its whole life: recorded to, replayed from, purged, evicted, repaired, and losing blobs, in any order.
 */
module StoreLife {
  import opened Executions
  import opened CacheModel
  import opened CacheSpec
  import opened Engine
  import opened EngineRuns
  import opened PurgeService
  import Eviction
  import Repairing
  import opened Purging
  import opened RepairService
  import opened RunService

  type AccessTimes = Option<map<Key, real>>

  datatype Operation =
    | Call(cmd: Command, world: World, lastAccess: AccessTimes)
    | Purge(keys: seq<Key>, hard: bool)
    | PurgeKey(key: Key, hard: bool)
    | PurgeAll(hard: bool)
    | EvictToQuota(maxBytes: int, lastAccess: AccessTimes)
    | EvictStale(maxAge: real, now: real, lastAccess: AccessTimes)
    | Repair
    | Lose(lost: set<BlobKey>)

  /** Every blob is named by the rows of one execution, and by no other; its bytes are those its name digests. */
  ghost predicate OwnedByOne(t: Table, blobs: Blobs) {
    forall b :: b in blobs ==>
      && blobs[b] == b.fingerprint.preimage
      && (exists k, i :: NamedAt(t, k, i, b))
      && (forall k, i, l, j :: NamedAt(t, k, i, b) && NamedAt(t, l, j, b) ==> k == l && i == j)
  }

  lemma {:induction false} SoundStoreIsOwned(t: Table, blobs: Blobs, inputs: Inputs, next: nat)
    requires StoreOk(t, blobs, inputs, next)
    ensures OwnedByOne(t, blobs)
  {
    forall b, k, i, l, j | b in blobs && NamedAt(t, k, i, b) && NamedAt(t, l, j, b)
      ensures k == l && i == j
    {
      assert At(t, k, i, b.owner) && At(t, l, j, b.owner);
    }
  }

  /** A store at one moment: its rows, its blobs, the answers they stand for, and its journal. */
  datatype Moment = Moment(table: Table, blobs: Blobs, answers: Cache, events: seq<Event>)

  ghost function Now(engine: CachedMlExecutionService): Moment
    requires engine.repo.Separate()
    reads engine, engine.repo, engine.repo.rows, engine.store, engine.journal
  {
    Moment(engine.repo.View(), engine.store.blobs, engine.Answers(), engine.journal.events)
  }

  /** What each operation does to the store, said of what a caller sees of it. */
  ghost predicate Did(op: Operation, inputs: Inputs, createdAt: Key -> Option<real>, a: Moment, b: Moment)
    requires WellFormed(a.table)
  {
    match op
    case Call(cmd, world, _) =>
      var s := CacheSpec.Execute(a.answers, cmd, inputs(cmd.key), world);
      b.events == a.events + s.events && CalledAndEvicted(s, b.answers)
    case Purge(keys, hard) =>
      && b.answers == a.answers - Eviction.KeySet(keys)
      && if hard then b.table.hist == a.table.hist - Eviction.KeySet(keys)
         else b.table == Eviction.SoftPurgedKeys(a.table, keys)
    case PurgeKey(key, hard) => b.table == PurgedTable(a.table, key, hard) && b.answers == a.answers - {key}
    case PurgeAll(hard) => b.answers == map[] && (hard ==> b.table.hist == map[] && b.blobs == map[])
    case EvictToQuota(maxBytes, lastAccess) => QuotaHolds(a, b, maxBytes, lastAccess, createdAt)
    case EvictStale(maxAge, now, lastAccess) => StaleGone(a, b, maxAge, now, lastAccess, createdAt)
    case Repair => b.table == Repairing.Repaired(a.table, a.blobs) && b.blobs == a.blobs
    case Lose(lost) => b.table == a.table && b.blobs == a.blobs - lost && b.events == a.events
  }

  ghost predicate CalledAndEvicted(s: Step, c: Cache) {
    exists victims :: c == s.cache - Eviction.KeySet(victims) && (victims == [] || StoredARecord(s))
  }

  ghost predicate QuotaHolds(a: Moment, b: Moment, maxBytes: int, lastAccess: AccessTimes,
                             createdAt: Key -> Option<real>) {
    exists victims ::
      && Eviction.LeastRecentGo(a.table, lastAccess, createdAt, victims)
      && Eviction.NoMoreThanMust(a.table, maxBytes, victims)
      && b.table == Eviction.SoftPurgedKeys(a.table, victims) && b.answers == a.answers - Eviction.KeySet(victims)
      && (0 <= maxBytes ==> Eviction.TotalStored(b.table) <= maxBytes)
  }

  ghost predicate StaleGone(a: Moment, b: Moment, maxAge: real, now: real, lastAccess: AccessTimes,
                            createdAt: Key -> Option<real>) {
    exists stale ::
      && Eviction.StaleGo(a.table, lastAccess, createdAt, maxAge, now, stale)
      && b.table == Eviction.SoftPurgedKeys(a.table, stale) && b.answers == a.answers - Eviction.KeySet(stale)
  }

  method PerformCall(service: RunMlExecutionService, op: Operation)
    requires service.engine.Valid() && service.purge.engine == service.engine && op.Call?
    modifies service.engine, service.engine.repo, service.engine.repo.rows, service.engine.store, service.engine.journal
    ensures service.engine.Valid() && fresh(service.engine.repo.rows - old(service.engine.repo.rows))
    ensures Did(op, service.engine.inputParts, service.purge.createdAt, old(Now(service.engine)), Now(service.engine))
  {
    hide StoreOk, WellFormed, Entries, CacheSpec.Execute, Eviction.KeySet, Enforced, StoredARecord;
    ghost var c := service.engine.Answers();
    var _, victims, _, _ := service.Execute(op.cmd, op.world, op.lastAccess);
    ghost var s := CacheSpec.Execute(c, op.cmd, service.engine.inputParts(op.cmd.key), op.world);
    assert service.engine.Answers() == s.cache - Eviction.KeySet(victims) && (victims == [] || StoredARecord(s));
  }

  method PerformPurge(service: RunMlExecutionService, op: Operation)
    requires service.engine.Valid() && service.purge.engine == service.engine
    requires op.Purge? || op.PurgeKey? || op.PurgeAll?
    modifies service.engine.repo, service.engine.repo.rows, service.engine.store, service.engine.journal
    ensures service.engine.Valid() && service.engine.repo.rows == old(service.engine.repo.rows)
    ensures Did(op, service.engine.inputParts, service.purge.createdAt, old(Now(service.engine)), Now(service.engine))
  {
    hide StoreOk, WellFormed, Entries, Purged, Freed, EventsDropped, BlobsReleased, Eviction.KeySet,
      Eviction.SoftPurgedKeys,
      DropKey, SoftPurgedKey, Eviction.CurrentKeys;
    match op {
      case Purge(keys, hard) =>
        if hard {
          var _ := service.purge.HardDeleteKeys(keys);
        } else {
          var _ := service.purge.SoftPurgeKeys(keys);
        }
      case PurgeKey(key, hard) =>
        var _ := service.purge.PurgeByKey(key, hard);
      case PurgeAll(hard) =>
        if hard {
          var _ := service.purge.PurgeAllHard();
        } else {
          var _ := service.purge.PurgeAllSoft();
        }
    }
  }

  method PerformEviction(service: RunMlExecutionService, op: Operation)
    requires service.engine.Valid() && service.purge.engine == service.engine && (op.EvictToQuota? || op.EvictStale?)
    modifies service.engine.repo.rows, service.engine.store
    ensures service.engine.Valid()
    ensures Did(op, service.engine.inputParts, service.purge.createdAt, old(Now(service.engine)), Now(service.engine))
  {
    hide StoreOk, WellFormed, Entries, Purged, Freed, Eviction.KeySet, Eviction.SoftPurgedKeys, Eviction.LeastRecentGo,
      Eviction.NoMoreThanMust, Eviction.StaleGo, Eviction.Victims, Eviction.TotalStored, Stale;
    ghost var a := Now(service.engine);
    if op.EvictToQuota? {
      var _, victims := service.purge.EvictToQuota(op.maxBytes, op.lastAccess);
      assert QuotaHolds(a, Now(service.engine), op.maxBytes, op.lastAccess, service.purge.createdAt);
    } else {
      var _, stale := service.purge.EvictStale(op.maxAge, op.now, op.lastAccess);
      assert StaleGone(a, Now(service.engine), op.maxAge, op.now, op.lastAccess, service.purge.createdAt);
    }
  }

  method Perform(service: RunMlExecutionService, repair: RepairStoreService, op: Operation)
    requires service.engine.Valid() && service.purge.engine == service.engine
    requires repair.repo == service.engine.repo && repair.store == service.engine.store
    modifies service.engine, service.engine.repo, service.engine.repo.rows, service.engine.store, service.engine.journal
    ensures service.engine.Valid() && fresh(service.engine.repo.rows - old(service.engine.repo.rows))
    ensures Did(op, service.engine.inputParts, service.purge.createdAt, old(Now(service.engine)), Now(service.engine))
  {
    assert service.engine.repo.Valid();
    hide StoreOk, WellFormed, Entries, Repairing.Repaired;
    match op
    case Call(_, _, _) => PerformCall(service, op);
    case Purge(_, _) => PerformPurge(service, op);
    case PurgeKey(_, _) => PerformPurge(service, op);
    case PurgeAll(_) => PerformPurge(service, op);
    case EvictToQuota(_, _) => PerformEviction(service, op);
    case EvictStale(_, _, _) => PerformEviction(service, op);
    case Repair =>
      var _ := RepairStore(service.engine, repair);
    case Lose(lost) =>
      LoseBlobs(service.engine, lost);
  }

  /**
   * Over any sequence of operations, each doing what it is there for, every blob keeps exactly one owner, and every key
   * at most one current answer.
   */
  method Live(service: RunMlExecutionService, repair: RepairStoreService, ops: seq<Operation>)
    returns (ghost moments: seq<Moment>)
    requires service.engine.Valid() && service.purge.engine == service.engine
    requires repair.repo == service.engine.repo && repair.store == service.engine.store
    modifies service.engine, service.engine.repo, service.engine.repo.rows, service.engine.store, service.engine.journal
    ensures service.engine.Valid()
    ensures |moments| == |ops| + 1 && moments[0] == old(Now(service.engine)) && moments[|ops|] == Now(service.engine)
    ensures forall n :: 0 <= n < |ops| ==>
      && WellFormed(moments[n].table)
      && Did(ops[n], service.engine.inputParts, service.purge.createdAt, moments[n], moments[n + 1])
    ensures OwnedByOne(service.engine.repo.View(), service.engine.store.blobs)
    ensures AtMostOneServable(service.engine.repo.View())
  {
    moments := [Now(service.engine)];
    for n := 0 to |ops|
      invariant service.engine.Valid() && fresh(service.engine.repo.rows - old(service.engine.repo.rows))
      invariant |moments| == n + 1 && moments[0] == old(Now(service.engine)) && moments[n] == Now(service.engine)
      invariant forall m :: 0 <= m < n ==>
        && WellFormed(moments[m].table)
        && Did(ops[m], service.engine.inputParts, service.purge.createdAt, moments[m], moments[m + 1])
    {
      assert WellFormed(moments[n].table) && service.engine.repo.Valid();
      hide StoreOk, WellFormed, Did, Entries;
      Perform(service, repair, ops[n]);
      moments := moments + [Now(service.engine)];
    }
    SoundStoreIsOwned(service.engine.repo.View(), service.engine.store.blobs, service.engine.inputParts,
                      service.engine.nextId);
    hide OwnedByOne, WellFormed, Did;
  }
}
