/** The managed-run service: one call, and quota enforcement after every stored record. */
module RunService {
  import opened Executions
  import opened CacheModel
  import opened CacheSpec
  import opened CacheLaws
  import Eviction
  import opened Engine
  import opened PurgeService

  /**
   * What the quota makes of the store `t` just after a record: the shortest least-recently-used prefix is purged, which
   * is enough for any cap that is not negative; without a quota nothing is.
   */
  ghost predicate Enforced(maxSize: Option<int>, lastAccess: Option<map<Key, real>>, createdAt: Key -> Option<real>,
                           t: Table, victims: seq<Key>, u: Table) {
    match maxSize
    case None => victims == [] && u == t
    case Some(cap) =>
      && Eviction.Victims(t, Eviction.Epoch(lastAccess, createdAt), cap, victims)
      && Eviction.LeastRecentGo(t, lastAccess, createdAt, victims) && Eviction.NoMoreThanMust(t, cap, victims)
      && u == Eviction.SoftPurgedKeys(t, victims)
      && (0 <= cap ==> Eviction.TotalStored(u) <= cap)
  }

  predicate StoredARecord(s: Step) {
    s.events != [] && s.events[0].kind == Record
  }

  class RunMlExecutionService {
    const engine: CachedMlExecutionService
    const purge: PurgeService
    const maxSize: Option<int>

    constructor (purge: PurgeService, maxSize: Option<int>)
      ensures this.engine == purge.engine && this.purge == purge && this.maxSize == maxSize
    {
      this.engine, this.purge, this.maxSize := purge.engine, purge, maxSize;
    }

    /** The post-record hook. */
    method AfterRecord(lastAccess: Option<map<Key, real>>) returns (ghost victims: seq<Key>)
      requires engine.Valid() && purge.engine == engine
      modifies engine.repo.rows, engine.store
      ensures engine.Valid() && engine.Answers() == old(engine.Answers()) - Eviction.KeySet(victims)
      ensures Enforced(maxSize, lastAccess, purge.createdAt, old(engine.repo.View()), victims, engine.repo.View())
    {
      ghost var t := engine.repo.View();
      NothingEvicted(engine.Answers());
      if maxSize.None? {
        victims := [];
        return;
      }
      var _, evicted := purge.EvictToQuota(maxSize.value, lastAccess);
      victims := evicted;
      hide Eviction.Victims, Eviction.LeastRecentGo, Eviction.NoMoreThanMust, Eviction.Epoch, Eviction.TotalStored,
        Eviction.SoftPurgedKeys, Eviction.KeySet, StoreOk, Entries;
    }

    /**
     * The call does what the plain map says and leaves the store `called`, `blobs`; then, after every call that stored
     * a record and after no other, the quota is enforced on that store.
     */
    method Execute(cmd: Command, w: World, lastAccess: Option<map<Key, real>>)
      returns (r: Result, ghost victims: seq<Key>, ghost called: Table, ghost blobs: Blobs)
      requires engine.Valid() && purge.engine == engine
      modifies engine, engine.repo, engine.repo.rows, engine.store, engine.journal
      ensures engine.Valid() && fresh(engine.repo.rows - old(engine.repo.rows))
      ensures var s := CacheSpec.Execute(old(engine.Answers()), cmd, engine.inputParts(cmd.key), w);
        && r == s.result && Entries(called, blobs) == s.cache
        && engine.Answers() == s.cache - Eviction.KeySet(victims)
        && engine.journal.events == old(engine.journal.events) + s.events
        && if StoredARecord(s)
           then Enforced(maxSize, lastAccess, purge.createdAt, called, victims, engine.repo.View())
           else victims == [] && engine.repo.View() == called
    {
      ghost var s := CacheSpec.Execute(engine.Answers(), cmd, engine.inputParts(cmd.key), w);
      OneEventEach(engine.Answers(), cmd, engine.inputParts(cmd.key), w);
      var before := |engine.journal.events|;
      hide *;
      r := engine.Execute(cmd, w);
      victims, called, blobs := [], engine.repo.View(), engine.store.blobs;
      NothingEvicted(engine.Answers());
      if |engine.journal.events| > before && engine.journal.events[before].kind == Record {
        victims := AfterRecord(lastAccess);
      }
    }
  }

  lemma {:induction false} NothingEvicted(c: Cache)
    ensures c - Eviction.KeySet([]) == c
  {
  }
}
