/** Whole runs of the service: any sequence of calls, with any blobs taken away by somebody else in between. */
module EngineRuns {
  import opened Executions
  import opened CacheModel
  import opened Repository
  import opened CacheSpec
  import opened CacheLaws
  import opened Engine

  /** One call to come: what is lost before it, what is asked, and how its surroundings behave. */
  datatype Call = Call(lost: set<BlobKey>, cmd: Command, world: World)

  /** Somebody deletes blobs behind the service's back. */
  method LoseBlobs(service: CachedMlExecutionService, lost: set<BlobKey>)
    requires service.Valid()
    modifies service.store
    ensures service.Valid() && service.repo.View() == old(service.repo.View())
    ensures service.store.blobs == old(service.store.blobs) - lost
    ensures Decayed(old(service.Answers()), service.Answers())
  {
    LossDecays(service.repo.View(), service.store.blobs, service.inputParts, service.nextId, lost);
    hide *;
    service.store.Lose(lost);
    assert service.repo.View() == old(service.repo.View());
  }

  lemma {:induction false} LossDecays(t: Table, blobs: Blobs, inputs: Inputs, next: nat, lost: set<BlobKey>)
    requires StoreOk(t, blobs, inputs, next)
    ensures StoreOk(t, blobs - lost, inputs, next)
    ensures Decayed(Entries(t, blobs), Entries(t, blobs - lost))
  {
    LosingBlobs(t, blobs, inputs, next, blobs - lost);
    hide StoreOk;
    forall k | k in Entries(t, blobs) {
      ArtifactsOfEntry(t.hist[k][CurrentIndex(t.hist[k])], blobs);
    }
  }

  lemma {:induction false} ArtifactsOfEntry(r: Row, blobs: Blobs)
    ensures Artifacts(EntryOf(r, blobs)) == |r.artifacts|
  {
  }

  /** One call after a loss, as the next moment of a run. */
  method Next(service: CachedMlExecutionService, call: Call) returns (result: Result, ghost m: Moment)
    requires service.Valid()
    modifies service, service.repo, service.repo.rows, service.store, service.journal
    ensures service.Valid() && fresh(service.repo.rows - old(service.repo.rows))
    ensures Decayed(old(service.Answers()), m.before) && m.cmd == call.cmd && m.world == call.world
    ensures m.step == CacheSpec.Execute(m.before, call.cmd, service.inputParts(call.cmd.key), call.world)
    ensures result == m.step.result && service.Answers() == m.step.cache
    ensures service.journal.events == old(service.journal.events) + m.step.events
    ensures service.clientCalls == old(service.clientCalls) + m.step.clientCalls
  {
    hide StoreOk, WellFormed, Entries, CacheSpec.Execute;
    LoseBlobs(service, call.lost);
    ghost var before := service.Answers();
    m := Moment(before, call.cmd, call.world,
                CacheSpec.Execute(before, call.cmd, service.inputParts(call.cmd.key), call.world));
    result := service.Execute(call.cmd, call.world);
  }

  /**
   * Rows, blobs, journal and client calls of a fresh service refine the plain map over every run: the results are the
   * run's results, the answers are the run's last answers, the journal is the run's journal.
   */
  method ExecuteAll(service: CachedMlExecutionService, calls: seq<Call>)
    returns (results: seq<Result>, ghost run: seq<Moment>)
    requires service.Valid() && service.Answers() == map[] && service.journal.events == [] && service.clientCalls == 0
    modifies service, service.repo, service.repo.rows, service.store, service.journal
    ensures service.Valid()
    ensures IsRun(map[], service.inputParts, run) && |run| == |results| == |calls|
    ensures forall i :: 0 <= i < |calls| ==>
      run[i].cmd == calls[i].cmd && run[i].world == calls[i].world && run[i].step.result == results[i]
    ensures service.Answers() == After(map[], run)
    ensures service.journal.events == EventsOf(run) && service.clientCalls == ClientCallsOf(run)
  {
    results, run := [], [];
    var n := 0;
    hide StoreOk, WellFormed, Entries, CacheSpec.Execute, Decayed;
    while n < |calls|
      invariant 0 <= n <= |calls| && |run| == |results| == n
      invariant service.Valid() && fresh(service.repo.rows - old(service.repo.rows))
      invariant IsRun(map[], service.inputParts, run)
      invariant forall i :: 0 <= i < n ==>
        run[i].cmd == calls[i].cmd && run[i].world == calls[i].world && run[i].step.result == results[i]
      invariant service.Answers() == After(map[], run)
      invariant service.journal.events == EventsOf(run) && service.clientCalls == ClientCallsOf(run)
    {
      var result, m := Next(service, calls[n]);
      RunExtends(map[], service.inputParts, run, m);
      assert (run + [m])[..n] == run;
      results, run := results + [result], run + [m];
      n := n + 1;
    }
  }

  /** The probe reads the row of the key and nothing else: no client, no blob, no journal entry. */
  method ProbeOnly(service: CachedMlExecutionService, cmd: Command) returns (status: ProbeStatus)
    requires service.Valid()
    ensures status == Probe(service.Answers(), cmd)
  {
    if Uncacheable(cmd) {
      return NonCacheable;
    }
    var current, i := service.FindCurrent(cmd.key);
    status := if current.None? then ProbeMiss else ProbeHit;
  }
}
