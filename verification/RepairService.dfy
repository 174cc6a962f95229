/** Reconciles every unpersisted run with the blob store, never running a client. */
module RepairService {
  import opened Executions
  import opened CacheModel
  import opened Repository
  import opened Repairing
  import opened Engine

  // ---- the worklist ----

  function RunsReport(runs: seq<UnpersistedRun>, blobs: Blobs): RepairReport {
    if runs == [] then NothingToReport
    else Plus(RunsReport(runs[..|runs| - 1], blobs), RunReport(runs[|runs| - 1].blobKeys, blobs))
  }

  lemma {:induction false} RunsReportNext(runs: seq<UnpersistedRun>, n: nat, blobs: Blobs)
    requires n < |runs|
    ensures RunsReport(runs[..n + 1], blobs) == Plus(RunsReport(runs[..n], blobs), RunReport(runs[n].blobKeys, blobs))
  {
    assert runs[..n + 1][..n] == runs[..n];
  }

  /** The report over the worklist is the report over the keys. */
  lemma {:induction false} WorklistReport(t: Table, keys: seq<Key>, blobs: Blobs)
    requires forall k :: k in keys ==> k in t.hist
    ensures RunsReport(Worklist(t, keys), blobs) == Report(t, keys, blobs)
  {
    if keys != [] {
      var init, k := keys[..|keys| - 1], keys[|keys| - 1];
      WorklistReport(t, init, blobs);
      WorklistNext(t, keys);
      ReportNext(t, keys, blobs);
      RunsReportNextKey(Worklist(t, init), k, t.hist[k], blobs);
      assert History(t, k) == t.hist[k];
      hide Worklist, Report, RunsReport, KeyReport, NextRuns, Plus;
    }
  }

  /** What a key adds to the worklist. */
  function NextRuns(k: Key, h: seq<Row>): seq<UnpersistedRun> {
    if AwaitsRepair(h) then [UnpersistedRun(k, Newest(h).id, Unstored(Newest(h).artifacts))] else []
  }

  lemma {:induction false} RunsReportNextKey(runs: seq<UnpersistedRun>, k: Key, h: seq<Row>, blobs: Blobs)
    ensures RunsReport(runs + NextRuns(k, h), blobs) == Plus(RunsReport(runs, blobs), KeyReport(h, blobs))
  {
    hide RunsReport, RunReport, Unstored;
    if AwaitsRepair(h) {
      var run := UnpersistedRun(k, Newest(h).id, Unstored(Newest(h).artifacts));
      RunsReportSnoc(runs, run, blobs);
      assert NextRuns(k, h) == [run] && KeyReport(h, blobs) == RunReport(run.blobKeys, blobs);
    } else {
      assert runs + NextRuns(k, h) == runs;
      assert KeyReport(h, blobs) == NothingToReport;
      PlusNothing(RunsReport(runs, blobs));
    }
    hide KeyReport, NextRuns, Plus;
  }

  lemma {:induction false} PlusNothing(r: RepairReport)
    ensures Plus(r, NothingToReport) == r
  {
  }

  lemma {:induction false} WorklistNext(t: Table, keys: seq<Key>)
    requires keys != [] && forall k :: k in keys ==> k in t.hist
    ensures var k := keys[|keys| - 1];
      Worklist(t, keys) == Worklist(t, keys[..|keys| - 1]) + NextRuns(k, t.hist[k])
  {
  }

  lemma {:induction false} RunsReportSnoc(runs: seq<UnpersistedRun>, run: UnpersistedRun, blobs: Blobs)
    ensures RunsReport(runs + [run], blobs) == Plus(RunsReport(runs, blobs), RunReport(run.blobKeys, blobs))
  {
    assert (runs + [run])[..|runs|] == runs;
  }

  predicate IsRunOf(run: UnpersistedRun, h: seq<Row>) {
    AwaitsRepair(h) && run.id == Newest(h).id && run.blobKeys == Unstored(Newest(h).artifacts)
  }

  /** The worklist names each awaiting key once, with its newest row and that row's unstored blobs. */
  lemma {:induction false} WorklistIs(t: Table, keys: seq<Key>)
    requires NoDuplicates(keys) && forall k :: k in keys ==> k in t.hist
    ensures var runs := Worklist(t, keys);
      && (forall n :: 0 <= n < |runs| ==> runs[n].key in keys && IsRunOf(runs[n], t.hist[runs[n].key]))
      && (forall m, n :: 0 <= m < n < |runs| ==> runs[m].key != runs[n].key)
      && (forall k :: k in keys && AwaitsRepair(t.hist[k]) ==> Lists(runs, k))
  {
    if keys != [] {
      var init, k := keys[..|keys| - 1], keys[|keys| - 1];
      WorklistIs(t, init);
      assert k !in init;
      var before, runs := Worklist(t, init), Worklist(t, keys);
      forall l | l in keys && AwaitsRepair(t.hist[l])
        ensures Lists(runs, l)
      {
        if l == k {
          assert runs[|runs| - 1].key == k;
        } else {
          var n :| 0 <= n < |before| && before[n].key == l;
          assert runs[n] == before[n];
        }
      }
    }
  }

  /** `t` with the runs reconciled one after the other. */
  function RunsRepaired(t: Table, runs: seq<UnpersistedRun>, blobs: Blobs): Table {
    if runs == [] then t
    else
      var u := RunsRepaired(t, runs[..|runs| - 1], blobs);
      var k := runs[|runs| - 1].key;
      SetHistory(u, k, RepairedHistory(History(t, k), blobs))
  }

  predicate Lists(runs: seq<UnpersistedRun>, k: Key) {
    exists n :: 0 <= n < |runs| && runs[n].key == k
  }

  lemma {:induction false} RunsRepairedAt(t: Table, runs: seq<UnpersistedRun>, blobs: Blobs, k: Key)
    requires forall n :: 0 <= n < |runs| ==> runs[n].key in t.hist
    ensures var u := RunsRepaired(t, runs, blobs);
      && u.order == t.order && u.hist.Keys == t.hist.Keys
      && (k in t.hist ==> u.hist[k] == if Lists(runs, k) then RepairedHistory(t.hist[k], blobs) else t.hist[k])
  {
    if runs != [] {
      var init, last := runs[..|runs| - 1], runs[|runs| - 1];
      RunsRepairedAt(t, init, blobs, k);
      hide RepairedHistory;
      assert runs == init + [last];
      assert Lists(runs, k) <==> Lists(init, k) || last.key == k by {
        assert forall n :: 0 <= n < |init| ==> init[n] == runs[n];
        assert runs[|init|] == last;
      }
      hide Lists;
    }
  }

  /** Reconciling the whole worklist repairs the whole table. */
  lemma {:induction false} WorklistRepairs(t: Table, blobs: Blobs)
    requires WellFormed(t)
    ensures RunsRepaired(t, Worklist(t, t.order), blobs) == Repaired(t, blobs)
  {
    var runs := Worklist(t, t.order);
    hide Worklist, RunsRepaired, RepairedHistory, IsRunOf;
    WorklistIs(t, t.order);
    RunsAreKnown(t, runs, |runs|);
    assert runs[..|runs|] == runs;
    RunsRepairedAt(t, runs, blobs, Key(""));
    var u := RunsRepaired(t, runs, blobs);
    forall k | k in t.hist
      ensures u.hist[k] == RepairedHistory(t.hist[k], blobs)
    {
      RunsRepairedAt(t, runs, blobs, k);
      ListedOrIdle(t, runs, k, blobs);
    }
    hide Lists;
  }

  lemma {:induction false} RunsAreKnown(t: Table, runs: seq<UnpersistedRun>, n: nat)
    requires WellFormed(t) && runs == Worklist(t, t.order) && n <= |runs|
    ensures forall m :: 0 <= m < n ==> runs[..n][m].key in t.hist
  {
    WorklistIs(t, t.order);
    hide Worklist, IsRunOf, Lists;
    forall m | 0 <= m < n
      ensures runs[..n][m].key in t.hist
    {
      assert runs[m].key in t.order;
    }
  }

  lemma {:induction false} ListedOrIdle(t: Table, runs: seq<UnpersistedRun>, k: Key, blobs: Blobs)
    requires WellFormed(t) && k in t.hist && runs == Worklist(t, t.order)
    ensures !Lists(runs, k) ==> RepairedHistory(t.hist[k], blobs) == t.hist[k]
  {
    WorklistIs(t, t.order);
  }

  // ---- one run ----

  /** `t` with the newest row of `k` carrying these artifacts. */
  function NewestCarries(t: Table, k: Key, artifacts: seq<Artifact>): Table
    requires k in t.hist && t.hist[k] != []
  {
    SetRow(t, k, |t.hist[k]| - 1, Newest(t.hist[k]).(artifacts := artifacts))
  }

  lemma {:induction false} MarkNext(artifacts: seq<Artifact>, keys: seq<BlobKey>, n: nat, blobs: Blobs)
    requires n < |keys|
    ensures ResolveAll(Reconciled(artifacts, keys[..n], blobs), keys[n], Found(keys[n] in blobs)) ==
      Reconciled(artifacts, keys[..n + 1], blobs)
    ensures AllIn(keys[..n + 1], blobs) <==> AllIn(keys[..n], blobs) && keys[n] in blobs
  {
    assert forall b :: b in keys[..n + 1] <==> b in keys[..n] || b == keys[n];
  }

  lemma {:induction false} CountNext(keys: seq<BlobKey>, n: nat, blobs: Blobs)
    requires n < |keys| && NoDuplicates(keys)
    ensures |There(keys[..n + 1], blobs)| == |There(keys[..n], blobs)| + if keys[n] in blobs then 1 else 0
    ensures |Gone(keys[..n + 1], blobs)| == |Gone(keys[..n], blobs)| + if keys[n] in blobs then 0 else 1
  {
    var more, less, b := keys[..n + 1], keys[..n], keys[n];
    assert b !in less && forall x :: x in more <==> x in less || x == b;
    OneMore(less, more, b, blobs);
    hide NoDuplicates, There, Gone;
  }

  lemma {:induction false} OneMore(less: seq<BlobKey>, more: seq<BlobKey>, b: BlobKey, blobs: Blobs)
    requires b !in less && forall x :: x in more <==> x in less || x == b
    ensures |There(more, blobs)| == |There(less, blobs)| + if b in blobs then 1 else 0
    ensures |Gone(more, blobs)| == |Gone(less, blobs)| + if b in blobs then 0 else 1
  {
    if b in blobs {
      assert There(more, blobs) == There(less, blobs) + {b};
      assert Gone(more, blobs) == Gone(less, blobs);
    } else {
      assert There(more, blobs) == There(less, blobs);
      assert Gone(more, blobs) == Gone(less, blobs) + {b};
    }
  }

  lemma {:induction false} NamedStill(t: Table, k: Key, keys: seq<BlobKey>, n: nat, blobs: Blobs)
    requires k in t.hist && t.hist[k] != [] && n < |keys|
    requires keys[n] in Unstored(Newest(t.hist[k]).artifacts)
    ensures var u := NewestCarries(t, k, Reconciled(Newest(t.hist[k]).artifacts, keys[..n], blobs));
      && At(u, k, |t.hist[k]| - 1, Newest(t.hist[k]).id)
      && Names(u.hist[k][|t.hist[k]| - 1], keys[n])
  {
    var a := Newest(t.hist[k]).artifacts;
    var j :| 0 <= j < |a| && a[j].blobKey == keys[n] && !a[j].status.Stored?;
    assert Reconciled(a, keys[..n], blobs)[j].blobKey == keys[n];
  }

  lemma {:induction false} NothingMarked(t: Table, k: Key, blobs: Blobs, keys: seq<BlobKey>)
    requires k in t.hist && t.hist[k] != []
    ensures Marked(t, k, blobs, keys[..0], t, true, 0, 0) && keys[..|keys|] == keys
  {
    assert There([], blobs) == {} && Gone([], blobs) == {};
    assert Reconciled(Newest(t.hist[k]).artifacts, [], blobs) == Newest(t.hist[k]).artifacts;
    SetRowSame(t, k, |t.hist[k]| - 1);
  }

  class RepairStoreService {
    const repo: InMemoryExecutionRepository
    const store: BlobStore

    constructor (repo: InMemoryExecutionRepository, store: BlobStore)
      ensures this.repo == repo && this.store == store
    {
      this.repo, this.store := repo, store;
    }

    /** One blob looked for and its artifact rows marked; the mark always finds them. */
    method Reconcile(id: ExecutionId, b: BlobKey, ghost k: Key, ghost i: nat) returns (present: bool)
      requires repo.Valid() && At(repo.View(), k, i, id) && Names(repo.View().hist[k][i], b)
      modifies repo.rows
      ensures repo.Valid() && present == (b in store.blobs)
      ensures var r := old(repo.View()).hist[k][i];
        repo.View() == SetRow(old(repo.View()), k, i, r.(artifacts := ResolveAll(r.artifacts, b, Found(present))))
    {
      var content := store.Get(b);
      present := content.Some?;
      var status := repo.MarkArtifacts(id, b, Found(present));
      assert status == Done;
    }

    /** Every unstored blob of the run, in order. */
    method ReconcileAll(run: UnpersistedRun, ghost t: Table) returns (allPresent: bool, reconciled: nat, missing: nat)
      requires repo.Valid() && repo.View() == t && run.key in t.hist && IsRunOf(run, t.hist[run.key])
      modifies repo.rows
      ensures repo.Valid()
      ensures Marked(t, run.key, store.blobs, run.blobKeys, repo.View(), allPresent, reconciled, missing)
    {
      ghost var k, blobs := run.key, store.blobs;
      allPresent, reconciled, missing := true, 0, 0;
      NothingMarked(t, k, blobs, run.blobKeys);
      hide *;
      for n := 0 to |run.blobKeys|
        invariant repo.Valid() && Marked(t, k, blobs, run.blobKeys[..n], repo.View(), allPresent, reconciled, missing)
      {
        allPresent, reconciled, missing := ReconcileNext(run, n, t, allPresent, reconciled, missing);
      }
    }

    method ReconcileNext(run: UnpersistedRun, n: nat, ghost t: Table, all: bool, was: nat, lost: nat)
      returns (allPresent: bool, reconciled: nat, missing: nat)
      requires repo.Valid() && run.key in t.hist && IsRunOf(run, t.hist[run.key]) && n < |run.blobKeys|
      requires Marked(t, run.key, store.blobs, run.blobKeys[..n], repo.View(), all, was, lost)
      modifies repo.rows
      ensures repo.Valid()
      ensures Marked(t, run.key, store.blobs, run.blobKeys[..n + 1], repo.View(), allPresent, reconciled, missing)
    {
      ghost var blobs, u := store.blobs, repo.View();
      NextToMark(t, run, n, blobs, u, all, was, lost);
      hide WellFormed, Marked, NewestCarries, IsRunOf;
      allPresent, reconciled, missing := all, was, lost;
      var present := Reconcile(run.id, run.blobKeys[n], run.key, |t.hist[run.key]| - 1);
      if present {
        reconciled := reconciled + 1;
      } else {
        missing := missing + 1;
        allPresent := false;
      }
      NextMarked(t, run, n, blobs, u, all, was, lost, repo.View(), present, allPresent, reconciled, missing);
    }

    /** Reconciles one run and finalises it when every blob is there; no step of it is ever refused. */
    method RepairRun(run: UnpersistedRun, ghost t: Table) returns (report: RepairReport)
      requires repo.Valid() && repo.View() == t && run.key in t.hist && IsRunOf(run, t.hist[run.key])
      modifies repo.rows
      ensures repo.Valid()
      ensures repo.View() == SetHistory(t, run.key, RepairedHistory(t.hist[run.key], store.blobs))
      ensures report == RunReport(run.blobKeys, store.blobs)
    {
      ghost var blobs := store.blobs;
      var allPresent, reconciled, missing := ReconcileAll(run, t);
      MarkedHistory(t, run, blobs, repo.View(), allPresent, reconciled, missing);
      hide WellFormed, Marked, IsRunOf, RepairedHistory, Reconciled, Unstored;
      if allPresent {
        var status := repo.FinalizeOutputPersisted(run.id);
        assert status == Done;
        report := RepairReport(1, 0, reconciled, missing);
      } else {
        report := RepairReport(0, 1, reconciled, missing);
      }
    }

    /** The whole worklist, with what the four counters count. */
    method Repair() returns (report: RepairReport)
      requires repo.Valid()
      modifies repo.rows
      ensures repo.Valid()
      ensures repo.View() == Repaired(old(repo.View()), store.blobs)
      ensures report == Report(old(repo.View()), old(repo.View()).order, store.blobs)
      ensures Counted(old(repo.View()), old(repo.View()).order, store.blobs, report)
      ensures report.recovered + report.unrecoverable == |Worklist(old(repo.View()), old(repo.View()).order)|
    {
      ghost var t, blobs := repo.View(), store.blobs;
      ReportCounts(t, t.order, blobs);
      RunsAreCounted(t, t.order, blobs);
      hide *;
      report := RepairRuns();
    }

    method RepairRuns() returns (report: RepairReport)
      requires repo.Valid()
      modifies repo.rows
      ensures repo.Valid()
      ensures repo.View() == Repaired(old(repo.View()), store.blobs)
      ensures report == Report(old(repo.View()), old(repo.View()).order, store.blobs)
    {
      ghost var t, blobs := repo.View(), store.blobs;
      report := NothingToReport;
      var runs := repo.RunsAwaitingPersistence();
      NoRunsDone(t, runs, blobs);
      hide WellFormed, Worklist, RepairedHistory, Repaired, Report, RunsDone;
      for n := 0 to |runs|
        invariant repo.Valid() && RunsDone(t, runs, n, blobs, repo.View(), report)
      {
        ghost var u, before := repo.View(), report;
        NextRun(t, runs, n, blobs, u, report);
        hide IsRunOf;
        var one := RepairRun(runs[n], u);
        report := Plus(report, one);
        RunDone(t, runs, n, blobs, u, before, repo.View(), report);
      }
      AllRunsDone(t, runs, blobs, repo.View(), report);
    }
  }

  /** The first `n` runs of the worklist have been repaired and reported. */
  ghost predicate RunsDone(t: Table, runs: seq<UnpersistedRun>, n: nat, blobs: Blobs, u: Table, report: RepairReport) {
    && WellFormed(t) && runs == Worklist(t, t.order) && n <= |runs|
    && u == RunsRepaired(t, runs[..n], blobs) && report == RunsReport(runs[..n], blobs)
  }

  lemma {:induction false} NoRunsDone(t: Table, runs: seq<UnpersistedRun>, blobs: Blobs)
    requires WellFormed(t) && runs == Worklist(t, t.order)
    ensures RunsDone(t, runs, 0, blobs, t, NothingToReport)
  {
  }

  lemma {:induction false} AllRunsDone(t: Table, runs: seq<UnpersistedRun>, blobs: Blobs, u: Table,
                                       report: RepairReport)
    requires RunsDone(t, runs, |runs|, blobs, u, report)
    ensures u == Repaired(t, blobs) && report == Report(t, t.order, blobs)
  {
    WorklistRepairs(t, blobs);
    WorklistReport(t, t.order, blobs);
    assert runs[..|runs|] == runs;
  }

  /** The runs already repaired are of other keys, so the next one still stands as listed. */
  lemma {:induction false} NextRun(t: Table, runs: seq<UnpersistedRun>, n: nat, blobs: Blobs, u: Table,
                                   report: RepairReport)
    requires RunsDone(t, runs, n, blobs, u, report) && n < |runs|
    ensures runs[n].key in t.hist && runs[n].key in u.hist && u.hist[runs[n].key] == t.hist[runs[n].key]
    ensures IsRunOf(runs[n], u.hist[runs[n].key])
  {
    hide Worklist, RunsRepaired, RunsReport, WellFormed, IsRunOf, Lists, RepairedHistory;
    RunsAreKnown(t, runs, n);
    RunIsNew(t, runs, n);
    RunsRepairedAt(t, runs[..n], blobs, runs[n].key);
  }

  lemma {:induction false} RunIsNew(t: Table, runs: seq<UnpersistedRun>, n: nat)
    requires WellFormed(t) && runs == Worklist(t, t.order) && n < |runs|
    ensures runs[n].key in t.hist && IsRunOf(runs[n], t.hist[runs[n].key]) && !Lists(runs[..n], runs[n].key)
  {
    WorklistIs(t, t.order);
    hide Worklist, IsRunOf;
    assert runs[n].key in t.order;
    forall m | 0 <= m < n
      ensures runs[..n][m].key != runs[n].key
    {
      assert runs[m].key != runs[n].key;
    }
  }

  lemma {:induction false} RunsRepairedNext(t: Table, runs: seq<UnpersistedRun>, n: nat, blobs: Blobs)
    requires n < |runs|
    ensures RunsRepaired(t, runs[..n + 1], blobs)
         == SetHistory(RunsRepaired(t, runs[..n], blobs), runs[n].key, RepairedHistory(History(t, runs[n].key), blobs))
  {
    assert runs[..n + 1][..n] == runs[..n];
  }

  lemma {:induction false} RunDone(t: Table, runs: seq<UnpersistedRun>, n: nat, blobs: Blobs, u: Table,
                                   report: RepairReport, u': Table, report': RepairReport)
    requires RunsDone(t, runs, n, blobs, u, report) && n < |runs|
    requires runs[n].key in u.hist && u' == SetHistory(u, runs[n].key, RepairedHistory(u.hist[runs[n].key], blobs))
    requires report' == Plus(report, RunReport(runs[n].blobKeys, blobs))
    ensures RunsDone(t, runs, n + 1, blobs, u', report')
  {
    hide RepairedHistory, Worklist, WellFormed;
    NextRun(t, runs, n, blobs, u, report);
    RunsReportNext(runs, n, blobs);
    RunsRepairedNext(t, runs, n, blobs);
    hide RunsReport, RunsRepaired;
  }

  /** What finalising the reconciled row makes of the history. */
  lemma {:induction false} MarkedHistory(t: Table, run: UnpersistedRun, blobs: Blobs, u: Table, allPresent: bool,
                                         reconciled: nat, missing: nat)
    requires run.key in t.hist && IsRunOf(run, t.hist[run.key])
    requires Marked(t, run.key, blobs, run.blobKeys, u, allPresent, reconciled, missing)
    ensures var k, i := run.key, |t.hist[run.key]| - 1;
      && At(u, k, i, run.id)
      && RunReport(run.blobKeys, blobs) ==
           RepairReport(if allPresent then 1 else 0, if allPresent then 0 else 1, reconciled, missing)
      && (if allPresent
          then AllStored(u.hist[k][i].artifacts)
            && SetHistory(u, k, Executions.Finalized(u.hist[k], i)) ==
                 SetHistory(t, k, RepairedHistory(t.hist[k], blobs))
          else u == SetHistory(t, k, RepairedHistory(t.hist[k], blobs)))
  {
    var h := t.hist[run.key];
    if allPresent {
      AllReconciled(Newest(h), blobs);
    }
    assert u.hist[run.key] == h[|h| - 1 := ReconciledRow(Newest(h), blobs)];
  }

  /** The newest row of `k` once the blobs of `keys` have been looked for and marked, with the counters so far. */
  ghost predicate Marked(t: Table, k: Key, blobs: Blobs, keys: seq<BlobKey>, u: Table, allPresent: bool,
                         reconciled: nat, missing: nat) {
    && k in t.hist && t.hist[k] != []
    && u == NewestCarries(t, k, Reconciled(Newest(t.hist[k]).artifacts, keys, blobs))
    && (allPresent <==> AllIn(keys, blobs))
    && reconciled == |There(keys, blobs)| && missing == |Gone(keys, blobs)|
  }

  lemma {:induction false} NextToMark(t: Table, run: UnpersistedRun, n: nat, blobs: Blobs, u: Table, allPresent: bool,
                                      reconciled: nat, missing: nat)
    requires run.key in t.hist && IsRunOf(run, t.hist[run.key]) && n < |run.blobKeys|
    requires Marked(t, run.key, blobs, run.blobKeys[..n], u, allPresent, reconciled, missing)
    ensures At(u, run.key, |t.hist[run.key]| - 1, run.id)
    ensures Names(u.hist[run.key][|t.hist[run.key]| - 1], run.blobKeys[n])
  {
    NamedStill(t, run.key, run.blobKeys, n, blobs);
  }

  lemma {:induction false} NextMarked(t: Table, run: UnpersistedRun, n: nat, blobs: Blobs, u: Table, allPresent: bool,
                                      reconciled: nat, missing: nat, u': Table, present: bool, allPresent': bool,
                                      reconciled': nat, missing': nat)
    requires run.key in t.hist && IsRunOf(run, t.hist[run.key]) && n < |run.blobKeys|
    requires Marked(t, run.key, blobs, run.blobKeys[..n], u, allPresent, reconciled, missing)
    requires Has(u, run.key, |t.hist[run.key]| - 1) && present == (run.blobKeys[n] in blobs)
    requires var r := u.hist[run.key][|t.hist[run.key]| - 1];
      u' == SetRow(u, run.key, |t.hist[run.key]| - 1,
                   r.(artifacts := ResolveAll(r.artifacts, run.blobKeys[n], Found(present))))
    requires allPresent' == (allPresent && present)
    requires reconciled' == reconciled + (if present then 1 else 0) && missing' == missing + (if present then 0 else 1)
    ensures Marked(t, run.key, blobs, run.blobKeys[..n + 1], u', allPresent', reconciled', missing')
  {
    MarkNext(Newest(t.hist[run.key]).artifacts, run.blobKeys, n, blobs);
    CountNext(run.blobKeys, n, blobs);
    MarkedCarries(t, run.key, Newest(t.hist[run.key]).artifacts, run.blobKeys, n, blobs);
    hide NewestCarries, Reconciled, There, Gone, AllIn, Unstored, ResolveAll;
  }

  lemma {:induction false} MarkedCarries(t: Table, k: Key, a: seq<Artifact>, keys: seq<BlobKey>, n: nat, blobs: Blobs)
    requires k in t.hist && t.hist[k] != [] && n < |keys|
    ensures var u := NewestCarries(t, k, Reconciled(a, keys[..n], blobs));
      var i := |t.hist[k]| - 1;
      && Has(u, k, i)
      && SetRow(u, k, i,
                u.hist[k][i].(artifacts := ResolveAll(u.hist[k][i].artifacts, keys[n], Found(keys[n] in blobs))))
      == NewestCarries(t, k, Reconciled(a, keys[..n + 1], blobs))
  {
    MarkNext(a, keys, n, blobs);
    var i := |t.hist[k]| - 1;
    SetRowTwice(t, k, i, Newest(t.hist[k]).(artifacts := Reconciled(a, keys[..n], blobs)),
      Newest(t.hist[k]).(artifacts := Reconciled(a, keys[..n + 1], blobs)));
  }

  /** Repair on the store the recording service uses keeps it sound. */
  method RepairStore(engine: CachedMlExecutionService, service: RepairStoreService) returns (report: RepairReport)
    requires engine.Valid() && service.repo == engine.repo && service.store == engine.store
    modifies engine.repo.rows
    ensures engine.Valid()
    ensures engine.repo.View() == Repaired(old(engine.repo.View()), engine.store.blobs)
    ensures report == Report(old(engine.repo.View()), old(engine.repo.View()).order, engine.store.blobs)
  {
    RepairMeaning(engine.repo.View(), engine.store.blobs, engine.inputParts, engine.nextId);
    hide StoreOk, WellFormed, Repaired, Report;
    report := service.Repair();
  }
}
