/** What repair makes of a table: each key's newest unfinished run reconciled against the blobs that are there. */
module Repairing {
  import opened Executions
  import opened CacheModel

  datatype RepairReport = RepairReport(recovered: nat, unrecoverable: nat, reconciled: nat, missing: nat)

  function Plus(a: RepairReport, b: RepairReport): RepairReport {
    RepairReport(a.recovered + b.recovered, a.unrecoverable + b.unrecoverable, a.reconciled + b.reconciled,
                 a.missing + b.missing)
  }

  function Found(present: bool): ArtifactStatus {
    if present then Stored else Failed
  }

  /** The artifact rows once the blobs of `keys` have been looked for: there is STORED, gone is FAILED. */
  function Reconciled(artifacts: seq<Artifact>, keys: seq<BlobKey>, blobs: Blobs): (r: seq<Artifact>)
    ensures |r| == |artifacts|
    ensures forall j :: 0 <= j < |r| ==>
      r[j] ==
        if artifacts[j].blobKey in keys then artifacts[j].(status := Found(artifacts[j].blobKey in blobs))
        else artifacts[j]
  {
    seq(|artifacts|, j requires 0 <= j < |artifacts| =>
      if artifacts[j].blobKey in keys then artifacts[j].(status := Found(artifacts[j].blobKey in blobs))
      else artifacts[j])
  }

  predicate AllIn(keys: seq<BlobKey>, blobs: Blobs) {
    forall j :: 0 <= j < |keys| ==> keys[j] in blobs
  }

  function Newest(h: seq<Row>): Row
    requires h != []
  {
    h[|h| - 1]
  }

  function ReconciledRow(r: Row, blobs: Blobs): Row {
    r.(artifacts := Reconciled(r.artifacts, Unstored(r.artifacts), blobs))
  }

  /** Every blob the newest run had not stored is there after all. */
  predicate Recoverable(h: seq<Row>, blobs: Blobs) {
    AwaitsRepair(h) && AllIn(Unstored(Newest(h).artifacts), blobs)
  }

  function RepairedHistory(h: seq<Row>, blobs: Blobs): (g: seq<Row>)
    ensures |g| == |h|
  {
    if !AwaitsRepair(h) then h
    else
      var g := h[|h| - 1 := ReconciledRow(Newest(h), blobs)];
      if Recoverable(h, blobs) then Finalized(g, |h| - 1) else g
  }

  function Repaired(t: Table, blobs: Blobs): Table {
    t.(hist := map k | k in t.hist :: RepairedHistory(t.hist[k], blobs))
  }

  function There(keys: seq<BlobKey>, blobs: Blobs): set<BlobKey> {
    set b | b in keys && b in blobs
  }

  function Gone(keys: seq<BlobKey>, blobs: Blobs): set<BlobKey> {
    set b | b in keys && b !in blobs
  }

  function RunReport(keys: seq<BlobKey>, blobs: Blobs): RepairReport {
    RepairReport(if AllIn(keys, blobs) then 1 else 0, if AllIn(keys, blobs) then 0 else 1, |There(keys, blobs)|,
                 |Gone(keys, blobs)|)
  }

  const NothingToReport := RepairReport(0, 0, 0, 0)

  function KeyReport(h: seq<Row>, blobs: Blobs): RepairReport {
    if AwaitsRepair(h) then RunReport(Unstored(Newest(h).artifacts), blobs) else NothingToReport
  }

  /** What repair reports for a store: one run per key that awaits it. */
  function Report(t: Table, keys: seq<Key>, blobs: Blobs): RepairReport {
    if keys == [] then NothingToReport
    else Plus(Report(t, keys[..|keys| - 1], blobs), KeyReport(History(t, keys[|keys| - 1]), blobs))
  }

  // ---- what the counters count ----

  /** The blobs that the key's newest run, if it awaits repair, has not stored. */
  function Lacked(t: Table, k: Key): seq<BlobKey> {
    if AwaitsRepair(History(t, k)) then Unstored(Newest(History(t, k)).artifacts) else []
  }

  predicate NothingMissing(t: Table, k: Key, blobs: Blobs) {
    AwaitsRepair(History(t, k)) && forall b :: b in Lacked(t, k) ==> b in blobs
  }

  predicate SomethingMissing(t: Table, k: Key, blobs: Blobs) {
    AwaitsRepair(History(t, k)) && exists b :: b in Lacked(t, k) && b !in blobs
  }

  /** The keys whose newest run awaits repair and has every blob it lacked, and those with a blob still missing. */
  ghost function RecoverableKeys(t: Table, keys: seq<Key>, blobs: Blobs): set<Key> {
    set k | k in keys && NothingMissing(t, k, blobs)
  }

  ghost function UnrecoverableKeys(t: Table, keys: seq<Key>, blobs: Blobs): set<Key> {
    set k | k in keys && SomethingMissing(t, k, blobs)
  }

  /** Each blob a run awaiting repair lacked, with the run's key: those found after all, and those still missing. */
  ghost function FoundBlobs(t: Table, keys: seq<Key>, blobs: Blobs): set<(Key, BlobKey)> {
    set k, b | k in keys && b in Lacked(t, k) && b in blobs :: (k, b)
  }

  ghost function MissingBlobs(t: Table, keys: seq<Key>, blobs: Blobs): set<(Key, BlobKey)> {
    set k, b | k in keys && b in Lacked(t, k) && b !in blobs :: (k, b)
  }

  /** The four counters, each the number of what it is said to count. */
  ghost predicate Counted(t: Table, keys: seq<Key>, blobs: Blobs, r: RepairReport) {
    && r.recovered == |RecoverableKeys(t, keys, blobs)| && r.unrecoverable == |UnrecoverableKeys(t, keys, blobs)|
    && r.reconciled == |FoundBlobs(t, keys, blobs)| && r.missing == |MissingBlobs(t, keys, blobs)|
  }

  ghost function Tagged(k: Key, blobs: set<BlobKey>): set<(Key, BlobKey)> {
    set b | b in blobs :: (k, b)
  }

  lemma {:induction false} TaggedCount(k: Key, blobs: set<BlobKey>)
    ensures |Tagged(k, blobs)| == |blobs|
    decreases |blobs|
  {
    if blobs != {} {
      var b :| b in blobs;
      TaggedCount(k, blobs - {b});
      assert Tagged(k, blobs) == Tagged(k, blobs - {b}) + {(k, b)};
    }
  }

  lemma {:induction false} LackedReport(t: Table, k: Key, blobs: Blobs)
    ensures var one := KeyReport(History(t, k), blobs);
      && one.reconciled == |There(Lacked(t, k), blobs)| && one.missing == |Gone(Lacked(t, k), blobs)|
      && one.recovered == (if NothingMissing(t, k, blobs) then 1 else 0)
      && one.unrecoverable == (if SomethingMissing(t, k, blobs) then 1 else 0)
  {
    var keys := Lacked(t, k);
    assert AllIn(keys, blobs) <==> forall b :: b in keys ==> b in blobs;
    if !AwaitsRepair(History(t, k)) {
      assert There([], blobs) == {} && Gone([], blobs) == {};
    }
    hide AwaitsRepair, Unstored, AllIn;
  }

  lemma {:induction false} RecoverableNext(t: Table, init: seq<Key>, k: Key, blobs: Blobs)
    requires k !in init
    ensures |RecoverableKeys(t, init + [k], blobs)| ==
      |RecoverableKeys(t, init, blobs)| + if NothingMissing(t, k, blobs) then 1 else 0
  {
    hide NothingMissing;
    var more: set<Key> := if NothingMissing(t, k, blobs) then {k} else {};
    assert RecoverableKeys(t, init + [k], blobs) == RecoverableKeys(t, init, blobs) + more;
    assert RecoverableKeys(t, init, blobs) !! more;
  }

  lemma {:induction false} UnrecoverableNext(t: Table, init: seq<Key>, k: Key, blobs: Blobs)
    requires k !in init
    ensures |UnrecoverableKeys(t, init + [k], blobs)| ==
      |UnrecoverableKeys(t, init, blobs)| + if SomethingMissing(t, k, blobs) then 1 else 0
  {
    hide SomethingMissing;
    var more: set<Key> := if SomethingMissing(t, k, blobs) then {k} else {};
    assert UnrecoverableKeys(t, init + [k], blobs) == UnrecoverableKeys(t, init, blobs) + more;
    assert UnrecoverableKeys(t, init, blobs) !! more;
  }

  lemma {:induction false} FoundNext(t: Table, init: seq<Key>, k: Key, blobs: Blobs)
    requires k !in init
    ensures |FoundBlobs(t, init + [k], blobs)| == |FoundBlobs(t, init, blobs)| + |There(Lacked(t, k), blobs)|
  {
    hide Lacked;
    var more := Tagged(k, There(Lacked(t, k), blobs));
    TaggedCount(k, There(Lacked(t, k), blobs));
    assert FoundBlobs(t, init + [k], blobs) == FoundBlobs(t, init, blobs) + more;
    assert FoundBlobs(t, init, blobs) !! more;
    hide *;
  }

  lemma {:induction false} MissingNext(t: Table, init: seq<Key>, k: Key, blobs: Blobs)
    requires k !in init
    ensures |MissingBlobs(t, init + [k], blobs)| == |MissingBlobs(t, init, blobs)| + |Gone(Lacked(t, k), blobs)|
  {
    hide Lacked;
    var more := Tagged(k, Gone(Lacked(t, k), blobs));
    TaggedCount(k, Gone(Lacked(t, k), blobs));
    assert MissingBlobs(t, init + [k], blobs) == MissingBlobs(t, init, blobs) + more;
    assert MissingBlobs(t, init, blobs) !! more;
    hide *;
  }

  lemma {:induction false} OneMoreRun(t: Table, init: seq<Key>, k: Key, blobs: Blobs, r: RepairReport)
    requires k !in init && Counted(t, init, blobs, r)
    ensures Counted(t, init + [k], blobs, Plus(r, KeyReport(History(t, k), blobs)))
  {
    LackedReport(t, k, blobs);
    RecoverableNext(t, init, k, blobs);
    UnrecoverableNext(t, init, k, blobs);
    FoundNext(t, init, k, blobs);
    MissingNext(t, init, k, blobs);
    hide *;
    AddsUp(t, init, init + [k], blobs, r, KeyReport(History(t, k), blobs));
  }

  lemma {:induction false} AddsUp(t: Table, init: seq<Key>, more: seq<Key>, blobs: Blobs, r: RepairReport,
                                  one: RepairReport)
    requires Counted(t, init, blobs, r)
    requires |RecoverableKeys(t, more, blobs)| == |RecoverableKeys(t, init, blobs)| + one.recovered
    requires |UnrecoverableKeys(t, more, blobs)| == |UnrecoverableKeys(t, init, blobs)| + one.unrecoverable
    requires |FoundBlobs(t, more, blobs)| == |FoundBlobs(t, init, blobs)| + one.reconciled
    requires |MissingBlobs(t, more, blobs)| == |MissingBlobs(t, init, blobs)| + one.missing
    ensures Counted(t, more, blobs, Plus(r, one))
  {
    hide RecoverableKeys, UnrecoverableKeys, FoundBlobs, MissingBlobs;
  }

  /** Every run of the worklist is counted once: recovered, or unrecoverable. */
  lemma {:induction false} RunsAreCounted(t: Table, keys: seq<Key>, blobs: Blobs)
    requires forall k :: k in keys ==> k in t.hist
    ensures Report(t, keys, blobs).recovered + Report(t, keys, blobs).unrecoverable == |Worklist(t, keys)|
  {
    if keys != [] {
      RunsAreCounted(t, keys[..|keys| - 1], blobs);
      ReportNext(t, keys, blobs);
      OneRunCounts(History(t, keys[|keys| - 1]), blobs);
      hide Report, KeyReport, Unstored;
    }
  }

  lemma {:induction false} OneRunCounts(h: seq<Row>, blobs: Blobs)
    ensures KeyReport(h, blobs).recovered + KeyReport(h, blobs).unrecoverable == if AwaitsRepair(h) then 1 else 0
  {
  }

  /** The report counts the runs and the blobs of the store. */
  lemma {:induction false} ReportCounts(t: Table, keys: seq<Key>, blobs: Blobs)
    requires NoDuplicates(keys)
    ensures Counted(t, keys, blobs, Report(t, keys, blobs))
  {
    if keys == [] {
      assert RecoverableKeys(t, [], blobs) == {} && UnrecoverableKeys(t, [], blobs) == {};
      assert FoundBlobs(t, [], blobs) == {} && MissingBlobs(t, [], blobs) == {};
    } else {
      var init, k := keys[..|keys| - 1], keys[|keys| - 1];
      ReportCounts(t, init, blobs);
      assert k !in init && init + [k] == keys;
      hide Counted, KeyReport;
      OneMoreRun(t, init, k, blobs, Report(t, init, blobs));
      ReportNext(t, keys, blobs);
    }
  }

  // ---- repairing twice ----

  lemma {:induction false} ReconciledUnstored(r: Row, blobs: Blobs, b: BlobKey)
    ensures b in Unstored(ReconciledRow(r, blobs).artifacts) <==> b in Unstored(r.artifacts) && b !in blobs
  {
    var keys, a' := Unstored(r.artifacts), ReconciledRow(r, blobs).artifacts;
    if b in keys && b !in blobs {
      var j :| 0 <= j < |r.artifacts| && r.artifacts[j].blobKey == b && !r.artifacts[j].status.Stored?;
      assert a'[j].blobKey == b && !a'[j].status.Stored?;
    }
  }

  lemma {:induction false} ReconciledTwice(r: Row, blobs: Blobs)
    ensures ReconciledRow(ReconciledRow(r, blobs), blobs) == ReconciledRow(r, blobs)
  {
    var r' := ReconciledRow(r, blobs);
    forall j | 0 <= j < |r.artifacts|
      ensures ReconciledRow(r', blobs).artifacts[j] == r'.artifacts[j]
    {
      ReconciledUnstored(r, blobs, r.artifacts[j].blobKey);
    }
  }

  /** A repaired key is either done with, or exactly as unrecoverable as it was. */
  lemma {:induction false} RepairedOnce(h: seq<Row>, blobs: Blobs)
    ensures RepairedHistory(RepairedHistory(h, blobs), blobs) == RepairedHistory(h, blobs)
    ensures var first, second := KeyReport(h, blobs), KeyReport(RepairedHistory(h, blobs), blobs);
      second == RepairReport(0, first.unrecoverable, 0, if first.unrecoverable == 0 then 0 else first.missing)
  {
    if AwaitsRepair(h) && !Recoverable(h, blobs) {
      var r := Newest(h);
      var g := RepairedHistory(h, blobs);
      var keys, keys' := Unstored(r.artifacts), Unstored(ReconciledRow(r, blobs).artifacts);
      ReconciledTwice(r, blobs);
      forall b {
        ReconciledUnstored(r, blobs, b);
      }
      var j :| 0 <= j < |keys| && keys[j] !in blobs;
      assert keys[j] in keys';
      assert Newest(g) == ReconciledRow(r, blobs) && AwaitsRepair(g);
      assert There(keys', blobs) == {} && Gone(keys', blobs) == Gone(keys, blobs);
      assert !AllIn(keys', blobs);
      assert g[|h| - 1 := ReconciledRow(Newest(g), blobs)] == g;
    }
  }

  lemma {:induction false} NoneMissingWhenRecovered(h: seq<Row>, blobs: Blobs)
    ensures KeyReport(h, blobs).unrecoverable == 0 ==> KeyReport(h, blobs).missing == 0
  {
    if Recoverable(h, blobs) {
      assert Gone(Unstored(Newest(h).artifacts), blobs) == {};
    }
  }

  /**
   * Repair is idempotent: a second run changes nothing, recovers and reconciles nothing, and reports the same losses.
   */
  lemma {:induction false} RepairIsIdempotent(t: Table, blobs: Blobs)
    ensures Repaired(Repaired(t, blobs), blobs) == Repaired(t, blobs)
    ensures var first, second := Report(t, t.order, blobs), Report(Repaired(t, blobs), t.order, blobs);
      second == RepairReport(0, first.unrecoverable, 0, first.missing)
  {
    forall k | k in t.hist {
      RepairedOnce(t.hist[k], blobs);
    }
    SecondReport(t, t.order, blobs);
  }

  lemma {:induction false} ReportNext(t: Table, keys: seq<Key>, blobs: Blobs)
    requires keys != []
    ensures Report(t, keys, blobs) == Plus(Report(t, keys[..|keys| - 1], blobs),
                                           KeyReport(History(t, keys[|keys| - 1]), blobs))
  {
  }

  lemma {:induction false} SecondKeyReport(t: Table, k: Key, blobs: Blobs)
    ensures var first, second := KeyReport(History(t, k), blobs), KeyReport(History(Repaired(t, blobs), k), blobs);
      second == RepairReport(0, first.unrecoverable, 0, first.missing)
  {
    RepairedOnce(History(t, k), blobs);
    NoneMissingWhenRecovered(History(t, k), blobs);
    assert History(Repaired(t, blobs), k) == RepairedHistory(History(t, k), blobs);
  }

  lemma {:induction false} SecondReport(t: Table, keys: seq<Key>, blobs: Blobs)
    ensures var first, second := Report(t, keys, blobs), Report(Repaired(t, blobs), keys, blobs);
      second == RepairReport(0, first.unrecoverable, 0, first.missing)
  {
    if keys != [] {
      var init, k := keys[..|keys| - 1], keys[|keys| - 1];
      SecondReport(t, init, blobs);
      SecondKeyReport(t, k, blobs);
      ReportNext(t, keys, blobs);
      ReportNext(Repaired(t, blobs), keys, blobs);
      hide *;
      SecondPlus(Report(t, init, blobs), KeyReport(History(t, k), blobs), Report(Repaired(t, blobs), init, blobs),
                 KeyReport(History(Repaired(t, blobs), k), blobs));
    }
  }

  lemma {:induction false} SecondPlus(a: RepairReport, b: RepairReport, a': RepairReport, b': RepairReport)
    requires a' == RepairReport(0, a.unrecoverable, 0, a.missing)
    requires b' == RepairReport(0, b.unrecoverable, 0, b.missing)
    ensures Plus(a', b') == RepairReport(0, Plus(a, b).unrecoverable, 0, Plus(a, b).missing)
  {
  }

  // ---- what repair makes of the rows ----

  /**
   * What repair makes of a key's rows: only a newest run that is unpersisted and has a row not STORED is touched. Each
   * of its rows whose blob some unstored row names becomes STORED if the blob is there and FAILED if it is not; it is
   * persisted exactly when no such blob is missing; and nothing else of it changes.
   */
  lemma {:induction false} RepairedRows(h: seq<Row>, blobs: Blobs)
    ensures var g := RepairedHistory(h, blobs);
      var unfinished :=
        && h != [] && !h[|h| - 1].outputPersisted
        && SomeUnstored(h[|h| - 1].artifacts);
      && (!unfinished ==> g == h)
      && (unfinished ==>
            var r, u := h[|h| - 1], g[|h| - 1];
            && u == r.(artifacts := u.artifacts, outputPersisted := u.outputPersisted)
            && |u.artifacts| == |r.artifacts|
            && (forall j :: 0 <= j < |r.artifacts| ==>
                  && u.artifacts[j] == r.artifacts[j].(status := u.artifacts[j].status)
                  && (LacksBlob(r.artifacts, r.artifacts[j].blobKey) && r.artifacts[j].blobKey in blobs ==>
                        u.artifacts[j].status == ArtifactStatus.Stored)
                  && (LacksBlob(r.artifacts, r.artifacts[j].blobKey) && r.artifacts[j].blobKey !in blobs ==>
                        u.artifacts[j].status == ArtifactStatus.Failed)
                  && (!LacksBlob(r.artifacts, r.artifacts[j].blobKey) ==> u.artifacts[j] == r.artifacts[j]))
            && (u.outputPersisted <==>
                  forall j :: 0 <= j < |r.artifacts| && r.artifacts[j].status != ArtifactStatus.Stored ==>
                    r.artifacts[j].blobKey in blobs))
  {
    if h != [] {
      var r := h[|h| - 1];
      UnstoredMeans(r.artifacts, blobs);
      if AwaitsRepair(h) {
        ReconciledMeans(r, blobs);
      }
      hide Unstored, AllIn, LacksBlob, Reconciled, SomeUnstored;
    }
  }

  lemma {:induction false} ReconciledMeans(r: Row, blobs: Blobs)
    ensures var a := ReconciledRow(r, blobs).artifacts;
      && |a| == |r.artifacts|
      && forall j :: 0 <= j < |a| ==>
           && a[j] == r.artifacts[j].(status := a[j].status)
           && (LacksBlob(r.artifacts, r.artifacts[j].blobKey) && r.artifacts[j].blobKey in blobs ==>
                 a[j].status == ArtifactStatus.Stored)
           && (LacksBlob(r.artifacts, r.artifacts[j].blobKey) && r.artifacts[j].blobKey !in blobs ==>
                 a[j].status == ArtifactStatus.Failed)
           && (!LacksBlob(r.artifacts, r.artifacts[j].blobKey) ==> a[j] == r.artifacts[j])
  {
    forall b
      ensures b in Unstored(r.artifacts) <==> LacksBlob(r.artifacts, b)
    {
    }
    hide Unstored, LacksBlob;
  }

  lemma {:induction false} UnstoredMeans(artifacts: seq<Artifact>, blobs: Blobs)
    ensures Unstored(artifacts) != [] <==> SomeUnstored(artifacts)
    ensures AllIn(Unstored(artifacts), blobs) <==>
      forall j :: 0 <= j < |artifacts| && artifacts[j].status != ArtifactStatus.Stored ==> artifacts[j].blobKey in blobs
  {
    var keys := Unstored(artifacts);
    forall j | 0 <= j < |keys|
      ensures LacksBlob(artifacts, keys[j])
    {
      assert keys[j] in keys;
    }
    if keys != [] {
      assert LacksBlob(artifacts, keys[0]);
      assert SomeUnstored(artifacts);
    }
    if forall j :: 0 <= j < |artifacts| && artifacts[j].status != ArtifactStatus.Stored ==>
      artifacts[j].blobKey in blobs {
      forall j | 0 <= j < |keys|
        ensures keys[j] in blobs
      {
        assert LacksBlob(artifacts, keys[j]);
      }
    }
    forall j | 0 <= j < |artifacts| && artifacts[j].status != ArtifactStatus.Stored
      ensures artifacts[j].blobKey in keys
    {
    }
    if SomeUnstored(artifacts) {
      var j :| 0 <= j < |artifacts| && artifacts[j].status != ArtifactStatus.Stored;
      assert artifacts[j].blobKey in keys;
    }
  }

  predicate SomeUnstored(artifacts: seq<Artifact>) {
    exists j :: 0 <= j < |artifacts| && artifacts[j].status != ArtifactStatus.Stored
  }

  /** Some row that names the blob is not STORED. */
  predicate LacksBlob(artifacts: seq<Artifact>, b: BlobKey) {
    exists i :: 0 <= i < |artifacts| && artifacts[i].blobKey == b && artifacts[i].status != ArtifactStatus.Stored
  }

  // ---- what repair means for the answers ----

  /** No blob of an artifact row marked STORED has been lost. */
  predicate StoredIsPresent(artifacts: seq<Artifact>, blobs: Blobs) {
    forall j :: 0 <= j < |artifacts| && artifacts[j].status.Stored? ==> artifacts[j].blobKey in blobs
  }

  predicate Promoted(h: seq<Row>, blobs: Blobs) {
    Recoverable(h, blobs) && Newest(h).state == Success
  }

  /**
   * Exactly which runs become answers: the key's newest row, a success not yet persisted, with some artifact not yet
   * STORED and every blob there. A run whose rows are all STORED already, and which was still not finalised, is not
   * among them.
   */
  lemma {:induction false} PromotedExactly(h: seq<Row>, blobs: Blobs)
    requires h != [] && StoredIsPresent(Newest(h).artifacts, blobs)
    ensures Promoted(h, blobs) <==>
      var r := Newest(h);
      r.state == Success && !r.outputPersisted && !AllStored(r.artifacts) && Present(r.artifacts, blobs)
  {
    var r := Newest(h);
    UnstoredEmpty(r.artifacts);
    forall j | Present(r.artifacts, blobs) && 0 <= j < |Unstored(r.artifacts)|
      ensures Unstored(r.artifacts)[j] in blobs
    {
      assert Unstored(r.artifacts)[j] in Unstored(r.artifacts);
    }
    if AwaitsRepair(h) && AllIn(Unstored(r.artifacts), blobs) {
      forall j | 0 <= j < |r.artifacts|
        ensures r.artifacts[j].blobKey in blobs
      {
        if !r.artifacts[j].status.Stored? {
          assert r.artifacts[j].blobKey in Unstored(r.artifacts);
        }
      }
    }
  }

  lemma {:induction false} UnstoredEmpty(artifacts: seq<Artifact>)
    ensures Unstored(artifacts) == [] <==> AllStored(artifacts)
  {
    forall j | 0 <= j < |artifacts| && !artifacts[j].status.Stored?
      ensures artifacts[j].blobKey in Unstored(artifacts)
    {
    }
    if Unstored(artifacts) != [] {
      assert Unstored(artifacts)[0] in Unstored(artifacts);
    }
  }

  lemma {:induction false} AllReconciled(r: Row, blobs: Blobs)
    requires AllIn(Unstored(r.artifacts), blobs)
    ensures AllStored(ReconciledRow(r, blobs).artifacts)
  {
    forall j | 0 <= j < |r.artifacts| && r.artifacts[j].blobKey !in Unstored(r.artifacts)
      ensures r.artifacts[j].status.Stored?
    {
    }
  }

  lemma {:induction false} ReconciledKeepsOk(r: Row, blobs: Blobs, inputs: seq<Document>)
    requires RowOk(r, inputs)
    ensures RowOk(ReconciledRow(r, blobs), inputs)
    ensures forall b :: Names(r, b) <==> Names(ReconciledRow(r, blobs), b)
    ensures EntryOf(ReconciledRow(r, blobs), blobs) == EntryOf(r, blobs)
  {
    var r' := ReconciledRow(r, blobs);
    assert forall j :: 0 <= j < |r.artifacts| ==> r'.artifacts[j] == r.artifacts[j].(status := r'.artifacts[j].status);
    forall b
      ensures Names(r, b) <==> Names(r', b)
    {
      if j :| 0 <= j < |r.artifacts| && r.artifacts[j].blobKey == b {
        assert r'.artifacts[j].blobKey == b;
      }
      if j :| 0 <= j < |r'.artifacts| && r'.artifacts[j].blobKey == b {
        assert r.artifacts[j].blobKey == b;
      }
    }
    if Present(r.artifacts, blobs) {
      assert Hydrated(r'.artifacts, blobs) == Hydrated(r.artifacts, blobs);
    }
  }

  /** Repair gives a key its newest run's answer when that run is promoted, and leaves every other answer alone. */
  lemma {:induction false} RepairedEntry(h: seq<Row>, blobs: Blobs, inputs: seq<Document>)
    requires h != [] ==> RowOk(Newest(h), inputs)
    ensures EntryIn(RepairedHistory(h, blobs), blobs) ==
      if Promoted(h, blobs) then Some(EntryOf(Newest(h), blobs)) else EntryIn(h, blobs)
  {
    if AwaitsRepair(h) {
      var i := |h| - 1;
      var r := Newest(h);
      ReconciledKeepsOk(r, blobs, inputs);
      hide ReconciledRow, Finalized, AwaitsRepair, Unstored, EntryOf, RowOk, AllIn;
      var g := h[i := ReconciledRow(r, blobs)];
      SameServability(h, g);
      if Recoverable(h, blobs) {
        FinalizedEntryIn(g, blobs, i);
      }
    }
  }

  /** A promoted run, no blob of which has been lost, is a whole answer: the documents its blobs hold. */
  lemma {:induction false} PromotedIsWhole(h: seq<Row>, blobs: Blobs)
    requires h != [] && StoredIsPresent(Newest(h).artifacts, blobs) && Promoted(h, blobs)
    ensures Present(Newest(h).artifacts, blobs)
    ensures EntryOf(Newest(h), blobs) == Whole(Hydrated(Newest(h).artifacts, blobs), Newest(h).inputPersisted)
  {
    PromotedExactly(h, blobs);
  }

  predicate IsWhole(e: Option<Entry>) {
    e.Some? && e.value.Whole?
  }

  /**
   * Where a blob of a STORED row has been lost, repair can put a broken run in the place of a whole answer, for it
   * looks only for the blobs of rows that are not STORED: exactly when it promotes a run that has lost such a blob.
   */
  lemma {:induction false} RepairDisplaces(h: seq<Row>, blobs: Blobs, inputs: seq<Document>)
    requires IsWhole(EntryIn(h, blobs)) && RowOk(Newest(h), inputs)
    ensures !IsWhole(EntryIn(RepairedHistory(h, blobs), blobs)) <==>
      Promoted(h, blobs) && !StoredIsPresent(Newest(h).artifacts, blobs)
  {
    RepairedEntry(h, blobs, inputs);
    if Promoted(h, blobs) {
      var r := Newest(h);
      forall j | 0 <= j < |r.artifacts| && !r.artifacts[j].status.Stored?
        ensures r.artifacts[j].blobKey in blobs
      {
        assert r.artifacts[j].blobKey in Unstored(r.artifacts);
      }
    }
    hide RepairedHistory, Promoted;
  }

  /** A whole answer, and a newer run whose first blob was stored and lost and whose second only awaits its mark. */
  lemma {:induction false} AnAnswerIsDisplaced()
    ensures var first := Row(0, Success, true, false, false, [MakeArtifact(0, Document(Stdout, None, []), Stored)]);
      var lost, kept := Document(Stdout, None, [1]), Document(Stderr, None, []);
      var newer := Row(1, Success, false, false, false,
                       [MakeArtifact(1, lost, Stored), MakeArtifact(1, kept, Pending)]);
      var blobs: Blobs := map[BlobKeyFor(0, []) := [], BlobKeyFor(1, []) := []];
      && EntryIn([first, newer], blobs) == Some(Whole([Document(Stdout, None, [])], false))
      && EntryIn(RepairedHistory([first, newer], blobs), blobs) == Some(Broken(2))
  {
    var first := Row(0, Success, true, false, false, [MakeArtifact(0, Document(Stdout, None, []), Stored)]);
    var lost, kept := Document(Stdout, None, [1]), Document(Stderr, None, []);
    var a := [MakeArtifact(1, lost, Stored), MakeArtifact(1, kept, Pending)];
    var newer := Row(1, Success, false, false, false, a);
    var h, blobs: Blobs := [first, newer], map[BlobKeyFor(0, []) := [], BlobKeyFor(1, []) := []];
    assert Unstored(a) == [BlobKeyFor(1, [])] by {
      assert a[..1] == [a[0]] && a[..1][..0] == [];
      assert Unstored(a[..1]) == [];
    }
    assert a[0].blobKey !in blobs;
    assert Hydrated(first.artifacts, blobs) == [Document(Stdout, None, [])];
    RepairedEntry(h, blobs, []);
  }

  lemma {:induction false} RepairedRowOk(h: seq<Row>, blobs: Blobs, inputs: seq<Document>, j: nat)
    requires j < |h| && RowOk(h[j], inputs)
    ensures var r := RepairedHistory(h, blobs)[j];
      RowOk(r, inputs) && r.id == h[j].id && forall b :: Names(h[j], b) <==> Names(r, b)
  {
    if AwaitsRepair(h) && j == |h| - 1 {
      ReconciledKeepsOk(h[j], blobs, inputs);
    }
    var r := RepairedHistory(h, blobs)[j];
    var q := if AwaitsRepair(h) && j == |h| - 1 then ReconciledRow(h[j], blobs) else h[j];
    assert r.artifacts == q.artifacts;
    assert forall b :: Names(q, b) <==> Names(r, b);
  }

  lemma {:induction false} RepairedServable(h: seq<Row>, blobs: Blobs, i: nat, j: nat)
    requires i < |h| && j < |h|
    requires forall m, n :: 0 <= m < n < |h| ==> !(Servable(h[m]) && Servable(h[n]))
    requires Servable(RepairedHistory(h, blobs)[i]) && Servable(RepairedHistory(h, blobs)[j])
    ensures i == j
  {
  }

  function AnswerAfterRepair(h: seq<Row>, blobs: Blobs): Option<Entry> {
    if Promoted(h, blobs) then Some(EntryOf(Newest(h), blobs)) else EntryIn(h, blobs)
  }

  lemma {:induction false} RepairMeaning(t: Table, blobs: Blobs, inputs: Inputs, next: nat)
    requires StoreOk(t, blobs, inputs, next)
    ensures StoreOk(Repaired(t, blobs), blobs, inputs, next)
    ensures forall k ::
      EntryIn(History(Repaired(t, blobs), k), blobs) == AnswerAfterRepair(History(t, k), blobs)
  {
    var u := Repaired(t, blobs);
    forall k, i | Has(u, k, i)
      ensures Has(t, k, i) && u.hist[k][i].id == t.hist[k][i].id && RowOk(u.hist[k][i], inputs(k))
      ensures u.hist[k][i].id < next
      ensures forall b :: NamedAt(t, k, i, b) <==> NamedAt(u, k, i, b)
    {
      assert Has(t, k, i);
      RepairedRowOk(t.hist[k], blobs, inputs(k), i);
    }
    RepairedWellFormed(t, blobs, inputs, next);
    forall k, i, j | ServableAt(u, k, i) && ServableAt(u, k, j)
      ensures i == j
    {
      forall m, n | 0 <= m < n < |t.hist[k]|
        ensures !(Servable(t.hist[k][m]) && Servable(t.hist[k][n]))
      {
        assert Servable(t.hist[k][m]) && Servable(t.hist[k][n]) ==> ServableAt(t, k, m) && ServableAt(t, k, n);
      }
      RepairedServable(t.hist[k], blobs, i, j);
    }
    forall b | b in blobs
      ensures Owned(u, b)
    {
      var k, i :| NamedAt(t, k, i, b);
      assert Has(u, k, i);
      assert NamedAt(u, k, i, b);
    }
    forall k
      ensures EntryIn(History(u, k), blobs) == AnswerAfterRepair(History(t, k), blobs)
    {
      if k in t.hist {
        assert Has(t, k, |t.hist[k]| - 1);
        RepairedEntry(t.hist[k], blobs, inputs(k));
      }
    }
  }

  lemma {:induction false} RepairedWellFormed(t: Table, blobs: Blobs, inputs: Inputs, next: nat)
    requires WellFormed(t) && RowsOk(t, inputs, next)
    ensures WellFormed(Repaired(t, blobs))
  {
    var u := Repaired(t, blobs);
    forall k, i, id | At(u, k, i, id)
      ensures At(t, k, i, id)
    {
      assert Has(t, k, i);
      RepairedRowOk(t.hist[k], blobs, inputs(k), i);
    }
  }
}
