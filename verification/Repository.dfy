/** The append-only execution store: mutable rows grouped by key. */
module Repository {
  import opened Executions
  import Eviction

  class MlExecution {
    const id: ExecutionId
    var state: ExecutionState
    var outputPersisted: bool
    var inputPersisted: bool
    var superseded: bool
    var artifacts: seq<Artifact>

    constructor (r: Row)
      ensures Snapshot() == r
    {
      id, state, outputPersisted := r.id, r.state, r.outputPersisted;
      inputPersisted, superseded, artifacts := r.inputPersisted, r.superseded, r.artifacts;
    }

    function Snapshot(): Row
      reads this
    {
      Row(id, state, outputPersisted, inputPersisted, superseded, artifacts)
    }
  }

  function Snapshots(h: seq<MlExecution>): (s: seq<Row>)
    reads h
    ensures |s| == |h|
    ensures forall i :: 0 <= i < |h| ==> s[i] == h[i].Snapshot()
  {
    seq(|h|, i requires 0 <= i < |h| reads h => h[i].Snapshot())
  }

  lemma {:induction false} SnapshotsWithout(h: seq<MlExecution>, i: nat)
    requires i < |h|
    ensures Snapshots(h[..i] + h[i + 1..]) == Snapshots(h)[..i] + Snapshots(h)[i + 1..]
  {
  }

  type Places = map<MlExecution, (Key, int)>

  predicate Within(m: map<Key, seq<MlExecution>>, k: Key, i: int) {
    k in m && 0 <= i < |m[k]|
  }

  /** Every row sits in the table once: `place` says where. */
  ghost predicate Separated(m: map<Key, seq<MlExecution>>, rows: set<MlExecution>, place: Places) {
    forall k, i :: Within(m, k, i) ==> m[k][i] in rows && m[k][i] in place && place[m[k][i]] == (k, i)
  }

  ghost function Shifted(place: Places, k: Key, i: nat): (p: Places)
    ensures p.Keys == place.Keys
    ensures forall row :: row in p ==>
      p[row] == if place[row].0 == k && place[row].1 > i then (k, place[row].1 - 1) else place[row]
  {
    map row | row in place :: if place[row].0 == k && place[row].1 > i then (k, place[row].1 - 1) else place[row]
  }

  ghost predicate Moved(m: map<Key, seq<MlExecution>>, m': map<Key, seq<MlExecution>>, k: Key, i: nat) {
    forall l, j :: Within(m', l, j) ==> Within(m, l, Shift(k, i, l, j)) && m'[l][j] == m[l][Shift(k, i, l, j)]
  }

  lemma {:induction false} TakenOut(m: map<Key, seq<MlExecution>>, k: Key, i: nat)
    requires Within(m, k, i)
    ensures Moved(m, m[k := m[k][..i] + m[k][i + 1..]], k, i)
  {
  }

  lemma {:induction false} ShiftedAt(row: MlExecution, place: Places, k: Key, i: nat, l: Key, j: int)
    requires row in place && place[row] == (l, Shift(k, i, l, j))
    ensures Shifted(place, k, i)[row] == (l, j)
  {
  }

  lemma {:induction false} SeparatedWithout(m: map<Key, seq<MlExecution>>, m': map<Key, seq<MlExecution>>,
                                            rows: set<MlExecution>, place: Places, k: Key, i: nat)
    requires Separated(m, rows, place) && Within(m, k, i) && Moved(m, m', k, i)
    ensures Separated(m', rows, Shifted(place, k, i))
  {
    forall l, j | Within(m', l, j)
      ensures m'[l][j] in rows && m'[l][j] in place && place[m'[l][j]] == (l, Shift(k, i, l, j))
    {
      hide Shift;
    }
    hide Moved, Separated;
    forall l, j | Within(m', l, j)
      ensures Shifted(place, k, i)[m'[l][j]] == (l, j)
    {
      ShiftedAt(m'[l][j], place, k, i, l, j);
    }
  }

  /** The outcome of an operation that fails loud on a stale or premature write. */
  datatype Status = Done | StoreConsistencyError

  lemma {:induction false} PersistedAfter(t: Table, k: Key, i: nat)
    requires Has(t, k, i)
    ensures var u := if t.hist[k][i].state == Success then SetHistory(t, k, RetireAll(t.hist[k])) else t;
      && Has(u, k, i)
      && SetRow(u, k, i, u.hist[k][i].(outputPersisted := true)) == SetHistory(t, k, Finalized(t.hist[k], i))
  {
  }

  class InMemoryExecutionRepository {
    var order: seq<Key>
    var byKey: map<Key, seq<MlExecution>>
    ghost var rows: set<MlExecution>
    ghost var place: Places

    predicate In(k: Key, i: int)
      reads this
    {
      Within(byKey, k, i)
    }

    ghost predicate Separate()
      reads this
    {
      Separated(byKey, rows, place)
    }

    function View(): Table
      requires Separate()
      reads this, rows
    {
      Table(order, map k | k in byKey :: Snapshots(byKey[k]))
    }

    ghost predicate Valid()
      reads this, rows
    {
      Separate() && WellFormed(View())
    }

    lemma {:induction false} ViewIs(t: Table)
      requires Separate() && order == t.order && byKey.Keys == t.hist.Keys
      requires forall k :: k in byKey ==> |byKey[k]| == |t.hist[k]|
      requires forall k, i :: In(k, i) ==> byKey[k][i].Snapshot() == t.hist[k][i]
      ensures View() == t
    {
      forall k | k in byKey
        ensures View().hist[k] == t.hist[k]
      {
        assert forall i :: 0 <= i < |byKey[k]| ==> In(k, i);
      }
    }

    lemma {:induction false} ViewIsByKey(t: Table)
      requires Separate() && order == t.order && byKey.Keys == t.hist.Keys
      requires forall k :: k in byKey ==> Snapshots(byKey[k]) == t.hist[k]
      ensures View() == t
    {
    }

    constructor ()
      ensures Valid() && fresh(rows)
      ensures View() == Table([], map[])
    {
      order, byKey, rows, place := [], map[], {}, map[];
      new;
      ViewIs(Table([], map[]));
    }

    method Locate(id: ExecutionId) returns (found: bool, k: Key, i: nat)
      requires Valid()
      ensures if found then At(View(), k, i, id) else !Known(View(), id)
    {
      k, i := Key(""), 0;
      var n := 0;
      while n < |order|
        invariant 0 <= n <= |order|
        invariant forall m, j :: 0 <= m < n ==> !At(View(), order[m], j, id)
      {
        k := order[n];
        assert k in View().hist;
        i := 0;
        while i < |byKey[k]|
          invariant 0 <= i <= |byKey[k]|
          invariant forall j :: 0 <= j < i ==> View().hist[k][j].id != id
        {
          if byKey[k][i].id == id {
            return true, k, i;
          }
          i := i + 1;
        }
        n := n + 1;
      }
      found := false;
    }

    method FindCurrent(k: Key) returns (r: Option<Row>)
      requires Valid()
      ensures r == Current(View(), k)
    {
      if k !in byKey {
        return None;
      }
      ghost var h := View().hist[k];
      var i := 0;
      while i < |byKey[k]|
        invariant 0 <= i <= |h|
        invariant forall j :: 0 <= j < i ==> !Servable(h[j])
      {
        if Servable(byKey[k][i].Snapshot()) {
          return Some(byKey[k][i].Snapshot());
        }
        i := i + 1;
      }
      r := None;
    }

    /** Inserts a row at the end of its key's history; saving a servable row retires the ones already servable. */
    method Save(k: Key, r: Row)
      requires Valid() && !Known(View(), r.id)
      modifies this, rows
      ensures Valid() && rows >= old(rows) && fresh(rows - old(rows))
      ensures View() == Append(old(View()), k, r)
    {
      ghost var before := View();
      WellFormedAppend(before, k, r);
      if Servable(r) && k in byKey {
        RetireServable(k);
      }
      AppendRow(k, r);
      assert View().hist == Append(before, k, r).hist;
    }

    method AppendRow(k: Key, r: Row)
      requires Separate()
      modifies this
      ensures Separate() && rows >= old(rows) && fresh(rows - old(rows))
      ensures View() == Table(if k in old(byKey) then old(order) else old(order) + [k],
                              old(View()).hist[k := History(old(View()), k) + [r]])
    {
      hide Known, WellFormed;
      ghost var before := View();
      var row := new MlExecution(r);
      var h := if k in byKey then byKey[k] else [];
      if k !in byKey {
        order := order + [k];
      }
      byKey := byKey[k := h + [row]];
      rows, place := rows + {row}, place[row := (k, |h|)];
      assert Separate();
      forall l, j | In(l, j)
        ensures byKey[l][j].Snapshot() == (if l == k then History(before, k) + [r] else before.hist[l])[j]
      {
      }
      ViewIs(Table(order, before.hist[k := History(before, k) + [r]]));
    }

    /** The supersession loop: every servable row of the key is retired in place. */
    method RetireServable(k: Key)
      requires Separate() && k in byKey
      modifies rows
      ensures Separate()
      ensures View() == SetHistory(old(View()), k, RetireAll(old(View()).hist[k]))
    {
      ghost var before := View();
      var n := 0;
      while n < |byKey[k]|
        invariant 0 <= n <= |byKey[k]|
        invariant forall i :: 0 <= i < n ==> byKey[k][i].Snapshot() == Retire(before.hist[k][i])
        invariant forall l, i :: In(l, i) && (l != k || n <= i) ==> byKey[l][i].Snapshot() == before.hist[l][i]
      {
        assert In(k, n);
        if Servable(byKey[k][n].Snapshot()) {
          byKey[k][n].superseded := true;
        }
        n := n + 1;
      }
      ViewIs(SetHistory(before, k, RetireAll(before.hist[k])));
    }

    method RecordOutcome(id: ExecutionId, state: ExecutionState) returns (s: Status)
      requires Valid()
      modifies rows
      ensures Valid()
      ensures !Known(old(View()), id) ==> s == StoreConsistencyError && View() == old(View())
      ensures forall k, i :: At(old(View()), k, i, id) ==>
        s == Done && View() == SetRow(old(View()), k, i, old(View()).hist[k][i].(state := state))
    {
      ghost var before := View();
      var found, k, i := Locate(id);
      if !found {
        return StoreConsistencyError;
      }
      assert At(before, k, i, id);
      byKey[k][i].state := state;
      RowChanged(before, k, i, before.hist[k][i].(state := state));
      s := Done;
    }

    method PersistArtifact(id: ExecutionId, a: Artifact) returns (s: Status)
      requires Valid()
      modifies rows
      ensures Valid()
      ensures !Known(old(View()), id) ==> s == StoreConsistencyError && View() == old(View())
      ensures forall k, i :: At(old(View()), k, i, id) ==>
        s == Done && var r := old(View()).hist[k][i];
          View() == SetRow(old(View()), k, i, r.(artifacts := r.artifacts + [a]))
    {
      ghost var before := View();
      var found, k, i := Locate(id);
      if !found {
        return StoreConsistencyError;
      }
      assert At(before, k, i, id);
      byKey[k][i].artifacts := byKey[k][i].artifacts + [a];
      RowChanged(before, k, i, before.hist[k][i].(artifacts := before.hist[k][i].artifacts + [a]));
      s := Done;
    }

    method ResolveArtifacts(artifacts: seq<Artifact>, b: BlobKey, status: ArtifactStatus)
      returns (resolved: seq<Artifact>, matched: nat)
      ensures resolved == ResolveAll(artifacts, b, status)
      ensures matched > 0 <==> exists j :: 0 <= j < |artifacts| && artifacts[j].blobKey == b
    {
      resolved, matched := [], 0;
      for n := 0 to |artifacts|
        invariant |resolved| == n
        invariant forall j :: 0 <= j < n ==> resolved[j] == Resolve(artifacts[j], b, status)
        invariant matched > 0 <==> exists j :: 0 <= j < n && artifacts[j].blobKey == b
      {
        if artifacts[n].blobKey == b {
          matched := matched + 1;
        }
        resolved := resolved + [Resolve(artifacts[n], b, status)];
      }
    }

    /** Marks every artifact of the row that references the blob; a mark that matches none fails loud. */
    method MarkArtifacts(id: ExecutionId, b: BlobKey, status: ArtifactStatus) returns (s: Status)
      requires Valid()
      modifies rows
      ensures Valid()
      ensures !Known(old(View()), id) ==> s == StoreConsistencyError && View() == old(View())
      ensures forall k, i :: At(old(View()), k, i, id) ==>
        var r := old(View()).hist[k][i];
        && s == (if Names(r, b) then Done else StoreConsistencyError)
        && View() == SetRow(old(View()), k, i, r.(artifacts := ResolveAll(r.artifacts, b, status)))
    {
      ghost var before := View();
      var found, k, i := Locate(id);
      if !found {
        return StoreConsistencyError;
      }
      assert At(before, k, i, id);
      var resolved, matched := ResolveArtifacts(byKey[k][i].artifacts, b, status);
      byKey[k][i].artifacts := resolved;
      RowChanged(before, k, i, before.hist[k][i].(artifacts := resolved));
      s := if matched == 0 then StoreConsistencyError else Done;
    }

    /** Makes a run output-persisted, and current if it succeeded; refused while any artifact is not STORED. */
    method FinalizeOutputPersisted(id: ExecutionId) returns (s: Status)
      requires Valid()
      modifies rows
      ensures Valid()
      ensures !Known(old(View()), id) ==> s == StoreConsistencyError && View() == old(View())
      ensures forall k, i :: At(old(View()), k, i, id) ==>
        if AllStored(old(View()).hist[k][i].artifacts)
        then s == Done && View() == SetHistory(old(View()), k, Finalized(old(View()).hist[k], i))
        else s == StoreConsistencyError && View() == old(View())
    {
      ghost var before := View();
      var found, k, i := Locate(id);
      if !found {
        return StoreConsistencyError;
      }
      assert At(before, k, i, id);
      if !AllStored(byKey[k][i].artifacts) {
        return StoreConsistencyError;
      }
      WellFormedSetHistory(before, k, Finalized(before.hist[k], i));
      Promote(k, i);
      s := Done;
    }

    method Promote(k: Key, i: nat)
      requires Separate() && In(k, i)
      modifies rows
      ensures Separate()
      ensures View() == SetHistory(old(View()), k, Finalized(old(View()).hist[k], i))
    {
      ghost var before := View();
      if byKey[k][i].state == Success {
        RetireServable(k);
      }
      Persist(k, i);
      PersistedAfter(before, k, i);
      hide RetireAll, Finalized, SetHistory, SetRow;
    }

    method Persist(k: Key, i: nat)
      requires Separate() && In(k, i)
      modifies rows
      ensures Separate()
      ensures View() == SetRow(old(View()), k, i, old(View()).hist[k][i].(outputPersisted := true))
    {
      ghost var before := View();
      byKey[k][i].outputPersisted := true;
      ViewIs(SetRow(before, k, i, before.hist[k][i].(outputPersisted := true)));
    }

    /** Drops one row; the key goes with its last row. Idempotent. */
    method RemoveExecution(id: ExecutionId)
      requires Valid()
      modifies this
      ensures Valid() && rows == old(rows)
      ensures !Known(old(View()), id) ==> View() == old(View())
      ensures forall k, i :: At(old(View()), k, i, id) ==> View() == RemoveRow(old(View()), k, i)
    {
      ghost var before := View();
      var found, k, i := Locate(id);
      if !found {
        return;
      }
      assert At(before, k, i, id);
      RemoveRowAt(k, i);
    }

    method RemoveRowAt(k: Key, i: nat)
      requires Valid() && In(k, i)
      modifies this
      ensures Valid() && rows == old(rows)
      ensures View() == RemoveRow(old(View()), k, i)
    {
      ghost var before := View();
      WellFormedRemoveRow(before, k, i);
      RemoveAt(k, i);
      ghost var h := before.hist[k][..i] + before.hist[k][i + 1..];
      assert View().hist[k] == h;
      if byKey[k] == [] {
        DeleteKey(k);
        assert SetHistory(before, k, h).hist - {k} == before.hist - {k};
      }
    }

    method RemoveAt(k: Key, i: nat)
      requires Separate() && In(k, i)
      modifies this
      ensures Separate() && rows == old(rows)
      ensures View() == SetHistory(old(View()), k, old(View()).hist[k][..i] + old(View()).hist[k][i + 1..])
    {
      ghost var before := View();
      var h := byKey[k][..i] + byKey[k][i + 1..];
      ghost var rest := before.hist[k][..i] + before.hist[k][i + 1..];
      SnapshotsWithout(byKey[k], i);
      TakenOut(byKey, k, i);
      SeparatedWithout(byKey, byKey[k := h], rows, place, k, i);
      ghost var after := SetHistory(before, k, rest);
      assert forall l :: l in byKey ==> Snapshots(byKey[k := h][l]) == after.hist[l];
      assert after.order == order && after.hist.Keys == byKey.Keys;
      hide Without, Moved, Shifted, Snapshots, Separated, Within, SetHistory;
      byKey, place := byKey[k := h], Shifted(place, k, i);
      ViewIsByKey(after);
    }

    method DeleteKey(k: Key)
      requires Separate() && k in byKey
      modifies this
      ensures Separate() && rows == old(rows)
      ensures View() == Table(Without(old(order), k), old(View()).hist - {k})
    {
      ghost var before := View();
      order, byKey := Without(order, k), byKey - {k};
      ViewIs(Table(order, before.hist - {k}));
    }

    /** Attaches input rows to the key's current execution unless it already carries input. */
    method AddInputArtifacts(k: Key, artifacts: seq<Artifact>)
      requires Valid()
      modifies rows
      ensures Valid()
      ensures View() == InputAdded(old(View()), k, artifacts)
    {
      ghost var before := View();
      if artifacts == [] || k !in byKey {
        return;
      }
      var n := 0;
      while n < |byKey[k]|
        invariant 0 <= n <= |byKey[k]| && View() == before
        invariant forall j :: 0 <= j < n ==> !Servable(before.hist[k][j])
      {
        var row := byKey[k][n];
        if Servable(row.Snapshot()) {
          assert n == CurrentIndex(before.hist[k]);
          if !HasInput(row.artifacts) {
            row.artifacts, row.inputPersisted := row.artifacts + artifacts, true;
            assert In(k, n);
            RowChanged(before, k, n, WithInput(before.hist[k][n], artifacts));
          }
          return;
        }
        n := n + 1;
      }
    }

    /** Releases the artifacts of every row of the key; the rows themselves stay. */
    method SoftPurgeExecution(k: Key)
      requires Valid()
      modifies rows
      ensures Valid()
      ensures View() == SoftPurgedKey(old(View()), k)
    {
      if k in byKey {
        WellFormedSetHistory(View(), k, SoftPurgedAll(View().hist[k]));
        ReleaseArtifacts(k);
      }
    }

    method ReleaseArtifacts(k: Key)
      requires Separate() && k in byKey
      modifies rows
      ensures Separate()
      ensures View() == SetHistory(old(View()), k, SoftPurgedAll(old(View()).hist[k]))
    {
      ghost var before := View();
      var n := 0;
      while n < |byKey[k]|
        invariant 0 <= n <= |byKey[k]|
        invariant forall i :: 0 <= i < n ==> byKey[k][i].Snapshot() == SoftPurged(before.hist[k][i])
        invariant forall l, i :: In(l, i) && (l != k || n <= i) ==> byKey[l][i].Snapshot() == before.hist[l][i]
      {
        var row := byKey[k][n];
        assert In(k, n);
        row.artifacts, row.outputPersisted, row.inputPersisted := [], false, false;
        n := n + 1;
      }
      ViewIs(SoftPurgedKey(before, k));
    }

    method HardDeleteExecution(k: Key)
      requires Valid()
      modifies this
      ensures Valid() && rows == old(rows)
      ensures View() == DropKey(old(View()), k)
    {
      WellFormedDropKey(View(), k);
      if k in byKey {
        DeleteKey(k);
      }
    }

    /** The repair worklist, in key order. */
    method RunsAwaitingPersistence() returns (runs: seq<UnpersistedRun>)
      requires Valid()
      ensures runs == Worklist(View(), View().order)
    {
      runs := [];
      ghost var t := View();
      for n := 0 to |order|
        invariant runs == Worklist(t, t.order[..n])
      {
        var k := order[n];
        assert t.order[..n + 1][..n] == t.order[..n];
        assert k in t.hist && t.hist[k] != [];
        var latest := byKey[k][|byKey[k]| - 1];
        if !latest.outputPersisted && Unstored(latest.artifacts) != [] {
          runs := runs + [UnpersistedRun(k, latest.id, Unstored(latest.artifacts))];
        }
      }
      assert t.order[..|order|] == t.order;
    }

    method FindAll(k: Key) returns (rows: seq<Row>)
      requires Valid()
      ensures rows == History(View(), k)
    {
      rows := if k in byKey then Snapshots(byKey[k]) else [];
    }

    method SizesForKey(k: Key) returns (entries: seq<Eviction.SizeEntry>)
      requires Valid() && k in byKey
      ensures entries == Eviction.EntriesFor(k, History(View(), k))
    {
      hide WellFormed;
      entries := [];
      ghost var h := View().hist[k];
      for n := 0 to |byKey[k]|
        invariant entries == Eviction.EntriesFor(k, h[..n])
      {
        assert h[..n + 1][..n] == h[..n];
        if Servable(byKey[k][n].Snapshot()) {
          entries := entries + [Eviction.SizeEntry(k, Size(byKey[k][n].artifacts))];
        }
      }
      assert h[..|h|] == h;
    }

    lemma {:induction false} ListedKey(n: nat)
      requires Valid() && n < |order|
      ensures order[n] in byKey && View().order == order
    {
      assert View().order[n] in View().hist;
    }

    /** The servable rows of the store with their sizes, in key order. */
    method CurrentExecutionsWithSizes() returns (entries: seq<Eviction.SizeEntry>)
      requires Valid()
      ensures entries == Eviction.SizeEntries(View(), View().order)
    {
      hide WellFormed, Separated, Eviction.SizeEntries, Eviction.EntriesFor;
      entries := [];
      ghost var t := View();
      Eviction.SizeEntriesEnds(t, t.order);
      for n := 0 to |order|
        invariant entries == Eviction.SizeEntries(t, t.order[..n])
      {
        Eviction.SizeEntriesNext(t, t.order, n);
        ListedKey(n);
        var more := SizesForKey(order[n]);
        entries := entries + more;
      }
    }

    method TotalStoredBytes() returns (total: nat)
      requires Valid()
      ensures total == Eviction.TotalStored(View())
    {
      var entries := CurrentExecutionsWithSizes();
      total := 0;
      for n := 0 to |entries|
        invariant total == Eviction.Sum(entries[..n])
      {
        Eviction.SumNext(entries, n);
        hide Eviction.Sum, WellFormed, Eviction.SizeEntries;
        total := total + entries[n].size;
      }
      assert entries[..|entries|] == entries;
    }

    /** One row overwritten in place: every other row keeps its value. */
    lemma {:induction false} RowChanged(before: Table, k: Key, i: nat, r: Row)
      requires Separate() && WellFormed(before) && Has(before, k, i) && r.id == before.hist[k][i].id
      requires order == before.order && byKey.Keys == before.hist.Keys
      requires forall l :: l in byKey ==> |byKey[l]| == |before.hist[l]|
      requires forall l, j :: In(l, j) ==> byKey[l][j].Snapshot() == if l == k && j == i then r else before.hist[l][j]
      ensures View() == SetRow(before, k, i, r) && WellFormed(View())
    {
      WellFormedSetRow(before, k, i, r);
      ViewIs(SetRow(before, k, i, r));
    }
  }
}
