/** The record-or-replay service over mutable rows, a blob store and a journal. */
module Engine {
  import opened Executions
  import opened CacheModel
  import opened Repository
  import opened CacheSpec
  import opened Storing

  class BlobStore {
    var blobs: Blobs

    constructor ()
      ensures blobs == map[]
    {
      blobs := map[];
    }

    method Get(b: BlobKey) returns (content: Option<Bytes>)
      ensures content == if b in blobs then Some(blobs[b]) else None
    {
      content := if b in blobs then Some(blobs[b]) else None;
    }

    /** Atomic: a refused put leaves the store as it was. */
    method Put(b: BlobKey, content: Bytes, lands: bool)
      modifies this
      ensures blobs == if lands then old(blobs)[b := content] else old(blobs)
    {
      if lands {
        blobs := blobs[b := content];
      }
    }

    method Remove(b: BlobKey)
      modifies this
      ensures blobs == old(blobs) - {b}
    {
      blobs := blobs - {b};
    }

    /** Somebody else deletes blobs. */
    method Lose(lost: set<BlobKey>)
      modifies this
      ensures blobs == old(blobs) - lost
    {
      blobs := blobs - lost;
    }
  }

  class CallJournal {
    var events: seq<Event>

    constructor ()
      ensures events == []
    {
      events := [];
    }

    method RecordEvent(kind: EventKind, key: Key)
      modifies this
      ensures events == old(events) + [Event(kind, key)]
    {
      events := events + [Event(kind, key)];
    }
  }

  lemma {:induction false} Appended(t: Table, k: Key, id: ExecutionId)
    ensures var u, i := Append(t, k, FreshRow(id)), |History(t, k)|;
      && At(u, k, i, id) && u.hist[k][i] == FreshRow(id) && i == |u.hist[k]| - 1
      && !Servable(FreshRow(id)) && FreshRow(id).id == id
  {
  }

  /** The first `n` documents of row (k, i) have been inserted, put and marked. */
  ghost predicate PersistedSoFar(t: Table, blobs: Blobs, k: Key, i: nat, docs: seq<Document>, faults: nat -> Fault,
                                 n: nat, u: Table, blobs': Blobs, allStored: bool) {
    && Has(t, k, i) && n <= |docs|
    && u == PersistedTable(t, k, i, docs, faults, n)
    && blobs' == PutAll(blobs, t.hist[k][i].id, docs, faults, n)
    && (allStored <==> AllFine(faults, n))
  }

  lemma {:induction false} NothingPersisted(t: Table, blobs: Blobs, k: Key, i: nat, docs: seq<Document>,
                                            faults: nat -> Fault)
    requires Has(t, k, i) && t.hist[k][i].artifacts == []
    ensures PersistedSoFar(t, blobs, k, i, docs, faults, 0, t, blobs, true)
  {
    PersistedStart(t, k, i, docs, faults);
  }

  lemma {:induction false} ReplayTook(c: Cache, cmd: Command, inputs: seq<Document>, w: World, r: Result, c': Cache,
                                      before: seq<Event>, after: seq<Event>)
    requires Replayable(c, cmd.key) && c' == Replay(c, cmd, inputs, w).cache
    requires r == Returned(Execution(Success, true, c[cmd.key].inputKept, c[cmd.key].documents))
    requires after == before + [Event(Hit, cmd.key)]
    ensures Took(Replay(c, cmd, inputs, w), r, c', before, after)
  {
  }

  lemma {:induction false} ServeCurrentIs(c: Cache, cmd: Command, inputs: seq<Document>, w: World, r: Row, blobs: Blobs)
    requires cmd.key in c && c[cmd.key] == EntryOf(r, blobs)
    ensures var served := ServeCurrent(c, cmd, inputs, w);
      if Replayable(c, cmd.key) then
        var s := Replay(c, cmd, inputs, w);
        served == Served(Some(s.result), s.cache, s.events)
      else
        served == if Removable(w.removes, |r.artifacts|) then Served(None, c - {cmd.key}, [])
                  else Served(Some(Raised(StoreUnavailable)), c, [])
  {
  }

  lemma {:induction false} EntryArtifacts(r: Row, blobs: Blobs)
    ensures Artifacts(EntryOf(r, blobs)) == |r.artifacts|
  {
  }

  class CachedMlExecutionService {
    const repo: InMemoryExecutionRepository
    const store: BlobStore
    const journal: CallJournal
    const inputParts: Inputs
    var nextId: nat
    ghost var clientCalls: nat

    constructor (inputParts: Inputs)
      ensures Valid() && Answers() == map[] && journal.events == [] && clientCalls == 0
      ensures fresh(repo) && fresh(repo.rows) && fresh(store) && fresh(journal)
    {
      this.inputParts, nextId, clientCalls := inputParts, 0, 0;
      repo := new InMemoryExecutionRepository();
      store := new BlobStore();
      journal := new CallJournal();
      new;
      EmptyStoreOk(inputParts);
    }

    ghost predicate Valid()
      reads this, repo, repo.rows, store
    {
      repo.Valid() && StoreOk(repo.View(), store.blobs, inputParts, nextId)
    }

    /** The plain map this store stands for. */
    ghost function Answers(): Cache
      requires repo.Separate()
      reads repo, repo.rows, store
    {
      Entries(repo.View(), store.blobs)
    }

    method RecordEvent(kind: EventKind, k: Key)
      requires repo.Valid()
      modifies journal
      ensures repo.Valid() && repo.View() == old(repo.View()) && Answers() == old(Answers())
      ensures old(Valid()) ==> Valid()
      ensures journal.events == old(journal.events) + [Event(kind, k)]
    {
      journal.RecordEvent(kind, k);
    }

    /** Phase one writes the blob, phase two marks it; a lost mark leaves the artifact PENDING, never FAILED. */
    method StoreBlob(id: ExecutionId, d: Document, fault: Fault, ghost k: Key, ghost i: nat)
      returns (status: ArtifactStatus)
      requires repo.Valid() && At(repo.View(), k, i, id)
      requires Names(repo.View().hist[k][i], BlobKeyFor(id, d.content))
      modifies repo.rows, store
      ensures repo.Valid()
      ensures repo.View() == BlobMarked(old(repo.View()), k, i, BlobKeyFor(id, d.content), fault)
      ensures store.blobs == BlobStored(old(store.blobs), id, d, fault)
      ensures status == (match fault case Fine => Stored case PutFails => Failed case MarkFails => Pending)
    {
      hide WellFormed;
      var b := BlobKeyFor(id, d.content);
      store.Put(b, d.content, fault != PutFails);
      if fault == PutFails {
        var _ := repo.MarkArtifacts(id, b, Failed);
        return Failed;
      }
      if fault == MarkFails {
        SetRowSame(repo.View(), k, i);
        return Pending;
      }
      var _ := repo.MarkArtifacts(id, b, Stored);
      status := Stored;
    }

    /** The per-document step: the PENDING row goes in before its blob is put. */
    method PersistDocument(id: ExecutionId, d: Document, fault: Fault, ghost k: Key, ghost i: nat)
      returns (status: ArtifactStatus)
      requires repo.Valid() && At(repo.View(), k, i, id)
      modifies repo.rows, store
      ensures repo.Valid()
      ensures repo.View() == DocumentStored(old(repo.View()), k, i, d, fault)
      ensures store.blobs == BlobStored(old(store.blobs), id, d, fault)
      ensures status.Stored? <==> fault.Fine?
    {
      ghost var t := repo.View();
      ghost var r := t.hist[k][i];
      var a := MakeArtifact(id, d, Pending);
      var _ := repo.PersistArtifact(id, a);
      ghost var inserted := r.(artifacts := r.artifacts + [a]);
      assert inserted.artifacts[|r.artifacts|].blobKey == BlobKeyFor(id, d.content);
      assert repo.View().hist[k][i] == inserted;
      status := StoreBlob(id, d, fault, k, i);
      SetRowTwice(t, k, i, inserted,
                  inserted.(artifacts := Marked(inserted.artifacts, BlobKeyFor(id, d.content), fault)));
    }

    method PersistDocuments(id: ExecutionId, docs: seq<Document>, faults: nat -> Fault, ghost k: Key, ghost i: nat)
      returns (allStored: bool)
      requires repo.Valid() && At(repo.View(), k, i, id) && repo.View().hist[k][i].artifacts == []
      modifies repo.rows, store
      ensures repo.Valid()
      ensures repo.View() == PersistedTable(old(repo.View()), k, i, docs, faults, |docs|)
      ensures store.blobs == PutAll(old(store.blobs), id, docs, faults, |docs|)
      ensures allStored <==> AllFine(faults, |docs|)
    {
      ghost var t, blobs := repo.View(), store.blobs;
      allStored := true;
      NothingPersisted(t, blobs, k, i, docs, faults);
      hide *;
      for n := 0 to |docs|
        invariant repo.Valid() && PersistedSoFar(t, blobs, k, i, docs, faults, n, repo.View(), store.blobs, allStored)
      {
        allStored := PersistNext(id, docs, faults, n, allStored, t, blobs, k, i);
      }
    }

    method PersistNext(id: ExecutionId, docs: seq<Document>, faults: nat -> Fault, n: nat, soFar: bool, ghost t: Table,
                       ghost blobs: Blobs, ghost k: Key, ghost i: nat)
      returns (allStored: bool)
      requires repo.Valid() && At(t, k, i, id) && n < |docs|
      requires PersistedSoFar(t, blobs, k, i, docs, faults, n, repo.View(), store.blobs, soFar)
      modifies repo.rows, store
      ensures repo.Valid()
      ensures PersistedSoFar(t, blobs, k, i, docs, faults, n + 1, repo.View(), store.blobs, allStored)
    {
      PersistedStep(t, k, i, docs, faults, n);
      hide WellFormed, PersistedTable, PutAll, DocumentStored, BlobStored, AllFine, SetRow;
      var status := PersistDocument(id, docs[n], faults(n), k, i);
      allStored := soFar && status.Stored?;
    }

    /** Outcome, documents, and finalisation when every document is STORED. */
    method StoreRun(id: ExecutionId, state: ExecutionState, docs: seq<Document>, faults: nat -> Fault, ghost k: Key,
                    ghost i: nat)
      returns (allStored: bool)
      requires repo.Valid() && At(repo.View(), k, i, id) && repo.View().hist[k][i] == FreshRow(id)
      modifies repo.rows, store
      ensures repo.Valid()
      ensures repo.View() == RecordedTable(old(repo.View()), k, i, state, docs, faults)
      ensures store.blobs == PutAll(old(store.blobs), id, docs, faults, |docs|)
      ensures allStored <==> AllFine(faults, |docs|)
    {
      RecordedSteps(repo.View(), k, i, id, state, docs, faults);
      var _ := repo.RecordOutcome(id, state);
      allStored := PersistDocuments(id, docs, faults, k, i);
      if allStored {
        var _ := repo.FinalizeOutputPersisted(id);
      }
    }

    method RecordStored(k: Key, id: ExecutionId, state: ExecutionState, output: seq<Document>, input: seq<Document>,
                        faults: nat -> Fault, ghost i: nat)
      returns (r: Result)
      requires Valid() && At(repo.View(), k, i, id) && repo.View().hist[k][i] == FreshRow(id) && state != InProgress
      requires (input == [] || input == inputParts(k)) && forall j :: 0 <= j < |output| ==> !output[j].kind.IsInput()
      modifies repo.rows, store, journal
      ensures Valid()
      ensures var s := Recorded(old(Answers()), k, state, output, input, faults);
        r == s.result && Answers() == s.cache && journal.events == old(journal.events) + s.events
    {
      RecordedMeaning(repo.View(), store.blobs, inputParts, nextId, k, i, state, output, input, faults);
      var allStored := StoreRun(id, state, output + input, faults, k, i);
      RecordEvent(if allStored then Record else Run, k);
      r := Returned(Execution(state, allStored, input != [], output + input));
    }

    /** The current row of a key, and what it means: a key without one has no answer. */
    method FindCurrent(k: Key) returns (current: Option<Row>, ghost i: nat)
      requires Valid()
      ensures current.None? <==> k !in Answers()
      ensures current.Some? ==>
        && ServableAt(repo.View(), k, i) && current.value == repo.View().hist[k][i]
        && Answers()[k] == EntryOf(current.value, store.blobs)
    {
      current := repo.FindCurrent(k);
      i := 0;
      if current.Some? {
        i := CurrentIndex(repo.View().hist[k]);
        CurrentEntry(repo.View(), store.blobs, k, i);
      }
    }

    // -- replaying --

    method Hydrate(artifacts: seq<Artifact>) returns (docs: Option<seq<Document>>)
      ensures docs == if Present(artifacts, store.blobs) then Some(Hydrated(artifacts, store.blobs)) else None
    {
      var done := [];
      for n := 0 to |artifacts|
        invariant Present(artifacts[..n], store.blobs) && done == Hydrated(artifacts[..n], store.blobs)
      {
        var content := store.Get(artifacts[n].blobKey);
        if content.None? {
          return None;
        }
        assert forall j :: 0 <= j < n ==> artifacts[..n + 1][j] == artifacts[..n][j];
        done := done + [Document(artifacts[n].kind, artifacts[n].name, content.value)];
        assert done == Hydrated(artifacts[..n + 1], store.blobs);
      }
      assert artifacts[..|artifacts|] == artifacts;
      docs := Some(done);
    }

    /** Puts and marks each input of the current entry again, attaching the input rows first if it has none. */
    method BackFill(k: Key, id: ExecutionId, input: seq<Document>, faults: nat -> Fault, ghost i: nat)
      requires repo.Valid() && At(repo.View(), k, i, id) && i == CurrentIndex(repo.View().hist[k])
      requires RowOk(repo.View().hist[k][i], input) && input != []
      modifies repo.rows, store
      ensures repo.Valid()
      ensures repo.View() == RemarkedTable(old(repo.View()), k, i, input, faults, |input|)
      ensures store.blobs == PutAll(old(store.blobs), id, input, faults, |input|)
    {
      ghost var t := repo.View();
      hide StoreOk, WellFormed, Entries;
      RemarkedStart(t, k, i, input, faults);
      repo.AddInputArtifacts(k, Pendings(id, input));
      StoreInputs(id, input, faults, t, k, i);
    }

    method StoreInputs(id: ExecutionId, input: seq<Document>, faults: nat -> Fault, ghost t: Table, ghost k: Key,
                       ghost i: nat)
      requires At(t, k, i, id) && RowOk(t.hist[k][i], input)
      requires repo.Valid() && repo.View() == RemarkedTable(t, k, i, input, faults, 0)
      modifies repo.rows, store
      ensures repo.Valid()
      ensures repo.View() == RemarkedTable(t, k, i, input, faults, |input|)
      ensures store.blobs == PutAll(old(store.blobs), id, input, faults, |input|)
    {
      assert PutAll(store.blobs, id, input, faults, 0) == store.blobs;
      hide WellFormed, RemarkedTable, PutAll, BlobMarked, BlobStored, SetRow, Names, RowOk;
      var n := 0;
      while n < |input|
        invariant 0 <= n <= |input| && repo.Valid()
        invariant repo.View() == RemarkedTable(t, k, i, input, faults, n)
        invariant store.blobs == PutAll(old(store.blobs), id, input, faults, n)
      {
        RemarkedStep(t, k, i, input, faults, n);
        var _ := StoreBlob(id, input[n], faults(n), k, i);
        n := n + 1;
      }
    }

    /** A hit at DATASET depth keeps the input too; the entry is read again under the key lock. */
    method AttachInput(cmd: Command, current: Row, faults: nat -> Fault, ghost i: nat)
      requires Valid() && ServableAt(repo.View(), cmd.key, i) && current == repo.View().hist[cmd.key][i]
      modifies repo.rows, store
      ensures repo.Valid()
      ensures repo.View() == ReplayedTable(old(repo.View()), cmd.key, i, cmd, inputParts(cmd.key), faults)
      ensures store.blobs == ReplayedBlobs(old(repo.View()), old(store.blobs), cmd.key, i, cmd, inputParts(cmd.key),
                                           faults)
    {
      hide WellFormed, Entries, EntryOf, RemarkedTable, PutAll;
      if !cmd.depth.StoresInput() || current.inputPersisted {
        return;
      }
      CurrentEntry(repo.View(), store.blobs, cmd.key, i);
      var again := repo.FindCurrent(cmd.key);
      if again.None? || again.value.inputPersisted {
        return;
      }
      var input := inputParts(cmd.key);
      if input != [] {
        BackFill(cmd.key, again.value.id, input, faults, i);
      }
    }

    method AccumulateInput(cmd: Command, current: Row, w: World, ghost i: nat)
      requires Valid() && ServableAt(repo.View(), cmd.key, i) && current == repo.View().hist[cmd.key][i]
      requires EntryOf(current, store.blobs).Whole?
      modifies repo.rows, store
      ensures Valid() && Replayable(old(Answers()), cmd.key)
      ensures Answers() == Replay(old(Answers()), cmd, inputParts(cmd.key), w).cache
    {
      hide StoreOk, WellFormed, Entries, Replay, ReplayedTable, ReplayedBlobs;
      ReplayMeaning(repo.View(), store.blobs, inputParts, nextId, cmd.key, i, cmd, w);
      AttachInput(cmd, current, w.faults, i);
    }

    method JournalHit(cmd: Command, current: Row, docs: seq<Document>, w: World, ghost i: nat) returns (r: Result)
      requires Valid() && ServableAt(repo.View(), cmd.key, i) && current == repo.View().hist[cmd.key][i]
      requires EntryOf(current, store.blobs) == Whole(docs, current.inputPersisted)
      modifies repo.rows, store, journal
      ensures Replayable(old(Answers()), cmd.key)
      ensures Took(Replay(old(Answers()), cmd, inputParts(cmd.key), w), r, Answers(),
                   old(journal.events), journal.events)
      ensures Valid()
    {
      CurrentEntry(repo.View(), store.blobs, cmd.key, i);
      assert repo.Valid() && Answers()[cmd.key] == Whole(docs, current.inputPersisted);
      ghost var c, before := Answers(), journal.events;
      hide *;
      r := Returned(Execution(Success, true, current.inputPersisted, docs));
      RecordEvent(Hit, cmd.key);
      AccumulateInput(cmd, current, w, i);
      ReplayTook(c, cmd, inputParts(cmd.key), w, r, Answers(), before, journal.events);
    }

    /** Hydrates and journals the hit; `None` when a blob is missing, and then nothing has happened. */
    method ServeHit(cmd: Command, current: Row, w: World, ghost i: nat) returns (r: Option<Result>)
      requires Valid() && ServableAt(repo.View(), cmd.key, i) && current == repo.View().hist[cmd.key][i]
      modifies repo.rows, store, journal
      ensures Replayable(old(Answers()), cmd.key) <==> r.Some?
      ensures r.None? ==>
        && !Present(current.artifacts, store.blobs)
        && repo.View() == old(repo.View()) && store.blobs == old(store.blobs) && journal.events == old(journal.events)
      ensures r.Some? ==>
        Took(Replay(old(Answers()), cmd, inputParts(cmd.key), w), r.value, Answers(),
             old(journal.events), journal.events)
      ensures Valid()
    {
      CurrentEntry(repo.View(), store.blobs, cmd.key, i);
      assert Replayable(Answers(), cmd.key) <==> Present(current.artifacts, store.blobs);
      hide *;
      var docs := Hydrate(current.artifacts);
      if docs.None? {
        return None;
      }
      var hit := JournalHit(cmd, current, docs.value, w, i);
      r := Some(hit);
    }

    // -- quarantine --

    /** Blobs first, then the row: a refused removal leaves the row that names them in place. */
    method RemoveExecutionAndBlobs(current: Row, removes: nat -> bool, ghost k: Key, ghost i: nat)
      returns (removed: bool)
      requires repo.Valid() && At(repo.View(), k, i, current.id) && repo.View().hist[k][i] == current
      modifies repo, store
      ensures repo.Valid() && repo.rows == old(repo.rows)
      ensures removed <==> Removable(removes, |current.artifacts|)
      ensures forall b :: b in store.blobs ==> b in old(store.blobs) && store.blobs[b] == old(store.blobs)[b]
      ensures forall b :: b in old(store.blobs) && !Names(current, b) ==> b in store.blobs
      ensures removed ==> forall b :: b in store.blobs ==> !Names(current, b)
      ensures repo.View() == if removed then RemoveRow(old(repo.View()), k, i) else old(repo.View())
    {
      hide WellFormed, StoreOk;
      var n: nat := 0;
      while n < |current.artifacts|
        invariant n <= |current.artifacts| && repo.Valid() && repo.rows == old(repo.rows)
        invariant repo.View() == old(repo.View())
        invariant Removable(removes, n)
        invariant forall b :: b in store.blobs ==> b in old(store.blobs) && store.blobs[b] == old(store.blobs)[b]
        invariant forall b :: b in old(store.blobs) && !Names(current, b) ==> b in store.blobs
        invariant forall j :: 0 <= j < n ==> current.artifacts[j].blobKey !in store.blobs
      {
        if !removes(n) {
          return false;
        }
        store.Remove(current.artifacts[n].blobKey);
        n := n + 1;
      }
      repo.RemoveExecution(current.id);
      removed := true;
    }

    /** A broken current entry is quarantined whole, or, when a removal is refused, stays and the call fails. */
    method Quarantine(cmd: Command, current: Row, removes: nat -> bool, ghost i: nat) returns (removed: bool)
      requires Valid() && ServableAt(repo.View(), cmd.key, i) && current == repo.View().hist[cmd.key][i]
      requires !Present(current.artifacts, store.blobs)
      modifies repo, store
      ensures Valid() && repo.rows == old(repo.rows)
      ensures removed <==> Removable(removes, |current.artifacts|)
      ensures Answers() == if removed then old(Answers()) - {cmd.key} else old(Answers())
    {
      ghost var t, blobs := repo.View(), store.blobs;
      assert At(t, cmd.key, i, current.id);
      removed := RemoveExecutionAndBlobs(current, removes, cmd.key, i);
      if removed {
        QuarantineMeaning(t, blobs, inputParts, nextId, cmd.key, i, store.blobs);
      } else {
        forall b | b in blobs && b !in store.blobs
          ensures b.owner == current.id
        {
          assert Has(t, cmd.key, i);
        }
        BrokenStaysBroken(t, blobs, inputParts, nextId, cmd.key, i, store.blobs);
      }
    }

    /** Serves the current entry, or `None` for a miss, healing a broken entry on the way. */
    method ServeCurrentIfHealthy(cmd: Command, w: World) returns (r: Option<Result>)
      requires Valid()
      modifies repo, repo.rows, store, journal
      ensures Valid() && repo.rows == old(repo.rows)
      ensures var s := ServeCurrent(old(Answers()), cmd, inputParts(cmd.key), w);
        r == s.result && Answers() == s.cache && journal.events == old(journal.events) + s.events
    {
      hide StoreOk, WellFormed, Entries, Known, EntryOf;
      AppendNothing(journal.events);
      var current, i := FindCurrent(cmd.key);
      if current.None? {
        NothingToServe(Answers(), cmd, inputParts(cmd.key), w);
        return None;
      }
      r := ServeOrQuarantine(cmd, current.value, w, i);
    }

    method ServeOrQuarantine(cmd: Command, current: Row, w: World, ghost i: nat) returns (r: Option<Result>)
      requires Valid() && ServableAt(repo.View(), cmd.key, i) && current == repo.View().hist[cmd.key][i]
      modifies repo, repo.rows, store, journal
      ensures Valid() && repo.rows == old(repo.rows)
      ensures var s := ServeCurrent(old(Answers()), cmd, inputParts(cmd.key), w);
        r == s.result && Answers() == s.cache && journal.events == old(journal.events) + s.events
    {
      CurrentEntry(repo.View(), store.blobs, cmd.key, i);
      ServeCurrentIs(Answers(), cmd, inputParts(cmd.key), w, current, store.blobs);
      AppendNothing(journal.events);
      hide *;
      r := ServeHit(cmd, current, w, i);
      if r.None? {
        r := ServeBroken(cmd, current, w, i);
      }
    }

    method ServeBroken(cmd: Command, current: Row, w: World, ghost i: nat) returns (r: Option<Result>)
      requires Valid() && ServableAt(repo.View(), cmd.key, i) && current == repo.View().hist[cmd.key][i]
      requires !Present(current.artifacts, store.blobs)
      modifies repo, store
      ensures Valid() && repo.rows == old(repo.rows) && journal.events == old(journal.events)
      ensures Answers() ==
        if Removable(w.removes, |current.artifacts|) then old(Answers()) - {cmd.key} else old(Answers())
      ensures r == if Removable(w.removes, |current.artifacts|) then None else Some(Raised(StoreUnavailable))
    {
      hide StoreOk, WellFormed, Entries, EntryOf;
      var removed := Quarantine(cmd, current, w.removes, i);
      r := if removed then None else Some(Raised(StoreUnavailable));
    }

    // -- the other resolution paths --

    method ReportMiss(k: Key) returns (r: Result)
      requires Valid()
      modifies journal
      ensures Valid() && repo.View() == old(repo.View()) && Answers() == old(Answers())
      ensures r == CacheMiss && journal.events == old(journal.events) + [Event(Miss, k)]
    {
      RecordEvent(Miss, k);
      r := CacheMiss;
    }

    method ServeOffline(cmd: Command, w: World) returns (r: Result)
      requires Valid()
      modifies repo.rows, store, journal
      ensures Valid()
      ensures var s := ReplayOnly(old(Answers()), cmd, inputParts(cmd.key), w);
        && r == s.result && Answers() == s.cache && journal.events == old(journal.events) + s.events
        && clientCalls == old(clientCalls) + s.clientCalls
      ensures r == CacheMiss ==> repo.View() == old(repo.View()) && store.blobs == old(store.blobs)
    {
      hide StoreOk, WellFormed, Entries, EntryOf, Known;
      var current, i := FindCurrent(cmd.key);
      if current.None? {
        r := ReportMiss(cmd.key);
        return;
      }
      EntryArtifacts(current.value, store.blobs);
      if current.value.artifacts != [] && !w.contentAvailable {
        AppendNothing(journal.events);
        return Raised(EncryptionTokenRequired);
      }
      var hit := ServeHit(cmd, current.value, w, i);
      if hit.Some? {
        return hit.value;
      }
      r := ReportMiss(cmd.key);
    }

    method RunClient(w: World) returns (run: ClientRun)
      requires Valid()
      modifies this`clientCalls
      ensures Valid() && repo.View() == old(repo.View()) && Answers() == old(Answers())
      ensures run == w.client && clientCalls == old(clientCalls) + 1
    {
      clientCalls := clientCalls + 1;
      run := w.client;
    }

    /** A run that leaves no row, journaled as `kind` when the client comes back with an answer. */
    method RunUnrecorded(cmd: Command, w: World, kind: EventKind) returns (r: Result)
      requires Valid()
      modifies journal, this`clientCalls
      ensures Valid() && Answers() == old(Answers()) && repo.View() == old(repo.View())
      ensures var s := Unrecorded(old(Answers()), cmd, w, kind);
        && r == s.result && journal.events == old(journal.events) + s.events
        && clientCalls == old(clientCalls) + s.clientCalls
    {
      hide StoreOk, WellFormed, Entries, EntryOf;
      var run := RunClient(w);
      match run
      case Interrupted => r := Raised(RunInterrupted);
      case Raises => r := Raised(ClientError);
      case Finishes(_, _, _, _) =>
        RecordEvent(kind, cmd.key);
        r := Returned(Execution(Outcome(run), false, false, OutputDocuments(run)));
    }

    method RunUncacheable(cmd: Command, w: World) returns (r: Result)
      requires Valid()
      modifies journal, this`clientCalls
      ensures Valid() && Answers() == old(Answers())
      ensures var s := Bypassing(old(Answers()), cmd, w);
        && r == s.result && Answers() == s.cache && journal.events == old(journal.events) + s.events
        && clientCalls == old(clientCalls) + s.clientCalls
    {
      hide StoreOk, WellFormed, Entries, EntryOf;
      if cmd.mode.Offline? {
        RecordEvent(Miss, cmd.key);
        return CacheMiss;
      }
      r := RunUnrecorded(cmd, w, Run);
    }

    method Verdict(k: Key) returns (kind: EventKind)
      requires Valid()
      ensures kind == if k in Answers() then WouldHit else WouldMiss
    {
      hide StoreOk, WellFormed, Entries, EntryOf;
      var current, i := FindCurrent(k);
      kind := if current.Some? then WouldHit else WouldMiss;
    }

    /** METER: always runs and stores nothing; the would-be verdict looks at rows only, never at blobs. */
    method RunMetered(cmd: Command, w: World) returns (r: Result)
      requires Valid()
      modifies journal, this`clientCalls
      ensures Valid() && Answers() == old(Answers())
      ensures var s := Metered(old(Answers()), cmd, w);
        && r == s.result && Answers() == s.cache && journal.events == old(journal.events) + s.events
        && clientCalls == old(clientCalls) + s.clientCalls
    {
      hide StoreOk, WellFormed, Entries, EntryOf;
      var verdict := Verdict(cmd.key);
      assert Metered(Answers(), cmd, w) == Unrecorded(Answers(), cmd, w, verdict);
      r := RunUnrecorded(cmd, w, verdict);
    }

    // -- a fresh recorded run --

    /** Inserts the IN_PROGRESS row of this call before the client is called. */
    method OpenRun(k: Key) returns (id: ExecutionId, ghost i: nat)
      requires Valid()
      modifies this`nextId, repo, repo.rows
      ensures Valid() && fresh(repo.rows - old(repo.rows)) && Answers() == old(Answers())
      ensures At(repo.View(), k, i, id) && repo.View().hist[k][i] == FreshRow(id)
      ensures repo.View().hist[k][i] == Row(id, InProgress, false, false, false, [])
      ensures repo.View() == Append(old(repo.View()), k, FreshRow(id))
      ensures id == old(nextId) && nextId == id + 1
    {
      id, i := nextId, |History(repo.View(), k)|;
      SaveKeepsMeaning(repo.View(), store.blobs, inputParts, nextId, k);
      Appended(repo.View(), k, id);
      assert !Known(repo.View(), id);
      hide StoreOk, Entries, Known, Append, FreshRow;
      repo.Save(k, FreshRow(id));
      nextId := nextId + 1;
    }

    /** A requested stop is not a result: the IN_PROGRESS row goes. */
    method DropRun(id: ExecutionId, ghost k: Key, ghost i: nat)
      requires Valid() && At(repo.View(), k, i, id) && repo.View().hist[k][i] == FreshRow(id)
      modifies repo
      ensures Valid() && repo.rows == old(repo.rows) && Answers() == old(Answers())
      ensures repo.View() == RemoveRow(old(repo.View()), k, i)
    {
      InterruptMeaning(repo.View(), store.blobs, inputParts, nextId, k, i);
      repo.RemoveExecution(id);
    }

    /** The client's outcome goes onto the row with no artifacts: visible, never servable. */
    method CloseRun(id: ExecutionId, state: ExecutionState, ghost k: Key, ghost i: nat)
      requires Valid() && At(repo.View(), k, i, id) && repo.View().hist[k][i] == FreshRow(id)
      modifies repo.rows
      ensures Valid() && Answers() == old(Answers())
      ensures repo.View() == OutcomeRecorded(old(repo.View()), k, i, state)
    {
      OutcomeMeaning(repo.View(), store.blobs, inputParts, nextId, k, i, state);
      var _ := repo.RecordOutcome(id, state);
    }

    method RecordUnstored(k: Key, id: ExecutionId, run: ClientRun, ghost i: nat) returns (r: Result)
      requires Valid() && At(repo.View(), k, i, id) && repo.View().hist[k][i] == FreshRow(id) && run.Finishes?
      modifies repo.rows, journal
      ensures Valid() && Answers() == old(Answers())
      ensures r == Returned(Execution(Outcome(run), false, false, OutputDocuments(run)))
      ensures journal.events == old(journal.events) + [Event(Run, k)]
    {
      CloseRun(id, Outcome(run), k, i);
      RecordEvent(Run, k);
      r := Returned(Execution(Outcome(run), false, false, OutputDocuments(run)));
    }

    /** What becomes of the open row once the client has stopped, raised or finished. */
    method Settle(cmd: Command, id: ExecutionId, w: World, ghost i: nat) returns (r: Result)
      requires Valid() && At(repo.View(), cmd.key, i, id) && repo.View().hist[cmd.key][i] == FreshRow(id)
      requires !(cmd.depth.StoresInput() && !w.healthy)
      modifies repo, repo.rows, store, journal
      ensures Valid() && repo.rows == old(repo.rows)
      ensures var s := Fresh(old(Answers()), cmd, inputParts(cmd.key), w);
        r == s.result && Answers() == s.cache && journal.events == old(journal.events) + s.events
    {
      hide StoreOk, WellFormed, Entries, Known, Hydrated;
      AppendNothing(journal.events);
      match w.client
      case Interrupted =>
        DropRun(id, cmd.key, i);
        r := Raised(RunInterrupted);
      case Raises =>
        CloseRun(id, Failure, cmd.key, i);
        r := Raised(ClientError);
      case Finishes(_, _, _, _) =>
        if !ShouldPersist(cmd, Succeeded(w.client)) {
          r := RecordUnstored(cmd.key, id, w.client, i);
        } else {
          OutputIsNotInput(w.client);
          r := RecordStored(cmd.key, id, Outcome(w.client), OutputDocuments(w.client),
            if cmd.depth.StoresInput() then inputParts(cmd.key) else [], w.faults, i);
        }
    }

    method RunAndRecord(cmd: Command, w: World) returns (r: Result)
      requires Valid()
      modifies this, repo, repo.rows, store, journal
      ensures Valid() && fresh(repo.rows - old(repo.rows))
      ensures var s := Fresh(old(Answers()), cmd, inputParts(cmd.key), w);
        && r == s.result && Answers() == s.cache && journal.events == old(journal.events) + s.events
        && clientCalls == old(clientCalls) + s.clientCalls
    {
      hide StoreOk, WellFormed, Entries, Known, EntryOf;
      if cmd.depth.StoresInput() && !w.healthy {
        AppendNothing(journal.events);
        return Raised(StoreUnavailable);
      }
      var id, i := OpenRun(cmd.key);
      var run := RunClient(w);
      r := Settle(cmd, id, w, i);
    }

    /** Under the key lock: look again, then run. */
    method RunFreshLocked(cmd: Command, w: World) returns (r: Result)
      requires Valid()
      modifies this, repo, repo.rows, store, journal
      ensures Valid() && fresh(repo.rows - old(repo.rows))
      ensures var s := ReplayOrRun(old(Answers()), cmd, inputParts(cmd.key), w);
        && r == s.result && Answers() == s.cache && journal.events == old(journal.events) + s.events
        && clientCalls == old(clientCalls) + s.clientCalls
    {
      hide StoreOk, WellFormed, Entries, Known, EntryOf;
      if cmd.mode.Cached? {
        var served := ServeCurrentIfHealthy(cmd, w);
        if served.Some? {
          return served.value;
        }
      }
      AppendNothing(old(journal.events));
      r := RunAndRecord(cmd, w);
    }

    /** CACHE and REFRESH at a depth that stores output: a first look without the lock, then the locked path. */
    method ServeOrRun(cmd: Command, w: World) returns (r: Result)
      requires Valid()
      modifies this, repo, repo.rows, store, journal
      ensures Valid() && fresh(repo.rows - old(repo.rows))
      ensures var s := ReplayOrRun(old(Answers()), cmd, inputParts(cmd.key), w);
        && r == s.result && Answers() == s.cache && journal.events == old(journal.events) + s.events
        && clientCalls == old(clientCalls) + s.clientCalls
    {
      hide StoreOk, WellFormed, Entries, Known, EntryOf;
      if !cmd.mode.Cached? {
        r := RunFreshLocked(cmd, w);
        return;
      }
      AppendNothing(journal.events);
      SecondLook(Answers(), cmd, inputParts(cmd.key), w);
      var served := ServeCurrentIfHealthy(cmd, w);
      if served.Some? {
        r := served.value;
      } else {
        r := RunFreshLocked(cmd, w);
      }
    }

    /** One call: what it does to the answers, the journal, the client and the caller is what the plain map says. */
    method Execute(cmd: Command, w: World) returns (r: Result)
      requires Valid()
      modifies this, repo, repo.rows, store, journal
      ensures Valid() && fresh(repo.rows - old(repo.rows))
      ensures var s := CacheSpec.Execute(old(Answers()), cmd, inputParts(cmd.key), w);
        && r == s.result && Answers() == s.cache && journal.events == old(journal.events) + s.events
        && clientCalls == old(clientCalls) + s.clientCalls
    {
      hide StoreOk, WellFormed, Entries, Known, EntryOf;
      AppendNothing(journal.events);
      if Uncacheable(cmd) {
        r := RunUncacheable(cmd, w);
      } else if cmd.depth.StoresOutput() && !w.contentAvailable {
        r := Raised(EncryptionTokenRequired);
      } else if cmd.mode.Offline? {
        r := ServeOffline(cmd, w);
      } else if !cmd.depth.StoresOutput() {
        r := RunMetered(cmd, w);
      } else {
        r := ServeOrRun(cmd, w);
      }
    }
  }
}
