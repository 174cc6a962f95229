/** Which interrupted recordings repair can bring back: put and mark faults on one side, repair on the other. */
module Recovery {
  import opened Executions
  import opened CacheModel
  import opened CacheSpec
  import opened Storing
  import opened Repairing
  import opened Purging
  import opened Engine
  import opened RepairService

  /** A STORED row's blob was put. */
  lemma {:induction false} StoredWasPut(id: ExecutionId, docs: seq<Document>, faults: nat -> Fault, n: nat, j: nat)
    requires j < n <= |docs|
    ensures Persisted(id, docs, faults, n)[j].status.Stored? ==>
      PutLanded(BlobKeyFor(id, docs[j].content), id, docs, faults, n)
  {
    StoredExactly(id, docs, faults, n, j);
    if LeftStored(docs, faults, n, j) {
      var m :| j <= m < n && LastMarked(docs, faults, n, j, m);
      assert BlobKeyFor(id, docs[j].content) == BlobKeyFor(id, docs[m].content);
    }
  }

  /** Some put of the document's bytes landed. */
  predicate SomePutLanded(docs: seq<Document>, faults: nat -> Fault, j: nat)
    requires j < |docs|
  {
    exists m :: 0 <= m < |docs| && docs[m].content == docs[j].content && faults(m) != PutFails
  }

  lemma {:induction false} PresentWhenPut(r: Row, blobs: Blobs, docs: seq<Document>, faults: nat -> Fault, j: nat)
    requires j < |docs| && r.artifacts == Persisted(r.id, docs, faults, |docs|)
    requires forall b: BlobKey :: b in blobs ==> b.owner != r.id
    ensures r.artifacts[j].blobKey == BlobKeyFor(r.id, docs[j].content)
    ensures r.artifacts[j].blobKey in PutAll(blobs, r.id, docs, faults, |docs|) <==> SomePutLanded(docs, faults, j)
    ensures r.artifacts[j].status.Stored? ==> r.artifacts[j].blobKey in PutAll(blobs, r.id, docs, faults, |docs|)
  {
    PersistedExact(r.id, docs, faults, |docs|);
    PutAllExact(blobs, r.id, docs, faults, |docs|);
    StoredWasPut(r.id, docs, faults, |docs|, j);
    assert r.artifacts[j] == MakeArtifact(r.id, docs[j], r.artifacts[j].status);
    var b := BlobKeyFor(r.id, docs[j].content);
    if SomePutLanded(docs, faults, j) {
      var m :| 0 <= m < |docs| && docs[m].content == docs[j].content && faults(m) != PutFails;
      assert b == BlobKeyFor(r.id, docs[m].content);
    }
  }

  /**
   * A success whose documents were all inserted becomes an answer at the next repair exactly when some mark is still
   * outstanding and every document's bytes landed in some put; and then it is the whole answer.
   */
  lemma {:induction false} RecoveredExactly(h: seq<Row>, blobs: Blobs, docs: seq<Document>, faults: nat -> Fault)
    requires h != [] && Newest(h).state == Success && !Newest(h).outputPersisted
    requires Newest(h).artifacts == Persisted(Newest(h).id, docs, faults, |docs|)
    requires forall b: BlobKey :: b in blobs ==> b.owner != Newest(h).id && blobs[b] == b.fingerprint.preimage
    ensures var r := Newest(h);
      var after := PutAll(blobs, r.id, docs, faults, |docs|);
      && (Promoted(h, after) <==>
            !AllStored(r.artifacts) && forall j :: 0 <= j < |docs| ==> SomePutLanded(docs, faults, j))
      && (Promoted(h, after) ==> EntryOf(r, after) == Whole(docs, r.inputPersisted))
  {
    var r := Newest(h);
    var after := PutAll(blobs, r.id, docs, faults, |docs|);
    forall j | 0 <= j < |docs|
      ensures r.artifacts[j].blobKey == BlobKeyFor(r.id, docs[j].content)
      ensures r.artifacts[j].blobKey in after <==> SomePutLanded(docs, faults, j)
      ensures r.artifacts[j].status.Stored? ==> r.artifacts[j].blobKey in after
    {
      PresentWhenPut(r, blobs, docs, faults, j);
    }
    assert StoredIsPresent(r.artifacts, after);
    PromotedExactly(h, after);
    if Present(r.artifacts, after) {
      RecordedHydrates(r, blobs, docs, faults);
    }
    hide PutAll, Persisted, EntryOf, Promoted;
  }

  lemma {:induction false} RecordedHydrates(r: Row, blobs: Blobs, docs: seq<Document>, faults: nat -> Fault)
    requires r.artifacts == Persisted(r.id, docs, faults, |docs|)
    requires forall b: BlobKey :: b in blobs ==> b.owner != r.id
    requires Present(r.artifacts, PutAll(blobs, r.id, docs, faults, |docs|))
    ensures EntryOf(r, PutAll(blobs, r.id, docs, faults, |docs|)) == Whole(docs, r.inputPersisted)
  {
    var after := PutAll(blobs, r.id, docs, faults, |docs|);
    PersistedExact(r.id, docs, faults, |docs|);
    PutAllExact(blobs, r.id, docs, faults, |docs|);
    hide PutAll, Persisted;
    forall j | 0 <= j < |docs|
      ensures Document(r.artifacts[j].kind, r.artifacts[j].name, after[r.artifacts[j].blobKey]) == docs[j]
    {
      assert r.artifacts[j] == MakeArtifact(r.id, docs[j], r.artifacts[j].status);
      assert r.artifacts[j].blobKey in after && r.artifacts[j].blobKey !in blobs;
    }
    assert Hydrated(r.artifacts, after) == docs;
  }

  // ---- which rows the faults leave STORED ----

  /** Document m gave row j its last mark, and it was a good one: every later mark of those bytes was lost. */
  predicate LastMarked(docs: seq<Document>, faults: nat -> Fault, n: nat, j: nat, m: nat)
    requires j <= m < n <= |docs|
  {
    && docs[m].content == docs[j].content && faults(m) == Fine
    && forall l :: m < l < n && docs[l].content == docs[j].content ==> faults(l) == MarkFails
  }

  predicate LeftStored(docs: seq<Document>, faults: nat -> Fault, n: nat, j: nat)
    requires j < n <= |docs|
  {
    exists m :: j <= m < n && LastMarked(docs, faults, n, j, m)
  }

  lemma {:induction false} LeftStoredNext(docs: seq<Document>, faults: nat -> Fault, n: nat, j: nat)
    requires j < n < |docs|
    ensures LeftStored(docs, faults, n + 1, j) <==>
      if docs[n].content != docs[j].content || faults(n) == MarkFails then LeftStored(docs, faults, n, j)
      else faults(n) == Fine
  {
    if docs[n].content != docs[j].content || faults(n) == MarkFails {
      if LeftStored(docs, faults, n, j) {
        var m :| j <= m < n && LastMarked(docs, faults, n, j, m);
        assert LastMarked(docs, faults, n + 1, j, m);
      }
      if LeftStored(docs, faults, n + 1, j) {
        var m :| j <= m < n + 1 && LastMarked(docs, faults, n + 1, j, m);
        assert LastMarked(docs, faults, n, j, m);
      }
    } else if faults(n) == Fine {
      assert LastMarked(docs, faults, n + 1, j, n);
    }
  }

  /**
   * A row ends STORED exactly when the last mark its bytes got was a good one; only marks after its insertion reach
   * it.
   */
  lemma {:induction false} StoredExactly(id: ExecutionId, docs: seq<Document>, faults: nat -> Fault, n: nat, j: nat)
    requires j < n <= |docs|
    ensures Persisted(id, docs, faults, n)[j].status.Stored? <==> LeftStored(docs, faults, n, j)
  {
    MarkedNext(id, docs, faults, n, j);
    hide Persisted, LeftStored;
    if j < n - 1 {
      StoredExactly(id, docs, faults, n - 1, j);
      LeftStoredNext(docs, faults, n - 1, j);
    } else {
      LeftStoredLast(docs, faults, j);
    }
  }

  /** What inserting, putting and marking document n - 1 does to the row of document j. */
  lemma {:induction false} MarkedNext(id: ExecutionId, docs: seq<Document>, faults: nat -> Fault, n: nat, j: nat)
    requires j < n <= |docs|
    ensures Persisted(id, docs, faults, n)[j].status.Stored? <==>
      if docs[n - 1].content == docs[j].content && faults(n - 1) != MarkFails then faults(n - 1) == Fine
      else j < n - 1 && Persisted(id, docs, faults, n - 1)[j].status.Stored?
  {
    PersistedExact(id, docs, faults, n - 1);
    var before := Persisted(id, docs, faults, n - 1) + [MakeArtifact(id, docs[n - 1], Pending)];
    assert before[j].blobKey == BlobKeyFor(id, docs[j].content);
  }

  lemma {:induction false} LeftStoredLast(docs: seq<Document>, faults: nat -> Fault, j: nat)
    requires j < |docs|
    ensures LeftStored(docs, faults, j + 1, j) <==> faults(j) == Fine
  {
    if faults(j) == Fine {
      assert LastMarked(docs, faults, j + 1, j, j);
    }
  }

  /**
   * Some row was not left STORED, so that the run is on repair's worklist; and every document's bytes landed in some
   * put.
   */
  predicate BringsBack(docs: seq<Document>, faults: nat -> Fault) {
    && !(forall j :: 0 <= j < |docs| ==> LeftStored(docs, faults, |docs|, j))
    && (forall j :: 0 <= j < |docs| ==> SomePutLanded(docs, faults, j))
  }

  // ---- a run recorded under faults, then repaired ----

  lemma {:induction false} FreshOwnsNothing(t: Table, blobs: Blobs, inputs: Inputs, next: nat, k: Key, i: nat)
    requires StoreOk(t, blobs, inputs, next) && Has(t, k, i) && t.hist[k][i] == FreshRow(t.hist[k][i].id)
    ensures forall b: BlobKey :: b in blobs ==> b.owner != t.hist[k][i].id && blobs[b] == b.fingerprint.preimage
  {
    forall b: BlobKey | b in blobs
      ensures b.owner != t.hist[k][i].id
    {
      if b.owner == t.hist[k][i].id {
        OwnerNames(t, blobs, inputs, next, k, i, b);
        assert false;
      }
    }
  }

  /**
   * The recorded row is the newest of its key; it awaits repair unless it was finalised, or every row of it is
   * STORED.
   */
  lemma {:induction false} RecordedNewest(t: Table, k: Key, i: nat, state: ExecutionState, docs: seq<Document>,
                                          faults: nat -> Fault)
    requires Has(t, k, i) && i == |t.hist[k]| - 1 && t.hist[k][i] == FreshRow(t.hist[k][i].id)
    ensures var r, h := t.hist[k][i], History(RecordedTable(t, k, i, state, docs, faults), k);
      && h != [] && Newest(h).id == r.id && Newest(h).state == state
      && Newest(h).artifacts == Persisted(r.id, docs, faults, |docs|)
      && (Newest(h).outputPersisted <==> AllFine(faults, |docs|)) && !Newest(h).inputPersisted
      && (AllStored(Newest(h).artifacts) <==> forall j :: 0 <= j < |docs| ==> LeftStored(docs, faults, |docs|, j))
  {
    var id := t.hist[k][i].id;
    forall j | 0 <= j < |docs|
      ensures Persisted(id, docs, faults, |docs|)[j].status.Stored? <==> LeftStored(docs, faults, |docs|, j)
    {
      StoredExactly(id, docs, faults, |docs|, j);
    }
    hide Persisted, LeftStored;
  }

  lemma {:induction false} RecordedPromoted(h: seq<Row>, blobs: Blobs, docs: seq<Document>, faults: nat -> Fault)
    requires h != [] && Newest(h).artifacts == Persisted(Newest(h).id, docs, faults, |docs|)
    requires !Newest(h).inputPersisted
    requires Newest(h).outputPersisted <==> AllFine(faults, |docs|)
    requires AllStored(Newest(h).artifacts) <==> forall j :: 0 <= j < |docs| ==> LeftStored(docs, faults, |docs|, j)
    requires forall b: BlobKey :: b in blobs ==> b.owner != Newest(h).id && blobs[b] == b.fingerprint.preimage
    ensures var after := PutAll(blobs, Newest(h).id, docs, faults, |docs|);
      && (Promoted(h, after) <==> Newest(h).state == Success && BringsBack(docs, faults))
      && (Promoted(h, after) ==> EntryOf(Newest(h), after) == Whole(docs, false))
  {
    if AllFine(faults, |docs|) {
      PersistedExact(Newest(h).id, docs, faults, |docs|);
      UnstoredEmpty(Newest(h).artifacts);
      hide LeftStored;
    } else if Newest(h).state == Success {
      RecoveredExactly(h, blobs, docs, faults);
      hide Promoted, LeftStored, PutAll, Persisted;
    }
  }

  /** The answer of a key whose newest run was recorded under these faults and then repaired. */
  function AnswerAfterBoth(before: Option<Entry>, state: ExecutionState, docs: seq<Document>,
                           faults: nat -> Fault): Option<Entry> {
    if state == Success && (AllFine(faults, |docs|) || BringsBack(docs, faults)) then Some(Whole(docs, false))
    else before
  }

  /**
   * Recording and then repairing, under any faults: the key ends with the run's whole answer exactly when the run
   * succeeded and either nothing failed or some row was left unstored with all bytes there; else it keeps its old one.
   */
  lemma {:induction false} RecordedThenRepaired(t: Table, blobs: Blobs, inputs: Inputs, next: nat, k: Key, i: nat,
                                                state: ExecutionState, output: seq<Document>, input: seq<Document>,
                                                faults: nat -> Fault)
    requires StoreOk(t, blobs, inputs, next) && Has(t, k, i) && i == |t.hist[k]| - 1
    requires t.hist[k][i] == FreshRow(t.hist[k][i].id) && state != InProgress
    requires (input == [] || input == inputs(k)) && forall j :: 0 <= j < |output| ==> !output[j].kind.IsInput()
    ensures var docs := output + input;
      var after := PutAll(blobs, t.hist[k][i].id, docs, faults, |docs|);
      var u := Repaired(RecordedTable(t, k, i, state, docs, faults), after);
      && StoreOk(u, after, inputs, next)
      && EntryIn(History(u, k), after) == AnswerAfterBoth(EntryIn(History(t, k), blobs), state, docs, faults)
  {
    var docs := output + input;
    var after := PutAll(blobs, t.hist[k][i].id, docs, faults, |docs|);
    var t' := RecordedTable(t, k, i, state, docs, faults);
    RecordedMeaning(t, blobs, inputs, next, k, i, state, output, input, faults);
    EntriesAt(t, blobs, k);
    EntriesAt(t', after, k);
    RepairMeaning(t', after, inputs, next);
    FreshOwnsNothing(t, blobs, inputs, next, k, i);
    RecordedNewest(t, k, i, state, docs, faults);
    hide *;
    RecordedPromoted(History(t', k), blobs, docs, faults);
    BothAnswers(History(t', k), after, EntryIn(History(t, k), blobs), state, docs, faults);
  }

  lemma {:induction false} BothAnswers(h: seq<Row>, after: Blobs, before: Option<Entry>, state: ExecutionState,
                                       docs: seq<Document>, faults: nat -> Fault)
    requires Promoted(h, after) <==> state == Success && BringsBack(docs, faults)
    requires h != [] && (Promoted(h, after) ==> EntryOf(Newest(h), after) == Whole(docs, false))
    requires EntryIn(h, after) ==
      if AllFine(faults, |docs|) && state == Success then Some(Whole(docs, false)) else before
    ensures AnswerAfterRepair(h, after) == AnswerAfterBoth(before, state, docs, faults)
  {
    hide Promoted, EntryIn, EntryOf, AllFine, BringsBack;
  }

  /** The answer a plain map holds for a key. */
  function AnswerOf(c: Cache, k: Key): Option<Entry> {
    if k in c then Some(c[k]) else None
  }

  lemma {:induction false} AnswersAgree(t: Table, blobs: Blobs, inputs: Inputs, next: nat, k: Key, i: nat,
                                        state: ExecutionState, output: seq<Document>, input: seq<Document>,
                                        faults: nat -> Fault, u: Table, after: Blobs)
    requires StoreOk(t, blobs, inputs, next) && Has(t, k, i) && i == |t.hist[k]| - 1
    requires t.hist[k][i] == FreshRow(t.hist[k][i].id) && state != InProgress
    requires (input == [] || input == inputs(k)) && forall j :: 0 <= j < |output| ==> !output[j].kind.IsInput()
    requires after == PutAll(blobs, t.hist[k][i].id, output + input, faults, |output + input|)
    requires u == Repaired(RecordedTable(t, k, i, state, output + input, faults), after)
    ensures StoreOk(u, after, inputs, next)
    ensures AnswerOf(Entries(u, after), k) ==
      AnswerAfterBoth(AnswerOf(Entries(t, blobs), k), state, output + input, faults)
  {
    RecordedThenRepaired(t, blobs, inputs, next, k, i, state, output, input, faults);
    EntriesAt(t, blobs, k);
    EntriesAt(u, after, k);
    hide RecordedTable, PutAll, Repaired, AnswerAfterBoth, Entries, EntryIn;
  }

  /**
   * The service's own steps: a run opened, its outcome and documents written under these faults, and later a repair of
   * the store.
   */
  method RecordThenRepair(engine: CachedMlExecutionService, service: RepairStoreService, k: Key, state: ExecutionState,
                          output: seq<Document>, input: seq<Document>, faults: nat -> Fault)
    requires engine.Valid() && service.repo == engine.repo && service.store == engine.store && state != InProgress
    requires (input == [] || input == engine.inputParts(k))
    requires forall j :: 0 <= j < |output| ==> !output[j].kind.IsInput()
    modifies engine`nextId, engine.repo, engine.repo.rows, engine.store
    ensures engine.Valid()
    ensures AnswerOf(engine.Answers(), k) ==
      AnswerAfterBoth(AnswerOf(old(engine.Answers()), k), state, output + input, faults)
  {
    ghost var c := engine.Answers();
    ghost var t := engine.repo.View();
    var id, i := engine.OpenRun(k);
    Appended(t, k, id);
    hide StoreOk, WellFormed, AnswerAfterBoth, AnswerOf, Entries, Append, FreshRow;
    StoreThenRepair(engine, service, k, id, state, output, input, faults, i);
  }

  method StoreThenRepair(engine: CachedMlExecutionService, service: RepairStoreService, k: Key, id: ExecutionId,
                         state: ExecutionState, output: seq<Document>, input: seq<Document>, faults: nat -> Fault,
                         ghost i: nat)
    requires engine.Valid() && service.repo == engine.repo && service.store == engine.store && state != InProgress
    requires At(engine.repo.View(), k, i, id) && engine.repo.View().hist[k][i] == FreshRow(id)
    requires i == |engine.repo.View().hist[k]| - 1
    requires (input == [] || input == engine.inputParts(k))
    requires forall j :: 0 <= j < |output| ==> !output[j].kind.IsInput()
    modifies engine.repo.rows, engine.store
    ensures engine.Valid()
    ensures AnswerOf(engine.Answers(), k) ==
      AnswerAfterBoth(AnswerOf(old(engine.Answers()), k), state, output + input, faults)
  {
    ghost var t, blobs := engine.repo.View(), engine.store.blobs;
    hide StoreOk, WellFormed, RecordedTable, PutAll, Repaired, Report, AnswerAfterBoth, AnswerOf, Entries, AllFine,
      FreshRow;
    var _ := engine.StoreRun(id, state, output + input, faults, k, i);
    var _ := service.Repair();
    AnswersAgree(t, blobs, engine.inputParts, engine.nextId, k, i, state, output, input, faults, engine.repo.View(),
                 engine.store.blobs);
  }

  function EmptyStreams(): seq<Document> {
    [Document(Stdout, None, []), Document(Stderr, None, [])]
  }

  function FirstPutFails(): nat -> Fault {
    j => if j == 0 then PutFails else Fine
  }

  /**
   * A success repair never sees: two empty streams share one blob, the first put is refused and the second lands. The
   * run is not finalised, for one document failed; every row is STORED, for the second mark covers both; and every byte
   * is there. Its row awaits nothing, so after recording and repair the key has the answer it had before.
   */
  lemma {:induction false} StoredButNeverRepaired(t: Table, blobs: Blobs, inputs: Inputs, next: nat, k: Key, i: nat)
    requires StoreOk(t, blobs, inputs, next) && Has(t, k, i) && i == |t.hist[k]| - 1
    requires t.hist[k][i] == FreshRow(t.hist[k][i].id)
    ensures var docs, faults := EmptyStreams(), FirstPutFails();
      var after := PutAll(blobs, t.hist[k][i].id, docs, faults, 2);
      var t' := RecordedTable(t, k, i, Success, docs, faults);
      var r := t'.hist[k][i];
      && !r.outputPersisted && AllStored(r.artifacts) && Present(r.artifacts, after)
      && Repaired(t', after).hist[k] == t'.hist[k]
      && EntryIn(Repaired(t', after).hist[k], after) == EntryIn(History(t, k), blobs)
  {
    var docs, faults := EmptyStreams(), FirstPutFails();
    assert docs + [] == docs;
    RecordedThenRepaired(t, blobs, inputs, next, k, i, Success, docs, [], faults);
    FreshOwnsNothing(t, blobs, inputs, next, k, i);
    RecordedNewest(t, k, i, Success, docs, faults);
    NothingToRepair(RecordedTable(t, k, i, Success, docs, faults).hist[k], blobs);
    hide StoreOk, Persisted, PutAll, LeftStored, EntryIn, RecordedTable, RepairedHistory, FirstPutFails, EmptyStreams,
      FreshRow;
  }

  lemma {:induction false} NothingToRepair(h: seq<Row>, blobs: Blobs)
    requires h != [] && Newest(h).artifacts == Persisted(Newest(h).id, EmptyStreams(), FirstPutFails(), 2)
    requires AllStored(Newest(h).artifacts) <==>
      forall j :: 0 <= j < 2 ==> LeftStored(EmptyStreams(), FirstPutFails(), 2, j)
    requires Newest(h).outputPersisted <==> AllFine(FirstPutFails(), 2)
    requires forall b: BlobKey :: b in blobs ==> b.owner != Newest(h).id
    ensures var after := PutAll(blobs, Newest(h).id, EmptyStreams(), FirstPutFails(), 2);
      && !Newest(h).outputPersisted && AllStored(Newest(h).artifacts) && Present(Newest(h).artifacts, after)
      && RepairedHistory(h, after) == h
  {
    var docs, faults := EmptyStreams(), FirstPutFails();
    OneStreamRefused();
    StoredAwaitsNothing(h, PutAll(blobs, Newest(h).id, docs, faults, 2));
    hide Persisted, PutAll, LeftStored, SomePutLanded, AllFine, EmptyStreams, FirstPutFails, RepairedHistory;
    PresentWhenPut(Newest(h), blobs, docs, faults, 0);
    PresentWhenPut(Newest(h), blobs, docs, faults, 1);
  }

  lemma {:induction false} StoredAwaitsNothing(h: seq<Row>, blobs: Blobs)
    requires h != [] && AllStored(Newest(h).artifacts)
    ensures RepairedHistory(h, blobs) == h
  {
    UnstoredEmpty(Newest(h).artifacts);
  }

  lemma {:induction false} OneStreamRefused()
    ensures |EmptyStreams()| == 2 && !AllFine(FirstPutFails(), 2)
    ensures forall j :: 0 <= j < 2 ==>
      LeftStored(EmptyStreams(), FirstPutFails(), 2, j) && SomePutLanded(EmptyStreams(), FirstPutFails(), j)
  {
    var docs, faults := EmptyStreams(), FirstPutFails();
    assert faults(0) == PutFails;
    forall j: nat | j < 2
      ensures LeftStored(docs, faults, 2, j) && SomePutLanded(docs, faults, j)
    {
      assert LastMarked(docs, faults, 2, j, 1);
      assert docs[1].content == docs[j].content;
    }
  }

  // ---- no blob of a STORED row is lost by what the services do ----

  ghost predicate NoneLost(t: Table, blobs: Blobs) {
    forall k, i :: Has(t, k, i) ==> StoredIsPresent(t.hist[k][i].artifacts, blobs)
  }

  lemma {:induction false} OpeningLosesNone(t: Table, blobs: Blobs, k: Key, id: ExecutionId)
    requires NoneLost(t, blobs)
    ensures NoneLost(Append(t, k, FreshRow(id)), blobs)
  {
    var u := Append(t, k, FreshRow(id));
    forall l, j | Has(u, l, j)
      ensures StoredIsPresent(u.hist[l][j].artifacts, blobs)
    {
      assert Has(t, l, j) || u.hist[l][j] == FreshRow(id);
    }
  }

  lemma {:induction false} RecordingLosesNone(t: Table, blobs: Blobs, inputs: Inputs, next: nat, k: Key, i: nat,
                                              state: ExecutionState, docs: seq<Document>, faults: nat -> Fault)
    requires StoreOk(t, blobs, inputs, next) && NoneLost(t, blobs)
    requires Has(t, k, i) && t.hist[k][i] == FreshRow(t.hist[k][i].id)
    ensures NoneLost(RecordedTable(t, k, i, state, docs, faults), PutAll(blobs, t.hist[k][i].id, docs, faults, |docs|))
  {
    var id := t.hist[k][i].id;
    var u, after := RecordedTable(t, k, i, state, docs, faults), PutAll(blobs, id, docs, faults, |docs|);
    PutAllExact(blobs, id, docs, faults, |docs|);
    FreshOwnsNothing(t, blobs, inputs, next, k, i);
    StoredRowsHaveBlobs(id, blobs, docs, faults);
    hide StoreOk;
    forall l, j | Has(u, l, j)
      ensures StoredIsPresent(u.hist[l][j].artifacts, after)
    {
      assert Has(t, l, j);
      assert u.hist[l][j].artifacts ==
        if l == k && j == i then Persisted(id, docs, faults, |docs|) else t.hist[l][j].artifacts;
      hide RecordedTable, Persisted, PutAll;
    }
  }

  lemma {:induction false} StoredRowsHaveBlobs(id: ExecutionId, blobs: Blobs, docs: seq<Document>, faults: nat -> Fault)
    requires forall b: BlobKey :: b in blobs ==> b.owner != id
    ensures StoredIsPresent(Persisted(id, docs, faults, |docs|), PutAll(blobs, id, docs, faults, |docs|))
  {
    var r := FreshRow(id).(artifacts := Persisted(id, docs, faults, |docs|));
    forall n: nat | n < |docs| {
      PresentWhenPut(r, blobs, docs, faults, n);
    }
    hide Persisted, PutAll;
  }

  lemma {:induction false} RepairLosesNone(t: Table, blobs: Blobs)
    requires NoneLost(t, blobs)
    ensures NoneLost(Repaired(t, blobs), blobs)
  {
    var u := Repaired(t, blobs);
    forall k, i | Has(u, k, i)
      ensures StoredIsPresent(u.hist[k][i].artifacts, blobs)
    {
      assert Has(t, k, i);
    }
  }

  /** A back-fill only adds blobs, and marks STORED only what it put. */
  lemma {:induction false} BackFillLosesNone(t: Table, blobs: Blobs, k: Key, i: nat, docs: seq<Document>,
                                             faults: nat -> Fault)
    requires NoneLost(t, blobs) && Has(t, k, i)
    ensures NoneLost(RemarkedTable(t, k, i, docs, faults, |docs|), PutAll(blobs, t.hist[k][i].id, docs, faults, |docs|))
  {
    var r := Attached(t.hist[k][i], docs);
    var u, after := RemarkedTable(t, k, i, docs, faults, |docs|), PutAll(blobs, r.id, docs, faults, |docs|);
    PutAllExact(blobs, r.id, docs, faults, |docs|);
    forall l, j | Has(u, l, j)
      ensures StoredIsPresent(u.hist[l][j].artifacts, after)
    {
      assert Has(t, l, j);
      if l == k && j == i {
        assert StoredIsPresent(r.artifacts, blobs);
        RemarkedStored(r.artifacts, r.id, docs, faults, |docs|, blobs);
      }
    }
  }

  lemma {:induction false} RemarkedStored(artifacts: seq<Artifact>, id: ExecutionId, docs: seq<Document>,
                                          faults: nat -> Fault, n: nat, blobs: Blobs)
    requires n <= |docs| && StoredIsPresent(artifacts, blobs)
    ensures StoredIsPresent(Remarked(artifacts, id, docs, faults, n), PutAll(blobs, id, docs, faults, n))
  {
    if n > 0 {
      RemarkedStored(artifacts, id, docs, faults, n - 1, blobs);
    }
  }

  /** A purge takes the blobs of its own key's rows, and leaves those rows naming none. */
  lemma {:induction false} PurgeLosesNone(t: Table, blobs: Blobs, inputs: Inputs, next: nat, k: Key, u: Table,
                                          sizes: map<BlobKey, nat>)
    requires StoreOk(t, blobs, inputs, next) && NoneLost(t, blobs) && SizesOf(History(t, k), sizes)
    requires PurgedKey(t, k, u)
    ensures NoneLost(u, blobs - sizes.Keys)
  {
    forall l, j, n | Has(u, l, j) && 0 <= n < |u.hist[l][j].artifacts| && u.hist[l][j].artifacts[n].status.Stored?
      ensures u.hist[l][j].artifacts[n].blobKey in blobs - sizes.Keys
    {
      var b := u.hist[l][j].artifacts[n].blobKey;
      assert u.hist[l][j] == History(u, l)[j];
      assert l != k;
      assert History(u, l) == History(t, l);
      assert Has(t, l, j) && NamedAt(t, l, j, b);
      if b in sizes {
        OthersNameNone(t, inputs, next, k, l, j, b);
        assert false;
      }
    }
  }

  /** A quarantine that goes through takes the row with its blobs. */
  lemma {:induction false} QuarantineLosesNone(t: Table, blobs: Blobs, inputs: Inputs, next: nat, k: Key, i: nat,
                                               blobs': Blobs)
    requires StoreOk(t, blobs, inputs, next) && NoneLost(t, blobs) && Has(t, k, i)
    requires forall b :: b in blobs' <==> b in blobs && !Names(t.hist[k][i], b)
    ensures NoneLost(RemoveRow(t, k, i), blobs')
  {
    var u := RemoveRow(t, k, i);
    forall l, j, n | Has(u, l, j) && 0 <= n < |u.hist[l][j].artifacts| && u.hist[l][j].artifacts[n].status.Stored?
      ensures u.hist[l][j].artifacts[n].blobKey in blobs'
    {
      RemovedRowAt(t, k, i, l, j);
      hide RemoveRow, WellFormed;
      var m := Shift(k, i, l, j);
      OtherRowsNameNone(t, inputs, next, k, i, l, m, n);
    }
  }

  lemma {:induction false} RemovedRowAt(t: Table, k: Key, i: nat, l: Key, j: int)
    requires WellFormed(t) && Has(t, k, i) && Has(RemoveRow(t, k, i), l, j)
    ensures var m := Shift(k, i, l, j);
      Has(t, l, m) && RemoveRow(t, k, i).hist[l][j] == t.hist[l][m] && !(l == k && m == i)
  {
  }

  lemma {:induction false} OtherRowsNameNone(t: Table, inputs: Inputs, next: nat, k: Key, i: nat, l: Key, m: nat,
                                             n: nat)
    requires WellFormed(t) && RowsOk(t, inputs, next) && Has(t, k, i) && Has(t, l, m) && !(l == k && m == i)
    requires n < |t.hist[l][m].artifacts|
    ensures !Names(t.hist[k][i], t.hist[l][m].artifacts[n].blobKey)
  {
    var b := t.hist[l][m].artifacts[n].blobKey;
    if Names(t.hist[k][i], b) {
      assert At(t, k, i, b.owner) && At(t, l, m, b.owner);
      assert false;
    }
  }
}
