/** What storing documents one at a time leaves in rows and blobs, and what that means for the answers. */
module Storing {
  import opened Executions
  import opened CacheModel
  import opened CacheSpec

  // ---- what storing a list of documents leaves behind ----

  function Marked(artifacts: seq<Artifact>, b: BlobKey, fault: Fault): seq<Artifact> {
    match fault
    case Fine => ResolveAll(artifacts, b, Stored)
    case PutFails => ResolveAll(artifacts, b, Failed)
    case MarkFails => artifacts
  }

  /** The artifact rows once the first `n` documents have been inserted, put and marked. */
  function Persisted(id: ExecutionId, docs: seq<Document>, faults: nat -> Fault, n: nat): (a: seq<Artifact>)
    requires n <= |docs|
    ensures |a| == n
  {
    if n == 0 then []
    else Marked(Persisted(id, docs, faults, n - 1) + [MakeArtifact(id, docs[n - 1], Pending)],
                BlobKeyFor(id, docs[n - 1].content), faults(n - 1))
  }

  /** Each row is its document's, whatever its status; without faults every status is STORED. */
  lemma {:induction false} PersistedExact(id: ExecutionId, docs: seq<Document>, faults: nat -> Fault, n: nat)
    requires n <= |docs|
    ensures var a := Persisted(id, docs, faults, n);
      && (forall j :: 0 <= j < n ==> a[j] == MakeArtifact(id, docs[j], a[j].status))
      && (AllFine(faults, n) ==> AllStored(a))
  {
    if n > 0 {
      PersistedExact(id, docs, faults, n - 1);
    }
  }

  /** The artifact rows of a servable entry once the first `n` inputs have been put and marked again. */
  function Remarked(artifacts: seq<Artifact>, id: ExecutionId, docs: seq<Document>, faults: nat -> Fault,
                    n: nat): (a: seq<Artifact>)
    requires n <= |docs|
    ensures |a| == |artifacts|
    ensures forall j :: 0 <= j < |a| ==> a[j] == artifacts[j].(status := a[j].status)
  {
    if n == 0 then artifacts
    else Marked(Remarked(artifacts, id, docs, faults, n - 1), BlobKeyFor(id, docs[n - 1].content), faults(n - 1))
  }

  /** The blobs once the first `n` documents have been put: exactly the puts that landed were added. */
  function PutAll(blobs: Blobs, id: ExecutionId, docs: seq<Document>, faults: nat -> Fault, n: nat): Blobs
    requires n <= |docs|
  {
    if n == 0 then blobs
    else BlobStored(PutAll(blobs, id, docs, faults, n - 1), id, docs[n - 1], faults(n - 1))
  }

  lemma {:induction false} PutAllExact(blobs: Blobs, id: ExecutionId, docs: seq<Document>, faults: nat -> Fault, n: nat)
    requires n <= |docs|
    ensures var r := PutAll(blobs, id, docs, faults, n);
      forall b ::
        && (b in r <==> b in blobs || PutLanded(b, id, docs, faults, n))
        && (b in r ==> r[b] == if PutLanded(b, id, docs, faults, n) then b.fingerprint.preimage else blobs[b])
  {
    if n > 0 {
      PutAllExact(blobs, id, docs, faults, n - 1);
    }
  }

  predicate PutLanded(b: BlobKey, id: ExecutionId, docs: seq<Document>, faults: nat -> Fault, n: nat)
    requires n <= |docs|
  {
    exists j :: 0 <= j < n && b == BlobKeyFor(id, docs[j].content) && faults(j) != PutFails
  }

  /** `t` with row (k, i) carrying the first `n` documents. */
  function PersistedTable(t: Table, k: Key, i: nat, docs: seq<Document>, faults: nat -> Fault, n: nat): Table
    requires Has(t, k, i) && n <= |docs|
  {
    SetRow(t, k, i, t.hist[k][i].(artifacts := Persisted(t.hist[k][i].id, docs, faults, n)))
  }

  lemma {:induction false} PersistedStart(t: Table, k: Key, i: nat, docs: seq<Document>, faults: nat -> Fault)
    requires Has(t, k, i) && t.hist[k][i].artifacts == []
    ensures PersistedTable(t, k, i, docs, faults, 0) == t
  {
    SetRowSame(t, k, i);
  }

  /** `t` once one more document of row (k, i) has been inserted, put and marked. */
  function DocumentStored(t: Table, k: Key, i: nat, d: Document, fault: Fault): Table
    requires Has(t, k, i)
  {
    var r := t.hist[k][i];
    SetRow(t, k, i, r.(artifacts :=
      Marked(r.artifacts + [MakeArtifact(r.id, d, Pending)], BlobKeyFor(r.id, d.content), fault)))
  }

  function BlobStored(blobs: Blobs, id: ExecutionId, d: Document, fault: Fault): Blobs {
    if fault == PutFails then blobs else blobs[BlobKeyFor(id, d.content) := d.content]
  }

  lemma {:induction false} PersistedStep(t: Table, k: Key, i: nat, docs: seq<Document>, faults: nat -> Fault, n: nat)
    requires Has(t, k, i) && n < |docs|
    ensures DocumentStored(PersistedTable(t, k, i, docs, faults, n), k, i, docs[n], faults(n))
         == PersistedTable(t, k, i, docs, faults, n + 1)
    ensures At(PersistedTable(t, k, i, docs, faults, n), k, i, t.hist[k][i].id)
    ensures AllFine(faults, n + 1) <==> AllFine(faults, n) && faults(n) == Fine
    ensures forall blobs: Blobs ::
      PutAll(blobs, t.hist[k][i].id, docs, faults, n + 1)
      == BlobStored(PutAll(blobs, t.hist[k][i].id, docs, faults, n), t.hist[k][i].id, docs[n], faults(n))
  {
    var r := t.hist[k][i];
    SetRowTwice(t, k, i, r.(artifacts := Persisted(r.id, docs, faults, n)),
                r.(artifacts := Persisted(r.id, docs, faults, n + 1)));
  }

  lemma {:induction false} PersistedNames(r: Row, docs: seq<Document>, faults: nat -> Fault, b: BlobKey)
    requires r.artifacts == Persisted(r.id, docs, faults, |docs|)
    ensures Names(r, b) <==> exists j :: 0 <= j < |docs| && b == BlobKeyFor(r.id, docs[j].content)
  {
    PersistedExact(r.id, docs, faults, |docs|);
    forall j | 0 <= j < |docs|
      ensures r.artifacts[j].blobKey == BlobKeyFor(r.id, docs[j].content)
    {
      assert r.artifacts[j] == MakeArtifact(r.id, docs[j], r.artifacts[j].status);
    }
  }

  lemma {:induction false} PersistedRowOk(r: Row, inputs: seq<Document>, output: seq<Document>, input: seq<Document>,
                                          faults: nat -> Fault)
    requires r.artifacts == Persisted(r.id, output + input, faults, |output + input|) && r.state != InProgress
    requires !r.superseded
    requires (input == [] || input == inputs) && forall j :: 0 <= j < |output| ==> !output[j].kind.IsInput()
    ensures RowOk(r, inputs)
  {
    PersistedExact(r.id, output + input, faults, |output + input|);
    var docs := output + input;
    forall j | 0 <= j < |docs|
      ensures r.artifacts[j] == MakeArtifact(r.id, docs[j], r.artifacts[j].status)
    {
    }
    if HasInput(r.artifacts) {
      assert input == inputs;
      forall n | 0 <= n < |inputs|
        ensures Names(r, BlobKeyFor(r.id, inputs[n].content))
      {
        assert docs[|output| + n] == inputs[n];
        PersistedNames(r, docs, faults, BlobKeyFor(r.id, inputs[n].content));
      }
    }
  }

  lemma {:induction false} PutAllGrows(r: Row, blobs: Blobs, docs: seq<Document>, faults: nat -> Fault)
    requires forall b :: b in blobs ==> blobs[b] == b.fingerprint.preimage
    requires forall j :: 0 <= j < |docs| ==> Names(r, BlobKeyFor(r.id, docs[j].content))
    ensures Grown(blobs, PutAll(blobs, r.id, docs, faults, |docs|), r)
  {
    PutAllExact(blobs, r.id, docs, faults, |docs|);
  }

  lemma {:induction false} PersistedHydrates(r: Row, blobs: Blobs, docs: seq<Document>, faults: nat -> Fault)
    requires r.artifacts == Persisted(r.id, docs, faults, |docs|) && AllFine(faults, |docs|)
    ensures EntryOf(r, PutAll(blobs, r.id, docs, faults, |docs|)) == Whole(docs, r.inputPersisted)
  {
    PersistedExact(r.id, docs, faults, |docs|);
    var blobs' := PutAll(blobs, r.id, docs, faults, |docs|);
    PutAllExact(blobs, r.id, docs, faults, |docs|);
    forall j | 0 <= j < |docs|
      ensures r.artifacts[j].blobKey in blobs'
      ensures Document(r.artifacts[j].kind, r.artifacts[j].name, blobs'[r.artifacts[j].blobKey]) == docs[j]
    {
      assert r.artifacts[j] == MakeArtifact(r.id, docs[j], r.artifacts[j].status);
      assert PutLanded(BlobKeyFor(r.id, docs[j].content), r.id, docs, faults, |docs|);
    }
    assert Hydrated(r.artifacts, blobs') == docs;
  }

  /**
   * Documents stored against an in-flight row leave every answer as it was; stored completely, they can be replayed.
   */
  lemma {:induction false} PersistedMeaning(t: Table, blobs: Blobs, inputs: Inputs, next: nat, k: Key, i: nat,
                                            output: seq<Document>, input: seq<Document>, faults: nat -> Fault)
    requires StoreOk(t, blobs, inputs, next) && Has(t, k, i)
    requires var r := t.hist[k][i];
      r.state != InProgress && !r.outputPersisted && !r.inputPersisted && !r.superseded && r.artifacts == []
    requires (input == [] || input == inputs(k)) && forall j :: 0 <= j < |output| ==> !output[j].kind.IsInput()
    ensures var docs := output + input;
      var r := t.hist[k][i].(artifacts := Persisted(t.hist[k][i].id, docs, faults, |docs|));
      var blobs' := PutAll(blobs, r.id, docs, faults, |docs|);
      && StoreOk(SetRow(t, k, i, r), blobs', inputs, next)
      && Entries(SetRow(t, k, i, r), blobs') == Entries(t, blobs)
      && (AllFine(faults, |docs|) ==> EntryOf(r, blobs') == Whole(docs, false))
  {
    var docs := output + input;
    var r := t.hist[k][i].(artifacts := Persisted(t.hist[k][i].id, docs, faults, |docs|));
    PersistedRowOk(r, inputs(k), output, input, faults);
    forall b {
      PersistedNames(r, docs, faults, b);
    }
    PutAllGrows(r, blobs, docs, faults);
    RowRewritten(t, blobs, inputs, next, k, i, r, PutAll(blobs, r.id, docs, faults, |docs|));
    if AllFine(faults, |docs|) {
      PersistedHydrates(r, blobs, docs, faults);
    }
  }

  function Pendings(id: ExecutionId, docs: seq<Document>): (a: seq<Artifact>)
    ensures |a| == |docs|
    ensures forall j :: 0 <= j < |a| ==> a[j] == MakeArtifact(id, docs[j], Pending)
  {
    seq(|docs|, j requires 0 <= j < |docs| => MakeArtifact(id, docs[j], Pending))
  }

  /** The row a back-fill leaves: the input rows attached, then each input put and marked. */
  function BackFilled(r: Row, docs: seq<Document>, faults: nat -> Fault): Row {
    var r' := Attached(r, docs);
    r'.(artifacts := Remarked(r'.artifacts, r.id, docs, faults, |docs|))
  }

  lemma {:induction false} BackFilledRowOk(r: Row, docs: seq<Document>, faults: nat -> Fault)
    requires RowOk(r, docs) && Servable(r)
    ensures RowOk(BackFilled(r, docs, faults), docs) && NamesKept(r, BackFilled(r, docs, faults))
    ensures forall j :: 0 <= j < |docs| ==> Names(BackFilled(r, docs, faults), BlobKeyFor(r.id, docs[j].content))
  {
    var u := BackFilled(r, docs, faults);
    var base := if HasInput(r.artifacts) then r.artifacts else r.artifacts + Pendings(r.id, docs);
    assert |u.artifacts| == |base| && forall j :: 0 <= j < |base| ==>
      u.artifacts[j] == base[j].(status := u.artifacts[j].status);
    forall j | 0 <= j < |r.artifacts|
      ensures u.artifacts[j].blobKey == r.artifacts[j].blobKey
    {
      assert base[j] == r.artifacts[j];
    }
    forall j | 0 <= j < |docs|
      ensures Names(u, BlobKeyFor(r.id, docs[j].content))
    {
      var b := BlobKeyFor(r.id, docs[j].content);
      if HasInput(r.artifacts) {
        var m :| 0 <= m < |r.artifacts| && r.artifacts[m].blobKey == b;
        assert u.artifacts[m].blobKey == b;
      } else {
        assert base[|r.artifacts| + j] == Pendings(r.id, docs)[j];
        assert u.artifacts[|r.artifacts| + j].blobKey == b;
      }
    }
    BackFilledOwn(r, docs, faults);
    hide OwnArtifacts, BackFilled, Pendings;
  }

  lemma {:induction false} BackFilledOwn(r: Row, docs: seq<Document>, faults: nat -> Fault)
    requires OwnArtifacts(r)
    ensures OwnArtifacts(BackFilled(r, docs, faults))
  {
    var base := Attached(r, docs).artifacts;
    forall m | 0 <= m < |base|
      ensures base[m].blobKey.owner == r.id && base[m].size == |base[m].blobKey.fingerprint.preimage|
    {
      if m < |r.artifacts| {
        assert base[m] == r.artifacts[m];
      } else {
        assert base[m] == Pendings(r.id, docs)[m - |r.artifacts|];
      }
    }
    hide Pendings, Remarked;
  }

  /** Puts of bytes that are already there change nothing. */
  lemma {:induction false} PutAllIdle(r: Row, blobs: Blobs, docs: seq<Document>, faults: nat -> Fault)
    requires forall b :: b in blobs ==> blobs[b] == b.fingerprint.preimage
    requires forall j :: 0 <= j < |docs| ==> BlobKeyFor(r.id, docs[j].content) in blobs
    ensures PutAll(blobs, r.id, docs, faults, |docs|) == blobs
  {
    PutAllExact(blobs, r.id, docs, faults, |docs|);
  }

  lemma {:induction false} RemarkedEntry(r: Row, docs: seq<Document>, faults: nat -> Fault, blobs: Blobs)
    requires HasInput(r.artifacts)
    ensures EntryOf(BackFilled(r, docs, faults), blobs) == EntryOf(r, blobs)
  {
    var u := BackFilled(r, docs, faults);
    assert forall j :: 0 <= j < |r.artifacts| ==> u.artifacts[j] == r.artifacts[j].(status := u.artifacts[j].status);
    if Present(r.artifacts, blobs) {
      assert Hydrated(u.artifacts, blobs) == Hydrated(r.artifacts, blobs);
    }
  }

  /** The artifact rows of a fresh back-fill, position by position. */
  lemma {:induction false} BackFilledAt(r: Row, docs: seq<Document>, faults: nat -> Fault, j: nat)
    requires !HasInput(r.artifacts) && j < |r.artifacts| + |docs|
    ensures var u := BackFilled(r, docs, faults);
      && |u.artifacts| == |r.artifacts| + |docs|
      && (j < |r.artifacts| ==> u.artifacts[j] == r.artifacts[j].(status := u.artifacts[j].status))
      && (|r.artifacts| <= j ==> u.artifacts[j] == MakeArtifact(r.id, docs[j - |r.artifacts|], u.artifacts[j].status))
  {
  }

  /** The bytes of an input are there after a back-fill exactly when the answer had them or a put of them landed. */
  lemma {:induction false} BackFilledInput(r: Row, docs: seq<Document>, faults: nat -> Fault, blobs: Blobs, j: nat)
    requires OwnArtifacts(r) && Present(r.artifacts, blobs) && j < |docs|
    requires forall b :: b in blobs ==> blobs[b] == b.fingerprint.preimage
    requires forall b :: b in blobs && b.owner == r.id ==> Names(r, b)
    ensures BlobKeyFor(r.id, docs[j].content) in PutAll(blobs, r.id, docs, faults, |docs|)
      <==> Available(Hydrated(r.artifacts, blobs), docs, faults, docs[j].content)
  {
    PutAllExact(blobs, r.id, docs, faults, |docs|);
    var had := Hydrated(r.artifacts, blobs);
    var b := BlobKeyFor(r.id, docs[j].content);
    if b in blobs {
      var m :| 0 <= m < |r.artifacts| && r.artifacts[m].blobKey == b;
      assert had[m].content == docs[j].content;
    }
    if m :| 0 <= m < |had| && had[m].content == docs[j].content {
      assert blobs[r.artifacts[m].blobKey] == r.artifacts[m].blobKey.fingerprint.preimage;
      assert r.artifacts[m].blobKey == b;
    }
  }

  lemma {:induction false} BackFilledEntry(r: Row, docs: seq<Document>, faults: nat -> Fault, blobs: Blobs)
    requires OwnArtifacts(r) && !HasInput(r.artifacts) && Present(r.artifacts, blobs)
    requires forall b :: b in blobs ==> blobs[b] == b.fingerprint.preimage
    requires forall b :: b in blobs && b.owner == r.id ==> Names(r, b)
    ensures var had := Hydrated(r.artifacts, blobs);
      EntryOf(BackFilled(r, docs, faults), PutAll(blobs, r.id, docs, faults, |docs|))
      == AfterBackFill(had, docs, faults)
  {
    var had := Hydrated(r.artifacts, blobs);
    var u := BackFilled(r, docs, faults);
    var blobs' := PutAll(blobs, r.id, docs, faults, |docs|);
    if BackFillHolds(had, docs, faults) {
      forall j: nat | j < |docs| {
        BackFilledInput(r, docs, faults, blobs, j);
      }
      BackFilledWhole(r, docs, faults, blobs);
    } else {
      var j :| 0 <= j < |docs| && !Available(had, docs, faults, docs[j].content);
      BackFilledInput(r, docs, faults, blobs, j);
      BackFilledAt(r, docs, faults, |r.artifacts| + j);
      assert u.artifacts[|r.artifacts| + j].blobKey !in blobs';
    }
  }

  lemma {:induction false} BackFilledDocument(r: Row, docs: seq<Document>, faults: nat -> Fault, blobs: Blobs, j: nat)
    requires OwnArtifacts(r) && !HasInput(r.artifacts) && Present(r.artifacts, blobs)
    requires forall b :: b in blobs ==> blobs[b] == b.fingerprint.preimage
    requires var blobs' := PutAll(blobs, r.id, docs, faults, |docs|);
      forall j :: 0 <= j < |docs| ==> BlobKeyFor(r.id, docs[j].content) in blobs'
    requires j < |r.artifacts| + |docs|
    ensures var u, blobs' := BackFilled(r, docs, faults), PutAll(blobs, r.id, docs, faults, |docs|);
      && |u.artifacts| == |r.artifacts| + |docs|
      && u.artifacts[j].blobKey in blobs'
      && Document(u.artifacts[j].kind, u.artifacts[j].name, blobs'[u.artifacts[j].blobKey])
         == (Hydrated(r.artifacts, blobs) + docs)[j]
  {
    var u := BackFilled(r, docs, faults);
    BackFilledAt(r, docs, faults, j);
    var b := u.artifacts[j].blobKey;
    KeptBlob(blobs, r.id, docs, faults, b);
    var had := Hydrated(r.artifacts, blobs);
    if j < |r.artifacts| {
      assert b == r.artifacts[j].blobKey && b in blobs;
      assert (had + docs)[j] == had[j] == Document(r.artifacts[j].kind, r.artifacts[j].name, blobs[b]);
    } else {
      assert b == BlobKeyFor(r.id, docs[j - |r.artifacts|].content);
      assert (had + docs)[j] == docs[j - |r.artifacts|];
    }
  }

  lemma {:induction false} KeptBlob(blobs: Blobs, id: ExecutionId, docs: seq<Document>, faults: nat -> Fault,
                                    b: BlobKey)
    requires forall c :: c in blobs ==> blobs[c] == c.fingerprint.preimage
    ensures var blobs' := PutAll(blobs, id, docs, faults, |docs|);
      (b in blobs ==> b in blobs') && (b in blobs' ==> blobs'[b] == b.fingerprint.preimage)
  {
    PutAllExact(blobs, id, docs, faults, |docs|);
  }

  lemma {:induction false} BackFilledWhole(r: Row, docs: seq<Document>, faults: nat -> Fault, blobs: Blobs)
    requires OwnArtifacts(r) && !HasInput(r.artifacts) && Present(r.artifacts, blobs)
    requires forall b :: b in blobs ==> blobs[b] == b.fingerprint.preimage
    requires var blobs' := PutAll(blobs, r.id, docs, faults, |docs|);
      forall j :: 0 <= j < |docs| ==> BlobKeyFor(r.id, docs[j].content) in blobs'
    ensures EntryOf(BackFilled(r, docs, faults), PutAll(blobs, r.id, docs, faults, |docs|))
      == Whole(Hydrated(r.artifacts, blobs) + docs, true)
  {
    var had := Hydrated(r.artifacts, blobs);
    var u, blobs' := BackFilled(r, docs, faults), PutAll(blobs, r.id, docs, faults, |docs|);
    assert |u.artifacts| == |had| + |docs|;
    forall j: nat | j < |u.artifacts| {
      BackFilledDocument(r, docs, faults, blobs, j);
    }
    assert Hydrated(u.artifacts, blobs') == had + docs;
  }

  /** A blob of row (k, i) is named by that row. */
  lemma {:induction false} OwnerNames(t: Table, blobs: Blobs, inputs: Inputs, next: nat, k: Key, i: nat, b: BlobKey)
    requires StoreOk(t, blobs, inputs, next) && Has(t, k, i) && b in blobs && b.owner == t.hist[k][i].id
    ensures Names(t.hist[k][i], b)
  {
    var l, j :| NamedAt(t, l, j, b);
    var m :| 0 <= m < |t.hist[l][j].artifacts| && t.hist[l][j].artifacts[m].blobKey == b;
    assert At(t, l, j, b.owner) && At(t, k, i, b.owner);
  }

  lemma {:induction false} BackFillRewrites(t: Table, blobs: Blobs, inputs: Inputs, next: nat, k: Key, i: nat,
                                            faults: nat -> Fault)
    requires StoreOk(t, blobs, inputs, next) && Has(t, k, i) && Servable(t.hist[k][i])
    ensures var u := BackFilled(t.hist[k][i], inputs(k), faults);
      var blobs' := PutAll(blobs, t.hist[k][i].id, inputs(k), faults, |inputs(k)|);
      && StoreOk(SetRow(t, k, i, u), blobs', inputs, next)
      && Entries(SetRow(t, k, i, u), blobs') == Entries(t, blobs)[k := EntryOf(u, blobs')]
  {
    var r := t.hist[k][i];
    var u := BackFilled(r, inputs(k), faults);
    assert RowOk(r, inputs(k));
    BackFilledRowOk(r, inputs(k), faults);
    PutAllGrows(u, blobs, inputs(k), faults);
    hide RowOk, PutAll, Grown, NamesKept, StoreOk;
    RowRewritten(t, blobs, inputs, next, k, i, u, PutAll(blobs, r.id, inputs(k), faults, |inputs(k)|));
  }

  /** Input that is already kept is put again and changes nothing; new input is appended to the answer. */
  function BackFilledAnswers(c: Cache, artifacts: seq<Artifact>, blobs: Blobs, k: Key, inputs: seq<Document>,
                             faults: nat -> Fault): Cache
    requires Present(artifacts, blobs)
  {
    if HasInput(artifacts) then c else c[k := AfterBackFill(Hydrated(artifacts, blobs), inputs, faults)]
  }

  /** What a DATASET hit makes of a whole answer whose input was not kept. */
  lemma {:induction false} BackFillMeaning(t: Table, blobs: Blobs, inputs: Inputs, next: nat, k: Key, i: nat,
                                           faults: nat -> Fault)
    requires StoreOk(t, blobs, inputs, next) && Has(t, k, i) && Servable(t.hist[k][i])
    requires Present(t.hist[k][i].artifacts, blobs)
    ensures var r := t.hist[k][i];
      var u := BackFilled(r, inputs(k), faults);
      var blobs' := PutAll(blobs, r.id, inputs(k), faults, |inputs(k)|);
      && StoreOk(SetRow(t, k, i, u), blobs', inputs, next)
      && Entries(SetRow(t, k, i, u), blobs') ==
           BackFilledAnswers(Entries(t, blobs), r.artifacts, blobs, k, inputs(k), faults)
  {
    hide StoreOk, Entries, EntryOf, BackFilled, PutAll, AfterBackFill, Hydrated, RowsOk, WellFormed;
    BackFillRewrites(t, blobs, inputs, next, k, i, faults);
    BackFillEntry(t, blobs, inputs, next, k, i, faults);
    CurrentKept(t, blobs, inputs, next, k, i);
  }

  lemma {:induction false} CurrentKept(t: Table, blobs: Blobs, inputs: Inputs, next: nat, k: Key, i: nat)
    requires StoreOk(t, blobs, inputs, next) && Has(t, k, i) && Servable(t.hist[k][i])
    ensures Entries(t, blobs)[k := EntryOf(t.hist[k][i], blobs)] == Entries(t, blobs)
  {
    CurrentEntry(t, blobs, k, i);
    var c := Entries(t, blobs);
    assert c[k := c[k]] == c;
  }

  lemma {:induction false} BackFillEntry(t: Table, blobs: Blobs, inputs: Inputs, next: nat, k: Key, i: nat,
                                         faults: nat -> Fault)
    requires StoreOk(t, blobs, inputs, next) && Has(t, k, i) && Servable(t.hist[k][i])
    requires Present(t.hist[k][i].artifacts, blobs)
    ensures var r := t.hist[k][i];
      var had := Hydrated(r.artifacts, blobs);
      EntryOf(BackFilled(r, inputs(k), faults), PutAll(blobs, r.id, inputs(k), faults, |inputs(k)|)) ==
        if HasInput(r.artifacts) then EntryOf(r, blobs) else AfterBackFill(had, inputs(k), faults)
  {
    var r := t.hist[k][i];
    var docs := inputs(k);
    assert RowOk(r, docs);
    if HasInput(r.artifacts) {
      forall j | 0 <= j < |docs|
        ensures BlobKeyFor(r.id, docs[j].content) in blobs
      {
        var m :| 0 <= m < |r.artifacts| && r.artifacts[m].blobKey == BlobKeyFor(r.id, docs[j].content);
      }
      PutAllIdle(r, blobs, docs, faults);
      RemarkedEntry(r, docs, faults, blobs);
    } else {
      forall b | b in blobs && b.owner == r.id {
        OwnerNames(t, blobs, inputs, next, k, i, b);
      }
      BackFilledEntry(r, docs, faults, blobs);
    }
  }

  /** `t` once the client's outcome has been written to the in-flight row (k, i). */
  function OutcomeRecorded(t: Table, k: Key, i: nat, state: ExecutionState): Table
    requires Has(t, k, i)
  {
    SetRow(t, k, i, t.hist[k][i].(state := state))
  }

  lemma {:induction false} OutcomeMeaning(t: Table, blobs: Blobs, inputs: Inputs, next: nat, k: Key, i: nat,
                                          state: ExecutionState)
    requires StoreOk(t, blobs, inputs, next) && Has(t, k, i) && t.hist[k][i] == FreshRow(t.hist[k][i].id)
    ensures StoreOk(OutcomeRecorded(t, k, i, state), blobs, inputs, next)
    ensures Entries(OutcomeRecorded(t, k, i, state), blobs) == Entries(t, blobs)
  {
    RowRewritten(t, blobs, inputs, next, k, i, t.hist[k][i].(state := state), blobs);
  }

  /** Only a fully stored success changes the answers, and then only its own key's. */
  lemma {:induction false} RecordedMeaning(t: Table, blobs: Blobs, inputs: Inputs, next: nat, k: Key, i: nat,
                                           state: ExecutionState, output: seq<Document>, input: seq<Document>,
                                           faults: nat -> Fault)
    requires StoreOk(t, blobs, inputs, next) && Has(t, k, i) && t.hist[k][i] == FreshRow(t.hist[k][i].id)
    requires state != InProgress
    requires (input == [] || input == inputs(k)) && forall j :: 0 <= j < |output| ==> !output[j].kind.IsInput()
    ensures var docs := output + input;
      var t' := RecordedTable(t, k, i, state, docs, faults);
      var blobs' := PutAll(blobs, t.hist[k][i].id, docs, faults, |docs|);
      && StoreOk(t', blobs', inputs, next)
      && Entries(t', blobs') ==
           if AllFine(faults, |docs|) && state == Success then Entries(t, blobs)[k := Whole(docs, false)]
           else Entries(t, blobs)
  {
    var docs := output + input;
    OutcomeMeaning(t, blobs, inputs, next, k, i, state);
    var u := OutcomeRecorded(t, k, i, state);
    PersistedMeaning(u, blobs, inputs, next, k, i, output, input, faults);
    if AllFine(faults, |docs|) {
      FinalizedMeaning(PersistedTable(u, k, i, docs, faults, |docs|),
        PutAll(blobs, t.hist[k][i].id, docs, faults, |docs|), inputs, next, k, i);
    }
  }

  /** `t` after a whole recorded run: outcome, documents and, when every document is STORED, finalisation. */
  function RecordedTable(t: Table, k: Key, i: nat, state: ExecutionState, docs: seq<Document>,
                         faults: nat -> Fault): Table
    requires Has(t, k, i)
  {
    var t' := PersistedTable(OutcomeRecorded(t, k, i, state), k, i, docs, faults, |docs|);
    if AllFine(faults, |docs|) then SetHistory(t', k, Finalized(t'.hist[k], i)) else t'
  }

  lemma {:induction false} RecordedSteps(t: Table, k: Key, i: nat, id: ExecutionId, state: ExecutionState,
                                         docs: seq<Document>, faults: nat -> Fault)
    requires At(t, k, i, id)
    ensures At(OutcomeRecorded(t, k, i, state), k, i, id)
    ensures var t' := PersistedTable(OutcomeRecorded(t, k, i, state), k, i, docs, faults, |docs|);
      At(t', k, i, id) && (AllFine(faults, |docs|) ==> AllStored(t'.hist[k][i].artifacts))
  {
    PersistedExact(id, docs, faults, |docs|);
  }

  // ---- back-fill, step by step ----

  function BlobMarked(t: Table, k: Key, i: nat, b: BlobKey, fault: Fault): Table
    requires Has(t, k, i)
  {
    SetRow(t, k, i, t.hist[k][i].(artifacts := Marked(t.hist[k][i].artifacts, b, fault)))
  }

  function Attached(r: Row, docs: seq<Document>): Row {
    if HasInput(r.artifacts) then r else WithInput(r, Pendings(r.id, docs))
  }

  /** `t` with the input attached to row (k, i) and its first `n` documents put and marked. */
  function RemarkedTable(t: Table, k: Key, i: nat, docs: seq<Document>, faults: nat -> Fault, n: nat): Table
    requires Has(t, k, i) && n <= |docs|
  {
    var r := Attached(t.hist[k][i], docs);
    SetRow(t, k, i, r.(artifacts := Remarked(r.artifacts, r.id, docs, faults, n)))
  }

  lemma {:induction false} RemarkedStart(t: Table, k: Key, i: nat, docs: seq<Document>, faults: nat -> Fault)
    requires Has(t, k, i) && CurrentIndex(t.hist[k]) == i && docs != []
    ensures RemarkedTable(t, k, i, docs, faults, 0) == InputAdded(t, k, Pendings(t.hist[k][i].id, docs))
  {
    SetRowSame(t, k, i);
  }

  lemma {:induction false} RemarkedStep(t: Table, k: Key, i: nat, docs: seq<Document>, faults: nat -> Fault, n: nat)
    requires Has(t, k, i) && n < |docs| && RowOk(t.hist[k][i], docs)
    ensures var u := RemarkedTable(t, k, i, docs, faults, n);
      var id := t.hist[k][i].id;
      && At(u, k, i, id) && Names(u.hist[k][i], BlobKeyFor(id, docs[n].content))
      && BlobMarked(u, k, i, BlobKeyFor(id, docs[n].content), faults(n)) == RemarkedTable(t, k, i, docs, faults, n + 1)
      && forall blobs: Blobs ::
           PutAll(blobs, id, docs, faults, n + 1) ==
             BlobStored(PutAll(blobs, id, docs, faults, n), id, docs[n], faults(n))
  {
    var r := Attached(t.hist[k][i], docs);
    var b := BlobKeyFor(r.id, docs[n].content);
    var a, a' := Remarked(r.artifacts, r.id, docs, faults, n), Remarked(r.artifacts, r.id, docs, faults, n + 1);
    SetRowTwice(t, k, i, r.(artifacts := a), r.(artifacts := a'));
    AttachedNames(t.hist[k][i], docs, n);
    var m :| 0 <= m < |r.artifacts| && r.artifacts[m].blobKey == b;
    assert a[m] == r.artifacts[m].(status := a[m].status);
    assert r.(artifacts := a).artifacts[m].blobKey == b;
  }

  lemma {:induction false} AttachedNames(r: Row, docs: seq<Document>, n: nat)
    requires RowOk(r, docs) && n < |docs|
    ensures Names(Attached(r, docs), BlobKeyFor(r.id, docs[n].content))
  {
    if !HasInput(r.artifacts) {
      assert Attached(r, docs).artifacts[|r.artifacts| + n] == Pendings(r.id, docs)[n];
    }
  }

  // ---- quarantine ----

  /** Some blobs of a broken row are taken away: it stays as broken as it was, and nothing else is touched. */
  lemma {:induction false} BrokenStaysBroken(t: Table, blobs: Blobs, inputs: Inputs, next: nat, k: Key, i: nat,
                                             blobs': Blobs)
    requires StoreOk(t, blobs, inputs, next) && Has(t, k, i) && !Present(t.hist[k][i].artifacts, blobs)
    requires forall b :: b in blobs' ==> b in blobs && blobs'[b] == blobs[b]
    requires forall b :: b in blobs && b !in blobs' ==> b.owner == t.hist[k][i].id
    ensures StoreOk(t, blobs', inputs, next) && Entries(t, blobs') == Entries(t, blobs)
  {
    LosingBlobs(t, blobs, inputs, next, blobs');
    forall l | l in Entries(t, blobs)
      ensures Entries(t, blobs')[l] == Entries(t, blobs)[l]
    {
      var j := CurrentIndex(t.hist[l]);
      assert Has(t, l, j);
      if !(l == k && j == i) {
        assert At(t, l, j, t.hist[l][j].id) && At(t, k, i, t.hist[k][i].id);
        SameEntry(t.hist[l][j], blobs, blobs');
      }
    }
  }

  /** Quarantining a broken current row loses exactly its own key's entry. */
  lemma {:induction false} QuarantineMeaning(t: Table, blobs: Blobs, inputs: Inputs, next: nat, k: Key, i: nat,
                                             blobs': Blobs)
    requires StoreOk(t, blobs, inputs, next) && ServableAt(t, k, i) && !Present(t.hist[k][i].artifacts, blobs)
    requires forall b :: b in blobs' <==> b in blobs && !Names(t.hist[k][i], b)
    requires forall b :: b in blobs' ==> blobs'[b] == blobs[b]
    ensures StoreOk(RemoveRow(t, k, i), blobs', inputs, next)
    ensures Entries(RemoveRow(t, k, i), blobs') == Entries(t, blobs) - {k}
  {
    BrokenStaysBroken(t, blobs, inputs, next, k, i, blobs');
    RemovedMeaning(t, blobs', inputs, next, k, i);
  }

  /** An interrupted run leaves no row behind: taking out a row without artifacts moves no entry. */
  lemma {:induction false} InterruptMeaning(t: Table, blobs: Blobs, inputs: Inputs, next: nat, k: Key, i: nat)
    requires StoreOk(t, blobs, inputs, next) && Has(t, k, i) && t.hist[k][i] == FreshRow(t.hist[k][i].id)
    ensures StoreOk(RemoveRow(t, k, i), blobs, inputs, next)
    ensures Entries(RemoveRow(t, k, i), blobs) == Entries(t, blobs)
  {
    RemovedMeaning(t, blobs, inputs, next, k, i);
  }

  // ---- replaying ----

  lemma {:induction false} CurrentEntry(t: Table, blobs: Blobs, k: Key, i: nat)
    requires AtMostOneServable(t) && ServableAt(t, k, i)
    ensures CurrentIndex(t.hist[k]) == i && Current(t, k) == Some(t.hist[k][i])
    ensures k in Entries(t, blobs) && Entries(t, blobs)[k] == EntryOf(t.hist[k][i], blobs)
  {
    CurrentIs(t, k, i);
  }

  /** The store a hit leaves behind: at DATASET depth the input is attached and stored once more. */
  function ReplayedTable(t: Table, k: Key, i: nat, cmd: Command, inputs: seq<Document>, faults: nat -> Fault): Table
    requires Has(t, k, i)
  {
    if cmd.depth.StoresInput() && !t.hist[k][i].inputPersisted && inputs != []
    then RemarkedTable(t, k, i, inputs, faults, |inputs|) else t
  }

  function ReplayedBlobs(t: Table, blobs: Blobs, k: Key, i: nat, cmd: Command, inputs: seq<Document>,
                         faults: nat -> Fault): Blobs
    requires Has(t, k, i)
  {
    if cmd.depth.StoresInput() && !t.hist[k][i].inputPersisted && inputs != []
    then PutAll(blobs, t.hist[k][i].id, inputs, faults, |inputs|) else blobs
  }

  lemma {:induction false} ReplayMeaning(t: Table, blobs: Blobs, inputs: Inputs, next: nat, k: Key, i: nat,
                                         cmd: Command, w: World)
    requires StoreOk(t, blobs, inputs, next) && ServableAt(t, k, i) && Present(t.hist[k][i].artifacts, blobs)
    requires cmd.key == k
    ensures Replayable(Entries(t, blobs), k)
    ensures var t' := ReplayedTable(t, k, i, cmd, inputs(k), w.faults);
      var blobs' := ReplayedBlobs(t, blobs, k, i, cmd, inputs(k), w.faults);
      && StoreOk(t', blobs', inputs, next)
      && Entries(t', blobs') == Replay(Entries(t, blobs), cmd, inputs(k), w).cache
  {
    CurrentEntry(t, blobs, k, i);
    var r := t.hist[k][i];
    var c := Entries(t, blobs);
    assert c[k] == Whole(Hydrated(r.artifacts, blobs), r.inputPersisted);
    if cmd.depth.StoresInput() && !r.inputPersisted && inputs(k) != [] {
      ReplayFillsMeaning(t, blobs, inputs, next, k, i, cmd, w);
    }
  }

  lemma {:induction false} ReplayFillsMeaning(t: Table, blobs: Blobs, inputs: Inputs, next: nat, k: Key, i: nat,
                                              cmd: Command, w: World)
    requires StoreOk(t, blobs, inputs, next) && ServableAt(t, k, i) && Present(t.hist[k][i].artifacts, blobs)
    requires cmd.key == k
    requires Replayable(Entries(t, blobs), k)
    requires Entries(t, blobs)[k] == Whole(Hydrated(t.hist[k][i].artifacts, blobs), t.hist[k][i].inputPersisted)
    requires cmd.depth.StoresInput() && !t.hist[k][i].inputPersisted && inputs(k) != []
    ensures var t' := RemarkedTable(t, k, i, inputs(k), w.faults, |inputs(k)|);
      var blobs' := PutAll(blobs, t.hist[k][i].id, inputs(k), w.faults, |inputs(k)|);
      && StoreOk(t', blobs', inputs, next)
      && Entries(t', blobs') == Replay(Entries(t, blobs), cmd, inputs(k), w).cache
  {
    RemarkedIsBackFilled(t, k, i, inputs(k), w.faults);
    BackFillMeaning(t, blobs, inputs, next, k, i, w.faults);
    HydratedInput(t.hist[k][i].artifacts, blobs);
    BackFillReplay(Entries(t, blobs), t.hist[k][i].artifacts, blobs, cmd, inputs(k), w);
  }

  lemma {:induction false} RemarkedIsBackFilled(t: Table, k: Key, i: nat, docs: seq<Document>, faults: nat -> Fault)
    requires Has(t, k, i)
    ensures RemarkedTable(t, k, i, docs, faults, |docs|) == SetRow(t, k, i, BackFilled(t.hist[k][i], docs, faults))
  {
  }

  lemma {:induction false} BackFillReplay(c: Cache, artifacts: seq<Artifact>, blobs: Blobs, cmd: Command,
                                          inputs: seq<Document>, w: World)
    requires cmd.depth.StoresInput() && inputs != [] && Present(artifacts, blobs)
    requires cmd.key in c && c[cmd.key] == Whole(Hydrated(artifacts, blobs), false)
    requires HasInput(artifacts) <==> CarriesInput(Hydrated(artifacts, blobs))
    ensures var had := Hydrated(artifacts, blobs);
      Replay(c, cmd, inputs, w).cache ==
        if HasInput(artifacts) then c else c[cmd.key := AfterBackFill(had, inputs, w.faults)]
  {
  }

  lemma {:induction false} HydratedInput(artifacts: seq<Artifact>, blobs: Blobs)
    requires Present(artifacts, blobs)
    ensures HasInput(artifacts) <==> CarriesInput(Hydrated(artifacts, blobs))
  {
    var docs := Hydrated(artifacts, blobs);
    if j :| 0 <= j < |artifacts| && artifacts[j].kind.IsInput() {
      assert docs[j].kind.IsInput();
    }
    if j :| 0 <= j < |docs| && docs[j].kind.IsInput() {
      assert artifacts[j].kind.IsInput();
    }
  }
}
