/** What a store means: the plain map from keys to complete answers that its rows and blobs stand for. */
module CacheModel {
  import opened Executions

  /**
   * The servable answer of a key. `Whole` carries the documents a replay gives back;
   * `Broken` is a servable row that has lost a blob, with the number of its artifacts.
   */
  datatype Entry = Whole(documents: seq<Document>, inputKept: bool) | Broken(artifacts: nat)

  type Cache = map<Key, Entry>

  /** Which input documents a key stands for: the key fingerprints exactly these. */
  type Inputs = Key -> seq<Document>

  predicate Present(artifacts: seq<Artifact>, blobs: Blobs) {
    forall i :: 0 <= i < |artifacts| ==> artifacts[i].blobKey in blobs
  }

  function Hydrated(artifacts: seq<Artifact>, blobs: Blobs): (docs: seq<Document>)
    requires Present(artifacts, blobs)
    ensures |docs| == |artifacts|
    ensures forall i :: 0 <= i < |docs| ==>
      docs[i] == Document(artifacts[i].kind, artifacts[i].name, blobs[artifacts[i].blobKey])
  {
    seq(|artifacts|, i requires 0 <= i < |artifacts| =>
      Document(artifacts[i].kind, artifacts[i].name, blobs[artifacts[i].blobKey]))
  }

  function EntryOf(r: Row, blobs: Blobs): Entry {
    if Present(r.artifacts, blobs) then Whole(Hydrated(r.artifacts, blobs), r.inputPersisted)
    else Broken(|r.artifacts|)
  }

  predicate HasCurrent(t: Table, k: Key) {
    k in t.hist && CurrentIndex(t.hist[k]) < |t.hist[k]|
  }

  function Entries(t: Table, blobs: Blobs): Cache {
    map k | k in t.hist && HasCurrent(t, k) :: EntryOf(t.hist[k][CurrentIndex(t.hist[k])], blobs)
  }

  /** The entry a history stands for, if it has a servable row. */
  function EntryIn(h: seq<Row>, blobs: Blobs): Option<Entry> {
    if CurrentIndex(h) < |h| then Some(EntryOf(h[CurrentIndex(h)], blobs)) else None
  }

  lemma {:induction false} EntriesAre(t: Table, blobs: Blobs, c: Cache)
    requires forall k :: k in c ==> EntryIn(History(t, k), blobs) == Some(c[k])
    requires forall k :: k !in c ==> EntryIn(History(t, k), blobs) == None
    ensures Entries(t, blobs) == c
  {
    assert forall k :: k in c ==> HasCurrent(t, k);
    assert forall k :: HasCurrent(t, k) ==> k in c;
  }

  lemma {:induction false} EntriesAt(t: Table, blobs: Blobs, k: Key)
    ensures EntryIn(History(t, k), blobs) == if k in Entries(t, blobs) then Some(Entries(t, blobs)[k]) else None
  {
  }

  // ---- the store invariant ----

  predicate OwnArtifacts(r: Row) {
    forall n :: 0 <= n < |r.artifacts| ==>
      r.artifacts[n].blobKey.owner == r.id && r.artifacts[n].size == |r.artifacts[n].blobKey.fingerprint.preimage|
  }

  /** A row that carries any input carries all the input its key stands for. */
  predicate InputsNamed(r: Row, inputs: seq<Document>) {
    HasInput(r.artifacts) ==>
      forall n :: 0 <= n < |inputs| ==> Names(r, BlobKeyFor(r.id, inputs[n].content))
  }

  predicate RowOk(r: Row, inputs: seq<Document>) {
    && OwnArtifacts(r)
    && InputsNamed(r, inputs)
    && (r.state == InProgress ==> r.artifacts == [] && !r.outputPersisted)
    && (r.superseded && !r.outputPersisted ==> r.artifacts == [])
  }

  predicate NamedAt(t: Table, k: Key, i: int, b: BlobKey) {
    Has(t, k, i) && Names(t.hist[k][i], b)
  }

  /** A blob is owned when a row names it. */
  ghost predicate Owned(t: Table, b: BlobKey) {
    exists k, i :: NamedAt(t, k, i, b)
  }

  ghost predicate AtMostOneServable(t: Table) {
    forall k, i, j :: ServableAt(t, k, i) && ServableAt(t, k, j) ==> i == j
  }

  predicate ServableAt(t: Table, k: Key, i: int) {
    Has(t, k, i) && Servable(t.hist[k][i])
  }

  ghost predicate RowsOk(t: Table, inputs: Inputs, next: nat) {
    forall k, i :: Has(t, k, i) ==> RowOk(t.hist[k][i], inputs(k)) && t.hist[k][i].id < next
  }

  ghost predicate BlobsOk(t: Table, blobs: Blobs) {
    forall b :: b in blobs ==> blobs[b] == b.fingerprint.preimage && Owned(t, b)
  }

  /** What every completed operation keeps. `next` bounds the ids handed out so far. */
  ghost predicate StoreOk(t: Table, blobs: Blobs, inputs: Inputs, next: nat) {
    WellFormed(t) && AtMostOneServable(t) && RowsOk(t, inputs, next) && BlobsOk(t, blobs)
  }

  // ---- how the steps of the service move the meaning ----

  lemma {:induction false} EmptyStoreOk(inputs: Inputs)
    ensures StoreOk(Table([], map[]), map[], inputs, 0)
    ensures Entries(Table([], map[]), map[]) == map[]
  {
  }

  /** With one servable row per key, that row is the current one. */
  lemma {:induction false} CurrentIs(t: Table, k: Key, i: nat)
    requires AtMostOneServable(t) && Has(t, k, i) && Servable(t.hist[k][i])
    ensures CurrentIndex(t.hist[k]) == i
  {
    assert ServableAt(t, k, CurrentIndex(t.hist[k])) && ServableAt(t, k, i);
  }

  lemma {:induction false} SameEntry(r: Row, blobs: Blobs, blobs': Blobs)
    requires OwnArtifacts(r)
    requires forall b: BlobKey :: b.owner == r.id ==> (b in blobs <==> b in blobs')
    requires forall b: BlobKey :: b.owner == r.id && b in blobs ==> blobs[b] == blobs'[b]
    ensures EntryOf(r, blobs') == EntryOf(r, blobs)
  {
    assert Present(r.artifacts, blobs) <==> Present(r.artifacts, blobs');
    if Present(r.artifacts, blobs) {
      assert Hydrated(r.artifacts, blobs) == Hydrated(r.artifacts, blobs');
    }
  }

  // -- inserting the IN_PROGRESS row --

  lemma {:induction false} OwnedAfterAppend(t: Table, k: Key, r: Row, b: BlobKey)
    requires !Servable(r) && Owned(t, b)
    ensures Owned(Append(t, k, r), b)
  {
    var l, j :| NamedAt(t, l, j, b);
    assert NamedAt(Append(t, k, r), l, j, b);
  }

  lemma {:induction false} SavedRows(t: Table, inputs: Inputs, next: nat, k: Key)
    requires RowsOk(t, inputs, next) && AtMostOneServable(t)
    ensures RowsOk(Append(t, k, FreshRow(next)), inputs, next + 1) && AtMostOneServable(Append(t, k, FreshRow(next)))
  {
    var u := Append(t, k, FreshRow(next));
    forall l, j | Has(u, l, j)
      ensures if l == k && j == |History(t, k)| then u.hist[l][j] == FreshRow(next)
              else Has(t, l, j) && u.hist[l][j] == t.hist[l][j]
    {
    }
    assert forall l, j :: ServableAt(u, l, j) ==> ServableAt(t, l, j);
  }

  lemma {:induction false} SavedEntries(t: Table, blobs: Blobs, k: Key, r: Row)
    requires !Servable(r)
    ensures Entries(Append(t, k, r), blobs) == Entries(t, blobs)
  {
    AppendKeepsCurrent(History(t, k), r);
    var u := Append(t, k, r);
    assert forall l :: l != k ==> (l in u.hist <==> l in t.hist) && (l in t.hist ==> u.hist[l] == t.hist[l]);
    assert HasCurrent(u, k) <==> HasCurrent(t, k);
  }

  lemma {:induction false} SaveKeepsMeaning(t: Table, blobs: Blobs, inputs: Inputs, next: nat, k: Key)
    requires StoreOk(t, blobs, inputs, next)
    ensures StoreOk(Append(t, k, FreshRow(next)), blobs, inputs, next + 1)
    ensures Entries(Append(t, k, FreshRow(next)), blobs) == Entries(t, blobs)
  {
    WellFormedAppend(t, k, FreshRow(next));
    SavedRows(t, inputs, next, k);
    forall b | b in blobs {
      OwnedAfterAppend(t, k, FreshRow(next), b);
    }
    SavedEntries(t, blobs, k, FreshRow(next));
  }

  lemma {:induction false} AppendKeepsCurrent(h: seq<Row>, r: Row)
    requires !Servable(r)
    ensures CurrentIndex(h + [r]) == if CurrentIndex(h) < |h| then CurrentIndex(h) else |h| + 1
  {
    var c := CurrentIndex(h + [r]);
    assert forall j :: 0 <= j < |h| ==> (h + [r])[j] == h[j];
  }

  /** The blobs one row may have gained: everything new belongs to it and is named by it. */
  ghost predicate Grown(blobs: Blobs, blobs': Blobs, r: Row) {
    && (forall b :: b in blobs ==> b in blobs' && blobs'[b] == blobs[b])
    && (forall b :: b in blobs' && b !in blobs ==>
          b.owner == r.id && Names(r, b) && blobs'[b] == b.fingerprint.preimage)
  }

  ghost predicate NamesKept(r: Row, r': Row) {
    forall b :: Names(r, b) ==> Names(r', b)
  }

  // -- rewriting one row in place --

  lemma {:induction false} OwnedAfterSetRow(t: Table, k: Key, i: nat, r: Row, b: BlobKey)
    requires Has(t, k, i) && NamesKept(t.hist[k][i], r) && (Owned(t, b) || Names(r, b))
    ensures Owned(SetRow(t, k, i, r), b)
  {
    var u := SetRow(t, k, i, r);
    if Names(r, b) {
      assert NamedAt(u, k, i, b);
    } else {
      var l, j :| NamedAt(t, l, j, b);
      assert NamedAt(u, l, j, b);
    }
  }

  lemma {:induction false} RewrittenRows(t: Table, inputs: Inputs, next: nat, k: Key, i: nat, r: Row)
    requires RowsOk(t, inputs, next) && AtMostOneServable(t) && Has(t, k, i)
    requires r.id == t.hist[k][i].id && Servable(r) == Servable(t.hist[k][i]) && RowOk(r, inputs(k))
    ensures RowsOk(SetRow(t, k, i, r), inputs, next) && AtMostOneServable(SetRow(t, k, i, r))
  {
    var u := SetRow(t, k, i, r);
    forall l, j | Has(u, l, j)
      ensures Has(t, l, j) && u.hist[l][j] == if l == k && j == i then r else t.hist[l][j]
    {
    }
    assert forall l, j :: ServableAt(u, l, j) ==> ServableAt(t, l, j);
  }

  /** Blobs that belong to row (k, i) say nothing about any other row. */
  lemma {:induction false} OtherEntry(t: Table, blobs: Blobs, blobs': Blobs, r: Row, k: Key, i: nat, l: Key, j: nat)
    requires UniqueIds(t) && Has(t, k, i) && Has(t, l, j) && !(l == k && j == i)
    requires r.id == t.hist[k][i].id && Grown(blobs, blobs', r) && OwnArtifacts(t.hist[l][j])
    ensures EntryOf(t.hist[l][j], blobs') == EntryOf(t.hist[l][j], blobs)
  {
    assert At(t, l, j, t.hist[l][j].id) && At(t, k, i, r.id);
    SameEntry(t.hist[l][j], blobs, blobs');
  }

  lemma {:induction false} RewrittenEntries(t: Table, blobs: Blobs, inputs: Inputs, next: nat, k: Key, i: nat, r: Row,
                                            blobs': Blobs)
    requires UniqueIds(t) && AtMostOneServable(t) && RowsOk(t, inputs, next) && Has(t, k, i)
    requires r.id == t.hist[k][i].id && Servable(r) == Servable(t.hist[k][i]) && Grown(blobs, blobs', r)
    ensures Entries(SetRow(t, k, i, r), blobs')
         == if Servable(r) then Entries(t, blobs)[k := EntryOf(r, blobs')] else Entries(t, blobs)
  {
    var u := SetRow(t, k, i, r);
    var c := if Servable(r) then Entries(t, blobs)[k := EntryOf(r, blobs')] else Entries(t, blobs);
    forall l
      ensures EntryIn(History(u, l), blobs') == if l in c then Some(c[l]) else None
    {
      EntriesAt(t, blobs, l);
      RewrittenEntryIn(t, blobs, inputs, next, k, i, r, blobs', l);
    }
    EntriesAre(u, blobs', c);
  }

  lemma {:induction false} RewrittenEntryIn(t: Table, blobs: Blobs, inputs: Inputs, next: nat, k: Key, i: nat, r: Row,
                                            blobs': Blobs, l: Key)
    requires UniqueIds(t) && AtMostOneServable(t) && RowsOk(t, inputs, next) && Has(t, k, i)
    requires r.id == t.hist[k][i].id && Servable(r) == Servable(t.hist[k][i]) && Grown(blobs, blobs', r)
    ensures EntryIn(History(SetRow(t, k, i, r), l), blobs')
         == if l == k && Servable(r) then Some(EntryOf(r, blobs')) else EntryIn(History(t, l), blobs)
  {
    var h, h' := History(t, l), History(SetRow(t, k, i, r), l);
    SameServability(h, h');
    if l == k && Servable(r) {
      CurrentIs(t, k, i);
    } else if CurrentIndex(h) < |h| {
      assert Has(t, l, CurrentIndex(h));
      OtherEntry(t, blobs, blobs', r, k, i, l, CurrentIndex(h));
    }
  }

  /** Rewriting one row in place, its blobs growing with it, moves no other key's entry. */
  lemma {:induction false} RowRewritten(t: Table, blobs: Blobs, inputs: Inputs, next: nat, k: Key, i: nat, r: Row,
                                        blobs': Blobs)
    requires StoreOk(t, blobs, inputs, next) && Has(t, k, i)
    requires r.id == t.hist[k][i].id && Servable(r) == Servable(t.hist[k][i]) && RowOk(r, inputs(k))
    requires NamesKept(t.hist[k][i], r) && Grown(blobs, blobs', r)
    ensures StoreOk(SetRow(t, k, i, r), blobs', inputs, next)
    ensures Entries(SetRow(t, k, i, r), blobs')
         == if Servable(r) then Entries(t, blobs)[k := EntryOf(r, blobs')] else Entries(t, blobs)
  {
    WellFormedSetRow(t, k, i, r);
    RewrittenRows(t, inputs, next, k, i, r);
    forall b | b in blobs' {
      OwnedAfterSetRow(t, k, i, r, b);
    }
    RewrittenEntries(t, blobs, inputs, next, k, i, r, blobs');
  }

  lemma {:induction false} SameServability(h: seq<Row>, h': seq<Row>)
    requires |h| == |h'| && forall i :: 0 <= i < |h| ==> Servable(h[i]) == Servable(h'[i])
    ensures CurrentIndex(h) == CurrentIndex(h')
  {
  }

  // -- finalising --

  lemma {:induction false} OwnedAfterFinalize(t: Table, k: Key, i: nat, b: BlobKey)
    requires Has(t, k, i) && Owned(t, b)
    ensures Owned(SetHistory(t, k, Finalized(t.hist[k], i)), b)
  {
    var l, j :| NamedAt(t, l, j, b);
    assert NamedAt(SetHistory(t, k, Finalized(t.hist[k], i)), l, j, b);
  }

  lemma {:induction false} FinalizedRows(t: Table, inputs: Inputs, next: nat, k: Key, i: nat)
    requires RowsOk(t, inputs, next) && AtMostOneServable(t) && Has(t, k, i) && t.hist[k][i].state != InProgress
    ensures RowsOk(SetHistory(t, k, Finalized(t.hist[k], i)), inputs, next)
    ensures AtMostOneServable(SetHistory(t, k, Finalized(t.hist[k], i)))
  {
    var h := Finalized(t.hist[k], i);
    var u := SetHistory(t, k, h);
    forall l, j | Has(u, l, j)
      ensures Has(t, l, j) && u.hist[l][j].id == t.hist[l][j].id && RowOk(u.hist[l][j], inputs(l))
      ensures l != k ==> u.hist[l][j] == t.hist[l][j]
    {
      var r, r' := t.hist[l][j], u.hist[l][j];
      assert r'.artifacts == r.artifacts && r'.id == r.id;
      assert InputsNamed(r', inputs(l)) by {
        assert forall b :: Names(r, b) ==> Names(r', b);
      }
    }
    forall l, j | ServableAt(u, l, j)
      ensures if l == k && t.hist[k][i].state == Success then j == i else ServableAt(t, l, j)
    {
      assert Has(u, l, j);
    }
  }

  lemma {:induction false} FinalizedCurrent(h: seq<Row>, i: nat)
    requires i < |h| && !h[i].outputPersisted && !h[i].superseded
    ensures h[i].state == Success ==> CurrentIndex(Finalized(h, i)) == i
    ensures h[i].state != Success ==> CurrentIndex(Finalized(h, i)) == CurrentIndex(h)
  {
    var g := Finalized(h, i);
    if h[i].state == Success {
      assert Servable(g[i]);
      assert forall j :: 0 <= j < i ==> g[j] == Retire(h[j]);
    } else {
      SameServability(h, g);
    }
  }

  lemma {:induction false} FinalizedEntries(t: Table, blobs: Blobs, k: Key, i: nat)
    requires Has(t, k, i) && !t.hist[k][i].outputPersisted && !t.hist[k][i].superseded
    ensures Entries(SetHistory(t, k, Finalized(t.hist[k], i)), blobs)
         == if t.hist[k][i].state == Success
            then Entries(t, blobs)[k := EntryOf(t.hist[k][i], blobs)] else Entries(t, blobs)
  {
    var u := SetHistory(t, k, Finalized(t.hist[k], i));
    var c :=
      if t.hist[k][i].state == Success then Entries(t, blobs)[k := EntryOf(t.hist[k][i], blobs)] else Entries(t, blobs);
    forall l
      ensures EntryIn(History(u, l), blobs) == if l in c then Some(c[l]) else None
    {
      EntriesAt(t, blobs, l);
      FinalizedEntryIn(t.hist[k], blobs, i);
    }
    EntriesAre(u, blobs, c);
  }

  lemma {:induction false} FinalizedEntryIn(h: seq<Row>, blobs: Blobs, i: nat)
    requires i < |h| && !h[i].outputPersisted && !h[i].superseded
    ensures EntryIn(Finalized(h, i), blobs) ==
      if h[i].state == Success then Some(EntryOf(h[i], blobs)) else EntryIn(h, blobs)
  {
    FinalizedCurrent(h, i);
    var g := Finalized(h, i);
    assert forall j :: 0 <= j < |g| ==> g[j].artifacts == h[j].artifacts && g[j].inputPersisted == h[j].inputPersisted;
  }

  /** A finalised success becomes the one current answer of its key; a finalised failure changes no answer. */
  lemma {:induction false} FinalizedMeaning(t: Table, blobs: Blobs, inputs: Inputs, next: nat, k: Key, i: nat)
    requires StoreOk(t, blobs, inputs, next) && Has(t, k, i)
    requires t.hist[k][i].state != InProgress && !t.hist[k][i].outputPersisted && !t.hist[k][i].superseded
    ensures StoreOk(SetHistory(t, k, Finalized(t.hist[k], i)), blobs, inputs, next)
    ensures Entries(SetHistory(t, k, Finalized(t.hist[k], i)), blobs)
         == if t.hist[k][i].state == Success
            then Entries(t, blobs)[k := EntryOf(t.hist[k][i], blobs)] else Entries(t, blobs)
  {
    WellFormedSetHistory(t, k, Finalized(t.hist[k], i));
    FinalizedRows(t, inputs, next, k, i);
    forall b | b in blobs {
      OwnedAfterFinalize(t, k, i, b);
    }
    FinalizedEntries(t, blobs, k, i);
  }

  // -- removing one row --

  lemma {:induction false} OwnedAfterRemove(t: Table, k: Key, i: nat, b: BlobKey)
    requires WellFormed(t) && Has(t, k, i) && Owned(t, b) && !Names(t.hist[k][i], b)
    ensures Owned(RemoveRow(t, k, i), b)
  {
    var u := RemoveRow(t, k, i);
    var l, j :| NamedAt(t, l, j, b);
    var j' := if l == k && j > i then j - 1 else j;
    assert u.hist[l][j'] == t.hist[l][j];
    assert NamedAt(u, l, j', b);
  }

  lemma {:induction false} RemovedRows(t: Table, inputs: Inputs, next: nat, k: Key, i: nat)
    requires WellFormed(t) && RowsOk(t, inputs, next) && AtMostOneServable(t) && Has(t, k, i)
    ensures RowsOk(RemoveRow(t, k, i), inputs, next) && AtMostOneServable(RemoveRow(t, k, i))
  {
    var u := RemoveRow(t, k, i);
    forall l, j | Has(u, l, j)
      ensures Has(t, l, Shift(k, i, l, j)) && u.hist[l][j] == t.hist[l][Shift(k, i, l, j)]
    {
    }
    assert forall l, j :: ServableAt(u, l, j) ==> ServableAt(t, l, Shift(k, i, l, j));
  }

  lemma {:induction false} RemovedEntries(t: Table, blobs: Blobs, k: Key, i: nat)
    requires WellFormed(t) && AtMostOneServable(t) && Has(t, k, i)
    ensures Entries(RemoveRow(t, k, i), blobs)
         == if Servable(t.hist[k][i]) then Entries(t, blobs) - {k} else Entries(t, blobs)
  {
    var u := RemoveRow(t, k, i);
    var c := if Servable(t.hist[k][i]) then Entries(t, blobs) - {k} else Entries(t, blobs);
    forall l
      ensures EntryIn(History(u, l), blobs) == if l in c then Some(c[l]) else None
    {
      EntriesAt(t, blobs, l);
      RemovedEntryIn(t, blobs, k, i);
    }
    EntriesAre(u, blobs, c);
  }

  lemma {:induction false} RemovedEntryIn(t: Table, blobs: Blobs, k: Key, i: nat)
    requires WellFormed(t) && AtMostOneServable(t) && Has(t, k, i)
    ensures EntryIn(History(RemoveRow(t, k, i), k), blobs)
         == if Servable(t.hist[k][i]) then None else EntryIn(t.hist[k], blobs)
  {
    var h := t.hist[k];
    var h' := h[..i] + h[i + 1..];
    assert History(RemoveRow(t, k, i), k) == h';
    RemovalShiftsCurrent(h, i);
    if Servable(h[i]) {
      var c := CurrentIndex(h');
      if c < |h'| {
        assert ServableAt(t, k, if c < i then c else c + 1) && ServableAt(t, k, i);
      }
    }
  }

  /** Dropping a row whose blobs are gone loses the key's entry exactly when that row was servable. */
  lemma {:induction false} RemovedMeaning(t: Table, blobs: Blobs, inputs: Inputs, next: nat, k: Key, i: nat)
    requires StoreOk(t, blobs, inputs, next) && Has(t, k, i)
    requires forall b :: Names(t.hist[k][i], b) ==> b !in blobs
    ensures StoreOk(RemoveRow(t, k, i), blobs, inputs, next)
    ensures Entries(RemoveRow(t, k, i), blobs)
         == if Servable(t.hist[k][i]) then Entries(t, blobs) - {k} else Entries(t, blobs)
  {
    WellFormedRemoveRow(t, k, i);
    RemovedRows(t, inputs, next, k, i);
    forall b | b in blobs {
      OwnedAfterRemove(t, k, i, b);
    }
    RemovedEntries(t, blobs, k, i);
  }

  lemma {:induction false} RemovalShiftsCurrent(h: seq<Row>, i: nat)
    requires i < |h|
    ensures !Servable(h[i]) ==>
      var h' := h[..i] + h[i + 1..];
      && (CurrentIndex(h') < |h'| <==> CurrentIndex(h) < |h|)
      && (CurrentIndex(h) < |h| ==> h'[CurrentIndex(h')] == h[CurrentIndex(h)])
  {
    var h' := h[..i] + h[i + 1..];
    assert forall j :: 0 <= j < |h'| ==> h'[j] == h[if j < i then j else j + 1];
    var c, c' := CurrentIndex(h), CurrentIndex(h');
    if !Servable(h[i]) && c < |h| {
      assert h'[if c < i then c else c - 1] == h[c];
    }
  }

  lemma {:induction false} LostEntry(r: Row, blobs: Blobs, blobs': Blobs)
    requires forall b :: b in blobs' ==> b in blobs && blobs'[b] == blobs[b]
    ensures EntryOf(r, blobs') == if Present(r.artifacts, blobs') then EntryOf(r, blobs) else Broken(|r.artifacts|)
  {
    if Present(r.artifacts, blobs') {
      assert Present(r.artifacts, blobs) && Hydrated(r.artifacts, blobs') == Hydrated(r.artifacts, blobs);
    }
  }

  /** Losing blobs, whoever took them, breaks the entries that named them and touches nothing else. */
  lemma {:induction false} LosingBlobs(t: Table, blobs: Blobs, inputs: Inputs, next: nat, blobs': Blobs)
    requires StoreOk(t, blobs, inputs, next)
    requires forall b :: b in blobs' ==> b in blobs && blobs'[b] == blobs[b]
    ensures StoreOk(t, blobs', inputs, next)
    ensures Entries(t, blobs').Keys == Entries(t, blobs).Keys
    ensures forall k :: k in Entries(t, blobs) ==>
      var r := t.hist[k][CurrentIndex(t.hist[k])];
      Entries(t, blobs')[k] == if Present(r.artifacts, blobs') then Entries(t, blobs)[k] else Broken(|r.artifacts|)
  {
    forall k | k in Entries(t, blobs) {
      LostEntry(t.hist[k][CurrentIndex(t.hist[k])], blobs, blobs');
    }
  }
}
