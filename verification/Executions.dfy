/** The values a store is made of: keys, documents, artifact rows and whole tables. */
module Executions {

  datatype Option<+T> = None | Some(value: T)

  /** An execution key: the digest a call is filed under. */
  datatype Key = Key(text: string)
  type ExecutionId = nat
  type Byte = b: int | 0 <= b < 256
  type Bytes = seq<Byte>

  /** A SHA-256 digest, idealised as injective: the digest of `preimage`. */
  datatype Fingerprint = Sha256(preimage: Bytes)

  /** `<execution_id>_<content fingerprint>`: a blob has exactly one owner. */
  datatype BlobKey = BlobKey(owner: ExecutionId, fingerprint: Fingerprint)

  function BlobKeyFor(id: ExecutionId, content: Bytes): BlobKey {
    BlobKey(id, Sha256(content))
  }

  type Blobs = map<BlobKey, Bytes>

  datatype ArtifactType =
    | Stdout | Stderr | OutputFile
    | InputContext | InputPrompt | InputSystem | InputMessages | InputArgs
  {
    predicate IsInput() {
      InputContext? || InputPrompt? || InputSystem? || InputMessages? || InputArgs?
    }
  }

  datatype ArtifactStatus = Pending | Stored | Failed

  /** A document with its bytes: what a caller hands in and what a hit gives back. */
  datatype Document = Document(kind: ArtifactType, name: Option<string>, content: Bytes)

  /** A dehydrated artifact row: everything about a document except its bytes. */
  datatype Artifact = Artifact(kind: ArtifactType, name: Option<string>, blobKey: BlobKey, size: nat,
                               status: ArtifactStatus)

  function MakeArtifact(id: ExecutionId, d: Document, status: ArtifactStatus): Artifact {
    Artifact(d.kind, d.name, BlobKeyFor(id, d.content), |d.content|, status)
  }

  datatype ExecutionState = InProgress | Success | Failure

  /** A detached copy of one execution row. */
  datatype Row = Row(id: ExecutionId, state: ExecutionState, outputPersisted: bool, inputPersisted: bool,
                     superseded: bool, artifacts: seq<Artifact>)

  /** The current cached answer: a persisted success that has not been superseded. */
  predicate Servable(r: Row) {
    r.state == Success && r.outputPersisted && !r.superseded
  }

  function FreshRow(id: ExecutionId): Row {
    Row(id, InProgress, false, false, false, [])
  }

  /** An insertion-ordered dictionary from keys to histories, oldest row first. */
  datatype Table = Table(order: seq<Key>, hist: map<Key, seq<Row>>)

  predicate Has(t: Table, k: Key, i: int) {
    k in t.hist && 0 <= i < |t.hist[k]|
  }

  predicate At(t: Table, k: Key, i: int, id: ExecutionId) {
    Has(t, k, i) && t.hist[k][i].id == id
  }

  ghost predicate Known(t: Table, id: ExecutionId) {
    exists k, i :: At(t, k, i, id)
  }

  predicate NoDuplicates<T(==)>(s: seq<T>) {
    forall i, j :: 0 <= i < j < |s| ==> s[i] != s[j]
  }

  /** The dictionary is well formed: an order listing each key once, no empty history, and ids that name one row. */
  ghost predicate WellFormed(t: Table) {
    && NoDuplicates(t.order)
    && (forall k :: k in t.order <==> k in t.hist)
    && (forall k :: k in t.hist ==> t.hist[k] != [])
    && UniqueIds(t)
  }

  ghost predicate UniqueIds(t: Table) {
    forall id, k, i, l, j :: At(t, k, i, id) && At(t, l, j, id) ==> k == l && i == j
  }

  /** Index of the first servable row of a history, or its length when there is none. */
  function CurrentIndex(h: seq<Row>): (i: nat)
    ensures i <= |h|
    ensures i < |h| ==> Servable(h[i])
    ensures forall j :: 0 <= j < i ==> !Servable(h[j])
  {
    if h == [] then 0
    else if Servable(h[0]) then 0
    else 1 + CurrentIndex(h[1..])
  }

  function History(t: Table, k: Key): seq<Row> {
    if k in t.hist then t.hist[k] else []
  }

  function Current(t: Table, k: Key): Option<Row> {
    var h := History(t, k);
    if CurrentIndex(h) < |h| then Some(h[CurrentIndex(h)]) else None
  }

  // ---- what each repository operation makes of a table ----

  /** Saving a servable row retires the servable rows already there. */
  function Append(t: Table, k: Key, r: Row): Table {
    var h := if Servable(r) then RetireAll(History(t, k)) else History(t, k);
    Table(if k in t.hist then t.order else t.order + [k], t.hist[k := h + [r]])
  }

  function SetRow(t: Table, k: Key, i: nat, r: Row): Table
    requires Has(t, k, i)
  {
    t.(hist := t.hist[k := t.hist[k][i := r]])
  }

  function Retire(r: Row): Row {
    if Servable(r) then r.(superseded := true) else r
  }

  function RetireAll(h: seq<Row>): (s: seq<Row>)
    ensures |s| == |h|
    ensures forall i :: 0 <= i < |h| ==> s[i] == Retire(h[i])
  {
    seq(|h|, i requires 0 <= i < |h| => Retire(h[i]))
  }

  /** Finalising a success retires every servable row of its key; finalising a failure retires none. */
  function Finalized(h: seq<Row>, i: nat): seq<Row>
    requires i < |h|
  {
    var h' := if h[i].state == Success then RetireAll(h) else h;
    h'[i := h'[i].(outputPersisted := true)]
  }

  function SetHistory(t: Table, k: Key, h: seq<Row>): Table {
    t.(hist := t.hist[k := h])
  }

  function DropKey(t: Table, k: Key): Table
    requires WellFormed(t)
  {
    if k in t.hist then Table(Without(t.order, k), t.hist - {k}) else t
  }

  function Without<T(==,!new)>(s: seq<T>, x: T): (r: seq<T>)
    ensures forall y :: y in r <==> y in s && y != x
  {
    if s == [] then []
    else if s[0] == x then Without(s[1..], x)
    else [s[0]] + Without(s[1..], x)
  }

  lemma {:induction false} WithoutKeepsNoDuplicates<T(!new)>(s: seq<T>, x: T)
    requires NoDuplicates(s)
    ensures NoDuplicates(Without(s, x))
  {
    if s != [] {
      assert forall i :: 0 <= i < |s[1..]| ==> s[1..][i] == s[i + 1];
      WithoutKeepsNoDuplicates(s[1..], x);
      var rest := Without(s[1..], x);
      assert s[0] !in s[1..];
      assert s[0] !in rest;
      assert forall i :: 0 < i < |[s[0]] + rest| ==> ([s[0]] + rest)[i] == rest[i - 1];
    }
  }

  function RemoveRow(t: Table, k: Key, i: nat): Table
    requires WellFormed(t) && Has(t, k, i)
  {
    var h := t.hist[k][..i] + t.hist[k][i + 1..];
    if h == [] then DropKey(t, k) else SetHistory(t, k, h)
  }

  /** Where the row now at (l, j) stood before row (k, i) was taken out. */
  function Shift(k: Key, i: nat, l: Key, j: int): int {
    if l == k && j >= i then j + 1 else j
  }

  function Resolve(a: Artifact, b: BlobKey, s: ArtifactStatus): Artifact {
    if a.blobKey == b then a.(status := s) else a
  }

  /** Every artifact that references `b` gets the status: two documents with equal bytes share one blob. */
  function ResolveAll(artifacts: seq<Artifact>, b: BlobKey, s: ArtifactStatus): (r: seq<Artifact>)
    ensures |r| == |artifacts|
    ensures forall i :: 0 <= i < |r| ==> r[i] == Resolve(artifacts[i], b, s)
  {
    seq(|artifacts|, i requires 0 <= i < |artifacts| => Resolve(artifacts[i], b, s))
  }

  predicate Names(r: Row, b: BlobKey) {
    exists i :: 0 <= i < |r.artifacts| && r.artifacts[i].blobKey == b
  }

  function SoftPurged(r: Row): Row {
    r.(artifacts := [], outputPersisted := false, inputPersisted := false)
  }

  function SoftPurgedAll(h: seq<Row>): (s: seq<Row>)
    ensures |s| == |h|
    ensures forall i :: 0 <= i < |h| ==> s[i] == SoftPurged(h[i])
  {
    seq(|h|, i requires 0 <= i < |h| => SoftPurged(h[i]))
  }

  function SoftPurgedKey(t: Table, k: Key): Table {
    if k in t.hist then SetHistory(t, k, SoftPurgedAll(t.hist[k])) else t
  }

  /** The distinct blobs of the artifacts that are not STORED, in row order. */
  function Unstored(artifacts: seq<Artifact>): (keys: seq<BlobKey>)
    ensures NoDuplicates(keys)
    ensures forall b :: b in keys <==>
      exists i :: 0 <= i < |artifacts| && artifacts[i].blobKey == b && !artifacts[i].status.Stored?
  {
    if artifacts == [] then []
    else
      var last := artifacts[|artifacts| - 1];
      var keys := Unstored(artifacts[..|artifacts| - 1]);
      if !last.status.Stored? && last.blobKey !in keys then keys + [last.blobKey] else keys
  }

  datatype UnpersistedRun = UnpersistedRun(key: Key, id: ExecutionId, blobKeys: seq<BlobKey>)

  /** A key is on the repair worklist when its newest row is unpersisted and has an artifact that is not STORED. */
  predicate AwaitsRepair(h: seq<Row>) {
    h != [] && !h[|h| - 1].outputPersisted && Unstored(h[|h| - 1].artifacts) != []
  }

  function Worklist(t: Table, keys: seq<Key>): (runs: seq<UnpersistedRun>)
    requires forall k :: k in keys ==> k in t.hist
  {
    if keys == [] then []
    else
      var k := keys[|keys| - 1];
      var h := t.hist[k];
      Worklist(t, keys[..|keys| - 1]) +
      (if AwaitsRepair(h) then [UnpersistedRun(k, h[|h| - 1].id, Unstored(h[|h| - 1].artifacts))] else [])
  }

  predicate AllStored(artifacts: seq<Artifact>) {
    forall i :: 0 <= i < |artifacts| ==> artifacts[i].status.Stored?
  }

  function InputAdded(t: Table, k: Key, artifacts: seq<Artifact>): Table {
    var i := CurrentIndex(History(t, k));
    if artifacts == [] || i == |History(t, k)| || HasInput(t.hist[k][i].artifacts) then t
    else SetRow(t, k, i, WithInput(t.hist[k][i], artifacts))
  }

  function WithInput(r: Row, artifacts: seq<Artifact>): Row {
    r.(artifacts := r.artifacts + artifacts, inputPersisted := true)
  }

  predicate HasInput(artifacts: seq<Artifact>) {
    exists i :: 0 <= i < |artifacts| && artifacts[i].kind.IsInput()
  }

  function Size(artifacts: seq<Artifact>): nat {
    if artifacts == [] then 0 else artifacts[0].size + Size(artifacts[1..])
  }

  lemma {:induction false} WellFormedSetRow(t: Table, k: Key, i: nat, r: Row)
    requires WellFormed(t) && Has(t, k, i) && r.id == t.hist[k][i].id
    ensures WellFormed(SetRow(t, k, i, r))
  {
    var u := SetRow(t, k, i, r);
    assert forall id, l, j :: At(u, l, j, id) ==> At(t, l, j, id);
    assert forall l :: l in u.hist ==> |u.hist[l]| == |t.hist[l]|;
  }

  lemma {:induction false} WellFormedSetHistory(t: Table, k: Key, h: seq<Row>)
    requires WellFormed(t) && k in t.hist && |h| == |t.hist[k]|
    requires forall i :: 0 <= i < |h| ==> h[i].id == t.hist[k][i].id
    ensures WellFormed(SetHistory(t, k, h))
  {
    var u := SetHistory(t, k, h);
    assert forall id, l, j :: At(u, l, j, id) ==> At(t, l, j, id);
  }

  lemma {:induction false} WellFormedAppend(t: Table, k: Key, r: Row)
    requires WellFormed(t)
    requires !Known(t, r.id)
    ensures WellFormed(Append(t, k, r))
  {
    var u := Append(t, k, r);
    forall id, l, j | At(u, l, j, id)
      ensures if l == k && j == |History(t, k)| then id == r.id else At(t, l, j, id)
    {
    }
  }

  lemma {:induction false} WellFormedRemoveRow(t: Table, k: Key, i: nat)
    requires WellFormed(t) && Has(t, k, i)
    ensures WellFormed(RemoveRow(t, k, i))
  {
    WithoutKeepsNoDuplicates(t.order, k);
    var u := RemoveRow(t, k, i);
    forall id, l, j | At(u, l, j, id)
      ensures At(t, l, if l == k && j >= i then j + 1 else j, id)
    {
    }
  }

  lemma {:induction false} WellFormedDropKey(t: Table, k: Key)
    requires WellFormed(t)
    ensures WellFormed(DropKey(t, k))
  {
    WithoutKeepsNoDuplicates(t.order, k);
    var u := DropKey(t, k);
    assert forall id, l, j :: At(u, l, j, id) ==> At(t, l, j, id);
  }

  lemma {:induction false} SetRowSame(t: Table, k: Key, i: nat)
    requires Has(t, k, i)
    ensures SetRow(t, k, i, t.hist[k][i]) == t
  {
    assert t.hist[k][i := t.hist[k][i]] == t.hist[k];
  }

  lemma {:induction false} SetRowTwice(t: Table, k: Key, i: nat, r: Row, r': Row)
    requires Has(t, k, i)
    ensures SetRow(SetRow(t, k, i, r), k, i, r') == SetRow(t, k, i, r')
  {
    assert t.hist[k][i := r][i := r'] == t.hist[k][i := r'];
  }

  lemma {:induction false} AppendNothing<T>(s: seq<T>)
    ensures s + [] == s
  {
  }
}
