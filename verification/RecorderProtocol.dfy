/**
 * Any number of recorders and readers, one database or blob-store step at a time, in any order. Each may crash after
 * any step, any put or mark may fail, and any wait for the key lock may time out and go on without it.
 */
module RecorderProtocol {
  import opened Executions

  type Pid = nat

  /** A row and the key it is filed under; a table is represented by its rows by id. */
  datatype Filed = Filed(key: Key, row: Row)
  type Rows = map<ExecutionId, Filed>

  datatype Reply = Reply(succeeded: bool, docs: seq<Document>)

  datatype Outcome = Served(id: ExecutionId, docs: seq<Document>) | Live(reply: Reply) | Aborted

  /** Where one call stands. `allStored` is the loop flag of the document loop. */
  datatype Pc =
    | FirstLook
    | Waiting
    | SecondLook
    | Reading(row: Row, got: seq<Document>)
    | Torn
    | Opening
    | Calling(id: ExecutionId)
    | Answered(id: ExecutionId, reply: Reply)
    | Inserting(id: ExecutionId, reply: Reply, n: nat, allStored: bool)
    | Putting(id: ExecutionId, reply: Reply, n: nat, allStored: bool)
    | Marking(id: ExecutionId, reply: Reply, n: nat, allStored: bool, landed: bool)
    | Finalizing(id: ExecutionId, reply: Reply)
    | Leaving(outcome: Outcome)
    | Done(outcome: Outcome)
    | Crashed

  datatype Process = Process(key: Key, refresh: bool, recordOnError: bool, pc: Pc)

  /** `answers` remembers, for every success ever finalised, the documents its client gave. */
  datatype System = System(rows: Rows, blobs: Blobs, next: ExecutionId, locks: map<Key, Pid>, procs: map<Pid, Process>,
                           answers: map<ExecutionId, seq<Document>>)

  datatype Action =
    | Look | Fetch
    | Acquire | TimeOut
    | Open | Answer(reply: Reply) | Interrupt | Raise
    | RecordOutcome | Insert | Put(lands: bool) | Mark(lands: bool) | Finalize
    | Leave | Crash

  // ---- what each step does ----

  ghost function FindCurrent(rows: Rows, k: Key): Option<Row> {
    if exists id :: ServableAt(rows, k, id) then
      var id :| ServableAt(rows, k, id);
      Some(rows[id].row)
    else None
  }

  predicate ServableAt(rows: Rows, k: Key, id: ExecutionId) {
    id in rows && rows[id].key == k && Servable(rows[id].row)
  }

  function Retired(f: Filed, k: Key): Filed {
    if f.key == k then f.(row := Retire(f.row)) else f
  }

  function RetiredRows(rows: Rows, k: Key): Rows {
    map id | id in rows :: Retired(rows[id], k)
  }

  function FinalizedRows(rows: Rows, id: ExecutionId): Rows
    requires id in rows
  {
    var rows' := if rows[id].row.state == Success then RetiredRows(rows, rows[id].key) else rows;
    rows'[id := rows'[id].(row := rows'[id].row.(outputPersisted := true))]
  }

  function WithRow(s: System, id: ExecutionId, row: Row): System
    requires id in s.rows
  {
    s.(rows := s.rows[id := s.rows[id].(row := row)])
  }

  function Goto(s: System, p: Pid, pc: Pc): System
    requires p in s.procs
  {
    s.(procs := s.procs[p := s.procs[p].(pc := pc)])
  }

  function NextDocument(id: ExecutionId, reply: Reply, n: nat, allStored: bool): Pc {
    if n < |reply.docs| then Inserting(id, reply, n, allStored)
    else if allStored then Finalizing(id, reply)
    else Leaving(Live(reply))
  }

  function Unlocked(s: System, p: Pid, k: Key): System {
    if k in s.locks && s.locks[k] == p then s.(locks := s.locks - {k}) else s
  }

  predicate Enabled(s: System, p: Pid, a: Action) {
    && p in s.procs
    && var pc := s.procs[p].pc;
       match a
       case Look => pc.FirstLook? || pc.SecondLook?
       case Fetch => pc.Reading?
       case Acquire => pc.Waiting? && s.procs[p].key !in s.locks
       case TimeOut => pc.Waiting?
       case Open => pc.Opening?
       case Answer(_) => pc.Calling?
       case Interrupt => pc.Calling?
       case Raise => pc.Calling? && pc.id in s.rows
       case RecordOutcome => pc.Answered? && pc.id in s.rows
       case Insert => pc.Inserting? && pc.id in s.rows && pc.n < |pc.reply.docs|
       case Put(_) => pc.Putting? && pc.id in s.rows && pc.n < |pc.reply.docs|
       case Mark(_) => pc.Marking? && pc.id in s.rows && pc.n < |pc.reply.docs|
       case Finalize => pc.Finalizing? && pc.id in s.rows
       case Leave => pc.Leaving?
       case Crash => !pc.Done? && !pc.Crashed?
  }

  ghost function Do(s: System, p: Pid, a: Action): System
    requires Enabled(s, p, a)
  {
    var pc := s.procs[p].pc;
    match a
    case Look => Goto(s, p, Looked(s, s.procs[p]))
    case Fetch => Goto(s, p, Fetched(s, pc))
    case Acquire => Goto(s.(locks := s.locks[s.procs[p].key := p]), p, SecondLook)
    case TimeOut => Goto(s, p, SecondLook)
    case Open => Opened(s, p)
    case Answer(reply) => Goto(s, p, Answered(pc.id, reply))
    case Interrupt => Goto(s.(rows := s.rows - {pc.id}), p, Leaving(Aborted))
    case Raise => Goto(WithRow(s, pc.id, s.rows[pc.id].row.(state := Failure)), p, Leaving(Aborted))
    case RecordOutcome => OutcomeRecorded(s, p)
    case Insert => Inserted(s, p)
    case Put(lands) => BlobPut(s, p, lands)
    case Mark(lands) => Marked(s, p, lands)
    case Finalize => RunFinalized(s, p)
    case Leave => Goto(Unlocked(s, p, s.procs[p].key), p, Done(pc.outcome))
    case Crash => Goto(Unlocked(s, p, s.procs[p].key), p, Crashed)
  }

  /** The IN_PROGRESS row goes in before the client is called. */
  function Opened(s: System, p: Pid): System
    requires p in s.procs
  {
    Goto(s.(rows := s.rows[s.next := Filed(s.procs[p].key, FreshRow(s.next))], next := s.next + 1), p, Calling(s.next))
  }

  function OutcomeRecorded(s: System, p: Pid): System
    requires p in s.procs && s.procs[p].pc.Answered? && s.procs[p].pc.id in s.rows
  {
    var pc := s.procs[p].pc;
    Goto(WithRow(s, pc.id, s.rows[pc.id].row.(state := if pc.reply.succeeded then Success else Failure)), p,
      if pc.reply.succeeded || s.procs[p].recordOnError then NextDocument(pc.id, pc.reply, 0, true)
      else Leaving(Live(pc.reply)))
  }

  function Inserted(s: System, p: Pid): System
    requires p in s.procs && s.procs[p].pc.Inserting? && s.procs[p].pc.id in s.rows
    requires s.procs[p].pc.n < |s.procs[p].pc.reply.docs|
  {
    var pc := s.procs[p].pc;
    var row := s.rows[pc.id].row;
    Goto(WithRow(s, pc.id, row.(artifacts := row.artifacts + [MakeArtifact(pc.id, pc.reply.docs[pc.n], Pending)])), p,
      Putting(pc.id, pc.reply, pc.n, pc.allStored))
  }

  function BlobPut(s: System, p: Pid, lands: bool): System
    requires p in s.procs && s.procs[p].pc.Putting? && s.procs[p].pc.n < |s.procs[p].pc.reply.docs|
  {
    var pc := s.procs[p].pc;
    var d := pc.reply.docs[pc.n];
    Goto(if lands then s.(blobs := s.blobs[BlobKeyFor(pc.id, d.content) := d.content]) else s, p,
      Marking(pc.id, pc.reply, pc.n, pc.allStored, lands))
  }

  /** A mark that is lost after a landed put leaves the row PENDING; one lost after a refused put fails the call. */
  function Marked(s: System, p: Pid, lands: bool): System
    requires p in s.procs && s.procs[p].pc.Marking? && s.procs[p].pc.id in s.rows
    requires s.procs[p].pc.n < |s.procs[p].pc.reply.docs|
  {
    var pc := s.procs[p].pc;
    var row := s.rows[pc.id].row;
    var b := BlobKeyFor(pc.id, pc.reply.docs[pc.n].content);
    Goto(if lands then WithRow(s, pc.id, row.(artifacts := ResolveAll(row.artifacts, b, PutStatus(pc.landed)))) else s,
         p,
         if lands || pc.landed then NextDocument(pc.id, pc.reply, pc.n + 1, pc.allStored && pc.landed && lands)
         else Leaving(Aborted))
  }

  function PutStatus(landed: bool): ArtifactStatus {
    if landed then Stored else Failed
  }

  function RunFinalized(s: System, p: Pid): System
    requires p in s.procs && s.procs[p].pc.Finalizing? && s.procs[p].pc.id in s.rows
  {
    var pc := s.procs[p].pc;
    if AllStored(s.rows[pc.id].row.artifacts) then
      Goto(s.(rows := FinalizedRows(s.rows, pc.id),
              answers := if s.rows[pc.id].row.state == Success then s.answers[pc.id := pc.reply.docs] else s.answers),
           p, Leaving(Live(pc.reply)))
    else Goto(s, p, Leaving(Aborted))
  }

  /** A look in CACHE mode reads the current row; a miss, or REFRESH, goes on to the lock or to the run. */
  ghost function Looked(s: System, proc: Process): Pc {
    var current := if proc.refresh then None else FindCurrent(s.rows, proc.key);
    match current
    case Some(row) => Reading(row, [])
    case None => if proc.pc.FirstLook? then Waiting else Opening
  }

  /** One blob of the row that was read, or the whole answer once every blob is there. */
  function Fetched(s: System, pc: Pc): Pc
    requires pc.Reading?
  {
    var n := |pc.got|;
    if n >= |pc.row.artifacts| then Leaving(Served(pc.row.id, pc.got))
    else
      var a := pc.row.artifacts[n];
      if a.blobKey in s.blobs then Reading(pc.row, pc.got + [Document(a.kind, a.name, s.blobs[a.blobKey])]) else Torn
  }

  ghost predicate Initial(s: System) {
    && s.rows == map[] && s.blobs == map[] && s.locks == map[] && s.answers == map[]
    && forall p :: p in s.procs ==> s.procs[p].pc == if s.procs[p].refresh then Waiting else FirstLook
  }

  // ---- the invariant ----

  /** The artifact rows of `docs`, whatever their statuses. */
  predicate ArtifactsOf(artifacts: seq<Artifact>, id: ExecutionId, docs: seq<Document>) {
    && |artifacts| == |docs|
    && forall j :: 0 <= j < |docs| ==> artifacts[j] == MakeArtifact(id, docs[j], artifacts[j].status)
  }

  predicate BlobsOf(blobs: Blobs, id: ExecutionId, docs: seq<Document>) {
    forall j :: 0 <= j < |docs| ==> BlobKeyFor(id, docs[j].content) in blobs
  }

  /** The blobs named by the row are exactly the documents' bytes. */
  predicate Complete(row: Row, blobs: Blobs, docs: seq<Document>) {
    ArtifactsOf(row.artifacts, row.id, docs) && AllStored(row.artifacts) && BlobsOf(blobs, row.id, docs)
  }

  predicate Owns(pc: Pc) {
    pc.Calling? || pc.Answered? || pc.Inserting? || pc.Putting? || pc.Marking? || pc.Finalizing?
  }

  /** A row still being written: with its outcome, not persisted, carrying the first documents of the reply. */
  predicate Written(s: System, id: ExecutionId, reply: Reply, n: nat)
    requires id in s.rows
  {
    && n <= |reply.docs|
    && var row := s.rows[id].row;
       && row.state == (if reply.succeeded then Success else Failure)
       && !row.outputPersisted && !row.superseded
       && ArtifactsOf(row.artifacts, id, reply.docs[..n])
  }

  predicate StoredSoFar(s: System, id: ExecutionId, reply: Reply, n: nat)
    requires id in s.rows && n <= |s.rows[id].row.artifacts| && n <= |reply.docs|
  {
    AllStored(s.rows[id].row.artifacts[..n]) && BlobsOf(s.blobs, id, reply.docs[..n])
  }

  predicate OwnerOk(s: System, key: Key, pc: Pc)
    requires Owns(pc)
  {
    && pc.id in s.rows && s.rows[pc.id].key == key && pc.id !in s.answers
    && match pc
       case Calling(id) => s.rows[id].row == FreshRow(id)
       case Answered(id, _) => s.rows[id].row == FreshRow(id)
       case Inserting(id, reply, n, allStored) =>
         n < |reply.docs| && Written(s, id, reply, n) && (allStored ==> StoredSoFar(s, id, reply, n))
       case Putting(id, reply, n, allStored) =>
         n < |reply.docs| && Written(s, id, reply, n + 1) && (allStored ==> StoredSoFar(s, id, reply, n))
       case Marking(id, reply, n, allStored, landed) =>
         && n < |reply.docs| && Written(s, id, reply, n + 1) && (allStored ==> StoredSoFar(s, id, reply, n))
         && (landed ==> BlobKeyFor(id, reply.docs[n].content) in s.blobs)
       case Finalizing(id, reply) => Written(s, id, reply, |reply.docs|) && StoredSoFar(s, id, reply, |reply.docs|)
       case _ => false
  }

  /** A reader holds a complete answer that was finalised, and has copied a prefix of it. */
  predicate ReaderOk(s: System, key: Key, pc: Pc)
    requires pc.Reading?
  {
    && pc.row.id in s.answers && pc.row.id in s.rows && s.rows[pc.row.id].key == key
    && Complete(pc.row, s.blobs, s.answers[pc.row.id])
    && pc.got <= s.answers[pc.row.id]
  }

  predicate OutcomeOk(s: System, key: Key, o: Outcome) {
    o.Served? ==> o.id in s.answers && s.answers[o.id] == o.docs && o.id in s.rows && s.rows[o.id].key == key
  }

  predicate ProcessOk(s: System, proc: Process) {
    && !proc.pc.Torn?
    && (Owns(proc.pc) ==> OwnerOk(s, proc.key, proc.pc))
    && (proc.pc.Reading? ==> ReaderOk(s, proc.key, proc.pc))
    && (proc.pc.Leaving? || proc.pc.Done? ==> OutcomeOk(s, proc.key, proc.pc.outcome))
  }

  predicate RowOk(s: System, id: ExecutionId)
    requires id in s.rows
  {
    var row := s.rows[id].row;
    && row.id == id && id < s.next
    && (row.state == Success && row.outputPersisted ==> id in s.answers && Complete(row, s.blobs, s.answers[id]))
  }

  ghost predicate RowsOk(s: System) {
    && (forall id :: id in s.rows ==> RowOk(s, id))
    && (forall id :: id in s.answers ==> id in s.rows)
    && (forall b: BlobKey :: b in s.blobs ==> s.blobs[b] == b.fingerprint.preimage)
  }

  ghost predicate OneServable(rows: Rows) {
    forall k, i, j :: ServableAt(rows, k, i) && ServableAt(rows, k, j) ==> i == j
  }

  predicate OwnerOf(s: System, p: Pid) {
    p in s.procs && Owns(s.procs[p].pc)
  }

  ghost predicate OwnersDistinct(s: System) {
    forall p, q :: OwnerOf(s, p) && OwnerOf(s, q) && s.procs[p].pc.id == s.procs[q].pc.id ==> p == q
  }

  ghost predicate ProcessesOk(s: System) {
    forall p :: p in s.procs ==> ProcessOk(s, s.procs[p])
  }

  ghost predicate Inv(s: System) {
    RowsOk(s) && OneServable(s.rows) && OwnersDistinct(s) && ProcessesOk(s)
  }

  // ---- what no step of anybody else can take away ----

  /** Only the row `id` changed, apart from retirements; blobs and answers only grew. */
  ghost predicate Grows(s: System, s': System, id: ExecutionId) {
    && s.next <= s'.next
    && (forall j :: j in s.rows && j != id ==>
          j in s'.rows && (s'.rows[j] == s.rows[j] || s'.rows[j] == Retired(s.rows[j], s.rows[j].key)))
    && (forall j :: j in s'.rows && j !in s.rows ==> j == id)
    && (forall b :: b in s.blobs ==> b in s'.blobs)
    && (forall b: BlobKey :: b in s'.blobs ==> s'.blobs[b] == b.fingerprint.preimage)
    && (forall j :: j in s.answers ==> j in s'.answers && s'.answers[j] == s.answers[j])
    && (forall j :: j in s'.answers && j !in s.answers ==> j == id)
  }

  lemma {:induction false} OthersOk(s: System, s': System, id: ExecutionId, proc: Process)
    requires RowsOk(s) && ProcessOk(s, proc) && Grows(s, s', id) && id !in s.answers
    requires Owns(proc.pc) ==> proc.pc.id != id
    ensures ProcessOk(s', proc)
  {
    if Owns(proc.pc) {
      assert s'.rows[proc.pc.id] == s.rows[proc.pc.id];
    }
  }

  lemma {:induction false} OtherRowOk(s: System, s': System, id: ExecutionId, j: ExecutionId)
    requires RowsOk(s) && Grows(s, s', id) && j in s'.rows && j != id
    ensures RowOk(s', j)
  {
    assert RowOk(s, j);
  }

  /** A step that rewrites one unfinished row keeps the invariant, as long as its own process and row come out right. */
  lemma {:induction false} StepKeepsInv(s: System, s': System, p: Pid, id: ExecutionId)
    requires Inv(s) && p in s.procs && Grows(s, s', id) && id !in s.answers
    requires s'.procs.Keys == s.procs.Keys && forall q :: q in s.procs && q != p ==> s'.procs[q] == s.procs[q]
    requires forall q :: q in s.procs && q != p && Owns(s.procs[q].pc) ==> s.procs[q].pc.id != id
    requires id in s'.rows ==> RowOk(s', id)
    requires forall j :: j in s'.answers ==> j in s'.rows
    requires OneServable(s'.rows)
    requires ProcessOk(s', s'.procs[p])
    requires Owns(s'.procs[p].pc) ==>
      s'.procs[p].pc.id == id || (Owns(s.procs[p].pc) && s.procs[p].pc.id == s'.procs[p].pc.id)
    ensures Inv(s')
  {
    forall q | q in s.procs && q != p {
      OthersOk(s, s', id, s.procs[q]);
    }
    forall j | j in s'.rows && j != id {
      OtherRowOk(s, s', id, j);
    }
  }

  /** A step that touches no row and no blob. */
  lemma {:induction false} QuietStep(s: System, s': System, p: Pid)
    requires Inv(s) && p in s.procs
    requires s'.rows == s.rows && s'.blobs == s.blobs && s'.next == s.next && s'.answers == s.answers
    requires s'.procs.Keys == s.procs.Keys && forall q :: q in s.procs && q != p ==> s'.procs[q] == s.procs[q]
    requires ProcessOk(s', s'.procs[p])
    requires Owns(s'.procs[p].pc) ==> Owns(s.procs[p].pc) && s.procs[p].pc.id == s'.procs[p].pc.id
    ensures Inv(s')
  {
    forall q | q in s.procs && q != p
      ensures ProcessOk(s', s.procs[q])
    {
    }
    forall id | id in s.rows
      ensures RowOk(s', id)
    {
    }
  }

  lemma {:induction false} LookKeeps(s: System, p: Pid)
    requires Inv(s) && Enabled(s, p, Look)
    ensures Inv(Do(s, p, Look))
  {
    QuietStep(s, Do(s, p, Look), p);
  }

  lemma {:induction false} FetchKeeps(s: System, p: Pid)
    requires Inv(s) && Enabled(s, p, Fetch)
    ensures Inv(Do(s, p, Fetch))
  {
    var pc := s.procs[p].pc;
    var docs := s.answers[pc.row.id];
    assert ReaderOk(s, s.procs[p].key, pc);
    if |pc.got| < |docs| {
      assert pc.row.artifacts[|pc.got|] == MakeArtifact(pc.row.id, docs[|pc.got|], pc.row.artifacts[|pc.got|].status);
    }
    QuietStep(s, Do(s, p, Fetch), p);
  }

  lemma {:induction false} OpenKeeps(s: System, p: Pid)
    requires Inv(s) && p in s.procs && s.procs[p].pc.Opening?
    ensures Inv(Opened(s, p))
  {
    assert forall id :: id in s.rows ==> RowOk(s, id);
    assert s.next !in s.rows;
    var s' := Opened(s, p);
    assert forall k, i :: ServableAt(s'.rows, k, i) ==> ServableAt(s.rows, k, i);
    StepKeepsInv(s, s', p, s.next);
  }

  /** The owner of an unfinished row rewrites it, or drops it, and perhaps adds a blob. */
  lemma {:induction false} OwnRowStep(s: System, s': System, p: Pid, id: ExecutionId)
    requires Inv(s) && OwnerOf(s, p) && s.procs[p].pc.id == id
    requires s'.next == s.next && s'.answers == s.answers
    requires forall j :: j != id ==> (j in s'.rows <==> j in s.rows) && (j in s.rows ==> s'.rows[j] == s.rows[j])
    requires id in s'.rows ==> s'.rows[id].row.id == id && !s'.rows[id].row.outputPersisted
    requires forall b :: b in s.blobs ==> b in s'.blobs
    requires forall b: BlobKey :: b in s'.blobs ==> s'.blobs[b] == b.fingerprint.preimage
    requires s'.procs.Keys == s.procs.Keys && forall q :: q in s.procs && q != p ==> s'.procs[q] == s.procs[q]
    requires ProcessOk(s', s'.procs[p])
    requires Owns(s'.procs[p].pc) ==> s'.procs[p].pc.id == id
    ensures Inv(s')
  {
    assert ProcessOk(s, s.procs[p]);
    assert RowOk(s, id);
    assert forall k, i :: ServableAt(s'.rows, k, i) ==> ServableAt(s.rows, k, i);
    assert forall q :: q in s.procs && q != p && Owns(s.procs[q].pc) ==> OwnerOf(s, q);
    hide ProcessOk;
    StepKeepsInv(s, s', p, id);
  }

  lemma {:induction false} AnswerKeeps(s: System, p: Pid, reply: Reply)
    requires Inv(s) && Enabled(s, p, Answer(reply))
    ensures Inv(Do(s, p, Answer(reply)))
  {
    var s' := Do(s, p, Answer(reply));
    assert ProcessOk(s, s.procs[p]);
    QuietStep(s, s', p);
  }

  lemma {:induction false} InterruptKeeps(s: System, p: Pid)
    requires Inv(s) && Enabled(s, p, Interrupt)
    ensures Inv(Do(s, p, Interrupt))
  {
    OwnRowStep(s, Do(s, p, Interrupt), p, s.procs[p].pc.id);
  }

  lemma {:induction false} RaiseKeeps(s: System, p: Pid)
    requires Inv(s) && Enabled(s, p, Raise)
    ensures Inv(Do(s, p, Raise))
  {
    assert ProcessOk(s, s.procs[p]);
    OwnRowStep(s, Do(s, p, Raise), p, s.procs[p].pc.id);
  }

  lemma {:induction false} RecordOutcomeKeeps(s: System, p: Pid)
    requires Inv(s) && p in s.procs && s.procs[p].pc.Answered?
    ensures Inv(OutcomeRecorded(s, p))
  {
    assert ProcessOk(s, s.procs[p]);
    var s' := OutcomeRecorded(s, p);
    OwnRowStep(s, s', p, s.procs[p].pc.id);
  }

  lemma {:induction false} InsertKeeps(s: System, p: Pid)
    requires Inv(s) && p in s.procs && s.procs[p].pc.Inserting?
    ensures Inv(Inserted(s, p))
  {
    assert ProcessOk(s, s.procs[p]);
    var pc := s.procs[p].pc;
    var s' := Inserted(s, p);
    var a, a' := s.rows[pc.id].row.artifacts, s'.rows[pc.id].row.artifacts;
    assert forall j :: 0 <= j < pc.n ==> pc.reply.docs[..pc.n + 1][j] == pc.reply.docs[..pc.n][j] && a'[j] == a[j];
    assert a'[..pc.n] == a[..pc.n];
    OwnRowStep(s, s', p, pc.id);
  }

  lemma {:induction false} PutKeeps(s: System, p: Pid, lands: bool)
    requires Inv(s) && p in s.procs && s.procs[p].pc.Putting?
    ensures Inv(BlobPut(s, p, lands))
  {
    assert ProcessOk(s, s.procs[p]);
    OwnRowStep(s, BlobPut(s, p, lands), p, s.procs[p].pc.id);
  }

  /** Marking the last of the first `n + 1` artifact rows STORED leaves them all STORED if the earlier ones were. */
  lemma {:induction false} MarkedArtifacts(a: seq<Artifact>, id: ExecutionId, docs: seq<Document>, n: nat,
                                           status: ArtifactStatus)
    requires n < |docs| && ArtifactsOf(a, id, docs[..n + 1])
    ensures var a' := ResolveAll(a, BlobKeyFor(id, docs[n].content), status);
      && ArtifactsOf(a', id, docs[..n + 1])
      && (status.Stored? && AllStored(a[..n]) ==> AllStored(a'))
  {
    var a' := ResolveAll(a, BlobKeyFor(id, docs[n].content), status);
    assert a[n] == MakeArtifact(id, docs[n], a[n].status);
    if AllStored(a[..n]) {
      assert forall j :: 0 <= j < n ==> a[j] == a[..n][j];
    }
  }

  lemma {:induction false} MarkKeeps(s: System, p: Pid, lands: bool)
    requires Inv(s) && p in s.procs && s.procs[p].pc.Marking?
    ensures Inv(Marked(s, p, lands))
  {
    assert ProcessOk(s, s.procs[p]);
    var pc := s.procs[p].pc;
    var a := s.rows[pc.id].row.artifacts;
    MarkedArtifacts(a, pc.id, pc.reply.docs, pc.n, PutStatus(pc.landed));
    var s' := Marked(s, p, lands);
    MarkedProcess(s, s', p, lands);
    OwnRowStep(s, s', p, pc.id);
  }

  lemma {:induction false} MarkedProcess(s: System, s': System, p: Pid, lands: bool)
    requires Inv(s) && p in s.procs && s.procs[p].pc.Marking? && s' == Marked(s, p, lands)
    requires var pc := s.procs[p].pc;
      var a := s.rows[pc.id].row.artifacts;
      var a' := ResolveAll(a, BlobKeyFor(pc.id, pc.reply.docs[pc.n].content), PutStatus(pc.landed));
      && ArtifactsOf(a', pc.id, pc.reply.docs[..pc.n + 1])
      && (pc.landed && AllStored(a[..pc.n]) ==> AllStored(a'))
    ensures ProcessOk(s', s'.procs[p])
  {
    var pc := s.procs[p].pc;
    assert ProcessOk(s, s.procs[p]);
    var docs := pc.reply.docs;
    assert docs[..pc.n + 1] == docs[..pc.n] + [docs[pc.n]];
    if pc.n + 1 == |docs| {
      assert docs[..pc.n + 1] == docs;
      assert docs[..|docs|] == docs;
    }
    var a' := s'.rows[pc.id].row.artifacts;
    assert |a'| == pc.n + 1 && a'[..pc.n + 1] == a';
  }

  /** Finalising retires the key's other success and puts this one, complete, in its place. */
  lemma {:induction false} FinalizeKeeps(s: System, p: Pid)
    requires Inv(s) && p in s.procs && s.procs[p].pc.Finalizing?
    ensures Inv(RunFinalized(s, p))
  {
    assert ProcessOk(s, s.procs[p]);
    var pc := s.procs[p].pc;
    var docs := pc.reply.docs;
    var s' := RunFinalized(s, p);
    var row := s.rows[pc.id].row;
    assert docs[..|docs|] == docs;
    assert row.artifacts[..|docs|] == row.artifacts;
    assert RowOk(s, pc.id);
    FinalizedServable(s.rows, pc.id);
    assert s'.rows[pc.id].row == row.(outputPersisted := true);
    assert forall q :: q in s.procs && q != p && Owns(s.procs[q].pc) ==> OwnerOf(s, q);
    StepKeepsInv(s, s', p, pc.id);
  }

  lemma {:induction false} FinalizedServable(rows: Rows, id: ExecutionId)
    requires OneServable(rows) && id in rows && !rows[id].row.outputPersisted && !rows[id].row.superseded
    ensures OneServable(FinalizedRows(rows, id))
    ensures rows[id].row.state == Success ==> ServableAt(FinalizedRows(rows, id), rows[id].key, id)
  {
    var rows' := FinalizedRows(rows, id);
    forall k, i | ServableAt(rows', k, i)
      ensures if rows[id].row.state == Success && k == rows[id].key then i == id else ServableAt(rows, k, i)
    {
    }
  }

  lemma {:induction false} LeaveKeeps(s: System, p: Pid, pc: Pc)
    requires Inv(s) && p in s.procs && (pc.Crashed? || (s.procs[p].pc.Leaving? && pc == Done(s.procs[p].pc.outcome)))
    ensures Inv(Goto(Unlocked(s, p, s.procs[p].key), p, pc))
  {
    assert ProcessOk(s, s.procs[p]);
    QuietStep(s, Goto(Unlocked(s, p, s.procs[p].key), p, pc), p);
  }

  lemma {:induction false} WaitKeeps(s: System, p: Pid, locks: map<Key, Pid>)
    requires Inv(s) && p in s.procs && s.procs[p].pc.Waiting?
    ensures Inv(Goto(s.(locks := locks), p, SecondLook))
  {
    QuietStep(s, Goto(s.(locks := locks), p, SecondLook), p);
  }

  /** No step of any process, in any state of the others, breaks the invariant. */
  lemma {:induction false} EveryStepKeeps(s: System, p: Pid, a: Action)
    requires Inv(s) && Enabled(s, p, a)
    ensures Inv(Do(s, p, a))
  {
    hide Inv;
    match a
    case Look => LookKeeps(s, p);
    case Fetch => FetchKeeps(s, p);
    case Acquire => WaitKeeps(s, p, s.locks[s.procs[p].key := p]);
    case TimeOut => WaitKeeps(s, p, s.locks);
    case Open => OpenKeeps(s, p);
    case Answer(reply) => AnswerKeeps(s, p, reply);
    case Interrupt => InterruptKeeps(s, p);
    case Raise => RaiseKeeps(s, p);
    case RecordOutcome => RecordOutcomeKeeps(s, p);
    case Insert => InsertKeeps(s, p);
    case Put(lands) => PutKeeps(s, p, lands);
    case Mark(lands) => MarkKeeps(s, p, lands);
    case Finalize => FinalizeKeeps(s, p);
    case Leave => LeaveKeeps(s, p, Done(s.procs[p].pc.outcome));
    case Crash => LeaveKeeps(s, p, Crashed);
  }
}
