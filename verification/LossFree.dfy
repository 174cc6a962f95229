/** Stores from which nobody else deletes a blob: over any run of changes every STORED row still has its blob. */
module LossFree {
  import opened Executions
  import opened CacheModel
  import opened CacheSpec
  import opened Storing
  import opened Repairing
  import opened Purging
  import opened Recovery
  import opened Engine
  import opened RepairService
  import PurgeService

  datatype Store = Store(table: Table, blobs: Blobs, next: ExecutionId)

  /** What the services' methods do to rows and blobs, one method each. */
  datatype Change =
    | Open(k: Key)
    | Record(k: Key, i: nat, state: ExecutionState, output: seq<Document>, input: seq<Document>, faults: nat -> Fault)
    | Close(k: Key, i: nat, state: ExecutionState)
    | Drop(k: Key, i: nat)
    | BackFill(k: Key, i: nat, faults: nat -> Fault)
    | Quarantine(k: Key, i: nat)
    | Repair
    | Purge(k: Key, hard: bool)

  predicate InFlight(t: Table, k: Key, i: nat) {
    Has(t, k, i) && t.hist[k][i] == FreshRow(t.hist[k][i].id)
  }

  ghost predicate Enabled(s: Store, c: Change, inputs: Inputs) {
    match c
    case Open(_) => true
    case Record(k, i, state, output, input, _) =>
      && InFlight(s.table, k, i) && state != InProgress
      && (input == [] || input == inputs(k)) && (forall j :: 0 <= j < |output| ==> !output[j].kind.IsInput())
    case Close(k, i, _) => InFlight(s.table, k, i)
    case Drop(k, i) => InFlight(s.table, k, i)
    case BackFill(k, i, _) =>
      && ServableAt(s.table, k, i) && Present(s.table.hist[k][i].artifacts, s.blobs)
      && !s.table.hist[k][i].inputPersisted && inputs(k) != []
    case Quarantine(k, i) => ServableAt(s.table, k, i) && !Present(s.table.hist[k][i].artifacts, s.blobs)
    case Repair => true
    case Purge(_, _) => true
  }

  /** The blobs the key's rows name, with the sizes the rows give them. */
  ghost function KeySizes(t: Table, k: Key): (sizes: map<BlobKey, nat>)
    ensures SizesOf(History(t, k), sizes)
  {
    assert forall b :: NamedBy(t, [k], b) <==> NamedIn(History(t, k), b) by {
      forall b {
        NamedByNext(t, [], k, b);
      }
      assert [] + [k] == [k];
    }
    map b | b in NamedBlobs(t, [k]) :: |b.fingerprint.preimage|
  }

  function WithoutBlobsOf(blobs: Blobs, r: Row): Blobs {
    map b | b in blobs && !Names(r, b) :: blobs[b]
  }

  ghost function Do(s: Store, c: Change, inputs: Inputs): Store
    requires WellFormed(s.table) && Enabled(s, c, inputs)
  {
    var Store(t, blobs, next) := s;
    match c
    case Open(k) => Store(Append(t, k, FreshRow(next)), blobs, next + 1)
    case Record(k, i, state, output, input, faults) =>
      var docs := output + input;
      Store(RecordedTable(t, k, i, state, docs, faults), PutAll(blobs, t.hist[k][i].id, docs, faults, |docs|), next)
    case Close(k, i, state) => Store(OutcomeRecorded(t, k, i, state), blobs, next)
    case Drop(k, i) => Store(RemoveRow(t, k, i), blobs, next)
    case BackFill(k, i, faults) =>
      Store(RemarkedTable(t, k, i, inputs(k), faults, |inputs(k)|),
            PutAll(blobs, t.hist[k][i].id, inputs(k), faults, |inputs(k)|), next)
    case Quarantine(k, i) => Store(RemoveRow(t, k, i), WithoutBlobsOf(blobs, t.hist[k][i]), next)
    case Repair => Store(Repaired(t, blobs), blobs, next)
    case Purge(k, hard) => Store(PurgeService.PurgedTable(t, k, hard), blobs - KeySizes(t, k).Keys, next)
  }

  ghost predicate Intact(s: Store, inputs: Inputs) {
    StoreOk(s.table, s.blobs, inputs, s.next) && NoneLost(s.table, s.blobs)
  }

  lemma {:induction false} ClosingLosesNone(t: Table, blobs: Blobs, k: Key, i: nat, state: ExecutionState)
    requires NoneLost(t, blobs) && Has(t, k, i)
    ensures NoneLost(OutcomeRecorded(t, k, i, state), blobs)
  {
    var u := OutcomeRecorded(t, k, i, state);
    forall l, j | Has(u, l, j)
      ensures StoredIsPresent(u.hist[l][j].artifacts, blobs)
    {
      assert Has(t, l, j) && u.hist[l][j].artifacts == t.hist[l][j].artifacts;
    }
  }

  lemma {:induction false} DroppingLosesNone(t: Table, blobs: Blobs, k: Key, i: nat)
    requires WellFormed(t) && NoneLost(t, blobs) && Has(t, k, i)
    ensures NoneLost(RemoveRow(t, k, i), blobs)
  {
    forall l, j | Has(RemoveRow(t, k, i), l, j)
      ensures StoredIsPresent(RemoveRow(t, k, i).hist[l][j].artifacts, blobs)
    {
      RemovedRowAt(t, k, i, l, j);
      hide RemoveRow, WellFormed;
    }
  }

  /** One change keeps the store sound and every STORED row's blob in place. */
  lemma {:induction false} ChangeKeeps(s: Store, c: Change, inputs: Inputs)
    requires Intact(s, inputs) && Enabled(s, c, inputs)
    ensures Intact(Do(s, c, inputs), inputs)
  {
    var Store(t, blobs, next) := s;
    assert WellFormed(t);
    hide StoreOk, NoneLost, RecordedTable, PutAll, RemarkedTable, Repaired, RemoveRow, OutcomeRecorded, Append, Entries,
      KeySizes, BackFilled;
    match c
    case Open(k) =>
      SaveKeepsMeaning(t, blobs, inputs, next, k);
      OpeningLosesNone(t, blobs, k, next);
    case Record(k, i, state, output, input, faults) =>
      RecordedMeaning(t, blobs, inputs, next, k, i, state, output, input, faults);
      RecordingLosesNone(t, blobs, inputs, next, k, i, state, output + input, faults);
    case Close(k, i, state) =>
      OutcomeMeaning(t, blobs, inputs, next, k, i, state);
      ClosingLosesNone(t, blobs, k, i, state);
    case Drop(k, i) =>
      InterruptMeaning(t, blobs, inputs, next, k, i);
      DroppingLosesNone(t, blobs, k, i);
    case BackFill(k, i, faults) =>
      BackFillMeaning(t, blobs, inputs, next, k, i, faults);
      RemarkedIsBackFilled(t, k, i, inputs(k), faults);
      BackFillLosesNone(t, blobs, k, i, inputs(k), faults);
    case Quarantine(k, i) =>
      QuarantineMeaning(t, blobs, inputs, next, k, i, WithoutBlobsOf(blobs, t.hist[k][i]));
      QuarantineLosesNone(t, blobs, inputs, next, k, i, WithoutBlobsOf(blobs, t.hist[k][i]));
    case Repair =>
      RepairMeaning(t, blobs, inputs, next);
      RepairLosesNone(t, blobs);
    case Purge(k, hard) =>
      PurgeKeeps(t, blobs, inputs, next, k, hard, KeySizes(t, k));
  }

  lemma {:induction false} PurgeKeeps(t: Table, blobs: Blobs, inputs: Inputs, next: nat, k: Key, hard: bool,
                                      sizes: map<BlobKey, nat>)
    requires StoreOk(t, blobs, inputs, next) && NoneLost(t, blobs) && SizesOf(History(t, k), sizes)
    ensures var u := PurgeService.PurgedTable(t, k, hard);
      StoreOk(u, blobs - sizes.Keys, inputs, next) && NoneLost(u, blobs - sizes.Keys)
  {
    if hard {
      PurgeService.DropMeaning(t, blobs, inputs, next, k, sizes);
      DropPurges(t, k);
    } else {
      PurgeService.SoftPurgeMeaning(t, blobs, inputs, next, k, sizes);
      SoftPurgePurges(t, k);
    }
    PurgeLosesNone(t, blobs, inputs, next, k, PurgeService.PurgedTable(t, k, hard), sizes);
    hide StoreOk, NoneLost, SizesOf, PurgedKey, DropKey, SoftPurgedKey;
  }

  // ---- the changes are what the services do ----

  ghost function StoreOf(engine: CachedMlExecutionService): Store
    requires engine.repo.Separate()
    reads engine, engine.repo, engine.repo.rows, engine.store
  {
    Store(engine.repo.View(), engine.store.blobs, engine.nextId)
  }

  /** The row of a run goes in. */
  method PerformOpen(engine: CachedMlExecutionService, c: Change)
    requires engine.Valid() && Enabled(StoreOf(engine), c, engine.inputParts) && c.Open?
    modifies engine`nextId, engine.repo, engine.repo.rows
    ensures engine.repo.Valid() && fresh(engine.repo.rows - old(engine.repo.rows))
    ensures StoreOf(engine) == Do(old(StoreOf(engine)), c, engine.inputParts)
  {
    hide StoreOk, WellFormed, Entries, Append, FreshRow;
    var _, _ := engine.OpenRun(c.k);
  }

  /** Its outcome and documents are stored, and it is finalised if nothing was lost. */
  method PerformRecord(engine: CachedMlExecutionService, c: Change)
    requires engine.Valid() && Enabled(StoreOf(engine), c, engine.inputParts) && c.Record?
    modifies engine.repo.rows, engine.store
    ensures engine.repo.Valid() && engine.repo.rows == old(engine.repo.rows)
    ensures StoreOf(engine) == Do(old(StoreOf(engine)), c, engine.inputParts)
  {
    hide StoreOk, WellFormed, Entries, RecordedTable, PutAll;
    var rows := engine.repo.FindAll(c.k);
    var _ := engine.StoreRun(rows[c.i].id, c.state, c.output + c.input, c.faults, c.k, c.i);
  }

  /** Its outcome alone is written. */
  method PerformClose(engine: CachedMlExecutionService, c: Change)
    requires engine.Valid() && Enabled(StoreOf(engine), c, engine.inputParts) && c.Close?
    modifies engine.repo.rows
    ensures engine.repo.Valid() && engine.repo.rows == old(engine.repo.rows)
    ensures StoreOf(engine) == Do(old(StoreOf(engine)), c, engine.inputParts)
  {
    hide StoreOk, WellFormed, Entries, SetRow, FreshRow;
    var rows := engine.repo.FindAll(c.k);
    var _ := engine.repo.RecordOutcome(rows[c.i].id, c.state);
  }

  /** It is dropped. */
  method PerformDrop(engine: CachedMlExecutionService, c: Change)
    requires engine.Valid() && Enabled(StoreOf(engine), c, engine.inputParts) && c.Drop?
    modifies engine.repo
    ensures engine.repo.Valid() && engine.repo.rows == old(engine.repo.rows)
    ensures StoreOf(engine) == Do(old(StoreOf(engine)), c, engine.inputParts)
  {
    hide StoreOk, WellFormed, Entries, RemoveRow;
    var rows := engine.repo.FindAll(c.k);
    engine.DropRun(rows[c.i].id, c.k, c.i);
  }

  /** A hit attaches the input. */
  method PerformBackFill(engine: CachedMlExecutionService, c: Change)
    requires engine.Valid() && Enabled(StoreOf(engine), c, engine.inputParts) && c.BackFill?
    modifies engine.repo.rows, engine.store
    ensures engine.repo.Valid() && engine.repo.rows == old(engine.repo.rows)
    ensures StoreOf(engine) == Do(old(StoreOf(engine)), c, engine.inputParts)
  {
    hide StoreOk, WellFormed, Entries, PutAll, RemarkedTable;
    var rows := engine.repo.FindAll(c.k);
    engine.AttachInput(AtDataset(c.k), rows[c.i], c.faults, c.i);
  }

  /** A broken answer is taken away, and no removal is refused. */
  method PerformQuarantine(engine: CachedMlExecutionService, c: Change)
    requires engine.Valid() && Enabled(StoreOf(engine), c, engine.inputParts) && c.Quarantine?
    modifies engine.repo, engine.store
    ensures engine.repo.Valid() && engine.repo.rows == old(engine.repo.rows)
    ensures StoreOf(engine) == Do(old(StoreOf(engine)), c, engine.inputParts)
  {
    hide StoreOk, WellFormed, Entries, RemoveRow;
    ghost var blobs := engine.store.blobs;
    var rows := engine.repo.FindAll(c.k);
    var removed := engine.RemoveExecutionAndBlobs(rows[c.i], _ => true, c.k, c.i);
    assert removed;
    assert engine.store.blobs == WithoutBlobsOf(blobs, rows[c.i]);
  }

  function AtDataset(k: Key): Command {
    Command(k, Api, [], false, Cached, Dataset, false)
  }

  /** Maintenance. */
  method PerformUpkeep(engine: CachedMlExecutionService, purge: PurgeService.PurgeService, repair: RepairStoreService,
                       c: Change)
    requires engine.Valid() && Enabled(StoreOf(engine), c, engine.inputParts) && (c.Repair? || c.Purge?)
    requires purge.engine == engine && repair.repo == engine.repo && repair.store == engine.store
    modifies engine.repo, engine.repo.rows, engine.store, engine.journal
    ensures engine.repo.Valid() && engine.repo.rows == old(engine.repo.rows)
    ensures StoreOf(engine) == Do(old(StoreOf(engine)), c, engine.inputParts)
  {
    hide StoreOk, Entries, Repaired, Report;
    ghost var t := engine.repo.View();
    match c
    case Repair =>
      var _ := repair.Repair();
    case Purge(k, hard) =>
      var _, sizes := purge.PurgeRows(k, hard);
      SameNames(History(t, k), sizes, KeySizes(t, k));
  }

  lemma {:induction false} SameNames(h: seq<Row>, a: map<BlobKey, nat>, b: map<BlobKey, nat>)
    requires SizesOf(h, a) && SizesOf(h, b)
    ensures a.Keys == b.Keys
  {
  }

  /** Each of the changes can be made when its turn comes. */
  ghost predicate Possible(s: Store, changes: seq<Change>, n: nat, inputs: Inputs)
    requires n <= |changes|
    decreases |changes| - n
  {
    n < |changes| ==>
      && WellFormed(s.table) && Enabled(s, changes[n], inputs)
      && Possible(Do(s, changes[n], inputs), changes, n + 1, inputs)
  }

  /** The store once the changes from the n-th on have been made. */
  ghost function Finally(s: Store, changes: seq<Change>, n: nat, inputs: Inputs): Store
    requires n <= |changes| && Possible(s, changes, n, inputs)
    decreases |changes| - n
  {
    if n < |changes| then Finally(Do(s, changes[n], inputs), changes, n + 1, inputs) else s
  }

  method Perform(engine: CachedMlExecutionService, purge: PurgeService.PurgeService, repair: RepairStoreService,
                 c: Change)
    requires engine.repo.Valid() && Intact(StoreOf(engine), engine.inputParts)
    requires Enabled(StoreOf(engine), c, engine.inputParts)
    requires purge.engine == engine && repair.repo == engine.repo && repair.store == engine.store
    modifies engine`nextId, engine.repo, engine.repo.rows, engine.store, engine.journal
    ensures engine.repo.Valid() && fresh(engine.repo.rows - old(engine.repo.rows))
    ensures StoreOf(engine) == Do(old(StoreOf(engine)), c, engine.inputParts)
    ensures Intact(StoreOf(engine), engine.inputParts)
  {
    ChangeKeeps(StoreOf(engine), c, engine.inputParts);
    hide Enabled, Do, StoreOk, NoneLost;
    match c
    case Open(_) => PerformOpen(engine, c);
    case Record(_, _, _, _, _, _) => PerformRecord(engine, c);
    case Close(_, _, _) => PerformClose(engine, c);
    case Drop(_, _) => PerformDrop(engine, c);
    case BackFill(_, _, _) => PerformBackFill(engine, c);
    case Quarantine(_, _) => PerformQuarantine(engine, c);
    case Repair => PerformUpkeep(engine, purge, repair, c);
    case Purge(_, _) => PerformUpkeep(engine, purge, repair, c);
  }

  /**
   * Any run of changes by the services' own methods: as long as nobody else deletes a blob, no STORED row loses its
   * own.
   */
  method Live(engine: CachedMlExecutionService, purge: PurgeService.PurgeService, repair: RepairStoreService,
              changes: seq<Change>)
    requires engine.Valid() && NoneLost(engine.repo.View(), engine.store.blobs)
    requires Possible(StoreOf(engine), changes, 0, engine.inputParts)
    requires purge.engine == engine && repair.repo == engine.repo && repair.store == engine.store
    modifies engine`nextId, engine.repo, engine.repo.rows, engine.store, engine.journal
    ensures engine.Valid() && NoneLost(engine.repo.View(), engine.store.blobs)
    ensures StoreOf(engine) == Finally(old(StoreOf(engine)), changes, 0, engine.inputParts)
  {
    for n := 0 to |changes|
      invariant engine.repo.Valid() && fresh(engine.repo.rows - old(engine.repo.rows))
      invariant Intact(StoreOf(engine), engine.inputParts)
      invariant Possible(StoreOf(engine), changes, n, engine.inputParts)
      invariant Finally(StoreOf(engine), changes, n, engine.inputParts) ==
        Finally(old(StoreOf(engine)), changes, 0, engine.inputParts)
    {
      hide Enabled, Do, Intact;
      Perform(engine, purge, repair, changes[n]);
    }
  }

  // ---- runs ----

  const Empty := Store(Table([], map[]), map[], 0)

  ghost predicate IsRun(states: seq<Store>, changes: seq<Change>, inputs: Inputs) {
    && |states| == |changes| + 1 && states[0] == Empty
    && forall n :: 0 <= n < |changes| ==> Stepped(states[n], changes[n], inputs, states[n + 1])
  }

  ghost predicate Stepped(s: Store, c: Change, inputs: Inputs, s': Store) {
    WellFormed(s.table) && Enabled(s, c, inputs) && s' == Do(s, c, inputs)
  }

  /** In every state of every run no STORED row has lost its blob. */
  lemma {:induction false} EveryStateIsIntact(states: seq<Store>, changes: seq<Change>, inputs: Inputs, n: nat)
    requires IsRun(states, changes, inputs) && n <= |changes|
    ensures Intact(states[n], inputs)
  {
    if n == 0 {
      EmptyStoreOk(inputs);
    } else {
      EveryStateIsIntact(states, changes, inputs, n - 1);
      hide Intact, Enabled;
      assert Stepped(states[n - 1], changes[n - 1], inputs, states[n]);
      ChangeKeeps(states[n - 1], changes[n - 1], inputs);
    }
  }

  /**
   * So in every such state a repair promotes exactly the newest runs that succeeded, are not persisted, have a row that
   * is not STORED and every blob there; and what it promotes is a whole answer.
   */
  lemma {:induction false} RepairInARun(states: seq<Store>, changes: seq<Change>, inputs: Inputs, n: nat, k: Key)
    requires IsRun(states, changes, inputs) && n <= |changes| && k in states[n].table.hist
    ensures var h, blobs := states[n].table.hist[k], states[n].blobs;
      && h != []
      && var r := Newest(h);
         && (Promoted(h, blobs) <==>
               r.state == Success && !r.outputPersisted && !AllStored(r.artifacts) && Present(r.artifacts, blobs))
         && (Promoted(h, blobs) ==>
               EntryIn(RepairedHistory(h, blobs), blobs) == Some(Whole(Hydrated(r.artifacts, blobs), r.inputPersisted)))
  {
    EveryStateIsIntact(states, changes, inputs, n);
    var s := states[n];
    var h := s.table.hist[k];
    assert Has(s.table, k, |h| - 1);
    PromotedExactly(h, s.blobs);
    RepairedEntry(h, s.blobs, inputs(k));
  }
}
