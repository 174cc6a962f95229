/**
 * The record-or-replay promise on a plain map: what one call does to the answers, to the journal,
 * to the client and to its caller. The service over rows and blobs is proved to refine this.
 */
module CacheSpec {
  import opened Executions
  import opened CacheModel

  datatype CacheMode = Cached | Offline | Refresh
  datatype PersistenceDepth = Meter | Outputs | Dataset
  {
    predicate StoresOutput() { Outputs? || Dataset? }
    predicate StoresInput() { Dataset? }
  }
  datatype ExecutionKind = LocalManaged | LocalPassthrough | Api | ApiPassthrough

  datatype Command = Command(key: Key, kind: ExecutionKind, allowPaths: seq<string>, scanTrust: bool,
                             mode: CacheMode, depth: PersistenceDepth, recordOnError: bool)

  predicate CallUncacheable(allowPaths: seq<string>, scanTrust: bool) {
    allowPaths != [] && !scanTrust
  }

  predicate Uncacheable(cmd: Command) {
    cmd.kind.LocalManaged? && CallUncacheable(cmd.allowPaths, cmd.scanTrust)
  }

  predicate ShouldPersist(cmd: Command, succeeded: bool) {
    cmd.depth.StoresOutput() && (succeeded || cmd.recordOnError)
  }

  /** What the client does when it is called: stop on request, raise, or finish with an exit code and output. */
  datatype ClientRun =
    | Interrupted
    | Raises
    | Finishes(exitCode: int, stdout: Bytes, stderr: Bytes, files: seq<(string, Bytes)>)

  predicate Succeeded(run: ClientRun) {
    run.Finishes? && run.exitCode == 0
  }

  function Outcome(run: ClientRun): ExecutionState {
    if Succeeded(run) then Success else Failure
  }

  function FileDocuments(files: seq<(string, Bytes)>): (docs: seq<Document>)
    ensures |docs| == |files|
    ensures forall i :: 0 <= i < |docs| ==> docs[i] == Document(OutputFile, Some(files[i].0), files[i].1)
  {
    seq(|files|, i requires 0 <= i < |files| => Document(OutputFile, Some(files[i].0), files[i].1))
  }

  function OutputDocuments(run: ClientRun): seq<Document>
    requires run.Finishes?
  {
    [Document(Stdout, None, run.stdout), Document(Stderr, None, run.stderr)] + FileDocuments(run.files)
  }

  /** How storing one document goes: its blob lands and is marked, its blob is refused, or only the mark is lost. */
  datatype Fault = Fine | PutFails | MarkFails

  predicate AllFine(faults: nat -> Fault, n: nat) {
    forall j: nat :: j < n ==> faults(j) == Fine
  }

  /** Everything outside the service during one call. */
  datatype World = World(contentAvailable: bool, healthy: bool, client: ClientRun, faults: nat -> Fault,
                         removes: nat -> bool)

  datatype Error = EncryptionTokenRequired | StoreUnavailable | RunInterrupted | ClientError

  datatype Execution = Execution(state: ExecutionState, outputPersisted: bool, inputPersisted: bool,
                                 documents: seq<Document>)

  datatype Result = Returned(execution: Execution) | CacheMiss | Raised(error: Error)

  datatype EventKind = Hit | Record | Miss | Run | WouldHit | WouldMiss
  datatype Event = Event(kind: EventKind, key: Key)

  datatype Step = Step(cache: Cache, result: Result, events: seq<Event>, clientCalls: nat)

  /** The step was taken: this result, these answers afterwards, and its events appended to the journal. */
  predicate Took(s: Step, r: Result, c: Cache, before: seq<Event>, after: seq<Event>) {
    r == s.result && c == s.cache && after == before + s.events
  }

  // ---- the plain-map meaning of one call ----

  function Execute(c: Cache, cmd: Command, inputs: seq<Document>, w: World): Step {
    if Uncacheable(cmd) then Bypassing(c, cmd, w)
    else if cmd.depth.StoresOutput() && !w.contentAvailable then Step(c, Raised(EncryptionTokenRequired), [], 0)
    else if cmd.mode.Offline? then ReplayOnly(c, cmd, inputs, w)
    else if !cmd.depth.StoresOutput() then Metered(c, cmd, w)
    else ReplayOrRun(c, cmd, inputs, w)
  }

  /** A call that cannot be cached: OFFLINE has nothing to replay, any other mode just runs the client. */
  function Bypassing(c: Cache, cmd: Command, w: World): Step {
    if cmd.mode.Offline? then Step(c, CacheMiss, [Event(Miss, cmd.key)], 0) else Unrecorded(c, cmd, w, Run)
  }

  /** How many documents a replay has to read. */
  function Artifacts(e: Entry): nat {
    match e
    case Whole(documents, _) => |documents|
    case Broken(n) => n
  }

  /** The key has an entry with at least one document, and the first read of one fails for want of the token. */
  predicate Locked(c: Cache, k: Key, w: World) {
    !w.contentAvailable && k in c && Artifacts(c[k]) > 0
  }

  /** OFFLINE: a whole entry or a miss, never the client. At METER depth the token is first missed when reading. */
  function ReplayOnly(c: Cache, cmd: Command, inputs: seq<Document>, w: World): Step {
    if Locked(c, cmd.key, w) then Step(c, Raised(EncryptionTokenRequired), [], 0)
    else if Replayable(c, cmd.key) then Replay(c, cmd, inputs, w)
    else Step(c, CacheMiss, [Event(Miss, cmd.key)], 0)
  }

  /** METER: always the client, never a row; the journal says whether a servable row existed. */
  function Metered(c: Cache, cmd: Command, w: World): Step {
    Unrecorded(c, cmd, w, if cmd.key in c then WouldHit else WouldMiss)
  }

  /** CACHE and REFRESH at a depth that stores output: replay, or quarantine what cannot be replayed and run afresh. */
  function ReplayOrRun(c: Cache, cmd: Command, inputs: seq<Document>, w: World): Step {
    if cmd.mode.Cached? then
      var served := ServeCurrent(c, cmd, inputs, w);
      match served.result
      case Some(r) => Step(served.cache, r, served.events, 0)
      case None => Fresh(served.cache, cmd, inputs, w)
    else
      Fresh(c, cmd, inputs, w)
  }

  datatype Served = Served(result: Option<Result>, cache: Cache, events: seq<Event>)

  /** Replays a whole entry; a broken one is removed, unless its blobs cannot be, and then counts as a miss. */
  function ServeCurrent(c: Cache, cmd: Command, inputs: seq<Document>, w: World): Served {
    if Replayable(c, cmd.key) then
      var s := Replay(c, cmd, inputs, w);
      Served(Some(s.result), s.cache, s.events)
    else if cmd.key in c && !Removable(w.removes, c[cmd.key].artifacts) then
      Served(Some(Raised(StoreUnavailable)), c, [])
    else
      Served(None, c - {cmd.key}, [])
  }

  lemma {:induction false} NothingToServe(c: Cache, cmd: Command, inputs: seq<Document>, w: World)
    requires cmd.key !in c
    ensures ServeCurrent(c, cmd, inputs, w) == Served(None, c, [])
  {
    assert c - {cmd.key} == c;
  }

  /** After a miss the locked path finds nothing to serve either. */
  lemma {:induction false} SecondLook(c: Cache, cmd: Command, inputs: seq<Document>, w: World)
    ensures var s := ServeCurrent(c, cmd, inputs, w);
      cmd.mode.Cached? && s.result.None? ==> ReplayOrRun(c, cmd, inputs, w) == ReplayOrRun(s.cache, cmd, inputs, w)
  {
    if cmd.mode.Cached? && ServeCurrent(c, cmd, inputs, w).result.None? {
      NothingToServe(c - {cmd.key}, cmd, inputs, w);
    }
  }

  predicate Replayable(c: Cache, k: Key) {
    k in c && c[k].Whole?
  }

  predicate Removable(removes: nat -> bool, n: nat) {
    forall j: nat :: j < n ==> removes(j)
  }

  /** A run that leaves no row: the client's own answer comes back, journaled as `kind`. */
  function Unrecorded(c: Cache, cmd: Command, w: World, kind: EventKind): Step {
    match w.client
    case Interrupted => Step(c, Raised(RunInterrupted), [], 1)
    case Raises => Step(c, Raised(ClientError), [], 1)
    case Finishes(_, _, _, _) =>
      Step(c, Returned(Execution(Outcome(w.client), false, false, OutputDocuments(w.client))),
           [Event(kind, cmd.key)], 1)
  }

  /** A recorded run: only a fully stored success changes the answers. */
  function Fresh(c: Cache, cmd: Command, inputs: seq<Document>, w: World): Step {
    if cmd.depth.StoresInput() && !w.healthy then Step(c, Raised(StoreUnavailable), [], 0)
    else match w.client
      case Interrupted => Step(c, Raised(RunInterrupted), [], 1)
      case Raises => Step(c, Raised(ClientError), [], 1)
      case Finishes(_, _, _, _) =>
        var output := OutputDocuments(w.client);
        if !ShouldPersist(cmd, Succeeded(w.client)) then
          Step(c, Returned(Execution(Outcome(w.client), false, false, output)), [Event(Run, cmd.key)], 1)
        else
          Recorded(c, cmd.key, Outcome(w.client), output, if cmd.depth.StoresInput() then inputs else [], w.faults)
  }

  function Recorded(c: Cache, k: Key, state: ExecutionState, output: seq<Document>, input: seq<Document>,
                    faults: nat -> Fault): Step {
    var docs := output + input;
    var stored := AllFine(faults, |docs|);
    Step(if stored && state == Success then c[k := Whole(docs, false)] else c,
         Returned(Execution(state, stored, input != [], docs)),
         [Event(if stored then Record else Run, k)], 1)
  }

  lemma {:induction false} OutputIsNotInput(run: ClientRun)
    requires run.Finishes?
    ensures forall j :: 0 <= j < |OutputDocuments(run)| ==> !OutputDocuments(run)[j].kind.IsInput()
  {
  }

  predicate CarriesInput(docs: seq<Document>) {
    exists i :: 0 <= i < |docs| && docs[i].kind.IsInput()
  }

  /** Whether a hit at DATASET depth attaches the input to an answer that has none. */
  predicate BackFills(e: Entry, cmd: Command, inputs: seq<Document>)
    requires e.Whole?
  {
    cmd.depth.StoresInput() && !e.inputKept && inputs != [] && !CarriesInput(e.documents)
  }

  /** After a back-fill the bytes are there if the answer already had them or one of its puts landed. */
  predicate Available(docs: seq<Document>, inputs: seq<Document>, faults: nat -> Fault, content: Bytes) {
    || (exists i :: 0 <= i < |docs| && docs[i].content == content)
    || (exists j :: 0 <= j < |inputs| && inputs[j].content == content && faults(j) != PutFails)
  }

  predicate BackFillHolds(docs: seq<Document>, inputs: seq<Document>, faults: nat -> Fault) {
    forall j :: 0 <= j < |inputs| ==> Available(docs, inputs, faults, inputs[j].content)
  }

  function AfterBackFill(docs: seq<Document>, inputs: seq<Document>, faults: nat -> Fault): Entry {
    if BackFillHolds(docs, inputs, faults) then Whole(docs + inputs, true) else Broken(|docs| + |inputs|)
  }

  /** A replay returns exactly the mapped documents; at DATASET depth it may also back-fill the input. */
  function Replay(c: Cache, cmd: Command, inputs: seq<Document>, w: World): Step
    requires Replayable(c, cmd.key)
  {
    var e := c[cmd.key];
    Step(if BackFills(e, cmd, inputs) then c[cmd.key := AfterBackFill(e.documents, inputs, w.faults)] else c,
         Returned(Execution(Success, true, e.inputKept, e.documents)),
         [Event(Hit, cmd.key)], 0)
  }
}
