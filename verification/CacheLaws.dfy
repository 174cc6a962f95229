/** What the plain map promises: the laws of one call, and of every run of calls with blobs lost in between. */
module CacheLaws {
  import opened Executions
  import opened CacheModel
  import opened CacheSpec

  // ---- one call ----

  predicate Replayed(s: Step) {
    s.result.Returned? && s.clientCalls == 0
  }

  /** The call ran the client, every document was stored, and the client succeeded. */
  predicate RecordedSuccess(s: Step) {
    && s.result.Returned? && s.clientCalls == 1
    && s.result.execution.outputPersisted && s.result.execution.state == Success
  }

  /** A call touches at most its own key's answer and calls the client at most once. */
  lemma {:induction false} OnlyItsOwnKey(c: Cache, cmd: Command, inputs: seq<Document>, w: World)
    ensures var s := Execute(c, cmd, inputs, w); s.cache - {cmd.key} == c - {cmd.key} && s.clientCalls <= 1
  {
    var served := ServeCurrent(c, cmd, inputs, w);
    assert served.cache - {cmd.key} == c - {cmd.key};
    assert c - {cmd.key} - {cmd.key} == c - {cmd.key};
  }

  // -- what a caller can tell before the call --

  /** A managed local run that may look at files of the user's choosing, which nobody has vouched for. */
  predicate Bypasses(cmd: Command) {
    cmd.kind == LocalManaged && |cmd.allowPaths| > 0 && cmd.scanTrust == false
  }

  /**
   * The content is out of reach and the call needs it: at a storing depth from the outset, and at METER depth when
   * OFFLINE finds an entry with something to read.
   */
  predicate TokenMissing(c: Cache, cmd: Command, w: World) {
    && !Bypasses(cmd) && !w.contentAvailable
    && (cmd.depth in {Outputs, Dataset} || (cmd.mode.Offline? && cmd.key in c && HasContent(c[cmd.key])))
  }

  predicate HasContent(e: Entry) {
    (e.Whole? && e.documents != []) || (e.Broken? && e.artifacts >= 1)
  }

  /** The entry's blobs cannot all be removed. */
  predicate Stuck(c: Cache, k: Key, removes: nat -> bool) {
    k in c && c[k].Broken? && exists j: nat :: j < c[k].artifacts && !removes(j)
  }

  /** The call goes past the replay: neither OFFLINE nor a CACHE call with a whole answer. */
  predicate WantsARun(c: Cache, cmd: Command) {
    cmd.mode == Refresh || (cmd.mode == Cached && !(cmd.key in c && c[cmd.key].Whole?))
  }

  /** A storing run is refused: a broken answer that cannot be removed, or input to store on an unhealthy store. */
  predicate StoreRefuses(c: Cache, cmd: Command, w: World) {
    && !NonStoring(cmd) && w.contentAvailable && WantsARun(c, cmd)
    && ((cmd.mode == Cached && Stuck(c, cmd.key, w.removes)) || (cmd.depth == Dataset && !w.healthy))
  }

  /** The client is called: by any call that bypasses or meters, and by a storing call with nothing to replay. */
  predicate CallsClient(c: Cache, cmd: Command, w: World) {
    if NonStoring(cmd) then cmd.mode in {Cached, Refresh}
    else w.contentAvailable && WantsARun(c, cmd) && !StoreRefuses(c, cmd, w)
  }

  /** The call writes no event: a missing token, a refusing store, or a client that is called and does not finish. */
  predicate NoEvent(c: Cache, cmd: Command, w: World) {
    TokenMissing(c, cmd, w) || StoreRefuses(c, cmd, w) || (CallsClient(c, cmd, w) && !w.client.Finishes?)
  }

  lemma {:induction false} ClientCalledExactly(c: Cache, cmd: Command, inputs: seq<Document>, w: World)
    ensures Execute(c, cmd, inputs, w).clientCalls == if CallsClient(c, cmd, w) then 1 else 0
  {
    if cmd.key !in c {
      NothingToServe(c, cmd, inputs, w);
    }
  }

  /** A call writes one event, of its own key, exactly when none of the failing branches is taken; then it raises. */
  lemma {:induction false} OneEventEach(c: Cache, cmd: Command, inputs: seq<Document>, w: World)
    ensures var s := Execute(c, cmd, inputs, w);
      && |s.events| == (if NoEvent(c, cmd, w) then 0 else 1)
      && (s.events != [] ==> s.events[0].key == cmd.key)
      && (s.result.Raised? <==> NoEvent(c, cmd, w))
  {
    ClientCalledExactly(c, cmd, inputs, w);
    if cmd.key !in c {
      NothingToServe(c, cmd, inputs, w);
    }
  }

  predicate NonStoring(cmd: Command) {
    Bypasses(cmd) || cmd.depth == Meter
  }

  /** The call stores a client run, a success or a failure recorded on request, and every put and mark goes through. */
  predicate StoresWhole(c: Cache, cmd: Command, inputs: seq<Document>, w: World) {
    && !NonStoring(cmd) && CallsClient(c, cmd, w) && w.client.Finishes?
    && (w.client.exitCode == 0 || cmd.recordOnError)
    && forall j: nat :: j < 2 + |w.client.files| + (if cmd.depth == Dataset then |inputs| else 0) ==>
         w.faults(j) == Fine
  }

  /**
   * What the one event means, both ways. RECORD says that a client run was stored whole; it does not say that the
   * answer changed, because a failure recorded on request is stored whole too.
   */
  lemma {:induction false} EventKindsExact(c: Cache, cmd: Command, inputs: seq<Document>, w: World)
    requires !NoEvent(c, cmd, w)
    ensures var s := Execute(c, cmd, inputs, w);
      var kind := s.events[0].kind;
      && |s.events| == 1
      && (kind == Hit <==> Replayed(s))
      && (kind == Miss <==> s.result == CacheMiss)
      && (kind == Record <==> StoresWhole(c, cmd, inputs, w))
      && (kind == Record <==> s.result.Returned? && s.clientCalls == 1 && s.result.execution.outputPersisted)
      && (kind in {Run, WouldHit, WouldMiss} <==> CallsClient(c, cmd, w) && !StoresWhole(c, cmd, inputs, w))
      && (kind in {WouldHit, WouldMiss} <==> cmd.depth == Meter && !Bypasses(cmd) && cmd.mode != Offline)
      && (kind == WouldHit ==> cmd.key in c) && (kind == WouldMiss ==> cmd.key !in c)
  {
    OneEventEach(c, cmd, inputs, w);
  }

  /** The call stores such a run, and the client succeeds. */
  predicate StoresASuccess(c: Cache, cmd: Command, inputs: seq<Document>, w: World) {
    StoresWhole(c, cmd, inputs, w) && w.client.exitCode == 0
  }

  /** A run maps the key to its documents exactly when it succeeds and is stored whole. */
  lemma {:induction false} OnlyAStoredSuccessIsMapped(c: Cache, cmd: Command, inputs: seq<Document>, w: World)
    requires CallsClient(c, cmd, w)
    ensures var s := Execute(c, cmd, inputs, w);
      && (RecordedSuccess(s) <==> StoresASuccess(c, cmd, inputs, w))
      && (RecordedSuccess(s) ==> s.cache == c[cmd.key := Whole(s.result.execution.documents, false)])
      && (!RecordedSuccess(s) ==>
            s.cache == if cmd.mode.Cached? && !NonStoring(cmd) && cmd.key in c then c - {cmd.key} else c)
  {
    ClientCalledExactly(c, cmd, inputs, w);
    if cmd.key !in c {
      NothingToServe(c, cmd, inputs, w);
    }
    var s := Execute(c, cmd, inputs, w);
    if RecordedSuccess(s) {
      assert (c - {cmd.key})[cmd.key := s.cache[cmd.key]] == c[cmd.key := s.cache[cmd.key]];
    }
  }

  /** However a REFRESH fails, the old answer stays in force. */
  lemma {:induction false} FailedRefreshKeepsTheAnswer(c: Cache, cmd: Command, inputs: seq<Document>, w: World)
    requires cmd.mode.Refresh? && !StoresASuccess(c, cmd, inputs, w)
    ensures Execute(c, cmd, inputs, w).cache == c
  {
    ClientCalledExactly(c, cmd, inputs, w);
    if CallsClient(c, cmd, w) {
      OnlyAStoredSuccessIsMapped(c, cmd, inputs, w);
    }
  }

  /** When each kind of error is raised; before the client is called nothing but a broken answer is ever lost. */
  lemma {:induction false} RaisesExact(c: Cache, cmd: Command, inputs: seq<Document>, w: World)
    ensures var s := Execute(c, cmd, inputs, w);
      && (s.result == Raised(EncryptionTokenRequired) <==> TokenMissing(c, cmd, w))
      && (s.result == Raised(StoreUnavailable) <==> StoreRefuses(c, cmd, w))
      && (s.result == Raised(RunInterrupted) <==> CallsClient(c, cmd, w) && w.client.Interrupted?)
      && (s.result == Raised(ClientError) <==> CallsClient(c, cmd, w) && w.client.Raises?)
      && (s.result.Raised? ==>
            s.cache == c || (cmd.mode.Cached? && cmd.key in c && c[cmd.key].Broken? && s.cache == c - {cmd.key}))
  {
    ClientCalledExactly(c, cmd, inputs, w);
    if cmd.key !in c {
      NothingToServe(c, cmd, inputs, w);
    }
  }

  function SomeCall(mode: CacheMode, recordOnError: bool): Command {
    Command(Key("k"), Api, [], false, mode, Outputs, recordOnError)
  }

  function SomeWorld(client: ClientRun): World {
    World(true, true, client, _ => Fine, _ => true)
  }

  /**
   * Not every resolution emits an event: on an empty store, a CACHE call whose client raises leaves the journal as it
   * was.
   */
  lemma {:induction false} ARaisingCallIsSilent()
    ensures var s := Execute(map[], SomeCall(Cached, false), [], SomeWorld(Raises));
      s.clientCalls == 1 && s.result == Raised(ClientError) && s.events == []
  {
  }

  /** RECORD without a new answer: a refresh whose client exits with 1, recorded on request, keeps the old answer. */
  lemma {:induction false} ARecordedFailureMapsNothing()
    ensures var c := map[Key("k") := Whole([Document(Stdout, None, [])], false)];
      var s := Execute(c, SomeCall(Refresh, true), [], SomeWorld(Finishes(1, [], [], [])));
      && s.events == [Event(Record, Key("k"))] && s.result.Returned? && s.result.execution.state == Failure
      && s.cache == c
  {
    var w := SomeWorld(Finishes(1, [], [], []));
    assert AllFine(w.faults, 2);
  }

  /**
   * METER is exempt from the token gate, and OFFLINE is served before METER is looked at: on a locked store a metered
   * OFFLINE call of a recorded key raises, and writes no event.
   */
  lemma {:induction false} ALockedReplayRaises()
    ensures var c := map[Key("k") := Whole([Document(Stdout, None, [])], false)];
      var cmd := SomeCall(Offline, false).(depth := Meter);
      var w := SomeWorld(Raises).(contentAvailable := false);
      var s := Execute(c, cmd, [], w);
      s.result == Raised(EncryptionTokenRequired) && s.events == [] && s.cache == c
  {
  }

  /** OFFLINE never calls the client, and a miss changes nothing. */
  lemma {:induction false} OfflineNeverCalls(c: Cache, cmd: Command, inputs: seq<Document>, w: World)
    requires cmd.mode.Offline?
    ensures var s := Execute(c, cmd, inputs, w);
      && s.clientCalls == 0
      && (s.result == CacheMiss ==> s.cache == c)
      && (Replayed(s) <==>
            cmd.key in c && c[cmd.key].Whole? && !Bypasses(cmd) && !TokenMissing(c, cmd, w))
  {
  }

  /** The replays of a CACHE call are exactly those with a whole entry, and they return its documents. */
  lemma {:induction false} HitsExact(c: Cache, cmd: Command, inputs: seq<Document>, w: World)
    ensures var s := Execute(c, cmd, inputs, w);
      && (Replayed(s) <==>
            && cmd.key in c && c[cmd.key].Whole? && !Bypasses(cmd) && !TokenMissing(c, cmd, w)
            && (cmd.mode == Offline || (cmd.mode == Cached && cmd.depth in {Outputs, Dataset})))
      && (Replayed(s) ==> s.result.execution.documents == c[cmd.key].documents && s.result.execution.state == Success)
  {
  }

  /** A world in which nothing goes wrong: the bytes are reachable, storing and removing work, the client succeeds. */
  ghost predicate Healthy(w: World) {
    && w.contentAvailable && w.healthy && Succeeded(w.client)
    && (forall j: nat :: w.faults(j) == Fine) && (forall j: nat :: w.removes(j))
  }

  /** After a broken entry, one healthy CACHE call runs the client once and leaves an answer the next call replays. */
  lemma {:induction false} SelfHeals(c: Cache, cmd: Command, inputs: seq<Document>, w: World, next: Command, w': World)
    requires cmd.key in c && c[cmd.key].Broken? && cmd.mode.Cached? && cmd.depth.StoresOutput() && !Uncacheable(cmd)
    requires Healthy(w)
    requires next.key == cmd.key && next.mode.Cached? && next.depth.StoresOutput() && !Uncacheable(next)
    requires w'.contentAvailable
    ensures var s := Execute(c, cmd, inputs, w);
      && s.clientCalls == 1 && RecordedSuccess(s) && s.events == [Event(Record, cmd.key)]
      && var t := Execute(s.cache, next, inputs, w');
         Replayed(t) && t.result.execution.documents == s.result.execution.documents
  {
    var s := Execute(c, cmd, inputs, w);
    OnlyAStoredSuccessIsMapped(c, cmd, inputs, w);
    assert Replayable(s.cache, cmd.key);
    HitsExact(s.cache, next, inputs, w');
  }

  /**
   * A hit can break the answer it returns: a DATASET hit of an answer without input attaches the input, the put of its
   * bytes is refused, and no later CACHE call replays the entry.
   */
  lemma {:induction false} ABackFillCanBreak()
    ensures var c := map[Key("k") := Whole([Document(Stdout, None, [])], false)];
      var inputs := [Document(InputPrompt, None, [1])];
      var w := World(true, true, Raises, _ => PutFails, _ => true);
      var s := Execute(c, SomeCall(Cached, false).(depth := Dataset), inputs, w);
      && Replayed(s) && s.cache == map[Key("k") := Broken(2)]
      && forall next: World :: !Replayed(Execute(s.cache, SomeCall(Cached, false), inputs, next))
  {
    var inputs := [Document(InputPrompt, None, [1])];
    assert !Available([Document(Stdout, None, [])], inputs, _ => PutFails, inputs[0].content);
  }

  // ---- the probe ----

  datatype ProbeStatus = ProbeHit | ProbeMiss | NonCacheable

  function Probe(c: Cache, cmd: Command): ProbeStatus {
    if Uncacheable(cmd) then NonCacheable
    else if cmd.key in c then ProbeHit
    else ProbeMiss
  }

  predicate Unbroken(c: Cache, k: Key) {
    k in c ==> c[k].Whole?
  }

  /**
   * The probe's forecast of the next CACHE call that stores output, in every world. MISS and NON_CACHEABLE are always
   * right: the call replays nothing, and the client is called unless the store refuses. HIT is right exactly when the
   * entry has all its blobs, for the probe looks at rows only; a broken entry is run again unless the store refuses.
   */
  lemma {:induction false} ProbeForecasts(c: Cache, cmd: Command, inputs: seq<Document>, w: World)
    requires cmd.mode.Cached? && cmd.depth.StoresOutput()
    ensures var s := Execute(c, cmd, inputs, w);
      var verdict := Probe(c, cmd);
      var runnable := w.contentAvailable && (cmd.depth.StoresInput() ==> w.healthy);
      && (Replayed(s) <==> verdict == ProbeHit && Unbroken(c, cmd.key) && w.contentAvailable)
      && (verdict == NonCacheable ==> s.clientCalls == 1 && s.cache == c)
      && (verdict == NonCacheable ==>
            if w.client.Finishes? then s.events == [Event(Run, cmd.key)] else s.result.Raised? && s.events == [])
      && (verdict == ProbeMiss ==> (s.clientCalls == 1 <==> runnable))
      && (verdict == ProbeHit && Unbroken(c, cmd.key) ==> s.clientCalls == 0)
      && (verdict == ProbeHit && !Unbroken(c, cmd.key) ==>
            (s.clientCalls == 1 <==> runnable && Removable(w.removes, c[cmd.key].artifacts)))
  {
    HitsExact(c, cmd, inputs, w);
    ClientCalledExactly(c, cmd, inputs, w);
  }

  /** A probe and a run can disagree: the entry's row is there, a blob of it is not, and the call runs the client. */
  lemma {:induction false} TheProbeCanBeWrong()
    ensures var c := map[Key("k") := Broken(2)];
      var s := Execute(c, SomeCall(Cached, false), [], SomeWorld(Finishes(0, [], [], [])));
      Probe(c, SomeCall(Cached, false)) == ProbeHit && !Replayed(s) && s.clientCalls == 1
  {
    ProbeForecasts(map[Key("k") := Broken(2)], SomeCall(Cached, false), [], SomeWorld(Finishes(0, [], [], [])));
  }

  // ---- runs ----

  /** One call of a run: the answers just before it, and the step it took. */
  datatype Moment = Moment(before: Cache, cmd: Command, world: World, step: Step)

  /** Blobs lost between two calls: answers stay or break, with as many artifacts as they had. */
  ghost predicate Decayed(c: Cache, c': Cache) {
    c'.Keys == c.Keys && forall k :: k in c ==> c'[k] == c[k] || c'[k] == Broken(Artifacts(c[k]))
  }

  function After(start: Cache, run: seq<Moment>): Cache {
    if run == [] then start else run[|run| - 1].step.cache
  }

  /** A run from `start`: every call steps as the plain map says from answers that may have decayed since the last. */
  ghost predicate IsRun(start: Cache, inputs: Inputs, run: seq<Moment>) {
    forall i :: 0 <= i < |run| ==>
      && Decayed(After(start, run[..i]), run[i].before)
      && run[i].step == Execute(run[i].before, run[i].cmd, inputs(run[i].cmd.key), run[i].world)
  }

  lemma {:induction false} RunPrefix(start: Cache, inputs: Inputs, run: seq<Moment>, n: nat)
    requires IsRun(start, inputs, run) && n <= |run|
    ensures IsRun(start, inputs, run[..n])
  {
    assert forall i :: 0 <= i < n ==> run[..n][..i] == run[..i];
  }

  lemma {:induction false} RunExtends(start: Cache, inputs: Inputs, run: seq<Moment>, m: Moment)
    requires IsRun(start, inputs, run) && Decayed(After(start, run), m.before)
    requires m.step == Execute(m.before, m.cmd, inputs(m.cmd.key), m.world)
    ensures IsRun(start, inputs, run + [m])
  {
    var longer := run + [m];
    forall i | 0 <= i < |longer|
      ensures Decayed(After(start, longer[..i]), longer[i].before)
      ensures longer[i].step == Execute(longer[i].before, longer[i].cmd, inputs(longer[i].cmd.key), longer[i].world)
    {
      assert longer[..i] == run[..i];
      if i == |run| {
        assert run[..i] == run;
      }
    }
  }

  /** The newest call of the run that stored a success of `k` whole, or -1. */
  function Latest(run: seq<Moment>, k: Key): (i: int)
    ensures -1 <= i < |run|
    ensures i >= 0 ==> run[i].cmd.key == k && RecordedSuccess(run[i].step)
    ensures forall j :: i < j < |run| ==> !(run[j].cmd.key == k && RecordedSuccess(run[j].step))
  {
    if run == [] then -1
    else if run[|run| - 1].cmd.key == k && RecordedSuccess(run[|run| - 1].step) then |run| - 1
    else Latest(run[..|run| - 1], k)
  }

  /** The entry is the answer the call returned, with the key's input appended when it was kept later. */
  predicate Gives(e: Entry, s: Step, inputs: seq<Document>) {
    e.Whole? ==>
      && s.result.Returned?
      && e.documents == s.result.execution.documents + (if e.inputKept then inputs else [])
  }

  /** Where one call leaves the key's own entry. */
  lemma {:induction false} EntryAfter(c: Cache, cmd: Command, inputs: seq<Document>, w: World)
    ensures var s := Execute(c, cmd, inputs, w);
      cmd.key in s.cache ==>
        || (cmd.key in c && s.cache[cmd.key] == c[cmd.key])
        || (RecordedSuccess(s) && s.cache[cmd.key] == Whole(s.result.execution.documents, false))
        || (cmd.key in c && !RecordedSuccess(s) && c[cmd.key].Whole? && !c[cmd.key].inputKept
            && s.cache[cmd.key] in
              {Broken(|c[cmd.key].documents| + |inputs|), Whole(c[cmd.key].documents + inputs, true)})
  {
  }

  /**
   * Safety over whole runs: whatever calls are made, whatever fails and whatever blobs are lost in between, a key's
   * whole answer is the one the newest stored success of that key returned, with the input it was given appended
   * once if a later call kept it.
   */
  lemma {:induction false} AnswersAreTheLatest(inputs: Inputs, run: seq<Moment>, k: Key)
    requires IsRun(map[], inputs, run)
    ensures k in After(map[], run) && After(map[], run)[k].Whole? ==>
      var i := Latest(run, k);
      i >= 0 && Gives(After(map[], run)[k], run[i].step, inputs(k))
  {
    hide Execute;
    if run != [] {
      var n := |run| - 1;
      var m := run[n];
      RunPrefix(map[], inputs, run, n);
      AnswersAreTheLatest(inputs, run[..n], k);
      assert Decayed(After(map[], run[..n]), m.before);
      OnlyItsOwnKey(m.before, m.cmd, inputs(m.cmd.key), m.world);
      EntryAfter(m.before, m.cmd, inputs(m.cmd.key), m.world);
      if m.cmd.key != k {
        SameElsewhere(m.step.cache, m.before, m.cmd.key, k);
      }
      AfterRecording(m.before, m.cmd, inputs(m.cmd.key), m.world);
    }
  }

  lemma {:induction false} AfterRecording(c: Cache, cmd: Command, inputs: seq<Document>, w: World)
    ensures var s := Execute(c, cmd, inputs, w);
      RecordedSuccess(s) ==> cmd.key in s.cache && s.cache[cmd.key] == Whole(s.result.execution.documents, false)
  {
  }

  lemma {:induction false} SameElsewhere(c: Cache, c': Cache, k: Key, l: Key)
    requires c - {k} == c' - {k} && l != k
    ensures l in c <==> l in c'
    ensures l in c ==> c[l] == c'[l]
  {
    assert l in c <==> l in c - {k};
    assert l in c' <==> l in c' - {k};
    if l in c {
      assert c[l] == (c - {k})[l] == (c' - {k})[l];
    }
  }

  /** A replay returns exactly the bytes of the newest stored success of its key: never a partial answer. */
  lemma {:induction false} ReplaysReturnTheLatest(inputs: Inputs, run: seq<Moment>, n: nat)
    requires IsRun(map[], inputs, run) && n < |run|
    ensures Replayed(run[n].step) ==>
      var k := run[n].cmd.key;
      var i := Latest(run[..n], k);
      && i >= 0
      && var e := run[n].step.result.execution;
         e.documents == run[i].step.result.execution.documents + (if e.inputPersisted then inputs(k) else [])
  {
    RunPrefix(map[], inputs, run, n);
    var k := run[n].cmd.key;
    AnswersAreTheLatest(inputs, run[..n], k);
    assert Decayed(After(map[], run[..n]), run[n].before);
    assert run[n].step == Execute(run[n].before, run[n].cmd, inputs(k), run[n].world);
    HitsExact(run[n].before, run[n].cmd, inputs(k), run[n].world);
    ReplayedInput(run[n].before, run[n].cmd, inputs(k), run[n].world);
    hide Execute;
  }

  lemma {:induction false} ReplayedInput(c: Cache, cmd: Command, inputs: seq<Document>, w: World)
    ensures var s := Execute(c, cmd, inputs, w);
      Replayed(s) ==> cmd.key in c && c[cmd.key].Whole? && s.result.execution.inputPersisted == c[cmd.key].inputKept
  {
  }

  /** The documents of a client run: its two streams, its files in order, and then `rest`. */
  predicate AreOf(docs: seq<Document>, run: ClientRun, rest: seq<Document>) {
    && run.Finishes? && |docs| == 2 + |run.files| + |rest|
    && docs[0] == Document(Stdout, None, run.stdout)
    && docs[1] == Document(Stderr, None, run.stderr)
    && (forall i :: 0 <= i < |run.files| ==> docs[2 + i] == Document(OutputFile, Some(run.files[i].0), run.files[i].1))
    && (forall i :: 0 <= i < |rest| ==> docs[2 + |run.files| + i] == rest[i])
  }

  /** Whether the run is recorded with its input. */
  predicate KeepsInput(cmd: Command, run: ClientRun) {
    !Bypasses(cmd) && cmd.depth == Dataset && run.Finishes? && (run.exitCode == 0 || cmd.recordOnError)
  }

  /**
   * Every call that ran the client and returned gives back the client's own streams and files, byte for byte, followed
   * by the input exactly when the run is recorded with it; it says Success exactly when the client exited with 0; and
   * the answer it stores, if it stores one, is the same.
   */
  lemma {:induction false} RunsReturnTheClientsAnswer(c: Cache, cmd: Command, inputs: seq<Document>, w: World)
    requires var s := Execute(c, cmd, inputs, w); s.result.Returned? && s.clientCalls == 1
    ensures var s := Execute(c, cmd, inputs, w);
      var e := s.result.execution;
      && AreOf(e.documents, w.client, if KeepsInput(cmd, w.client) then inputs else [])
      && (e.state == Success <==> w.client.exitCode == 0) && (e.state == Failure <==> w.client.exitCode != 0)
      && (e.outputPersisted <==> StoresWhole(c, cmd, inputs, w))
      && (e.inputPersisted <==> KeepsInput(cmd, w.client) && inputs != [])
      && (StoresASuccess(c, cmd, inputs, w) ==> cmd.key in s.cache && s.cache[cmd.key] == Whole(e.documents, false))
  {
    ClientCalledExactly(c, cmd, inputs, w);
    RunDocuments(c, cmd, inputs, w);
    OutputIs(w.client);
    FollowedBy(OutputDocuments(w.client), w.client, if KeepsInput(cmd, w.client) then inputs else []);
    RunFlags(c, cmd, inputs, w);
    OnlyAStoredSuccessIsMapped(c, cmd, inputs, w);
    hide *;
  }

  lemma {:induction false} RunFlags(c: Cache, cmd: Command, inputs: seq<Document>, w: World)
    requires var s := Execute(c, cmd, inputs, w); s.result.Returned? && s.clientCalls == 1
    ensures var s := Execute(c, cmd, inputs, w);
      var e := s.result.execution;
      && w.client.Finishes?
      && (e.state == Success <==> w.client.exitCode == 0) && (e.state == Failure <==> w.client.exitCode != 0)
      && (e.outputPersisted <==> StoresWhole(c, cmd, inputs, w))
      && (e.inputPersisted <==> KeepsInput(cmd, w.client) && inputs != [])
  {
    ClientCalledExactly(c, cmd, inputs, w);
  }

  lemma {:induction false} RunDocuments(c: Cache, cmd: Command, inputs: seq<Document>, w: World)
    requires var s := Execute(c, cmd, inputs, w); s.result.Returned? && s.clientCalls == 1
    ensures var s := Execute(c, cmd, inputs, w);
      && w.client.Finishes?
      && s.result.execution.documents ==
           OutputDocuments(w.client) + if KeepsInput(cmd, w.client) then inputs else []
  {
    assert w.client.Finishes? ==> OutputDocuments(w.client) + [] == OutputDocuments(w.client);
    hide OutputDocuments;
  }

  lemma {:induction false} OutputIs(run: ClientRun)
    requires run.Finishes?
    ensures AreOf(OutputDocuments(run), run, [])
  {
    TwoThen(Document(Stdout, None, run.stdout), Document(Stderr, None, run.stderr), FileDocuments(run.files));
  }

  lemma {:induction false} TwoThen(a: Document, b: Document, rest: seq<Document>)
    ensures var docs := [a, b] + rest;
      |docs| == 2 + |rest| && docs[0] == a && docs[1] == b && forall i :: 0 <= i < |rest| ==> docs[2 + i] == rest[i]
  {
  }

  lemma {:induction false} FollowedBy(docs: seq<Document>, run: ClientRun, rest: seq<Document>)
    requires AreOf(docs, run, [])
    ensures AreOf(docs + rest, run, rest)
  {
  }

  /** Input is kept once: an answer that had it from its run never has it again from a hit. */
  lemma {:induction false} InputIsKeptOnce(inputs: Inputs, run: seq<Moment>, k: Key)
    requires IsRun(map[], inputs, run)
    ensures k in After(map[], run) && After(map[], run)[k].Whole? && After(map[], run)[k].inputKept ==>
      var i := Latest(run, k);
      i >= 0 && run[i].step.result.Returned? && !CarriesInput(run[i].step.result.execution.documents)
  {
    hide Execute, CarriesInput;
    if run != [] {
      var n := |run| - 1;
      var m := run[n];
      RunPrefix(map[], inputs, run, n);
      InputIsKeptOnce(inputs, run[..n], k);
      AnswersAreTheLatest(inputs, run[..n], k);
      assert Decayed(After(map[], run[..n]), m.before);
      KeptBefore(inputs, run, k);
    }
  }

  /**
   * The last call of the run: either it kept the input just now, of an answer without any, or the entry is as it was.
   */
  lemma {:induction false} KeptBefore(inputs: Inputs, run: seq<Moment>, k: Key)
    requires IsRun(map[], inputs, run) && run != []
    requires var before := run[..|run| - 1];
      && (k in run[|run| - 1].before && run[|run| - 1].before[k].Whole? ==>
            var i := Latest(before, k);
            i >= 0 && Gives(run[|run| - 1].before[k], before[i].step, inputs(k))
            && (run[|run| - 1].before[k].inputKept ==> !CarriesInput(before[i].step.result.execution.documents)))
    ensures k in After(map[], run) && After(map[], run)[k].Whole? && After(map[], run)[k].inputKept ==>
      var i := Latest(run, k);
      i >= 0 && run[i].step.result.Returned? && !CarriesInput(run[i].step.result.execution.documents)
  {
    hide Execute, CarriesInput, Decayed;
    var m := run[|run| - 1];
    assert m.step == Execute(m.before, m.cmd, inputs(m.cmd.key), m.world);
    OnlyItsOwnKey(m.before, m.cmd, inputs(m.cmd.key), m.world);
    if m.cmd.key != k {
      SameElsewhere(m.step.cache, m.before, m.cmd.key, k);
    } else {
      EntryAfter(m.before, m.cmd, inputs(k), m.world);
      FilledOnlyOnce(m.before, m.cmd, inputs(k), m.world);
      AfterRecording(m.before, m.cmd, inputs(k), m.world);
      if k in m.before && m.before[k].Whole? && !m.before[k].inputKept {
        var own := run[..|run| - 1][Latest(run[..|run| - 1], k)].step.result.execution.documents;
        assert own + [] == own;
      }
    }
    hide IsRun;
  }

  lemma {:induction false} FilledOnlyOnce(c: Cache, cmd: Command, inputs: seq<Document>, w: World)
    ensures var s := Execute(c, cmd, inputs, w);
      cmd.key in c && cmd.key in s.cache && !RecordedSuccess(s) && s.cache[cmd.key] != c[cmd.key] ==>
        c[cmd.key].Whole? && !c[cmd.key].inputKept && !CarriesInput(c[cmd.key].documents)
  {
    hide CarriesInput;
  }

  predicate AllInput(docs: seq<Document>) {
    forall j :: 0 <= j < |docs| ==> docs[j].kind.IsInput()
  }

  /**
   * A replay returns the bytes the client of an earlier call of the key gave, of one that exited with 0 and was stored
   * whole, followed by nothing or by exactly the key's input documents.
   */
  lemma {:induction false} ReplaysReturnAClientsBytes(inputs: Inputs, run: seq<Moment>, n: nat)
    requires IsRun(map[], inputs, run) && n < |run| && Replayed(run[n].step) && AllInput(inputs(run[n].cmd.key))
    ensures exists i ::
      && 0 <= i < n && run[i].cmd.key == run[n].cmd.key
      && GaveTheAnswer(run[i], inputs(run[i].cmd.key), run[n].step.result.execution.documents)
  {
    var k := run[n].cmd.key;
    ReplaysReturnTheLatest(inputs, run, n);
    RunPrefix(map[], inputs, run, n);
    InputIsKeptOnce(inputs, run[..n], k);
    assert Decayed(After(map[], run[..n]), run[n].before);
    ReplayedInput(run[n].before, run[n].cmd, inputs(k), run[n].world);
    var i := Latest(run[..n], k);
    assert run[..n][i] == run[i];
    StoredRunGives(inputs, run[i], run[n].step.result.execution.documents);
  }

  /**
   * The call's client exited with 0, the call stored it whole, and `docs` are its documents, then perhaps the input.
   */
  predicate GaveTheAnswer(m: Moment, inputs: seq<Document>, docs: seq<Document>) {
    && StoresASuccess(m.before, m.cmd, inputs, m.world)
    && (AreOf(docs, m.world.client, []) || AreOf(docs, m.world.client, inputs))
  }

  lemma {:induction false} StoredRunGives(inputs: Inputs, m: Moment, docs: seq<Document>)
    requires m.step == Execute(m.before, m.cmd, inputs(m.cmd.key), m.world) && RecordedSuccess(m.step)
    requires AllInput(inputs(m.cmd.key))
    requires var own := m.step.result.execution.documents;
      docs == own || (docs == own + inputs(m.cmd.key) && !CarriesInput(own))
    ensures GaveTheAnswer(m, inputs(m.cmd.key), docs)
  {
    var input := inputs(m.cmd.key);
    ClientCalledExactly(m.before, m.cmd, input, m.world);
    OnlyAStoredSuccessIsMapped(m.before, m.cmd, input, m.world);
    RunsReturnTheClientsAnswer(m.before, m.cmd, input, m.world);
    hide Execute, StoresASuccess;
    var own, client := m.step.result.execution.documents, m.world.client;
    if KeepsInput(m.cmd, client) && input != [] {
      assert own[2 + |client.files|].kind.IsInput();
    } else {
      assert AreOf(own, client, []);
      FollowedBy(own, client, input);
    }
  }

  // ---- the journal over a run ----

  function EventsOf(run: seq<Moment>): seq<Event> {
    if run == [] then [] else EventsOf(run[..|run| - 1]) + run[|run| - 1].step.events
  }

  function ClientCallsOf(run: seq<Moment>): nat {
    if run == [] then 0 else ClientCallsOf(run[..|run| - 1]) + run[|run| - 1].step.clientCalls
  }

  function CountEvents(events: seq<Event>, kinds: set<EventKind>): nat {
    if events == [] then 0
    else CountEvents(events[..|events| - 1], kinds) + if events[|events| - 1].kind in kinds then 1 else 0
  }

  lemma {:induction false} CountAppend(events: seq<Event>, more: seq<Event>, kinds: set<EventKind>)
    requires |more| <= 1
    ensures CountEvents(events + more, kinds) ==
      CountEvents(events, kinds) + if more != [] && more[0].kind in kinds then 1 else 0
  {
    if more == [] {
      assert events + more == events;
    } else {
      assert (events + more)[..|events + more| - 1] == events;
    }
  }

  function CountMoments(run: seq<Moment>, p: Moment -> bool): nat {
    if run == [] then 0 else CountMoments(run[..|run| - 1], p) + if p(run[|run| - 1]) then 1 else 0
  }

  const ClientKinds := {Record, Run, WouldHit, WouldMiss}

  predicate RanAndReturned(m: Moment) {
    m.step.result.Returned? && m.step.clientCalls == 1
  }

  predicate RanAndRaised(m: Moment) {
    m.step.result.Raised? && m.step.clientCalls == 1
  }

  lemma {:induction false} StepAccounts(c: Cache, cmd: Command, inputs: seq<Document>, w: World)
    ensures var s := Execute(c, cmd, inputs, w);
      && |s.events| == (if s.result.Raised? then 0 else 1)
      && s.clientCalls <= 1
      && (s.events != [] && s.events[0].kind in ClientKinds <==> s.result.Returned? && s.clientCalls == 1)
      && (s.events != [] && s.events[0].kind in {Hit} <==> Replayed(s))
      && (s.events != [] && s.events[0].kind in {Miss} <==> s.result.CacheMiss?)
      && (s.result.CacheMiss? ==> s.clientCalls == 0)
  {
    OneEventEach(c, cmd, inputs, w);
    OnlyItsOwnKey(c, cmd, inputs, w);
    if !NoEvent(c, cmd, w) {
      EventKindsExact(c, cmd, inputs, w);
    }
    if cmd.mode.Offline? {
      OfflineNeverCalls(c, cmd, inputs, w);
    }
  }

  /**
   * The journal accounts for a run: the executions it shows are the client runs that returned, the hits are the
   * replays, the misses are the offline misses, and the only client calls it does not show are those that raised.
   */
  lemma {:induction false} JournalAccounts(start: Cache, inputs: Inputs, run: seq<Moment>)
    requires IsRun(start, inputs, run)
    ensures var events := EventsOf(run);
      && CountEvents(events, ClientKinds) == CountMoments(run, RanAndReturned)
      && CountEvents(events, {Hit}) == CountMoments(run, (m: Moment) => Replayed(m.step))
      && CountEvents(events, {Miss}) == CountMoments(run, (m: Moment) => m.step.result.CacheMiss?)
      && |events| == |run| - CountMoments(run, (m: Moment) => m.step.result.Raised?)
      && ClientCallsOf(run) == CountEvents(events, ClientKinds) + CountMoments(run, RanAndRaised)
  {
    hide Execute;
    if run != [] {
      var n := |run| - 1;
      var m := run[n];
      RunPrefix(start, inputs, run, n);
      JournalAccounts(start, inputs, run[..n]);
      StepAccounts(m.before, m.cmd, inputs(m.cmd.key), m.world);
      CountAppend(EventsOf(run[..n]), m.step.events, ClientKinds);
      CountAppend(EventsOf(run[..n]), m.step.events, {Hit});
      CountAppend(EventsOf(run[..n]), m.step.events, {Miss});
    }
  }
}
