/**
 * What recorders get done: a recorder whose every put and mark lands has its run persisted whole when it leaves, and a
 * call that nobody disturbs ends as the plain map says.
 */
module RecorderProgress {
  import opened Executions
  import opened RecorderProtocol
  import opened RecorderTheorems
  import CacheModel
  import CacheSpec

  // ---- a recorder among others ----

  /** On its way to finalising: no put and no mark of the run has been lost so far. */
  predicate OnTrack(pc: Pc, id: ExecutionId, reply: Reply) {
    match pc
    case Answered(i, r) => i == id && r == reply
    case Inserting(i, r, _, allStored) => i == id && r == reply && allStored
    case Putting(i, r, _, allStored) => i == id && r == reply && allStored
    case Marking(i, r, _, allStored, landed) => i == id && r == reply && allStored && landed
    case Finalizing(i, r) => i == id && r == reply
    case _ => false
  }

  predicate Lands(a: Action) {
    (a.Put? ==> a.lands) && (a.Mark? ==> a.lands) && !a.Crash? && !a.TimeOut?
  }

  /** The run is recorded whole: its row persisted, every document STORED with its bytes; a success is the answer. */
  ghost predicate RecordedWhole(s: System, k: Key, id: ExecutionId, reply: Reply) {
    && id in s.rows && s.rows[id].key == k
    && var row := s.rows[id].row;
       && row.outputPersisted && row.state == (if reply.succeeded then Success else Failure)
       && |row.artifacts| == |reply.docs|
       && (forall j :: 0 <= j < |reply.docs| ==>
             && row.artifacts[j] == MakeArtifact(id, reply.docs[j], Stored)
             && row.artifacts[j].blobKey in s.blobs && s.blobs[row.artifacts[j].blobKey] == reply.docs[j].content)
       && (reply.succeeded ==> ServableAt(s.rows, k, id) && id in s.answers && s.answers[id] == reply.docs)
  }

  lemma {:induction false} FinalizingRecords(s: System, p: Pid)
    requires Inv(s) && Enabled(s, p, Finalize)
    ensures var pc, s' := s.procs[p].pc, Do(s, p, Finalize);
      RecordedWhole(s', s.procs[p].key, pc.id, pc.reply) && s'.procs[p].pc == Leaving(Live(pc.reply))
  {
    assert ProcessOk(s, s.procs[p]);
    var pc, s' := s.procs[p].pc, Do(s, p, Finalize);
    var docs := pc.reply.docs;
    assert docs[..|docs|] == docs;
    FinalizesWhole(s, p);
    EveryStepKeeps(s, p, Finalize);
    assert RowOk(s, pc.id) && RowOk(s', pc.id);
    forall j | 0 <= j < |docs|
      ensures s'.rows[pc.id].row.artifacts[j] == MakeArtifact(pc.id, docs[j], Stored)
      ensures BlobKeyFor(pc.id, docs[j].content) in s'.blobs
    {
      assert s.rows[pc.id].row.artifacts[j] == MakeArtifact(pc.id, docs[j], s.rows[pc.id].row.artifacts[j].status);
    }
    hide OwnerOk, ProcessOk, StoredSoFar;
  }

  /** A step that lands keeps the recorder on its way, or finalises its run. */
  lemma {:induction false} TrackGoesOn(s: System, p: Pid, a: Action, id: ExecutionId, reply: Reply)
    requires Inv(s) && Enabled(s, p, a) && Lands(a) && OnTrack(s.procs[p].pc, id, reply)
    requires reply.succeeded || s.procs[p].recordOnError
    ensures a.Finalize? || OnTrack(Do(s, p, a).procs[p].pc, id, reply)
  {
    assert ProcessOk(s, s.procs[p]);
    hide Inv;
  }

  lemma {:induction false} ManagesOwnPc(s: System, q: Pid, a: Action, p: Pid)
    requires Enabled(s, q, a) && p in s.procs
    ensures p in Do(s, q, a).procs && Do(s, q, a).procs[p].key == s.procs[p].key
    ensures Do(s, q, a).procs[p].recordOnError == s.procs[p].recordOnError
    ensures q != p ==> Do(s, q, a).procs[p] == s.procs[p]
  {
  }

  /** The recorder `p` finalised its run by the move before state `m`, and recorded it whole. */
  ghost predicate FinalizedAt(states: seq<System>, moves: seq<Move>, p: Pid, id: ExecutionId, reply: Reply, m: nat) {
    && 0 < m < |states| && |states| == |moves| + 1 && moves[m - 1] == Move(p, Finalize)
    && p in states[m].procs && RecordedWhole(states[m], states[m].procs[p].key, id, reply)
  }

  /** Nothing was lost for `p` between the two states. */
  ghost predicate AllLanded(moves: seq<Move>, p: Pid, i: nat, n: nat) {
    forall j :: i <= j < n && j < |moves| && moves[j].p == p ==> Lands(moves[j].a)
  }

  lemma {:induction false} StillOnTrack(states: seq<System>, moves: seq<Move>, p: Pid, i: nat, n: nat,
                                        id: ExecutionId, reply: Reply)
    requires IsTrace(states, moves) && i <= n <= |moves| && AllLanded(moves, p, i, n)
    requires p in states[i].procs && OnTrack(states[i].procs[p].pc, id, reply)
    requires reply.succeeded || states[i].procs[p].recordOnError
    ensures p in states[n].procs
    ensures || (OnTrack(states[n].procs[p].pc, id, reply) && (reply.succeeded || states[n].procs[p].recordOnError))
            || exists m :: i < m <= n && FinalizedAt(states, moves, p, id, reply, m)
  {
    hide Inv, Do, Enabled, OnTrack, Lands, RecordedWhole, Initial;
    if i < n {
      StillOnTrack(states, moves, p, i, n - 1, id, reply);
      var s, q, a := states[n - 1], moves[n - 1].p, moves[n - 1].a;
      ManagesOwnPc(s, q, a, p);
      if q == p && OnTrack(s.procs[p].pc, id, reply) && (reply.succeeded || s.procs[p].recordOnError) {
        EveryStateIsSafe(states, moves, n - 1);
        TrackGoesOn(s, p, a, id, reply);
        if a.Finalize? {
          OnTrackFinalizes(s, p, id, reply);
          FinalizingRecords(s, p);
          assert FinalizedAt(states, moves, p, id, reply, n);
        }
      }
    }
  }

  lemma {:induction false} OnTrackFinalizes(s: System, p: Pid, id: ExecutionId, reply: Reply)
    requires Enabled(s, p, Finalize) && OnTrack(s.procs[p].pc, id, reply)
    ensures s.procs[p].pc.Finalizing? && s.procs[p].pc.id == id && s.procs[p].pc.reply == reply
  {
  }

  /**
   * Whatever the others do in between: a recorder whose client answered, with a success or with a failure it records,
   * and none of whose puts and marks is lost, leaves only after its run was finalised and recorded whole; a success was
   * then the key's answer.
   */
  lemma {:induction false} LeavesWithItsRunRecorded(states: seq<System>, moves: seq<Move>, p: Pid, i: nat, n: nat,
                                                    reply: Reply)
    requires IsTrace(states, moves) && i < n <= |moves| && moves[i] == Move(p, Answer(reply))
    requires AllLanded(moves, p, i, n) && (reply.succeeded || states[i].procs[p].recordOnError)
    requires p in states[n].procs && (states[n].procs[p].pc.Leaving? || states[n].procs[p].pc.Done?)
    ensures exists m, id :: i < m <= n && FinalizedAt(states, moves, p, id, reply, m)
  {
    var id := states[i].procs[p].pc.id;
    assert Enabled(states[i], p, Answer(reply)) && states[i + 1] == Do(states[i], p, Answer(reply));
    StillOnTrack(states, moves, p, i + 1, n, id, reply);
    hide Do, Enabled, RecordedWhole, Initial, Lands;
  }

  /** A client that is stopped leaves no row; one that raises leaves a visible failure without documents. */
  lemma {:induction false} StoppedRunsLeave(s: System, p: Pid)
    requires Inv(s) && p in s.procs && s.procs[p].pc.Calling?
    ensures var id := s.procs[p].pc.id;
      && Enabled(s, p, Interrupt) && id !in Do(s, p, Interrupt).rows
      && Enabled(s, p, Raise) && id in Do(s, p, Raise).rows
      && var row := Do(s, p, Raise).rows[id].row;
         row.state == Failure && row.artifacts == [] && !row.outputPersisted
  {
    assert ProcessOk(s, s.procs[p]);
    hide Inv;
  }

  /** Nothing that can go wrong is left out: any wait may time out, and looks and fetches may come at any time. */
  lemma {:induction false} ContendersCan(s: System, p: Pid)
    requires p in s.procs
    ensures s.procs[p].pc.FirstLook? || s.procs[p].pc.SecondLook? ==> Enabled(s, p, Look)
    ensures s.procs[p].pc.Reading? ==> Enabled(s, p, Fetch)
    ensures s.procs[p].pc.Waiting? ==> Enabled(s, p, TimeOut)
    ensures s.procs[p].pc.Waiting? && s.procs[p].key !in s.locks ==> Enabled(s, p, Acquire)
    ensures s.procs[p].pc.Opening? ==> Enabled(s, p, Open)
    ensures s.procs[p].pc.Leaving? ==> Enabled(s, p, Leave)
  {
  }

  /** A client may answer anything, be stopped or raise; and nothing but its own faults can hold its recording up. */
  lemma {:induction false} RecordersCan(s: System, p: Pid, reply: Reply)
    requires Inv(s) && p in s.procs
    ensures s.procs[p].pc.Calling? ==> Enabled(s, p, Answer(reply)) && Enabled(s, p, Interrupt) && Enabled(s, p, Raise)
    ensures s.procs[p].pc.Answered? ==> Enabled(s, p, RecordOutcome)
    ensures s.procs[p].pc.Inserting? ==> Enabled(s, p, Insert)
    ensures s.procs[p].pc.Putting? ==> Enabled(s, p, Put(true))
    ensures s.procs[p].pc.Marking? ==> Enabled(s, p, Mark(true))
    ensures s.procs[p].pc.Finalizing? ==> Enabled(s, p, Finalize)
  {
    if Owns(s.procs[p].pc) {
      InsertIsEnabled(s, p);
    }
    hide Inv;
  }

  /** A refused put stores nothing. */
  lemma {:induction false} LostPut(s: System, p: Pid)
    requires Inv(s) && p in s.procs && s.procs[p].pc.Putting?
    ensures Enabled(s, p, Put(false))
    ensures var pc, s' := s.procs[p].pc, Do(s, p, Put(false));
      && s'.blobs == s.blobs && s'.rows == s.rows
      && s'.procs[p].pc == Marking(pc.id, pc.reply, pc.n, pc.allStored, false)
  {
    InsertIsEnabled(s, p);
    hide Inv;
  }

  /**
   * A lost mark leaves the rows as they are. After a put that landed the run goes on, but will not be finalised; after
   * a refused one, whose FAILED mark this was, the call gives up.
   */
  lemma {:induction false} LostMark(s: System, p: Pid)
    requires Inv(s) && p in s.procs && s.procs[p].pc.Marking?
    ensures Enabled(s, p, Mark(false))
    ensures var pc, s' := s.procs[p].pc, Do(s, p, Mark(false));
      && s'.rows == s.rows && s'.blobs == s.blobs
      && s'.procs[p].pc == if pc.landed then NextDocument(pc.id, pc.reply, pc.n + 1, false) else Leaving(Aborted)
  {
    InsertIsEnabled(s, p);
    hide Inv, NextDocument;
  }

  /** The mark after a refused put says FAILED of every row of those bytes, and the run will not be finalised. */
  lemma {:induction false} FailedMark(s: System, p: Pid)
    requires Inv(s) && p in s.procs && s.procs[p].pc.Marking? && !s.procs[p].pc.landed
    ensures Enabled(s, p, Mark(true)) && s.procs[p].pc.id in s.rows
    ensures var pc, s' := s.procs[p].pc, Do(s, p, Mark(true));
      var b, a := BlobKeyFor(pc.id, pc.reply.docs[pc.n].content), s.rows[pc.id].row.artifacts;
      && s'.procs[p].pc == NextDocument(pc.id, pc.reply, pc.n + 1, false)
      && pc.id in s'.rows && |s'.rows[pc.id].row.artifacts| == |a|
      && forall j :: 0 <= j < |a| ==>
           s'.rows[pc.id].row.artifacts[j] ==
             if a[j].blobKey == b then a[j].(status := ArtifactStatus.Failed) else a[j]
  {
    InsertIsEnabled(s, p);
    hide Inv, NextDocument;
  }

  /** A process that dies leaves rows and blobs as they are, and its lock free. */
  lemma {:induction false} DyingLeaves(s: System, p: Pid)
    requires p in s.procs && !s.procs[p].pc.Done? && !s.procs[p].pc.Crashed?
    ensures Enabled(s, p, Crash)
    ensures var s' := Do(s, p, Crash);
      && s'.rows == s.rows && s'.blobs == s.blobs && s'.procs[p].pc.Crashed?
      && (s.procs[p].key in s'.locks ==> s'.locks[s.procs[p].key] != p)
  {
  }

  // ---- a call that nobody disturbs ----

  ghost predicate CanRun(s: System, p: Pid, acts: seq<Action>)
    decreases |acts|, 0
  {
    acts == [] || (CanRun(s, p, acts[..|acts| - 1]) && Enabled(After(s, p, acts[..|acts| - 1]), p, acts[|acts| - 1]))
  }

  /** Where process `p` takes the system by these steps of its own. */
  ghost function After(s: System, p: Pid, acts: seq<Action>): System
    requires CanRun(s, p, acts)
    decreases |acts|, 1
  {
    if acts == [] then s else Do(After(s, p, acts[..|acts| - 1]), p, acts[|acts| - 1])
  }

  ghost predicate AllLand(acts: seq<Action>) {
    forall i :: 0 <= i < |acts| ==> Lands(acts[i])
  }

  /** A run so far: its steps land, the invariant holds, and no key's answer has moved since it began. */
  ghost predicate Going(s: System, p: Pid, acts: seq<Action>, s': System) {
    && CanRun(s, p, acts) && s' == After(s, p, acts) && AllLand(acts) && Inv(s) && Inv(s')
    && SameBut(s, s', p) && (forall k, docs :: Answers(s', k, docs) <==> Answers(s, k, docs))
  }

  /** The other processes stand where they stood, and this one keeps its call. */
  predicate SameBut(s: System, s': System, p: Pid) {
    && s'.procs.Keys == s.procs.Keys && p in s.procs
    && (forall q :: q in s.procs && q != p ==> s'.procs[q] == s.procs[q])
    && s'.procs[p] == s.procs[p].(pc := s'.procs[p].pc)
    && s'.locks - {s.procs[p].key} == s.locks - {s.procs[p].key}
  }

  lemma {:induction false} StepIsOwn(s: System, p: Pid, a: Action)
    requires Enabled(s, p, a)
    ensures SameBut(s, Do(s, p, a), p)
  {
    LocksAreOwn(s, p, a);
    hide FinalizedRows, NextDocument, Fetched, Looked, Unlocked;
  }

  lemma {:induction false} LocksAreOwn(s: System, p: Pid, a: Action)
    requires Enabled(s, p, a)
    ensures Do(s, p, a).locks - {s.procs[p].key} == s.locks - {s.procs[p].key}
  {
    hide FinalizedRows, NextDocument, Fetched, Looked;
  }

  lemma {:induction false} SameButOn(s: System, s': System, s'': System, p: Pid)
    requires SameBut(s, s', p) && SameBut(s', s'', p)
    ensures SameBut(s, s'', p)
  {
  }

  lemma {:induction false} Extends(s: System, p: Pid, acts: seq<Action>, s': System, a: Action)
    requires CanRun(s, p, acts) && s' == After(s, p, acts) && Enabled(s', p, a)
    ensures CanRun(s, p, acts + [a]) && After(s, p, acts + [a]) == Do(s', p, a)
  {
    assert (acts + [a])[..|acts|] == acts;
  }

  lemma {:induction false} GoesOn(s: System, p: Pid, acts: seq<Action>, s': System, a: Action)
    requires Going(s, p, acts, s') && Enabled(s', p, a) && Lands(a) && !a.Finalize?
    ensures Going(s, p, acts + [a], Do(s', p, a))
  {
    hide Inv, Do, Enabled, CanRun, After, Answers, SameBut;
    Extends(s, p, acts, s', a);
    EveryStepKeeps(s', p, a);
    StepIsOwn(s', p, a);
    SameButOn(s, s', Do(s', p, a), p);
    forall k, docs
      ensures Answers(Do(s', p, a), k, docs) <==> Answers(s', k, docs)
    {
      AnswersChangeByFinalizingOnly(s', p, a, k, docs);
    }
  }

  lemma {:induction false} Begins(s: System, p: Pid)
    requires Inv(s) && p in s.procs
    ensures Going(s, p, [], s)
  {
  }

  predicate AtStart(proc: Process) {
    proc.pc == if proc.refresh then Waiting else FirstLook
  }

  /** With an answer there is a row to read, and without one there is none. */
  lemma {:induction false} LooksAre(s: System, p: Pid)
    requires Inv(s) && Enabled(s, p, Look)
    ensures var proc := s.procs[p];
      Do(s, p, Look).procs[p].pc ==
        if !proc.refresh && RecorderTheorems.Answered(s, proc.key) then Reading(FindCurrent(s.rows, proc.key).value, [])
        else if proc.pc.FirstLook? then Waiting else Opening
  {
  }

  lemma {:induction false} AnsweredHasDocs(s: System, k: Key)
    requires Inv(s)
    ensures RecorderTheorems.Answered(s, k) <==> exists docs :: Answers(s, k, docs)
  {
    if RecorderTheorems.Answered(s, k) {
      CurrentIsComplete(s, k);
    }
  }

  /** Past the lock: nothing is there, or nothing is wanted. */
  lemma {:induction false} ReachesTheLock(s: System, p: Pid) returns (acts: seq<Action>, s': System)
    requires Inv(s) && p in s.procs && AtStart(s.procs[p]) && s.procs[p].key !in s.locks
    requires s.procs[p].refresh || !RecorderTheorems.Answered(s, s.procs[p].key)
    ensures Going(s, p, acts, s') && s'.procs[p].pc.Opening?
    ensures s.procs[p].key in s'.locks && s'.locks[s.procs[p].key] == p
  {
    acts, s' := [], s;
    Begins(s, p);
    hide Going, Inv;
    if !s.procs[p].refresh {
      LookGoesOn(s, p, acts, s');
      acts, s' := acts + [Look], Do(s', p, Look);
    }
    GoesOnTo(s, p, acts, s', Acquire);
    acts, s' := acts + [Acquire], Do(s', p, Acquire);
    LookGoesOn(s, p, acts, s');
    acts, s' := acts + [Look], Do(s', p, Look);
  }

  lemma {:induction false} GoesOnTo(s: System, p: Pid, acts: seq<Action>, s': System, a: Action)
    requires Going(s, p, acts, s') && Enabled(s', p, a) && Lands(a) && !a.Finalize?
    ensures Going(s, p, acts + [a], Do(s', p, a)) && p in s.procs
    ensures s'.procs[p] == s.procs[p].(pc := s'.procs[p].pc)
    ensures Do(s', p, a).procs[p] == s.procs[p].(pc := Do(s', p, a).procs[p].pc)
    ensures !a.Acquire? && !a.Leave? ==> Do(s', p, a).locks == s'.locks
  {
    GoesOn(s, p, acts, s', a);
    LocksStay(s', p, a);
    hide Do, Inv, CanRun, After;
  }

  lemma {:induction false} LocksStay(s: System, p: Pid, a: Action)
    requires Enabled(s, p, a)
    ensures !a.Acquire? && !a.Leave? && !a.Crash? ==> Do(s, p, a).locks == s.locks
  {
  }

  lemma {:induction false} LookGoesOn(s: System, p: Pid, acts: seq<Action>, s': System)
    requires Going(s, p, acts, s') && Enabled(s', p, Look)
    ensures Going(s, p, acts + [Look], Do(s', p, Look)) && p in s.procs
    ensures s'.procs[p] == s.procs[p].(pc := s'.procs[p].pc)
    ensures Do(s', p, Look).procs[p] == s.procs[p].(pc := Do(s', p, Look).procs[p].pc)
    ensures Do(s', p, Look).locks == s'.locks
    ensures s.procs[p].refresh || !RecorderTheorems.Answered(s, s.procs[p].key) ==>
      Do(s', p, Look).procs[p].pc == if s'.procs[p].pc.FirstLook? then Waiting else Opening
    ensures !s.procs[p].refresh && RecorderTheorems.Answered(s, s.procs[p].key) ==>
      Do(s', p, Look).procs[p].pc.Reading?
  {
    GoesOnTo(s, p, acts, s', Look);
    LooksAre(s', p);
    SameAnswered(s, p, acts, s', s.procs[p].key);
    hide Inv, Going;
  }

  lemma {:induction false} SameAnswered(s: System, p: Pid, acts: seq<Action>, s': System, k: Key)
    requires Going(s, p, acts, s')
    ensures RecorderTheorems.Answered(s', k) <==> RecorderTheorems.Answered(s, k)
  {
    AnsweredHasDocs(s, k);
    AnsweredHasDocs(s', k);
    hide Inv, CanRun, After, RecorderTheorems.Answered, Answers;
  }

  /** One more document inserted, put and marked. */
  lemma {:induction false} StoresOne(s: System, p: Pid, acts: seq<Action>, s': System, id: ExecutionId, reply: Reply,
                                     n: nat)
    returns (acts': seq<Action>, s'': System)
    requires Going(s, p, acts, s') && p in s'.procs && s'.procs[p].pc == Inserting(id, reply, n, true)
    ensures Going(s, p, acts', s'') && p in s''.procs && s''.locks == s'.locks
    ensures n < |reply.docs| && s''.procs[p].pc == NextDocument(id, reply, n + 1, true)
  {
    GoingMeans(s, p, acts, s');
    InsertIsEnabled(s', p);
    InsertTo(s', p);
    hide *;
    acts', s'' := GoesThree(s, p, acts, s', Insert, Put(true), Mark(true));
  }

  lemma {:induction false} GoesThree(s: System, p: Pid, acts: seq<Action>, s': System, a: Action, b: Action, c: Action)
    returns (acts': seq<Action>, s'': System)
    requires Going(s, p, acts, s') && Stores(a) && Stores(b) && Stores(c)
    requires Enabled(s', p, a) && Enabled(Do(s', p, a), p, b) && Enabled(Do(Do(s', p, a), p, b), p, c)
    ensures Going(s, p, acts', s'') && s'' == Do(Do(Do(s', p, a), p, b), p, c) && s''.locks == s'.locks
  {
    hide Going, Inv, Do, Enabled;
    GoesOnTo(s, p, acts, s', a);
    GoesOnTo(s, p, acts + [a], Do(s', p, a), b);
    GoesOnTo(s, p, acts + [a] + [b], Do(Do(s', p, a), p, b), c);
    acts', s'' := acts + [a] + [b] + [c], Do(Do(Do(s', p, a), p, b), p, c);
  }

  /** A step of storing a document that goes well. */
  predicate Stores(a: Action) {
    a == Insert || a == Put(true) || a == Mark(true)
  }

  /** The three steps of a document, one after the other. */
  lemma {:induction false} InsertTo(s: System, p: Pid)
    requires p in s.procs && s.procs[p].pc.Inserting? && s.procs[p].pc.allStored
    requires s.procs[p].pc.id in s.rows && s.procs[p].pc.n < |s.procs[p].pc.reply.docs|
    ensures Enabled(s, p, Insert)
    ensures var s1 := Do(s, p, Insert);
      && Enabled(s1, p, Put(true))
      && var s2 := Do(s1, p, Put(true));
         && Enabled(s2, p, Mark(true))
         && var s3 := Do(s2, p, Mark(true));
            p in s3.procs && s3.procs[p].pc ==
              NextDocument(s.procs[p].pc.id, s.procs[p].pc.reply, s.procs[p].pc.n + 1, true)
  {
    hide NextDocument;
  }

  lemma {:induction false} InsertIsEnabled(s: System, p: Pid)
    requires Inv(s) && p in s.procs && Owns(s.procs[p].pc)
    ensures s.procs[p].pc.id in s.rows && s.procs[p].pc.id !in s.answers
    ensures s.rows[s.procs[p].pc.id].key == s.procs[p].key
    ensures s.procs[p].pc.Inserting? || s.procs[p].pc.Putting? || s.procs[p].pc.Marking? ==>
      s.procs[p].pc.n < |s.procs[p].pc.reply.docs|
  {
    assert ProcessOk(s, s.procs[p]);
  }

  /** All documents from the n-th on. */
  lemma {:induction false} StoresAll(s: System, p: Pid, acts: seq<Action>, s': System, id: ExecutionId, reply: Reply,
                                     n: nat)
    returns (acts': seq<Action>, s'': System)
    requires Going(s, p, acts, s') && p in s'.procs && n <= |reply.docs|
    requires s'.procs[p].pc == NextDocument(id, reply, n, true)
    ensures Going(s, p, acts', s'') && p in s''.procs && s''.locks == s'.locks
    ensures s''.procs[p].pc == Finalizing(id, reply)
    decreases |reply.docs| - n
  {
    hide Going, Inv;
    if n == |reply.docs| {
      acts', s'' := acts, s';
    } else {
      var more, t := StoresOne(s, p, acts, s', id, reply, n);
      acts', s'' := StoresAll(s, p, more, t, id, reply, n + 1);
    }
  }

  /** From the lock to the client's outcome in the row. */
  lemma {:induction false} RunsTheClient(s: System, p: Pid, acts: seq<Action>, s': System, reply: Reply)
    returns (acts': seq<Action>, s'': System, id: ExecutionId)
    requires Going(s, p, acts, s') && p in s'.procs && s'.procs[p].pc.Opening?
    ensures Going(s, p, acts', s'') && p in s''.procs && s''.locks == s'.locks
    ensures s''.procs[p].pc ==
      if reply.succeeded || s.procs[p].recordOnError then NextDocument(id, reply, 0, true) else Leaving(Live(reply))
  {
    hide Going, Inv;
    GoesOnTo(s, p, acts, s', Open);
    var s1 := Do(s', p, Open);
    id := s'.next;
    GoesOnTo(s, p, acts + [Open], s1, Answer(reply));
    var s2 := Do(s1, p, Answer(reply));
    AnsweredHasRow(s, p, acts + [Open] + [Answer(reply)], s2);
    GoesOnTo(s, p, acts + [Open] + [Answer(reply)], s2, RecordOutcome);
    acts', s'' := acts + [Open] + [Answer(reply)] + [RecordOutcome], Do(s2, p, RecordOutcome);
  }

  lemma {:induction false} AnsweredHasRow(s: System, p: Pid, acts: seq<Action>, s': System)
    requires Going(s, p, acts, s') && p in s'.procs && s'.procs[p].pc.Answered?
    ensures Enabled(s', p, RecordOutcome)
  {
    InsertIsEnabled(s', p);
  }

  /**
   * What an undisturbed recording leaves: the run recorded whole, its answer in force if it succeeded, all else as it
   * was.
   */
  ghost predicate Recorded(s: System, p: Pid, reply: Reply, s': System) {
    && SameBut(s, s', p) && s.procs[p].key !in s'.locks
    && s'.procs[p].pc == Done(Live(reply))
    && (reply.succeeded || s.procs[p].recordOnError ==> exists id :: RecordedWhole(s', s.procs[p].key, id, reply))
    && Settled(s, p, reply, s')
  }

  /** A success is the key's answer now, and every other answer is as it was. */
  ghost predicate Settled(s: System, p: Pid, reply: Reply, s': System)
    requires p in s.procs
  {
    forall k, docs :: Answers(s', k, docs) <==>
      if k == s.procs[p].key && reply.succeeded then docs == reply.docs else Answers(s, k, docs)
  }

  lemma {:induction false} SettledByFinalizing(s: System, p: Pid, id: ExecutionId, reply: Reply)
    requires Inv(s) && Enabled(s, p, Finalize) && s.procs[p].pc == Finalizing(id, reply)
    ensures Settled(s, p, reply, Do(s, p, Finalize))
  {
    assert p in s.procs;
    hide Do, Enabled, Inv, Answers;
    forall k, docs {
      AnswersChangeByFinalizingOnly(s, p, Finalize, k, docs);
    }
  }

  lemma {:induction false} StaysSettled(s: System, p: Pid, reply: Reply, s': System, a: Action)
    requires p in s.procs && Settled(s, p, reply, s') && Inv(s') && Enabled(s', p, a) && !a.Finalize?
    ensures Settled(s, p, reply, Do(s', p, a))
  {
    hide Do, Enabled, Inv, Answers;
    forall k, docs {
      AnswersChangeByFinalizingOnly(s', p, a, k, docs);
    }
  }

  lemma {:induction false} Leaves(s: System, p: Pid, acts: seq<Action>, s': System, reply: Reply, id: ExecutionId)
    returns (acts': seq<Action>, s'': System)
    requires CanRun(s, p, acts) && s' == After(s, p, acts) && AllLand(acts) && SameBut(s, s', p) && Inv(s')
    requires p in s'.procs && s'.procs[p].pc == Leaving(Live(reply))
    requires s.procs[p].key in s'.locks && s'.locks[s.procs[p].key] == p
    requires reply.succeeded || s.procs[p].recordOnError ==> RecordedWhole(s', s.procs[p].key, id, reply)
    requires Settled(s, p, reply, s')
    ensures CanRun(s, p, acts') && s'' == After(s, p, acts') && AllLand(acts') && Recorded(s, p, reply, s'')
  {
    Extends(s, p, acts, s', Leave);
    acts', s'' := acts + [Leave], Do(s', p, Leave);
    StepIsOwn(s', p, Leave);
    SameButOn(s, s', s'', p);
    StaysSettled(s, p, reply, s', Leave);
    hide CanRun, After, Inv, Settled;
    if reply.succeeded || s.procs[p].recordOnError {
      assert RecordedWhole(s'', s.procs[p].key, id, reply);
    }
  }

  /**
   * A call that finds no answer, or wants none, and that nobody disturbs, records what its client gives: from any state
   * the others may have left, with the lock free, it has a run of its own that ends so.
   */
  lemma {:induction false} UndisturbedRecords(s: System, p: Pid, reply: Reply) returns (acts: seq<Action>, s': System)
    requires Inv(s) && p in s.procs && AtStart(s.procs[p]) && s.procs[p].key !in s.locks
    requires s.procs[p].refresh || !RecorderTheorems.Answered(s, s.procs[p].key)
    ensures CanRun(s, p, acts) && s' == After(s, p, acts) && AllLand(acts) && Recorded(s, p, reply, s')
  {
    var locked, t := ReachesTheLock(s, p);
    GoingMeans(s, p, locked, t);
    var ran, u, id := RunsTheClient(s, p, locked, t, reply);
    GoingMeans(s, p, ran, u);
    if reply.succeeded || s.procs[p].recordOnError {
      var stored, v := StoresAll(s, p, ran, u, id, reply, 0);
      GoingMeans(s, p, stored, v);
      var final, w := Finalizes(s, p, stored, v, id, reply);
      acts, s' := Leaves(s, p, final, w, reply, id);
    } else {
      acts, s' := Leaves(s, p, ran, u, reply, id);
    }
    hide *;
  }

  lemma {:induction false} GoingMeans(s: System, p: Pid, acts: seq<Action>, s': System)
    requires Going(s, p, acts, s')
    ensures CanRun(s, p, acts) && s' == After(s, p, acts) && AllLand(acts) && SameBut(s, s', p) && Inv(s')
    ensures forall k, docs :: Answers(s', k, docs) <==> Answers(s, k, docs)
  {
  }

  lemma {:induction false} Finalizes(s: System, p: Pid, acts: seq<Action>, s': System, id: ExecutionId, reply: Reply)
    returns (acts': seq<Action>, s'': System)
    requires Going(s, p, acts, s') && p in s'.procs && s'.procs[p].pc == Finalizing(id, reply)
    ensures CanRun(s, p, acts') && s'' == After(s, p, acts') && AllLand(acts') && SameBut(s, s'', p) && Inv(s'')
    ensures s''.procs[p].pc == Leaving(Live(reply)) && s''.locks == s'.locks
    ensures RecordedWhole(s'', s.procs[p].key, id, reply)
    ensures Settled(s, p, reply, s'')
  {
    GoingMeans(s, p, acts, s');
    FinalizeStep(s', p, id, reply);
    acts', s'' := acts + [Finalize], Do(s', p, Finalize);
    Extends(s, p, acts, s', Finalize);
    SameButOn(s, s', s'', p);
    SettledOn(s, s', s'', p, reply);
    SameKey(s, s', p);
    hide *;
    assert AllLand(acts') by {
      LandsToo(acts, Finalize);
    }
  }

  lemma {:induction false} LandsToo(acts: seq<Action>, a: Action)
    requires AllLand(acts) && Lands(a)
    ensures AllLand(acts + [a])
  {
  }

  lemma {:induction false} SameKey(s: System, s': System, p: Pid)
    requires SameBut(s, s', p)
    ensures p in s.procs && p in s'.procs && s'.procs[p].key == s.procs[p].key
  {
  }

  lemma {:induction false} FinalizeStep(s: System, p: Pid, id: ExecutionId, reply: Reply)
    requires Inv(s) && p in s.procs && s.procs[p].pc == Finalizing(id, reply)
    ensures Enabled(s, p, Finalize) && Lands(Finalize)
    ensures var s' := Do(s, p, Finalize);
      && Inv(s') && SameBut(s, s', p) && s'.locks == s.locks && Settled(s, p, reply, s')
      && RecordedWhole(s', s.procs[p].key, id, reply) && s'.procs[p].pc == Leaving(Live(reply))
  {
    InsertIsEnabled(s, p);
    FinalizingRecords(s, p);
    EveryStepKeeps(s, p, Finalize);
    StepIsOwn(s, p, Finalize);
    LocksStay(s, p, Finalize);
    SettledByFinalizing(s, p, id, reply);
    hide Do, Inv, RecordedWhole, Settled, SameBut;
  }

  lemma {:induction false} SettledOn(s: System, s': System, s'': System, p: Pid, reply: Reply)
    requires SameBut(s, s', p) && Settled(s', p, reply, s'')
    requires forall k, docs :: Answers(s', k, docs) <==> Answers(s, k, docs)
    ensures Settled(s, p, reply, s'')
  {
    hide Answers;
  }

  // ---- and a call that finds an answer replays it ----

  /** The blobs of the row being read, from the n-th on. */
  lemma {:induction false} FetchesAll(s: System, p: Pid, acts: seq<Action>, s': System, docs: seq<Document>)
    returns (acts': seq<Action>, s'': System)
    requires Going(s, p, acts, s') && p in s'.procs && s'.procs[p].pc.Reading?
    requires s'.procs[p].pc.row.id in s'.answers && docs == s'.answers[s'.procs[p].pc.row.id]
    ensures Going(s, p, acts', s'') && p in s''.procs && s''.locks == s'.locks
    ensures s''.procs[p].pc == Leaving(Served(s'.procs[p].pc.row.id, docs))
    decreases |docs| - |s'.procs[p].pc.got|
  {
    FetchesNext(s', p);
    hide Going, Inv;
    GoesOnTo(s, p, acts, s', Fetch);
    var t := Do(s', p, Fetch);
    if |s'.procs[p].pc.got| == |docs| {
      acts', s'' := acts + [Fetch], t;
    } else {
      acts', s'' := FetchesAll(s, p, acts + [Fetch], t, docs);
    }
  }

  lemma {:induction false} FetchesNext(s: System, p: Pid)
    requires Inv(s) && p in s.procs && s.procs[p].pc.Reading?
    ensures Enabled(s, p, Fetch) && s.procs[p].pc.row.id in s.answers
    ensures var pc, docs := s.procs[p].pc, s.answers[s.procs[p].pc.row.id];
      && |pc.got| <= |docs| && Do(s, p, Fetch).answers == s.answers
      && Do(s, p, Fetch).procs[p].pc ==
           if |pc.got| == |docs| then Leaving(Served(pc.row.id, docs))
           else Reading(pc.row, docs[..|pc.got| + 1])
  {
    var pc := s.procs[p].pc;
    var docs := s.answers[pc.row.id];
    assert ReaderOk(s, s.procs[p].key, pc);
    if |pc.got| < |docs| {
      assert pc.row.artifacts[|pc.got|] == MakeArtifact(pc.row.id, docs[|pc.got|], pc.row.artifacts[|pc.got|].status);
      assert docs[..|pc.got| + 1] == pc.got + [docs[|pc.got|]];
    } else {
      assert pc.got == docs;
    }
  }

  /** An undisturbed CACHE call of a key that has an answer returns it and changes nothing. */
  lemma {:induction false} UndisturbedReplays(s: System, p: Pid)
    returns (acts: seq<Action>, s': System, id: ExecutionId, docs: seq<Document>)
    requires Inv(s) && p in s.procs && s.procs[p].pc.FirstLook? && !s.procs[p].refresh
    requires RecorderTheorems.Answered(s, s.procs[p].key)
    ensures Going(s, p, acts, s') && p in s'.procs && s'.procs[p].pc == Done(Served(id, docs))
    ensures Answers(s, s.procs[p].key, docs)
  {
    Begins(s, p);
    LookGoesOn(s, p, [], s);
    assert [] + [Look] == [Look];
    id, docs := ReadsTheAnswer(s, p);
    hide *;
    var read, u := FetchesAll(s, p, [Look], Do(s, p, Look), docs);
    acts, s' := LeavesServed(s, p, read, u, id, docs);
  }

  lemma {:induction false} LeavesServed(s: System, p: Pid, acts: seq<Action>, s': System, id: ExecutionId,
                                        docs: seq<Document>)
    returns (acts': seq<Action>, s'': System)
    requires Going(s, p, acts, s') && p in s'.procs && s'.procs[p].pc == Leaving(Served(id, docs))
    ensures Going(s, p, acts', s'') && p in s''.procs && s''.procs[p].pc == Done(Served(id, docs))
  {
    hide Going, Inv;
    GoesOnTo(s, p, acts, s', Leave);
    acts', s'' := acts + [Leave], Do(s', p, Leave);
  }

  lemma {:induction false} ReadsTheAnswer(s: System, p: Pid) returns (id: ExecutionId, docs: seq<Document>)
    requires Inv(s) && Enabled(s, p, Look) && Do(s, p, Look).procs[p].pc.Reading?
    ensures Do(s, p, Look).procs[p].pc.row.id == id && id in Do(s, p, Look).answers
    ensures docs == Do(s, p, Look).answers[id] && Answers(s, s.procs[p].key, docs)
  {
    CurrentIsComplete(s, s.procs[p].key);
    id := FindCurrent(s.rows, s.procs[p].key).value.id;
    docs := s.answers[id];
  }

  // ---- which is what the plain map says ----

  /** The key's answer in the protocol is the map's. */
  ghost predicate Agree(s: System, k: Key, c: CacheModel.Cache) {
    && (k in c ==> c[k].Whole?)
    && (forall docs :: Answers(s, k, docs) <==> k in c && c[k].documents == docs)
  }

  /**
   * The same call, to a recorder of the protocol and to the plain map: one that stores output, in a world that works.
   */
  predicate SameCall(proc: Process, cmd: CacheSpec.Command, w: CacheSpec.World) {
    && cmd.key == proc.key && cmd.mode == (if proc.refresh then CacheSpec.Refresh else CacheSpec.Cached)
    && cmd.recordOnError == proc.recordOnError && cmd.depth != CacheSpec.Meter && !CacheSpec.Uncacheable(cmd)
    && w.contentAvailable && w.healthy && w.client.Finishes?
  }

  /** The outcome of the protocol is the map's result: its documents, from the store or from the client. */
  predicate SameResult(o: Outcome, step: CacheSpec.Step) {
    && step.result.Returned?
    && match o
       case Served(_, docs) => step.clientCalls == 0 && step.result.execution.documents == docs
       case Live(reply) =>
         && step.clientCalls == 1 && step.result.execution.documents == reply.docs
         && (reply.succeeded <==> step.result.execution.state == Success)
       case Aborted => false
  }

  /**
   * An undisturbed call ends as the plain map says: with the same answer for its key, returning the same documents. (At
   * DATASET depth a hit may also attach the input, which is no step of the protocol.)
   */
  lemma {:induction false} UndisturbedCallAgrees(s: System, p: Pid, c: CacheModel.Cache, cmd: CacheSpec.Command,
                                                 inputs: seq<Document>, w: CacheSpec.World)
    returns (acts: seq<Action>, s': System)
    requires Inv(s) && p in s.procs && AtStart(s.procs[p]) && s.procs[p].key !in s.locks
    requires SameCall(s.procs[p], cmd, w) && forall j: nat :: w.faults(j) == CacheSpec.Fine
    requires Agree(s, cmd.key, c) && (cmd.depth == CacheSpec.Outputs || s.procs[p].refresh || cmd.key !in c)
    ensures EndsAs(s, p, acts, s', cmd.key, CacheSpec.Execute(c, cmd, inputs, w))
  {
    var step := CacheSpec.Execute(c, cmd, inputs, w);
    AnsweredHasDocs(s, cmd.key);
    if !s.procs[p].refresh && cmd.key in c {
      HitStep(c, cmd, inputs, w);
      assert Answers(s, cmd.key, c[cmd.key].documents);
      hide CacheSpec.Execute, Inv, Answers, RecorderTheorems.Answered;
      acts, s' := ReplayAgrees(s, p, c, step);
    } else {
      RunStep(c, cmd, inputs, w);
      assert forall docs :: !Answers(s, cmd.key, docs) || s.procs[p].refresh;
      hide CacheSpec.Execute, Inv, Answers, RecorderTheorems.Answered;
      acts, s' := RecordingAgrees(s, p, c, step);
    }
    hide *;
  }

  ghost predicate EndsAs(s: System, p: Pid, acts: seq<Action>, s': System, k: Key, step: CacheSpec.Step) {
    && CanRun(s, p, acts) && s' == After(s, p, acts) && AllLand(acts) && SameBut(s, s', p)
    && s'.procs[p].pc.Done? && SameResult(s'.procs[p].pc.outcome, step)
    && Agree(s', k, step.cache)
  }

  lemma {:induction false} ReplayAgrees(s: System, p: Pid, c: CacheModel.Cache, step: CacheSpec.Step)
    returns (acts: seq<Action>, s': System)
    requires Inv(s) && p in s.procs && s.procs[p].pc.FirstLook? && !s.procs[p].refresh
    requires RecorderTheorems.Answered(s, s.procs[p].key) && Agree(s, s.procs[p].key, c)
    requires s.procs[p].key in c && step.cache == c && step.clientCalls == 0
    requires step.result.Returned? && step.result.execution.documents == c[s.procs[p].key].documents
    ensures EndsAs(s, p, acts, s', s.procs[p].key, step)
  {
    var id, docs;
    acts, s', id, docs := UndisturbedReplays(s, p);
    GoingMeans(s, p, acts, s');
    hide Inv, CanRun, After, Going, AllLand, SameBut, Answers;
  }

  lemma {:induction false} RecordingAgrees(s: System, p: Pid, c: CacheModel.Cache, step: CacheSpec.Step)
    returns (acts: seq<Action>, s': System)
    requires Inv(s) && p in s.procs && AtStart(s.procs[p]) && s.procs[p].key !in s.locks
    requires s.procs[p].refresh || !RecorderTheorems.Answered(s, s.procs[p].key)
    requires Agree(s, s.procs[p].key, c) && step.clientCalls == 1 && step.result.Returned?
    requires var e := step.result.execution;
      step.cache == if e.state == Success then c[s.procs[p].key := CacheModel.Whole(e.documents, false)] else c
    ensures EndsAs(s, p, acts, s', s.procs[p].key, step)
  {
    var reply := Reply(step.result.execution.state == Success, step.result.execution.documents);
    acts, s' := UndisturbedRecords(s, p, reply);
    hide Inv, CanRun, After, Going, AllLand, SameBut, Answers, AtStart, RecordedWhole;
  }

  lemma {:induction false} HitStep(c: CacheModel.Cache, cmd: CacheSpec.Command, inputs: seq<Document>,
                                   w: CacheSpec.World)
    requires cmd.key in c && c[cmd.key].Whole? && cmd.mode == CacheSpec.Cached && cmd.depth == CacheSpec.Outputs
    requires !CacheSpec.Uncacheable(cmd) && w.contentAvailable
    ensures var step := CacheSpec.Execute(c, cmd, inputs, w);
      step.cache == c && step.clientCalls == 0
      && step.result.Returned? && step.result.execution.documents == c[cmd.key].documents
  {
  }

  lemma {:induction false} RunStep(c: CacheModel.Cache, cmd: CacheSpec.Command, inputs: seq<Document>,
                                   w: CacheSpec.World)
    requires cmd.mode == CacheSpec.Refresh || (cmd.mode == CacheSpec.Cached && cmd.key !in c)
    requires cmd.depth != CacheSpec.Meter && !CacheSpec.Uncacheable(cmd)
    requires w.contentAvailable && w.healthy && w.client.Finishes? && forall j: nat :: w.faults(j) == CacheSpec.Fine
    ensures var step := CacheSpec.Execute(c, cmd, inputs, w);
      && step.clientCalls == 1 && step.result.Returned?
      && var e := step.result.execution;
         step.cache == if e.state == Success then c[cmd.key := CacheModel.Whole(e.documents, false)] else c
  {
    if cmd.key !in c {
      CacheSpec.NothingToServe(c, cmd, inputs, w);
    }
  }
}
