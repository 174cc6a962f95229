/** With every waiter holding the key lock and nobody refreshing, a key is recorded once and then only replayed. */
module RecordOnce {
  import opened Executions
  import opened RecorderProtocol
  import opened RecorderTheorems

  /** Nobody's wait for the lock of `k` times out, and every call for `k` is a CACHE call. */
  ghost predicate Disciplined(states: seq<System>, moves: seq<Move>, k: Key) {
    && IsTrace(states, moves)
    && (forall p :: p in states[0].procs && states[0].procs[p].key == k ==> !states[0].procs[p].refresh)
    && (forall i :: 0 <= i < |moves| && moves[i].a.TimeOut? && moves[i].p in states[i].procs ==>
          states[i].procs[moves[i].p].key != k)
  }

  /** Past the lock: about to look again, or running the client and recording. */
  predicate Critical(pc: Pc) {
    pc.SecondLook? || Recording(pc)
  }

  predicate Recording(pc: Pc) {
    pc.Opening? || Owns(pc)
  }

  predicate For(s: System, p: Pid, k: Key) {
    p in s.procs && s.procs[p].key == k
  }

  /** Only the holder of the key's lock is past it; nobody records while there is an answer; there is one answer. */
  ghost predicate Once(s: System, k: Key) {
    && (forall p :: For(s, p, k) ==> !s.procs[p].refresh)
    && (forall p :: For(s, p, k) && Critical(s.procs[p].pc) ==> k in s.locks && s.locks[k] == p)
    && (forall p :: For(s, p, k) && Recording(s.procs[p].pc) ==> !RecorderTheorems.Answered(s, k))
    && (forall id :: AnswerOf(s, k, id) ==> ServableAt(s.rows, k, id))
  }

  /** Two recorders of one key are one recorder. */
  lemma {:induction false} OneRecorder(s: System, k: Key, p: Pid, q: Pid)
    requires Once(s, k) && For(s, p, k) && For(s, q, k) && Critical(s.procs[p].pc) && Critical(s.procs[q].pc)
    ensures p == q
  {
  }

  lemma {:induction false} OtherKeysLock(s: System, p: Pid, a: Action, k: Key)
    requires Enabled(s, p, a) && s.procs[p].key != k
    ensures k in s.locks ==> k in Do(s, p, a).locks && Do(s, p, a).locks[k] == s.locks[k]
  {
  }

  lemma {:induction false} OthersKeepOnce(s: System, p: Pid, a: Action, k: Key)
    requires Inv(s) && Enabled(s, p, a) && Once(s, k) && s.procs[p].key != k
    ensures Once(Do(s, p, a), k)
  {
    var s' := Do(s, p, a);
    KeysStay(s, p, a, p);
    OtherKeysRows(s, p, a, k);
    OtherKeysLock(s, p, a, k);
    hide Do, Enabled, Inv;
    forall q | For(s', q, k)
      ensures For(s, q, k) && s'.procs[q] == s.procs[q]
    {
      KeysStay(s, p, a, q);
    }
    if RecorderTheorems.Answered(s', k) {
      var id :| ServableAt(s'.rows, k, id);
      assert ServableAt(s.rows, k, id);
    }
  }

  /** A step for another key leaves this key's rows and answers as they are. */
  lemma {:induction false} OtherKeysRows(s: System, p: Pid, a: Action, k: Key)
    requires Inv(s) && Enabled(s, p, a) && s.procs[p].key != k
    ensures forall id :: ServableAt(Do(s, p, a).rows, k, id) <==> ServableAt(s.rows, k, id)
    ensures forall id :: AnswerOf(Do(s, p, a), k, id) <==> AnswerOf(s, k, id)
  {
    forall id
      ensures ServableAt(Do(s, p, a).rows, k, id) <==> ServableAt(s.rows, k, id)
      ensures AnswerOf(Do(s, p, a), k, id) <==> AnswerOf(s, k, id)
    {
      if a.Finalize? {
        FinalizingPromotes(s, p, k, id);
      } else {
        OtherStepsPromoteNothing(s, p, a, k, id);
      }
    }
  }

  lemma {:induction false} OwnStepKeepsOnce(s: System, p: Pid, a: Action, k: Key)
    requires Inv(s) && Enabled(s, p, a) && Once(s, k) && s.procs[p].key == k && !a.TimeOut?
    ensures Once(Do(s, p, a), k)
  {
    assert ProcessOk(s, s.procs[p]);
    KeysStay(s, p, a, p);
    OwnPc(s, p, a, k);
    OwnRows(s, p, a, k);
    var s' := Do(s, p, a);
    hide Do, Enabled, Inv;
    forall q | For(s', q, k)
      ensures For(s, q, k) && (q != p ==> s'.procs[q] == s.procs[q]) && s'.procs[q].refresh == s.procs[q].refresh
    {
      KeysStay(s, p, a, q);
    }
  }

  /** What a step does to its own place and to the lock. */
  lemma {:induction false} OwnPc(s: System, p: Pid, a: Action, k: Key)
    requires Inv(s) && Enabled(s, p, a) && Once(s, k) && s.procs[p].key == k && !a.TimeOut?
    ensures var s' := Do(s, p, a);
      && (Critical(s'.procs[p].pc) ==> k in s'.locks && s'.locks[k] == p)
      && (k in s.locks && s.locks[k] != p ==> k in s'.locks && s'.locks[k] == s.locks[k])
      && (Recording(s'.procs[p].pc) ==> Critical(s.procs[p].pc) && !RecorderTheorems.Answered(s, k))
  {
    OwnLock(s, p, a, k);
    OwnRecording(s, p, a, k);
    hide *;
  }

  lemma {:induction false} OwnLock(s: System, p: Pid, a: Action, k: Key)
    requires Enabled(s, p, a) && Once(s, k) && s.procs[p].key == k && !a.TimeOut?
    ensures var s' := Do(s, p, a);
      && (Critical(s'.procs[p].pc) ==> k in s'.locks && s'.locks[k] == p)
      && (k in s.locks && s.locks[k] != p ==> k in s'.locks && s'.locks[k] == s.locks[k])
  {
    assert For(s, p, k);
    hide WithRow, FinalizedRows;
  }

  lemma {:induction false} OwnRecording(s: System, p: Pid, a: Action, k: Key)
    requires Inv(s) && Enabled(s, p, a) && Once(s, k) && s.procs[p].key == k && !a.TimeOut?
    ensures var s' := Do(s, p, a);
      Recording(s'.procs[p].pc) ==> Critical(s.procs[p].pc) && !RecorderTheorems.Answered(s, k)
  {
    assert ProcessOk(s, s.procs[p]);
    assert For(s, p, k);
    hide Inv, ProcessesOk, RowsOk, OwnerOk, ReaderOk, OutcomeOk, Written, StoredSoFar, Complete, WithRow, FinalizedRows;
  }

  /** What a step does to the answers of its key: only finalising, by the one recorder, adds one. */
  lemma {:induction false} OwnRows(s: System, p: Pid, a: Action, k: Key)
    requires Inv(s) && Enabled(s, p, a) && Once(s, k) && s.procs[p].key == k
    ensures forall id :: AnswerOf(Do(s, p, a), k, id) ==> ServableAt(Do(s, p, a).rows, k, id)
    ensures !(a.Finalize? && Promotes(s, p, k)) ==>
      forall id :: ServableAt(Do(s, p, a).rows, k, id) <==> ServableAt(s.rows, k, id)
    ensures a.Finalize? ==> Recording(s.procs[p].pc) && !Recording(Do(s, p, a).procs[p].pc)
  {
    assert For(s, p, k);
    forall id
      ensures AnswerOf(Do(s, p, a), k, id) ==> ServableAt(Do(s, p, a).rows, k, id)
      ensures !(a.Finalize? && Promotes(s, p, k)) ==>
        (ServableAt(Do(s, p, a).rows, k, id) <==> ServableAt(s.rows, k, id))
    {
      if a.Finalize? {
        FinalizingPromotes(s, p, k, id);
      } else {
        OtherStepsPromoteNothing(s, p, a, k, id);
      }
    }
  }

  lemma {:induction false} OnceStays(states: seq<System>, moves: seq<Move>, k: Key, n: nat)
    requires Disciplined(states, moves, k) && n < |states|
    ensures Once(states[n], k)
  {
    hide Do, Inv, Enabled;
    if n > 0 {
      OnceStays(states, moves, k, n - 1);
      EveryStateIsSafe(states, moves, n - 1);
      var p, a := moves[n - 1].p, moves[n - 1].a;
      assert Enabled(states[n - 1], p, a) && states[n] == Do(states[n - 1], p, a);
      EnabledProcess(states[n - 1], p, a);
      if states[n - 1].procs[p].key == k {
        OwnStepKeepsOnce(states[n - 1], p, a, k);
      } else {
        OthersKeepOnce(states[n - 1], p, a, k);
      }
    }
  }

  lemma {:induction false} EnabledProcess(s: System, p: Pid, a: Action)
    requires Enabled(s, p, a)
    ensures p in s.procs
  {
  }

  /**
   * Record once: however many contenders there are and however they are scheduled or crash, a key gets at most one
   * stored success, every replay of the key returns that one, and while it is there nobody calls the client for it.
   */
  lemma {:induction false} RecordedOnce(states: seq<System>, moves: seq<Move>, k: Key, n: nat)
    requires Disciplined(states, moves, k) && n < |states|
    ensures var s := states[n];
      && (forall i, j :: AnswerOf(s, k, i) && AnswerOf(s, k, j) ==> i == j)
      && (forall p :: For(s, p, k) && s.procs[p].pc.Done? && s.procs[p].pc.outcome.Served? ==>
            && AnswerOf(s, k, s.procs[p].pc.outcome.id)
            && s.answers[s.procs[p].pc.outcome.id] == s.procs[p].pc.outcome.docs)
      && (forall p :: For(s, p, k) && RecorderTheorems.Answered(s, k) ==> !Recording(s.procs[p].pc))
  {
    OnceStays(states, moves, k, n);
    EveryStateIsSafe(states, moves, n);
    var s := states[n];
    forall p | For(s, p, k)
      ensures ProcessOk(s, s.procs[p])
    {
    }
  }

  /** Where a call that came after the answer can be: it has read it, is reading it, or has stopped. */
  predicate Late(pc: Pc, id: ExecutionId, docs: seq<Document>) {
    match pc
    case FirstLook => true
    case Reading(row, got) => row.id == id && got <= docs
    case Leaving(outcome) => outcome == Served(id, docs)
    case Done(outcome) => outcome == Served(id, docs)
    case Crashed => true
    case _ => false
  }

  ghost predicate TheAnswer(s: System, k: Key, id: ExecutionId, docs: seq<Document>) {
    ServableAt(s.rows, k, id) && id in s.answers && s.answers[id] == docs
  }

  lemma {:induction false} LateStep(s: System, p: Pid, a: Action, k: Key, id: ExecutionId, docs: seq<Document>)
    requires Inv(s) && Once(s, k) && Enabled(s, p, a) && For(s, p, k)
    requires TheAnswer(s, k, id, docs) && Late(s.procs[p].pc, id, docs)
    ensures Late(Do(s, p, a).procs[p].pc, id, docs)
  {
    if a.Look? {
      LateLook(s, p, k, id, docs);
    } else if a.Fetch? {
      LateFetch(s, p, id, docs);
    }
    hide Inv, Once, WithRow, FinalizedRows, Looked, Fetched;
  }

  /** A look finds the answer. */
  lemma {:induction false} LateLook(s: System, p: Pid, k: Key, id: ExecutionId, docs: seq<Document>)
    requires Inv(s) && Once(s, k) && For(s, p, k) && Enabled(s, p, Look)
    requires TheAnswer(s, k, id, docs) && Late(s.procs[p].pc, id, docs)
    ensures Late(Looked(s, s.procs[p]), id, docs)
  {
    CurrentIsComplete(s, k);
    var i :| ServableAt(s.rows, k, i) && s.rows[i].row == FindCurrent(s.rows, k).value;
    assert i == id && RowOk(s, id);
  }

  /** A fetch gets the answer's next document, or finds it lost. */
  lemma {:induction false} LateFetch(s: System, p: Pid, id: ExecutionId, docs: seq<Document>)
    requires Inv(s) && p in s.procs && s.procs[p].pc.Reading? && id in s.answers && s.answers[id] == docs
    requires Late(s.procs[p].pc, id, docs)
    ensures Late(Fetched(s, s.procs[p].pc), id, docs)
  {
    assert ProcessOk(s, s.procs[p]);
    var pc := s.procs[p].pc;
    if |pc.got| < |docs| {
      assert pc.row.artifacts[|pc.got|] == MakeArtifact(id, docs[|pc.got|], pc.row.artifacts[|pc.got|].status);
    }
    hide Inv;
  }

  lemma {:induction false} TheAnswerStays(s: System, p: Pid, a: Action, k: Key, id: ExecutionId, docs: seq<Document>)
    requires Inv(s) && Once(s, k) && Enabled(s, p, a) && TheAnswer(s, k, id, docs)
    ensures TheAnswer(Do(s, p, a), k, id, docs)
  {
    assert For(s, p, s.procs[p].key);
    if a.Finalize? {
      FinalizingPromotes(s, p, k, id);
    } else {
      OtherStepsPromoteNothing(s, p, a, k, id);
    }
  }

  /**
   * A contender that has not looked yet when the answer is there returns that answer, byte for byte, without ever
   * waiting for the lock or calling the client, whatever happens around it.
   */
  lemma {:induction false} LateContendersReplay(states: seq<System>, moves: seq<Move>, k: Key, m: nat, n: nat, p: Pid,
                                                id: ExecutionId, docs: seq<Document>)
    requires Disciplined(states, moves, k) && m <= n < |states|
    requires TheAnswer(states[m], k, id, docs) && For(states[m], p, k) && states[m].procs[p].pc.FirstLook?
    ensures TheAnswer(states[n], k, id, docs) && For(states[n], p, k) && Late(states[n].procs[p].pc, id, docs)
  {
    hide Do, Inv, Enabled, Once;
    if m < n {
      LateContendersReplay(states, moves, k, m, n - 1, p, id, docs);
      EveryStateIsSafe(states, moves, n - 1);
      OnceStays(states, moves, k, n - 1);
      var q, a := moves[n - 1].p, moves[n - 1].a;
      assert Enabled(states[n - 1], q, a) && states[n] == Do(states[n - 1], q, a);
      TheAnswerStays(states[n - 1], q, a, k, id, docs);
      KeysStay(states[n - 1], q, a, p);
      if p == q {
        LateStep(states[n - 1], q, a, k, id, docs);
      }
    }
  }
}
