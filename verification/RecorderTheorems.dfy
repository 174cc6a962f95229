/** What every schedule of recorders and readers keeps, and what the key lock adds: one stored success per key. */
module RecorderTheorems {
  import opened Executions
  import opened RecorderProtocol

  datatype Move = Move(p: Pid, a: Action)

  ghost predicate IsTrace(states: seq<System>, moves: seq<Move>) {
    && |states| == |moves| + 1
    && Initial(states[0])
    && forall i :: 0 <= i < |moves| ==>
         Enabled(states[i], moves[i].p, moves[i].a) && states[i + 1] == Do(states[i], moves[i].p, moves[i].a)
  }

  lemma {:induction false} StartsWell(s: System)
    requires Initial(s)
    ensures Inv(s)
  {
  }

  /** With no mutual exclusion at all, every state of every schedule is one the readers can trust. */
  lemma {:induction false} EveryStateIsSafe(states: seq<System>, moves: seq<Move>, n: nat)
    requires IsTrace(states, moves) && n < |states|
    ensures Inv(states[n])
  {
    hide Inv, Do, Enabled, Initial;
    if n == 0 {
      StartsWell(states[0]);
    } else {
      EveryStateIsSafe(states, moves, n - 1);
      EveryStepKeeps(states[n - 1], moves[n - 1].p, moves[n - 1].a);
    }
  }

  /** The documents of the key's current answer. */
  ghost predicate Answers(s: System, k: Key, docs: seq<Document>) {
    exists id :: ServableAt(s.rows, k, id) && id in s.answers && s.answers[id] == docs
  }

  ghost predicate Answered(s: System, k: Key) {
    exists id :: ServableAt(s.rows, k, id)
  }

  /**
   * The current row of a key is the whole answer of a client run that succeeded, every byte of it in the blob store.
   */
  lemma {:induction false} CurrentIsComplete(s: System, k: Key)
    requires Inv(s) && FindCurrent(s.rows, k).Some?
    ensures var row := FindCurrent(s.rows, k).value;
      && row.id in s.answers && Answers(s, k, s.answers[row.id])
      && Complete(row, s.blobs, s.answers[row.id])
      && forall j :: 0 <= j < |row.artifacts| ==> s.blobs[row.artifacts[j].blobKey] == s.answers[row.id][j].content
  {
    var id :| ServableAt(s.rows, k, id) && s.rows[id].row == FindCurrent(s.rows, k).value;
    assert RowOk(s, id);
    var row := s.rows[id].row;
    forall j | 0 <= j < |row.artifacts|
      ensures s.blobs[row.artifacts[j].blobKey] == s.answers[id][j].content
    {
      assert row.artifacts[j] == MakeArtifact(id, s.answers[id][j], row.artifacts[j].status);
    }
  }

  predicate AnswerOf(s: System, k: Key, id: ExecutionId) {
    id in s.answers && id in s.rows && s.rows[id].key == k
  }

  /** The steps that write the row of the process's own run, or insert it. */
  predicate WritesRow(a: Action) {
    a.Open? || a.Interrupt? || a.Raise? || a.RecordOutcome? || a.Insert? || (a.Mark? && a.lands)
  }

  function WrittenRow(s: System, p: Pid, a: Action): ExecutionId
    requires Enabled(s, p, a) && WritesRow(a)
  {
    if a.Open? then s.next else s.procs[p].pc.id
  }

  /** A run's own row can be written only while it is unfinished: neither before nor after is it anybody's answer. */
  lemma {:induction false} WritesUnfinishedRows(s: System, p: Pid, a: Action)
    requires Inv(s) && Enabled(s, p, a) && WritesRow(a)
    ensures var s', x := Do(s, p, a), WrittenRow(s, p, a);
      && s'.answers == s.answers && x !in s.answers
      && (forall j :: j != x ==> (j in s.rows <==> j in s'.rows) && (j in s.rows ==> s.rows[j] == s'.rows[j]))
      && (x in s.rows ==> !s.rows[x].row.outputPersisted)
      && (x in s'.rows ==> !s'.rows[x].row.outputPersisted)
  {
    assert ProcessOk(s, s.procs[p]);
    assert s.next in s.rows ==> RowOk(s, s.next);
    hide Inv, ProcessesOk, RowsOk, StoredSoFar, NextDocument, RowOk, Fetched;
  }

  lemma {:induction false} OtherStepsWriteNoRow(s: System, p: Pid, a: Action)
    requires Enabled(s, p, a) && !a.Finalize? && !WritesRow(a)
    ensures Do(s, p, a).rows == s.rows && Do(s, p, a).answers == s.answers
  {
  }

  /** Every step but one leaves every key's current row, and every answer ever finalised, as they are. */
  lemma {:induction false} OtherStepsPromoteNothing(s: System, p: Pid, a: Action, k: Key, id: ExecutionId)
    requires Inv(s) && Enabled(s, p, a) && !a.Finalize?
    ensures ServableAt(Do(s, p, a).rows, k, id) <==> ServableAt(s.rows, k, id)
    ensures Do(s, p, a).answers == s.answers
    ensures AnswerOf(Do(s, p, a), k, id) <==> AnswerOf(s, k, id)
  {
    hide Inv, Do;
    if WritesRow(a) {
      WritesUnfinishedRows(s, p, a);
    } else {
      OtherStepsWriteNoRow(s, p, a);
    }
  }

  predicate Promotes(s: System, p: Pid, k: Key) {
    p in s.procs && s.procs[p].key == k && s.procs[p].pc.Finalizing? && s.procs[p].pc.reply.succeeded
  }

  /**
   * Finalising a success makes it the key's only current row, with the client's own documents; a failure changes
   * nothing.
   */
  lemma {:induction false} FinalizingPromotes(s: System, p: Pid, k: Key, id: ExecutionId)
    requires Inv(s) && Enabled(s, p, Finalize)
    ensures var s' := Do(s, p, Finalize);
      var own := s.procs[p].pc.id;
      && (ServableAt(s'.rows, k, id) <==> if Promotes(s, p, k) then id == own else ServableAt(s.rows, k, id))
      && (AnswerOf(s', k, id) <==> AnswerOf(s, k, id) || (Promotes(s, p, k) && id == own))
      && (Promotes(s, p, s.procs[p].key) ==> s'.answers == s.answers[own := s.procs[p].pc.reply.docs])
      && (!Promotes(s, p, s.procs[p].key) ==> s'.answers == s.answers)
      && own !in s.answers
  {
    assert ProcessOk(s, s.procs[p]);
    var pc := s.procs[p].pc;
    FinalizesWhole(s, p);
    hide Inv, ProcessesOk, RowsOk, OwnerOk;
  }

  lemma {:induction false} FinalizesWhole(s: System, p: Pid)
    requires Inv(s) && Enabled(s, p, Finalize)
    ensures var pc := s.procs[p].pc;
      var row := s.rows[pc.id].row;
      && pc.id !in s.answers && s.rows[pc.id].key == s.procs[p].key
      && row.state == (if pc.reply.succeeded then Success else Failure)
      && !row.outputPersisted && !row.superseded && AllStored(row.artifacts)
  {
    assert ProcessOk(s, s.procs[p]);
    var pc := s.procs[p].pc;
    var row := s.rows[pc.id].row;
    assert pc.reply.docs[..|pc.reply.docs|] == pc.reply.docs;
    assert row.artifacts[..|pc.reply.docs|] == row.artifacts;
  }

  /**
   * One step of one process changes the current answer of a key only by finalising a success of that key, and then
   * to that client's own documents.
   */
  lemma {:induction false} AnswersChangeByFinalizingOnly(s: System, p: Pid, a: Action, k: Key, docs: seq<Document>)
    requires Inv(s) && Enabled(s, p, a)
    ensures Answers(Do(s, p, a), k, docs) <==>
      if a.Finalize? && Promotes(s, p, k) then docs == s.procs[p].pc.reply.docs else Answers(s, k, docs)
  {
    forall id
      ensures ServableAt(Do(s, p, a).rows, k, id) <==>
        if a.Finalize? && Promotes(s, p, k) then id == s.procs[p].pc.id else ServableAt(s.rows, k, id)
      ensures Do(s, p, a).answers == if a.Finalize? && Promotes(s, p, s.procs[p].key)
        then s.answers[s.procs[p].pc.id := s.procs[p].pc.reply.docs] else s.answers
      ensures a.Finalize? ==> s.procs[p].pc.id !in s.answers
    {
      if a.Finalize? {
        FinalizingPromotes(s, p, k, id);
      } else {
        OtherStepsPromoteNothing(s, p, a, k, id);
      }
    }
    hide Do, Inv;
    if a.Finalize? && Promotes(s, p, k) {
      assert ServableAt(Do(s, p, a).rows, k, s.procs[p].pc.id);
    }
  }

  /** Once a key has an answer it never again has none. */
  lemma {:induction false} AnAnswerIsNeverLost(s: System, p: Pid, a: Action, k: Key)
    requires Inv(s) && Enabled(s, p, a) && Answered(s, k)
    ensures Answered(Do(s, p, a), k)
  {
    var id :| ServableAt(s.rows, k, id);
    if a.Finalize? {
      FinalizingPromotes(s, p, k, id);
      FinalizingPromotes(s, p, k, s.procs[p].pc.id);
    } else {
      OtherStepsPromoteNothing(s, p, a, k, id);
    }
  }

  // ---- what a reader returns was current while it ran ----

  ghost predicate WasCurrent(states: seq<System>, n: nat, k: Key, id: ExecutionId) {
    exists m :: 0 <= m <= n && m < |states| && ServableAt(states[m].rows, k, id)
  }

  ghost predicate ReadsWereCurrent(states: seq<System>, n: nat, p: Pid)
    requires n < |states|
  {
    p in states[n].procs ==>
      var proc := states[n].procs[p];
      && (proc.pc.Reading? ==> WasCurrent(states, n, proc.key, proc.pc.row.id))
      && ((proc.pc.Leaving? || proc.pc.Done?) && proc.pc.outcome.Served? ==>
            WasCurrent(states, n, proc.key, proc.pc.outcome.id))
  }

  lemma {:induction false} WasCurrentStays(states: seq<System>, n: nat, k: Key, id: ExecutionId)
    requires WasCurrent(states, n, k, id)
    ensures WasCurrent(states, n + 1, k, id)
  {
    var m :| 0 <= m <= n && m < |states| && ServableAt(states[m].rows, k, id);
    assert 0 <= m <= n + 1;
  }

  lemma {:induction false} KeysStay(s: System, p: Pid, a: Action, q: Pid)
    requires Enabled(s, p, a)
    ensures Do(s, p, a).procs.Keys == s.procs.Keys
    ensures q in s.procs ==>
      Do(s, p, a).procs[q].key == s.procs[q].key && Do(s, p, a).procs[q].refresh == s.procs[q].refresh
    ensures q in s.procs && q != p ==> Do(s, p, a).procs[q] == s.procs[q]
  {
  }

  /** Only a look starts a read, and only a read that has been started can end in a replay. */
  lemma {:induction false} ReadsStartAtALook(s: System, p: Pid, a: Action)
    requires Inv(s) && Enabled(s, p, a)
    ensures var pc, pc' := s.procs[p].pc, Do(s, p, a).procs[p].pc;
      && (pc'.Reading? && a.Look? ==> ServableAt(s.rows, s.procs[p].key, pc'.row.id))
      && (pc'.Reading? && !a.Look? ==> pc.Reading? && pc.row == pc'.row)
      && (pc'.Leaving? && pc'.outcome.Served? ==> pc.Reading? && pc.row.id == pc'.outcome.id)
      && (pc'.Done? ==> pc.Leaving? && pc.outcome == pc'.outcome)
  {
    hide Inv;
    if a.Look? && Do(s, p, a).procs[p].pc.Reading? {
      LooksAtCurrent(s, p, a);
    }
  }

  lemma {:induction false} LooksAtCurrent(s: System, p: Pid, a: Action)
    requires Inv(s) && Enabled(s, p, a) && a.Look?
    ensures var pc' := Do(s, p, a).procs[p].pc;
      pc'.Reading? ==> ServableAt(s.rows, s.procs[p].key, pc'.row.id)
  {
    if Do(s, p, a).procs[p].pc.Reading? {
      CurrentIsComplete(s, s.procs[p].key);
      var id :| ServableAt(s.rows, s.procs[p].key, id) && s.rows[id].row == FindCurrent(s.rows, s.procs[p].key).value;
      assert RowOk(s, id);
    }
  }

  lemma {:induction false} StaysCurrent(states: seq<System>, n: nat)
    ensures forall k, id :: WasCurrent(states, n, k, id) ==> WasCurrent(states, n + 1, k, id)
    ensures n < |states| ==> forall k, id :: ServableAt(states[n].rows, k, id) ==> WasCurrent(states, n + 1, k, id)
  {
    forall k, id | WasCurrent(states, n, k, id) {
      WasCurrentStays(states, n, k, id);
    }
  }

  lemma {:induction false} ReadStep(states: seq<System>, n: nat, p: Pid, q: Pid, a: Action)
    requires n + 1 < |states| && Inv(states[n]) && Enabled(states[n], q, a) && states[n + 1] == Do(states[n], q, a)
    requires ReadsWereCurrent(states, n, p)
    ensures ReadsWereCurrent(states, n + 1, p)
  {
    KeysStay(states[n], q, a, p);
    StaysCurrent(states, n);
    if p == q && p in states[n].procs {
      ReadsStartAtALook(states[n], q, a);
    }
    hide Do, Enabled, Inv, WasCurrent, ServableAt;
  }

  /** Whatever a reader returns, or holds half-copied, was the current answer of its key at some point of its run. */
  lemma {:induction false} ReadersReturnCurrentAnswers(states: seq<System>, moves: seq<Move>, n: nat, p: Pid)
    requires IsTrace(states, moves) && n < |states|
    ensures ReadsWereCurrent(states, n, p)
  {
    if n > 0 {
      ReadersReturnCurrentAnswers(states, moves, n - 1, p);
      EveryStateIsSafe(states, moves, n - 1);
      hide Do, Enabled, Inv, WasCurrent, ServableAt, Initial, ReadsWereCurrent;
      ReadStep(states, n - 1, p, moves[n - 1].p, moves[n - 1].a);
    }
  }
}
