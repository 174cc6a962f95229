/** The protocol's rows by id are the repository's table seen flat: every repository step is the protocol's step. */
module ProtocolRows {
  import opened Executions
  import P = RecorderProtocol

  ghost predicate Represents(t: Table, rows: P.Rows) {
    && (forall k, i, id :: At(t, k, i, id) ==> id in rows && rows[id] == P.Filed(k, t.hist[k][i]))
    && (forall id :: id in rows ==> exists i :: At(t, rows[id].key, i, id))
  }

  lemma {:induction false} SaveRepresents(t: Table, rows: P.Rows, k: Key, id: ExecutionId)
    requires WellFormed(t) && Represents(t, rows) && id !in rows
    ensures Represents(Append(t, k, FreshRow(id)), rows[id := P.Filed(k, FreshRow(id))])
  {
    var t', rows' := Append(t, k, FreshRow(id)), rows[id := P.Filed(k, FreshRow(id))];
    forall l, i, j | At(t', l, i, j)
      ensures j in rows' && rows'[j] == P.Filed(l, t'.hist[l][i])
    {
      assert (l == k && i == |History(t, k)|) || At(t, l, i, j);
    }
    forall j | j in rows'
      ensures exists i :: At(t', rows'[j].key, i, j)
    {
      if j == id {
        assert At(t', k, |History(t, k)|, j);
      } else {
        var i :| At(t, rows[j].key, i, j);
        assert At(t', rows[j].key, i, j);
      }
    }
  }

  lemma {:induction false} SetRowRepresents(t: Table, rows: P.Rows, k: Key, i: nat, id: ExecutionId, r: Row)
    requires WellFormed(t) && Represents(t, rows) && At(t, k, i, id) && r.id == id
    ensures Represents(SetRow(t, k, i, r), rows[id := P.Filed(k, r)])
  {
    var t', rows' := SetRow(t, k, i, r), rows[id := P.Filed(k, r)];
    forall l, m, j | At(t', l, m, j)
      ensures j in rows' && rows'[j] == P.Filed(l, t'.hist[l][m])
    {
      assert At(t, l, m, j);
    }
    forall j | j in rows'
      ensures exists m :: At(t', rows'[j].key, m, j)
    {
      var m :| At(t, rows[j].key, m, j);
      assert At(t', rows[j].key, m, j);
    }
  }

  lemma {:induction false} FinalizeRepresents(t: Table, rows: P.Rows, k: Key, i: nat, id: ExecutionId)
    requires WellFormed(t) && Represents(t, rows) && At(t, k, i, id)
    ensures id in rows && Represents(SetHistory(t, k, Finalized(t.hist[k], i)), P.FinalizedRows(rows, id))
  {
    var t', rows' := SetHistory(t, k, Finalized(t.hist[k], i)), P.FinalizedRows(rows, id);
    forall l, m, j | At(t', l, m, j)
      ensures j in rows' && rows'[j] == P.Filed(l, t'.hist[l][m])
    {
      assert At(t, l, m, j);
    }
    forall j | j in rows'
      ensures exists m :: At(t', rows'[j].key, m, j)
    {
      var m :| At(t, rows[j].key, m, j);
      assert At(t', rows[j].key, m, j);
    }
  }

  lemma {:induction false} RemoveRepresents(t: Table, rows: P.Rows, k: Key, i: nat, id: ExecutionId)
    requires WellFormed(t) && Represents(t, rows) && At(t, k, i, id)
    ensures Represents(RemoveRow(t, k, i), rows - {id})
  {
    var t', rows' := RemoveRow(t, k, i), rows - {id};
    forall l, m, j | At(t', l, m, j)
      ensures j in rows' && rows'[j] == P.Filed(l, t'.hist[l][m])
    {
      var m' := if l == k && m >= i then m + 1 else m;
      assert At(t, l, m', j);
    }
    forall j | j in rows'
      ensures exists m :: At(t', rows'[j].key, m, j)
    {
      var m :| At(t, rows[j].key, m, j);
      assert At(t', rows[j].key, if rows[j].key == k && m > i then m - 1 else m, j);
    }
  }

  /** With one servable row per key, the first servable row of the history is the servable row. */
  lemma {:induction false} FindCurrentAgrees(t: Table, rows: P.Rows, k: Key)
    requires WellFormed(t) && Represents(t, rows) && P.OneServable(rows)
    ensures Current(t, k) == P.FindCurrent(rows, k)
  {
    var h := History(t, k);
    if CurrentIndex(h) < |h| {
      var r := h[CurrentIndex(h)];
      assert At(t, k, CurrentIndex(h), r.id);
      assert P.ServableAt(rows, k, r.id);
    }
  }
}
