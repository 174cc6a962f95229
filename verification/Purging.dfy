/** What purging keys does to rows, blobs and answers, and how many bytes it frees. */
module Purging {
  import opened Executions
  import opened CacheModel

  // ---- bytes ----

  /** The bytes of a finite map of sizes, in whatever order they are added up. */
  ghost function Total(sizes: map<BlobKey, nat>): nat {
    if sizes.Keys == {} then 0
    else
      var b :| b in sizes.Keys;
      sizes[b] + Total(sizes - {b})
  }

  lemma {:induction false} TotalWithout(sizes: map<BlobKey, nat>, b: BlobKey)
    requires b in sizes
    ensures Total(sizes) == sizes[b] + Total(sizes - {b})
    decreases |sizes.Keys|
  {
    var a :| a in sizes.Keys && Total(sizes) == sizes[a] + Total(sizes - {a});
    if a != b {
      TotalWithout(sizes - {a}, b);
      TotalWithout(sizes - {b}, a);
      assert sizes - {a} - {b} == sizes - {b} - {a};
    }
  }

  ghost function Restrict(sizes: map<BlobKey, nat>, part: set<BlobKey>): map<BlobKey, nat> {
    map b | b in sizes && b in part :: sizes[b]
  }

  lemma {:induction false} RestrictStep(sizes: map<BlobKey, nat>, part: set<BlobKey>, b: BlobKey)
    requires b in part
    ensures Restrict(sizes, part) - {b} == Restrict(sizes, part - {b})
    ensures sizes - (part - {b}) - {b} == sizes - part
    ensures b !in sizes ==> Restrict(sizes, part) == Restrict(sizes, part - {b}) && sizes - (part - {b}) == sizes - part
  {
  }

  lemma {:induction false} TotalSplit(sizes: map<BlobKey, nat>, part: set<BlobKey>)
    ensures Total(sizes) == Total(sizes - part) + Total(Restrict(sizes, part))
    decreases |part|
  {
    if part == {} {
      assert Restrict(sizes, part).Keys == {} && sizes - part == sizes;
    } else {
      var b :| b in part;
      var rest := part - {b};
      TotalSplit(sizes, rest);
      RestrictStep(sizes, part, b);
      if b in sizes {
        TotalWithout(sizes - rest, b);
        TotalWithout(Restrict(sizes, part), b);
        assert (sizes - rest)[b] == Restrict(sizes, part)[b];
      }
    }
  }

  ghost function Sizes(blobs: Blobs): map<BlobKey, nat> {
    map b | b in blobs :: |blobs[b]|
  }

  /** The bytes on disk. */
  ghost function Physical(blobs: Blobs): nat {
    Total(Sizes(blobs))
  }

  // ---- the blobs of a key ----

  ghost predicate NamedIn(h: seq<Row>, b: BlobKey) {
    exists j :: 0 <= j < |h| && Names(h[j], b)
  }

  /** Every blob named by the history, with the size its artifact rows give it. */
  ghost predicate SizesOf(h: seq<Row>, sizes: map<BlobKey, nat>) {
    && (forall b :: b in sizes <==> NamedIn(h, b))
    && (forall b: BlobKey :: b in sizes ==> sizes[b] == |b.fingerprint.preimage|)
  }

  lemma {:induction false} SizesOfRest(blobs: Blobs, gone: set<BlobKey>)
    ensures Sizes(blobs) - gone == Sizes(blobs - gone)
  {
  }

  lemma {:induction false} RemovedSizes(blobs: Blobs, h: seq<Row>, sizes: map<BlobKey, nat>)
    requires SizesOf(h, sizes) && forall b :: b in blobs ==> blobs[b] == b.fingerprint.preimage
    ensures Restrict(Sizes(blobs), sizes.Keys) == Restrict(sizes, blobs.Keys)
  {
  }

  /** A removal reports the blobs it was told of: those that were there leave the disk, the others were not on it. */
  lemma {:induction false} BytesAreConserved(blobs: Blobs, h: seq<Row>, sizes: map<BlobKey, nat>)
    requires SizesOf(h, sizes) && forall b :: b in blobs ==> blobs[b] == b.fingerprint.preimage
    ensures Physical(blobs) + Total(sizes - blobs.Keys) == Physical(blobs - sizes.Keys) + Total(sizes)
    ensures sizes.Keys <= blobs.Keys ==> Physical(blobs) == Physical(blobs - sizes.Keys) + Total(sizes)
  {
    TotalSplit(Sizes(blobs), sizes.Keys);
    TotalSplit(sizes, blobs.Keys);
    SizesOfRest(blobs, sizes.Keys);
    RemovedSizes(blobs, h, sizes);
    hide Sizes, Restrict, SizesOf;
    if sizes.Keys <= blobs.Keys {
      assert (sizes - blobs.Keys).Keys == {};
    }
  }

  /** Only rows of the key name the blobs of the key. */
  lemma {:induction false} OthersNameNone(t: Table, inputs: Inputs, next: nat, k: Key, l: Key, j: int, b: BlobKey)
    requires WellFormed(t) && RowsOk(t, inputs, next) && NamedIn(History(t, k), b) && NamedAt(t, l, j, b)
    ensures l == k
  {
    var i :| 0 <= i < |History(t, k)| && Names(History(t, k)[i], b);
    assert Has(t, k, i) && Has(t, l, j);
    assert At(t, k, i, b.owner) && At(t, l, j, b.owner);
  }

  // ---- one key purged ----

  lemma {:induction false} SoftPurgedRows(t: Table, inputs: Inputs, next: nat, k: Key)
    requires WellFormed(t) && RowsOk(t, inputs, next) && AtMostOneServable(t)
    ensures var u := SoftPurgedKey(t, k); WellFormed(u) && RowsOk(u, inputs, next) && AtMostOneServable(u)
  {
    var u := SoftPurgedKey(t, k);
    if k in t.hist {
      WellFormedSetHistory(t, k, SoftPurgedAll(t.hist[k]));
      forall l, j | Has(u, l, j)
        ensures Has(t, l, j) && RowOk(u.hist[l][j], inputs(l)) && u.hist[l][j].id < next
      {
        assert Has(t, l, j);
      }
      assert forall l, j :: ServableAt(u, l, j) ==> ServableAt(t, l, j);
    }
  }

  lemma {:induction false} DroppedRows(t: Table, inputs: Inputs, next: nat, k: Key)
    requires WellFormed(t) && RowsOk(t, inputs, next) && AtMostOneServable(t)
    ensures var u := DropKey(t, k); WellFormed(u) && RowsOk(u, inputs, next) && AtMostOneServable(u)
  {
    var u := DropKey(t, k);
    WellFormedDropKey(t, k);
    assert forall l, j :: Has(u, l, j) ==> Has(t, l, j) && u.hist[l][j] == t.hist[l][j];
    assert forall l, j :: ServableAt(u, l, j) ==> ServableAt(t, l, j);
  }

  /** `u` is `t` with key `k` purged: no artifacts and nothing servable under `k`, every other history as it was. */
  ghost predicate PurgedKey(t: Table, k: Key, u: Table) {
    && (forall l :: l != k ==> History(u, l) == History(t, l))
    && (forall j :: 0 <= j < |History(u, k)| ==> History(u, k)[j].artifacts == [] && !Servable(History(u, k)[j]))
  }

  lemma {:induction false} SoftPurgePurges(t: Table, k: Key)
    ensures PurgedKey(t, k, SoftPurgedKey(t, k))
  {
  }

  lemma {:induction false} DropPurges(t: Table, k: Key)
    requires WellFormed(t)
    ensures PurgedKey(t, k, DropKey(t, k))
  {
  }

  /** A purge takes away its own key's answer and blobs, and nothing of any other key. */
  lemma {:induction false} PurgeMeaning(t: Table, blobs: Blobs, inputs: Inputs, next: nat, k: Key, u: Table,
                                        sizes: map<BlobKey, nat>)
    requires StoreOk(t, blobs, inputs, next) && SizesOf(History(t, k), sizes) && PurgedKey(t, k, u)
    requires WellFormed(u) && RowsOk(u, inputs, next) && AtMostOneServable(u)
    ensures StoreOk(u, blobs - sizes.Keys, inputs, next)
    ensures Entries(u, blobs - sizes.Keys) == Entries(t, blobs) - {k}
    ensures forall l, j, b :: l != k && NamedAt(t, l, j, b) ==> (b in blobs <==> b in blobs - sizes.Keys)
  {
    var blobs' := blobs - sizes.Keys;
    forall l, j, b | l != k && NamedAt(t, l, j, b)
      ensures b !in sizes
    {
      if b in sizes {
        OthersNameNone(t, inputs, next, k, l, j, b);
      }
    }
    forall b | b in blobs'
      ensures Owned(u, b)
    {
      var l, j :| NamedAt(t, l, j, b);
      assert NamedIn(History(t, l), b);
      assert History(u, l) == History(t, l);
      assert NamedAt(u, l, j, b);
    }
    var c := Entries(t, blobs) - {k};
    forall l
      ensures EntryIn(History(u, l), blobs') == if l in c then Some(c[l]) else None
    {
      EntriesAt(t, blobs, l);
      if l != k {
        OtherEntryStays(t, blobs, sizes.Keys, l);
      }
    }
    EntriesAre(u, blobs', c);
  }

  lemma {:induction false} OtherEntryStays(t: Table, blobs: Blobs, gone: set<BlobKey>, l: Key)
    requires forall j, b :: NamedAt(t, l, j, b) ==> b !in gone
    ensures EntryIn(History(t, l), blobs - gone) == EntryIn(History(t, l), blobs)
  {
    var h := History(t, l);
    if CurrentIndex(h) < |h| {
      var r := h[CurrentIndex(h)];
      forall n | 0 <= n < |r.artifacts|
        ensures r.artifacts[n].blobKey !in gone
      {
        assert NamedAt(t, l, CurrentIndex(h), r.artifacts[n].blobKey);
      }
      if Present(r.artifacts, blobs) {
        assert Hydrated(r.artifacts, blobs - gone) == Hydrated(r.artifacts, blobs);
      }
    }
  }

  // ---- several keys purged, one after the other ----

  ghost predicate NamedBy(t: Table, keys: seq<Key>, b: BlobKey) {
    exists n :: 0 <= n < |keys| && NamedIn(History(t, keys[n]), b)
  }

  /** Every blob the rows of `keys` name is on disk. */
  ghost predicate NothingMissing(t: Table, blobs: Blobs, keys: seq<Key>) {
    forall b :: NamedBy(t, keys, b) ==> b in blobs
  }

  /**
   * What is left once `keys` have been purged: their rows name nothing, their blobs are gone, all else is as it was.
   */
  ghost predicate Purged(t: Table, blobs: Blobs, keys: seq<Key>, u: Table, blobs': Blobs) {
    && (forall l :: l !in keys ==> History(u, l) == History(t, l))
    && (forall l, j :: l in keys && 0 <= j < |History(u, l)| ==>
          History(u, l)[j].artifacts == [] && !Servable(History(u, l)[j]))
    && (forall b :: b in blobs' <==> b in blobs && !NamedBy(t, keys, b))
    && (forall b :: b in blobs' ==> blobs'[b] == blobs[b])
  }

  lemma {:induction false} NamedByNext(t: Table, keys: seq<Key>, k: Key, b: BlobKey)
    ensures NamedBy(t, keys + [k], b) <==> NamedBy(t, keys, b) || NamedIn(History(t, k), b)
  {
    var more := keys + [k];
    assert more[|keys|] == k;
    if n :| 0 <= n < |keys| && NamedIn(History(t, keys[n]), b) {
      assert NamedIn(History(t, more[n]), b);
    }
  }

  /** The next key: its blobs are the ones its own rows named at the start, unless it was purged before. */
  lemma {:induction false} NextPurged(t: Table, blobs: Blobs, keys: seq<Key>, u: Table, blobs': Blobs, k: Key,
                                      u': Table, sizes: map<BlobKey, nat>)
    requires Purged(t, blobs, keys, u, blobs') && SizesOf(History(u, k), sizes) && PurgedKey(u, k, u')
    ensures Purged(t, blobs, keys + [k], u', blobs' - sizes.Keys)
  {
    forall b
      ensures NamedBy(t, keys + [k], b) <==> NamedBy(t, keys, b) || NamedIn(History(t, k), b)
      ensures k in keys && NamedIn(History(t, k), b) ==> NamedBy(t, keys, b)
      ensures b in sizes <==> k !in keys && NamedIn(History(t, k), b)
    {
      NamedByNext(t, keys, k, b);
    }
  }

  /** A key not purged yet shares no blob with the keys that were. */
  lemma {:induction false} NotNamedBefore(t: Table, inputs: Inputs, next: nat, keys: seq<Key>, k: Key, b: BlobKey)
    requires WellFormed(t) && RowsOk(t, inputs, next) && k !in keys && NamedIn(History(t, k), b)
    ensures !NamedBy(t, keys, b)
  {
    if NamedBy(t, keys, b) {
      var n :| 0 <= n < |keys| && NamedIn(History(t, keys[n]), b);
      var j :| 0 <= j < |History(t, keys[n])| && Names(History(t, keys[n])[j], b);
      assert NamedAt(t, keys[n], j, b);
      OthersNameNone(t, inputs, next, k, keys[n], j, b);
      assert false;
    }
  }

  /** The blobs collected for the next key are the ones its own rows named at the start; none was collected before. */
  lemma {:induction false} NextCollected(t: Table, blobs: Blobs, inputs: Inputs, next: nat, keys: seq<Key>,
                                         u: Table, blobs': Blobs, k: Key, sizes: map<BlobKey, nat>, b: BlobKey)
    requires WellFormed(t) && RowsOk(t, inputs, next)
    requires Purged(t, blobs, keys, u, blobs') && SizesOf(History(u, k), sizes)
    ensures NamedBy(t, keys + [k], b) <==> NamedBy(t, keys, b) || b in sizes
    ensures b in sizes ==> !NamedBy(t, keys, b)
  {
    NamedByNext(t, keys, k, b);
    if b in sizes {
      assert k !in keys && NamedIn(History(t, k), b);
      NotNamedBefore(t, inputs, next, keys, k, b);
    }
  }

  lemma {:induction false} NextIsPresent(t: Table, blobs: Blobs, inputs: Inputs, next: nat, keys: seq<Key>,
                                         u: Table, blobs': Blobs, k: Key, sizes: map<BlobKey, nat>)
    requires WellFormed(t) && RowsOk(t, inputs, next)
    requires Purged(t, blobs, keys, u, blobs') && SizesOf(History(u, k), sizes)
    requires NothingMissing(t, blobs, keys + [k])
    ensures sizes.Keys <= blobs'.Keys
  {
    forall b | b in sizes
      ensures b in blobs'
    {
      NextCollected(t, blobs, inputs, next, keys, u, blobs', k, sizes, b);
    }
  }

  /** The blobs the rows of `keys` name. */
  ghost function NamedBlobs(t: Table, keys: seq<Key>): (s: set<BlobKey>)
    ensures forall b :: b in s <==> NamedBy(t, keys, b)
  {
    set n, j, m | 0 <= n < |keys| && 0 <= j < |History(t, keys[n])| && 0 <= m < |History(t, keys[n])[j].artifacts| ::
      History(t, keys[n])[j].artifacts[m].blobKey
  }

  lemma {:induction false} NextCount(t: Table, blobs: Blobs, inputs: Inputs, next: nat, keys: seq<Key>,
                                     u: Table, blobs': Blobs, k: Key, sizes: map<BlobKey, nat>)
    requires WellFormed(t) && RowsOk(t, inputs, next)
    requires Purged(t, blobs, keys, u, blobs') && SizesOf(History(u, k), sizes)
    ensures |NamedBlobs(t, keys + [k])| == |NamedBlobs(t, keys)| + |sizes|
  {
    forall b
      ensures NamedBy(t, keys + [k], b) <==> NamedBy(t, keys, b) || b in sizes
      ensures b in sizes ==> !NamedBy(t, keys, b)
    {
      NextCollected(t, blobs, inputs, next, keys, u, blobs', k, sizes, b);
    }
    hide *;
    assert NamedBlobs(t, keys + [k]) == NamedBlobs(t, keys) + sizes.Keys;
    assert NamedBlobs(t, keys) !! sizes.Keys;
  }
}
