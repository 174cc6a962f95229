/** Which entries a quota evicts: the shortest prefix of the stable least-recently-used order that fits the cap. */
module Eviction {
  import opened Executions
  import opened CacheModel

  datatype SizeEntry = SizeEntry(key: Key, size: nat)

  type Epochs = Key -> real

  /** The servable rows of one history, with their sizes. */
  function EntriesFor(k: Key, h: seq<Row>): seq<SizeEntry> {
    if h == [] then []
    else EntriesFor(k, h[..|h| - 1]) + (if Servable(h[|h| - 1]) then [SizeEntry(k, Size(h[|h| - 1].artifacts))] else [])
  }

  function ByteCount(docs: seq<Document>): nat {
    if docs == [] then 0 else ByteCount(docs[..|docs| - 1]) + |docs[|docs| - 1].content|
  }

  /** What an entry weighs is the bytes of its documents, each counted for itself even where two share a blob. */
  lemma {:induction false} SizeIsTheBytes(id: ExecutionId, artifacts: seq<Artifact>, docs: seq<Document>)
    requires |artifacts| == |docs|
    requires forall j :: 0 <= j < |docs| ==> artifacts[j] == MakeArtifact(id, docs[j], artifacts[j].status)
    ensures Size(artifacts) == ByteCount(docs)
  {
    if docs != [] {
      var n := |docs| - 1;
      SizeIsTheBytes(id, artifacts[..n], docs[..n]);
      SizeAppend(artifacts[..n], artifacts[n]);
      assert artifacts == artifacts[..n] + [artifacts[n]];
    }
  }

  lemma {:induction false} SizeAppend(artifacts: seq<Artifact>, a: Artifact)
    ensures Size(artifacts + [a]) == Size(artifacts) + a.size
  {
    if artifacts != [] {
      SizeAppend(artifacts[1..], a);
      assert (artifacts + [a])[1..] == artifacts[1..] + [a];
    }
  }

  function SizeEntries(t: Table, keys: seq<Key>): seq<SizeEntry> {
    if keys == [] then []
    else SizeEntries(t, keys[..|keys| - 1]) + EntriesFor(keys[|keys| - 1], History(t, keys[|keys| - 1]))
  }

  function Sum(entries: seq<SizeEntry>): nat {
    if entries == [] then 0 else Sum(entries[..|entries| - 1]) + entries[|entries| - 1].size
  }

  lemma {:induction false} SizeEntriesEnds(t: Table, keys: seq<Key>)
    ensures SizeEntries(t, keys[..0]) == [] && keys[..|keys|] == keys
  {
  }

  lemma {:induction false} SizeEntriesNext(t: Table, keys: seq<Key>, n: nat)
    requires n < |keys|
    ensures SizeEntries(t, keys[..n + 1]) == SizeEntries(t, keys[..n]) + EntriesFor(keys[n], History(t, keys[n]))
  {
    assert keys[..n + 1][..n] == keys[..n];
  }

  lemma {:induction false} SumNext(entries: seq<SizeEntry>, n: nat)
    requires n < |entries|
    ensures Sum(entries[..n + 1]) == Sum(entries[..n]) + entries[n].size
  {
    assert entries[..n + 1][..n] == entries[..n];
  }

  /** The bytes of everything servable. */
  function TotalStored(t: Table): nat {
    Sum(SizeEntries(t, t.order))
  }

  lemma {:induction false} SumOfTwo(a: seq<SizeEntry>, b: seq<SizeEntry>)
    ensures Sum(a + b) == Sum(a) + Sum(b)
  {
    if b == [] {
      assert a + b == a;
    } else {
      var n := |b| - 1;
      SumOfTwo(a, b[..n]);
      assert (a + b)[..|a + b| - 1] == a + b[..n];
    }
  }

  // ---- the stable least-recently-used order ----

  /** After every entry that is not younger. */
  function Insert(e: SizeEntry, s: seq<SizeEntry>, epoch: Epochs): (r: seq<SizeEntry>) {
    if s != [] && epoch(e.key) < epoch(s[|s| - 1].key) then Insert(e, s[..|s| - 1], epoch) + [s[|s| - 1]] else s + [e]
  }

  function LeastRecentFirst(entries: seq<SizeEntry>, epoch: Epochs): seq<SizeEntry> {
    if entries == [] then []
    else Insert(entries[|entries| - 1], LeastRecentFirst(entries[..|entries| - 1], epoch), epoch)
  }

  predicate Ascending(s: seq<SizeEntry>, epoch: Epochs) {
    forall i, j :: 0 <= i < j < |s| ==> epoch(s[i].key) <= epoch(s[j].key)
  }

  /** The entries of one epoch, in order. */
  function OfEpoch(s: seq<SizeEntry>, epoch: Epochs, v: real): seq<SizeEntry> {
    if s == [] then []
    else OfEpoch(s[..|s| - 1], epoch, v) + (if epoch(s[|s| - 1].key) == v then [s[|s| - 1]] else [])
  }

  lemma {:induction false} InsertAdds(e: SizeEntry, s: seq<SizeEntry>, epoch: Epochs)
    ensures multiset(Insert(e, s, epoch)) == multiset(s) + multiset{e}
  {
    if s != [] && epoch(e.key) < epoch(s[|s| - 1].key) {
      var init, last := s[..|s| - 1], s[|s| - 1];
      InsertAdds(e, init, epoch);
      assert s == init + [last] && Insert(e, s, epoch) == Insert(e, init, epoch) + [last];
      hide Insert;
      assert multiset(init + [last]) == multiset(init) + multiset{last};
    } else {
      assert Insert(e, s, epoch) == s + [e];
    }
  }

  lemma {:induction false} AscendingAppend(s: seq<SizeEntry>, e: SizeEntry, epoch: Epochs)
    requires Ascending(s, epoch) && forall x :: x in s ==> epoch(x.key) <= epoch(e.key)
    ensures Ascending(s + [e], epoch)
  {
  }

  lemma {:induction false} InsertSorts(e: SizeEntry, s: seq<SizeEntry>, epoch: Epochs)
    requires Ascending(s, epoch)
    ensures Ascending(Insert(e, s, epoch), epoch)
  {
    if s != [] && epoch(e.key) < epoch(s[|s| - 1].key) {
      var init, last := s[..|s| - 1], s[|s| - 1];
      InsertSorts(e, init, epoch);
      InsertAdds(e, init, epoch);
      assert s == init + [last] && Insert(e, s, epoch) == Insert(e, init, epoch) + [last];
      hide Insert;
      var r := Insert(e, init, epoch);
      forall x | x in r
        ensures epoch(x.key) <= epoch(last.key)
      {
        assert x in multiset(init) + multiset{e};
      }
      AscendingAppend(r, last, epoch);
    } else {
      assert Insert(e, s, epoch) == s + [e];
      hide Insert;
      AscendingAppend(s, e, epoch);
    }
  }

  lemma {:induction false} InsertIsStable(e: SizeEntry, s: seq<SizeEntry>, epoch: Epochs, v: real)
    requires Ascending(s, epoch)
    ensures OfEpoch(Insert(e, s, epoch), epoch, v) == OfEpoch(s, epoch, v) + if epoch(e.key) == v then [e] else []
  {
    var r := Insert(e, s, epoch);
    if s != [] && epoch(e.key) < epoch(s[|s| - 1].key) {
      var init, last := s[..|s| - 1], s[|s| - 1];
      InsertIsStable(e, init, epoch, v);
      assert s == init + [last] && r == Insert(e, init, epoch) + [last];
      hide Insert;
      assert r[..|r| - 1] == Insert(e, init, epoch);
      if epoch(e.key) == v {
        assert epoch(last.key) != v;
      }
    } else {
      assert r[..|r| - 1] == s;
    }
  }

  lemma {:induction false} SortSorts(entries: seq<SizeEntry>, epoch: Epochs)
    ensures Ascending(LeastRecentFirst(entries, epoch), epoch)
    ensures multiset(LeastRecentFirst(entries, epoch)) == multiset(entries)
  {
    if entries != [] {
      var init, last := entries[..|entries| - 1], entries[|entries| - 1];
      SortSorts(init, epoch);
      hide Insert, Ascending;
      assert LeastRecentFirst(entries, epoch) == Insert(last, LeastRecentFirst(init, epoch), epoch);
      hide LeastRecentFirst;
      InsertSorts(last, LeastRecentFirst(init, epoch), epoch);
      InsertAdds(last, LeastRecentFirst(init, epoch), epoch);
      assert multiset(entries) == multiset(init) + multiset{last} by {
        assert entries == init + [last];
      }
    }
  }

  /** Entries of equal age keep their order: with `SortSorts`, the one stable sort there is. */
  lemma {:induction false} SortIsStable(entries: seq<SizeEntry>, epoch: Epochs, v: real)
    ensures OfEpoch(LeastRecentFirst(entries, epoch), epoch, v) == OfEpoch(entries, epoch, v)
  {
    if entries != [] {
      var init, last := entries[..|entries| - 1], entries[|entries| - 1];
      SortIsStable(init, epoch, v);
      SortSorts(init, epoch);
      hide Insert, Ascending;
      assert LeastRecentFirst(entries, epoch) == Insert(last, LeastRecentFirst(init, epoch), epoch);
      hide LeastRecentFirst;
      assert OfEpoch(entries, epoch, v) == OfEpoch(init, epoch, v) + if epoch(last.key) == v then [last] else [];
      hide OfEpoch;
      InsertIsStable(last, LeastRecentFirst(init, epoch), epoch, v);
    }
  }

  // ---- what is left after some keys are purged ----

  function Without(s: seq<SizeEntry>, gone: set<Key>): seq<SizeEntry> {
    if s == [] then []
    else Without(s[..|s| - 1], gone) + (if s[|s| - 1].key in gone then [] else [s[|s| - 1]])
  }

  lemma {:induction false} WithoutOfTwo(a: seq<SizeEntry>, b: seq<SizeEntry>, gone: set<Key>)
    ensures Without(a + b, gone) == Without(a, gone) + Without(b, gone)
  {
    if b == [] {
      assert a + b == a;
    } else {
      var n := |b| - 1;
      WithoutOfTwo(a, b[..n], gone);
      assert (a + b)[..|a + b| - 1] == a + b[..n];
    }
  }

  lemma {:induction false} WithoutAll(s: seq<SizeEntry>, gone: set<Key>)
    requires forall i :: 0 <= i < |s| ==> s[i].key in gone
    ensures Without(s, gone) == []
  {
    if s != [] {
      WithoutAll(s[..|s| - 1], gone);
    }
  }

  lemma {:induction false} WithoutNone(s: seq<SizeEntry>, gone: set<Key>)
    requires forall i :: 0 <= i < |s| ==> s[i].key !in gone
    ensures Without(s, gone) == s
  {
    if s != [] {
      var init, last := s[..|s| - 1], s[|s| - 1];
      WithoutNone(init, gone);
      assert s == init + [last];
    }
  }

  lemma {:induction false} WithoutMembers(s: seq<SizeEntry>, gone: set<Key>, e: SizeEntry)
    ensures e in Without(s, gone) <==> e in s && e.key !in gone
  {
    if s != [] {
      var init, last := s[..|s| - 1], s[|s| - 1];
      WithoutMembers(init, gone, e);
      assert s == init + [last];
      assert Without(s, gone) == Without(init, gone) + if last.key in gone then [] else [last];
      assert e in s <==> e in init || e == last;
    }
  }

  function SumWithout(s: seq<SizeEntry>, gone: set<Key>): nat {
    if s == [] then 0
    else SumWithout(s[..|s| - 1], gone) + if s[|s| - 1].key in gone then 0 else s[|s| - 1].size
  }

  lemma {:induction false} SumWithoutIs(s: seq<SizeEntry>, gone: set<Key>)
    ensures SumWithout(s, gone) == Sum(Without(s, gone))
  {
    if s != [] {
      var init, last := s[..|s| - 1], s[|s| - 1];
      SumWithoutIs(init, gone);
      SumOfTwo(Without(init, gone), if last.key in gone then [] else [last]);
    }
  }

  lemma {:induction false} SumWithoutAppend(s: seq<SizeEntry>, e: SizeEntry, gone: set<Key>)
    ensures SumWithout(s + [e], gone) == SumWithout(s, gone) + if e.key in gone then 0 else e.size
  {
    assert (s + [e])[..|s|] == s;
  }

  /** Sorting moves entries about and changes no sum. */
  lemma {:induction false} InsertKeepsRest(e: SizeEntry, s: seq<SizeEntry>, epoch: Epochs, gone: set<Key>)
    ensures SumWithout(Insert(e, s, epoch), gone) == SumWithout(s, gone) + if e.key in gone then 0 else e.size
  {
    if s != [] && epoch(e.key) < epoch(s[|s| - 1].key) {
      var init, last := s[..|s| - 1], s[|s| - 1];
      InsertKeepsRest(e, init, epoch, gone);
      SumWithoutAppend(Insert(e, init, epoch), last, gone);
    } else {
      SumWithoutAppend(s, e, gone);
    }
  }

  lemma {:induction false} SortKeepsRest(entries: seq<SizeEntry>, epoch: Epochs, gone: set<Key>)
    ensures SumWithout(LeastRecentFirst(entries, epoch), gone) == SumWithout(entries, gone)
  {
    if entries != [] {
      var init, last := entries[..|entries| - 1], entries[|entries| - 1];
      SortKeepsRest(init, epoch, gone);
      hide Insert;
      InsertKeepsRest(last, LeastRecentFirst(init, epoch), epoch, gone);
    }
  }

  // ---- the prefix to evict ----

  predicate DistinctKeys(s: seq<SizeEntry>) {
    forall i, j :: 0 <= i < j < |s| ==> s[i].key != s[j].key
  }

  function KeysOf(s: seq<SizeEntry>): (keys: seq<Key>)
    ensures |keys| == |s|
    ensures forall i :: 0 <= i < |s| ==> keys[i] == s[i].key
  {
    seq(|s|, i requires 0 <= i < |s| => s[i].key)
  }

  /** `n` is the length of the shortest prefix whose bytes bring `current` down to the cap, or everything. */
  predicate ShortestPrefix(sorted: seq<SizeEntry>, current: int, cap: int, n: nat) {
    && n <= |sorted|
    && (forall m :: 0 <= m < n ==> current - Sum(sorted[..m]) > cap)
    && (n < |sorted| ==> current - Sum(sorted[..n]) <= cap)
  }

  /** The prefix and the rest make up the total, and the rest fits any cap that is not negative. */
  lemma {:induction false} PrefixFits(sorted: seq<SizeEntry>, current: int, cap: int, n: nat)
    requires current == Sum(sorted) && ShortestPrefix(sorted, current, cap, n)
    ensures current - Sum(sorted[..n]) == Sum(sorted[n..])
    ensures 0 <= cap ==> Sum(sorted[n..]) <= cap
  {
    SumOfTwo(sorted[..n], sorted[n..]);
    assert sorted == sorted[..n] + sorted[n..];
    if n == |sorted| {
      assert sorted[n..] == [];
    }
  }

  /** There is only one such length. */
  lemma {:induction false} ShortestIsUnique(sorted: seq<SizeEntry>, current: int, cap: int, m: nat, n: nat)
    requires ShortestPrefix(sorted, current, cap, m) && ShortestPrefix(sorted, current, cap, n)
    ensures m == n
  {
  }

  /** The scan over the sorted entries, keeping the running total. */
  method ChooseVictims(sorted: seq<SizeEntry>, current: int, cap: int) returns (keys: seq<Key>)
    ensures ShortestPrefix(sorted, current, cap, |keys|) && keys == KeysOf(sorted[..|keys|])
  {
    keys := [];
    var running := current;
    for n := 0 to |sorted|
      invariant keys == KeysOf(sorted[..n]) && running == current - Sum(sorted[..n])
      invariant forall m :: 0 <= m < n ==> current - Sum(sorted[..m]) > cap
    {
      if running <= cap {
        return;
      }
      keys := keys + [sorted[n].key];
      running := running - sorted[n].size;
      assert sorted[..n + 1][..n] == sorted[..n];
    }
  }

  // ---- what the purge of the victims leaves ----

  function KeySet(keys: seq<Key>): set<Key> {
    set k | k in keys
  }

  function SoftPurgedKeys(t: Table, keys: seq<Key>): Table {
    if keys == [] then t else SoftPurgedKey(SoftPurgedKeys(t, keys[..|keys| - 1]), keys[|keys| - 1])
  }

  lemma {:induction false} SoftPurgedHistories(t: Table, keys: seq<Key>, l: Key)
    ensures SoftPurgedKeys(t, keys).order == t.order && SoftPurgedKeys(t, keys).hist.Keys == t.hist.Keys
    ensures History(SoftPurgedKeys(t, keys), l) == if l in keys then SoftPurgedAll(History(t, l)) else History(t, l)
  {
    if keys != [] {
      var n := |keys| - 1;
      SoftPurgedHistories(t, keys[..n], l);
      assert keys == keys[..n] + [keys[n]];
      var h := History(SoftPurgedKeys(t, keys[..n]), l);
      assert SoftPurgedAll(SoftPurgedAll(History(t, l))) == SoftPurgedAll(History(t, l));
    }
  }

  lemma {:induction false} NothingLeft(k: Key, h: seq<Row>)
    ensures EntriesFor(k, SoftPurgedAll(h)) == []
  {
    if h != [] {
      NothingLeft(k, h[..|h| - 1]);
      assert SoftPurgedAll(h)[..|h| - 1] == SoftPurgedAll(h[..|h| - 1]);
    }
  }

  lemma {:induction false} EntriesForKey(k: Key, h: seq<Row>)
    ensures forall i :: 0 <= i < |EntriesFor(k, h)| ==> EntriesFor(k, h)[i].key == k
  {
    if h != [] {
      EntriesForKey(k, h[..|h| - 1]);
    }
  }

  /** Purging keys takes exactly their entries off the list. */
  lemma {:induction false} PurgedEntries(t: Table, purged: seq<Key>, keys: seq<Key>)
    ensures SizeEntries(SoftPurgedKeys(t, purged), keys) == Without(SizeEntries(t, keys), KeySet(purged))
  {
    if keys != [] {
      var n := |keys| - 1;
      var gone := KeySet(purged);
      PurgedEntries(t, purged, keys[..n]);
      SoftPurgedHistories(t, purged, keys[n]);
      var last := EntriesFor(keys[n], History(t, keys[n]));
      assert SizeEntries(t, keys) == SizeEntries(t, keys[..n]) + last;
      hide SoftPurgedKeys, SoftPurgedAll;
      NothingLeft(keys[n], History(t, keys[n]));
      EntriesForKey(keys[n], History(t, keys[n]));
      if keys[n] in gone {
        WithoutAll(last, gone);
      } else {
        WithoutNone(last, gone);
      }
      WithoutOfTwo(SizeEntries(t, keys[..n]), last, gone);
    }
  }

  /** One servable row per key, each key listed once: each key has at most one entry. */
  lemma {:induction false} OneEntryFor(k: Key, h: seq<Row>)
    requires forall i, j :: 0 <= i < j < |h| ==> !(Servable(h[i]) && Servable(h[j]))
    ensures |EntriesFor(k, h)| <= 1
    ensures EntriesFor(k, h) != [] ==> exists i :: 0 <= i < |h| && Servable(h[i])
  {
    if h != [] {
      OneEntryFor(k, h[..|h| - 1]);
    }
  }

  lemma {:induction false} EntriesAreDistinct(t: Table, keys: seq<Key>)
    requires AtMostOneServable(t) && NoDuplicates(keys)
    ensures DistinctKeys(SizeEntries(t, keys))
    ensures forall i :: 0 <= i < |SizeEntries(t, keys)| ==> SizeEntries(t, keys)[i].key in keys
  {
    if keys != [] {
      var n := |keys| - 1;
      EntriesAreDistinct(t, keys[..n]);
      var h := History(t, keys[n]);
      forall i, j | 0 <= i < j < |h|
        ensures !(Servable(h[i]) && Servable(h[j]))
      {
        if Servable(h[i]) && Servable(h[j]) {
          assert ServableAt(t, keys[n], i) && ServableAt(t, keys[n], j);
        }
      }
      OneEntryFor(keys[n], h);
      EntriesForKey(keys[n], h);
      assert keys[n] !in keys[..n];
    }
  }

  lemma {:induction false} InsertKeepsDistinct(e: SizeEntry, s: seq<SizeEntry>, epoch: Epochs)
    requires DistinctKeys(s) && forall i :: 0 <= i < |s| ==> s[i].key != e.key
    ensures DistinctKeys(Insert(e, s, epoch))
    ensures forall x :: x in Insert(e, s, epoch) <==> x in s || x == e
  {
    if s != [] && epoch(e.key) < epoch(s[|s| - 1].key) {
      var n := |s| - 1;
      var init, last := s[..n], s[n];
      InsertKeepsDistinct(e, init, epoch);
      assert Insert(e, s, epoch) == Insert(e, init, epoch) + [last] && s == init + [last];
      var r := Insert(e, init, epoch);
      hide Insert;
      forall i | 0 <= i < |r|
        ensures r[i].key != last.key
      {
        assert r[i] in r;
      }
    }
  }

  lemma {:induction false} SortKeepsDistinct(entries: seq<SizeEntry>, epoch: Epochs)
    requires DistinctKeys(entries)
    ensures DistinctKeys(LeastRecentFirst(entries, epoch))
    ensures forall x :: x in LeastRecentFirst(entries, epoch) <==> x in entries
  {
    if entries != [] {
      var n := |entries| - 1;
      var init, last := entries[..n], entries[n];
      var sorted := LeastRecentFirst(init, epoch);
      SortKeepsDistinct(init, epoch);
      assert entries == init + [last];
      hide LeastRecentFirst;
      forall i | 0 <= i < |sorted|
        ensures sorted[i].key != last.key
      {
        assert sorted[i] in init;
      }
      InsertKeepsDistinct(last, sorted, epoch);
    }
  }

  /** Purging the chosen prefix leaves exactly the bytes of the rest. */
  lemma {:induction false} PrefixGone(sorted: seq<SizeEntry>, n: nat)
    requires DistinctKeys(sorted) && n <= |sorted|
    ensures Without(sorted, KeySet(KeysOf(sorted[..n]))) == sorted[n..]
  {
    var gone := KeySet(KeysOf(sorted[..n]));
    WithoutOfTwo(sorted[..n], sorted[n..], gone);
    assert sorted == sorted[..n] + sorted[n..];
    forall i | 0 <= i < n
      ensures sorted[..n][i].key in gone
    {
      assert KeysOf(sorted[..n])[i] == sorted[i].key;
    }
    WithoutAll(sorted[..n], gone);
    WithoutNone(sorted[n..], gone);
  }

  /** The keys a quota evicts. */
  predicate Victims(t: Table, epoch: Epochs, cap: int, keys: seq<Key>) {
    var sorted := LeastRecentFirst(SizeEntries(t, t.order), epoch);
    ShortestPrefix(sorted, TotalStored(t), cap, |keys|) && keys == KeysOf(sorted[..|keys|])
  }

  lemma {:induction false} RestAfterEviction(t: Table, epoch: Epochs, keys: seq<Key>)
    requires AtMostOneServable(t) && NoDuplicates(t.order)
    requires var sorted := LeastRecentFirst(SizeEntries(t, t.order), epoch);
      |keys| <= |sorted| && keys == KeysOf(sorted[..|keys|])
    ensures var sorted := LeastRecentFirst(SizeEntries(t, t.order), epoch);
      TotalStored(SoftPurgedKeys(t, keys)) == Sum(sorted[|keys|..])
  {
    var entries := SizeEntries(t, t.order);
    var sorted := LeastRecentFirst(entries, epoch);
    EntriesAreDistinct(t, t.order);
    hide AtMostOneServable, NoDuplicates, SizeEntries, LeastRecentFirst, SoftPurgedKeys, Sum, Without;
    SortKeepsDistinct(entries, epoch);
    PrefixGone(sorted, |keys|);
    SortKeepsRest(entries, epoch, KeySet(keys));
    SumWithoutIs(entries, KeySet(keys));
    SumWithoutIs(sorted, KeySet(keys));
    hide SumWithout;
    PurgedEntries(t, keys, t.order);
    PurgeKeepsOrder(t, keys);
  }

  lemma {:induction false} SortKeepsSum(entries: seq<SizeEntry>, epoch: Epochs)
    ensures Sum(LeastRecentFirst(entries, epoch)) == Sum(entries)
  {
    SortKeepsRest(entries, epoch, {});
    SumWithoutIs(entries, {});
    SumWithoutIs(LeastRecentFirst(entries, epoch), {});
    hide LeastRecentFirst, Sum, SumWithout;
    WithoutNone(LeastRecentFirst(entries, epoch), {});
    WithoutNone(entries, {});
  }

  /**
   * Evicting them brings the store under any cap that is not negative; with one servable row per key, to exactly the
   * rest.
   */
  lemma {:induction false} EvictionFits(t: Table, epoch: Epochs, cap: int, keys: seq<Key>)
    requires AtMostOneServable(t) && NoDuplicates(t.order) && Victims(t, epoch, cap, keys)
    ensures var sorted := LeastRecentFirst(SizeEntries(t, t.order), epoch);
      TotalStored(SoftPurgedKeys(t, keys)) == TotalStored(t) - Sum(sorted[..|keys|]) == Sum(sorted[|keys|..])
    ensures 0 <= cap ==> TotalStored(SoftPurgedKeys(t, keys)) <= cap
  {
    var sorted := LeastRecentFirst(SizeEntries(t, t.order), epoch);
    RestAfterEviction(t, epoch, keys);
    SortKeepsSum(SizeEntries(t, t.order), epoch);
    PrefixFits(sorted, Sum(sorted), cap, |keys|);
    hide AtMostOneServable, NoDuplicates, LeastRecentFirst, SizeEntries, SoftPurgedKeys, KeysOf, Sum, ShortestPrefix;
  }

  lemma {:induction false} PurgeKeepsOrder(t: Table, keys: seq<Key>)
    ensures SoftPurgedKeys(t, keys).order == t.order
  {
    if keys != [] {
      PurgeKeepsOrder(t, keys[..|keys| - 1]);
    }
  }

  /** When a key was last used: its last access, or else when it was recorded, or else never. */
  function LruEpoch(lastAccess: map<Key, real>, createdAt: Key -> Option<real>, k: Key): real {
    if k in lastAccess then lastAccess[k]
    else match createdAt(k)
      case Some(at) => at
      case None => 0.0
  }

  // ---- the order, read off the recorded times ----

  /**
   * Key `v` was last used no later than `u`: by their accesses where these are known, and for a key without one by when
   * it was recorded, or 0 when that cannot be read.
   */
  predicate UsedNoLater(lastAccess: Option<map<Key, real>>, createdAt: Key -> Option<real>, v: Key, u: Key) {
    var known := if lastAccess == None then map[] else lastAccess.value;
    && (v in known && u in known ==> known[v] <= known[u])
    && (v in known && u !in known ==> createdAt(u) == None ==> known[v] <= 0.0)
    && (v in known && u !in known ==> createdAt(u) != None ==> known[v] <= createdAt(u).value)
    && (v !in known && u in known ==> createdAt(v) == None ==> 0.0 <= known[u])
    && (v !in known && u in known ==> createdAt(v) != None ==> createdAt(v).value <= known[u])
    && (v !in known && u !in known && createdAt(v) != None && createdAt(u) != None ==>
          createdAt(v).value <= createdAt(u).value)
    && (v !in known && u !in known && createdAt(v) == None && createdAt(u) != None ==> 0.0 <= createdAt(u).value)
    && (v !in known && u !in known && createdAt(v) != None && createdAt(u) == None ==> createdAt(v).value <= 0.0)
  }

  /** The key was last used before the cutoff, by the same reading. */
  predicate UsedBefore(lastAccess: Option<map<Key, real>>, createdAt: Key -> Option<real>, k: Key, cutoff: real) {
    if lastAccess != None && k in lastAccess.value then lastAccess.value[k] < cutoff
    else if createdAt(k) != None then createdAt(k).value < cutoff
    else 0.0 < cutoff
  }

  function Epoch(lastAccess: Option<map<Key, real>>, createdAt: Key -> Option<real>): Epochs {
    k => LruEpoch(match lastAccess case Some(m) => m case None => map[], createdAt, k)
  }

  lemma {:induction false} EpochsAreTimes(lastAccess: Option<map<Key, real>>, createdAt: Key -> Option<real>,
                                          v: Key, u: Key, cutoff: real)
    ensures Epoch(lastAccess, createdAt)(v) <= Epoch(lastAccess, createdAt)(u) <==>
      UsedNoLater(lastAccess, createdAt, v, u)
    ensures Epoch(lastAccess, createdAt)(v) < cutoff <==> UsedBefore(lastAccess, createdAt, v, cutoff)
  {
  }

  /** No key that stays was used earlier than one that goes. */
  ghost predicate LeastRecentGo(t: Table, lastAccess: Option<map<Key, real>>, createdAt: Key -> Option<real>,
                                victims: seq<Key>) {
    && (forall v :: v in victims ==> v in CurrentKeys(t))
    && (forall v, u :: v in victims && u in CurrentKeys(t) && u !in victims ==>
          UsedNoLater(lastAccess, createdAt, v, u))
  }

  /** No more go than must: nothing under the cap, and before the last of them the total was still above it. */
  ghost predicate NoMoreThanMust(t: Table, cap: int, victims: seq<Key>) {
    && (TotalStored(t) <= cap ==> victims == [])
    && (victims != [] ==> TotalStored(SoftPurgedKeys(t, victims[..|victims| - 1])) > cap)
  }

  lemma {:induction false} SortedHasKey(s: seq<SizeEntry>, epoch: Epochs, u: Key)
    ensures u in KeysOf(LeastRecentFirst(s, epoch)) <==> u in KeysOf(s)
  {
    SortSorts(s, epoch);
    var sorted := LeastRecentFirst(s, epoch);
    hide LeastRecentFirst;
    if u in KeysOf(s) {
      var i :| 0 <= i < |s| && KeysOf(s)[i] == u;
      assert s[i] in multiset(sorted);
      var j :| 0 <= j < |sorted| && sorted[j] == s[i];
      assert KeysOf(sorted)[j] == u;
    }
    if u in KeysOf(sorted) {
      var i :| 0 <= i < |sorted| && KeysOf(sorted)[i] == u;
      assert sorted[i] in multiset(s);
      var j :| 0 <= j < |s| && s[j] == sorted[i];
      assert KeysOf(s)[j] == u;
    }
  }

  lemma {:induction false} VictimsAreLeastRecent(t: Table, lastAccess: Option<map<Key, real>>,
                                                 createdAt: Key -> Option<real>, cap: int, victims: seq<Key>)
    requires Victims(t, Epoch(lastAccess, createdAt), cap, victims)
    ensures LeastRecentGo(t, lastAccess, createdAt, victims)
  {
    var epoch := Epoch(lastAccess, createdAt);
    var entries := SizeEntries(t, t.order);
    var sorted := LeastRecentFirst(entries, epoch);
    SortSorts(entries, epoch);
    forall u {
      SortedHasKey(entries, epoch, u);
    }
    assert |victims| <= |sorted| && forall i :: 0 <= i < |victims| ==> victims[i] == sorted[i].key;
    hide LeastRecentFirst, SizeEntries, Epoch, ShortestPrefix, UsedNoLater;
    forall v | v in victims
      ensures v in CurrentKeys(t)
    {
      var i :| 0 <= i < |victims| && victims[i] == v;
      assert KeysOf(sorted)[i] == v;
    }
    forall v, u | v in victims && u in CurrentKeys(t) && u !in victims
      ensures UsedNoLater(lastAccess, createdAt, v, u)
    {
      var i :| 0 <= i < |victims| && victims[i] == v;
      assert forall m :: 0 <= m < |victims| ==> victims[m] != u;
      var j :| 0 <= j < |sorted| && KeysOf(sorted)[j] == u;
      assert |victims| <= j;
      assert epoch(sorted[i].key) <= epoch(sorted[j].key);
      EpochsAreTimes(lastAccess, createdAt, v, u, 0.0);
    }
  }

  lemma {:induction false} VictimsAreFew(t: Table, epoch: Epochs, cap: int, victims: seq<Key>)
    requires AtMostOneServable(t) && NoDuplicates(t.order) && Victims(t, epoch, cap, victims)
    ensures NoMoreThanMust(t, cap, victims)
  {
    var sorted := LeastRecentFirst(SizeEntries(t, t.order), epoch);
    SortKeepsSum(SizeEntries(t, t.order), epoch);
    PrefixIsShort(sorted, TotalStored(t), cap, |victims|);
    if victims != [] {
      var n := |victims| - 1;
      assert victims[..n] == KeysOf(sorted[..n]);
      RestAfterEviction(t, epoch, victims[..n]);
    }
    hide LeastRecentFirst, SizeEntries, SoftPurgedKeys, AtMostOneServable, NoDuplicates, KeysOf, ShortestPrefix, Sum;
  }

  lemma {:induction false} PrefixIsShort(sorted: seq<SizeEntry>, current: int, cap: int, n: nat)
    requires ShortestPrefix(sorted, current, cap, n) && current == Sum(sorted)
    ensures current <= cap ==> n == 0
    ensures n > 0 ==> Sum(sorted[n - 1..]) > cap
  {
    assert Sum(sorted[..0]) == 0;
    if n > 0 {
      SumOfTwo(sorted[..n - 1], sorted[n - 1..]);
      assert sorted == sorted[..n - 1] + sorted[n - 1..];
    }
  }

  /** Exactly the keys last used before the cutoff go; a maximum age that is not positive lets none go. */
  ghost predicate StaleGo(t: Table, lastAccess: Option<map<Key, real>>, createdAt: Key -> Option<real>, maxAge: real,
                          now: real, stale: seq<Key>) {
    forall k :: k in stale <==>
      0.0 < maxAge && k in CurrentKeys(t) && UsedBefore(lastAccess, createdAt, k, now - maxAge)
  }

  lemma {:induction false} StaleAreUnused(t: Table, lastAccess: Option<map<Key, real>>, createdAt: Key -> Option<real>,
                                          maxAge: real, now: real, stale: seq<Key>)
    requires if maxAge <= 0.0 then stale == [] else StaleKeys(t, Epoch(lastAccess, createdAt), now - maxAge, stale)
    ensures StaleGo(t, lastAccess, createdAt, maxAge, now, stale)
  {
    var entries := SizeEntries(t, t.order);
    hide SizeEntries, Epoch, UsedBefore, UsedNoLater;
    forall k
      ensures Epoch(lastAccess, createdAt)(k) < now - maxAge <==> UsedBefore(lastAccess, createdAt, k, now - maxAge)
      ensures k in CurrentKeys(t) <==> exists i :: 0 <= i < |entries| && entries[i].key == k
    {
      EpochsAreTimes(lastAccess, createdAt, k, k, now - maxAge);
      if i :| 0 <= i < |entries| && entries[i].key == k {
        assert CurrentKeys(t)[i] == k;
      }
    }
  }

  // ---- everything ----

  /** The keys with something servable, in listing order. */
  function CurrentKeys(t: Table): seq<Key> {
    KeysOf(SizeEntries(t, t.order))
  }

  lemma {:induction false} ServableHasEntry(k: Key, h: seq<Row>, i: nat)
    requires i < |h| && Servable(h[i])
    ensures EntriesFor(k, h) != []
  {
    if i < |h| - 1 {
      ServableHasEntry(k, h[..|h| - 1], i);
    }
  }

  lemma {:induction false} ServableIsListed(t: Table, keys: seq<Key>, k: Key, i: nat)
    requires k in keys && i < |History(t, k)| && Servable(History(t, k)[i])
    ensures k in KeysOf(SizeEntries(t, keys))
  {
    var n := |keys| - 1;
    var before, last := SizeEntries(t, keys[..n]), EntriesFor(keys[n], History(t, keys[n]));
    assert SizeEntries(t, keys) == before + last;
    if keys[n] == k {
      ServableHasEntry(k, History(t, k), i);
      EntriesForKey(k, History(t, k));
      assert KeysOf(before + last)[|before|] == k;
    } else {
      ServableIsListed(t, keys[..n], k, i);
      var m :| 0 <= m < |before| && KeysOf(before)[m] == k;
      assert KeysOf(before + last)[m] == k;
    }
  }

  /** The keys of the entries last used before the cutoff. */
  method ChooseStale(entries: seq<SizeEntry>, epoch: Epochs, cutoff: real) returns (keys: seq<Key>)
    ensures forall k :: k in keys <==> epoch(k) < cutoff && exists i :: 0 <= i < |entries| && entries[i].key == k
  {
    keys := [];
    for n := 0 to |entries|
      invariant forall k :: k in keys <==> epoch(k) < cutoff && exists i :: 0 <= i < n && entries[i].key == k
    {
      if epoch(entries[n].key) < cutoff {
        keys := keys + [entries[n].key];
      }
    }
  }

  ghost predicate StaleKeys(t: Table, epoch: Epochs, cutoff: real, keys: seq<Key>) {
    forall k :: k in keys <==>
      epoch(k) < cutoff && exists i :: 0 <= i < |SizeEntries(t, t.order)| && SizeEntries(t, t.order)[i].key == k
  }

  /** Purging the stale keys leaves exactly the entries used since the cutoff. */
  lemma {:induction false} OnlyFreshRemain(t: Table, epoch: Epochs, cutoff: real, keys: seq<Key>, e: SizeEntry)
    requires StaleKeys(t, epoch, cutoff, keys)
    ensures var u := SoftPurgedKeys(t, keys);
      e in SizeEntries(u, u.order) <==> e in SizeEntries(t, t.order) && epoch(e.key) >= cutoff
  {
    PurgeKeepsOrder(t, keys);
    PurgedEntries(t, keys, t.order);
    WithoutMembers(SizeEntries(t, t.order), KeySet(keys), e);
  }
}
