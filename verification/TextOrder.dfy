/** Texts in code-point order, and strictly ascending lists of keys. */
module TextOrder {

  predicate Leq(a: seq<int>, b: seq<int>) {
    if a == [] then true
    else if b == [] then false
    else a[0] < b[0] || (a[0] == b[0] && Leq(a[1..], b[1..]))
  }

  /** `a` comes before `b`: they agree up to a place where `a` ends, or has the smaller code point. */
  predicate Before(a: seq<int>, b: seq<int>, n: nat) {
    && n <= |a| && n <= |b| && (forall i :: 0 <= i < n ==> a[i] == b[i])
    && (n == |a| || (n < |b| && a[n] < b[n]))
  }

  lemma {:induction false} LeqIsLexicographic(a: seq<int>, b: seq<int>)
    ensures Leq(a, b) <==> exists n: nat :: Before(a, b, n)
  {
    if a == [] {
      assert Before(a, b, 0);
    } else if b != [] {
      LeqIsLexicographic(a[1..], b[1..]);
      if a[0] < b[0] {
        assert Before(a, b, 0);
      }
      if a[0] == b[0] && Leq(a[1..], b[1..]) {
        var n: nat :| Before(a[1..], b[1..], n);
        assert forall i :: 0 < i < n + 1 ==> a[i] == a[1..][i - 1] && b[i] == b[1..][i - 1];
        assert Before(a, b, n + 1);
      }
      if n: nat :| Before(a, b, n) {
        if n > 0 {
          assert forall i :: 0 <= i < n - 1 ==> a[1..][i] == a[i + 1] && b[1..][i] == b[i + 1];
          assert Before(a[1..], b[1..], n - 1);
        }
      }
    }
  }

  lemma {:induction false} LeqTotal(a: seq<int>, b: seq<int>)
    ensures Leq(a, b) || Leq(b, a)
    ensures Leq(a, b) && Leq(b, a) ==> a == b
  {
    if a != [] && b != [] {
      LeqTotal(a[1..], b[1..]);
      if a[0] == b[0] && a[1..] == b[1..] {
        assert a == [a[0]] + a[1..] && b == [b[0]] + b[1..];
      }
    }
  }

  lemma {:induction false} LeqTransitive(a: seq<int>, b: seq<int>, c: seq<int>)
    requires Leq(a, b) && Leq(b, c)
    ensures Leq(a, c)
  {
    if a != [] && a[0] == b[0] == c[0] {
      LeqTransitive(a[1..], b[1..], c[1..]);
    }
  }

  ghost predicate TotalOrder<K(!new)>(leq: (K, K) -> bool) {
    && (forall a, b :: leq(a, b) || leq(b, a))
    && (forall a, b :: leq(a, b) && leq(b, a) ==> a == b)
    && (forall a, b, c :: leq(a, b) && leq(b, c) ==> leq(a, c))
  }

  lemma {:induction false} LeqIsTotalOrder()
    ensures TotalOrder(Leq)
  {
    forall a, b {
      LeqTotal(a, b);
    }
    forall a, b, c | Leq(a, b) && Leq(b, c) {
      LeqTransitive(a, b, c);
    }
  }

  predicate StrictlyAscending<K(==)>(s: seq<K>, leq: (K, K) -> bool) {
    forall i, j :: 0 <= i < j < |s| ==> leq(s[i], s[j]) && s[i] != s[j]
  }

  /** A strictly ascending list is fixed by its members. */
  lemma {:induction false} AscendingUnique<K(!new)>(a: seq<K>, b: seq<K>, leq: (K, K) -> bool)
    requires TotalOrder(leq) && StrictlyAscending(a, leq) && StrictlyAscending(b, leq)
    requires forall x :: x in a <==> x in b
    ensures a == b
  {
    assert b != [] ==> b[0] in b;
    if a != [] {
      assert a[0] in b && b[0] in a;
      var i :| 0 <= i < |b| && b[i] == a[0];
      var j :| 0 <= j < |a| && a[j] == b[0];
      assert leq(a[0], b[0]) && leq(b[0], a[0]);
      forall x
        ensures x in a[1..] <==> x in b[1..]
      {
        TailMembers(a, leq, x);
        TailMembers(b, leq, x);
      }
      AscendingUnique(a[1..], b[1..], leq);
      assert a == [a[0]] + a[1..] && b == [b[0]] + b[1..];
    }
  }

  lemma {:induction false} TailMembers<K>(s: seq<K>, leq: (K, K) -> bool, x: K)
    requires s != [] && StrictlyAscending(s, leq)
    ensures x in s[1..] <==> x in s && x != s[0]
  {
    assert s == [s[0]] + s[1..];
    assert forall i :: 0 < i < |s| ==> s[i] != s[0];
  }

  function Insert<K(==)>(x: K, s: seq<K>, leq: (K, K) -> bool): seq<K> {
    if s == [] || leq(x, s[0]) then [x] + s else [s[0]] + Insert(x, s[1..], leq)
  }

  lemma {:induction false} InsertAscends<K(!new)>(x: K, s: seq<K>, leq: (K, K) -> bool)
    requires TotalOrder(leq) && StrictlyAscending(s, leq) && x !in s
    ensures StrictlyAscending(Insert(x, s, leq), leq)
    ensures forall y :: y in Insert(x, s, leq) <==> y == x || y in s
  {
    if !(s == [] || leq(x, s[0])) {
      assert s == [s[0]] + s[1..];
      InsertAscends(x, s[1..], leq);
      var rest := Insert(x, s[1..], leq);
      forall j | 0 <= j < |rest|
        ensures leq(s[0], rest[j]) && s[0] != rest[j]
      {
        assert rest[j] in rest;
        if rest[j] != x {
          TailMembers(s, leq, rest[j]);
        }
      }
    }
  }

  /** The keys of a dictionary in order. */
  method SortKeys<K(==,!new)>(keys: set<K>, leq: (K, K) -> bool) returns (s: seq<K>)
    requires TotalOrder(leq)
    ensures StrictlyAscending(s, leq) && forall x :: x in s <==> x in keys
  {
    s := [];
    var todo := keys;
    while todo != {}
      invariant todo <= keys && StrictlyAscending(s, leq)
      invariant forall x :: x in s <==> x in keys && x !in todo
      decreases |todo|
    {
      var x :| x in todo;
      InsertAscends(x, s, leq);
      s, todo := Insert(x, s, leq), todo - {x};
    }
  }
}
