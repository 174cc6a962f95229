/**
 * How texts are framed before they are hashed into a key. Texts are their UTF-8 bytes, whose order is the order of
 * their code points.
 */
module Framing {
  import opened Executions
  import opened TextOrder

  type Text = Bytes

  const FieldSep: Byte := 0x1F
  const RecordSep: Byte := 0x1E
  const ArgumentSep: Byte := 0x00

  // ---- fields, in insertion order, and sorted by key ----

  datatype Field = Field(key: Text, value: Text)

  predicate DistinctKeys(fields: seq<Field>) {
    forall i, j :: 0 <= i < j < |fields| ==> fields[i].key != fields[j].key
  }

  predicate Ascending(fields: seq<Field>) {
    forall i, j :: 0 <= i < j < |fields| ==> Leq(fields[i].key, fields[j].key)
  }

  function Insert(f: Field, s: seq<Field>): seq<Field> {
    if s == [] || Leq(f.key, s[0].key) then [f] + s else [s[0]] + Insert(f, s[1..])
  }

  function Sorted(fields: seq<Field>): seq<Field> {
    if fields == [] then [] else Insert(fields[0], Sorted(fields[1..]))
  }

  lemma {:induction false} InsertMembers(f: Field, s: seq<Field>, x: Field)
    ensures x in Insert(f, s) <==> x == f || x in s
  {
    if !(s == [] || Leq(f.key, s[0].key)) {
      InsertMembers(f, s[1..], x);
      assert s == [s[0]] + s[1..];
    }
  }

  lemma {:induction false} InsertAscends(f: Field, s: seq<Field>)
    requires Ascending(s)
    ensures Ascending(Insert(f, s))
  {
    if s == [] {
    } else if Leq(f.key, s[0].key) {
      forall j | 0 <= j < |s|
        ensures Leq(f.key, s[j].key)
      {
        if j > 0 {
          LeqTransitive(f.key, s[0].key, s[j].key);
        }
      }
    } else {
      LeqTotal(f.key, s[0].key);
      InsertAscends(f, s[1..]);
      var rest := Insert(f, s[1..]);
      forall j | 0 <= j < |rest|
        ensures Leq(s[0].key, rest[j].key)
      {
        InsertMembers(f, s[1..], rest[j]);
        assert rest[j] in rest;
      }
    }
  }

  lemma {:induction false} SortedIs(fields: seq<Field>)
    ensures Ascending(Sorted(fields)) && |Sorted(fields)| == |fields|
    ensures forall x :: x in Sorted(fields) <==> x in fields
  {
    if fields != [] {
      SortedIs(fields[1..]);
      InsertAscends(fields[0], Sorted(fields[1..]));
      InsertLength(fields[0], Sorted(fields[1..]));
      forall x {
        InsertMembers(fields[0], Sorted(fields[1..]), x);
      }
      assert fields == [fields[0]] + fields[1..];
    }
  }

  lemma {:induction false} InsertLength(f: Field, s: seq<Field>)
    ensures |Insert(f, s)| == |s| + 1
  {
    if !(s == [] || Leq(f.key, s[0].key)) {
      InsertLength(f, s[1..]);
    }
  }

  /** With distinct keys there is one ascending list of given members. */
  lemma {:induction false} AscendingUnique(a: seq<Field>, b: seq<Field>)
    requires Ascending(a) && Ascending(b) && DistinctKeys(a) && DistinctKeys(b)
    requires forall x :: x in a <==> x in b
    ensures a == b
  {
    assert b != [] ==> b[0] in b;
    if a != [] {
      assert a[0] in b;
      assert b[0] in a;
      var i :| 0 <= i < |b| && b[i] == a[0];
      var j :| 0 <= j < |a| && a[j] == b[0];
      assert Leq(a[0].key, b[0].key) && Leq(b[0].key, a[0].key) by {
        LeqTotal(a[0].key, a[0].key);
        LeqTotal(b[0].key, b[0].key);
      }
      LeqTotal(a[0].key, b[0].key);
      assert i == 0;
      forall x
        ensures x in a[1..] <==> x in b[1..]
      {
        TailMembers(a, x);
        TailMembers(b, x);
      }
      AscendingUnique(a[1..], b[1..]);
      assert a == [a[0]] + a[1..] && b == [b[0]] + b[1..];
    }
  }

  lemma {:induction false} TailMembers(s: seq<Field>, x: Field)
    requires s != [] && DistinctKeys(s)
    ensures x in s[1..] <==> x in s && x != s[0]
  {
    assert s == [s[0]] + s[1..];
    assert forall i :: 0 < i < |s| ==> s[i].key != s[0].key;
  }

  // ---- numbers ----

  function Decimal(n: nat): Bytes {
    if n < 10 then [48 + n] else Decimal(n / 10) + [48 + n % 10]
  }

  function Number(digits: Bytes): int {
    if digits == [] then 0 else Number(digits[..|digits| - 1]) * 10 + ((digits[|digits| - 1] as int) - 48)
  }

  lemma {:induction false} NumberOfDecimal(n: nat)
    ensures Number(Decimal(n)) == n && Decimal(n) != []
    ensures forall i :: 0 <= i < |Decimal(n)| ==> 48 <= Decimal(n)[i] < 58
  {
    if n < 10 {
      assert Decimal(n)[..0] == [];
    } else {
      NumberOfDecimal(n / 10);
      assert Decimal(n)[..|Decimal(n)| - 1] == Decimal(n / 10);
    }
  }

  // ---- printing and parsing ----

  function Framed(f: Field): Bytes {
    f.key + [FieldSep] + Decimal(|f.value|) + [FieldSep] + f.value + [RecordSep]
  }

  function Print(fields: seq<Field>): Bytes {
    if fields == [] then [] else Framed(fields[0]) + Print(fields[1..])
  }

  /** Where the first `sep` is, or the length. */
  function Find(s: Bytes, sep: Byte): (i: nat)
    ensures i <= |s| && (i < |s| ==> s[i] == sep) && forall j :: 0 <= j < i ==> s[j] != sep
  {
    if s == [] || s[0] == sep then 0 else 1 + Find(s[1..], sep)
  }

  lemma {:induction false} FindAfter(a: Bytes, sep: Byte, b: Bytes)
    requires sep !in a
    ensures Find(a + [sep] + b, sep) == |a|
  {
    var s := a + [sep] + b;
    assert s[|a|] == sep;
    assert forall j :: 0 <= j < |a| ==> s[j] == a[j] && a[j] in a;
  }

  /** Reads one field off the front: up to a separator, a decimal length up to a separator, that many bytes, an end. */
  function ParseField(s: Bytes): Option<(Field, Bytes)> {
    var i := Find(s, FieldSep);
    if i == |s| then None
    else
      var t := s[i + 1..];
      var j := Find(t, FieldSep);
      if j == |t| then None
      else
        var n := Number(t[..j]);
        var u := t[j + 1..];
        if 0 <= n < |u| && u[n] == RecordSep then Some((Field(s[..i], u[..n]), u[n + 1..])) else None
  }

  lemma {:induction false} ParsedIsShorter(s: Bytes)
    ensures ParseField(s).Some? ==> |ParseField(s).value.1| < |s| && FieldSep !in ParseField(s).value.0.key
  {
  }

  function Parse(s: Bytes): Option<seq<Field>>
    decreases |s|
  {
    if s == [] then Some([])
    else
      match ParseField(s)
      case None => None
      case Some((f, rest)) =>
        ParsedIsShorter(s);
        match Parse(rest)
        case None => None
        case Some(fs) => Some([f] + fs)
  }

  predicate SeparatorFree(fields: seq<Field>) {
    forall i :: 0 <= i < |fields| ==> FieldSep !in fields[i].key
  }

  lemma {:induction false} ParsedParts(key: Bytes, digits: Bytes, value: Bytes, rest: Bytes)
    requires FieldSep !in key && FieldSep !in digits && Number(digits) == |value|
    ensures ParseField(key + [FieldSep] + (digits + [FieldSep] + (value + [RecordSep] + rest))) ==
      Some((Field(key, value), rest))
  {
    var u := value + [RecordSep] + rest;
    var t := digits + [FieldSep] + u;
    var s := key + [FieldSep] + t;
    FindAfter(key, FieldSep, t);
    FindAfter(digits, FieldSep, u);
    hide Find;
    assert s[..|key|] == key && s[|key| + 1..] == t;
    assert t[..|digits|] == digits && t[|digits| + 1..] == u;
    assert u[|value|] == RecordSep && u[..|value|] == value && u[|value| + 1..] == rest;
  }

  lemma {:induction false} ParseOneField(f: Field, rest: Bytes)
    requires FieldSep !in f.key
    ensures ParseField(Framed(f) + rest) == Some((f, rest))
  {
    var digits := Decimal(|f.value|);
    NumberOfDecimal(|f.value|);
    assert FieldSep !in digits;
    ParsedParts(f.key, digits, f.value, rest);
    hide Decimal, ParseField;
    Regrouped(f.key, [FieldSep], digits, f.value, [RecordSep], rest);
  }

  lemma {:induction false} Regrouped(a: Bytes, sep: Bytes, b: Bytes, c: Bytes, end: Bytes, rest: Bytes)
    ensures a + sep + b + sep + c + end + rest == a + sep + (b + sep + (c + end + rest))
  {
  }

  lemma {:induction false} ParseFramed(f: Field, fs: seq<Field>, rest: Bytes)
    requires FieldSep !in f.key && Parse(rest) == Some(fs)
    ensures Parse(Framed(f) + rest) == Some([f] + fs)
  {
    ParseOneField(f, rest);
    hide ParseField;
    assert RecordSep in Framed(f);
  }

  lemma {:induction false} ParsePrint(fields: seq<Field>)
    requires SeparatorFree(fields)
    ensures Parse(Print(fields)) == Some(fields)
  {
    if fields != [] {
      assert SeparatorFree(fields[1..]) && FieldSep !in fields[0].key;
      hide SeparatorFree, Framed, Parse;
      ParsePrint(fields[1..]);
      ParseFramed(fields[0], fields[1..], Print(fields[1..]));
      assert fields == [fields[0]] + fields[1..];
      hide Print;
    }
  }

  lemma {:induction false} ParsedSeparatorFree(s: Bytes)
    ensures Parse(s).Some? ==> SeparatorFree(Parse(s).value)
    decreases |s|
  {
    if s != [] && ParseField(s).Some? {
      ParsedIsShorter(s);
      ParsedSeparatorFree(ParseField(s).value.1);
    }
  }

  /** The parser inverts the printer exactly when no key contains the field separator. */
  lemma {:induction false} UniquelyDecodable(fields: seq<Field>)
    ensures Parse(Print(fields)) == Some(fields) <==> SeparatorFree(fields)
  {
    ParsedSeparatorFree(Print(fields));
    if SeparatorFree(fields) {
      ParsePrint(fields);
    }
  }

  // ---- the checksum ----

  /** What is hashed: the fields sorted by key. */
  function Stream(fields: seq<Field>): Bytes {
    Print(Sorted(fields))
  }

  /** The stream of one field, byte by byte: "ab", 0x1F, "3", 0x1F, "xyz", 0x1E. */
  lemma {:induction false} OneFieldStream()
    ensures Stream([Field([97, 98], [120, 121, 122])]) == [97, 98, 0x1F, 51, 0x1F, 120, 121, 122, 0x1E]
    ensures Decimal(120) == [49, 50, 48]
  {
    var f := Field([97, 98], [120, 121, 122]);
    assert [f][1..] == [];
    assert Sorted([f]) == [f] && Decimal(3) == [51];
    assert Decimal(1) == [49] && Decimal(12) == [49, 50];
  }

  /** Insertion order does not matter. */
  lemma {:induction false} OrderIndependent(a: seq<Field>, b: seq<Field>)
    requires DistinctKeys(a) && DistinctKeys(b) && forall x :: x in a <==> x in b
    ensures Stream(a) == Stream(b)
  {
    SortedIs(a);
    SortedIs(b);
    SortedDistinct(a);
    SortedDistinct(b);
    AscendingUnique(Sorted(a), Sorted(b));
  }

  lemma {:induction false} InsertDistinct(f: Field, s: seq<Field>)
    requires DistinctKeys(s) && forall i :: 0 <= i < |s| ==> s[i].key != f.key
    ensures DistinctKeys(Insert(f, s))
  {
    if !(s == [] || Leq(f.key, s[0].key)) {
      InsertDistinct(f, s[1..]);
      var rest := Insert(f, s[1..]);
      forall j | 0 <= j < |rest|
        ensures rest[j].key != s[0].key
      {
        InsertMembers(f, s[1..], rest[j]);
        assert rest[j] in rest;
      }
    }
  }

  lemma {:induction false} SortedDistinct(fields: seq<Field>)
    requires DistinctKeys(fields)
    ensures DistinctKeys(Sorted(fields))
  {
    if fields != [] {
      SortedDistinct(fields[1..]);
      SortedIs(fields[1..]);
      var rest := Sorted(fields[1..]);
      forall i | 0 <= i < |rest|
        ensures rest[i].key != fields[0].key
      {
        assert rest[i] in fields[1..];
      }
      InsertDistinct(fields[0], rest);
    }
  }

  /**
   * Two calls get one checksum exactly when they have the same fields, in whatever order they were given, as long as
   * no key contains the field separator.
   */
  lemma {:induction false} SameStreamSameFields(a: seq<Field>, b: seq<Field>)
    requires DistinctKeys(a) && DistinctKeys(b) && SeparatorFree(a) && SeparatorFree(b)
    ensures Stream(a) == Stream(b) <==> forall x :: x in a <==> x in b
  {
    SortedIs(a);
    SortedIs(b);
    SortedFree(a);
    SortedFree(b);
    ParsePrint(Sorted(a));
    ParsePrint(Sorted(b));
    if forall x :: x in a <==> x in b {
      OrderIndependent(a, b);
    }
  }

  lemma {:induction false} SortedFree(fields: seq<Field>)
    requires SeparatorFree(fields)
    ensures SeparatorFree(Sorted(fields))
  {
    SortedIs(fields);
    forall i | 0 <= i < |Sorted(fields)|
      ensures FieldSep !in Sorted(fields)[i].key
    {
      assert Sorted(fields)[i] in fields;
    }
  }

  /** A key that spells out a whole field and the start of the next collides with the two fields it spells. */
  lemma {:induction false} SeparatorsCollide(a: Field, b: Field)
    requires Leq(a.key, b.key) && a.key != b.key
    ensures var forged := Field(Framed(a) + b.key, b.value);
      Stream([a, b]) == Stream([forged]) && [a, b] != [forged] && !SeparatorFree([forged])
  {
    var forged := Field(Framed(a) + b.key, b.value);
    assert Sorted([b]) == [b] by { assert [b][1..] == []; }
    assert [a, b][1..] == [b];
    assert Sorted([a, b]) == [a] + [b];
    assert Sorted([forged]) == [forged] by { assert [forged][1..] == []; }
    assert ([a] + [b])[1..] == [b] && [b][1..] == [] && [forged][1..] == [];
    assert Print([b]) == Framed(b) + [] && Print([a] + [b]) == Framed(a) + Print([b]);
    assert Print([forged]) == Framed(forged) + [];
    assert Framed(a) + Framed(b) == Framed(forged);
    assert forged.key[|a.key|] == FieldSep;
    assert FieldSep in forged.key;
  }

  lemma {:induction false} PrintNext(fields: seq<Field>, n: nat)
    requires n < |fields|
    ensures Print(fields[..n + 1]) == Print(fields[..n]) + Framed(fields[n])
  {
    if n > 0 {
      PrintNext(fields[1..], n - 1);
      assert fields[..n + 1][1..] == fields[1..][..n] && fields[..n][1..] == fields[1..][..n - 1];
      assert Framed(fields[0]) + (Print(fields[1..][..n - 1]) + Framed(fields[n]))
          == Framed(fields[0]) + Print(fields[1..][..n - 1]) + Framed(fields[n]);
    } else {
      assert fields[..1][1..] == [] && fields[..1] == [fields[0]];
    }
  }

  /** The digest is fed key, separator, length, separator, text and end, field by field in key order. */
  method ChecksumInputData(fields: seq<Field>) returns (digest: Fingerprint)
    ensures digest == Sha256(Stream(fields))
  {
    var sorted := Sorted(fields);
    var fed: Bytes := [];
    for n := 0 to |sorted|
      invariant fed == Print(sorted[..n])
    {
      PrintNext(sorted, n);
      fed := fed + sorted[n].key;
      fed := fed + [FieldSep];
      fed := fed + Decimal(|sorted[n].value|);
      fed := fed + [FieldSep];
      fed := fed + sorted[n].value;
      fed := fed + [RecordSep];
      assert fed == Print(sorted[..n]) + Framed(sorted[n]);
    }
    assert sorted[..|sorted|] == sorted;
    digest := Sha256(fed);
  }

  // ---- ordered arguments ----

  /** The arguments joined by NUL. */
  function Join(args: seq<Text>): Bytes {
    if args == [] then []
    else if |args| == 1 then args[0]
    else args[0] + [ArgumentSep] + Join(args[1..])
  }

  /** Two arguments, byte by byte: "a", 0x00, "b". */
  lemma {:induction false} TwoArgumentsJoined()
    ensures Join([[97], [98]]) == [97, 0x00, 98]
  {
    assert [[97], [98]][1..] == [[98]];
    assert Join([[98]]) == [98];
  }

  function FingerprintArguments(args: seq<Text>): Fingerprint {
    Sha256(Join(args))
  }

  /** Splits at every NUL. */
  function Split(s: Bytes): seq<Text>
    decreases |s|
  {
    var i := Find(s, ArgumentSep);
    if i == |s| then [s] else [s[..i]] + Split(s[i + 1..])
  }

  predicate NulFree(args: seq<Text>) {
    forall i :: 0 <= i < |args| ==> ArgumentSep !in args[i]
  }

  lemma {:induction false} SplitJoin(args: seq<Text>)
    requires args != [] && NulFree(args)
    ensures Split(Join(args)) == args
  {
    if |args| == 1 {
      SplitNone(args[0]);
      assert args == [args[0]];
    } else {
      SplitJoin(args[1..]);
      SplitFirst(args[0], Join(args[1..]));
      hide Split;
      assert args == [args[0]] + args[1..];
    }
  }

  lemma {:induction false} SplitNone(s: Bytes)
    requires ArgumentSep !in s
    ensures Split(s) == [s]
  {
    assert forall i :: 0 <= i < |s| ==> s[i] in s;
  }

  lemma {:induction false} SplitFirst(first: Bytes, rest: Bytes)
    requires ArgumentSep !in first
    ensures Split(first + [ArgumentSep] + rest) == [first] + Split(rest)
  {
    var s := first + [ArgumentSep] + rest;
    FindAfter(first, ArgumentSep, rest);
    assert s[..|first|] == first && s[|first| + 1..] == rest;
  }

  lemma {:induction false} SplitIsFree(s: Bytes)
    ensures Split(s) != [] && NulFree(Split(s))
    decreases |s|
  {
    var i := Find(s, ArgumentSep);
    if i < |s| {
      SplitIsFree(s[i + 1..]);
    }
  }

  /** Splitting inverts joining exactly on the non-empty lists of NUL-free arguments. */
  lemma {:induction false} JoinInvertible(args: seq<Text>)
    ensures Split(Join(args)) == args <==> args != [] && NulFree(args)
  {
    SplitIsFree(Join(args));
    if args != [] && NulFree(args) {
      SplitJoin(args);
    }
  }

  /** NUL-free argument lists share a fingerprint only with themselves, but for no argument and one empty argument. */
  lemma {:induction false} ArgumentsKeyedApart(a: seq<Text>, b: seq<Text>)
    requires NulFree(a) && NulFree(b)
    ensures FingerprintArguments(a) == FingerprintArguments(b) <==> a == b || (a in {[], [[]]} && b in {[], [[]]})
  {
    if a != [] && b != [] {
      SplitJoin(a);
      SplitJoin(b);
    } else {
      OnlyEmptyJoinsEmpty(a);
      OnlyEmptyJoinsEmpty(b);
    }
  }

  lemma {:induction false} OnlyEmptyJoinsEmpty(args: seq<Text>)
    ensures Join(args) == [] <==> args == [] || args == [[]]
  {
    if |args| == 1 {
      assert args == [args[0]];
    }
  }
}
