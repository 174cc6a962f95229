/** A session's journal rows rolled up by model and by day. */
module SessionReport {
  import opened Executions
  import opened CacheSpec
  import opened TextOrder

  /** Texts by code points. */
  type Text = seq<int>

  datatype TokenUsage = TokenUsage(input: Option<nat>, output: Option<nat>, cacheRead: Option<nat>,
                                   cacheWrite: Option<nat>,
                                   reasoning: Option<nat>)

  type UsageByKey = map<Key, TokenUsage>

  /** One journal row; a row may carry no timestamp and no execution key. */
  datatype EventRow = EventRow(ts: Option<Text>, kind: EventKind, client: Text, model: Text, executionKey: Option<Key>)

  datatype ModelKey = ModelKey(client: Text, model: Text)

  datatype ModelCounts = ModelCounts(input: nat, output: nat, cacheRead: nat, cacheWrite: nat, reasoning: nat,
                                     saved: nat,
                                     executions: nat, hits: nat)
  datatype DayCounts = DayCounts(invocations: nat, executions: nat, hits: nat)

  datatype ModelUsage = ModelUsage(key: ModelKey, counts: ModelCounts)
  datatype DayActivity = DayActivity(day: Text, counts: DayCounts)

  datatype Report = Report(invocations: nat, executions: nat, hits: nat, unknownUsage: nat, spanStart: Option<Text>,
                           spanEnd: Option<Text>,
                           byModel: seq<ModelUsage>, byDay: seq<DayActivity>)

  predicate Executed(kind: EventKind) {
    kind.Record? || kind.Run? || kind.WouldHit? || kind.WouldMiss?
  }

  function Or0(n: Option<nat>): nat {
    match n
    case Some(v) => v
    case None => 0
  }

  /** Total reported tokens, or nothing when the call reported none. */
  function Tokens(usage: Option<TokenUsage>): Option<nat> {
    match usage
    case None => None
    case Some(u) => if u.input.None? && u.output.None? then None else Some(Or0(u.input) + Or0(u.output))
  }

  function DayOf(row: EventRow): Text {
    match row.ts
    case None => []
    case Some(ts) => if |ts| <= 10 then ts else ts[..10]
  }

  function ModelOf(row: EventRow): ModelKey {
    ModelKey(row.client, row.model)
  }

  function UsageOf(row: EventRow, usage: UsageByKey): Option<TokenUsage> {
    if row.executionKey.Some? && row.executionKey.value.text != "" && row.executionKey.value in usage
    then Some(usage[row.executionKey.value]) else None
  }

  // ---- what a list of rows adds up to ----

  /** Everything one row can count for. */
  datatype Tally = Tally(invocations: nat, executions: nat, hits: nat, unknown: nat, input: nat, output: nat,
                         cacheRead: nat,
                         cacheWrite: nat, reasoning: nat, saved: nat)
  {
    function Plus(t: Tally): Tally {
      Tally(invocations + t.invocations, executions + t.executions, hits + t.hits, unknown + t.unknown, input + t.input,
            output + t.output, cacheRead + t.cacheRead, cacheWrite + t.cacheWrite, reasoning + t.reasoning,
            saved + t.saved)
    }
  }

  const Zero := Tally(0, 0, 0, 0, 0, 0, 0, 0, 0, 0)

  function TallyOf(row: EventRow, usage: UsageByKey): Tally {
    var u := UsageOf(row, usage);
    var tokens := Tokens(u);
    if row.kind.Hit? then Tally(1, 0, 1, 0, 0, 0, 0, 0, 0, Or0(tokens))
    else if !Executed(row.kind) then Tally(1, 0, 0, 0, 0, 0, 0, 0, 0, 0)
    else if tokens.None? then Tally(1, 1, 0, 1, 0, 0, 0, 0, 0, 0)
    else Tally(1, 1, 0, 0, Or0(u.value.input), Or0(u.value.output), Or0(u.value.cacheRead), Or0(u.value.cacheWrite),
               Or0(u.value.reasoning), 0)
  }

  function Term(row: EventRow, usage: UsageByKey, p: EventRow -> bool): Tally {
    if p(row) then TallyOf(row, usage) else Zero
  }

  /** The sum over the rows that satisfy `p`. */
  function Sum(rows: seq<EventRow>, usage: UsageByKey, p: EventRow -> bool): Tally {
    if rows == [] then Zero
    else
      var last := rows[|rows| - 1];
      Sum(rows[..|rows| - 1], usage, p).Plus(Term(last, usage, p))
  }

  function All(): EventRow -> bool {
    _ => true
  }

  /** The rows of one group. */
  function In<K(==)>(of: EventRow -> K, k: K): EventRow -> bool {
    row => of(row) == k
  }

  ghost predicate Occurs<K>(rows: seq<EventRow>, of: EventRow -> K, k: K) {
    exists i :: 0 <= i < |rows| && of(rows[i]) == k
  }

  function ModelPart(t: Tally): ModelCounts {
    ModelCounts(t.input, t.output, t.cacheRead, t.cacheWrite, t.reasoning, t.saved, t.executions, t.hits)
  }

  function DayPart(t: Tally): DayCounts {
    DayCounts(t.invocations, t.executions, t.hits)
  }

  lemma {:induction false} SumNext(rows: seq<EventRow>, n: nat, usage: UsageByKey, p: EventRow -> bool)
    requires n < |rows|
    ensures Sum(rows[..n + 1], usage, p) == Sum(rows[..n], usage, p).Plus(Term(rows[n], usage, p))
  {
    assert rows[..n + 1][..n] == rows[..n];
  }

  lemma {:induction false} SumSnoc(rows: seq<EventRow>, last: EventRow, usage: UsageByKey, p: EventRow -> bool)
    ensures Sum(rows + [last], usage, p) == Sum(rows, usage, p).Plus(Term(last, usage, p))
  {
    assert (rows + [last])[..|rows|] == rows;
  }

  /** Counting two lists together is counting each and adding. */
  lemma {:induction false} SumIsHomomorphic(a: seq<EventRow>, b: seq<EventRow>, usage: UsageByKey, p: EventRow -> bool)
    ensures Sum(a + b, usage, p) == Sum(a, usage, p).Plus(Sum(b, usage, p))
  {
    if b == [] {
      assert a + b == a && Sum(b, usage, p) == Zero;
      hide Sum;
    } else {
      hide Sum, Term;
      var init, last := b[..|b| - 1], b[|b| - 1];
      SumIsHomomorphic(a, init, usage, p);
      SumSnoc(init, last, usage, p);
      SumSnoc(a + init, last, usage, p);
      assert b == init + [last] && a + b == (a + init) + [last];
    }
  }

  /** The order of the rows does not matter. */
  lemma {:induction false} SumIgnoresOrder(a: seq<EventRow>, b: seq<EventRow>, usage: UsageByKey, p: EventRow -> bool)
    requires multiset(a) == multiset(b)
    ensures Sum(a, usage, p) == Sum(b, usage, p)
    decreases |a|
  {
    hide Term;
    assert |multiset(a)| == |a| && |multiset(b)| == |b|;
    if a != [] {
      var init, last := a[..|a| - 1], a[|a| - 1];
      assert a == init + [last];
      SumSnoc(init, last, usage, p);
      hide Sum;
      assert last in multiset(b);
      var i :| 0 <= i < |b| && b[i] == last;
      var front, back := b[..i], b[i + 1..];
      assert b == front + [last] + back;
      WithoutOne(init, front, back, last);
      SumIgnoresOrder(init, front + back, usage, p);
      SumMiddle(front, last, back, usage, p);
    }
  }

  lemma {:induction false} WithoutOne(init: seq<EventRow>, front: seq<EventRow>, back: seq<EventRow>, last: EventRow)
    requires multiset(init + [last]) == multiset(front + [last] + back)
    ensures multiset(front + back) == multiset(init)
  {
    assert multiset(front + [last] + back) == multiset(front) + multiset{last} + multiset(back);
    assert multiset(init + [last]) == multiset(init) + multiset{last};
    assert multiset(front + back) == multiset(front) + multiset(back);
    assert multiset(init) + multiset{last} - multiset{last} == multiset(init);
    assert multiset(front) + multiset{last} + multiset(back) - multiset{last} == multiset(front) + multiset(back);
  }

  lemma {:induction false} SumMiddle(front: seq<EventRow>, last: EventRow, back: seq<EventRow>, usage: UsageByKey,
                                     p: EventRow -> bool)
    ensures Sum(front + [last] + back, usage, p) == Sum(front + back, usage, p).Plus(Term(last, usage, p))
  {
    SumSnoc(front, last, usage, p);
    hide Sum, Term;
    SumIsHomomorphic(front, back, usage, p);
    SumIsHomomorphic(front + [last], back, usage, p);
  }

  /** The executed rows among `p` whose call reported tokens. */
  function Reporting(usage: UsageByKey, p: EventRow -> bool): EventRow -> bool {
    row => p(row) && Executed(row.kind) && Tokens(UsageOf(row, usage)).Some?
  }

  /** Every executed call either reported its tokens or is counted as unknown. */
  lemma {:induction false} UnknownAndKnown(rows: seq<EventRow>, usage: UsageByKey, p: EventRow -> bool)
    ensures Sum(rows, usage, p).unknown <= Sum(rows, usage, p).executions
    ensures Sum(rows, usage, p).executions - Sum(rows, usage, p).unknown
         == Sum(rows, usage, Reporting(usage, p)).invocations
  {
    if rows != [] {
      var init, last := rows[..|rows| - 1], rows[|rows| - 1];
      var known := Reporting(usage, p);
      UnknownAndKnown(init, usage, p);
      assert Sum(rows, usage, p) == Sum(init, usage, p).Plus(Term(last, usage, p));
      assert Sum(rows, usage, known) == Sum(init, usage, known).Plus(Term(last, usage, known));
      hide Sum;
    }
  }

  // ---- the report ----

  predicate ModelLeq(a: ModelKey, b: ModelKey) {
    if a.client == b.client then Leq(a.model, b.model) else Leq(a.client, b.client)
  }

  lemma {:induction false} ModelLeqTotal(a: ModelKey, b: ModelKey)
    ensures ModelLeq(a, b) || ModelLeq(b, a)
    ensures ModelLeq(a, b) && ModelLeq(b, a) ==> a == b
  {
    LeqTotal(a.client, b.client);
    LeqTotal(a.model, b.model);
  }

  lemma {:induction false} ModelLeqTransitive(a: ModelKey, b: ModelKey, c: ModelKey)
    requires ModelLeq(a, b) && ModelLeq(b, c)
    ensures ModelLeq(a, c)
  {
    if a.client == b.client == c.client {
      LeqTransitive(a.model, b.model, c.model);
    } else if a.client != b.client && b.client != c.client {
      LeqTransitive(a.client, b.client, c.client);
      LeqTotal(a.client, b.client);
    }
  }

  lemma {:induction false} ModelLeqIsTotalOrder()
    ensures TotalOrder(ModelLeq)
  {
    forall a, b
      ensures ModelLeq(a, b) || ModelLeq(b, a)
      ensures ModelLeq(a, b) && ModelLeq(b, a) ==> a == b
    {
      ModelLeqTotal(a, b);
    }
    forall a, b, c | ModelLeq(a, b) && ModelLeq(b, c)
      ensures ModelLeq(a, c)
    {
      ModelLeqTransitive(a, b, c);
    }
    hide ModelLeq;
  }

  function ModelKeys(byModel: seq<ModelUsage>): (keys: seq<ModelKey>)
    ensures |keys| == |byModel| && forall i :: 0 <= i < |keys| ==> keys[i] == byModel[i].key
  {
    seq(|byModel|, i requires 0 <= i < |byModel| => byModel[i].key)
  }

  function Days(byDay: seq<DayActivity>): (days: seq<Text>)
    ensures |days| == |byDay| && forall i :: 0 <= i < |days| ==> days[i] == byDay[i].day
  {
    seq(|byDay|, i requires 0 <= i < |byDay| => byDay[i].day)
  }

  ghost predicate ModelsExact(rows: seq<EventRow>, usage: UsageByKey, byModel: seq<ModelUsage>) {
    && StrictlyAscending(ModelKeys(byModel), ModelLeq)
    && (forall m :: m in ModelKeys(byModel) <==> Occurs(rows, ModelOf, m))
    && (forall i :: 0 <= i < |byModel| ==>
          byModel[i].counts == ModelPart(Sum(rows, usage, In(ModelOf, byModel[i].key))))
  }

  ghost predicate DaysExact(rows: seq<EventRow>, usage: UsageByKey, byDay: seq<DayActivity>) {
    && StrictlyAscending(Days(byDay), Leq)
    && (forall d :: d in Days(byDay) <==> Occurs(rows, DayOf, d))
    && (forall i :: 0 <= i < |byDay| ==> byDay[i].counts == DayPart(Sum(rows, usage, In(DayOf, byDay[i].day))))
  }

  ghost predicate TotalsExact(rows: seq<EventRow>, usage: UsageByKey, r: Report) {
    var t := Sum(rows, usage, All());
    r.invocations == t.invocations && r.executions == t.executions && r.hits == t.hits && r.unknownUsage == t.unknown
  }

  ghost predicate IsReport(rows: seq<EventRow>, usage: UsageByKey, r: Report) {
    && TotalsExact(rows, usage, r)
    && ModelsExact(rows, usage, r.byModel) && DaysExact(rows, usage, r.byDay)
    && r.spanStart == (if r.byDay == [] then None else Some(r.byDay[0].day))
    && r.spanEnd == (if r.byDay == [] then None else Some(r.byDay[|r.byDay| - 1].day))
  }

  // ---- building it row by row ----

  ghost predicate ModelsSoFar(rows: seq<EventRow>, usage: UsageByKey, models: map<ModelKey, ModelCounts>) {
    && (forall m :: m in models <==> Occurs(rows, ModelOf, m))
    && (forall m :: m in models ==> models[m] == ModelPart(Sum(rows, usage, In(ModelOf, m))))
  }

  ghost predicate DaysSoFar(rows: seq<EventRow>, usage: UsageByKey, days: map<Text, DayCounts>) {
    && (forall d :: d in days <==> Occurs(rows, DayOf, d))
    && (forall d :: d in days ==> days[d] == DayPart(Sum(rows, usage, In(DayOf, d))))
  }

  const NoModelCounts := ModelCounts(0, 0, 0, 0, 0, 0, 0, 0)
  const NoDayCounts := DayCounts(0, 0, 0)

  function CountedModel(c: ModelCounts, row: EventRow, usage: Option<TokenUsage>): ModelCounts {
    if row.kind.Hit? then c.(hits := c.hits + 1, saved := c.saved + Or0(Tokens(usage)))
    else if !Executed(row.kind) then c
    else
      var e := c.(executions := c.executions + 1);
      if Tokens(usage).None? then e
      else
        var u := usage.value;
        e.(input := e.input + Or0(u.input), output := e.output + Or0(u.output),
           cacheRead := e.cacheRead + Or0(u.cacheRead),
           cacheWrite := e.cacheWrite + Or0(u.cacheWrite), reasoning := e.reasoning + Or0(u.reasoning))
  }

  function CountedDay(c: DayCounts, row: EventRow): DayCounts {
    DayCounts(c.invocations + 1, c.executions + (if Executed(row.kind) then 1 else 0),
              c.hits + if row.kind.Hit? then 1 else 0)
  }

  lemma {:induction false} NoneOf(rows: seq<EventRow>, usage: UsageByKey, p: EventRow -> bool)
    requires forall i :: 0 <= i < |rows| ==> !p(rows[i])
    ensures Sum(rows, usage, p) == Zero
  {
    if rows != [] {
      var init, last := rows[..|rows| - 1], rows[|rows| - 1];
      NoneOf(init, usage, p);
      assert Term(last, usage, p) == Zero;
      hide Term;
    }
  }

  lemma {:induction false} HasNext<K>(rows: seq<EventRow>, row: EventRow, of: EventRow -> K, k: K)
    ensures Occurs(rows + [row], of, k) <==> Occurs(rows, of, k) || k == of(row)
  {
    var more := rows + [row];
    assert more[|rows|] == row;
    if i :| 0 <= i < |rows| && of(rows[i]) == k {
      assert of(more[i]) == k;
    }
  }

  lemma {:induction false} GroupNext<K>(rows: seq<EventRow>, usage: UsageByKey, row: EventRow, of: EventRow -> K, k: K)
    ensures Sum(rows + [row], usage, In(of, k)) ==
      Sum(rows, usage, In(of, k)).Plus(if k == of(row) then TallyOf(row, usage) else Zero)
    ensures !Occurs(rows, of, k) ==> Sum(rows, usage, In(of, k)) == Zero
  {
    SumSnoc(rows, row, usage, In(of, k));
    if !Occurs(rows, of, k) {
      NoneOf(rows, usage, In(of, k));
    }
    hide Sum, TallyOf;
  }

  /** Counting a row into a model's entry is adding the row's tally. */
  lemma {:induction false} CountedModelIs(t: Tally, row: EventRow, usage: UsageByKey)
    ensures ModelPart(t.Plus(TallyOf(row, usage))) == CountedModel(ModelPart(t), row, UsageOf(row, usage))
    ensures ModelPart(Zero) == NoModelCounts && ModelPart(t.Plus(Zero)) == ModelPart(t)
  {
  }

  lemma {:induction false} ModelNextAt(rows: seq<EventRow>, usage: UsageByKey, row: EventRow, m: ModelKey)
    ensures ModelPart(Sum(rows + [row], usage, In(ModelOf, m))) ==
      if m == ModelOf(row)
      then CountedModel(if Occurs(rows, ModelOf, m) then ModelPart(Sum(rows, usage, In(ModelOf, m))) else NoModelCounts,
                        row, UsageOf(row, usage))
      else ModelPart(Sum(rows, usage, In(ModelOf, m)))
  {
    GroupNext(rows, usage, row, ModelOf, m);
    var t := Sum(rows, usage, In(ModelOf, m));
    CountedModelIs(t, row, usage);
    hide Sum, Occurs, In, TallyOf, CountedModel, ModelPart;
  }

  lemma {:induction false} ModelsNext(rows: seq<EventRow>, usage: UsageByKey, models: map<ModelKey, ModelCounts>,
                                      row: EventRow)
    requires ModelsSoFar(rows, usage, models)
    ensures var m := ModelOf(row);
      var c := if m in models then models[m] else NoModelCounts;
      ModelsSoFar(rows + [row], usage, models[m := CountedModel(c, row, UsageOf(row, usage))])
  {
    hide Sum, CountedModel, ModelPart, In, Occurs;
    forall m
      ensures Occurs(rows + [row], ModelOf, m) <==> Occurs(rows, ModelOf, m) || m == ModelOf(row)
      ensures ModelPart(Sum(rows + [row], usage, In(ModelOf, m))) ==
        if m == ModelOf(row)
        then CountedModel(if m in models then models[m] else NoModelCounts, row, UsageOf(row, usage))
        else ModelPart(Sum(rows, usage, In(ModelOf, m)))
    {
      HasNext(rows, row, ModelOf, m);
      ModelNextAt(rows, usage, row, m);
    }
  }

  /** Counting a row into a day's entry is adding the row's tally. */
  lemma {:induction false} CountedDayIs(t: Tally, row: EventRow, usage: UsageByKey)
    ensures DayPart(t.Plus(TallyOf(row, usage))) == CountedDay(DayPart(t), row)
    ensures DayPart(Zero) == NoDayCounts && DayPart(t.Plus(Zero)) == DayPart(t)
  {
  }

  lemma {:induction false} DayNextAt(rows: seq<EventRow>, usage: UsageByKey, row: EventRow, d: Text)
    ensures DayPart(Sum(rows + [row], usage, In(DayOf, d))) ==
      if d == DayOf(row)
      then CountedDay(if Occurs(rows, DayOf, d) then DayPart(Sum(rows, usage, In(DayOf, d))) else NoDayCounts, row)
      else DayPart(Sum(rows, usage, In(DayOf, d)))
  {
    GroupNext(rows, usage, row, DayOf, d);
    CountedDayIs(Sum(rows, usage, In(DayOf, d)), row, usage);
    hide Sum, Occurs, In, TallyOf, CountedDay, DayPart, DayOf;
  }

  lemma {:induction false} DaysNext(rows: seq<EventRow>, usage: UsageByKey, days: map<Text, DayCounts>, row: EventRow)
    requires DaysSoFar(rows, usage, days)
    ensures var d := DayOf(row);
      var c := if d in days then days[d] else NoDayCounts;
      DaysSoFar(rows + [row], usage, days[d := CountedDay(c, row)])
  {
    hide Sum, CountedDay, DayPart, In, Occurs, DayOf;
    forall d
      ensures Occurs(rows + [row], DayOf, d) <==> Occurs(rows, DayOf, d) || d == DayOf(row)
      ensures DayPart(Sum(rows + [row], usage, In(DayOf, d))) ==
        if d == DayOf(row) then CountedDay(if d in days then days[d] else NoDayCounts, row)
        else DayPart(Sum(rows, usage, In(DayOf, d)))
    {
      HasNext(rows, row, DayOf, d);
      DayNextAt(rows, usage, row, d);
    }
  }

  // ---- the loop ----

  method BuildSessionReport(rows: seq<EventRow>, usage: UsageByKey) returns (r: Report)
    ensures IsReport(rows, usage, r)
  {
    var models: map<ModelKey, ModelCounts> := map[];
    var days: map<Text, DayCounts> := map[];
    var invocations, executions, hits, unknown := 0, 0, 0, 0;
    NothingYet(rows, usage);
    for n := 0 to |rows|
      invariant Counters(rows[..n], usage, invocations, executions, hits, unknown)
      invariant ModelsSoFar(rows[..n], usage, models) && DaysSoFar(rows[..n], usage, days)
    {
      var row := rows[n];
      assert rows[..n + 1] == rows[..n] + [row];
      ghost var i, e, h, k := invocations, executions, hits, unknown;
      ModelsNext(rows[..n], usage, models, row);
      DaysNext(rows[..n], usage, days, row);
      hide Counters, ModelsSoFar, DaysSoFar;
      var m, d, u := ModelOf(row), DayOf(row), UsageOf(row, usage);
      invocations := invocations + 1;
      days := days[d := CountedDay(if d in days then days[d] else NoDayCounts, row)];
      models := models[m := CountedModel(if m in models then models[m] else NoModelCounts, row, u)];
      if row.kind.Hit? {
        hits := hits + 1;
      } else if Executed(row.kind) {
        executions := executions + 1;
        if Tokens(u).None? {
          unknown := unknown + 1;
        }
      }
      CountersNext(rows[..n], usage, row, i, e, h, k, invocations, executions, hits, unknown);
    }
    assert rows[..|rows|] == rows;
    hide Counters, ModelsSoFar, DaysSoFar;
    var byModel := ListModels(rows, usage, models);
    var byDay := ListDays(rows, usage, days);
    r := Report(invocations, executions, hits, unknown,
                if byDay == [] then None else Some(byDay[0].day),
                if byDay == [] then None else Some(byDay[|byDay| - 1].day),
                byModel, byDay);
    CountersTotal(rows, usage, r);
  }

  ghost predicate Counters(rows: seq<EventRow>, usage: UsageByKey, invocations: nat, executions: nat, hits: nat,
                           unknown: nat) {
    var t := Sum(rows, usage, All());
    t.invocations == invocations && t.executions == executions && t.hits == hits && t.unknown == unknown
  }

  lemma {:induction false} NothingYet(rows: seq<EventRow>, usage: UsageByKey)
    ensures Counters(rows[..0], usage, 0, 0, 0, 0) && ModelsSoFar(rows[..0], usage, map[])
    ensures DaysSoFar(rows[..0], usage, map[])
  {
  }

  lemma {:induction false} CountersTotal(rows: seq<EventRow>, usage: UsageByKey, r: Report)
    requires Counters(rows, usage, r.invocations, r.executions, r.hits, r.unknownUsage)
    ensures TotalsExact(rows, usage, r)
  {
  }

  lemma {:induction false} CountersNext(rows: seq<EventRow>, usage: UsageByKey, row: EventRow, i: nat, e: nat, h: nat,
                                        u: nat, i': nat, e': nat, h': nat, u': nat)
    requires Counters(rows, usage, i, e, h, u)
    requires i' == i + 1 && e' == e + (if Executed(row.kind) then 1 else 0)
    requires h' == h + (if row.kind.Hit? then 1 else 0)
    requires u' == u + if Executed(row.kind) && Tokens(UsageOf(row, usage)).None? then 1 else 0
    ensures Counters(rows + [row], usage, i', e', h', u')
  {
    SumSnoc(rows, row, usage, All());
    hide Sum;
  }

  method ListModels(rows: seq<EventRow>, usage: UsageByKey, models: map<ModelKey, ModelCounts>)
    returns (byModel: seq<ModelUsage>)
    requires ModelsSoFar(rows, usage, models)
    ensures ModelsExact(rows, usage, byModel)
  {
    ModelLeqIsTotalOrder();
    var keys := SortKeys(models.Keys, ModelLeq);
    assert forall i :: 0 <= i < |keys| ==> keys[i] in keys;
    byModel := seq(|keys|, i requires 0 <= i < |keys| => ModelUsage(keys[i], models[keys[i]]));
    assert ModelKeys(byModel) == keys;
  }

  method ListDays(rows: seq<EventRow>, usage: UsageByKey, days: map<Text, DayCounts>) returns (byDay: seq<DayActivity>)
    requires DaysSoFar(rows, usage, days)
    ensures DaysExact(rows, usage, byDay)
  {
    LeqIsTotalOrder();
    var keys := SortKeys(days.Keys, Leq);
    assert forall i :: 0 <= i < |keys| ==> keys[i] in keys;
    byDay := seq(|keys|, i requires 0 <= i < |keys| => DayActivity(keys[i], days[keys[i]]));
    assert Days(byDay) == keys;
  }
}
