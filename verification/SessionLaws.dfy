/** What a session report conserves, and how it accounts for the runs of the recording service. */
module SessionLaws {
  import opened Executions
  import opened CacheSpec
  import opened CacheModel
  import opened CacheLaws
  import opened TextOrder
  import opened SessionReport

  // ---- splitting into groups loses and invents nothing ----

  /** The sum over the first `n` of the groups `ks`. */
  function Across<K(==)>(rows: seq<EventRow>, usage: UsageByKey, of: EventRow -> K, ks: seq<K>, n: nat): Tally
    requires n <= |ks|
  {
    if n == 0 then Zero
    else Across(rows, usage, of, ks, n - 1).Plus(SessionReport.Sum(rows, usage, In(of, ks[n - 1])))
  }

  lemma {:induction false} PlusSwap(a: Tally, x: Tally, s: Tally, y: Tally)
    ensures a.Plus(x).Plus(s.Plus(y)) == a.Plus(s).Plus(x.Plus(y))
    ensures x.Plus(Zero) == x && Zero.Plus(x) == x
  {
  }

  /** One more row lands in exactly one group. */
  lemma {:induction false} AcrossNext<K>(rows: seq<EventRow>, usage: UsageByKey, of: EventRow -> K, ks: seq<K>, n: nat,
                                         row: EventRow)
    requires NoDuplicates(ks) && n <= |ks|
    ensures Across(rows + [row], usage, of, ks, n)
         == Across(rows, usage, of, ks, n).Plus(
              if exists i :: 0 <= i < n && ks[i] == of(row) then TallyOf(row, usage) else Zero)
  {
    hide TallyOf, SessionReport.Sum, Tally.Plus;
    PlusSwap(Zero, Zero, Zero, Zero);
    if n > 0 {
      var k := ks[n - 1];
      AcrossNext(rows, usage, of, ks, n - 1, row);
      GroupNext(rows, usage, row, of, k);
      var x := if exists i :: 0 <= i < n - 1 && ks[i] == of(row) then TallyOf(row, usage) else Zero;
      var y := if k == of(row) then TallyOf(row, usage) else Zero;
      PlusSwap(Across(rows, usage, of, ks, n - 1), x, SessionReport.Sum(rows, usage, In(of, k)), y);
      PlusSwap(x, x, x, x);
      PlusSwap(y, y, y, y);
    }
  }

  lemma {:induction false} AcrossNothing<K>(rows: seq<EventRow>, usage: UsageByKey, of: EventRow -> K, ks: seq<K>,
                                            n: nat)
    requires rows == [] && n <= |ks|
    ensures Across(rows, usage, of, ks, n) == Zero
  {
    hide SessionReport.Sum, Tally.Plus;
    PlusSwap(Zero, Zero, Zero, Zero);
    if n > 0 {
      AcrossNothing(rows, usage, of, ks, n - 1);
      NoneOf(rows, usage, In(of, ks[n - 1]));
    }
  }

  lemma {:induction false} GroupsConserve<K>(rows: seq<EventRow>, usage: UsageByKey, of: EventRow -> K, ks: seq<K>)
    requires NoDuplicates(ks) && forall i :: 0 <= i < |rows| ==> of(rows[i]) in ks
    ensures Across(rows, usage, of, ks, |ks|) == SessionReport.Sum(rows, usage, All())
  {
    hide SessionReport.Sum, Across, TallyOf, Tally.Plus;
    if rows == [] {
      AcrossNothing(rows, usage, of, ks, |ks|);
      NoneOf(rows, usage, All());
    } else {
      var init, last := rows[..|rows| - 1], rows[|rows| - 1];
      GroupsConserve(init, usage, of, ks);
      AcrossNext(init, usage, of, ks, |ks|, last);
      SumSnoc(init, last, usage, All());
      assert rows == init + [last];
    }
  }

  function AddModel(a: ModelCounts, b: ModelCounts): ModelCounts {
    ModelCounts(a.input + b.input, a.output + b.output, a.cacheRead + b.cacheRead, a.cacheWrite + b.cacheWrite,
                a.reasoning + b.reasoning, a.saved + b.saved, a.executions + b.executions, a.hits + b.hits)
  }

  function SumModels(byModel: seq<ModelUsage>, n: nat): ModelCounts
    requires n <= |byModel|
  {
    if n == 0 then NoModelCounts else AddModel(SumModels(byModel, n - 1), byModel[n - 1].counts)
  }

  function AddDay(a: DayCounts, b: DayCounts): DayCounts {
    DayCounts(a.invocations + b.invocations, a.executions + b.executions, a.hits + b.hits)
  }

  function SumDays(byDay: seq<DayActivity>, n: nat): DayCounts
    requires n <= |byDay|
  {
    if n == 0 then NoDayCounts else AddDay(SumDays(byDay, n - 1), byDay[n - 1].counts)
  }

  lemma {:induction false} ModelsAcross(rows: seq<EventRow>, usage: UsageByKey, byModel: seq<ModelUsage>, n: nat)
    requires forall i :: 0 <= i < |byModel| ==>
      byModel[i].counts == ModelPart(SessionReport.Sum(rows, usage, In(ModelOf, byModel[i].key)))
    requires n <= |byModel|
    ensures SumModels(byModel, n) == ModelPart(Across(rows, usage, ModelOf, ModelKeys(byModel), n))
  {
    if n > 0 {
      ModelsAcross(rows, usage, byModel, n - 1);
      hide SessionReport.Sum;
      ModelPartAdds(Across(rows, usage, ModelOf, ModelKeys(byModel), n - 1),
                    SessionReport.Sum(rows, usage, In(ModelOf, byModel[n - 1].key)));
    }
  }

  lemma {:induction false} DaysAcross(rows: seq<EventRow>, usage: UsageByKey, byDay: seq<DayActivity>, n: nat)
    requires forall i :: 0 <= i < |byDay| ==>
      byDay[i].counts == DayPart(SessionReport.Sum(rows, usage, In(DayOf, byDay[i].day)))
    requires n <= |byDay|
    ensures SumDays(byDay, n) == DayPart(Across(rows, usage, DayOf, Days(byDay), n))
  {
    if n > 0 {
      DaysAcross(rows, usage, byDay, n - 1);
      hide SessionReport.Sum;
    }
  }

  lemma {:induction false} AscendingIsDistinct<K>(s: seq<K>, leq: (K, K) -> bool)
    requires StrictlyAscending(s, leq)
    ensures NoDuplicates(s)
  {
  }

  /**
   * The per-model entries add up to the report's executions and hits and to every token any executed or replayed row
   * reported; the per-day entries add up to its invocations, executions and hits.
   */
  lemma {:induction false} ReportConserves(rows: seq<EventRow>, usage: UsageByKey, r: Report)
    requires IsReport(rows, usage, r)
    ensures SumModels(r.byModel, |r.byModel|) == ModelPart(SessionReport.Sum(rows, usage, All()))
    ensures SumModels(r.byModel, |r.byModel|).executions == r.executions
    ensures SumModels(r.byModel, |r.byModel|).hits == r.hits
    ensures SumDays(r.byDay, |r.byDay|) == DayCounts(r.invocations, r.executions, r.hits)
  {
    hide SessionReport.Sum, Across;
    forall i | 0 <= i < |rows|
      ensures ModelOf(rows[i]) in ModelKeys(r.byModel) && DayOf(rows[i]) in Days(r.byDay)
    {
      assert Occurs(rows, ModelOf, ModelOf(rows[i])) && Occurs(rows, DayOf, DayOf(rows[i]));
    }
    AscendingIsDistinct(ModelKeys(r.byModel), ModelLeq);
    AscendingIsDistinct(Days(r.byDay), Leq);
    ModelsAcross(rows, usage, r.byModel, |r.byModel|);
    DaysAcross(rows, usage, r.byDay, |r.byDay|);
    GroupsConserve(rows, usage, ModelOf, ModelKeys(r.byModel));
    GroupsConserve(rows, usage, DayOf, Days(r.byDay));
  }

  /** The span runs from the first day with a row to the last. */
  lemma {:induction false} SpanIsTight(rows: seq<EventRow>, usage: UsageByKey, r: Report, i: nat)
    requires IsReport(rows, usage, r) && i < |rows|
    ensures r.spanStart.Some? && r.spanEnd.Some?
    ensures Leq(r.spanStart.value, DayOf(rows[i])) && Leq(DayOf(rows[i]), r.spanEnd.value)
    ensures Occurs(rows, DayOf, r.spanStart.value) && Occurs(rows, DayOf, r.spanEnd.value)
  {
    hide SessionReport.Sum, ModelsExact, TotalsExact, Leq, DayOf;
    var days := Days(r.byDay);
    assert Occurs(rows, DayOf, DayOf(rows[i]));
    var j :| 0 <= j < |days| && days[j] == DayOf(rows[i]);
    LeqTotal(days[j], days[j]);
    assert days[0] in days && days[|days| - 1] in days;
  }

  lemma {:induction false} SameModels(a: seq<EventRow>, b: seq<EventRow>, usage: UsageByKey, ms: seq<ModelUsage>,
                                      ns: seq<ModelUsage>)
    requires multiset(a) == multiset(b) && ModelsExact(a, usage, ms) && ModelsExact(b, usage, ns)
    ensures ms == ns
  {
    hide SessionReport.Sum;
    forall m
      ensures Occurs(a, ModelOf, m) <==> Occurs(b, ModelOf, m)
    {
      HasIgnoresOrder(a, b, ModelOf, m);
    }
    ModelLeqIsTotalOrder();
    AscendingUnique(ModelKeys(ms), ModelKeys(ns), ModelLeq);
    forall i | 0 <= i < |ms|
      ensures ms[i] == ns[i]
    {
      assert ModelKeys(ms)[i] == ModelKeys(ns)[i];
      SumIgnoresOrder(a, b, usage, In(ModelOf, ms[i].key));
    }
  }

  lemma {:induction false} SameDays(a: seq<EventRow>, b: seq<EventRow>, usage: UsageByKey, ms: seq<DayActivity>,
                                    ns: seq<DayActivity>)
    requires multiset(a) == multiset(b) && DaysExact(a, usage, ms) && DaysExact(b, usage, ns)
    ensures ms == ns
  {
    hide SessionReport.Sum;
    forall d
      ensures Occurs(a, DayOf, d) <==> Occurs(b, DayOf, d)
    {
      HasIgnoresOrder(a, b, DayOf, d);
    }
    LeqIsTotalOrder();
    AscendingUnique(Days(ms), Days(ns), Leq);
    forall i | 0 <= i < |ms|
      ensures ms[i] == ns[i]
    {
      assert Days(ms)[i] == Days(ns)[i];
      SumIgnoresOrder(a, b, usage, In(DayOf, ms[i].day));
    }
  }

  lemma {:induction false} HasIgnoresOrder<K>(a: seq<EventRow>, b: seq<EventRow>, of: EventRow -> K, k: K)
    requires multiset(a) == multiset(b)
    ensures Occurs(a, of, k) <==> Occurs(b, of, k)
  {
    if i :| 0 <= i < |a| && of(a[i]) == k {
      assert a[i] in multiset(b);
    }
    if i :| 0 <= i < |b| && of(b[i]) == k {
      assert b[i] in multiset(a);
    }
  }

  /** Any reordering of the events gives the same report. */
  lemma {:induction false} ReportIgnoresOrder(a: seq<EventRow>, b: seq<EventRow>, usage: UsageByKey, r: Report,
                                              s: Report)
    requires multiset(a) == multiset(b) && IsReport(a, usage, r) && IsReport(b, usage, s)
    ensures r == s
  {
    SumIgnoresOrder(a, b, usage, All());
    SameModels(a, b, usage, r.byModel, s.byModel);
    SameDays(a, b, usage, r.byDay, s.byDay);
    hide SessionReport.Sum, ModelsExact, DaysExact;
  }

  lemma {:induction false} ModelPartAdds(s: Tally, t: Tally)
    ensures ModelPart(s.Plus(t)) == AddModel(ModelPart(s), ModelPart(t))
  {
  }

  /** What the report says of one model; a model it does not list counts for nothing. */
  ghost function ModelCountsFor(byModel: seq<ModelUsage>, m: ModelKey): ModelCounts {
    if i: nat :| i < |byModel| && byModel[i].key == m then byModel[i].counts else NoModelCounts
  }

  /** What the report says of one day. */
  ghost function DayCountsFor(byDay: seq<DayActivity>, d: Text): DayCounts {
    if i: nat :| i < |byDay| && byDay[i].day == d then byDay[i].counts else NoDayCounts
  }

  lemma {:induction false} ModelCountsAre(rows: seq<EventRow>, usage: UsageByKey, byModel: seq<ModelUsage>, m: ModelKey)
    requires ModelsExact(rows, usage, byModel)
    ensures ModelCountsFor(byModel, m) == ModelPart(SessionReport.Sum(rows, usage, In(ModelOf, m)))
    ensures m in ModelKeys(byModel) <==> Occurs(rows, ModelOf, m)
  {
    hide SessionReport.Sum;
    if i: nat :| i < |byModel| && byModel[i].key == m {
    } else {
      assert m !in ModelKeys(byModel);
      NoneOf(rows, usage, In(ModelOf, m));
    }
  }

  lemma {:induction false} DayCountsAre(rows: seq<EventRow>, usage: UsageByKey, byDay: seq<DayActivity>, d: Text)
    requires DaysExact(rows, usage, byDay)
    ensures DayCountsFor(byDay, d) == DayPart(SessionReport.Sum(rows, usage, In(DayOf, d)))
    ensures d in Days(byDay) <==> Occurs(rows, DayOf, d)
  {
    hide SessionReport.Sum;
    if i: nat :| i < |byDay| && byDay[i].day == d {
    } else {
      assert d !in Days(byDay);
      NoneOf(rows, usage, In(DayOf, d));
    }
  }

  lemma {:induction false} OccursInEither<K>(a: seq<EventRow>, b: seq<EventRow>, of: EventRow -> K, k: K)
    ensures Occurs(a + b, of, k) <==> Occurs(a, of, k) || Occurs(b, of, k)
  {
    var both := a + b;
    if i :| 0 <= i < |a| && of(a[i]) == k {
      assert of(both[i]) == k;
    }
    if i :| 0 <= i < |b| && of(b[i]) == k {
      assert of(both[|a| + i]) == k;
    }
  }

  lemma {:induction false} ModelAdds(a: seq<EventRow>, b: seq<EventRow>, usage: UsageByKey, r: seq<ModelUsage>,
                                     s: seq<ModelUsage>, both: seq<ModelUsage>, m: ModelKey)
    requires ModelsExact(a, usage, r) && ModelsExact(b, usage, s) && ModelsExact(a + b, usage, both)
    ensures m in ModelKeys(both) <==> m in ModelKeys(r) || m in ModelKeys(s)
    ensures ModelCountsFor(both, m) == AddModel(ModelCountsFor(r, m), ModelCountsFor(s, m))
  {
    hide SessionReport.Sum, ModelsExact, ModelPart, AddModel, ModelCountsFor;
    ModelCountsAre(a, usage, r, m);
    ModelCountsAre(b, usage, s, m);
    ModelCountsAre(a + b, usage, both, m);
    OccursInEither(a, b, ModelOf, m);
    SumIsHomomorphic(a, b, usage, In(ModelOf, m));
    ModelPartAdds(SessionReport.Sum(a, usage, In(ModelOf, m)), SessionReport.Sum(b, usage, In(ModelOf, m)));
  }

  lemma {:induction false} DayAdds(a: seq<EventRow>, b: seq<EventRow>, usage: UsageByKey, r: seq<DayActivity>,
                                   s: seq<DayActivity>, both: seq<DayActivity>, d: Text)
    requires DaysExact(a, usage, r) && DaysExact(b, usage, s) && DaysExact(a + b, usage, both)
    ensures d in Days(both) <==> d in Days(r) || d in Days(s)
    ensures DayCountsFor(both, d) == AddDay(DayCountsFor(r, d), DayCountsFor(s, d))
  {
    hide SessionReport.Sum, DaysExact, DayCountsFor;
    DayCountsAre(a, usage, r, d);
    DayCountsAre(b, usage, s, d);
    DayCountsAre(a + b, usage, both, d);
    OccursInEither(a, b, DayOf, d);
    SumIsHomomorphic(a, b, usage, In(DayOf, d));
  }

  /**
   * Reporting two sessions together adds their reports entry by entry: it lists the models and the days that either
   * lists, and every model's and every day's counts, like the totals, are the sums of the two.
   */
  lemma {:induction false} ReportsAdd(a: seq<EventRow>, b: seq<EventRow>, usage: UsageByKey, r: Report, s: Report,
                                      both: Report)
    requires IsReport(a, usage, r) && IsReport(b, usage, s) && IsReport(a + b, usage, both)
    ensures both.invocations == r.invocations + s.invocations && both.executions == r.executions + s.executions
    ensures both.hits == r.hits + s.hits && both.unknownUsage == r.unknownUsage + s.unknownUsage
    ensures forall m :: m in ModelKeys(both.byModel) <==> m in ModelKeys(r.byModel) || m in ModelKeys(s.byModel)
    ensures forall m ::
      ModelCountsFor(both.byModel, m) == AddModel(ModelCountsFor(r.byModel, m), ModelCountsFor(s.byModel, m))
    ensures forall d :: d in Days(both.byDay) <==> d in Days(r.byDay) || d in Days(s.byDay)
    ensures forall d ::
      DayCountsFor(both.byDay, d) == AddDay(DayCountsFor(r.byDay, d), DayCountsFor(s.byDay, d))
  {
    SumIsHomomorphic(a, b, usage, All());
    hide SessionReport.Sum, ModelsExact, DaysExact, ModelCountsFor, DayCountsFor, AddModel, AddDay;
    forall m
      ensures m in ModelKeys(both.byModel) <==> m in ModelKeys(r.byModel) || m in ModelKeys(s.byModel)
      ensures ModelCountsFor(both.byModel, m) == AddModel(ModelCountsFor(r.byModel, m), ModelCountsFor(s.byModel, m))
    {
      ModelAdds(a, b, usage, r.byModel, s.byModel, both.byModel, m);
    }
    forall d
      ensures d in Days(both.byDay) <==> d in Days(r.byDay) || d in Days(s.byDay)
      ensures DayCountsFor(both.byDay, d) == AddDay(DayCountsFor(r.byDay, d), DayCountsFor(s.byDay, d))
    {
      DayAdds(a, b, usage, r.byDay, s.byDay, both.byDay, d);
    }
  }

  // ---- the service's journal, reported ----

  /** The journal rows of a run's events, with whatever timestamps, clients and models they carry. */
  /** Each list of a report is in order: clients by code points, then models, and days by code points. */
  lemma {:induction false} ReportIsSorted(rows: seq<EventRow>, usage: UsageByKey, r: Report)
    requires IsReport(rows, usage, r)
    ensures forall i, j :: 0 <= i < j < |r.byModel| ==>
      var a, b := r.byModel[i].key, r.byModel[j].key;
      a != b && if a.client == b.client then Precedes(a.model, b.model) else Precedes(a.client, b.client)
    ensures forall i, j :: 0 <= i < j < |r.byDay| ==>
      r.byDay[i].day != r.byDay[j].day && Precedes(r.byDay[i].day, r.byDay[j].day)
  {
    forall i, j | 0 <= i < j < |r.byModel|
      ensures var a, b := r.byModel[i].key, r.byModel[j].key;
        a != b && if a.client == b.client then Precedes(a.model, b.model) else Precedes(a.client, b.client)
    {
      var a, b := r.byModel[i].key, r.byModel[j].key;
      assert ModelKeys(r.byModel)[i] == a && ModelKeys(r.byModel)[j] == b;
      LeqIsLexicographic(a.model, b.model);
      LeqIsLexicographic(a.client, b.client);
    }
    forall i, j | 0 <= i < j < |r.byDay|
      ensures r.byDay[i].day != r.byDay[j].day && Precedes(r.byDay[i].day, r.byDay[j].day)
    {
      assert Days(r.byDay)[i] == r.byDay[i].day && Days(r.byDay)[j] == r.byDay[j].day;
      LeqIsLexicographic(r.byDay[i].day, r.byDay[j].day);
    }
  }

  ghost predicate Precedes(a: Text, b: Text) {
    exists n: nat :: Before(a, b, n)
  }

  /** The column holds the reported number when the row counts and the call reported one, and else nothing. */
  predicate Holds(column: nat, counts: bool, reported: Option<nat>) {
    column == if counts && reported != None then reported.value else 0
  }

  /** What the row's call reported: nothing without a key, or when no usage is known for it. */
  function Reported(row: EventRow, usage: UsageByKey): TokenUsage {
    if row.executionKey == None || row.executionKey == Some(Key("")) || row.executionKey.value !in usage
    then TokenUsage(None, None, None, None, None) else usage[row.executionKey.value]
  }

  /**
   * A run counts the tokens its call reported, or as unknown when neither input nor output was; a replay saves them.
   */
  predicate CountsFor(row: EventRow, u: TokenUsage, executions: nat, hits: nat, unknown: nat, c: ModelCounts) {
    var ran := row.kind in {Record, Run, WouldHit, WouldMiss};
    var known := u.input != None || u.output != None;
    && executions == (if ran then 1 else 0) && hits == (if row.kind == Hit then 1 else 0)
    && unknown == (if ran && !known then 1 else 0)
    && c.executions == executions && c.hits == hits
    && Holds(c.input, ran && known, u.input) && Holds(c.output, ran && known, u.output)
    && Holds(c.cacheRead, ran && known, u.cacheRead) && Holds(c.cacheWrite, ran && known, u.cacheWrite)
    && Holds(c.reasoning, ran && known, u.reasoning)
    && (row.kind == Hit && u.input != None && u.output != None ==> c.saved == u.input.value + u.output.value)
    && (row.kind == Hit && u.input != None && u.output == None ==> c.saved == u.input.value)
    && (row.kind == Hit && u.input == None && u.output != None ==> c.saved == u.output.value)
    && (row.kind != Hit || !known ==> c.saved == 0)
  }

  lemma {:induction false} TallyCounts(row: EventRow, usage: UsageByKey)
    ensures var t := TallyOf(row, usage);
      CountsFor(row, Reported(row, usage), t.executions, t.hits, t.unknown, ModelPart(t)) && t.invocations == 1
  {
  }

  /** The first ten code points of the row's time, or as many as there are. */
  predicate IsDayOf(day: Text, row: EventRow) {
    && (row.ts == None ==> day == [])
    && (row.ts != None ==> |day| == (if |row.ts.value| < 10 then |row.ts.value| else 10) && day <= row.ts.value)
  }

  lemma {:induction false} DayIs(row: EventRow)
    ensures IsDayOf(DayOf(row), row)
  {
  }

  lemma {:induction false} OneRowSums(row: EventRow, usage: UsageByKey, r: Report)
    requires IsReport([row], usage, r)
    ensures var t := TallyOf(row, usage);
      && r.invocations == t.invocations && r.executions == t.executions
      && r.hits == t.hits && r.unknownUsage == t.unknown
      && r.byModel == [ModelUsage(ModelKey(row.client, row.model), ModelPart(t))]
      && r.byDay == [DayActivity(DayOf(row), DayPart(t))]
  {
    SumOfOne(row, usage, All());
    OneModel(row, usage, r.byModel);
    OneDay(row, usage, r.byDay);
    hide TallyOf, ModelsExact, DaysExact, SessionReport.Sum, DayOf, ModelPart, DayPart;
  }

  lemma {:induction false} SumOfOne(row: EventRow, usage: UsageByKey, p: EventRow -> bool)
    requires p(row)
    ensures SessionReport.Sum([row], usage, p) == TallyOf(row, usage)
  {
    var none: seq<EventRow> := [];
    assert none + [row] == [row];
    SumSnoc(none, row, usage, p);
    assert SessionReport.Sum(none, usage, p) == Zero;
    NothingPlus(TallyOf(row, usage));
    hide *;
    assert Term(row, usage, p) == TallyOf(row, usage) by {
      TermOf(row, usage, p);
    }
  }

  lemma {:induction false} TermOf(row: EventRow, usage: UsageByKey, p: EventRow -> bool)
    requires p(row)
    ensures Term(row, usage, p) == TallyOf(row, usage)
  {
    hide TallyOf;
  }

  lemma {:induction false} NothingPlus(t: Tally)
    ensures Zero.Plus(t) == t
  {
  }

  lemma {:induction false} OneModel(row: EventRow, usage: UsageByKey, byModel: seq<ModelUsage>)
    requires ModelsExact([row], usage, byModel)
    ensures byModel == [ModelUsage(ModelKey(row.client, row.model), ModelPart(TallyOf(row, usage)))]
  {
    hide SessionReport.Sum, TallyOf, ModelPart, Occurs, ModelLeq;
    OneOccurs(row);
    OneKey(ModelKeys(byModel), ModelLeq, ModelOf(row));
    assert byModel[0].key == ModelKeys(byModel)[0];
    assert In(ModelOf, ModelOf(row))(row);
    SumOfOne(row, usage, In(ModelOf, ModelOf(row)));
    assert byModel[0] == ModelUsage(ModelKey(row.client, row.model), ModelPart(TallyOf(row, usage)));
  }

  lemma {:induction false} OneDay(row: EventRow, usage: UsageByKey, byDay: seq<DayActivity>)
    requires DaysExact([row], usage, byDay)
    ensures byDay == [DayActivity(DayOf(row), DayPart(TallyOf(row, usage)))]
  {
    hide SessionReport.Sum, TallyOf, DayPart, Occurs, Leq, DayOf;
    OneOccurs(row);
    OneKey(Days(byDay), Leq, DayOf(row));
    assert byDay[0].day == Days(byDay)[0];
    assert In(DayOf, DayOf(row))(row);
    SumOfOne(row, usage, In(DayOf, DayOf(row)));
    assert byDay[0] == DayActivity(DayOf(row), DayPart(TallyOf(row, usage)));
  }

  lemma {:induction false} OneOccurs(row: EventRow)
    ensures forall m :: Occurs([row], ModelOf, m) <==> m == ModelOf(row)
    ensures forall d :: Occurs([row], DayOf, d) <==> d == DayOf(row)
  {
    assert [row][0] == row;
    hide DayOf, ModelOf;
  }

  /** What one row counts for, column by column. With `ReportsAdd` this fixes every report. */
  lemma {:induction false} OneRowReport(row: EventRow, usage: UsageByKey, r: Report)
    requires IsReport([row], usage, r)
    ensures r.invocations == 1 && |r.byModel| == 1 && r.byModel[0].key == ModelKey(row.client, row.model)
    ensures CountsFor(row, Reported(row, usage), r.executions, r.hits, r.unknownUsage, r.byModel[0].counts)
    ensures |r.byDay| == 1 && r.byDay[0].counts == DayCounts(1, r.executions, r.hits) && IsDayOf(r.byDay[0].day, row)
    ensures r.spanStart == Some(r.byDay[0].day) && r.spanEnd == Some(r.byDay[0].day)
  {
    OneRowSums(row, usage, r);
    TallyCounts(row, usage);
    DayIs(row);
    hide TallyOf, CountsFor, IsDayOf, ModelsExact, DaysExact, TotalsExact, Reported;
  }

  lemma {:induction false} OneKey<K(!new)>(keys: seq<K>, leq: (K, K) -> bool, k: K)
    requires StrictlyAscending(keys, leq) && forall x :: x in keys <==> x == k
    ensures keys == [k]
  {
    assert k in keys;
    TwoDiffer(keys, leq);
    forall i | 0 <= i < |keys|
      ensures keys[i] == k
    {
      assert keys[i] in keys;
    }
    hide StrictlyAscending;
  }

  lemma {:induction false} TwoDiffer<K(!new)>(keys: seq<K>, leq: (K, K) -> bool)
    requires StrictlyAscending(keys, leq)
    ensures |keys| > 1 ==> keys[0] != keys[1]
  {
    assert |keys| > 1 ==> leq(keys[0], keys[1]) && keys[0] != keys[1];
  }

  predicate RowsOf(rows: seq<EventRow>, events: seq<Event>) {
    |rows| == |events| && forall i :: 0 <= i < |rows| ==> rows[i].kind == events[i].kind
  }

  lemma {:induction false} RowCounts(row: EventRow, usage: UsageByKey)
    ensures var t := TallyOf(row, usage);
      && t.invocations == 1
      && t.executions == (if row.kind in ClientKinds then 1 else 0)
      && t.hits == (if row.kind in {Hit} then 1 else 0)
  {
  }

  lemma {:induction false} RowsCount(rows: seq<EventRow>, events: seq<Event>, usage: UsageByKey)
    requires RowsOf(rows, events)
    ensures var t := SessionReport.Sum(rows, usage, All());
      && t.invocations == |events|
      && t.executions == CountEvents(events, ClientKinds)
      && t.hits == CountEvents(events, {Hit})
  {
    hide SessionReport.Sum, TallyOf;
    if rows == [] {
      NoneOf(rows, usage, All());
    } else {
      hide CountEvents;
      var n := |rows| - 1;
      RowsCount(rows[..n], events[..n], usage);
      SumSnoc(rows[..n], rows[n], usage, All());
      RowCounts(rows[n], usage);
      CountAppend(events[..n], [events[n]], ClientKinds);
      CountAppend(events[..n], [events[n]], {Hit});
      assert rows == rows[..n] + [rows[n]] && events == events[..n] + [events[n]];
    }
  }

  /**
   * The report of a whole run of the service: its executions are the client runs that returned, its hits the replays.
   */
  lemma {:induction false} ReportAccountsForTheRun(start: Cache, inputs: Inputs, run: seq<Moment>, rows: seq<EventRow>,
                                                   usage: UsageByKey, r: Report)
    requires IsRun(start, inputs, run) && RowsOf(rows, EventsOf(run)) && IsReport(rows, usage, r)
    ensures r.executions == CountMoments(run, RanAndReturned)
    ensures r.hits == CountMoments(run, (m: Moment) => Replayed(m.step))
    ensures r.invocations == |run| - CountMoments(run, (m: Moment) => m.step.result.Raised?)
  {
    RowsCount(rows, EventsOf(run), usage);
    JournalAccounts(start, inputs, run);
    hide SessionReport.Sum, IsRun, EventsOf, CountEvents, ModelsExact, DaysExact;
  }
}
