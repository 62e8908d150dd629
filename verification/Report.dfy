/** The totals of the report (internal/report/report.go) and the control identities behind them. */
module Report {
  import opened Outcome
  import opened Domain
  import opened Money
  import opened Sequences
  import opened Folds
  import opened Engine
  import opened StrictRows
  import opened MapRun
  import opened Gate
  import opened StrictVerification

  // ----- Exact sums over the targets of a summary

  ghost function SetSum(f: string -> int, s: set<string>): int {
    if s == {} then 0 else var x :| x in s; f(x) + SetSum(f, s - {x})
  }

  /** A sum over a set does not depend on the order its elements are taken in. */
  lemma {:induction false} SetSumTake(f: string -> int, s: set<string>, x: string)
    requires x in s
    ensures SetSum(f, s) == f(x) + SetSum(f, s - {x})
    decreases s
  {
    var y :| y in s && SetSum(f, s) == f(y) + SetSum(f, s - {y});
    if y != x {
      SetSumTake(f, s - {y}, x);
      SetSumTake(f, s - {x}, y);
      assert s - {x} - {y} == s - {y} - {x};
    }
  }

  lemma {:induction false} SetSumAgree(f: string -> int, g: string -> int, s: set<string>)
    requires forall x | x in s :: f(x) == g(x)
    ensures SetSum(f, s) == SetSum(g, s)
    decreases s
  {
    if s != {} {
      var x :| x in s;
      SetSumTake(f, s, x);
      SetSumTake(g, s, x);
      SetSumAgree(f, g, s - {x});
    }
  }

  lemma {:induction false} SetSumAdd(u: string -> int, v: string -> int, w: string -> int, s: set<string>)
    requires forall x | x in s :: u(x) == v(x) + w(x)
    ensures SetSum(u, s) == SetSum(v, s) + SetSum(w, s)
    decreases s
  {
    if s != {} {
      var x :| x in s;
      SetSumTake(u, s, x);
      SetSumTake(v, s, x);
      SetSumTake(w, s, x);
      SetSumAdd(u, v, w, s - {x});
    }
  }

  lemma {:induction false} SetSumZero(f: string -> int, s: set<string>)
    requires forall x | x in s :: f(x) == 0
    ensures SetSum(f, s) == 0
    decreases s
  {
    if s != {} {
      var x :| x in s;
      SetSumTake(f, s, x);
      SetSumZero(f, s - {x});
    }
  }

  /** Elements that weigh nothing may be added. */
  lemma {:induction false} SetSumWiden(f: string -> int, s: set<string>, extra: set<string>)
    requires forall x | x in extra - s :: f(x) == 0
    ensures SetSum(f, s + extra) == SetSum(f, s)
    decreases extra
  {
    if extra <= s {
      assert s + extra == s;
    } else {
      var x :| x in extra && x !in s;
      SetSumTake(f, s + extra, x);
      assert s + extra - {x} == s + (extra - {x});
      SetSumWiden(f, s, extra - {x});
    }
  }

  function BucketsOf(summary: Summary, source: Source): string -> int {
    (t: string) => SummaryAt(summary, t, source) as int
  }

  function FieldAmounts(summary: Summary, source: Source, fields: seq<string>): seq<int64> {
    seq(|fields|, i requires 0 <= i < |fields| => SummaryAt(summary, fields[i], source))
  }

  /** An order in which a map with these keys may be walked. */
  ghost predicate Walks(order: seq<string>, keys: set<string>) {
    && (forall i, j | 0 <= i < j < |order| :: order[i] != order[j])
    && (forall k :: k in order <==> k in keys)
  }

  lemma {:induction false} SomeWalk(keys: set<string>) returns (order: seq<string>)
    ensures Walks(order, keys)
    decreases keys
  {
    if keys == {} {
      order := [];
    } else {
      var k :| k in keys;
      var rest := SomeWalk(keys - {k});
      order := [k] + rest;
    }
  }

  function AmountAt(summary: Summary, source: Source): string -> int64 {
    (t: string) => SummaryAt(summary, t, source)
  }

  /** Weighing the amounts along a walk is weighing the keys. */
  lemma {:induction false} WalkSum(w: int64 -> int, u: string -> int, summary: Summary, source: Source, order: seq<string>, keys: set<string>)
    requires Walks(order, keys) && forall t | t in keys :: w(SummaryAt(summary, t, source)) == u(t)
    ensures Sum(w, FieldAmounts(summary, source, order)) == SetSum(u, keys)
    decreases |order|
  {
    if order == [] {
      assert forall k | k in keys :: k in order;
    } else {
      assert order == [order[0]] + order[1..];
      assert FieldAmounts(summary, source, order)[1..] == FieldAmounts(summary, source, order[1..]);
      WalkSum(w, u, summary, source, order[1..], keys - {order[0]});
      SetSumTake(u, keys, order[0]);
    }
  }

  /** The positive buckets alone and the negative buckets alone fit. */
  ghost predicate BucketSignsFit(summary: Summary, source: Source) {
    && InInt64(SetSum(Up(BucketsOf(summary, source)), summary.Keys))
    && InInt64(SetSum(Down(BucketsOf(summary, source)), summary.Keys))
  }

  ghost predicate EveryWalkSucceeds(summary: Summary, source: Source) {
    forall order | Walks(order, summary.Keys) :: CheckedFold(0, FieldAmounts(summary, source, order)).Ok?
  }

  lemma WalkSigns(summary: Summary, source: Source, order: seq<string>)
    requires Walks(order, summary.Keys)
    ensures Sum(Positive(), FieldAmounts(summary, source, order)) == SetSum(Up(BucketsOf(summary, source)), summary.Keys)
    ensures Sum(Negative(), FieldAmounts(summary, source, order)) == SetSum(Down(BucketsOf(summary, source)), summary.Keys)
  {
    WalkSum(Positive(), Up(BucketsOf(summary, source)), summary, source, order, summary.Keys);
    WalkSum(Negative(), Down(BucketsOf(summary, source)), summary, source, order, summary.Keys);
  }

  /** Rearranging a walk gives a walk. */
  lemma WalkRearranged(order: seq<string>, order': seq<string>, keys: set<string>)
    requires Walks(order, keys) && multiset(order') == multiset(order)
    ensures Walks(order', keys)
  {
    forall k
      ensures k in order' <==> k in keys
    {
      assert k in order' <==> k in multiset(order');
      assert k in order <==> k in multiset(order);
    }
    forall i, j | 0 <= i < j < |order'|
      ensures order'[i] != order'[j]
    {
      CountDistinct(order, order'[i]);
      CountedTwice(order', i, j);
    }
  }

  /** The buckets of a source can be added up whatever order the map yields them in exactly when the positive
      ones alone and the negative ones alone fit. */
  lemma EveryWalkSucceedsIff(summary: Summary, source: Source)
    ensures EveryWalkSucceeds(summary, source) <==> BucketSignsFit(summary, source)
  {
    if BucketSignsFit(summary, source) {
      forall order | Walks(order, summary.Keys)
        ensures CheckedFold(0, FieldAmounts(summary, source, order)).Ok?
      {
        WalkSigns(summary, source, order);
        EveryOrderSucceedsIff(FieldAmounts(summary, source, order));
      }
    }
    if EveryWalkSucceeds(summary, source) {
      var order := SomeWalk(summary.Keys);
      var xs := FieldAmounts(summary, source, order);
      assert xs == Map(AmountAt(summary, source), order);
      forall ys: seq<int64> | multiset(ys) == multiset(xs)
        ensures CheckedFold(0, ys).Ok?
      {
        var order' := RearrangeMap(AmountAt(summary, source), order, ys);
        WalkRearranged(order, order', summary.Keys);
        assert FieldAmounts(summary, source, order') == ys;
      }
      EveryOrderSucceedsIff(xs);
      WalkSigns(summary, source, order);
    }
  }

  /** Adds up one source's half of the summary. The map is walked in no fixed order; every order that succeeds
      gives the exact sum, and every order does succeed when the signs fit separately. */
  method SumSummary(summary: Summary, source: Source) returns (r: Result<int64, MoneyError>)
    ensures exists order :: Walks(order, summary.Keys) && r == CheckedFold(0, FieldAmounts(summary, source, order))
    ensures BucketSignsFit(summary, source) ==> r.Ok?
    ensures r.Ok? ==> r.value == SetSum(BucketsOf(summary, source), summary.Keys)
    ensures r.Err? ==> exists part: set<string> | part <= summary.Keys :: !InInt64(SetSum(BucketsOf(summary, source), part))
  {
    EveryWalkSucceedsIff(summary, source);
    var v: int64 := 0;
    var rest := summary.Keys;
    ghost var walked: seq<string> := [];
    while rest != {}
      invariant rest <= summary.Keys && Walks(walked, summary.Keys - rest)
      invariant CheckedFold(0, FieldAmounts(summary, source, walked)) == Ok(v)
    {
      var t :| t in rest;
      ghost var part := summary.Keys - (rest - {t});
      assert part - {t} == summary.Keys - rest;
      var next := Add(v, SummaryAt(summary, t, source));
      WalkOn(summary, source, walked, v, t, part);
      if next.Err? {
        ghost var order := FinishWalk(summary, source, walked + [t], part, next.error);
        WalkOutcome(summary, source, order);
        return Err(next.error);
      }
      v := next.value;
      rest := rest - {t};
      walked := walked + [t];
    }
    assert summary.Keys - rest == summary.Keys;
    WalkOutcome(summary, source, walked);
    return Ok(v);
  }

  /** A walk that succeeds gives the exact sum; one that fails has met a part that does not fit. */
  lemma WalkOutcome(summary: Summary, source: Source, order: seq<string>)
    requires Walks(order, summary.Keys)
    ensures var r := CheckedFold(0, FieldAmounts(summary, source, order));
      && (r.Ok? ==> r.value == SetSum(BucketsOf(summary, source), summary.Keys))
      && (r.Err? ==> exists part: set<string> | part <= summary.Keys :: !InInt64(SetSum(BucketsOf(summary, source), part)))
  {
    var xs := FieldAmounts(summary, source, order);
    FoldExact(0, xs);
    WalkSum(Identity(), BucketsOf(summary, source), summary, source, order, summary.Keys);
    if !PrefixesFit(0, xs) {
      var k :| 0 <= k <= |xs| && !InInt64(0 + Sum(Identity(), xs[..k]));
      var part := set t | t in order[..k];
      assert xs[..k] == FieldAmounts(summary, source, order[..k]);
      WalkSum(Identity(), BucketsOf(summary, source), summary, source, order[..k], part);
      assert forall t | t in part :: t in order;
    }
  }

  lemma WalkOn(summary: Summary, source: Source, walked: seq<string>, v: int64, t: string, keys: set<string>)
    requires t in keys && Walks(walked, keys - {t})
    requires CheckedFold(0, FieldAmounts(summary, source, walked)) == Ok(v)
    ensures Walks(walked + [t], keys)
    ensures CheckedFold(0, FieldAmounts(summary, source, walked + [t])) == Add(v, SummaryAt(summary, t, source))
  {
    var x := SummaryAt(summary, t, source);
    assert FieldAmounts(summary, source, walked + [t]) == FieldAmounts(summary, source, walked) + [x];
    FoldConcat(0, FieldAmounts(summary, source, walked), [x]);
    assert [x][1..] == [];
  }

  /** A walk that has failed fails, however it goes on. */
  lemma FinishWalk(summary: Summary, source: Source, walked: seq<string>, part: set<string>, e: MoneyError) returns (order: seq<string>)
    requires part <= summary.Keys && Walks(walked, part)
    requires CheckedFold(0, FieldAmounts(summary, source, walked)) == Err(e)
    ensures Walks(order, summary.Keys) && CheckedFold(0, FieldAmounts(summary, source, order)) == Err(e)
  {
    var more := SomeWalk(summary.Keys - part);
    order := walked + more;
    assert forall i | 0 <= i < |walked| :: walked[i] in walked;
    assert forall i | 0 <= i < |more| :: more[i] in more;
    assert FieldAmounts(summary, source, order) == FieldAmounts(summary, source, walked) + FieldAmounts(summary, source, more);
    FoldConcat(0, FieldAmounts(summary, source, walked), FieldAmounts(summary, source, more));
  }

  /** A subtotal: the checked fold of the listed fields, in their order. */
  method SumFields(summary: Summary, source: Source, fields: seq<string>) returns (r: Result<int64, MoneyError>)
    ensures r == CheckedFold(0, FieldAmounts(summary, source, fields))
  {
    var total: int64 := 0;
    for i := 0 to |fields|
      invariant CheckedFold(0, FieldAmounts(summary, source, fields)) ==
        CheckedFold(total, FieldAmounts(summary, source, fields[i..]))
    {
      var amounts := FieldAmounts(summary, source, fields[i..]);
      assert amounts[1..] == FieldAmounts(summary, source, fields[i + 1..]);
      var next := Add(total, SummaryAt(summary, fields[i], source));
      if next.Err? {
        return Err(next.error);
      }
      total := next.value;
    }
    return Ok(total);
  }

  // ----- Buckets add up to what rows route

  function RoutedAmount(): Contribution -> int {
    (c: Contribution) => if c.target != "" then c.amount as int else 0
  }

  function UnroutedAmount(): Contribution -> int {
    (c: Contribution) => if c.target == "" then c.amount as int else 0
  }

  /** What an in-scope row sends to summary buckets, all targets together. */
  function RoutedWeight(): MappedRow -> int {
    (m: MappedRow) => if m.row.scope == InScope then Sum(RoutedAmount(), m.contributions) else 0
  }

  /** What an in-scope row maps to no target. */
  function UnroutedWeight(): MappedRow -> int {
    (m: MappedRow) => if m.row.scope == InScope then Sum(UnroutedAmount(), m.contributions) else 0
  }

  function ContributionAt(c: Contribution): string -> int {
    (t: string) => ContributionTo(t)(c)
  }

  function ContributionsAt(cs: seq<Contribution>): string -> int {
    (t: string) => Sum(ContributionTo(t), cs)
  }

  function RowsAt(rows: seq<MappedRow>, source: Source): string -> int {
    (t: string) => Sum(SummaryWeight(t, source), rows)
  }

  predicate TargetsIn(cs: seq<Contribution>, targets: set<string>) {
    forall c | c in cs :: c.target == "" || c.target in targets
  }

  lemma {:induction false} ContributionsSpread(cs: seq<Contribution>, targets: set<string>)
    requires TargetsIn(cs, targets) && "" !in targets
    ensures SetSum(ContributionsAt(cs), targets) == Sum(RoutedAmount(), cs)
  {
    if cs == [] {
      SetSumZero(ContributionsAt(cs), targets);
    } else {
      assert cs == [cs[0]] + cs[1..];
      ContributionsSpread(cs[1..], targets);
      SetSumAdd(ContributionsAt(cs), ContributionAt(cs[0]), ContributionsAt(cs[1..]), targets);
      if cs[0].target in targets {
        SetSumTake(ContributionAt(cs[0]), targets, cs[0].target);
        SetSumZero(ContributionAt(cs[0]), targets - {cs[0].target});
      } else {
        assert cs[0] in cs;
        SetSumZero(ContributionAt(cs[0]), targets);
      }
    }
  }

  predicate SummaryRow(m: MappedRow, source: Source, targets: set<string>) {
    m.row.source == source && !Failed(m) && TargetsIn(m.contributions, targets)
  }

  function WeightsOf(m: MappedRow, source: Source): string -> int {
    (t: string) => SummaryWeight(t, source)(m)
  }

  lemma RowSpread(m: MappedRow, source: Source, targets: set<string>)
    requires SummaryRow(m, source, targets) && "" !in targets
    ensures SetSum(WeightsOf(m, source), targets) == RoutedWeight()(m)
  {
    forall t
      ensures WeightsOf(m, source)(t) == if m.row.scope == InScope then ContributionsAt(m.contributions)(t) else 0
    {
      assert WeightsOf(m, source)(t) == SummaryWeight(t, source)(m);
    }
    if m.row.scope == InScope {
      ContributionsSpread(m.contributions, targets);
      SetSumAgree(WeightsOf(m, source), ContributionsAt(m.contributions), targets);
    } else {
      SetSumZero(WeightsOf(m, source), targets);
    }
  }

  /** Summing all buckets over all rows is summing what the rows route. */
  lemma {:induction false} RowsSpread(rows: seq<MappedRow>, source: Source, targets: set<string>)
    requires "" !in targets
    requires forall m | m in rows :: SummaryRow(m, source, targets)
    ensures SetSum(RowsAt(rows, source), targets) == Sum(RoutedWeight(), rows)
  {
    if rows == [] {
      SetSumZero(RowsAt(rows, source), targets);
    } else {
      assert rows == [rows[0]] + rows[1..];
      RowsSpread(rows[1..], source, targets);
      RowSpread(rows[0], source, targets);
      SetSumAdd(RowsAt(rows, source), WeightsOf(rows[0], source), RowsAt(rows[1..], source), targets);
    }
  }

  lemma RowTargetsKnown(rules: seq<ConfigRule>, mode: Mode, row: RawRow)
    requires CheckRules(rules).None?
    ensures TargetsIn(MapRow(rules, mode, row).m.contributions, SUMMARY_FIELDS)
  {
    forall c | c in MapRow(rules, mode, row).m.contributions
      ensures c.target == "" || c.target in SUMMARY_FIELDS
    {
      TargetKnown(rules, mode, row, c);
    }
  }

  lemma SummaryRows(rules: seq<ConfigRule>, mode: Mode, rows: seq<RawRow>, source: Source)
    requires MapsAll(rules, mode, rows)
    requires forall r | r in rows :: r.source == source
    ensures forall m | m in Output(rules, mode, rows).rows :: SummaryRow(m, source, SUMMARY_FIELDS)
  {
    RunRowsPlain(rules, mode, rows, source);
    MapRowsTotals(rules, mode, rows, "t", source);
    var out := Output(rules, mode, rows).rows;
    forall m | m in out
      ensures SummaryRow(m, source, SUMMARY_FIELDS)
    {
      var i :| 0 <= i < |out| && out[i] == m;
      RecordAt(rules, mode, rows, i);
      RowTargetsKnown(rules, mode, rows[i]);
    }
  }

  /** A summary that is exact per target holds, over all its targets, what the rows route. */
  lemma ExactSummarySums(summary: Summary, rows: seq<MappedRow>, source: Source, targets: set<string>)
    requires "" !in summary && "" !in targets
    requires forall m | m in rows :: SummaryRow(m, source, targets)
    requires forall t | t != "" :: BucketsOf(summary, source)(t) == RowsAt(rows, source)(t)
    ensures SetSum(BucketsOf(summary, source), summary.Keys) == Sum(RoutedWeight(), rows)
  {
    RowsSpread(rows, source, targets);
    forall t | t in summary.Keys - targets
      ensures RowsAt(rows, source)(t) == 0
    {
      NothingElsewhere(rows, source, t, targets);
    }
    SetSumWiden(BucketsOf(summary, source), summary.Keys, targets);
    SetSumAgree(BucketsOf(summary, source), RowsAt(rows, source), summary.Keys + targets);
    SetSumWiden(RowsAt(rows, source), targets, summary.Keys);
    assert summary.Keys + targets == targets + summary.Keys;
  }

  /** All buckets of a run in which no row fails together hold exactly what its in-scope rows route. */
  lemma BucketsHoldRouted(rules: seq<ConfigRule>, mode: Mode, rows: seq<RawRow>, source: Source)
    requires MapsAll(rules, mode, rows)
    requires forall r | r in rows :: r.source == source
    ensures var out := Output(rules, mode, rows);
      SetSum(BucketsOf(out.summary, source), out.summary.Keys) == Sum(RoutedWeight(), out.rows)
  {
    var out := Output(rules, mode, rows);
    SummaryRows(rules, mode, rows, source);
    NoBlankTarget(rules, mode, rows);
    forall t | t != ""
      ensures BucketsOf(out.summary, source)(t) == RowsAt(out.rows, source)(t)
    {
      MapRowsTotals(rules, mode, rows, t, source);
    }
    ExactSummarySums(out.summary, out.rows, source, SUMMARY_FIELDS);
  }

  lemma NothingElsewhere(rows: seq<MappedRow>, source: Source, t: string, targets: set<string>)
    requires forall m | m in rows :: SummaryRow(m, source, targets)
    requires t !in targets && t != ""
    ensures Sum(SummaryWeight(t, source), rows) == 0
  {
    forall m | m in rows
      ensures SummaryWeight(t, source)(m) == 0
    {
      SumZero(ContributionTo(t), m.contributions);
    }
    SumZero(SummaryWeight(t, source), rows);
  }

  // ----- The settlement control

  lemma OneSplits(c: Contribution)
    ensures Sum(RoutedAmount(), [c]) + Sum(UnroutedAmount(), [c]) == c.amount
  {
    assert [c][1..] == [];
  }

  lemma SettlementRowSplits(rules: seq<ConfigRule>, row: RawRow)
    requires row.source == Settlement && MapRow(rules, Strict, row).error.None?
    ensures var m := MapRow(rules, Strict, row).m;
      (row.kind == Transaction ==> ActivityWeight()(row) == RoutedWeight()(m) + UnroutedWeight()(m)) &&
      (row.kind == Metadata ==> RoutedWeight()(m) == UnroutedWeight()(m) == 0)
  {
    OnlySelectorIssues(rules, Strict, row);
    var cs := MapRow(rules, Strict, row).m.contributions;
    if row.kind == Transaction {
      StrictSettlement(rules, row);
      OneSplits(cs[0]);
      assert cs == [cs[0]];
    }
  }

  function BothWeights(): MappedRow -> int {
    (m: MappedRow) => RoutedWeight()(m) + UnroutedWeight()(m)
  }

  lemma {:induction false} ActivitySplits(rules: seq<ConfigRule>, rows: seq<RawRow>)
    requires forall r | r in rows :: r.source == Settlement && MapRow(rules, Strict, r).error.None?
    ensures Sum(ActivityWeight(), rows) == Sum(BothWeights(), Map(RecordOf(MapperOf(rules, Strict)), rows))
  {
    if rows != [] {
      assert rows == [rows[0]] + rows[1..];
      ActivitySplits(rules, rows[1..]);
      SettlementRowSplits(rules, rows[0]);
      RecordsStep(MapperOf(rules, Strict), rows);
    }
  }

  /** The settlement control identity: when the header equals the settlement activity, the settlement buckets
      fall short of the header by exactly the in-scope amounts whose chosen target is empty. */
  lemma SettlementControl(rules: seq<ConfigRule>, rows: seq<RawRow>, header: int)
    requires MapRows(rules, Strict, rows).Ok?
    requires forall r | r in rows :: r.source == Settlement
    requires header == Sum(ActivityWeight(), rows)
    ensures var out := Output(rules, Strict, rows);
      SetSum(BucketsOf(out.summary, Settlement), out.summary.Keys) - header == -Sum(UnroutedWeight(), out.rows)
  {
    var out := Output(rules, Strict, rows);
    MapsAllIff(rules, Strict, rows);
    BucketsHoldRouted(rules, Strict, rows, Settlement);
    MapRowsTotals(rules, Strict, rows, "t", Settlement);
    ActivitySplits(rules, rows);
    SumAdd(BothWeights(), RoutedWeight(), UnroutedWeight(), out.rows);
  }

  /** Merging keeps the settlement half of the summary, so its sum too. */
  lemma MergedSettlementSum(merged: Summary, a: Summary, b: Summary)
    requires IsMerge(merged, a, b)
    requires forall t | t in a :: SummaryAt(a, t, Settlement) == 0
    ensures SetSum(BucketsOf(merged, Settlement), merged.Keys) == SetSum(BucketsOf(b, Settlement), b.Keys)
  {
    SetSumAgree(BucketsOf(merged, Settlement), BucketsOf(b, Settlement), merged.Keys);
    assert merged.Keys == b.Keys + a.Keys;
    SetSumWiden(BucketsOf(b, Settlement), b.Keys, a.Keys);
  }

  /** The control cell of the report: settlement buckets of the merged summary minus the header. */
  method ControlDifference(merged: Summary, header: int64) returns (r: Result<int64, MoneyError>)
    ensures r.Ok? ==> r.value == SetSum(BucketsOf(merged, Settlement), merged.Keys) - header
  {
    var activity := SumSummary(merged, Settlement);
    if activity.Err? {
      return activity;
    }
    r := Sub(activity.value, header);
  }

  /** On a strict run that passed its header check the control cell is the negated sum of the unrouted
      in-scope settlement amounts; it is zero exactly when those amounts sum to zero. */
  lemma ControlCellExplained(pr: seq<ConfigRule>, payments: seq<RawRow>, sr: seq<ConfigRule>, settlements: seq<RawRow>,
      merged: Summary, header: int)
    requires MapRows(pr, Strict, payments).Ok? && MapRows(sr, Strict, settlements).Ok?
    requires forall r | r in payments :: r.source == Payment
    requires forall r | r in settlements :: r.source == Settlement
    requires IsMerge(merged, Output(pr, Strict, payments).summary, Output(sr, Strict, settlements).summary)
    requires header == Sum(ActivityWeight(), settlements)
    ensures SetSum(BucketsOf(merged, Settlement), merged.Keys) - header ==
      -Sum(UnroutedWeight(), Output(sr, Strict, settlements).rows)
  {
    var p := Output(pr, Strict, payments);
    NoBlankTarget(pr, Strict, payments);
    forall t | t in p.summary
      ensures SummaryAt(p.summary, t, Settlement) == 0
    {
      OtherSourceEmpty(pr, Strict, payments, t);
    }
    MergedSettlementSum(merged, p.summary, Output(sr, Strict, settlements).summary);
    SettlementControl(sr, settlements, header);
  }
}
