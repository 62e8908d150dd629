/** The controls of a run before anything is stored: mergeSummary and the header check of
    cmd/recon/main.go, and the strict gate of Persist in internal/store/store.go. */
module Gate {
  import opened Outcome
  import opened Domain
  import opened Money
  import opened Sequences
  import opened MapRun
  import opened Grouping
  import opened Groups
  import opened Conservation

  /** The merged summary: payments from the first argument, settlements from the second where it has the
      target and from the first where it has not. */
  ghost predicate IsMerge(out: Summary, a: Summary, b: Summary) {
    && out.Keys == a.Keys + b.Keys
    && (forall t :: SummaryAt(out, t, Payment) == SummaryAt(a, t, Payment))
    && (forall t :: SummaryAt(out, t, Settlement) == SummaryAt(if t in b then b else a, t, Settlement))
  }

  /** The first loop: every target of `a`, with both of its sources. */
  method CopyBothSides(a: Summary) returns (out: Summary)
    ensures out.Keys == a.Keys
    ensures forall t, s | s == Payment || s == Settlement :: SummaryAt(out, t, s) == SummaryAt(a, t, s)
  {
    out := map[];
    var rest := a.Keys;
    while rest != {}
      invariant rest <= a.Keys && out.Keys == a.Keys - rest
      invariant forall t | t in out ::
        out[t] == map[Payment := SummaryAt(a, t, Payment), Settlement := SummaryAt(a, t, Settlement)]
    {
      var k :| k in rest;
      out := out[k := map[Payment := SummaryAt(a, k, Payment), Settlement := SummaryAt(a, k, Settlement)]];
      rest := rest - {k};
    }
  }

  method MergeSummary(a: Summary, b: Summary) returns (out: Summary)
    ensures IsMerge(out, a, b)
  {
    out := CopyBothSides(a);
    var rest := b.Keys;
    while rest != {}
      invariant rest <= b.Keys && out.Keys == a.Keys + (b.Keys - rest)
      invariant forall t :: SummaryAt(out, t, Payment) == SummaryAt(a, t, Payment)
      invariant forall t | t in b && t !in rest :: SummaryAt(out, t, Settlement) == SummaryAt(b, t, Settlement)
      invariant forall t | t !in b || t in rest :: SummaryAt(out, t, Settlement) == SummaryAt(a, t, Settlement)
    {
      var k :| k in rest;
      out := WithSettlement(out, k, SummaryAt(b, k, Settlement));
      rest := rest - {k};
    }
  }

  /** One step of the second loop: set the settlement half of a target, creating the target if needed. */
  function WithSettlement(out: Summary, k: string, v: int64): (r: Summary)
    ensures r.Keys == out.Keys + {k}
    ensures forall t :: SummaryAt(r, t, Payment) == SummaryAt(out, t, Payment)
    ensures forall t :: SummaryAt(r, t, Settlement) == if t == k then v else SummaryAt(out, t, Settlement)
  {
    var inner: map<Source, int64> := if k in out then out[k] else map[];
    out[k := inner[Settlement := v]]
  }

  // ----- The strict gate

  predicate SummaryAgrees(summary: Summary) {
    forall t | t in summary :: SummaryAt(summary, t, Payment) == SummaryAt(summary, t, Settlement)
  }

  predicate BucketsAgree(g: GroupValue) {
    forall t | t in g.payment.buckets.Keys + g.settlement.buckets.Keys ::
      BucketAt(g.payment.buckets, t) == BucketAt(g.settlement.buckets, t)
  }

  predicate TwoSided(g: GroupValue) {
    g.payment.rows != [] && g.settlement.rows != []
  }

  predicate AmountsAgree(g: GroupValue) {
    TwoSided(g) ==> g.payment.amount == g.settlement.amount
  }

  predicate GroupPasses(g: GroupValue) {
    g.id.scope == InScope ==> AmountsAgree(g) && BucketsAgree(g)
  }

  predicate GatePasses(summary: Summary, groups: seq<GroupValue>) {
    SummaryAgrees(summary) && forall g | g in groups :: GroupPasses(g)
  }

  datatype GateError =
    | SummaryMismatch(target: string)
    | AmountMismatch(recordRef: string)
    | BucketMismatch(recordRef: string, target: string)

  /** The gate in strict mode. Its loops run over maps in no fixed order, so which mismatch is reported may
      vary; whether one is does not, and the one reported is real. */
  method StrictGate(summary: Summary, groups: seq<GroupValue>) returns (error: Option<GateError>)
    ensures error.None? <==> GatePasses(summary, groups)
    ensures error.Some? && error.value.SummaryMismatch? ==>
      SummaryAt(summary, error.value.target, Payment) != SummaryAt(summary, error.value.target, Settlement)
    ensures error.Some? && error.value.AmountMismatch? ==>
      exists g :: g in groups && g.id.scope == InScope && g.id.key == error.value.recordRef && !AmountsAgree(g)
    ensures error.Some? && error.value.BucketMismatch? ==>
      exists g :: g in groups && g.id.scope == InScope && g.id.key == error.value.recordRef &&
        BucketAt(g.payment.buckets, error.value.target) != BucketAt(g.settlement.buckets, error.value.target)
  {
    var targets := summary.Keys;
    while targets != {}
      invariant targets <= summary.Keys
      invariant forall t | t in summary && t !in targets ::
        SummaryAt(summary, t, Payment) == SummaryAt(summary, t, Settlement)
    {
      var t :| t in targets;
      if SummaryAt(summary, t, Payment) != SummaryAt(summary, t, Settlement) {
        return Some(SummaryMismatch(t));
      }
      targets := targets - {t};
    }
    for i := 0 to |groups|
      invariant forall j | 0 <= j < i :: GroupPasses(groups[j])
    {
      var g := groups[i];
      assert g in groups;
      if g.id.scope == InScope {
        if g.payment.rows != [] && g.settlement.rows != [] && g.payment.amount != g.settlement.amount {
          return Some(AmountMismatch(g.id.key));
        }
        var fields := g.payment.buckets.Keys + g.settlement.buckets.Keys;
        while fields != {}
          invariant fields <= g.payment.buckets.Keys + g.settlement.buckets.Keys
          invariant forall t | t in g.payment.buckets.Keys + g.settlement.buckets.Keys && t !in fields ::
            BucketAt(g.payment.buckets, t) == BucketAt(g.settlement.buckets, t)
        {
          var t :| t in fields;
          if BucketAt(g.payment.buckets, t) != BucketAt(g.settlement.buckets, t) {
            return Some(BucketMismatch(g.id.key, t));
          }
          fields := fields - {t};
        }
      }
    }
    return None;
  }

  /** What the gate and the summary are computed from, in any mode: both runs of the engine, their outer join
      and their merged summary. */
  ghost predicate Reconciliation(pr: seq<ConfigRule>, payments: seq<RawRow>, sr: seq<ConfigRule>, settlements: seq<RawRow>,
      mode: Mode, groups: seq<GroupValue>, merged: Summary)
  {
    && MapRows(pr, mode, payments).Ok? && MapRows(sr, mode, settlements).Ok?
    && (forall r | r in payments :: r.source == Payment) && (forall r | r in settlements :: r.source == Settlement)
    && IsGrouping(Output(pr, mode, payments).rows, Output(sr, mode, settlements).rows, groups)
    && IsMerge(merged, Output(pr, mode, payments).summary, Output(sr, mode, settlements).summary)
  }

  /** When every in-scope group has equal buckets on both sides, the two halves of the merged summary differ by
      exactly the partial contributions of failed rows. */
  lemma GroupsForceSummary(pr: seq<ConfigRule>, payments: seq<RawRow>, sr: seq<ConfigRule>, settlements: seq<RawRow>,
      mode: Mode, groups: seq<GroupValue>, merged: Summary, t: string)
    requires Reconciliation(pr, payments, sr, settlements, mode, groups, merged) && t != ""
    requires forall g | g in groups && g.id.scope == InScope :: BucketsAgree(g)
    ensures SummaryAt(merged, t, Payment) + Sum(FailedWeight(t), Output(pr, mode, payments).rows) ==
      SummaryAt(merged, t, Settlement) + Sum(FailedWeight(t), Output(sr, mode, settlements).rows)
  {
    MergedBuckets(pr, payments, sr, settlements, mode, groups, merged, t);
    SumAgree(GroupBucket(t, true), GroupBucket(t, false), groups);
  }

  /** So when no row fails, the summary half of the gate cannot fail. */
  lemma GroupsForceAgreement(pr: seq<ConfigRule>, payments: seq<RawRow>, sr: seq<ConfigRule>, settlements: seq<RawRow>,
      mode: Mode, groups: seq<GroupValue>, merged: Summary)
    requires Reconciliation(pr, payments, sr, settlements, mode, groups, merged)
    requires MapsAll(pr, mode, payments) && MapsAll(sr, mode, settlements)
    requires forall g | g in groups && g.id.scope == InScope :: BucketsAgree(g)
    ensures SummaryAgrees(merged)
  {
    forall t | t in merged
      ensures SummaryAt(merged, t, Payment) == SummaryAt(merged, t, Settlement)
    {
      if t == "" {
        NoBlankTarget(pr, mode, payments);
        NoBlankTarget(sr, mode, settlements);
      } else {
        GroupsForceSummary(pr, payments, sr, settlements, mode, groups, merged, t);
        NoFailedWeight(pr, mode, payments, t);
        NoFailedWeight(sr, mode, settlements, t);
      }
    }
  }

  /** Conservation into the merged summary, in any mode: the in-scope group buckets of a side hold the summary
      of its source plus the partial contributions of its failed rows. */
  lemma MergedBuckets(pr: seq<ConfigRule>, payments: seq<RawRow>, sr: seq<ConfigRule>, settlements: seq<RawRow>,
      mode: Mode, groups: seq<GroupValue>, merged: Summary, t: string)
    requires Reconciliation(pr, payments, sr, settlements, mode, groups, merged) && t != ""
    ensures Sum(GroupBucket(t, true), groups) ==
      SummaryAt(merged, t, Payment) + Sum(FailedWeight(t), Output(pr, mode, payments).rows)
    ensures Sum(GroupBucket(t, false), groups) ==
      SummaryAt(merged, t, Settlement) + Sum(FailedWeight(t), Output(sr, mode, settlements).rows)
  {
    var po, so := Output(pr, mode, payments), Output(sr, mode, settlements);
    GroupsMatchSummary(pr, mode, payments, so.rows, groups, t, true);
    GroupsMatchSummary(sr, mode, settlements, po.rows, groups, t, false);
    OtherSourceEmpty(pr, mode, payments, t);
  }

  /** When no row fails, in whichever mode, the merged summary is what the in-scope groups hold. */
  lemma MergedBucketsWhole(pr: seq<ConfigRule>, payments: seq<RawRow>, sr: seq<ConfigRule>, settlements: seq<RawRow>,
      mode: Mode, groups: seq<GroupValue>, merged: Summary, t: string)
    requires Reconciliation(pr, payments, sr, settlements, mode, groups, merged) && t != ""
    requires MapsAll(pr, mode, payments) && MapsAll(sr, mode, settlements)
    ensures SummaryAt(merged, t, Payment) == Sum(GroupBucket(t, true), groups)
    ensures SummaryAt(merged, t, Settlement) == Sum(GroupBucket(t, false), groups)
  {
    MergedBuckets(pr, payments, sr, settlements, mode, groups, merged, t);
    NoFailedWeight(pr, mode, payments, t);
    NoFailedWeight(sr, mode, settlements, t);
  }

  /** The payment run puts nothing in the settlement half of the summary. */
  lemma OtherSourceEmpty(rules: seq<ConfigRule>, mode: Mode, rows: seq<RawRow>, t: string)
    requires MapRows(rules, mode, rows).Ok? && t != ""
    requires forall r | r in rows :: r.source == Payment
    ensures SummaryAt(Output(rules, mode, rows).summary, t, Settlement) == 0
  {
    MapRowsTotals(rules, mode, rows, t, Settlement);
    MappedRowsShape(rules, mode, rows, Payment);
    SumZero(SummaryWeight(t, Settlement), Output(rules, mode, rows).rows);
  }

  lemma {:induction false} AddKeepsBlankOut(summary: Summary, source: Source, cs: seq<Contribution>)
    requires AddAllToSummary(summary, source, cs).Ok? && "" !in summary
    ensures "" !in AddAllToSummary(summary, source, cs).value
    decreases |cs|
  {
    if cs != [] {
      AddKeepsBlankOut(AddToSummary(summary, source, cs[0]).value, source, cs[1..]);
    }
  }

  lemma {:induction false} MapFromNoBlank(mapper: RowMapper, mode: Mode, rows: seq<RawRow>, acc: MapOutput)
    requires MapFrom(mapper, mode, rows, acc).Ok? && "" !in acc.summary
    ensures "" !in MapFrom(mapper, mode, rows, acc).value.summary
    decreases |rows|
  {
    if rows != [] {
      var a := mapper(rows[0]);
      if a.error.None? && rows[0].scope == InScope {
        AddKeepsBlankOut(acc.summary, rows[0].source, a.m.contributions);
      }
      MapFromNoBlank(mapper, mode, rows[1..], MapStep(a, mode, rows[0], acc).value);
    }
  }

  lemma NoBlankTarget(rules: seq<ConfigRule>, mode: Mode, rows: seq<RawRow>)
    requires MapRows(rules, mode, rows).Ok?
    ensures "" !in Output(rules, mode, rows).summary
  {
    MapFromNoBlank(MapperOf(rules, mode), mode, rows, NOTHING);
  }

  // ----- The settlement header

  predicate SelectedMetadata(row: RawRow, selected: string) {
    row.kind == Metadata && row.settlementID == selected
  }

  function MetadataOf(selected: string): RawRow -> bool {
    (row: RawRow) => SelectedMetadata(row, selected)
  }

  predicate Active(row: RawRow) {
    row.kind == Transaction && row.scope == InScope
  }

  function ActivityWeight(): RawRow -> int {
    (row: RawRow) => if Active(row) then row.reconAmount as int else 0
  }

  datatype HeaderError = MetadataCount(count: nat) | ActivityOverflow | HeaderMismatch

  /** The header control of a run: one metadata row for the selected settlement, whose total equals the
      in-scope settlement activity, summed with checked additions in row order. */
  method HeaderCheck(rows: seq<RawRow>, selected: string) returns (r: Result<int64, HeaderError>)
    ensures r.Ok? <==>
      && |Filter(MetadataOf(selected), rows)| == 1
      && (forall k | 0 <= k <= |rows| :: InInt64(Sum(ActivityWeight(), rows[..k])))
      && Filter(MetadataOf(selected), rows)[0].reconAmount == Sum(ActivityWeight(), rows)
    ensures r.Ok? ==>
      && r.value == Filter(MetadataOf(selected), rows)[0].reconAmount == Sum(ActivityWeight(), rows)
    ensures r == Err(HeaderMismatch) ==>
      && |Filter(MetadataOf(selected), rows)| == 1
      && Filter(MetadataOf(selected), rows)[0].reconAmount != Sum(ActivityWeight(), rows)
    ensures r == Err(ActivityOverflow) ==>
      exists k | 0 <= k <= |rows| :: !InInt64(Sum(ActivityWeight(), rows[..k]))
    ensures r.Err? && r.error.MetadataCount? <==> |Filter(MetadataOf(selected), rows)| != 1
  {
    var header: int64 := 0;
    var count := 0;
    for i := 0 to |rows|
      invariant count == |Filter(MetadataOf(selected), rows[..i])|
      invariant count > 0 ==> header == Filter(MetadataOf(selected), rows[..i])[count - 1].reconAmount
    {
      assert rows[..i + 1] == rows[..i] + [rows[i]];
      FilterSnoc(MetadataOf(selected), rows[..i], rows[i]);
      if rows[i].kind == Metadata && rows[i].settlementID == selected {
        count := count + 1;
        header := rows[i].reconAmount;
      }
    }
    assert rows[..|rows|] == rows;
    if count != 1 {
      return Err(MetadataCount(count));
    }
    var activity: int64 := 0;
    for i := 0 to |rows|
      invariant activity == Sum(ActivityWeight(), rows[..i])
      invariant forall k | 0 <= k <= i :: InInt64(Sum(ActivityWeight(), rows[..k]))
    {
      assert rows[..i + 1] == rows[..i] + [rows[i]];
      SumSnoc(ActivityWeight(), rows[..i], rows[i]);
      if rows[i].kind == Transaction && rows[i].scope == InScope {
        var next := Add(activity, rows[i].reconAmount);
        if next.Err? {
          return Err(ActivityOverflow);
        }
        activity := next.value;
      }
    }
    if header != activity {
      return Err(HeaderMismatch);
    }
    return Ok(header);
  }
}
