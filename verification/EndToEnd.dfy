/** The pipeline from parsed rows to tables that an independent recomputation verifies. */
module EndToEnd {
  import opened Domain
  import opened Sequences
  import opened StrictRows
  import opened MapRun
  import opened Grouping
  import opened Groups
  import opened Conservation
  import opened Classification
  import opened Gate
  import opened RunTables
  import opened Verify
  import opened VerifyBuckets
  import opened StrictVerification
  import Lifecycle = RunStore

  /** The mode of a run, its classified inputs and the rules of each source. */
  datatype Inputs = Inputs(
    mode: Mode,
    paymentRules: seq<ConfigRule>, payments: seq<RawRow>,
    settlementRules: seq<ConfigRule>, settlements: seq<RawRow>,
    selected: string)

  predicate WellSourced(x: Inputs) {
    && (forall r | r in x.payments :: r.source == Payment)
    && (forall r | r in x.settlements :: r.source == Settlement)
    && Classified(x.payments, x.selected) && Classified(x.settlements, x.selected)
  }

  predicate Maps(x: Inputs) {
    MapRows(x.paymentRules, x.mode, x.payments).Ok? && MapRows(x.settlementRules, x.mode, x.settlements).Ok?
  }

  /** Both runs succeed and no row fails: true of every strict run, and of the diagnostic runs without a failed
      row. */
  predicate NoRowFails(x: Inputs) {
    MapsAll(x.paymentRules, x.mode, x.payments) && MapsAll(x.settlementRules, x.mode, x.settlements)
  }

  lemma StrictRowsMap(x: Inputs)
    requires Maps(x) && x.mode == Strict
    ensures NoRowFails(x)
  {
    MapsAllIff(x.paymentRules, Strict, x.payments);
    MapsAllIff(x.settlementRules, Strict, x.settlements);
  }

  function PaymentOutput(x: Inputs): MapOutput {
    Output(x.paymentRules, x.mode, x.payments)
  }

  function SettlementOutput(x: Inputs): MapOutput {
    Output(x.settlementRules, x.mode, x.settlements)
  }

  function AllRows(x: Inputs): seq<MappedRow> {
    PaymentOutput(x).rows + SettlementOutput(x).rows
  }

  /** What a run has computed when it reaches the store: the groups and the merged summary. */
  ghost predicate Computed(x: Inputs, groups: seq<GroupValue>, merged: Summary) {
    && WellSourced(x) && Maps(x)
    && IsGrouping(PaymentOutput(x).rows, SettlementOutput(x).rows, groups)
    && IsMerge(merged, PaymentOutput(x).summary, SettlementOutput(x).summary)
  }

  /** The header control succeeded. */
  predicate HeaderPasses(x: Inputs) {
    && |Filter(MetadataOf(x.selected), x.settlements)| == 1
    && Filter(MetadataOf(x.selected), x.settlements)[0].reconAmount == Sum(ActivityWeight(), x.settlements)
  }

  /** The tables a run commits. */
  ghost predicate Stored(x: Inputs, groups: seq<GroupValue>, merged: Summary, t: Tables) {
    && Storable(AllRows(x), x.paymentRules + x.settlementRules, x.selected)
    && IsStored(t, AllRows(x), groups, merged, PaymentOutput(x).issues + SettlementOutput(x).issues, x.selected)
  }

  lemma RowsAreInputs(x: Inputs)
    requires WellSourced(x) && Maps(x)
    ensures Map(RowOf(), AllRows(x)) == x.payments + x.settlements
    ensures SingleSource(PaymentOutput(x).rows, Payment) && SingleSource(SettlementOutput(x).rows, Settlement)
    ensures forall m | m in AllRows(x) :: PlainTargets(m)
  {
    RunRows(x.paymentRules, x.mode, x.payments, Payment);
    RunRows(x.settlementRules, x.mode, x.settlements, Settlement);
    MapConcat(RowOf(), PaymentOutput(x).rows, SettlementOutput(x).rows);
  }

  lemma RowsArePlain(x: Inputs)
    requires WellSourced(x) && NoRowFails(x)
    ensures PlainRows(PaymentOutput(x).rows, Payment) && PlainRows(SettlementOutput(x).rows, Settlement)
    ensures forall m | m in AllRows(x) :: !Failed(m)
    ensures x.mode == Strict ==> PaymentOutput(x).issues == [] && SettlementOutput(x).issues == []
  {
    RunRowsPlain(x.paymentRules, x.mode, x.payments, Payment);
    RunRowsPlain(x.settlementRules, x.mode, x.settlements, Settlement);
    MapRowsTotals(x.paymentRules, x.mode, x.payments, "t", Payment);
    MapRowsTotals(x.settlementRules, x.mode, x.settlements, "t", Settlement);
  }

  lemma JoinedIsPairs(x: Inputs, groups: seq<GroupValue>, merged: Summary, t: Tables)
    requires Computed(x, groups, merged) && Stored(x, groups, merged, t)
    ensures JoinRows(t.mappings, t.sourceRows) == PairsOf(AllRows(x))
  {
    JoinStored(AllRows(x));
  }

  lemma BucketsVerify(x: Inputs, groups: seq<GroupValue>, merged: Summary, t: Tables)
    requires Computed(x, groups, merged) && Stored(x, groups, merged, t) && NoRowFails(x)
    requires GatePasses(merged, groups)
    ensures DifferingBuckets(JoinRows(t.mappings, t.sourceRows)) == {}
  {
    RowsArePlain(x);
    JoinedIsPairs(x, groups, merged, t);
    AgreeingGroupsVerify(PaymentOutput(x).rows, SettlementOutput(x).rows, groups);
  }

  // ----- Summary

  /** What the stored contributions of both sources hold at a key: the weight of the rows of its source. */
  lemma ContributedBySide(p: seq<MappedRow>, s: seq<MappedRow>, key: SummaryKey)
    requires SingleSource(p, Payment) && SingleSource(s, Settlement)
    requires forall m | m in p + s :: PlainTargets(m)
    requires key.field != ""
    ensures ContributedAt(ContributionsOf(PairsOf(p + s)), key) == Sum(FailedAt(key), p + s) +
      if key.source == Payment then Sum(SummaryWeight(key.field, Payment), p)
      else if key.source == Settlement then Sum(SummaryWeight(key.field, Settlement), s)
      else 0
  {
    ContributedIsWeight(p + s, key);
    SumConcat(SummaryWeight(key.field, key.source), p, s);
    if key.source != Payment {
      WeightOfOtherSource(p, Payment, key.source, key.field);
    }
    if key.source != Settlement {
      WeightOfOtherSource(s, Settlement, key.source, key.field);
    }
  }

  /** Stored contributions exceed the stored total of a key by the partial contributions of failed rows. */
  lemma ContributedIsMerged(x: Inputs, groups: seq<GroupValue>, merged: Summary, key: SummaryKey)
    requires Computed(x, groups, merged) && key.field != ""
    ensures ContributedAt(ContributionsOf(PairsOf(AllRows(x))), key) == TotalValue(merged, key) + Sum(FailedAt(key), AllRows(x))
  {
    RowsAreInputs(x);
    ContributedBySide(PaymentOutput(x).rows, SettlementOutput(x).rows, key);
    SideTotals(x, groups, merged, key.field);
  }

  /** Each half of the merged summary is what its own source's rows weigh. */
  lemma SideTotals(x: Inputs, groups: seq<GroupValue>, merged: Summary, f: string)
    requires Computed(x, groups, merged) && f != ""
    ensures SummaryAt(merged, f, Payment) == Sum(SummaryWeight(f, Payment), PaymentOutput(x).rows)
    ensures SummaryAt(merged, f, Settlement) == Sum(SummaryWeight(f, Settlement), SettlementOutput(x).rows)
    ensures f !in merged ==>
      Sum(SummaryWeight(f, Payment), PaymentOutput(x).rows) == Sum(SummaryWeight(f, Settlement), SettlementOutput(x).rows) == 0
  {
    MapRowsTotals(x.paymentRules, x.mode, x.payments, f, Payment);
    MapRowsTotals(x.settlementRules, x.mode, x.settlements, f, Settlement);
    OtherSourceEmpty(x.paymentRules, x.mode, x.payments, f);
  }

  lemma BlankFieldEmpty(x: Inputs, groups: seq<GroupValue>, merged: Summary, key: SummaryKey)
    requires Computed(x, groups, merged) && key.field == ""
    ensures TotalValue(merged, key) == ContributedAt(ContributionsOf(PairsOf(AllRows(x))), key) == 0
  {
    NoBlankTarget(x.paymentRules, x.mode, x.payments);
    NoBlankTarget(x.settlementRules, x.mode, x.settlements);
    ContributedFieldsNotBlank(PairsOf(AllRows(x)));
    SumZero(ContributedAmount(key), ContributionsOf(PairsOf(AllRows(x))));
  }

  /** The two sums the recomputation compares. */
  lemma StoredSides(x: Inputs, groups: seq<GroupValue>, merged: Summary, t: Tables, key: SummaryKey)
    requires Computed(x, groups, merged) && Stored(x, groups, merged, t)
    ensures TotalAt(t.totals, key) == TotalValue(merged, key)
    ensures t.contributions == ContributionsOf(PairsOf(AllRows(x)))
  {
    JoinedIsPairs(x, groups, merged, t);
    StoredTotal(t.totals, merged, JoinRows(t.mappings, t.sourceRows), key);
  }

  /** In any mode the recomputed summary differs from the stored one exactly where the partial contributions of
      failed rows, which are stored but left out of the totals, do not cancel. */
  lemma TotalsDifferIff(x: Inputs, groups: seq<GroupValue>, merged: Summary, t: Tables, key: SummaryKey)
    requires Computed(x, groups, merged) && Stored(x, groups, merged, t)
    ensures key in DifferingTotals(t) <==> key.field != "" && Sum(FailedAt(key), AllRows(x)) != 0
  {
    DiffersIff(t, key);
    StoredSides(x, groups, merged, t, key);
    if key.field == "" {
      BlankFieldEmpty(x, groups, merged, key);
    } else {
      ContributedIsMerged(x, groups, merged, key);
    }
  }

  lemma TotalsVerify(x: Inputs, groups: seq<GroupValue>, merged: Summary, t: Tables)
    requires Computed(x, groups, merged) && Stored(x, groups, merged, t) && NoRowFails(x)
    ensures DifferingTotals(t) == {}
  {
    RowsArePlain(x);
    forall k
      ensures k !in DifferingTotals(t)
    {
      TotalsDifferIff(x, groups, merged, t, k);
      NoneFailed(AllRows(x), k);
    }
  }

  lemma NoneFailed(rows: seq<MappedRow>, key: SummaryKey)
    requires forall m | m in rows :: !Failed(m)
    ensures Sum(FailedAt(key), rows) == 0
  {
    forall m | m in rows
      ensures FailedAt(key)(m) == 0
    {
      assert FailedAt(key)(m) == if m.row.source == key.source then FailedWeight(key.field)(m) else 0;
    }
    SumZero(FailedAt(key), rows);
  }

  // ----- Header

  lemma HeaderControls(x: Inputs)
    requires WellSourced(x)
    ensures Filter(ControlRows(x.selected), x.payments + x.settlements) == Filter(MetadataOf(x.selected), x.settlements)
  {
    FilterConcat(ControlRows(x.selected), x.payments, x.settlements);
    FilterNone(ControlRows(x.selected), x.payments);
    FilterAgree(ControlRows(x.selected), MetadataOf(x.selected), x.settlements);
  }

  /** What the header control counts and the recomputation does not: amounts of rows marked as having none. */
  function UnreadWeight(): RawRow -> int {
    (row: RawRow) => if Active(row) && !row.hasRecon then row.reconAmount as int else 0
  }

  lemma ActivityIsSettlement(x: Inputs)
    requires WellSourced(x)
    ensures SettlementActivity(x.payments + x.settlements, x.selected) + Sum(UnreadWeight(), x.settlements) ==
      Sum(ActivityWeight(), x.settlements)
  {
    SumConcat(ActivityAmount(x.selected), x.payments, x.settlements);
    SumZero(ActivityAmount(x.selected), x.payments);
    SumAdd(ActivityWeight(), ActivityAmount(x.selected), UnreadWeight(), x.settlements);
  }

  lemma AmountsRead(x: Inputs)
    requires WellSourced(x) && Maps(x) && x.mode == Strict
    ensures Sum(UnreadWeight(), x.settlements) == 0
  {
    StrictRowsMap(x);
    forall r | r in x.settlements
      ensures UnreadWeight()(r) == 0
    {
      if r.kind == Transaction {
        StrictSettlement(x.settlementRules, r);
      }
    }
    SumZero(UnreadWeight(), x.settlements);
  }

  /** A run behind the header control has no header mismatch exactly when the amounts marked missing sum to
      zero, which a strict run guarantees. */
  lemma HeaderVerifiesIff(x: Inputs, groups: seq<GroupValue>, merged: Summary, t: Tables)
    requires Computed(x, groups, merged) && Stored(x, groups, merged, t) && HeaderPasses(x)
    ensures HeaderMismatchCount(t, x.selected) == 0 <==> Sum(UnreadWeight(), x.settlements) == 0
  {
    StoredControls(x, groups, merged, t);
    ActivityIsSettlement(x);
    var header := Filter(MetadataOf(x.selected), x.settlements);
    var control := ControlOf()(header[0]);
    assert header[0] in header;
    assert control.settlementID == x.selected && control.headerTotal == header[0].reconAmount;
    OneControl(t.sourceRows, control, x.selected);
  }

  lemma StoredControls(x: Inputs, groups: seq<GroupValue>, merged: Summary, t: Tables)
    requires Computed(x, groups, merged) && Stored(x, groups, merged, t) && HeaderPasses(x)
    ensures t.sourceRows == x.payments + x.settlements
    ensures t.controls == [ControlOf()(Filter(MetadataOf(x.selected), x.settlements)[0])]
  {
    RowsAreInputs(x);
    HeaderControls(x);
  }

  lemma OneControl(rows: seq<RawRow>, control: Control, selected: string)
    requires control.settlementID == selected
    ensures Filter(ControlFor(selected), [control]) == [control]
    ensures Filter(HeaderDiffers(rows), [control]) == [] <==> control.headerTotal == SettlementActivity(rows, selected)
  {
    FilterAll(ControlFor(selected), [control]);
    if control.headerTotal == SettlementActivity(rows, selected) {
      FilterNone(HeaderDiffers(rows), [control]);
    } else {
      FilterAll(HeaderDiffers(rows), [control]);
    }
  }

  // ----- Amounts

  predicate AmountsDiffer(g: GroupValue) {
    !AmountsAgree(g)
  }

  /** A two-sided group outside the scope whose sides differ: the gate skips it, the verification counts it. */
  predicate UngatedDifference(g: GroupValue) {
    g.id.scope != InScope && AmountsDiffer(g)
  }

  /** The recomputation counts every two-sided group whose sides differ, in scope or not. */
  lemma {:induction false} AmountsCounted(groups: seq<GroupValue>)
    ensures |Filter(AmountDiffers, Map(RecordOfGroup(), groups))| == |Filter(AmountsDiffer, groups)|
  {
    if groups != [] {
      AmountsCounted(groups[1..]);
      var records := Map(RecordOfGroup(), groups);
      assert records[1..] == Map(RecordOfGroup(), groups[1..]);
      assert AmountDiffers(records[0]) <==> AmountsDiffer(groups[0]);
    }
  }

  lemma UngatedCounted(groups: seq<GroupValue>)
    requires forall g | g in groups && g.id.scope == InScope :: AmountsAgree(g)
    ensures Filter(AmountsDiffer, groups) == Filter(UngatedDifference, groups)
  {
    FilterAgree(AmountsDiffer, UngatedDifference, groups);
  }

  /** After the gates of a strict run, the recomputation finds no bucket, summary or header mismatch, every
      transaction is a member exactly once, no issue is stored, and the amount mismatches are exactly the
      two-sided groups out of scope whose sides differ. */
  lemma StrictRunMeasures(x: Inputs, groups: seq<GroupValue>, merged: Summary, t: Tables)
    requires x.mode == Strict && Computed(x, groups, merged) && Stored(x, groups, merged, t)
    requires HeaderPasses(x) && GatePasses(merged, groups)
    ensures var v := Measure(t, x.selected);
      && v.bucketMismatches == 0 && v.summaryMismatches == 0 && v.headerMismatches == 0
      && v.memberRows == v.transactionRows && v.unmatchedRows == 0 && v.issueRows == 0
      && v.amountMismatches == |Filter(UngatedDifference, groups)|
    ensures RepeatedMembers(t.members) == {}
  {
    StrictRowsMap(x);
    BucketsVerify(x, groups, merged, t);
    TotalsVerify(x, groups, merged, t);
    HeaderVerifiesIff(x, groups, merged, t);
    AmountsRead(x);
    MembershipVerifies(PaymentOutput(x).rows, SettlementOutput(x).rows, groups);
    RowsArePlain(x);
    forall g | g in groups && g.id.scope == InScope
      ensures AmountsAgree(g)
    {
      assert GroupPasses(g);
    }
    AmountsCounted(groups);
    UngatedCounted(groups);
  }

  /** Once reported, the run passes verification exactly when every two-sided group out of scope has equal
      amounts on both sides. */
  ghost predicate StrictVerdict(x: Inputs, groups: seq<GroupValue>, t: Tables) {
    VerifyRun(ReportedStrict(x.selected), t, |x.payments| + |x.settlements|).Ok? <==>
      forall g | g in groups && TwoSided(g) && g.id.scope != InScope :: g.payment.amount == g.settlement.amount
  }

  /** That is the verdict on every gated strict run. */
  lemma StrictRunVerifies(x: Inputs, groups: seq<GroupValue>, merged: Summary, t: Tables)
    requires x.mode == Strict && Computed(x, groups, merged) && Stored(x, groups, merged, t)
    requires HeaderPasses(x) && GatePasses(merged, groups)
    ensures StrictVerdict(x, groups, t)
  {
    StrictRunMeasures(x, groups, merged, t);
    RowsStored(x, groups, merged, t);
    Verdict(t, x.selected);
    NoUngatedDifference(groups);
  }

  function ReportedStrict(selected: string): RunHeader {
    RunHeader(Strict, Lifecycle.Reported, Lifecycle.PassStatus, selected)
  }

  lemma RowsStored(x: Inputs, groups: seq<GroupValue>, merged: Summary, t: Tables)
    requires Computed(x, groups, merged) && Stored(x, groups, merged, t)
    ensures |t.sourceRows| == |x.payments| + |x.settlements|
  {
    RowsAreInputs(x);
  }

  /** The verdict on a reported strict run whose other measures are in order rests on the amounts. */
  lemma Verdict(t: Tables, selected: string)
    requires RepeatedMembers(t.members) == {}
    requires var v := Measure(t, selected);
      && v.bucketMismatches == 0 && v.summaryMismatches == 0 && v.headerMismatches == 0
      && v.memberRows == v.transactionRows && v.issueRows == 0
    ensures VerifyRun(ReportedStrict(selected), t, |t.sourceRows|).Ok? <==>
      Measure(t, selected).amountMismatches == 0
  {
  }

  lemma NoUngatedDifference(groups: seq<GroupValue>)
    ensures Filter(UngatedDifference, groups) == [] <==>
      forall g | g in groups && TwoSided(g) && g.id.scope != InScope :: g.payment.amount == g.settlement.amount
  {
    if Filter(UngatedDifference, groups) == [] {
      forall g | g in groups && TwoSided(g) && g.id.scope != InScope
        ensures g.payment.amount == g.settlement.amount
      {
        assert g !in Filter(UngatedDifference, groups);
      }
    } else {
      var g := Filter(UngatedDifference, groups)[0];
      assert g in Filter(UngatedDifference, groups);
    }
  }

  // ----- Equivalence of the bucket check

  /** Every in-scope row is in one currency: payments are in Australian dollars, settlements in the currency
      of the selected settlement. */
  predicate InScopeCurrency(x: Inputs, currency: string) {
    forall r | r in x.payments + x.settlements && r.scope == InScope :: r.currency == currency
  }

  /** With one currency in scope the gate's per-group bucket check is equivalent to a recomputation without
      bucket mismatches, in any mode in which no row failed, whatever else the run's controls say. */
  lemma BucketGateEquivalent(x: Inputs, groups: seq<GroupValue>, merged: Summary, t: Tables, currency: string)
    requires Computed(x, groups, merged) && Stored(x, groups, merged, t) && NoRowFails(x)
    requires InScopeCurrency(x, currency)
    ensures InScopeBucketsAgree(groups) <==> Measure(t, x.selected).bucketMismatches == 0
  {
    RowsArePlain(x);
    JoinedIsPairs(x, groups, merged, t);
    forall g | g in groups && g.id.scope == InScope
      ensures g.id.settlementID == x.selected && g.id.currency == currency
    {
      GroupPartition(x, groups, merged, currency, g);
    }
    BucketCheckEquivalent(PaymentOutput(x).rows, SettlementOutput(x).rows, groups, x.selected, currency);
  }

  lemma GroupPartition(x: Inputs, groups: seq<GroupValue>, merged: Summary, currency: string, g: GroupValue)
    requires Computed(x, groups, merged) && InScopeCurrency(x, currency)
    requires g in groups && g.id.scope == InScope
    ensures g.id.settlementID == x.selected && g.id.currency == currency
  {
    RowsAreInputs(x);
    var m := GroupHasRow(PaymentOutput(x).rows, SettlementOutput(x).rows, groups, g);
    RowOfInput(AllRows(x), x.payments + x.settlements, m);
    assert m.row.scope == ScopeOf(m.row, x.selected);
  }

  lemma GroupHasRow(payments: seq<MappedRow>, settlements: seq<MappedRow>, groups: seq<GroupValue>, g: GroupValue)
      returns (m: MappedRow)
    requires IsGrouping(payments, settlements, groups) && g in groups
    ensures m in payments + settlements && m.row.kind != Metadata && IdOf(m) == g.id
  {
    assert ReportsGroup(g, payments, settlements);
    m :| m in payments + settlements && InGroup(g.id)(m);
  }

  lemma RowOfInput(rows: seq<MappedRow>, raw: seq<RawRow>, m: MappedRow)
    requires m in rows && Map(RowOf(), rows) == raw
    ensures m.row in raw
  {
    var i :| 0 <= i < |rows| && rows[i] == m;
    assert raw[i] == m.row;
  }
}
