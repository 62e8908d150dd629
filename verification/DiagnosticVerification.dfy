/** Diagnostic runs and their verification. Persist stores what a failed row contributed before it failed
    (internal/store/store.go:268-289) and BuildGroups counts it, but the summary totals leave it out, so
    VerifyRun compares two different sums. */
module DiagnosticVerification {
  import opened Domain
  import opened Sequences
  import opened Grouping
  import opened Gate
  import opened RunTables
  import opened Verify
  import opened StrictVerification
  import opened EndToEnd
  import Lifecycle = RunStore

  /** The partial contributions of failed rows cancel in every field of every source. */
  ghost predicate FailuresCancel(x: Inputs) {
    forall key: SummaryKey | key.field != "" :: Sum(FailedAt(key), AllRows(x)) == 0
  }

  lemma SummaryVerifiesIff(x: Inputs, groups: seq<GroupValue>, merged: Summary, t: Tables)
    requires Computed(x, groups, merged) && Stored(x, groups, merged, t)
    ensures DifferingTotals(t) == {} <==> FailuresCancel(x)
  {
    forall key: SummaryKey
      ensures key in DifferingTotals(t) <==> key.field != "" && Sum(FailedAt(key), AllRows(x)) != 0
    {
      TotalsDifferIff(x, groups, merged, t, key);
    }
    NoneDiffersIff(DifferingTotals(t), x);
  }

  lemma NoneDiffersIff(differing: set<SummaryKey>, x: Inputs)
    requires forall key: SummaryKey :: key in differing <==> key.field != "" && Sum(FailedAt(key), AllRows(x)) != 0
    ensures differing == {} <==> FailuresCancel(x)
  {
    if FailuresCancel(x) {
      assert forall key :: key !in differing;
    } else {
      var key: SummaryKey :| key.field != "" && Sum(FailedAt(key), AllRows(x)) != 0;
      assert key in differing;
    }
  }

  /** What the recomputation measures, in terms of the inputs of the run. */
  ghost predicate MeasuresOf(x: Inputs, groups: seq<GroupValue>, t: Tables) {
    var v := Measure(t, x.selected);
    && v.sourceRows == |x.payments| + |x.settlements|
    && v.memberRows == v.transactionRows
    && v.amountMismatches == |Filter(AmountsDiffer, groups)|
    && (v.summaryMismatches == 0 <==> FailuresCancel(x))
    && (v.headerMismatches == 0 <==> Sum(UnreadWeight(), x.settlements) == 0)
    && RepeatedMembers(t.members) == {}
  }

  /** What the recomputation finds in the tables of any run behind the header control, in either mode. */
  lemma RunMeasures(x: Inputs, groups: seq<GroupValue>, merged: Summary, t: Tables)
    requires Computed(x, groups, merged) && Stored(x, groups, merged, t) && HeaderPasses(x)
    ensures MeasuresOf(x, groups, t)
  {
    RowsStored(x, groups, merged, t);
    MembershipVerifies(PaymentOutput(x).rows, SettlementOutput(x).rows, groups);
    AmountsCounted(groups);
    SummaryVerifiesIff(x, groups, merged, t);
    HeaderVerifiesIff(x, groups, merged, t);
  }

  /** Once reported, the run passes verification exactly when every two-sided group agrees on its amounts, the
      partial contributions of failed rows cancel everywhere, and the in-scope settlement amounts that were
      marked missing sum to zero. */
  ghost predicate DiagnosticVerdict(x: Inputs, groups: seq<GroupValue>, t: Tables, status: Lifecycle.RunStatus) {
    VerifyRun(RunHeader(Diagnostic, Lifecycle.Reported, status, x.selected), t, |x.payments| + |x.settlements|).Ok? <==>
      && (forall g | g in groups :: AmountsAgree(g))
      && FailuresCancel(x)
      && Sum(UnreadWeight(), x.settlements) == 0
  }

  /** That is the verdict on every diagnostic run, which no gate has checked. */
  lemma DiagnosticRunVerifies(x: Inputs, groups: seq<GroupValue>, merged: Summary, t: Tables, status: Lifecycle.RunStatus)
    requires x.mode == Diagnostic && Computed(x, groups, merged) && Stored(x, groups, merged, t) && HeaderPasses(x)
    ensures DiagnosticVerdict(x, groups, t, status)
  {
    RunMeasures(x, groups, merged, t);
    MeasuresDecide(x, groups, t, status);
  }

  lemma MeasuresDecide(x: Inputs, groups: seq<GroupValue>, t: Tables, status: Lifecycle.RunStatus)
    requires MeasuresOf(x, groups, t)
    ensures DiagnosticVerdict(x, groups, t, status)
  {
    NoneDiffer(groups);
  }

  lemma NoneDiffer(groups: seq<GroupValue>)
    ensures |Filter(AmountsDiffer, groups)| == 0 <==> forall g | g in groups :: AmountsAgree(g)
  {
    forall g | g in groups
      ensures g in Filter(AmountsDiffer, groups) <==> !AmountsAgree(g)
    {
    }
    if Filter(AmountsDiffer, groups) != [] {
      assert Filter(AmountsDiffer, groups)[0] in Filter(AmountsDiffer, groups);
    }
  }
}
