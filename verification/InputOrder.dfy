/** The order of the input rows, and of the maps on the way, does not show in what a run computes. */
module InputOrder {
  import opened Domain
  import opened Sequences
  import opened StrictRows
  import opened MapRun
  import opened Grouping
  import opened Groups
  import opened GroupOrders
  import opened Gate
  import opened EndToEnd

  // ----- Keys of the rows a run returns

  lemma RunKeys(rules: seq<ConfigRule>, mode: Mode, rows: seq<RawRow>)
    requires MapRows(rules, mode, rows).Ok?
    ensures forall m | m in Output(rules, mode, rows).rows :: KeyWhole(m)
  {
    MapRowsTotals(rules, mode, rows, "t", Payment);
    var out := Output(rules, mode, rows).rows;
    forall m | m in out
      ensures KeyWhole(m)
    {
      var i :| 0 <= i < |out| && out[i] == m;
      RecordAt(rules, mode, rows, i);
      RowKeyWhole(rules, mode, rows[i]);
    }
  }

  /** In every run, of either mode, equal keys come from equal key parts, whether or not the rows failed. */
  lemma KeysGiveParts(x: Inputs)
    requires Maps(x)
    ensures KeyGivesParts(AllRows(x))
  {
    RunKeys(x.paymentRules, x.mode, x.payments);
    RunKeys(x.settlementRules, x.mode, x.settlements);
    forall m, n | m in AllRows(x) && n in AllRows(x) && m.key == n.key
      ensures m.keyParts == n.keyParts
    {
      EqualKeysEqualParts(m, n);
    }
  }

  // ----- Rearranged inputs

  /** Line numbers identify the rows of one file. */
  predicate LinesIdentify(rows: seq<RawRow>) {
    forall r, s | r in rows && s in rows && r.lineStart == s.lineStart :: r == s
  }

  /** The same run over files whose rows come in another order. */
  predicate Rearranged(x: Inputs, x': Inputs) {
    && x' == x.(payments := x'.payments, settlements := x'.settlements)
    && multiset(x'.payments) == multiset(x.payments) && multiset(x'.settlements) == multiset(x.settlements)
  }

  lemma OutputRearranged(rules: seq<ConfigRule>, mode: Mode, rows: seq<RawRow>, rows': seq<RawRow>, t: string, s: Source)
    requires MapRows(rules, mode, rows).Ok? && MapRows(rules, mode, rows').Ok? && multiset(rows) == multiset(rows')
    requires t != ""
    ensures multiset(Output(rules, mode, rows).rows) == multiset(Output(rules, mode, rows').rows)
    ensures SummaryAt(Output(rules, mode, rows).summary, t, s) == SummaryAt(Output(rules, mode, rows').summary, t, s)
  {
    MapRowsTotals(rules, mode, rows, t, s);
    MapRowsTotals(rules, mode, rows', t, s);
    MapMultiset(RecordOf(MapperOf(rules, mode)), rows, rows');
    SumPermutation(SummaryWeight(t, s), Output(rules, mode, rows).rows, Output(rules, mode, rows').rows);
  }

  lemma OutputLines(rules: seq<ConfigRule>, mode: Mode, rows: seq<RawRow>)
    requires MapRows(rules, mode, rows).Ok? && LinesIdentify(rows)
    ensures Groups.DistinctLines(Output(rules, mode, rows).rows)
  {
    MapRowsTotals(rules, mode, rows, "t", Payment);
    var out := Output(rules, mode, rows).rows;
    forall m | m in out
      ensures m.row in rows
    {
      var i :| 0 <= i < |out| && out[i] == m;
      RecordAt(rules, mode, rows, i);
      OnlySelectorIssues(rules, mode, rows[i]);
    }
  }

  /** Two runs over rearranged files have the same groups, in the same order with the same rows. */
  lemma GroupsIgnoreOrder(x: Inputs, groups: seq<GroupValue>, x': Inputs, groups': seq<GroupValue>)
    requires Rearranged(x, x') && Maps(x) && Maps(x')
    requires LinesIdentify(x.payments) && LinesIdentify(x.settlements)
    requires IsGrouping(PaymentOutput(x).rows, SettlementOutput(x).rows, groups)
    requires IsGrouping(PaymentOutput(x').rows, SettlementOutput(x').rows, groups')
    ensures groups == groups'
  {
    OutputRearranged(x.paymentRules, x.mode, x.payments, x'.payments, "t", Payment);
    OutputRearranged(x.settlementRules, x.mode, x.settlements, x'.settlements, "t", Settlement);
    OutputLines(x.paymentRules, x.mode, x.payments);
    OutputLines(x.settlementRules, x.mode, x.settlements);
    KeysGiveParts(x);
    GroupingUnique(PaymentOutput(x).rows, SettlementOutput(x).rows, groups,
      PaymentOutput(x').rows, SettlementOutput(x').rows, groups');
  }

  /** Whether grouping succeeds on every rearrangement is a condition on the rows of one. */
  lemma GroupsInEveryOrder(x: Inputs, x': Inputs)
    requires Rearranged(x, x') && Maps(x) && Maps(x')
    requires AlwaysFits(PaymentOutput(x).rows) && AlwaysFits(SettlementOutput(x).rows)
    ensures JoinTable(PaymentOutput(x').rows, SettlementOutput(x').rows).Ok?
  {
    OutputRearranged(x.paymentRules, x.mode, x.payments, x'.payments, "t", Payment);
    OutputRearranged(x.settlementRules, x.mode, x.settlements, x'.settlements, "t", Settlement);
    EveryOrderJoinsIff(PaymentOutput(x).rows, SettlementOutput(x).rows);
  }

  lemma MergedIgnoresOrder(x: Inputs, groups: seq<GroupValue>, merged: Summary, x': Inputs, groups': seq<GroupValue>,
      merged': Summary, t: string)
    requires Rearranged(x, x') && Computed(x, groups, merged) && Computed(x', groups', merged')
    ensures SummaryAt(merged, t, Payment) == SummaryAt(merged', t, Payment)
    ensures SummaryAt(merged, t, Settlement) == SummaryAt(merged', t, Settlement)
  {
    if t == "" {
      NoBlankTarget(x.paymentRules, x.mode, x.payments);
      NoBlankTarget(x.settlementRules, x.mode, x.settlements);
      NoBlankTarget(x.paymentRules, x.mode, x'.payments);
      NoBlankTarget(x.settlementRules, x.mode, x'.settlements);
    } else {
      OtherSourceEmpty(x.paymentRules, x.mode, x.payments, t);
      OtherSourceEmpty(x.paymentRules, x.mode, x'.payments, t);
      OutputRearranged(x.paymentRules, x.mode, x.payments, x'.payments, t, Payment);
      OutputRearranged(x.settlementRules, x.mode, x.settlements, x'.settlements, t, Settlement);
    }
  }

  /** The order of the rows shows in nothing a run computes before it is stored: not in the groups, the merged
      summary, the header control or the gate. */
  lemma RunIgnoresOrder(x: Inputs, groups: seq<GroupValue>, merged: Summary, x': Inputs, groups': seq<GroupValue>, merged': Summary)
    requires Rearranged(x, x') && LinesIdentify(x.payments) && LinesIdentify(x.settlements)
    requires Computed(x, groups, merged) && Computed(x', groups', merged')
    ensures groups == groups'
    ensures forall t, s | s == Payment || s == Settlement :: SummaryAt(merged, t, s) == SummaryAt(merged', t, s)
    ensures HeaderPasses(x) <==> HeaderPasses(x')
    ensures GatePasses(merged, groups) <==> GatePasses(merged', groups')
  {
    GroupsIgnoreOrder(x, groups, x', groups');
    forall t, s | s == Payment || s == Settlement
      ensures SummaryAt(merged, t, s) == SummaryAt(merged', t, s)
    {
      MergedIgnoresOrder(x, groups, merged, x', groups', merged', t);
    }
    HeaderIgnoresOrder(x, x');
    SummaryGateSame(merged, merged');
  }

  lemma SummaryGateSame(merged: Summary, merged': Summary)
    requires forall t, s | s == Payment || s == Settlement :: SummaryAt(merged, t, s) == SummaryAt(merged', t, s)
    ensures SummaryAgrees(merged) <==> SummaryAgrees(merged')
  {
    assert forall t | t !in merged :: SummaryAt(merged, t, Payment) == SummaryAt(merged, t, Settlement) == 0;
    assert forall t | t !in merged' :: SummaryAt(merged', t, Payment) == SummaryAt(merged', t, Settlement) == 0;
  }

  lemma HeaderIgnoresOrder(x: Inputs, x': Inputs)
    requires Rearranged(x, x')
    ensures HeaderPasses(x) <==> HeaderPasses(x')
  {
    FilterPermutation(MetadataOf(x.selected), x.settlements, x'.settlements);
    SumPermutation(ActivityWeight(), x.settlements, x'.settlements);
    SameSingle(Filter(MetadataOf(x.selected), x.settlements), Filter(MetadataOf(x.selected), x'.settlements));
  }

  lemma SameSingle<T>(a: seq<T>, b: seq<T>)
    requires multiset(a) == multiset(b)
    ensures |a| == |b| && (|a| == 1 ==> a == b)
  {
    assert |a| == |multiset(a)| && |b| == |multiset(b)|;
    if |a| == 1 {
      assert a[0] in multiset(b);
    }
  }
}
