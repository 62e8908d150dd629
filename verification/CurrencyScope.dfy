/** What currency inheritance in internal/ingest/parser.go means for the groups of internal/reconcile. */
module CurrencyScope {
  import opened Domain
  import opened Sequences
  import opened Grouping
  import opened Classification
  import opened RunTables
  import opened Verify
  import opened VerifyBuckets
  import opened Ingest
  import opened EndToEnd

  /** The settlement rows of a run are records that passed the second pass of the parser, then classified;
      payment rows are all in Australian dollars. */
  ghost predicate Parsed(x: Inputs, records: seq<RawRow>, inherited: seq<RawRow>) {
    && |records| == |inherited| && UniqueMetadata(records)
    && (forall k | 0 <= k < |records| :: Inherits(records[k], inherited[k], records))
    && x.settlements == Map(Classifier(x.selected), inherited)
    && forall r | r in x.payments :: r.currency == "AUD"
  }

  /** Every in-scope settlement row carries the currency of the one metadata row of the selected settlement. */
  lemma InScopeInherits(x: Inputs, records: seq<RawRow>, inherited: seq<RawRow>, r: RawRow) returns (control: RawRow)
    requires WellSourced(x) && Parsed(x, records, inherited)
    requires r in x.settlements && r.scope == InScope
    ensures control in records && MetadataFor(control, x.selected) && r.currency == control.currency
    ensures forall c | c in records && MetadataFor(c, x.selected) :: c == control
  {
    var k :| 0 <= k < |x.settlements| && x.settlements[k] == r;
    assert r == Classifier(x.selected)(inherited[k]);
    InScopeIff(inherited[k], x.selected);
    assert Inherits(records[k], inherited[k], records);
    control :| control in records && MetadataFor(control, records[k].settlementID) && inherited[k].currency == control.currency;
    forall c | c in records && MetadataFor(c, x.selected)
      ensures c == control
    {
      Ingest.OneControl(records, c, control, x.selected);
    }
  }

  lemma InScopeRowsAgree(x: Inputs, records: seq<RawRow>, inherited: seq<RawRow>, r: RawRow, s: RawRow)
    requires WellSourced(x) && Parsed(x, records, inherited)
    requires r in x.payments + x.settlements && s in x.payments + x.settlements && r.source == s.source
    requires r.scope == InScope && s.scope == InScope
    ensures r.settlementID == s.settlementID && r.currency == s.currency
  {
    assert r.scope == ScopeOf(r, x.selected) && s.scope == ScopeOf(s, x.selected);
    if r in x.settlements {
      var c := InScopeInherits(x, records, inherited, r);
      var d := InScopeInherits(x, records, inherited, s);
    }
  }

  /** In-scope rows of one source with equal keys fall in one group, in either mode. */
  lemma OneGroupPerKey(x: Inputs, records: seq<RawRow>, inherited: seq<RawRow>, groups: seq<GroupValue>, merged: Summary,
      m: MappedRow, n: MappedRow)
    requires Computed(x, groups, merged) && Parsed(x, records, inherited)
    requires m in AllRows(x) && n in AllRows(x) && m.row.source == n.row.source
    requires m.row.scope == InScope && n.row.scope == InScope && m.key == n.key
    ensures IdOf(m) == IdOf(n)
  {
    RowsAreInputs(x);
    RowOfInput(AllRows(x), x.payments + x.settlements, m);
    RowOfInput(AllRows(x), x.payments + x.settlements, n);
    InScopeRowsAgree(x, records, inherited, m.row, n.row);
  }

  /** A run whose selected settlement is in Australian dollars has one currency in scope, so its bucket gate is
      equivalent to a recomputation without bucket mismatches. */
  lemma AustralianBucketGate(x: Inputs, records: seq<RawRow>, inherited: seq<RawRow>, groups: seq<GroupValue>,
      merged: Summary, t: Tables)
    requires Computed(x, groups, merged) && Stored(x, groups, merged, t) && NoRowFails(x)
    requires Parsed(x, records, inherited)
    requires forall c | c in records && MetadataFor(c, x.selected) :: c.currency == "AUD"
    ensures InScopeBucketsAgree(groups) <==> Measure(t, x.selected).bucketMismatches == 0
  {
    forall r | r in x.payments + x.settlements && r.scope == InScope
      ensures r.currency == "AUD"
    {
      if r in x.settlements {
        var control := InScopeInherits(x, records, inherited, r);
      }
    }
    BucketGateEquivalent(x, groups, merged, t, "AUD");
  }
}
