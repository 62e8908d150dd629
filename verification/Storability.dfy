/** Which runs the database accepts, said of their inputs. The constraints on row_mappings, UNIQUE(run_id,
    source_row_id, rule_id) of migrations/001_init.sql and the lineage trigger of 006_audit_hardening.sql, are
    met by every strict run under rules with different keys, and the first is broken by every run that maps a
    transaction without a type. */
module Storability {
  import opened Domain
  import opened Normalize
  import opened Sequences
  import opened Engine
  import opened Selection
  import opened StrictRows
  import opened MapRun
  import opened Grouping
  import opened RunTables
  import opened Gate
  import opened EndToEnd
  import opened ConfigStream

  // ----- Where stored mappings come from

  lemma {:induction false} MappingOrigin(rows: seq<MappedRow>, x: RowMapping) returns (m: MappedRow, c: Contribution)
    requires x in MappingsOf(rows)
    ensures m in rows && c in m.contributions && x == MappingOf(m.row)(c)
  {
    assert rows == [rows[0]] + rows[1..];
    if x in MappingsOf(rows[1..]) {
      m, c := MappingOrigin(rows[1..], x);
    } else {
      m := rows[0];
      var i :| 0 <= i < |m.contributions| && Map(MappingOf(m.row), m.contributions)[i] == x;
      c := m.contributions[i];
    }
  }

  lemma ChosenMatches(rules: seq<ConfigRule>, row: RawRow, field: string, r: ConfigRule)
    requires r in Chosen(rules, row, field)
    ensures r.source == row.source && FieldOf(r, row) == field
  {
    assert r in Filter(InField(row, field), Selected(rules, row));
    assert r in Filter(MatchingRow(row), Candidates(rules, row));
  }

  lemma RecordedContribution(rules: seq<ConfigRule>, mode: Mode, rows: seq<RawRow>, m: MappedRow, c: Contribution)
    requires MapRows(rules, mode, rows).Ok? && m in Output(rules, mode, rows).rows && c in m.contributions
    ensures m.row in rows && c.rule in rules && c.rule.source == m.row.source
  {
    MapRowsTotals(rules, mode, rows, "t", Payment);
    var out := Output(rules, mode, rows).rows;
    var i :| 0 <= i < |out| && out[i] == m;
    RecordAt(rules, mode, rows, i);
    OnlySelectorIssues(rules, mode, rows[i]);
    ContributionSource(rules, mode, rows[i], c);
    ChosenMatches(rules, rows[i], c.field, c.rule);
  }

  /** In either mode every stored mapping names a rule of the run, of the source of its row. */
  lemma MappingsLineage(x: Inputs)
    requires Maps(x)
    ensures RulesKnown(MappingsOf(AllRows(x)), x.paymentRules + x.settlementRules)
    ensures Lineage(MappingsOf(AllRows(x)))
  {
    forall y | y in MappingsOf(AllRows(x))
      ensures y.rule.source == y.row.source
      ensures exists r :: r in x.paymentRules + x.settlementRules && KeyOfRule(r) == y.rule
    {
      var m, c := MappingOrigin(AllRows(x), y);
      if m in PaymentOutput(x).rows {
        RecordedContribution(x.paymentRules, x.mode, x.payments, m, c);
      } else {
        RecordedContribution(x.settlementRules, x.mode, x.settlements, m, c);
      }
      assert c.rule in x.paymentRules + x.settlementRules && KeyOfRule(c.rule) == y.rule;
    }
  }

  // ----- Strict rows use a rule once

  lemma DifferentKeys(rules: seq<ConfigRule>, r: ConfigRule, r': ConfigRule)
    requires DistinctKeys(rules) && r in rules && r' in rules && r != r'
    ensures KeyOfRule(r) != KeyOfRule(r')
  {
    var i :| 0 <= i < |rules| && rules[i] == r;
    var j :| 0 <= j < |rules| && rules[j] == r';
    assert i < j || j < i;
  }

  /** The contributions of a strict row come from different rules. */
  lemma StrictRowUnique(rules: seq<ConfigRule>, row: RawRow)
    requires DistinctKeys(rules) && row.kind == Transaction && MapRow(rules, Strict, row).error.None?
    ensures UniqueMappings(Map(MappingOf(row), MapRow(rules, Strict, row).m.contributions))
  {
    StrictFields(rules, row);
    var cs := MapRow(rules, Strict, row).m.contributions;
    forall i, j | 0 <= i < j < |cs|
      ensures MappingOf(row)(cs[i]).rule != MappingOf(row)(cs[j]).rule
    {
      ContributionSource(rules, Strict, row, cs[i]);
      ContributionSource(rules, Strict, row, cs[j]);
      ChosenMatches(rules, row, cs[i].field, cs[i].rule);
      ChosenMatches(rules, row, cs[j].field, cs[j].rule);
      DifferentKeys(rules, cs[i].rule, cs[j].rule);
    }
  }

  predicate RowsUnique(rows: seq<MappedRow>) {
    forall m | m in rows :: UniqueMappings(Map(MappingOf(m.row), m.contributions))
  }

  lemma UniqueConcat(a: seq<RowMapping>, b: seq<RowMapping>)
    requires forall x, y | x in a && y in b :: x.row != y.row
    ensures UniqueMappings(a + b) <==> UniqueMappings(a) && UniqueMappings(b)
  {
    var s := a + b;
    if UniqueMappings(s) {
      assert forall i | 0 <= i < |a| :: a[i] == s[i];
      assert forall i | 0 <= i < |b| :: b[i] == s[|a| + i];
    }
  }

  /** Mappings are unique when they are within each row, since different rows have different ids. */
  lemma {:induction false} UniqueByRow(rows: seq<MappedRow>)
    requires UniqueRows(Map(RowOf(), rows))
    ensures UniqueMappings(MappingsOf(rows)) <==> RowsUnique(rows)
  {
    if rows != [] {
      var raw := Map(RowOf(), rows);
      assert raw[1..] == Map(RowOf(), rows[1..]);
      assert rows == [rows[0]] + rows[1..];
      UniqueByRow(rows[1..]);
      OtherRowsMappings(rows);
      UniqueConcat(Map(MappingOf(rows[0].row), rows[0].contributions), MappingsOf(rows[1..]));
    }
  }

  lemma OtherRowsMappings(rows: seq<MappedRow>)
    requires rows != [] && UniqueRows(Map(RowOf(), rows))
    ensures forall a, b | a in Map(MappingOf(rows[0].row), rows[0].contributions) && b in MappingsOf(rows[1..]) :: a.row != b.row
  {
    var raw := Map(RowOf(), rows);
    forall a, b | a in Map(MappingOf(rows[0].row), rows[0].contributions) && b in MappingsOf(rows[1..])
      ensures a.row != b.row
    {
      var m, c := MappingOrigin(rows[1..], b);
      var i :| 0 <= i < |rows[1..]| && rows[1..][i] == m;
      assert raw[i + 1] == m.row && raw[0] == rows[0].row;
    }
  }

  lemma StrictRowsUnique(rules: seq<ConfigRule>, rows: seq<RawRow>)
    requires DistinctKeys(rules) && MapRows(rules, Strict, rows).Ok?
    ensures RowsUnique(Output(rules, Strict, rows).rows)
  {
    MapRowsTotals(rules, Strict, rows, "t", Payment);
    var out := Output(rules, Strict, rows).rows;
    forall m | m in out
      ensures UniqueMappings(Map(MappingOf(m.row), m.contributions))
    {
      var i :| 0 <= i < |out| && out[i] == m;
      assert rows[i] in rows;
      RecordAt(rules, Strict, rows, i);
      OnlySelectorIssues(rules, Strict, rows[i]);
      if rows[i].kind == Transaction {
        StrictRowUnique(rules, rows[i]);
      }
    }
  }

  // ----- What the database asks of a strict run

  /** The rows have their own places, and at most one metadata row of the settlement, with a total. */
  predicate RowsStorable(rows: seq<RawRow>, selected: string) {
    && UniqueRows(rows) && Located(rows)
    && |Filter(ControlRows(selected), rows)| <= 1
    && forall r | r in Filter(ControlRows(selected), rows) :: r.hasRecon
  }

  lemma DistinctPart(a: seq<ConfigRule>, b: seq<ConfigRule>)
    requires DistinctKeys(a + b)
    ensures DistinctKeys(a) && DistinctKeys(b)
  {
    assert forall i | 0 <= i < |a| :: a[i] == (a + b)[i];
    assert forall i | 0 <= i < |b| :: b[i] == (a + b)[|a| + i];
  }

  /** In either mode the database accepts a run exactly when its rows have their own places and no row uses a
      rule twice. */
  lemma StorableIff(x: Inputs)
    requires WellSourced(x) && Maps(x)
    ensures Storable(AllRows(x), x.paymentRules + x.settlementRules, x.selected) <==>
      RowsStorable(x.payments + x.settlements, x.selected) && RowsUnique(AllRows(x))
  {
    RowsAreInputs(x);
    MappingsLineage(x);
    if UniqueRows(x.payments + x.settlements) {
      UniqueByRow(AllRows(x));
    }
  }

  /** Under rules with different keys a strict run never uses a rule twice in a row. */
  lemma StrictRunUnique(x: Inputs)
    requires x.mode == Strict && Maps(x) && DistinctKeys(x.paymentRules + x.settlementRules)
    ensures RowsUnique(AllRows(x))
  {
    DistinctPart(x.paymentRules, x.settlementRules);
    StrictRowsUnique(x.paymentRules, x.payments);
    StrictRowsUnique(x.settlementRules, x.settlements);
  }

  /** A strict run under rules with different keys is accepted exactly when its rows are: nothing that mapping
      computes can break a constraint. */
  lemma StrictStorableIff(x: Inputs)
    requires x.mode == Strict && WellSourced(x) && Maps(x) && DistinctKeys(x.paymentRules + x.settlementRules)
    ensures Storable(AllRows(x), x.paymentRules + x.settlementRules, x.selected) <==>
      RowsStorable(x.payments + x.settlements, x.selected)
  {
    StrictRunUnique(x);
    StorableIff(x);
  }

  /** Behind the header control only the places of the rows are left to ask, and that the total was read. */
  lemma HeaderLeavesPlaces(x: Inputs)
    requires WellSourced(x) && HeaderPasses(x)
    ensures RowsStorable(x.payments + x.settlements, x.selected) <==>
      && UniqueRows(x.payments + x.settlements) && Located(x.payments + x.settlements)
      && Filter(MetadataOf(x.selected), x.settlements)[0].hasRecon
  {
    HeaderControls(x);
    var controls := Filter(MetadataOf(x.selected), x.settlements);
    assert controls == [controls[0]];
  }

  // ----- A transaction without a type

  /** `cs` adds one contribution for each chosen rule, in order. */
  predicate Added(before: seq<Contribution>, cs: seq<Contribution>, chosen: seq<ConfigRule>) {
    && |cs| == |before| + |chosen| && before <= cs
    && forall i | 0 <= i < |chosen| :: cs[|before| + i].rule == chosen[i]
  }

  lemma {:induction false} ApplyRulesList(contribute: Contributor, field: string, chosen: seq<ConfigRule>, m: MappedRow)
    requires WellKeyed(contribute) && ApplyRules(contribute, field, chosen, m).error.None?
    ensures Added(m.contributions, ApplyRules(contribute, field, chosen, m).m.contributions, chosen)
    decreases |chosen|
  {
    if chosen != [] {
      var c := contribute(field, chosen[0]).value;
      assert KeyedFrom(c, field, chosen[0]);
      var a := AddContribution(m, c);
      assert a.m.contributions == m.contributions + [c];
      ApplyRulesList(contribute, field, chosen[1..], a.m);
      var cs := ApplyRules(contribute, field, chosen, m).m.contributions;
      assert a.m.contributions <= cs;
      assert cs[|m.contributions|] == a.m.contributions[|m.contributions|] == c;
      forall i | 0 <= i < |chosen|
        ensures cs[|m.contributions| + i].rule == chosen[i]
      {
        if i > 0 {
          assert chosen[1..][i - 1] == chosen[i];
        }
      }
    }
  }

  lemma FieldAdds(contribute: Contributor, mode: Mode, field: string, chosen: seq<ConfigRule>, m: MappedRow)
    requires WellKeyed(contribute) && ApplyField(contribute, mode, field, chosen, m).error.None?
    ensures Added(m.contributions, ApplyField(contribute, mode, field, chosen, m).m.contributions, chosen)
  {
    var n := if |chosen| > 1 then m.(issues := m.issues + [DuplicateSelector(field, RuleLines(chosen))]) else m;
    ApplyRulesList(contribute, field, chosen, n);
  }

  lemma {:induction false} ApplyFieldsExtend(choose: Chooser, contribute: Contributor, mode: Mode, fields: seq<string>, m: MappedRow)
    requires WellKeyed(contribute) && ApplyFields(choose, contribute, mode, fields, m).error.None?
    ensures m.contributions <= ApplyFields(choose, contribute, mode, fields, m).m.contributions
    decreases |fields|
  {
    if fields != [] {
      FieldAdds(contribute, mode, fields[0], choose(fields[0]), m);
      ApplyFieldsExtend(choose, contribute, mode, fields[1..], ApplyField(contribute, mode, fields[0], choose(fields[0]), m).m);
    }
  }

  /** The contributions of the first field come first, one for each chosen rule. */
  lemma FirstField(choose: Chooser, contribute: Contributor, mode: Mode, fields: seq<string>, m: MappedRow)
    requires WellKeyed(contribute) && ApplyFields(choose, contribute, mode, fields, m).error.None?
    requires fields != [] && m.contributions == []
    ensures var cs, chosen := ApplyFields(choose, contribute, mode, fields, m).m.contributions, choose(fields[0]);
      |cs| >= |chosen| && forall i | 0 <= i < |chosen| :: cs[i].rule == chosen[i]
  {
    var a := ApplyField(contribute, mode, fields[0], choose(fields[0]), m);
    FieldAdds(contribute, mode, fields[0], choose(fields[0]), m);
    ApplyFieldsExtend(choose, contribute, mode, fields[1..], a.m);
    PrefixRules(a.m.contributions, ApplyFields(choose, contribute, mode, fields, m).m.contributions, choose(fields[0]));
  }

  lemma PrefixRules(a: seq<Contribution>, cs: seq<Contribution>, chosen: seq<ConfigRule>)
    requires Added([], a, chosen) && a <= cs
    ensures |cs| >= |chosen| && forall i | 0 <= i < |chosen| :: cs[i].rule == chosen[i]
  {
    assert forall i | 0 <= i < |a| :: cs[i] == a[i];
    assert forall i | 0 <= i < |chosen| :: a[0 + i].rule == chosen[i];
  }

  /** A transaction without a type that maps has two contributions of one rule. */
  lemma UntypedRepeats(rules: seq<ConfigRule>, mode: Mode, row: RawRow) returns (k: nat)
    requires row.kind == Transaction && Label(row.transaction) == "" && MapRow(rules, mode, row).error.None?
    ensures var cs := MapRow(rules, mode, row).m.contributions; 0 < k < |cs| && cs[0].rule == cs[k].rule
  {
    MappedRowShape(rules, mode, row);
    MapRowFields(rules, mode, row);
    var fields := FieldNames(rules, row);
    ContributorWellKeyed(row);
    assert fields != [];
    FirstField(ChosenFor(rules, row), ContributorOf(row), mode, fields, Blank(row));
    FieldNamesExact(rules, row, fields[0]);
    ChosenTwice(rules, row, fields[0]);
    var best := Filter(BestIn(rules, row, fields[0]), rules);
    assert best != [];
    assert ChosenFor(rules, row)(fields[0]) == best + best;
    k := |best|;
  }

  /** So no run stores it: the second mapping repeats the row and the rule of the first. */
  lemma UntypedNeverStored(x: Inputs, row: RawRow)
    requires Maps(x) && row in x.payments + x.settlements
    requires row.kind == Transaction && Label(row.transaction) == ""
    requires MapRow(if row in x.payments then x.paymentRules else x.settlementRules, x.mode, row).error.None?
    ensures !Storable(AllRows(x), x.paymentRules + x.settlementRules, x.selected)
  {
    var rules := if row in x.payments then x.paymentRules else x.settlementRules;
    var rows := if row in x.payments then x.payments else x.settlements;
    var out := Output(rules, x.mode, rows).rows;
    var i :| 0 <= i < |rows| && rows[i] == row;
    RecordAt(rules, x.mode, rows, i);
    OnlySelectorIssues(rules, x.mode, row);
    var k := UntypedRepeats(rules, x.mode, row);
    var m := out[i];
    assert m in AllRows(x);
    var own := Map(MappingOf(m.row), m.contributions);
    assert own[0].row == own[k].row && own[0].rule == own[k].rule;
    assert !RowsUnique(AllRows(x));
    if UniqueRows(Map(RowOf(), AllRows(x))) {
      UniqueByRow(AllRows(x));
    }
  }
}
