/** What a mapped row is: one key for all contributions and, in strict mode, one contribution per field. */
module StrictRows {
  import opened Text
  import opened Outcome
  import opened Domain
  import opened Normalize
  import opened Sequences
  import opened Engine
  import opened Selection

  // ----- Record keys

  predicate GoodParts(parts: seq<string>) {
    |parts| > 0 && forall p | p in parts :: p != "" && UNIT_SEPARATOR !in p
  }

  lemma JoinNonEmpty(parts: seq<string>)
    requires GoodParts(parts)
    ensures JoinKey(parts) != ""
  {
    assert parts[0] in parts;
  }

  lemma JoinKeyInjective(a: seq<string>, b: seq<string>)
    requires GoodParts(a) && GoodParts(b)
    ensures JoinKey(a) == JoinKey(b) <==> a == b
  {
    SplitInvertsJoin(a, UNIT_SEPARATOR);
    SplitInvertsJoin(b, UNIT_SEPARATOR);
  }

  predicate KeyedBy(c: Contribution, parts: seq<string>) {
    c.keyParts == parts && c.key == JoinKey(parts)
  }

  /** A row and its contributions agree on one key, which the first contribution sets. */
  predicate OneKey(m: MappedRow) {
    if m.contributions == [] then m.key == "" && m.keyParts == []
    else
      && GoodParts(m.keyParts) && m.key == JoinKey(m.keyParts)
      && forall c | c in m.contributions :: KeyedBy(c, m.keyParts)
  }

  /** Every contribution comes from a rule the engine chose for its field. */
  predicate Sourced(choose: Chooser, contribute: Contributor, m: MappedRow) {
    forall c | c in m.contributions :: c.rule in choose(c.field) && contribute(c.field, c.rule) == Ok(c)
  }

  /** Contributions carry their field, their rule, and a well-formed key. */
  ghost predicate WellKeyed(contribute: Contributor) {
    forall f, r :: contribute(f, r).Ok? ==> KeyedFrom(contribute(f, r).value, f, r)
  }

  predicate KeyedFrom(c: Contribution, field: string, rule: ConfigRule) {
    GoodParts(c.keyParts) && c.key == JoinKey(c.keyParts) && c.field == field && c.rule == rule
  }

  lemma ContributorWellKeyed(row: RawRow)
    ensures WellKeyed(ContributorOf(row))
  {
    forall f, r | ContributorOf(row)(f, r).Ok?
      ensures KeyedFrom(ContributorOf(row)(f, r).value, f, r)
    {
      ContributionKeyed(row, f, r);
    }
  }

  lemma ContributionKeyed(row: RawRow, field: string, rule: ConfigRule)
    requires ContributionFor(row, field, rule).Ok?
    ensures KeyedFrom(ContributionFor(row, field, rule).value, field, rule)
  {
  }

  lemma AddKeepsOneKey(m: MappedRow, c: Contribution)
    requires OneKey(m) && GoodParts(c.keyParts) && c.key == JoinKey(c.keyParts)
    ensures AddContribution(m, c).error.None? <==> m.contributions == [] || c.keyParts == m.keyParts
    ensures AddContribution(m, c).error.None? ==>
      OneKey(AddContribution(m, c).m) && AddContribution(m, c).m.keyParts == c.keyParts
  {
    JoinNonEmpty(c.keyParts);
    if m.contributions != [] {
      JoinNonEmpty(m.keyParts);
      JoinKeyInjective(m.keyParts, c.keyParts);
    }
  }

  lemma AddKeepsSourced(choose: Chooser, contribute: Contributor, m: MappedRow, field: string, rule: ConfigRule)
    requires WellKeyed(contribute) && Sourced(choose, contribute, m) && rule in choose(field)
    requires contribute(field, rule).Ok?
    ensures Sourced(choose, contribute, AddContribution(m, contribute(field, rule).value).m)
  {
    var c := contribute(field, rule).value;
    assert KeyedFrom(c, field, rule);
    var m' := AddContribution(m, c).m;
    assert m'.contributions == m.contributions + [c];
    assert forall x | x in m'.contributions :: x in m.contributions || x == c;
  }

  lemma {:induction false} ApplyRulesKeeps(choose: Chooser, contribute: Contributor, field: string, chosen: seq<ConfigRule>, m: MappedRow)
    requires WellKeyed(contribute) && OneKey(m) && Sourced(choose, contribute, m)
    requires forall r | r in chosen :: r in choose(field)
    ensures var a := ApplyRules(contribute, field, chosen, m);
      && a.m.row == m.row && Sourced(choose, contribute, a.m) && a.m.issues == m.issues
      && (a.error.None? ==> OneKey(a.m))
    decreases |chosen|
  {
    if chosen != [] && contribute(field, chosen[0]).Ok? {
      var c := contribute(field, chosen[0]).value;
      assert KeyedFrom(c, field, chosen[0]);
      AddKeepsOneKey(m, c);
      AddKeepsSourced(choose, contribute, m, field, chosen[0]);
      if AddContribution(m, c).error.None? {
        ApplyRulesKeeps(choose, contribute, field, chosen[1..], AddContribution(m, c).m);
      }
    }
  }

  lemma {:induction false} ApplyFieldsKeeps(choose: Chooser, contribute: Contributor, mode: Mode, fields: seq<string>, m: MappedRow)
    requires WellKeyed(contribute) && OneKey(m) && Sourced(choose, contribute, m)
    ensures var a := ApplyFields(choose, contribute, mode, fields, m);
      && a.m.row == m.row && Sourced(choose, contribute, a.m) && (a.error.None? ==> OneKey(a.m))
      && (mode == Strict ==> a.m.issues == m.issues)
    decreases |fields|
  {
    if fields != [] {
      var chosen := choose(fields[0]);
      if !(|chosen| > 1 && mode == Strict) {
        var m' := if |chosen| > 1 then m.(issues := m.issues + [DuplicateSelector(fields[0], RuleLines(chosen))]) else m;
        ApplyRulesKeeps(choose, contribute, fields[0], chosen, m');
        var a := ApplyField(contribute, mode, fields[0], chosen, m);
        if a.error.None? {
          ApplyFieldsKeeps(choose, contribute, mode, fields[1..], a.m);
        }
      }
    }
  }

  /** The key of a row is its parts joined; without a contribution there is none. A row that fails keeps the key
      its first contribution set. */
  predicate KeyWhole(m: MappedRow) {
    if m.key == "" then m.keyParts == [] else GoodParts(m.keyParts) && m.key == JoinKey(m.keyParts)
  }

  lemma AddKeepsKeyWhole(m: MappedRow, c: Contribution)
    requires KeyWhole(m) && GoodParts(c.keyParts) && c.key == JoinKey(c.keyParts)
    ensures KeyWhole(AddContribution(m, c).m)
  {
    JoinNonEmpty(c.keyParts);
  }

  lemma {:induction false} ApplyRulesKey(contribute: Contributor, field: string, chosen: seq<ConfigRule>, m: MappedRow)
    requires WellKeyed(contribute) && KeyWhole(m)
    ensures KeyWhole(ApplyRules(contribute, field, chosen, m).m)
    decreases |chosen|
  {
    if chosen != [] && contribute(field, chosen[0]).Ok? {
      var c := contribute(field, chosen[0]).value;
      assert KeyedFrom(c, field, chosen[0]);
      AddKeepsKeyWhole(m, c);
      ApplyRulesKey(contribute, field, chosen[1..], AddContribution(m, c).m);
    }
  }

  lemma {:induction false} ApplyFieldsKey(choose: Chooser, contribute: Contributor, mode: Mode, fields: seq<string>, m: MappedRow)
    requires WellKeyed(contribute) && KeyWhole(m)
    ensures KeyWhole(ApplyFields(choose, contribute, mode, fields, m).m)
    decreases |fields|
  {
    if fields != [] {
      var chosen := choose(fields[0]);
      var m' := if |chosen| > 1 then m.(issues := m.issues + [DuplicateSelector(fields[0], RuleLines(chosen))]) else m;
      ApplyRulesKey(contribute, fields[0], chosen, m');
      ApplyFieldsKey(choose, contribute, mode, fields[1..], ApplyField(contribute, mode, fields[0], chosen, m).m);
    }
  }

  lemma RowKeyWhole(rules: seq<ConfigRule>, mode: Mode, row: RawRow)
    ensures KeyWhole(MapRow(rules, mode, row).m)
  {
    if row.kind != Metadata {
      ContributorWellKeyed(row);
      ApplyFieldsKey(ChosenFor(rules, row), ContributorOf(row), mode, FieldNames(rules, row), Blank(row));
      ConcludedKeeps(MapFields(rules, mode, row));
    }
  }

  lemma EqualKeysEqualParts(m: MappedRow, n: MappedRow)
    requires KeyWhole(m) && KeyWhole(n) && m.key == n.key
    ensures m.keyParts == n.keyParts
  {
    if m.key != "" {
      JoinKeyInjective(m.keyParts, n.keyParts);
    }
  }

  predicate SelectorIssuesOnly(issues: seq<Issue>) {
    forall i | i in issues :: i.DuplicateSelector?
  }

  lemma {:induction false} ApplyRulesIssues(contribute: Contributor, field: string, chosen: seq<ConfigRule>, m: MappedRow)
    ensures var a := ApplyRules(contribute, field, chosen, m); a.m.issues == m.issues && a.m.row == m.row
    decreases |chosen|
  {
    if chosen != [] && contribute(field, chosen[0]).Ok? {
      ApplyRulesIssues(contribute, field, chosen[1..], AddContribution(m, contribute(field, chosen[0]).value).m);
    }
  }

  lemma {:induction false} ApplyFieldsIssues(choose: Chooser, contribute: Contributor, mode: Mode, fields: seq<string>, m: MappedRow)
    requires SelectorIssuesOnly(m.issues)
    ensures var a := ApplyFields(choose, contribute, mode, fields, m); SelectorIssuesOnly(a.m.issues) && a.m.row == m.row
    decreases |fields|
  {
    if fields != [] {
      var chosen := choose(fields[0]);
      var m' := if |chosen| > 1 then m.(issues := m.issues + [DuplicateSelector(fields[0], RuleLines(chosen))]) else m;
      ApplyRulesIssues(contribute, fields[0], chosen, m');
      ApplyFieldsIssues(choose, contribute, mode, fields[1..], ApplyField(contribute, mode, fields[0], chosen, m).m);
    }
  }

  /** Mapping a row keeps the row and reports nothing but duplicate selectors, whether or not it fails. */
  lemma OnlySelectorIssues(rules: seq<ConfigRule>, mode: Mode, row: RawRow)
    ensures SelectorIssuesOnly(MapRow(rules, mode, row).m.issues) && MapRow(rules, mode, row).m.row == row
  {
    MapFieldsIssues(rules, mode, row);
    var a := MapFields(rules, mode, row);
    assert Finish(a.m).m == a.m;
  }

  lemma MapFieldsIssues(rules: seq<ConfigRule>, mode: Mode, row: RawRow)
    ensures SelectorIssuesOnly(MapFields(rules, mode, row).m.issues) && MapFields(rules, mode, row).m.row == row
  {
    ApplyFieldsIssues(ChosenFor(rules, row), ContributorOf(row), mode, FieldNames(rules, row), Blank(row));
  }

  /** A transaction row mapped without error, in any mode: one non-empty key made of non-empty parts free
      of the delimiter, shared by all its contributions, each of which a chosen rule produced. */
  lemma MappedRowShape(rules: seq<ConfigRule>, mode: Mode, row: RawRow)
    requires row.kind == Transaction && MapRow(rules, mode, row).error.None?
    ensures var m := MapRow(rules, mode, row).m;
      && m.row == row && m.contributions != [] && m.key != ""
      && OneKey(m) && Sourced(ChosenFor(rules, row), ContributorOf(row), m)
      && (mode == Strict ==> m.issues == [])
      && !(row.source == Payment && RoutesTotalAndComponent(m.contributions))
  {
    FinishedFields(rules, mode, row);
    MapFieldsShape(rules, mode, row);
  }

  lemma FinishedFields(rules: seq<ConfigRule>, mode: Mode, row: RawRow)
    requires row.kind == Transaction && MapRow(rules, mode, row).error.None?
    ensures MapFields(rules, mode, row).error.None? && MapFields(rules, mode, row).m == MapRow(rules, mode, row).m
    ensures MapRow(rules, mode, row).m.key != ""
    ensures var m := MapRow(rules, mode, row).m; !(m.row.source == Payment && RoutesTotalAndComponent(m.contributions))
  {
    ConcludedShape(MapFields(rules, mode, row));
  }

  lemma ConcludedShape(a: Attempt)
    requires Concluded(a).error.None?
    ensures a.error.None? && Concluded(a).m == a.m && a.m.key != ""
    ensures !(a.m.row.source == Payment && RoutesTotalAndComponent(a.m.contributions))
  {
  }

  lemma MapFieldsShape(rules: seq<ConfigRule>, mode: Mode, row: RawRow)
    requires MapFields(rules, mode, row).error.None?
    ensures var m := MapFields(rules, mode, row).m;
      && m.row == row && OneKey(m) && Sourced(ChosenFor(rules, row), ContributorOf(row), m)
      && (mode == Strict ==> m.issues == [])
  {
    ContributorWellKeyed(row);
    ApplyFieldsKeeps(ChosenFor(rules, row), ContributorOf(row), mode, FieldNames(rules, row), Blank(row));
  }

  lemma ChosenFromRules(rules: seq<ConfigRule>, row: RawRow, field: string, r: ConfigRule)
    requires r in Chosen(rules, row, field)
    ensures r in rules
  {
    var selected := Selected(rules, row);
    assert r in Filter(InField(row, field), selected);
    assert r in Filter(MatchingRow(row), Candidates(rules, row));
  }

  /** What a rule contributes: the amount of the field, sent to the target of the amount's sign. */
  predicate Applies(row: RawRow, c: Contribution) {
    && AmountFor(row, c.field) == Ok(c.amount)
    && Expand(c.rule.recordRef, row) == Ok(c.keyParts)
    && c.target == (if c.amount < 0 then c.rule.negativeTarget else c.rule.positiveTarget)
  }

  lemma ContributionApplies(row: RawRow, field: string, rule: ConfigRule)
    requires ContributionFor(row, field, rule).Ok?
    ensures Applies(row, ContributionFor(row, field, rule).value)
  {
  }

  /** Failed or not, a row keeps only contributions of rules the engine chose for it. */
  lemma RowSourced(rules: seq<ConfigRule>, mode: Mode, row: RawRow)
    ensures Sourced(ChosenFor(rules, row), ContributorOf(row), MapRow(rules, mode, row).m)
  {
    if row.kind != Metadata {
      ContributorWellKeyed(row);
      ApplyFieldsKeeps(ChosenFor(rules, row), ContributorOf(row), mode, FieldNames(rules, row), Blank(row));
      ConcludedKeeps(MapFields(rules, mode, row));
    }
  }

  lemma ConcludedKeeps(a: Attempt)
    ensures Concluded(a).m == a.m
  {
  }

  /** Where a contribution of a row comes from, whether or not the row failed. */
  lemma ContributionSource(rules: seq<ConfigRule>, mode: Mode, row: RawRow, c: Contribution)
    requires c in MapRow(rules, mode, row).m.contributions
    ensures c.rule in rules && c.rule in Chosen(rules, row, c.field) && Applies(row, c)
  {
    RowSourced(rules, mode, row);
    SourceOf(rules, row, MapRow(rules, mode, row).m, c);
    ChosenFromRules(rules, row, c.field, c.rule);
    ContributionApplies(row, c.field, c.rule);
  }

  /** The same for a row mapped without error, whose contributions carry its key. */
  lemma ContributionOrigin(rules: seq<ConfigRule>, mode: Mode, row: RawRow, c: Contribution)
    requires row.kind == Transaction && MapRow(rules, mode, row).error.None?
    requires c in MapRow(rules, mode, row).m.contributions
    ensures c.rule in rules && Applies(row, c)
    ensures c.key == MapRow(rules, mode, row).m.key && c.keyParts == MapRow(rules, mode, row).m.keyParts
  {
    MappedRowShape(rules, mode, row);
    var m := MapRow(rules, mode, row).m;
    assert KeyedBy(c, m.keyParts);
    ContributionSource(rules, mode, row, c);
  }

  lemma SourceOf(rules: seq<ConfigRule>, row: RawRow, m: MappedRow, c: Contribution)
    requires Sourced(ChosenFor(rules, row), ContributorOf(row), m) && c in m.contributions
    ensures c.rule in Chosen(rules, row, c.field) && ContributionFor(row, c.field, c.rule) == Ok(c)
  {
  }

  /** Record keys are faithful: two mapped rows, of either source and under any rules, have equal keys
      exactly when their key parts are equal. */
  lemma KeysFaithful(rules: seq<ConfigRule>, mode: Mode, row: RawRow, rules': seq<ConfigRule>, mode': Mode, row': RawRow)
    requires row.kind == Transaction && MapRow(rules, mode, row).error.None?
    requires row'.kind == Transaction && MapRow(rules', mode', row').error.None?
    ensures MapRow(rules, mode, row).m.key == MapRow(rules', mode', row').m.key <==>
      MapRow(rules, mode, row).m.keyParts == MapRow(rules', mode', row').m.keyParts
    ensures Split(MapRow(rules, mode, row).m.key, UNIT_SEPARATOR) == MapRow(rules, mode, row).m.keyParts
  {
    MappedRowShape(rules, mode, row);
    MappedRowShape(rules', mode', row');
    JoinKeyInjective(MapRow(rules, mode, row).m.keyParts, MapRow(rules', mode', row').m.keyParts);
    SplitInvertsJoin(MapRow(rules, mode, row).m.keyParts, UNIT_SEPARATOR);
  }

  // ----- Strict mode

  /** One field's part of a strict mapping: a single chosen rule whose contribution is `c`. */
  predicate SoleContribution(choose: Chooser, contribute: Contributor, field: string, c: Contribution) {
    choose(field) == [c.rule] && contribute(field, c.rule) == Ok(c)
  }

  /** `cs` maps the fields one by one, under a single key. */
  predicate Plan(choose: Chooser, contribute: Contributor, fields: seq<string>, cs: seq<Contribution>) {
    && |cs| == |fields|
    && (forall i | 0 <= i < |cs| :: SoleContribution(choose, contribute, fields[i], cs[i]))
    && forall i, j | 0 <= i < j < |cs| :: cs[i].keyParts == cs[j].keyParts
  }

  lemma ApplySole(contribute: Contributor, field: string, chosen: seq<ConfigRule>, m: MappedRow)
    requires chosen != []
    ensures var a := ApplyField(contribute, Strict, field, chosen, m);
      if |chosen| == 1 && contribute(field, chosen[0]).Ok? then
        var b := AddContribution(m, contribute(field, chosen[0]).value);
        if b.error.None? then a == b else a.error.Some?
      else a.error.Some?
  {
    if |chosen| == 1 && contribute(field, chosen[0]).Ok? {
      assert [chosen[0]][1..] == [];
      var b := AddContribution(m, contribute(field, chosen[0]).value);
      assert chosen[1..] == [];
      assert ApplyRules(contribute, field, [], b.m) == Attempt(b.m, None);
    }
  }

  /** One successful step of the field loop adds the sole contribution of the first field. */
  lemma FirstStep(choose: Chooser, contribute: Contributor, fields: seq<string>, m: MappedRow) returns (c: Contribution)
    requires WellKeyed(contribute) && fields != [] && choose(fields[0]) != [] && OneKey(m)
    requires ApplyFields(choose, contribute, Strict, fields, m).error.None?
    ensures SoleContribution(choose, contribute, fields[0], c)
    ensures ApplyFields(choose, contribute, Strict, fields, m) == ApplyFields(choose, contribute, Strict, fields[1..], Extended(m, c))
    ensures OneKey(Extended(m, c)) && (m.contributions != [] ==> c.keyParts == m.keyParts)
  {
    ApplySole(contribute, fields[0], choose(fields[0]), m);
    var rule := choose(fields[0])[0];
    c := contribute(fields[0], rule).value;
    assert KeyedFrom(c, fields[0], rule);
    assert choose(fields[0]) == [rule];
    AddKeepsOneKey(m, c);
    AddExtends(m, c);
  }

  function Extended(m: MappedRow, c: Contribution): MappedRow {
    m.(contributions := m.contributions + [c], key := c.key, keyParts := c.keyParts)
  }

  lemma AddExtends(m: MappedRow, c: Contribution)
    requires OneKey(m) && GoodParts(c.keyParts) && c.key == JoinKey(c.keyParts)
    requires m.contributions == [] || c.keyParts == m.keyParts
    ensures AddContribution(m, c) == Attempt(Extended(m, c), None)
  {
    JoinNonEmpty(c.keyParts);
  }

  predicate SameParts(cs: seq<Contribution>, parts: seq<string>) {
    forall i | 0 <= i < |cs| :: cs[i].keyParts == parts
  }

  lemma PlanCons(choose: Chooser, contribute: Contributor, fields: seq<string>, before: seq<Contribution>, c: Contribution, rest: seq<Contribution>)
    requires fields != [] && SoleContribution(choose, contribute, fields[0], c)
    requires Plan(choose, contribute, fields[1..], rest)
    requires SameParts(rest, c.keyParts)
    ensures Plan(choose, contribute, fields, [c] + rest)
    ensures SameParts([c] + rest, c.keyParts)
    ensures before + ([c] + rest) == (before + [c]) + rest
  {
    ConcatAssociative(before, [c], rest);
    var cs := [c] + rest;
    forall i | 0 <= i < |cs|
      ensures SoleContribution(choose, contribute, fields[i], cs[i]) && cs[i].keyParts == c.keyParts
    {
      if i > 0 {
        assert cs[i] == rest[i - 1] && fields[i] == fields[1..][i - 1];
        assert SoleContribution(choose, contribute, fields[1..][i - 1], rest[i - 1]);
      }
    }
  }

  /** Strict mapping of the fields succeeds only along a plan, and appends it. */
  lemma {:induction false} ApplyFieldsPlan(choose: Chooser, contribute: Contributor, fields: seq<string>, m: MappedRow)
      returns (cs: seq<Contribution>)
    requires forall f | f in fields :: choose(f) != []
    requires WellKeyed(contribute) && OneKey(m)
    requires ApplyFields(choose, contribute, Strict, fields, m).error.None?
    ensures Plan(choose, contribute, fields, cs)
    ensures m.contributions != [] ==> SameParts(cs, m.keyParts)
    ensures ApplyFields(choose, contribute, Strict, fields, m).m.contributions == m.contributions + cs
    decreases |fields|
  {
    if fields == [] {
      cs := [];
    } else {
      var c := FirstStep(choose, contribute, fields, m);
      var rest := ApplyFieldsPlan(choose, contribute, fields[1..], Extended(m, c));
      PlanCons(choose, contribute, fields, m.contributions, c, rest);
      cs := [c] + rest;
    }
  }

  lemma PlanStep(choose: Chooser, contribute: Contributor, fields: seq<string>, m: MappedRow, c: Contribution)
    requires fields != [] && SoleContribution(choose, contribute, fields[0], c)
    requires WellKeyed(contribute) && OneKey(m) && (m.contributions != [] ==> c.keyParts == m.keyParts)
    ensures ApplyFields(choose, contribute, Strict, fields, m) == ApplyFields(choose, contribute, Strict, fields[1..], Extended(m, c))
    ensures OneKey(Extended(m, c))
  {
    assert KeyedFrom(c, fields[0], c.rule);
    AddExtends(m, c);
    AddKeepsOneKey(m, c);
    ApplySole(contribute, fields[0], choose(fields[0]), m);
  }

  lemma {:induction false} PlanApplies(choose: Chooser, contribute: Contributor, fields: seq<string>, m: MappedRow, cs: seq<Contribution>)
    requires WellKeyed(contribute) && OneKey(m) && Plan(choose, contribute, fields, cs)
    requires m.contributions != [] ==> SameParts(cs, m.keyParts)
    ensures ApplyFields(choose, contribute, Strict, fields, m).error.None?
    ensures ApplyFields(choose, contribute, Strict, fields, m).m.contributions == m.contributions + cs
    decreases |fields|
  {
    if fields != [] {
      var c, rest := cs[0], cs[1..];
      PlanStep(choose, contribute, fields, m, c);
      PlanTail(choose, contribute, fields, cs);
      PlanApplies(choose, contribute, fields[1..], Extended(m, c), rest);
      assert m.contributions + cs == (m.contributions + [c]) + rest;
    }
  }

  lemma PlanTail(choose: Chooser, contribute: Contributor, fields: seq<string>, cs: seq<Contribution>)
    requires fields != [] && Plan(choose, contribute, fields, cs)
    ensures Plan(choose, contribute, fields[1..], cs[1..])
    ensures SameParts(cs[1..], cs[0].keyParts)
  {
    forall i | 0 <= i < |cs[1..]|
      ensures SoleContribution(choose, contribute, fields[1..][i], cs[1..][i])
    {
      assert SoleContribution(choose, contribute, fields[i + 1], cs[i + 1]);
    }
  }

  predicate StrictPlan(rules: seq<ConfigRule>, row: RawRow, cs: seq<Contribution>) {
    && Plan(ChosenFor(rules, row), ContributorOf(row), FieldNames(rules, row), cs) && cs != []
    && !(row.source == Payment && RoutesTotalAndComponent(cs))
  }

  lemma FieldsHaveChoice(rules: seq<ConfigRule>, row: RawRow)
    ensures forall f | f in FieldNames(rules, row) :: ChosenFor(rules, row)(f) != []
  {
    forall f | f in FieldNames(rules, row)
      ensures ChosenFor(rules, row)(f) != []
    {
      FieldNamesExact(rules, row, f);
    }
  }

  /** Strict success, declaratively: exactly one rule for every field with a match, a contribution from each,
      one common key, at least one field, and not both the total and a component routed. */
  lemma StrictMapsIff(rules: seq<ConfigRule>, row: RawRow)
    requires row.kind == Transaction
    ensures MapRow(rules, Strict, row).error.None? <==> exists cs :: StrictPlan(rules, row, cs)
  {
    if MapRow(rules, Strict, row).error.None? {
      StrictContributions(rules, row);
    }
    if cs :| StrictPlan(rules, row, cs) {
      PlanMaps(rules, row, cs);
    }
  }

  lemma PlanMaps(rules: seq<ConfigRule>, row: RawRow, cs: seq<Contribution>)
    requires row.kind == Transaction && StrictPlan(rules, row, cs)
    ensures MapRow(rules, Strict, row).error.None? && MapRow(rules, Strict, row).m.contributions == cs
  {
    var fields := FieldNames(rules, row);
    ContributorWellKeyed(row);
    PlanApplies(ChosenFor(rules, row), ContributorOf(row), fields, Blank(row), cs);
    ApplyFieldsKeeps(ChosenFor(rules, row), ContributorOf(row), Strict, fields, Blank(row));
    assert [] + cs == cs;
    JoinNonEmpty(ApplyFields(ChosenFor(rules, row), ContributorOf(row), Strict, fields, Blank(row)).m.keyParts);
  }

  lemma MapRowFields(rules: seq<ConfigRule>, mode: Mode, row: RawRow)
    requires row.kind == Transaction && MapRow(rules, mode, row).error.None?
    ensures MapFields(rules, mode, row) == MapRow(rules, mode, row)
  {
  }

  lemma MapFieldsPlan(rules: seq<ConfigRule>, row: RawRow) returns (cs: seq<Contribution>)
    requires MapFields(rules, Strict, row).error.None?
    ensures Plan(ChosenFor(rules, row), ContributorOf(row), FieldNames(rules, row), cs)
    ensures MapFields(rules, Strict, row).m.contributions == cs
  {
    FieldsHaveChoice(rules, row);
    ContributorWellKeyed(row);
    cs := ApplyFieldsPlan(ChosenFor(rules, row), ContributorOf(row), FieldNames(rules, row), Blank(row));
    assert [] + cs == cs;
  }

  /** The contributions of a strictly mapped row are the plan: one per field, in field order. */
  lemma StrictContributions(rules: seq<ConfigRule>, row: RawRow)
    requires row.kind == Transaction && MapRow(rules, Strict, row).error.None?
    ensures StrictPlan(rules, row, MapRow(rules, Strict, row).m.contributions)
  {
    MappedRowShape(rules, Strict, row);
    MapRowFields(rules, Strict, row);
    var cs := MapFieldsPlan(rules, row);
    var m := MapRow(rules, Strict, row).m;
    assert m.contributions == cs;
    assert StrictPlan(rules, row, cs);
  }

  predicate DistinctFields(cs: seq<Contribution>) {
    forall i, j | 0 <= i < j < |cs| :: cs[i].field != cs[j].field
  }

  /** Strictly mapped contributions are of different fields. */
  lemma StrictFields(rules: seq<ConfigRule>, row: RawRow)
    requires row.kind == Transaction && MapRow(rules, Strict, row).error.None?
    ensures DistinctFields(MapRow(rules, Strict, row).m.contributions)
  {
    StrictContributions(rules, row);
    FieldNamesDistinct(rules, row);
    var cs, fields := MapRow(rules, Strict, row).m.contributions, FieldNames(rules, row);
    forall i | 0 <= i < |cs|
      ensures cs[i].field == fields[i]
    {
      assert SoleContribution(ChosenFor(rules, row), ContributorOf(row), fields[i], cs[i]);
      ContributionKeyed(row, fields[i], cs[i].rule);
    }
  }

  lemma FirstTwo(s: seq<string>, x: string)
    requires forall y | y in s :: y == x
    ensures |s| > 1 ==> s[0] == x && s[1] == x
  {
    assert forall i | 0 <= i < |s| :: s[i] in s;
  }

  lemma SettlementField(rules: seq<ConfigRule>, row: RawRow)
    requires row.source == Settlement
    ensures |FieldNames(rules, row)| <= 1
    ensures forall f | f in FieldNames(rules, row) :: f == "amount"
  {
    var fields := FieldNames(rules, row);
    forall f | f in fields
      ensures f == "amount"
    {
      FieldNamesMembers(rules, row, f);
    }
    FieldNamesDistinct(rules, row);
    FirstTwo(fields, "amount");
  }

  /** A strictly mapped settlement row has exactly one contribution, of its own reconciliation amount. */
  lemma StrictSettlement(rules: seq<ConfigRule>, row: RawRow)
    requires row.kind == Transaction && row.source == Settlement && MapRow(rules, Strict, row).error.None?
    ensures var cs := MapRow(rules, Strict, row).m.contributions;
      |cs| == 1 && cs[0].field == "amount" && row.hasRecon && cs[0].amount == row.reconAmount
  {
    StrictContributions(rules, row);
    SettlementField(rules, row);
    var fields := FieldNames(rules, row);
    var cs := MapRow(rules, Strict, row).m.contributions;
    assert fields[0] in fields && SoleContribution(ChosenFor(rules, row), ContributorOf(row), fields[0], cs[0]);
    ContributionKeyed(row, fields[0], cs[0].rule);
    SettlementAmount(row, fields[0], cs[0].rule);
  }

  lemma SettlementAmount(row: RawRow, field: string, rule: ConfigRule)
    requires row.source == Settlement && ContributionFor(row, field, rule).Ok?
    ensures row.hasRecon && ContributionFor(row, field, rule).value.amount == row.reconAmount
  {
  }

  /** Without a transaction type a row never maps strictly: every field that matches is ambiguous. */
  lemma EmptyTypeNeverStrict(rules: seq<ConfigRule>, row: RawRow)
    requires row.kind == Transaction && Label(row.transaction) == ""
    ensures MapRow(rules, Strict, row).error.Some?
  {
    if MapRow(rules, Strict, row).error.None? {
      StrictContributions(rules, row);
      var fields := FieldNames(rules, row);
      var cs := MapRow(rules, Strict, row).m.contributions;
      assert SoleContribution(ChosenFor(rules, row), ContributorOf(row), fields[0], cs[0]);
      ChosenTwice(rules, row, fields[0]);
    }
  }
}
