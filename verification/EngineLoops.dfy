/** Engine.Map in internal/mapping/engine.go as it runs: each loop computes the function of its step. */
module EngineLoops {
  import opened Text
  import opened Outcome
  import opened Domain
  import opened Money
  import opened Normalize
  import opened Sequences
  import opened Engine
  import opened StrictRows
  import opened MapRun

  type Index = map<string, seq<ConfigRule>>

  function At(index: Index, key: string): seq<ConfigRule> {
    if key in index then index[key] else []
  }

  /** An index of rules files each rule, in order, under the label of its transaction type. */
  ghost predicate Indexes(index: Index, rules: seq<ConfigRule>) {
    forall name :: At(index, name) == Filter(WithLabel(name), rules)
  }

  method BuildIndex(rules: seq<ConfigRule>) returns (index: Index)
    ensures Indexes(index, rules)
  {
    index := map[];
    for i := 0 to |rules|
      invariant Indexes(index, rules[..i])
    {
      var name := Label(rules[i].transactionType);
      ghost var before := index;
      index := index[name := At(index, name) + [rules[i]]];
      IndexSnoc(before, rules[..i], rules[i]);
      assert rules[..i + 1] == rules[..i] + [rules[i]];
    }
    assert rules[..|rules|] == rules;
  }

  lemma IndexSnoc(index: Index, rules: seq<ConfigRule>, r: ConfigRule)
    requires Indexes(index, rules)
    ensures Indexes(index[Label(r.transactionType) := At(index, Label(r.transactionType)) + [r]], rules + [r])
  {
    var name := Label(r.transactionType);
    forall key
      ensures At(index[name := At(index, name) + [r]], key) == Filter(WithLabel(key), rules + [r])
    {
      FilterSnoc(WithLabel(key), rules, r);
      assert WithLabel(key)(r) == (name == key);
      assert Filter(WithLabel(key), rules) + [] == Filter(WithLabel(key), rules);
    }
  }

  // ----- Selection

  /** The tests of the candidate loop, in its order. */
  method MatchCandidates(candidates: seq<ConfigRule>, row: RawRow) returns (selected: seq<ConfigRule>)
    ensures selected == Filter(MatchingRow(row), candidates)
  {
    selected := [];
    for i := 0 to |candidates|
      invariant selected == Filter(MatchingRow(row), candidates[..i])
    {
      var rule := candidates[i];
      FilterStep(MatchingRow(row), candidates, i);
      assert MatchingRow(row)(rule) == Matches(rule, row);
      if rule.source == row.source {
        var tx, rtx := Label(row.transaction), Label(rule.transactionType);
        if rtx == "" || rtx == tx {
          if row.source == Payment {
            if rule.amountField != "" && DescriptionMatch(row, rule.description) {
              selected := selected + [rule];
            }
          } else if Label(rule.amountType) == Label(row.amountType) && DescriptionMatch(row, rule.amountDescription) {
            selected := selected + [rule];
          }
        }
      }
    }
    assert candidates[..|candidates|] == candidates;
  }

  lemma FilterStep<T(!new)>(p: T -> bool, s: seq<T>, i: nat)
    requires i < |s|
    ensures Filter(p, s[..i + 1]) == if p(s[i]) then Filter(p, s[..i]) + [s[i]] else Filter(p, s[..i])
  {
    FilterSnoc(p, s[..i], s[i]);
    assert s[..i + 1] == s[..i] + [s[i]];
    assert Filter(p, s[..i]) + [] == Filter(p, s[..i]);
  }

  method AnySpecific(rules: seq<ConfigRule>) returns (found: bool)
    ensures found <==> exists r :: r in rules && Specific(r)
  {
    found := false;
    for i := 0 to |rules|
      invariant !found ==> forall j | 0 <= j < i :: !Specific(rules[j])
      invariant found ==> exists r :: r in rules && Specific(r)
    {
      if TrimSpace(rules[i].transactionType) != "" {
        assert rules[i] in rules && Specific(rules[i]);
        return true;
      }
    }
  }

  method SelectRules(index: Index, ghost rules: seq<ConfigRule>, row: RawRow) returns (selected: seq<ConfigRule>)
    requires Indexes(index, rules)
    ensures selected == Selected(rules, row)
  {
    var candidates := At(index, Label(row.transaction)) + At(index, "");
    selected := MatchCandidates(candidates, row);
    var hasSpecific := AnySpecific(selected);
    if hasSpecific {
      var kept: seq<ConfigRule> := [];
      for i := 0 to |selected|
        invariant kept == Filter(Specific, selected[..i])
      {
        FilterStep(Specific, selected, i);
        if TrimSpace(selected[i].transactionType) != "" {
          kept := kept + [selected[i]];
        }
      }
      assert selected[..|selected|] == selected;
      selected := kept;
    }
  }

  // ----- Fields

  /** byField files each selected rule, in order, under the field it applies to. */
  ghost predicate Fields(byField: Index, selected: seq<ConfigRule>, row: RawRow) {
    && (forall field :: At(byField, field) == Filter(InField(row, field), selected))
    && (forall field :: field in byField <==> exists r :: r in selected && FieldOf(r, row) == field)
  }

  function Filed(byField: Index, field: string, r: ConfigRule): Index {
    byField[field := At(byField, field) + [r]]
  }

  method GroupByField(selected: seq<ConfigRule>, row: RawRow) returns (byField: Index)
    ensures Fields(byField, selected, row)
  {
    byField := map[];
    for i := 0 to |selected|
      invariant Fields(byField, selected[..i], row)
    {
      var r := selected[i];
      var field := r.amountField;
      if row.source == Settlement {
        field := "amount";
      }
      assert selected[..i + 1] == selected[..i] + [r];
      FieldsSnoc(byField, selected[..i], row, r, field);
      byField := Filed(byField, field, r);
    }
    assert selected[..|selected|] == selected;
  }

  lemma FieldsSnoc(byField: Index, selected: seq<ConfigRule>, row: RawRow, r: ConfigRule, name: string)
    requires Fields(byField, selected, row) && name == FieldOf(r, row)
    ensures Fields(Filed(byField, name, r), selected + [r], row)
  {
    forall field
      ensures At(Filed(byField, name, r), field) == Filter(InField(row, field), selected + [r])
      ensures field in Filed(byField, name, r) <==> exists x :: x in selected + [r] && FieldOf(x, row) == field
    {
      FilterSnoc(InField(row, field), selected, r);
      assert InField(row, field)(r) == (name == field);
      assert Filter(InField(row, field), selected) + [] == Filter(InField(row, field), selected);
      assert r in selected + [r];
      if x :| x in selected && FieldOf(x, row) == field {
        assert x in selected + [r];
      }
    }
  }

  /** The keys of the map, in whatever order it yields them, then sorted. */
  method FieldList(byField: Index) returns (fields: seq<string>)
    ensures forall f :: f in fields <==> f in byField
    ensures forall i, j | 0 <= i < j < |fields| :: fields[i] != fields[j]
  {
    fields := [];
    var rest := byField.Keys;
    while rest != {}
      invariant rest <= byField.Keys
      invariant forall f :: f in fields <==> f in byField && f !in rest
      invariant forall i, j | 0 <= i < j < |fields| :: fields[i] != fields[j]
    {
      var f :| f in rest;
      fields := fields + [f];
      rest := rest - {f};
    }
  }

  /** Distinct lists of the same strings sort to the same list: the map order does not show. */
  lemma SortForgets(a: seq<string>, b: seq<string>)
    requires forall i, j | 0 <= i < j < |a| :: a[i] != a[j]
    requires forall i, j | 0 <= i < j < |b| :: b[i] != b[j]
    requires forall x :: x in a <==> x in b
    ensures Sort(a, Less) == Sort(b, Less)
  {
    ByteOrderTotal();
    TotalIsWeak(Less);
    forall x
      ensures multiset(a)[x] == multiset(b)[x]
    {
      CountDistinct(a, x);
      CountDistinct(b, x);
    }
    SortPermutation(a, b, Less);
  }

  lemma NamesOfFields(byField: Index, selected: seq<ConfigRule>, row: RawRow)
    requires Fields(byField, selected, row)
    ensures forall f :: f in byField <==> f in Map((r: ConfigRule) => FieldOf(r, row), selected)
  {
    var names := Map((r: ConfigRule) => FieldOf(r, row), selected);
    forall f
      ensures f in byField <==> f in names
    {
      if r :| r in selected && FieldOf(r, row) == f {
        var i :| 0 <= i < |selected| && selected[i] == r;
        assert names[i] == f;
      }
    }
  }

  lemma SortedFields(fields: seq<string>, byField: Index, rules: seq<ConfigRule>, row: RawRow)
    requires Fields(byField, Selected(rules, row), row)
    requires forall f :: f in fields <==> f in byField
    requires forall i, j | 0 <= i < j < |fields| :: fields[i] != fields[j]
    ensures Sort(fields, Less) == FieldNames(rules, row)
  {
    NamesOfFields(byField, Selected(rules, row), row);
    SortForgets(fields, Distinct(Map((r: ConfigRule) => FieldOf(r, row), Selected(rules, row))));
  }

  // ----- One field

  method PreferExact(inField: seq<ConfigRule>, row: RawRow) returns (chosen: seq<ConfigRule>)
    ensures chosen == KeepExact(inField, row)
  {
    var exact := false;
    for i := 0 to |inField|
      invariant exact <==> exists j :: 0 <= j < i && Exact(inField[j], row)
    {
      if row.source == Payment && Label(inField[i].description) != "ANY" {
        exact := true;
      }
      if row.source == Settlement && Label(inField[i].amountDescription) != "ANY" {
        exact := true;
      }
    }
    chosen := inField;
    if exact {
      var j :| 0 <= j < |inField| && Exact(inField[j], row);
      assert inField[j] in inField;
      chosen := [];
      for i := 0 to |inField|
        invariant chosen == Filter(ExactIn(row), inField[..i])
      {
        FilterStep(ExactIn(row), inField, i);
        assert ExactIn(row)(inField[i]) == Exact(inField[i], row);
        if row.source == Payment && Label(inField[i].description) != "ANY" {
          chosen := chosen + [inField[i]];
        }
        if row.source == Settlement && Label(inField[i].amountDescription) != "ANY" {
          chosen := chosen + [inField[i]];
        }
      }
      assert inField[..|inField|] == inField;
    }
  }

  /** The contribution loop: one contribution for each chosen rule, until one fails. */
  method Contribute(row: RawRow, field: string, chosen: seq<ConfigRule>, m0: MappedRow) returns (a: Attempt)
    ensures a == ApplyRules(ContributorOf(row), field, chosen, m0)
  {
    var m := m0;
    for i := 0 to |chosen|
      invariant ApplyRules(ContributorOf(row), field, chosen[i..], m) == ApplyRules(ContributorOf(row), field, chosen, m0)
    {
      assert chosen[i..][0] == chosen[i] && chosen[i..][1..] == chosen[i + 1..];
      var c := ContributionFor(row, field, chosen[i]);
      assert c == ContributorOf(row)(field, chosen[i]);
      if c.Err? {
        return Attempt(m, Some(c.error));
      }
      var key := c.value.key;
      m := m.(contributions := m.contributions + [c.value]);
      if m.key == "" && key != "" {
        m := m.(key := key, keyParts := c.value.keyParts);
      } else if key != "" && m.key != key {
        return Attempt(m, Some(ConflictingKeys(m.key, key)));
      }
    }
    return Attempt(m, None);
  }

  method CollectLines(rules: seq<ConfigRule>) returns (lines: seq<nat>)
    ensures lines == RuleLines(rules)
  {
    lines := [];
    for i := 0 to |rules|
      invariant lines == RuleLines(rules[..i])
    {
      lines := lines + [rules[i].originLine];
    }
    assert rules[..|rules|] == rules;
  }

  method MapField(row: RawRow, mode: Mode, field: string, chosen: seq<ConfigRule>, m0: MappedRow) returns (a: Attempt)
    ensures a == ApplyField(ContributorOf(row), mode, field, chosen, m0)
  {
    var m := m0;
    if |chosen| > 1 {
      var lines := CollectLines(chosen);
      if mode == Strict {
        return Attempt(m, Some(AmbiguousRules(field, lines)));
      }
      m := m.(issues := m.issues + [DuplicateSelector(field, lines)]);
    }
    a := Contribute(row, field, chosen, m);
  }

  method MapAllFields(byField: Index, fields: seq<string>, ghost rules: seq<ConfigRule>, mode: Mode, row: RawRow)
      returns (a: Attempt)
    requires Fields(byField, Selected(rules, row), row)
    ensures a == ApplyFields(ChosenFor(rules, row), ContributorOf(row), mode, fields, Blank(row))
  {
    var m := Blank(row);
    ghost var choose, contribute := ChosenFor(rules, row), ContributorOf(row);
    for i := 0 to |fields|
      invariant ApplyFields(choose, contribute, mode, fields[i..], m) == ApplyFields(choose, contribute, mode, fields, Blank(row))
    {
      assert fields[i..][0] == fields[i] && fields[i..][1..] == fields[i + 1..];
      var chosen := PreferExact(At(byField, fields[i]), row);
      assert chosen == choose(fields[i]);
      a := MapField(row, mode, fields[i], chosen, m);
      if a.error.Some? {
        return;
      }
      m := a.m;
    }
    return Attempt(m, None);
  }

  /** Whether a payment row routes both its total and a component. */
  method TotalAndComponentRouted(cs: seq<Contribution>) returns (both: bool)
    ensures both == RoutesTotalAndComponent(cs)
  {
    var total, component := false, false;
    for i := 0 to |cs|
      invariant total <==> exists j :: 0 <= j < i && Routes(cs[j]) && cs[j].field == "total"
      invariant component <==> exists j :: 0 <= j < i && Routes(cs[j]) && cs[j].field != "total"
    {
      if cs[i].target != "" && cs[i].amount != 0 {
        if cs[i].field == "total" {
          total := true;
        } else {
          component := true;
        }
      }
    }
    both := total && component;
    assert forall j | 0 <= j < |cs| :: cs[j] in cs;
  }

  method MapOneRow(index: Index, ghost rules: seq<ConfigRule>, mode: Mode, row: RawRow) returns (a: Attempt)
    requires Indexes(index, rules)
    ensures a == MapRow(rules, mode, row)
  {
    if row.kind == Metadata {
      return Attempt(Blank(row), None);
    }
    var selected := SelectRules(index, rules, row);
    var byField := GroupByField(selected, row);
    var fields := FieldList(byField);
    SortedFields(fields, byField, rules, row);
    a := MapAllFields(byField, Sort(fields, Less), rules, mode, row);
    if a.error.Some? {
      return;
    }
    MapFieldsIssues(rules, mode, row);
    if row.source == Payment {
      var both := TotalAndComponentRouted(a.m.contributions);
      if both {
        return Attempt(a.m, Some(TotalAndComponent));
      }
    }
    if a.m.key == "" {
      return Attempt(a.m, Some(NoRecordRef));
    }
  }

  // ----- Engine.Map

  /** The checks on every rule before any row is read. */
  method ValidateRules(rules: seq<ConfigRule>) returns (error: Option<MapError>)
    ensures error == CheckRules(rules)
  {
    for i := 0 to |rules|
      invariant CheckRules(rules[i..]) == CheckRules(rules)
    {
      assert rules[i..][0] == rules[i] && rules[i..][1..] == rules[i + 1..];
      var rule := rules[i];
      if rule.source != Payment && rule.source != Settlement {
        return Some(UnsupportedRuleSource(rule.originLine));
      }
      if rule.source == Payment && TrimSpace(rule.amountField) == "" {
        return Some(NoAmountField(rule.originLine));
      }
      if rule.source == Settlement && TrimSpace(rule.amountType) == "" {
        return Some(NoAmountType(rule.originLine));
      }
      if rule.positiveTarget != "" && rule.positiveTarget !in SUMMARY_FIELDS {
        return Some(UnknownTarget(rule.originLine, rule.positiveTarget));
      }
      if rule.negativeTarget != "" && rule.negativeTarget !in SUMMARY_FIELDS {
        return Some(UnknownTarget(rule.originLine, rule.negativeTarget));
      }
    }
    return None;
  }

  /** The issues of a row that are not on the list yet; `seen` is the list's set of row issues. */
  method CollectIssues(issues: seq<RunIssue>, seen: set<Issue>, more: seq<Issue>) returns (all: seq<RunIssue>, known: set<Issue>)
    requires forall i :: i in seen <==> RowIssue(i) in issues
    ensures all == AddIssues(issues, more)
    ensures FreshIssues(issues) ==> FreshIssues(all)
    ensures forall i :: RowIssue(i) in all <==> RowIssue(i) in issues || i in more
    ensures issues <= all && forall i, j | |issues| <= i < j < |all| && all[i].RowIssue? && all[j].RowIssue? ::
      FirstIndex(more, all[i].issue) < FirstIndex(more, all[j].issue)
    ensures forall i :: i in known <==> RowIssue(i) in all
  {
    AddIssuesExact(issues, more);
    AddIssuesOrder(issues, more);
    all, known := issues, seen;
    for k := 0 to |more|
      invariant AddIssues(all, more[k..]) == AddIssues(issues, more)
      invariant forall i :: i in known <==> RowIssue(i) in all
    {
      assert more[k..][0] == more[k] && more[k..][1..] == more[k + 1..];
      if more[k] !in known {
        all := all + [RowIssue(more[k])];
        known := known + {more[k]};
      }
    }
  }

  method TotalRow(summary0: Summary, source: Source, cs: seq<Contribution>) returns (r: Result<Summary, MapError>)
    ensures r == AddAllToSummary(summary0, source, cs)
  {
    var summary := summary0;
    for i := 0 to |cs|
      invariant AddAllToSummary(summary, source, cs[i..]) == AddAllToSummary(summary0, source, cs)
    {
      assert cs[i..][0] == cs[i] && cs[i..][1..] == cs[i + 1..];
      var c := cs[i];
      if c.amount != 0 && c.target != "" {
        var inner: map<Source, int64> := if c.target in summary then summary[c.target] else map[];
        var v := Add(if source in inner then inner[source] else 0, c.amount);
        if v.Err? {
          return Err(SummaryOverflow(v.error));
        }
        summary := summary[c.target := inner[source := v.value]];
      }
    }
    return Ok(summary);
  }

  /** Engine.Map computes MapRows. */
  method MapAll(rules: seq<ConfigRule>, mode: Mode, rows: seq<RawRow>) returns (r: Result<MapOutput, MapError>)
    ensures r == MapRows(rules, mode, rows)
  {
    if mode != Diagnostic && mode != Strict {
      return Err(UnsupportedMode);
    }
    var invalid := ValidateRules(rules);
    if invalid.Some? {
      return Err(invalid.value);
    }
    var index := BuildIndex(rules);
    ghost var mapper := MapperOf(rules, mode);
    var out: seq<MappedRow>, summary: Summary, issues: seq<RunIssue>, seen: set<Issue> := [], map[], [], {};
    for i := 0 to |rows|
      invariant MapFrom(mapper, mode, rows[i..], MapOutput(out, summary, issues)) == MapFrom(mapper, mode, rows, NOTHING)
      invariant forall x :: x in seen <==> RowIssue(x) in issues
    {
      assert rows[i..][0] == rows[i] && rows[i..][1..] == rows[i + 1..];
      var row := rows[i];
      var a := MapOneRow(index, rules, mode, row);
      assert a == mapper(row);
      ghost var before := MapOutput(out, summary, issues);
      var mapped := a.m;
      if a.error.Some? {
        if mode != Diagnostic {
          return Err(a.error.value);
        }
        mapped := mapped.(issues := mapped.issues + [RowFailed(a.error.value)]);
        issues := issues + [FailedRow(row.source, row.lineStart, a.error.value)];
        out := out + [mapped];
      } else {
        issues, seen := CollectIssues(issues, seen, mapped.issues);
        if row.scope == InScope {
          var total := TotalRow(summary, row.source, mapped.contributions);
          if total.Err? {
            return Err(total.error);
          }
          summary := total.value;
        }
        out := out + [mapped];
      }
      assert MapStep(a, mode, row, before) == Ok(MapOutput(out, summary, issues));
    }
    return Ok(MapOutput(out, summary, issues));
  }

  // ----- Record keys

  /** The token loop of expand. */
  method ExpandTemplate(template: string, row: RawRow) returns (r: Result<seq<string>, MapError>)
    ensures r == Expand(template, row)
  {
    if TrimSpace(template) == "" {
      return Err(EmptyRecordRef);
    }
    var fields := RowFields(row);
    var tokens := Split(template, '+');
    var out: seq<string> := [];
    PrependedNothing(ExpandTokens(tokens, row));
    for i := 0 to |tokens|
      invariant Prepended(out, ExpandTokens(tokens[i..], row)) == ExpandTokens(tokens, row)
    {
      assert tokens[i..][0] == tokens[i] && tokens[i..][1..] == tokens[i + 1..];
      var t := TrimSpace(tokens[i]);
      var value: string;
      if t in fields {
        if fields[t] == "" {
          return Err(EmptyToken(t));
        }
        value := fields[t];
      } else if t == "record_type" {
        value := Label(row.transaction);
        if value == "" {
          return Err(EmptyToken(t));
        }
      } else if t == "" || IsFieldToken(t) {
        return Err(UnknownToken(t));
      } else {
        value := t;
      }
      if UNIT_SEPARATOR in value {
        return Err(ReservedDelimiter);
      }
      PrependedStep(out, value, ExpandTokens(tokens[i + 1..], row));
      out := out + [value];
    }
    assert out + [] == out;
    return Ok(out);
  }

  function Prepended(out: seq<string>, r: Result<seq<string>, MapError>): Result<seq<string>, MapError> {
    match r
    case Ok(rest) => Ok(out + rest)
    case Err(e) => Err(e)
  }

  lemma PrependedNothing(r: Result<seq<string>, MapError>)
    ensures Prepended([], r) == r
  {
    assert r.Ok? ==> [] + r.value == r.value;
  }

  lemma PrependedStep(out: seq<string>, value: string, r: Result<seq<string>, MapError>)
    ensures Prepended(out, match r case Ok(rest) => Ok([value] + rest) case Err(e) => Err(e)) == Prepended(out + [value], r)
  {
    if r.Ok? {
      ConcatAssociative(out, [value], r.value);
    }
  }
}
