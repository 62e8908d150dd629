/** Rule selection through the index is a declarative best match. */
module Selection {
  import opened Domain
  import opened Normalize
  import opened Sequences
  import opened Engine

  /** A matching rule that no transaction-specific rule pushes aside. */
  predicate Survives(rules: seq<ConfigRule>, row: RawRow, rule: ConfigRule) {
    Matches(rule, row) && (Specific(rule) || forall r | r in rules :: !(Matches(r, row) && Specific(r)))
  }

  /** A surviving rule that no rule with an exact description for the same amount field pushes aside. */
  predicate BestMatch(rules: seq<ConfigRule>, row: RawRow, rule: ConfigRule) {
    Survives(rules, row, rule) &&
    (Exact(rule, row) ||
     forall r | r in rules :: !(Survives(rules, row, r) && FieldOf(r, row) == FieldOf(rule, row) && Exact(r, row)))
  }

  function Surviving(rules: seq<ConfigRule>, row: RawRow): ConfigRule -> bool {
    (r: ConfigRule) => Survives(rules, row, r)
  }

  function SurvivingIn(rules: seq<ConfigRule>, row: RawRow, field: string): ConfigRule -> bool {
    (r: ConfigRule) => Survives(rules, row, r) && FieldOf(r, row) == field
  }

  function BestIn(rules: seq<ConfigRule>, row: RawRow, field: string): ConfigRule -> bool {
    (r: ConfigRule) => BestMatch(rules, row, r) && FieldOf(r, row) == field
  }

  /** The matching rules of one transaction-type label, in configuration order. */
  function MatchingLabel(row: RawRow, name: string): ConfigRule -> bool {
    (r: ConfigRule) => Matches(r, row) && Label(r.transactionType) == name
  }

  lemma MatchedCandidates(rules: seq<ConfigRule>, row: RawRow)
    ensures Filter(MatchingRow(row), Candidates(rules, row)) ==
      Filter(MatchingLabel(row, Label(row.transaction)), rules) + Filter(MatchingLabel(row, ""), rules)
  {
    var tx := Label(row.transaction);
    FilterConcat(MatchingRow(row), Filter(WithLabel(tx), rules), Filter(WithLabel(""), rules));
    FilterFilter(MatchingRow(row), WithLabel(tx), MatchingLabel(row, tx), rules);
    FilterFilter(MatchingRow(row), WithLabel(""), MatchingLabel(row, ""), rules);
  }

  lemma SpecificIffLabelled(rule: ConfigRule)
    ensures Specific(rule) <==> Label(rule.transactionType) != ""
  {
    LabelEmpty(rule.transactionType);
  }

  lemma SelectedIsSurvivors(rules: seq<ConfigRule>, row: RawRow)
    requires Label(row.transaction) != ""
    ensures Selected(rules, row) == Filter(Surviving(rules, row), rules)
  {
    var tx := Label(row.transaction);
    var named := Filter(MatchingLabel(row, tx), rules);
    var catchAll := Filter(MatchingLabel(row, ""), rules);
    MatchedCandidates(rules, row);
    forall r: ConfigRule
      ensures Specific(r) <==> Label(r.transactionType) != ""
    {
      SpecificIffLabelled(r);
    }
    if named != [] {
      assert named[0] in named && named[0] in named + catchAll;
      FilterConcat(Specific, named, catchAll);
      FilterAll(Specific, named);
      FilterNone(Specific, catchAll);
      assert named + [] == named;
      FilterAgree(MatchingLabel(row, tx), Surviving(rules, row), rules);
    } else {
      assert named + catchAll == catchAll;
      forall r | r in rules
        ensures MatchingLabel(row, "")(r) == Surviving(rules, row)(r)
      {
        assert MatchingLabel(row, tx)(r) ==> r in named;
      }
      FilterAgree(MatchingLabel(row, ""), Surviving(rules, row), rules);
    }
  }

  /** The exact-description step, applied to the survivors of one field, leaves the best matches. */
  lemma KeepExactIsBest(rules: seq<ConfigRule>, row: RawRow, field: string)
    ensures KeepExact(Filter(SurvivingIn(rules, row, field), rules), row) == Filter(BestIn(rules, row, field), rules)
  {
    var inField := Filter(SurvivingIn(rules, row, field), rules);
    if exists r :: r in inField && Exact(r, row) {
      FilterFilter(ExactIn(row), SurvivingIn(rules, row, field), BestIn(rules, row, field), rules);
    } else {
      forall r | r in rules
        ensures SurvivingIn(rules, row, field)(r) == BestIn(rules, row, field)(r)
      {
        if SurvivingIn(rules, row, field)(r) {
          forall x | x in rules
            ensures !(Survives(rules, row, x) && FieldOf(x, row) == field && Exact(x, row))
          {
            if SurvivingIn(rules, row, field)(x) { assert x in inField; }
          }
        }
      }
      FilterAgree(SurvivingIn(rules, row, field), BestIn(rules, row, field), rules);
    }
  }

  /** For a row with a transaction type, the engine's choice per field is the best match, in configuration order. */
  lemma ChosenIsBestMatch(rules: seq<ConfigRule>, row: RawRow, field: string)
    requires Label(row.transaction) != ""
    ensures Chosen(rules, row, field) == Filter(BestIn(rules, row, field), rules)
  {
    SelectedIsSurvivors(rules, row);
    FilterFilter(InField(row, field), Surviving(rules, row), SurvivingIn(rules, row, field), rules);
    KeepExactIsBest(rules, row, field);
  }

  /** For a row without a transaction type the index is read twice, so every survivor is selected twice. */
  lemma SelectedTwice(rules: seq<ConfigRule>, row: RawRow)
    requires Label(row.transaction) == ""
    ensures Selected(rules, row) == Filter(Surviving(rules, row), rules) + Filter(Surviving(rules, row), rules)
  {
    MatchedCandidates(rules, row);
    forall r: ConfigRule
      ensures Specific(r) <==> Label(r.transactionType) != ""
    {
      SpecificIffLabelled(r);
    }
    FilterAgree(MatchingLabel(row, ""), Surviving(rules, row), rules);
  }

  lemma ChosenTwice(rules: seq<ConfigRule>, row: RawRow, field: string)
    requires Label(row.transaction) == ""
    ensures Chosen(rules, row, field) == Filter(BestIn(rules, row, field), rules) + Filter(BestIn(rules, row, field), rules)
  {
    SelectedTwice(rules, row);
    var s := Filter(Surviving(rules, row), rules);
    FilterConcat(InField(row, field), s, s);
    FilterFilter(InField(row, field), Surviving(rules, row), SurvivingIn(rules, row, field), rules);
    var f := Filter(SurvivingIn(rules, row, field), rules);
    FilterConcat(ExactIn(row), f, f);
    assert (exists r :: r in f + f && Exact(r, row)) <==> exists r :: r in f && Exact(r, row);
    KeepExactIsBest(rules, row, field);
  }

  /** The engine's choice is the declarative one exactly when the row has a transaction type or nothing
      matches: an empty type makes the choice a duplicate of the best match. */
  lemma ChoiceIsBestMatchIff(rules: seq<ConfigRule>, row: RawRow, field: string)
    ensures Chosen(rules, row, field) == Filter(BestIn(rules, row, field), rules) <==>
      (Label(row.transaction) != "" || Filter(BestIn(rules, row, field), rules) == [])
  {
    if Label(row.transaction) != "" {
      ChosenIsBestMatch(rules, row, field);
    } else {
      ChosenTwice(rules, row, field);
      var best := Filter(BestIn(rules, row, field), rules);
      assert |best + best| == 2 * |best|;
    }
  }

  // ----- The fields a row contributes to

  lemma FieldNamesMembers(rules: seq<ConfigRule>, row: RawRow, field: string)
    ensures field in FieldNames(rules, row) <==> exists r :: r in Selected(rules, row) && FieldOf(r, row) == field
  {
    var selected := Selected(rules, row);
    var names := Map((r: ConfigRule) => FieldOf(r, row), selected);
    assert field in FieldNames(rules, row) <==> field in multiset(FieldNames(rules, row));
    assert field in Distinct(names) <==> field in multiset(Distinct(names));
    if r :| r in selected && FieldOf(r, row) == field {
      var i :| 0 <= i < |selected| && selected[i] == r;
      assert names[i] == field;
    }
  }

  lemma KeepExactEmpty(inField: seq<ConfigRule>, row: RawRow)
    ensures KeepExact(inField, row) == [] <==> inField == []
  {
    if r :| r in inField && Exact(r, row) {
      assert r in Filter(ExactIn(row), inField);
    }
  }

  lemma FieldNamesExact(rules: seq<ConfigRule>, row: RawRow, field: string)
    ensures field in FieldNames(rules, row) <==> Chosen(rules, row, field) != []
  {
    FieldNamesMembers(rules, row, field);
    var inField := Filter(InField(row, field), Selected(rules, row));
    KeepExactEmpty(inField, row);
    if r :| r in Selected(rules, row) && FieldOf(r, row) == field {
      assert r in inField;
    }
    if inField != [] {
      assert inField[0] in inField;
    }
  }

  lemma MultisetDistinct(s: seq<string>)
    requires forall x :: multiset(s)[x] <= 1
    ensures forall i, j | 0 <= i < j < |s| :: s[i] != s[j]
  {
    forall i, j | 0 <= i < j < |s|
      ensures s[i] != s[j]
    {
      assert s == s[..j] + s[j..];
      assert s[i] in s[..j] && s[j] in s[j..];
      assert multiset(s)[s[i]] == multiset(s[..j])[s[i]] + multiset(s[j..])[s[i]];
    }
  }

  lemma FieldNamesDistinct(rules: seq<ConfigRule>, row: RawRow)
    ensures forall i, j | 0 <= i < j < |FieldNames(rules, row)| :: FieldNames(rules, row)[i] != FieldNames(rules, row)[j]
  {
    var names := Distinct(Map((r: ConfigRule) => FieldOf(r, row), Selected(rules, row)));
    forall x: string
      ensures multiset(FieldNames(rules, row))[x] <= 1
    {
      CountDistinct(names, x);
    }
    MultisetDistinct(FieldNames(rules, row));
  }
}
