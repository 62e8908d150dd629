/** Corrections that only change where money is routed, as an `update` patch does (internal/mapping/patch.go). */
module Routing {
  import opened Domain
  import opened Normalize
  import opened Sequences
  import opened Engine
  import opened StrictRows
  import opened MapRun
  import opened Grouping
  import opened Groups
  import opened Conservation
  import opened Report

  /** For each sign the target stays empty or stays non-empty. */
  predicate KeepsRouting(r: ConfigRule, r': ConfigRule) {
    (r.positiveTarget == "" <==> r'.positiveTarget == "") && (r.negativeTarget == "" <==> r'.negativeTarget == "")
  }

  /** `r'` is `r` with other targets; with `keep`, none of them starts or stops routing. */
  predicate Retargeted(keep: bool, r: ConfigRule, r': ConfigRule) {
    && r' == r.(positiveTarget := r'.positiveTarget, negativeTarget := r'.negativeTarget)
    && (keep ==> KeepsRouting(r, r'))
  }

  predicate AllRetargeted(keep: bool, rules: seq<ConfigRule>, rules': seq<ConfigRule>) {
    |rules| == |rules'| && forall i | 0 <= i < |rules| :: Retargeted(keep, rules[i], rules'[i])
  }

  /** A test of rules that does not look at targets. */
  ghost predicate TargetBlind(keep: bool, p: ConfigRule -> bool) {
    forall r, r' | Retargeted(keep, r, r') :: p(r) == p(r')
  }

  lemma {:induction false} FilterRetargeted(keep: bool, p: ConfigRule -> bool, rules: seq<ConfigRule>, rules': seq<ConfigRule>)
    requires TargetBlind(keep, p) && AllRetargeted(keep, rules, rules')
    ensures AllRetargeted(keep, Filter(p, rules), Filter(p, rules'))
  {
    if rules != [] {
      assert Retargeted(keep, rules[0], rules'[0]);
      assert AllRetargeted(keep, rules[1..], rules'[1..]);
      FilterRetargeted(keep, p, rules[1..], rules'[1..]);
      assert p(rules[0]) == p(rules'[0]);
      if p(rules[0]) {
        ConcatRetargeted(keep, [rules[0]], [rules'[0]], Filter(p, rules[1..]), Filter(p, rules'[1..]));
      }
    }
  }

  lemma ConcatRetargeted(keep: bool, a: seq<ConfigRule>, a': seq<ConfigRule>, b: seq<ConfigRule>, b': seq<ConfigRule>)
    requires AllRetargeted(keep, a, a') && AllRetargeted(keep, b, b')
    ensures AllRetargeted(keep, a + b, a' + b')
  {
  }

  lemma ExistsRetargeted(keep: bool, p: ConfigRule -> bool, rules: seq<ConfigRule>, rules': seq<ConfigRule>)
    requires TargetBlind(keep, p) && AllRetargeted(keep, rules, rules')
    ensures (exists r :: r in rules && p(r)) <==> (exists r :: r in rules' && p(r))
  {
    if r :| r in rules && p(r) {
      var i :| 0 <= i < |rules| && rules[i] == r;
      assert Retargeted(keep, rules[i], rules'[i]) && rules'[i] in rules';
    }
    if r :| r in rules' && p(r) {
      var i :| 0 <= i < |rules'| && rules'[i] == r;
      assert Retargeted(keep, rules[i], rules'[i]) && rules[i] in rules;
    }
  }

  lemma SelectedRetargeted(keep: bool, rules: seq<ConfigRule>, rules': seq<ConfigRule>, row: RawRow)
    requires AllRetargeted(keep, rules, rules')
    ensures AllRetargeted(keep, Selected(rules, row), Selected(rules', row))
  {
    var tx := Label(row.transaction);
    FilterRetargeted(keep, WithLabel(tx), rules, rules');
    FilterRetargeted(keep, WithLabel(""), rules, rules');
    ConcatRetargeted(keep, Filter(WithLabel(tx), rules), Filter(WithLabel(tx), rules'), Filter(WithLabel(""), rules), Filter(WithLabel(""), rules'));
    FilterRetargeted(keep, MatchingRow(row), Candidates(rules, row), Candidates(rules', row));
    KeepSpecificRetargeted(keep, Filter(MatchingRow(row), Candidates(rules, row)), Filter(MatchingRow(row), Candidates(rules', row)));
  }

  lemma KeepSpecificRetargeted(keep: bool, matched: seq<ConfigRule>, matched': seq<ConfigRule>)
    requires AllRetargeted(keep, matched, matched')
    ensures AllRetargeted(keep, KeepSpecific(matched), KeepSpecific(matched'))
  {
    ExistsRetargeted(keep, Specific, matched, matched');
    FilterRetargeted(keep, Specific, matched, matched');
  }

  lemma ChosenRetargeted(keep: bool, rules: seq<ConfigRule>, rules': seq<ConfigRule>, row: RawRow, field: string)
    requires AllRetargeted(keep, rules, rules')
    ensures AllRetargeted(keep, Chosen(rules, row, field), Chosen(rules', row, field))
  {
    SelectedRetargeted(keep, rules, rules', row);
    var s, s' := Selected(rules, row), Selected(rules', row);
    FilterRetargeted(keep, InField(row, field), s, s');
    KeepExactRetargeted(keep, Filter(InField(row, field), s), Filter(InField(row, field), s'), row);
  }

  lemma KeepExactRetargeted(keep: bool, inField: seq<ConfigRule>, inField': seq<ConfigRule>, row: RawRow)
    requires AllRetargeted(keep, inField, inField')
    ensures AllRetargeted(keep, KeepExact(inField, row), KeepExact(inField', row))
  {
    ExistsRetargeted(keep, ExactIn(row), inField, inField');
    FilterRetargeted(keep, ExactIn(row), inField, inField');
    KeepExactByTest(inField, row);
    KeepExactByTest(inField', row);
  }

  lemma KeepExactByTest(inField: seq<ConfigRule>, row: RawRow)
    ensures KeepExact(inField, row) ==
      if exists r :: r in inField && ExactIn(row)(r) then Filter(ExactIn(row), inField) else inField
  {
    if r :| r in inField && Exact(r, row) {
      assert ExactIn(row)(r);
    }
  }

  lemma FieldNamesRetargeted(keep: bool, rules: seq<ConfigRule>, rules': seq<ConfigRule>, row: RawRow)
    requires AllRetargeted(keep, rules, rules')
    ensures FieldNames(rules, row) == FieldNames(rules', row)
  {
    SelectedRetargeted(keep, rules, rules', row);
    var s, s' := Selected(rules, row), Selected(rules', row);
    var names := Map((r: ConfigRule) => FieldOf(r, row), s);
    var names' := Map((r: ConfigRule) => FieldOf(r, row), s');
    forall i | 0 <= i < |s|
      ensures names[i] == names'[i]
    {
      assert Retargeted(keep, s[i], s'[i]);
    }
    assert names == names';
  }

  // ----- Contributions

  /** `c'` is the same contribution routed by retargeted rule. */
  predicate Rerouted(keep: bool, c: Contribution, c': Contribution) {
    && Retargeted(keep, c.rule, c'.rule)
    && c' == c.(rule := c'.rule, target := c'.target, decision := c'.decision)
    && (keep ==> (c.target == "" <==> c'.target == ""))
  }

  predicate AllRerouted(keep: bool, cs: seq<Contribution>, cs': seq<Contribution>) {
    |cs| == |cs'| && forall i | 0 <= i < |cs| :: Rerouted(keep, cs[i], cs'[i])
  }

  ghost predicate SameContributor(keep: bool, contribute: Contributor) {
    forall f, r, r' | Retargeted(keep, r, r') && contribute(f, r).Ok? && contribute(f, r').Ok? ::
      Rerouted(keep, contribute(f, r).value, contribute(f, r').value)
  }

  lemma ContributionRerouted(keep: bool, row: RawRow, field: string, r: ConfigRule, r': ConfigRule)
    requires Retargeted(keep, r, r') && ContributionFor(row, field, r).Ok? && ContributionFor(row, field, r').Ok?
    ensures Rerouted(keep, ContributionFor(row, field, r).value, ContributionFor(row, field, r').value)
  {
    ContributionApplies(row, field, r);
    ContributionApplies(row, field, r');
    ContributionKeyed(row, field, r);
    ContributionKeyed(row, field, r');
  }

  lemma ContributorSame(keep: bool, row: RawRow)
    ensures SameContributor(keep, ContributorOf(row))
  {
    forall f, r, r' | Retargeted(keep, r, r') && ContributorOf(row)(f, r).Ok? && ContributorOf(row)(f, r').Ok?
      ensures Rerouted(keep, ContributorOf(row)(f, r).value, ContributorOf(row)(f, r').value)
    {
      ContributionRerouted(keep, row, f, r, r');
    }
  }

  /** The same row with the same key and the same contributions, routed elsewhere. */
  predicate SameBut(keep: bool, m: MappedRow, m': MappedRow) {
    m'.row == m.row && m'.key == m.key && m'.keyParts == m.keyParts && AllRerouted(keep, m.contributions, m'.contributions)
  }

  lemma AddRerouted(keep: bool, m: MappedRow, m': MappedRow, c: Contribution, c': Contribution)
    requires SameBut(keep, m, m') && Rerouted(keep, c, c')
    ensures SameBut(keep, AddContribution(m, c).m, AddContribution(m', c').m)
  {
  }

  lemma {:induction false} ApplyRulesRerouted(keep: bool, contribute: Contributor, field: string, chosen: seq<ConfigRule>, chosen': seq<ConfigRule>, m: MappedRow, m': MappedRow)
    requires SameContributor(keep, contribute) && AllRetargeted(keep, chosen, chosen') && SameBut(keep, m, m')
    requires ApplyRules(contribute, field, chosen, m).error.None? && ApplyRules(contribute, field, chosen', m').error.None?
    ensures SameBut(keep, ApplyRules(contribute, field, chosen, m).m, ApplyRules(contribute, field, chosen', m').m)
    decreases |chosen|
  {
    if chosen != [] {
      assert Retargeted(keep, chosen[0], chosen'[0]);
      var c, c' := contribute(field, chosen[0]).value, contribute(field, chosen'[0]).value;
      AddRerouted(keep, m, m', c, c');
      assert AllRetargeted(keep, chosen[1..], chosen'[1..]);
      ApplyRulesRerouted(keep, contribute, field, chosen[1..], chosen'[1..], AddContribution(m, c).m, AddContribution(m', c').m);
    }
  }

  lemma {:induction false} ApplyFieldsRerouted(keep: bool, choose: Chooser, choose': Chooser, contribute: Contributor, mode: Mode, mode': Mode, fields: seq<string>, m: MappedRow, m': MappedRow)
    requires SameContributor(keep, contribute) && SameBut(keep, m, m')
    requires forall f :: AllRetargeted(keep, choose(f), choose'(f))
    requires ApplyFields(choose, contribute, mode, fields, m).error.None?
    requires ApplyFields(choose', contribute, mode', fields, m').error.None?
    ensures SameBut(keep, ApplyFields(choose, contribute, mode, fields, m).m, ApplyFields(choose', contribute, mode', fields, m').m)
    decreases |fields|
  {
    if fields != [] {
      var f := fields[0];
      var a, a' := ApplyField(contribute, mode, f, choose(f), m), ApplyField(contribute, mode', f, choose'(f), m');
      FieldRerouted(keep, contribute, mode, mode', f, choose(f), choose'(f), m, m');
      ApplyFieldsRerouted(keep, choose, choose', contribute, mode, mode', fields[1..], a.m, a'.m);
    }
  }

  lemma FieldRerouted(keep: bool, contribute: Contributor, mode: Mode, mode': Mode, field: string, chosen: seq<ConfigRule>, chosen': seq<ConfigRule>, m: MappedRow, m': MappedRow)
    requires SameContributor(keep, contribute) && AllRetargeted(keep, chosen, chosen') && SameBut(keep, m, m')
    requires ApplyField(contribute, mode, field, chosen, m).error.None?
    requires ApplyField(contribute, mode', field, chosen', m').error.None?
    ensures SameBut(keep, ApplyField(contribute, mode, field, chosen, m).m, ApplyField(contribute, mode', field, chosen', m').m)
  {
    var n := if |chosen| > 1 then m.(issues := m.issues + [DuplicateSelector(field, RuleLines(chosen))]) else m;
    var n' := if |chosen'| > 1 then m'.(issues := m'.issues + [DuplicateSelector(field, RuleLines(chosen'))]) else m';
    ApplyRulesRerouted(keep, contribute, field, chosen, chosen', n, n');
  }

  /** Retargeting rules changes nothing of a mapped row but the targets and decisions of its contributions,
      whatever the mode of either mapping. */
  lemma RowRerouted(keep: bool, rules: seq<ConfigRule>, rules': seq<ConfigRule>, mode: Mode, mode': Mode, row: RawRow)
    requires AllRetargeted(keep, rules, rules')
    requires MapRow(rules, mode, row).error.None? && MapRow(rules', mode', row).error.None?
    ensures SameBut(keep, MapRow(rules, mode, row).m, MapRow(rules', mode', row).m)
  {
    if row.kind == Metadata {
      assert MapRow(rules, mode, row).m == Blank(row) == MapRow(rules', mode', row).m;
    } else {
      MapRowFields(rules, mode, row);
      MapRowFields(rules', mode', row);
      FieldsRerouted(keep, rules, rules', mode, mode', row);
    }
  }

  lemma FieldsRerouted(keep: bool, rules: seq<ConfigRule>, rules': seq<ConfigRule>, mode: Mode, mode': Mode, row: RawRow)
    requires AllRetargeted(keep, rules, rules')
    requires MapFields(rules, mode, row).error.None? && MapFields(rules', mode', row).error.None?
    ensures SameBut(keep, MapFields(rules, mode, row).m, MapFields(rules', mode', row).m)
  {
    ContributorSame(keep, row);
    FieldNamesRetargeted(keep, rules, rules', row);
    forall f
      ensures AllRetargeted(keep, ChosenFor(rules, row)(f), ChosenFor(rules', row)(f))
    {
      ChosenRetargeted(keep, rules, rules', row, f);
    }
    ApplyFieldsRerouted(keep, ChosenFor(rules, row), ChosenFor(rules', row), ContributorOf(row), mode, mode', FieldNames(rules, row), Blank(row), Blank(row));
  }

  // ----- Rows, groups and buckets

  predicate AllSameBut(keep: bool, rows: seq<MappedRow>, rows': seq<MappedRow>) {
    |rows| == |rows'| && forall i | 0 <= i < |rows| :: SameBut(keep, rows[i], rows'[i])
  }

  /** What a correction moves into a bucket: amounts newly routed there, less amounts no longer routed there. */
  function Moved(c: Contribution, c': Contribution, target: string): int {
    (if c'.target == target then c.amount as int else 0) - (if c.target == target then c.amount as int else 0)
  }

  function MovedIn(cs: seq<Contribution>, cs': seq<Contribution>, target: string): int
    requires |cs| == |cs'|
  {
    if cs == [] then 0 else Moved(cs[0], cs'[0], target) + MovedIn(cs[1..], cs'[1..], target)
  }

  function MovedByRows(keep: bool, rows: seq<MappedRow>, rows': seq<MappedRow>, id: GroupId, target: string): int
    requires AllSameBut(keep, rows, rows')
  {
    if rows == [] then 0
    else if InGroup(id)(rows[0]) then
      MovedIn(rows[0].contributions, rows'[0].contributions, target) + MovedByRows(keep, rows[1..], rows'[1..], id, target)
    else
      MovedByRows(keep, rows[1..], rows'[1..], id, target)
  }

  lemma {:induction false} ContributionsMoved(keep: bool, cs: seq<Contribution>, cs': seq<Contribution>, target: string)
    requires AllRerouted(keep, cs, cs')
    ensures Sum(ContributionTo(target), cs') == Sum(ContributionTo(target), cs) + MovedIn(cs, cs', target)
  {
    if cs != [] {
      assert Rerouted(keep, cs[0], cs'[0]);
      ContributionsMoved(keep, cs[1..], cs'[1..], target);
    }
  }

  /** Group membership, row by row, and every group total are untouched; each bucket changes by exactly what
      the affected contributions move. */
  lemma {:induction false} MembersRerouted(keep: bool, rows: seq<MappedRow>, rows': seq<MappedRow>, id: GroupId, target: string)
    requires AllSameBut(keep, rows, rows')
    ensures Map(RowOf(), Members(rows', id)) == Map(RowOf(), Members(rows, id))
    ensures Sum(AmountWeight(), Members(rows', id)) == Sum(AmountWeight(), Members(rows, id))
    ensures Sum(BucketWeight(target), Members(rows', id)) ==
      Sum(BucketWeight(target), Members(rows, id)) + MovedByRows(keep, rows, rows', id, target)
  {
    if rows != [] {
      assert SameBut(keep, rows[0], rows'[0]);
      assert AllSameBut(keep, rows[1..], rows'[1..]);
      MembersRerouted(keep, rows[1..], rows'[1..], id, target);
      ContributionsMoved(keep, rows[0].contributions, rows'[0].contributions, target);
      HeadMember(rows, id, AmountWeight());
      HeadMember(rows', id, AmountWeight());
      HeadMember(rows, id, BucketWeight(target));
      HeadMember(rows', id, BucketWeight(target));
      HeadMemberRow(rows, id);
      HeadMemberRow(rows', id);
    }
  }

  lemma HeadMemberRow(rows: seq<MappedRow>, id: GroupId)
    requires rows != []
    ensures Map(RowOf(), Members(rows, id)) ==
      (if InGroup(id)(rows[0]) then [rows[0].row] else []) + Map(RowOf(), Members(rows[1..], id))
  {
    if InGroup(id)(rows[0]) {
      assert Members(rows, id) == [rows[0]] + Members(rows[1..], id);
    }
  }

  /** A run before a correction against the run after it, each in its own mode: a strict run may follow a
      diagnostic one. */
  lemma RunRerouted(keep: bool, rules: seq<ConfigRule>, rules': seq<ConfigRule>, mode: Mode, mode': Mode, rows: seq<RawRow>)
    requires AllRetargeted(keep, rules, rules')
    requires MapsAll(rules, mode, rows) && MapsAll(rules', mode', rows)
    ensures AllSameBut(keep, Output(rules, mode, rows).rows, Output(rules', mode', rows).rows)
  {
    MapRowsTotals(rules, mode, rows, "t", Payment);
    MapRowsTotals(rules', mode', rows, "t", Payment);
    forall i | 0 <= i < |rows|
      ensures SameBut(keep, Output(rules, mode, rows).rows[i], Output(rules', mode', rows).rows[i])
    {
      assert rows[i] in rows;
      RowRerouted(keep, rules, rules', mode, mode', rows[i]);
      RecordAt(rules, mode, rows, i);
      RecordAt(rules', mode', rows, i);
    }
  }

  /** The group `g'` of a corrected run against the group `g` of the same identity before: same rows, same
      amounts, and buckets that differ by what was moved. */
  predicate GroupCorrected(keep: bool, g: GroupValue, g': GroupValue, payments: seq<MappedRow>, payments': seq<MappedRow>,
      settlements: seq<MappedRow>, settlements': seq<MappedRow>, target: string)
    requires AllSameBut(keep, payments, payments') && AllSameBut(keep, settlements, settlements')
  {
    && multiset(g'.payment.rows) == multiset(g.payment.rows) && multiset(g'.settlement.rows) == multiset(g.settlement.rows)
    && g'.payment.amount == g.payment.amount && g'.settlement.amount == g.settlement.amount
    && BucketAt(g'.payment.buckets, target) ==
         BucketAt(g.payment.buckets, target) + MovedByRows(keep, payments, payments', g.id, target)
    && BucketAt(g'.settlement.buckets, target) ==
         BucketAt(g.settlement.buckets, target) + MovedByRows(keep, settlements, settlements', g.id, target)
  }

  lemma GroupRerouted(keep: bool, g: GroupValue, g': GroupValue, payments: seq<MappedRow>, payments': seq<MappedRow>,
      settlements: seq<MappedRow>, settlements': seq<MappedRow>, target: string)
    requires AllSameBut(keep, payments, payments') && AllSameBut(keep, settlements, settlements')
    requires ReportsGroup(g, payments, settlements) && ReportsGroup(g', payments', settlements')
    requires g.id == g'.id && target != ""
    ensures GroupCorrected(keep, g, g', payments, payments', settlements, settlements', target)
  {
    MembersRerouted(keep, payments, payments', g.id, target);
    MembersRerouted(keep, settlements, settlements', g.id, target);
  }

  /** A routing-only correction of rules under which no row fails, before and after, in whichever modes: the
      same groups exist, each with the same rows and the same amounts on both sides, and every bucket of every
      group changes by exactly the amounts of the affected contributions of its members. */
  lemma CorrectionMovesOnlyBuckets(keep: bool, pr: seq<ConfigRule>, pr': seq<ConfigRule>, payments: seq<RawRow>,
      sr: seq<ConfigRule>, sr': seq<ConfigRule>, settlements: seq<RawRow>, mode: Mode, mode': Mode,
      groups: seq<GroupValue>, groups': seq<GroupValue>, g: GroupValue, target: string) returns (g': GroupValue)
    requires AllRetargeted(keep, pr, pr') && AllRetargeted(keep, sr, sr')
    requires MapsAll(pr, mode, payments) && MapsAll(pr', mode', payments)
    requires MapsAll(sr, mode, settlements) && MapsAll(sr', mode', settlements)
    requires IsGrouping(Output(pr, mode, payments).rows, Output(sr, mode, settlements).rows, groups)
    requires IsGrouping(Output(pr', mode', payments).rows, Output(sr', mode', settlements).rows, groups')
    requires g in groups && target != ""
    ensures AllSameBut(keep, Output(pr, mode, payments).rows, Output(pr', mode', payments).rows)
    ensures AllSameBut(keep, Output(sr, mode, settlements).rows, Output(sr', mode', settlements).rows)
    ensures g' in groups' && g'.id == g.id
    ensures GroupCorrected(keep, g, g', Output(pr, mode, payments).rows, Output(pr', mode', payments).rows,
      Output(sr, mode, settlements).rows, Output(sr', mode', settlements).rows, target)
  {
    RunRerouted(keep, pr, pr', mode, mode', payments);
    RunRerouted(keep, sr, sr', mode, mode', settlements);
    g' := SameGroupAfter(keep, Output(pr, mode, payments).rows, Output(pr', mode', payments).rows,
      Output(sr, mode, settlements).rows, Output(sr', mode', settlements).rows, groups, groups', g, target);
  }

  lemma GroupHasMember(payments: seq<MappedRow>, settlements: seq<MappedRow>, g: GroupValue) returns (i: nat)
    requires ReportsGroup(g, payments, settlements)
    ensures i < |payments + settlements| && InGroup(g.id)((payments + settlements)[i])
  {
    var m :| m in payments + settlements && InGroup(g.id)(m);
    i :| 0 <= i < |payments + settlements| && (payments + settlements)[i] == m;
  }

  lemma RowAfter(keep: bool, a: seq<MappedRow>, a': seq<MappedRow>, b: seq<MappedRow>, b': seq<MappedRow>, i: nat)
    requires AllSameBut(keep, a, a') && AllSameBut(keep, b, b') && i < |a + b|
    ensures i < |a' + b'| && (a' + b')[i].row == (a + b)[i].row && (a' + b')[i].key == (a + b)[i].key
  {
    assert if i < |a| then SameBut(keep, a[i], a'[i]) else SameBut(keep, b[i - |a|], b'[i - |a|]);
  }

  lemma GroupOfRow(payments: seq<MappedRow>, settlements: seq<MappedRow>, groups: seq<GroupValue>, i: nat) returns (g: GroupValue)
    requires IsGrouping(payments, settlements, groups)
    requires i < |payments + settlements| && (payments + settlements)[i].row.kind != Metadata
    ensures g in groups && g.id == IdOf((payments + settlements)[i])
  {
    assert (payments + settlements)[i] in payments + settlements;
    g :| g in groups && g.id == IdOf((payments + settlements)[i]);
  }

  lemma SameIdAfter(keep: bool, payments: seq<MappedRow>, payments': seq<MappedRow>, settlements: seq<MappedRow>,
      settlements': seq<MappedRow>, groups: seq<GroupValue>, groups': seq<GroupValue>, g: GroupValue) returns (g': GroupValue)
    requires AllSameBut(keep, payments, payments') && AllSameBut(keep, settlements, settlements')
    requires IsGrouping(payments, settlements, groups) && IsGrouping(payments', settlements', groups')
    requires g in groups
    ensures g' in groups' && g'.id == g.id
  {
    var i := GroupHasMember(payments, settlements, g);
    RowAfter(keep, payments, payments', settlements, settlements', i);
    g' := GroupOfRow(payments', settlements', groups', i);
  }

  lemma SameGroupAfter(keep: bool, payments: seq<MappedRow>, payments': seq<MappedRow>, settlements: seq<MappedRow>, settlements': seq<MappedRow>,
      groups: seq<GroupValue>, groups': seq<GroupValue>, g: GroupValue, target: string) returns (g': GroupValue)
    requires AllSameBut(keep, payments, payments') && AllSameBut(keep, settlements, settlements')
    requires IsGrouping(payments, settlements, groups) && IsGrouping(payments', settlements', groups')
    requires g in groups && target != ""
    ensures g' in groups' && g'.id == g.id
    ensures GroupCorrected(keep, g, g', payments, payments', settlements, settlements', target)
  {
    g' := SameIdAfter(keep, payments, payments', settlements, settlements', groups, groups', g);
    GroupRerouted(keep, g, g', payments, payments', settlements, settlements', target);
  }

  // ----- The all-bucket total

  lemma {:induction false} RoutedKept(cs: seq<Contribution>, cs': seq<Contribution>)
    requires AllRerouted(true, cs, cs')
    ensures Sum(RoutedAmount(), cs') == Sum(RoutedAmount(), cs)
  {
    if cs != [] {
      assert Rerouted(true, cs[0], cs'[0]);
      RoutedKept(cs[1..], cs'[1..]);
    }
  }

  lemma {:induction false} RowsRoutedKept(rows: seq<MappedRow>, rows': seq<MappedRow>)
    requires AllSameBut(true, rows, rows')
    ensures Sum(RoutedWeight(), rows') == Sum(RoutedWeight(), rows)
  {
    if rows != [] {
      assert SameBut(true, rows[0], rows'[0]);
      RoutedKept(rows[0].contributions, rows'[0].contributions);
      RowsRoutedKept(rows[1..], rows'[1..]);
    }
  }

  /** A correction in which no target changes between empty and non-empty leaves the total over all buckets
      unchanged, when no row fails before or after. */
  lemma CorrectionKeepsTotal(rules: seq<ConfigRule>, rules': seq<ConfigRule>, mode: Mode, mode': Mode, rows: seq<RawRow>, source: Source)
    requires AllRetargeted(true, rules, rules')
    requires forall r | r in rows :: r.source == source
    requires MapsAll(rules, mode, rows) && MapsAll(rules', mode', rows)
    ensures var a, b := Output(rules, mode, rows).summary, Output(rules', mode', rows).summary;
      SetSum(BucketsOf(a, source), a.Keys) == SetSum(BucketsOf(b, source), b.Keys)
  {
    RunRerouted(true, rules, rules', mode, mode', rows);
    BucketsHoldRouted(rules, mode, rows, source);
    BucketsHoldRouted(rules', mode', rows, source);
    RowsRoutedKept(Output(rules, mode, rows).rows, Output(rules', mode', rows).rows);
  }
}
