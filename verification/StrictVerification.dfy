/** A strict run that passes its gates verifies: the relational recomputation over the stored tables finds
    nothing that the gates did not already rule out. Here are the two measures that do not compare buckets:
    who is a member of which group, and what the stored contributions add up to. Each is reduced to a sum
    over the mapped rows. */
module StrictVerification {
  import opened Text
  import opened Outcome
  import opened Domain
  import opened Sequences
  import opened Engine
  import opened StrictRows
  import opened MapRun
  import opened Grouping
  import opened Groups
  import opened Conservation
  import opened RunTables
  import opened Verify
  import opened VerifyBuckets

  // ----- Rows mapped strictly are stored faithfully

  lemma KnownTargetsPlain(t: string)
    requires t in SUMMARY_FIELDS
    ensures PlainTarget(t)
  {
    assert Trimmed(t);
    TrimSpaceTrims(t);
  }

  lemma {:induction false} RulesChecked(rules: seq<ConfigRule>, r: ConfigRule)
    requires CheckRules(rules).None? && r in rules
    ensures r.positiveTarget == "" || r.positiveTarget in SUMMARY_FIELDS
    ensures r.negativeTarget == "" || r.negativeTarget in SUMMARY_FIELDS
  {
    assert rules == [rules[0]] + rules[1..];
    if r != rules[0] {
      RulesChecked(rules[1..], r);
    }
  }

  /** Every target a checked rule set can route to is empty or a known summary field, even in a row that
      failed. */
  lemma TargetKnown(rules: seq<ConfigRule>, mode: Mode, row: RawRow, c: Contribution)
    requires CheckRules(rules).None? && c in MapRow(rules, mode, row).m.contributions
    ensures c.target == "" || c.target in SUMMARY_FIELDS
  {
    ContributionSource(rules, mode, row, c);
    RulesChecked(rules, c.rule);
  }

  lemma RowTargetsPlain(rules: seq<ConfigRule>, mode: Mode, row: RawRow)
    requires CheckRules(rules).None?
    ensures PlainTargets(MapRow(rules, mode, row).m)
  {
    OnlySelectorIssues(rules, mode, row);
    forall c | c in MapRow(rules, mode, row).m.contributions
      ensures PlainTarget(c.target)
    {
      TargetKnown(rules, mode, row, c);
      if c.target != "" {
        KnownTargetsPlain(c.target);
      }
    }
  }

  lemma RowPlain(rules: seq<ConfigRule>, mode: Mode, row: RawRow)
    requires CheckRules(rules).None? && MapRow(rules, mode, row).error.None?
    ensures PlainRow(MapRow(rules, mode, row).m)
  {
    RowTargetsPlain(rules, mode, row);
    OnlySelectorIssues(rules, mode, row);
    if row.kind == Transaction {
      forall c | c in MapRow(rules, mode, row).m.contributions
        ensures c.key == MapRow(rules, mode, row).m.key
      {
        ContributionOrigin(rules, mode, row, c);
      }
    }
  }

  /** The records of a run: its rows in order, of one source, with plain targets. */
  lemma RunRows(rules: seq<ConfigRule>, mode: Mode, rows: seq<RawRow>, source: Source)
    requires MapRows(rules, mode, rows).Ok?
    requires forall r | r in rows :: r.source == source
    ensures Map(RowOf(), Output(rules, mode, rows).rows) == rows
    ensures SingleSource(Output(rules, mode, rows).rows, source)
    ensures forall m | m in Output(rules, mode, rows).rows :: PlainTargets(m)
  {
    MapRowsTotals(rules, mode, rows, "t", source);
    forall i | 0 <= i < |rows|
      ensures Output(rules, mode, rows).rows[i].row == rows[i] && PlainTargets(Output(rules, mode, rows).rows[i])
    {
      RecordPlain(rules, mode, rows, i);
    }
    RecordsOf(Output(rules, mode, rows).rows, rows, source);
  }

  lemma RecordPlain(rules: seq<ConfigRule>, mode: Mode, rows: seq<RawRow>, i: nat)
    requires MapRows(rules, mode, rows).Ok? && i < |rows| == |Output(rules, mode, rows).rows|
    ensures Output(rules, mode, rows).rows[i].row == rows[i] && PlainTargets(Output(rules, mode, rows).rows[i])
  {
    RecordAt(rules, mode, rows, i);
    OnlySelectorIssues(rules, mode, rows[i]);
    RowTargetsPlain(rules, mode, rows[i]);
  }

  lemma RecordsOf(out: seq<MappedRow>, rows: seq<RawRow>, source: Source)
    requires |out| == |rows| && forall r | r in rows :: r.source == source
    requires forall i | 0 <= i < |out| :: out[i].row == rows[i] && PlainTargets(out[i])
    ensures Map(RowOf(), out) == rows && SingleSource(out, source)
    ensures forall m | m in out :: PlainTargets(m)
  {
    assert forall m | m in out :: exists i :: 0 <= i < |out| && out[i] == m && rows[i] in rows;
  }

  /** A run in which no row fails also keys every contribution by its row. */
  lemma RunRowsPlain(rules: seq<ConfigRule>, mode: Mode, rows: seq<RawRow>, source: Source)
    requires MapsAll(rules, mode, rows)
    requires forall r | r in rows :: r.source == source
    ensures PlainRows(Output(rules, mode, rows).rows, source)
    ensures forall m | m in Output(rules, mode, rows).rows :: !Failed(m)
  {
    RunRows(rules, mode, rows, source);
    MapsAllIff(rules, mode, rows);
    var out := Output(rules, mode, rows).rows;
    forall i | 0 <= i < |out|
      ensures PlainRow(out[i])
    {
      assert rows[i] in rows;
      RecordAt(rules, mode, rows, i);
      RowPlain(rules, mode, rows[i]);
    }
    assert forall m :: m in out ==> exists i :: 0 <= i < |out| && out[i] == m;
  }

  // ----- Membership

  function WeighMember(u: RowId -> int): Member -> int {
    (m: Member) => u(m.row)
  }

  function WeighRow(u: RowId -> int): RawRow -> int {
    (r: RawRow) => u(IdOfRow(r))
  }

  function WeighMapped(u: RowId -> int): MappedRow -> int {
    (m: MappedRow) => u(IdOfRow(m.row))
  }

  function WeighGroup(u: RowId -> int): GroupValue -> int {
    (g: GroupValue) => Sum(WeighRow(u), g.payment.rows) + Sum(WeighRow(u), g.settlement.rows)
  }

  function AllIds(): GroupId -> bool {
    (id: GroupId) => true
  }

  lemma {:induction false} SumMemberRows(u: RowId -> int, group: nat, rows: seq<RawRow>)
    ensures Sum(WeighMember(u), Map(MemberIn(group), rows)) == Sum(WeighRow(u), rows)
  {
    if rows != [] {
      SumMemberRows(u, group, rows[1..]);
      assert Map(MemberIn(group), rows)[1..] == Map(MemberIn(group), rows[1..]);
    }
  }

  lemma {:induction false} SumMembers(u: RowId -> int, groups: seq<GroupValue>)
    ensures Sum(WeighMember(u), MembersOf(groups)) == Sum(WeighGroup(u), groups)
  {
    if groups != [] {
      var k := |groups| - 1;
      var g := groups[k];
      SumMembers(u, groups[..k]);
      SumGroupMembers(u, k, g);
      SumConcat(WeighMember(u), MembersOf(groups[..k]), GroupMembers(k, g));
      SumSnoc(WeighGroup(u), groups[..k], g);
      assert groups == groups[..k] + [g];
    }
  }

  lemma SumGroupMembers(u: RowId -> int, k: nat, g: GroupValue)
    ensures Sum(WeighMember(u), GroupMembers(k, g)) == WeighGroup(u)(g)
  {
    SumMemberRows(u, k, g.payment.rows);
    SumMemberRows(u, k, g.settlement.rows);
    SumConcat(WeighMember(u), Map(MemberIn(k), g.payment.rows), Map(MemberIn(k), g.settlement.rows));
  }

  lemma {:induction false} SumRowsOf(u: RowId -> int, members: seq<MappedRow>)
    ensures Sum(WeighRow(u), Map(RowOf(), members)) == Sum(WeighMapped(u), members)
  {
    if members != [] {
      SumRowsOf(u, members[1..]);
      assert Map(RowOf(), members)[1..] == Map(RowOf(), members[1..]);
    }
  }

  /** Weighing the stored members is weighing the transaction rows, each once. */
  lemma MembersAreTransactions(u: RowId -> int, payments: seq<MappedRow>, settlements: seq<MappedRow>, groups: seq<GroupValue>)
    requires IsGrouping(payments, settlements, groups)
    ensures Sum(WeighMember(u), MembersOf(groups)) ==
      Sum(SelectedWeight(AllIds(), WeighMapped(u)), payments) + Sum(SelectedWeight(AllIds(), WeighMapped(u)), settlements)
  {
    SumMembers(u, groups);
    forall g | g in groups
      ensures WeighGroup(u)(g) ==
        PartWeight(AllIds(), WeighMapped(u), payments)(g) + PartWeight(AllIds(), WeighMapped(u), settlements)(g)
    {
      assert ReportsGroup(g, payments, settlements);
      SumPermutation(WeighRow(u), g.payment.rows, Map(RowOf(), Members(payments, g.id)));
      SumPermutation(WeighRow(u), g.settlement.rows, Map(RowOf(), Members(settlements, g.id)));
      SumRowsOf(u, Members(payments, g.id));
      SumRowsOf(u, Members(settlements, g.id));
    }
    SumAdd(WeighGroup(u), PartWeight(AllIds(), WeighMapped(u), payments), PartWeight(AllIds(), WeighMapped(u), settlements), groups);
    assert forall m :: m in payments ==> m in payments + settlements;
    assert forall m :: m in settlements ==> m in payments + settlements;
    PartitionSum(groups, payments, AllIds(), WeighMapped(u));
    PartitionSum(groups, settlements, AllIds(), WeighMapped(u));
  }

  function One(): RowId -> int {
    (id: RowId) => 1
  }

  function Is(id: RowId): RowId -> int {
    (x: RowId) => if x == id then 1 else 0
  }

  lemma {:induction false} SumOnes(members: seq<Member>)
    ensures Sum(WeighMember(One()), members) == |members|
  {
    if members != [] {
      SumOnes(members[1..]);
    }
  }

  lemma {:induction false} SumIs(id: RowId, members: seq<Member>)
    ensures Sum(WeighMember(Is(id)), members) == multiset(MemberIds(members))[id]
  {
    if members != [] {
      SumIs(id, members[1..]);
      assert MemberIds(members) == [members[0].row] + MemberIds(members[1..]);
    }
  }

  lemma {:induction false} CountTransactions(rows: seq<MappedRow>)
    ensures Sum(SelectedWeight(AllIds(), WeighMapped(One())), rows) == TransactionCount(Map(RowOf(), rows))
  {
    if rows != [] {
      CountTransactions(rows[1..]);
      assert Map(RowOf(), rows)[1..] == Map(RowOf(), rows[1..]);
    }
  }

  lemma {:induction false} AtMostOneRow(id: RowId, rows: seq<MappedRow>)
    requires UniqueRows(Map(RowOf(), rows))
    ensures 0 <= Sum(SelectedWeight(AllIds(), WeighMapped(Is(id))), rows) <= 1
    ensures Sum(SelectedWeight(AllIds(), WeighMapped(Is(id))), rows) > 0 ==> exists m :: m in rows && IdOfRow(m.row) == id
  {
    if rows != [] {
      var raw := Map(RowOf(), rows);
      assert raw[1..] == Map(RowOf(), rows[1..]);
      AtMostOneRow(id, rows[1..]);
      assert rows == [rows[0]] + rows[1..];
      if IdOfRow(rows[0].row) == id {
        forall m | m in rows[1..]
          ensures IdOfRow(m.row) != id
        {
          var i :| 0 <= i < |rows[1..]| && rows[1..][i] == m;
          assert raw[i + 1] == m.row;
        }
      }
    }
  }

  /** Every transaction row is a member exactly once and nothing else is a member. */
  lemma MembershipVerifies(payments: seq<MappedRow>, settlements: seq<MappedRow>, groups: seq<GroupValue>)
    requires IsGrouping(payments, settlements, groups)
    requires UniqueRows(Map(RowOf(), payments + settlements))
    ensures |MembersOf(groups)| == TransactionCount(Map(RowOf(), payments + settlements))
    ensures RepeatedMembers(MembersOf(groups)) == {}
  {
    var members := MembersOf(groups);
    MembersAreTransactions(One(), payments, settlements, groups);
    SumOnes(members);
    SumConcat(SelectedWeight(AllIds(), WeighMapped(One())), payments, settlements);
    CountTransactions(payments + settlements);
    forall id
      ensures id !in RepeatedMembers(members)
    {
      MembersAreTransactions(Is(id), payments, settlements, groups);
      SumIs(id, members);
      SumConcat(SelectedWeight(AllIds(), WeighMapped(Is(id))), payments, settlements);
      AtMostOneRow(id, payments + settlements);
    }
  }

  // ----- Summary totals

  function TotalValue(summary: Summary, key: SummaryKey): int {
    if key.field in summary && (key.source == Payment || key.source == Settlement)
    then SummaryAt(summary, key.field, key.source) else 0
  }

  lemma {:induction false} OneTotal(totals: seq<SummaryTotal>, key: SummaryKey, value: int)
    requires forall i, j | 0 <= i < j < |totals| :: (totals[i].source, totals[i].field) != (totals[j].source, totals[j].field)
    requires forall x | x in totals && SummaryKey(x.source, x.field) == key :: x.amount == value
    ensures TotalAt(totals, key) == if exists x :: x in totals && SummaryKey(x.source, x.field) == key then value else 0
  {
    if totals != [] {
      assert totals == [totals[0]] + totals[1..];
      OneTotal(totals[1..], key, value);
      assert totals[0] in totals;
      if SummaryKey(totals[0].source, totals[0].field) == key {
        forall x | x in totals[1..]
          ensures SummaryKey(x.source, x.field) != key
        {
          var i :| 0 <= i < |totals[1..]| && totals[1..][i] == x;
          assert totals[i + 1] == x;
        }
      }
    }
  }

  lemma StoredTotal(totals: seq<SummaryTotal>, summary: Summary, joined: seq<Joined>, key: SummaryKey)
    requires IsTotals(totals, summary, joined)
    ensures TotalAt(totals, key) == TotalValue(summary, key)
  {
    OneTotal(totals, key, SummaryAt(summary, key.field, key.source));
    if key.field in summary && (key.source == Payment || key.source == Settlement) {
      assert TotalFor(summary, joined, key.source, key.field) in totals;
    }
  }

  /** What a joined mapping adds to a summary key. */
  function SummarizedAmount(key: SummaryKey): Joined -> int {
    (j: Joined) =>
      if Summarized(j) && j.row.source == key.source && j.mapping.target == Some(key.field) then j.mapping.amount else 0
  }

  lemma {:induction false} ContributionsSum(joined: seq<Joined>, key: SummaryKey)
    ensures ContributedAt(ContributionsOf(joined), key) == Sum(SummarizedAmount(key), joined)
  {
    if joined != [] {
      ContributionsSum(joined[1..], key);
      var rest := ContributionsOf(joined[1..]);
      if Summarized(joined[0]) {
        var x := SummaryContribution(joined[0].row.source, joined[0].mapping.target.value, joined[0].mapping.amount);
        assert ContributionsOf(joined) == [x] + rest;
        assert ([x] + rest)[1..] == rest;
      } else {
        assert ContributionsOf(joined) == [] + rest == rest;
      }
    }
  }

  lemma SummarizedPair(row: RawRow, c: Contribution, key: SummaryKey)
    requires PlainTarget(c.target) && key.field != ""
    ensures Through(SummarizedAmount(key), row)(c) ==
      if row.scope == InScope && row.source == key.source then ContributionTo(key.field)(c) else 0
  {
    StoredTarget(row, c);
    var j := PairOf(row)(c);
    assert Through(SummarizedAmount(key), row)(c) == SummarizedAmount(key)(j);
  }

  /** The partial contributions of the failed rows of a source to a field. */
  function FailedAt(key: SummaryKey): MappedRow -> int {
    (m: MappedRow) => if m.row.source == key.source then FailedWeight(key.field)(m) else 0
  }

  function StoredWeight(key: SummaryKey): MappedRow -> int {
    (m: MappedRow) => SummaryWeight(key.field, key.source)(m) + FailedAt(key)(m)
  }

  lemma StoredWeightRow(m: MappedRow, key: SummaryKey)
    requires PlainTargets(m) && key.field != ""
    ensures StoredWeight(key)(m) == Sum(Through(SummarizedAmount(key), m.row), m.contributions)
  {
    forall c | c in m.contributions {
      SummarizedPair(m.row, c, key);
    }
    assert FailedAt(key)(m) == if m.row.source == key.source then FailedWeight(key.field)(m) else 0;
    if m.row.scope == InScope && m.row.source == key.source {
      SumAgree(ContributionTo(key.field), Through(SummarizedAmount(key), m.row), m.contributions);
    } else {
      SumZero(Through(SummarizedAmount(key), m.row), m.contributions);
    }
  }

  /** The stored contributions of a key add up to what the rows that did not fail send to it, which is its
      summary bucket, plus the partial contributions of the rows that did. */
  lemma ContributedIsWeight(rows: seq<MappedRow>, key: SummaryKey)
    requires forall m | m in rows :: PlainTargets(m)
    requires key.field != ""
    ensures ContributedAt(ContributionsOf(PairsOf(rows)), key) ==
      Sum(SummaryWeight(key.field, key.source), rows) + Sum(FailedAt(key), rows)
  {
    ContributionsSum(PairsOf(rows), key);
    forall m | m in rows {
      StoredWeightRow(m, key);
    }
    SumPairs(SummarizedAmount(key), StoredWeight(key), rows);
    SumAdd(StoredWeight(key), SummaryWeight(key.field, key.source), FailedAt(key), rows);
  }

  lemma WeightOfOtherSource(rows: seq<MappedRow>, source: Source, other: Source, t: string)
    requires SingleSource(rows, source) && source != other
    ensures Sum(SummaryWeight(t, other), rows) == 0
  {
    SumZero(SummaryWeight(t, other), rows);
  }

  lemma {:induction false} ContributedFieldsNotBlank(joined: seq<Joined>)
    ensures forall x | x in ContributionsOf(joined) :: x.field != ""
  {
    if joined != [] {
      ContributedFieldsNotBlank(joined[1..]);
    }
  }

  lemma {:induction false} TotalKnown(totals: seq<SummaryTotal>, key: SummaryKey)
    requires TotalAt(totals, key) != 0
    ensures exists x :: x in totals && SummaryKey(x.source, x.field) == key
  {
    if forall x | x in totals :: SummaryKey(x.source, x.field) != key {
      SumZero(TotalAmount(key), totals);
    }
  }

  lemma {:induction false} ContributionKnown(contributions: seq<SummaryContribution>, key: SummaryKey)
    requires ContributedAt(contributions, key) != 0
    ensures exists x :: x in contributions && SummaryKey(x.source, x.field) == key
  {
    if forall x | x in contributions :: SummaryKey(x.source, x.field) != key {
      SumZero(ContributedAmount(key), contributions);
    }
  }

  /** The keys the recomputation reports are all those whose two sums differ: no difference is missed because
      neither table has a row for it. */
  lemma DiffersIff(t: Tables, key: SummaryKey)
    ensures key in DifferingTotals(t) <==> TotalAt(t.totals, key) != ContributedAt(t.contributions, key)
  {
    if TotalAt(t.totals, key) != ContributedAt(t.contributions, key) {
      if TotalAt(t.totals, key) != 0 {
        TotalKnown(t.totals, key);
      } else {
        ContributionKnown(t.contributions, key);
      }
    }
  }
}
