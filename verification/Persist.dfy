/** The body of Persist in internal/store/store.go: filling the tables of one run, step by step, in the
    order of the source, stopping at the first constraint that fails. Constraints of the schema
    (migrations/001_init.sql, 002_audit_lifecycle.sql, 006_audit_hardening.sql) are checked where the
    statement that meets them runs; a failure leaves nothing behind. */
module Persist {
  import opened Outcome
  import opened Domain
  import opened Sequences
  import opened MapRun
  import opened Grouping
  import opened Groups
  import opened Gate
  import opened RunTables
  import opened Verify
  import opened StrictVerification
  import Configuration = ConfigStore
  import Transactions = ConfigTransactions
  import Imports = ConfigImports
  import Replay = ConfigReplay
  import Stream = ConfigStream
  import ConfigDatabase

  datatype PersistError =
    | NoConfigVersion
    | RuleRefused
    | Gated(error: GateError)
    | DuplicateRow(row: RowId)
    | BadLocation(row: RowId)
    | MissingRule(rule: RuleKey)
    | WrongLineage(rule: RuleKey)
    | DuplicateMapping(row: RowId, rule: RuleKey)
    | MissingHeader(line: int)
    | DuplicateControl(settlementID: string)
    | DuplicateGroup(id: GroupId)
    | UnknownMember(row: RowId)
    | DuplicateMember(row: RowId)

  /** rowIDs: the ids the inserted source rows were given, under (source, ordinal). */
  method StageRows(rows: seq<MappedRow>) returns (r: Result<seq<RawRow>, PersistError>, ids: set<RowId>)
    ensures r.Ok? <==> UniqueRows(Map(RowOf(), rows)) && Located(Map(RowOf(), rows))
    ensures r.Ok? ==> r.value == Map(RowOf(), rows)
    ensures r.Ok? ==> forall id :: id in ids <==> exists m :: m in rows && IdOfRow(m.row) == id
  {
    var staged: seq<RawRow> := [];
    ids := {};
    ghost var raw := Map(RowOf(), rows);
    for i := 0 to |rows|
      invariant staged == raw[..i] && UniqueRows(staged) && Located(staged)
      invariant forall id :: id in ids <==> exists j :: 0 <= j < i && IdOfRow(rows[j].row) == id
    {
      var row := rows[i].row;
      assert raw[i] == row && row in raw;
      if row.ordinal <= 0 || row.lineStart <= 0 {
        return Err(BadLocation(IdOfRow(row))), ids;
      }
      if IdOfRow(row) in ids {
        var j :| 0 <= j < i && IdOfRow(rows[j].row) == IdOfRow(row);
        assert raw[j] == rows[j].row;
        return Err(DuplicateRow(IdOfRow(row))), ids;
      }
      assert forall j | 0 <= j < i :: staged[j] == rows[j].row;
      staged := staged + [row];
      ids := ids + {IdOfRow(row)};
    }
    r := Ok(staged);
    assert forall m | m in rows :: exists j :: 0 <= j < |rows| && rows[j] == m;
  }

  method CollectRuleKeys(rules: seq<ConfigRule>) returns (keys: set<RuleKey>)
    ensures forall k :: k in keys <==> exists r :: r in rules && KeyOfRule(r) == k
  {
    keys := {};
    for i := 0 to |rules|
      invariant forall k :: k in keys <==> exists j :: 0 <= j < i && KeyOfRule(rules[j]) == k
    {
      keys := keys + {KeyOfRule(rules[i])};
    }
    assert forall r | r in rules :: exists j :: 0 <= j < |rules| && rules[j] == r;
  }

  lemma MappingsSnoc(rows: seq<MappedRow>, i: nat)
    requires i < |rows|
    ensures MappingsOf(rows[..i + 1]) == MappingsOf(rows[..i]) + Map(MappingOf(rows[i].row), rows[i].contributions)
  {
    MappingsConcat(rows[..i], [rows[i]]);
    assert rows[..i + 1] == rows[..i] + [rows[i]];
    assert [rows[i]][1..] == [];
    var last := Map(MappingOf(rows[i].row), rows[i].contributions);
    assert last + [] == last;
  }

  lemma {:induction false} MappingsConcat(a: seq<MappedRow>, b: seq<MappedRow>)
    ensures MappingsOf(a + b) == MappingsOf(a) + MappingsOf(b)
  {
    if a == [] {
      assert a + b == b;
    } else {
      MappingsConcat(a[1..], b);
      assert (a + b)[1..] == a[1..] + b;
      ConcatAssociative(Map(MappingOf(a[0].row), a[0].contributions), MappingsOf(a[1..]), MappingsOf(b));
    }
  }

  /** What the loop over rows and contributions copies into row_mappings. */
  method StageMappings(rows: seq<MappedRow>, ruleIDs: set<RuleKey>) returns (mappings: seq<RowMapping>, missing: Option<RuleKey>)
    ensures missing.None? <==> forall m | m in MappingsOf(rows) :: m.rule in ruleIDs
    ensures missing.None? ==> mappings == MappingsOf(rows)
  {
    mappings := [];
    for i := 0 to |rows|
      invariant mappings == MappingsOf(rows[..i])
      invariant forall m | m in mappings :: m.rule in ruleIDs
    {
      var row, cs := rows[i].row, rows[i].contributions;
      ghost var before := mappings;
      MappingsSnoc(rows, i);
      ghost var added := Map(MappingOf(row), cs);
      for k := 0 to |cs|
        invariant mappings == before + added[..k]
        invariant forall m | m in mappings :: m.rule in ruleIDs
      {
        var mapping := MappingOf(row)(cs[k]);
        assert added[k] == mapping && mapping in added;
        if KeyOfRule(cs[k].rule) !in ruleIDs {
          MappingsConcat(rows[..i + 1], rows[i + 1..]);
          assert rows[..i + 1] + rows[i + 1..] == rows;
          assert mapping in MappingsOf(rows);
          return mappings, Some(mapping.rule);
        }
        assert added[..k + 1] == added[..k] + [mapping];
        mappings := mappings + [mapping];
      }
      assert added[..|cs|] == added;
    }
    assert rows[..|rows|] == rows;
    missing := None;
  }

  /** The constraints on the copied mappings: rule and row of one source, no pair twice. */
  method CheckMappings(mappings: seq<RowMapping>) returns (error: Option<PersistError>)
    ensures error.None? <==> UniqueMappings(mappings) && Lineage(mappings)
  {
    var seen: set<(RowId, RuleKey)> := {};
    for i := 0 to |mappings|
      invariant UniqueMappings(mappings[..i]) && Lineage(mappings[..i])
      invariant forall x :: x in seen <==> exists j :: 0 <= j < i && x == (mappings[j].row, mappings[j].rule)
    {
      var m := mappings[i];
      assert mappings[..i + 1] == mappings[..i] + [m];
      assert m in mappings;
      if m.row.source != m.rule.source {
        return Some(WrongLineage(m.rule));
      }
      if (m.row, m.rule) in seen {
        return Some(DuplicateMapping(m.row, m.rule));
      }
      seen := seen + {(m.row, m.rule)};
    }
    assert mappings[..|mappings|] == mappings;
    return None;
  }

  /** settlement_controls: one row for the metadata of the selected settlement. */
  method StoreControls(rows: seq<MappedRow>, selected: string) returns (r: Result<seq<Control>, PersistError>)
    ensures var controls := Filter(ControlRows(selected), Map(RowOf(), rows));
      && (r.Ok? <==> |controls| <= 1 && forall x | x in controls :: x.hasRecon)
      && (r.Ok? ==> r.value == Map(ControlOf(), controls))
  {
    ghost var raw := Map(RowOf(), rows);
    var stored: seq<Control> := [];
    for i := 0 to |rows|
      invariant stored == Map(ControlOf(), Filter(ControlRows(selected), raw[..i])) && |stored| <= 1
      invariant forall x | x in Filter(ControlRows(selected), raw[..i]) :: x.hasRecon
    {
      var row := rows[i].row;
      assert raw[..i + 1] == raw[..i] + [row];
      FilterSnoc(ControlRows(selected), raw[..i], row);
      if row.source == Settlement && row.kind == Metadata && row.settlementID == selected {
        ControlBlocks(raw, selected, i);
        if !row.hasRecon {
          return Err(MissingHeader(row.lineStart));
        }
        if |stored| > 0 {
          return Err(DuplicateControl(selected));
        }
        stored := stored + [Control(row.settlementID, IdOfRow(row), row.currency, row.reconAmount)];
      }
    }
    assert raw[..|rows|] == raw;
    return Ok(stored);
  }

  lemma ControlBlocks(raw: seq<RawRow>, selected: string, i: nat)
    requires i < |raw| && ControlRow(raw[i], selected)
    ensures raw[i] in Filter(ControlRows(selected), raw)
    ensures |Filter(ControlRows(selected), raw)| > |Filter(ControlRows(selected), raw[..i])|
  {
    assert raw == raw[..i] + [raw[i]] + raw[i + 1..];
    FilterConcat(ControlRows(selected), raw[..i] + [raw[i]], raw[i + 1..]);
    FilterSnoc(ControlRows(selected), raw[..i], raw[i]);
  }

  /** summary_totals: the targets in any order, both sources of each. */
  method StoreTotals(summary: Summary, joined: seq<Joined>) returns (totals: seq<SummaryTotal>)
    ensures IsTotals(totals, summary, joined)
  {
    totals := [];
    var rest := summary.Keys;
    while rest != {}
      invariant rest <= summary.Keys
      invariant TotalsFor(totals, summary, joined, summary.Keys - rest)
    {
      var field :| field in rest;
      TotalsSnoc(totals, summary, joined, summary.Keys - rest, field);
      totals := totals + [TotalFor(summary, joined, Payment, field), TotalFor(summary, joined, Settlement, field)];
      assert summary.Keys - (rest - {field}) == (summary.Keys - rest) + {field};
      rest := rest - {field};
    }
    assert summary.Keys - {} == summary.Keys;
  }

  lemma TotalsSnoc(totals: seq<SummaryTotal>, summary: Summary, joined: seq<Joined>, fields: set<string>, field: string)
    requires TotalsFor(totals, summary, joined, fields) && field !in fields
    ensures TotalsFor(totals + [TotalFor(summary, joined, Payment, field), TotalFor(summary, joined, Settlement, field)],
      summary, joined, fields + {field})
  {
    var p, s := TotalFor(summary, joined, Payment, field), TotalFor(summary, joined, Settlement, field);
    var totals' := totals + [p, s];
    assert totals'[|totals|] == p && totals'[|totals| + 1] == s;
    assert forall i | 0 <= i < |totals| :: totals'[i] == totals[i] && totals[i] in totals && totals[i].field != field;
    assert p in totals' && s in totals';
    assert forall x :: x in totals' <==> x in totals || x == p || x == s;
  }

  // ----- Groups and members

  method StoreGroups(groups: seq<GroupValue>) returns (r: Result<seq<GroupRecord>, PersistError>)
    ensures r.Ok? <==> DistinctIds(groups)
    ensures r.Ok? ==> r.value == Map(RecordOfGroup(), groups)
  {
    var records: seq<GroupRecord> := [];
    var seen: set<GroupId> := {};
    for i := 0 to |groups|
      invariant records == Map(RecordOfGroup(), groups[..i]) && DistinctIds(groups[..i])
      invariant forall id :: id in seen <==> exists j :: 0 <= j < i && groups[j].id == id
    {
      var g := groups[i];
      if g.id in seen {
        return Err(DuplicateGroup(g.id));
      }
      var status := Reconciled;
      if |g.payment.rows| == 0 {
        status := UnreconciledSettlement;
      } else if |g.settlement.rows| == 0 {
        status := UnreconciledPayment;
      }
      records := records +
        [GroupRecord(g.id, |g.payment.rows|, g.payment.amount, |g.settlement.rows|, g.settlement.amount, status)];
      seen := seen + {g.id};
      assert groups[..i + 1] == groups[..i] + [g];
    }
    assert groups[..|groups|] == groups;
    return Ok(records);
  }

  method StageMembers(groups: seq<GroupValue>) returns (members: seq<Member>)
    ensures members == MembersOf(groups)
  {
    members := [];
    for i := 0 to |groups|
      invariant members == MembersOf(groups[..i])
    {
      var g := groups[i];
      ghost var before := members;
      for k := 0 to |g.payment.rows|
        invariant members == before + Map(MemberIn(i), g.payment.rows[..k])
      {
        assert g.payment.rows[..k + 1] == g.payment.rows[..k] + [g.payment.rows[k]];
        members := members + [Member(i, IdOfRow(g.payment.rows[k]))];
      }
      assert g.payment.rows[..|g.payment.rows|] == g.payment.rows;
      ghost var half := members;
      for k := 0 to |g.settlement.rows|
        invariant members == half + Map(MemberIn(i), g.settlement.rows[..k])
      {
        assert g.settlement.rows[..k + 1] == g.settlement.rows[..k] + [g.settlement.rows[k]];
        members := members + [Member(i, IdOfRow(g.settlement.rows[k]))];
      }
      assert g.settlement.rows[..|g.settlement.rows|] == g.settlement.rows;
      ConcatAssociative(before, Map(MemberIn(i), g.payment.rows), Map(MemberIn(i), g.settlement.rows));
      assert groups[..i + 1][..i] == groups[..i] && groups[..i + 1][i] == g;
    }
    assert groups[..|groups|] == groups;
  }

  /** recon_members: every member is a stored row, and no row is a member twice. */
  predicate MembersFit(members: seq<Member>, ids: set<RowId>) {
    && (forall m | m in members :: m.row in ids)
    && forall i, j | 0 <= i < j < |members| :: members[i].row != members[j].row
  }

  method CheckMembers(members: seq<Member>, ids: set<RowId>) returns (error: Option<PersistError>)
    ensures error.None? <==> MembersFit(members, ids)
  {
    var seen: set<RowId> := {};
    for i := 0 to |members|
      invariant MembersFit(members[..i], ids)
      invariant forall id :: id in seen <==> exists j :: 0 <= j < i && members[j].row == id
    {
      var m := members[i];
      assert m in members && members[..i + 1] == members[..i] + [m];
      if m.row !in ids {
        return Some(UnknownMember(m.row));
      }
      if m.row in seen {
        return Some(DuplicateMember(m.row));
      }
      seen := seen + {m.row};
    }
    assert members[..|members|] == members;
    return None;
  }

  function RowIds(rows: seq<MappedRow>): set<RowId> {
    set m | m in rows :: IdOfRow(m.row)
  }

  lemma {:induction false} MembersOfGroups(groups: seq<GroupValue>, m: Member) returns (g: GroupValue, r: RawRow)
    requires m in MembersOf(groups)
    ensures g in groups && r in g.payment.rows + g.settlement.rows && IdOfRow(r) == m.row
  {
    var last := |groups| - 1;
    if m in MembersOf(groups[..last]) {
      g, r := MembersOfGroups(groups[..last], m);
    } else {
      g := groups[last];
      var rows := g.payment.rows + g.settlement.rows;
      var i :| 0 <= i < |GroupMembers(last, g)| && GroupMembers(last, g)[i] == m;
      r := rows[i];
    }
  }

  lemma SideRowsAreInput(side: Side, rows: seq<MappedRow>, id: GroupId, r: RawRow)
    requires ReportsSide(side, Members(rows, id)) && r in side.rows
    ensures exists m :: m in rows && m.row == r
  {
    assert r in multiset(side.rows);
    assert r in Map(RowOf(), Members(rows, id));
    var i :| 0 <= i < |Members(rows, id)| && Members(rows, id)[i].row == r;
    assert Members(rows, id)[i] in rows;
  }

  /** The members of a full outer join of stored rows always fit: the check never fails on what BuildGroups
      returns. */
  lemma GroupingFits(payments: seq<MappedRow>, settlements: seq<MappedRow>, groups: seq<GroupValue>)
    requires IsGrouping(payments, settlements, groups)
    requires UniqueRows(Map(RowOf(), payments + settlements))
    ensures MembersFit(MembersOf(groups), RowIds(payments + settlements))
  {
    var members := MembersOf(groups);
    MembershipVerifies(payments, settlements, groups);
    RepeatedIffTwice(members);
    forall m | m in members
      ensures m.row in RowIds(payments + settlements)
    {
      var g, r := MembersOfGroups(groups, m);
      assert ReportsGroup(g, payments, settlements);
      if r in g.payment.rows {
        SideRowsAreInput(g.payment, payments, g.id, r);
      } else {
        SideRowsAreInput(g.settlement, settlements, g.id, r);
      }
    }
  }

  lemma RepeatedIffTwice(members: seq<Member>)
    requires RepeatedMembers(members) == {}
    ensures forall i, j | 0 <= i < j < |members| :: members[i].row != members[j].row
  {
    var ids := MemberIds(members);
    forall i, j | 0 <= i < j < |members|
      ensures members[i].row != members[j].row
    {
      assert ids[i] in ids && ids[i] !in RepeatedMembers(members);
      CountedTwice(ids, i, j);
    }
  }

  // ----- Persist

  /** The body: the tables are committed exactly when every constraint is met; otherwise nothing is. */
  method StoreTables(rows: seq<MappedRow>, groups: seq<GroupValue>, summary: Summary, rules: seq<ConfigRule>,
      issues: seq<RunIssue>, selected: string) returns (r: Result<Tables, PersistError>)
    ensures r.Ok? <==> Storable(rows, rules, selected) && DistinctIds(groups) && MembersFit(MembersOf(groups), RowIds(rows))
    ensures r.Ok? ==> IsStored(r.value, rows, groups, summary, issues, selected)
  {
    var ruleIDs := CollectRuleKeys(rules);
    var staged, ids := StageRows(rows);
    if staged.Err? {
      return Err(staged.error);
    }
    assert ids == RowIds(rows);
    var mappings, missing := StageMappings(rows, ruleIDs);
    if missing.Some? {
      return Err(MissingRule(missing.value));
    }
    var error := CheckMappings(mappings);
    if error.Some? {
      return Err(error.value);
    }
    var joined := JoinRows(mappings, staged.value);
    var controls := StoreControls(rows, selected);
    if controls.Err? {
      return Err(controls.error);
    }
    var totals := StoreTotals(summary, joined);
    var records := StoreGroups(groups);
    if records.Err? {
      return Err(records.error);
    }
    var members := StageMembers(groups);
    error := CheckMembers(members, ids);
    if error.Some? {
      return Err(error.value);
    }
    return Ok(Tables(staged.value, mappings, ContributionsOf(joined), controls.value, totals, records.value, members, issues));
  }

  /** What Persist asks besides its claim: a configuration version, the gate of a strict run, rules that are there
      or may be inserted, and the constraints on the rows. For the groups that BuildGroups returns the last two
      conditions always hold, by `GroupingFits`. */
  ghost predicate Persistable(config: Configuration.State, v: int, payment: string, settlement: string, mode: Mode,
      rows: seq<MappedRow>, groups: seq<GroupValue>, summary: Summary, rules: seq<ConfigRule>, selected: string)
  {
    && v > 0 && (mode == Strict ==> GatePasses(summary, groups))
    && Transactions.StoreRun(config, v, payment, settlement, rules).Some?
    && Storable(rows, rules, selected) && DistinctIds(groups) && MembersFit(MembersOf(groups), RowIds(rows))
  }

  /** What Persist checks before it claims a run. */
  method CheckGate(v: int, mode: Mode, groups: seq<GroupValue>, summary: Summary) returns (error: Option<PersistError>)
    ensures error.None? <==> v > 0 && (mode == Strict ==> GatePasses(summary, groups))
  {
    if v <= 0 {
      return Some(NoConfigVersion);
    }
    if mode == Strict {
      var gate := StrictGate(summary, groups);
      if gate.Some? {
        return Some(Gated(gate.value));
      }
    }
    return None;
  }

  /** Persist but for its claim: the gate of a strict run, then one transaction over the configuration tables and
      the tables of the run. It succeeds exactly when all of them accept, and otherwise leaves both untouched. */
  method PersistRun(db: ConfigDatabase.Database, v: int, payment: string, settlement: string, mode: Mode,
      rows: seq<MappedRow>, groups: seq<GroupValue>, summary: Summary, rules: seq<ConfigRule>, issues: seq<RunIssue>,
      selected: string) returns (r: Result<Tables, PersistError>)
    requires db.Consistent()
    modifies db
    ensures db.Consistent() && Configuration.FrozenKept(old(db.Tables()), db.Tables())
    ensures r.Ok? <==> Persistable(old(db.Tables()), v, payment, settlement, mode, rows, groups, summary, rules, selected)
    ensures r.Ok? ==> Transactions.StoreRun(old(db.Tables()), v, payment, settlement, rules) == Some(db.Tables())
    ensures r.Ok? ==> IsStored(r.value, rows, groups, summary, issues, selected)
    ensures r.Err? ==> db.Tables() == old(db.Tables())
  {
    var gated := CheckGate(v, mode, groups, summary);
    if gated.Some? {
      return Err(gated.value);
    }
    var saved := db.Tables();
    var ok := db.StoreRunConfig(v, payment, settlement, rules);
    if !ok {
      return Err(RuleRefused);
    }
    r := StoreTables(rows, groups, summary, rules, issues, selected);
    if r.Err? {
      db.Restore(saved);
    }
  }

  /** A committed run refers to rules that exist: each stored mapping names a rule of the run's version. */
  lemma MappingsHaveRules(config: Configuration.State, v: nat, payment: string, settlement: string, rows: seq<MappedRow>,
      rules: seq<ConfigRule>, selected: string, m: RowMapping) returns (r: ConfigRule)
    requires Transactions.StoreRun(config, v, payment, settlement, rules).Some? && Storable(rows, rules, selected)
    requires m in MappingsOf(rows)
    ensures KeyOfRule(r) == m.rule && Transactions.HasRule(Transactions.StoreRun(config, v, payment, settlement, rules).value, v, r)
  {
    r :| r in rules && KeyOfRule(r) == m.rule;
    Imports.StoredRulesFound(
      Configuration.InsertFile(Configuration.InsertFile(config, Configuration.File(Configuration.PaymentData, payment)),
        Configuration.File(Configuration.SettlementData, settlement)), v, rules);
  }

  /** On a frozen version Persist inserts no rule: it asks that all of the run's rules are there already. */
  lemma PersistableOnFrozen(config: Configuration.State, v: nat, payment: string, settlement: string, rules: seq<ConfigRule>)
    requires Configuration.IsFrozen(config, v)
    ensures Transactions.StoreRun(config, v, payment, settlement, rules).Some? <==>
      forall r | r in rules :: Transactions.HasRule(config, v, r)
    ensures Transactions.StoreRun(config, v, payment, settlement, rules).Some? ==>
      Transactions.StoreRun(config, v, payment, settlement, rules).value.rules == config.rules
  {
    var withFiles := Configuration.InsertFile(Configuration.InsertFile(config, Configuration.File(Configuration.PaymentData, payment)),
      Configuration.File(Configuration.SettlementData, settlement));
    Imports.StoreRulesOnFrozen(withFiles, v, rules);
    assert forall r :: Transactions.HasRule(withFiles, v, r) <==> Transactions.HasRule(config, v, r);
  }

  /** A run by version name is never refused for its rules: what LoadRules gave for a frozen version is there
      whenever the run is stored, and no rule is inserted. */
  lemma OwnRulesNeverRefused(env: Configuration.Env, config: Configuration.State, v: nat, loaded: seq<ConfigRule>,
      history: seq<Transactions.Transaction>, payment: string, settlement: string)
    requires Configuration.Valid(env, config) && Configuration.IsFrozen(config, v)
    requires Replay.ReadsBack(env.collation, config, v, loaded)
    ensures var later := Transactions.Run(env, config, history);
      var rules := Filter(Replay.OfSource(Payment), loaded) + Filter(Replay.OfSource(Settlement), loaded);
      && Transactions.StoreRun(later, v, payment, settlement, rules).Some?
      && Transactions.StoreRun(later, v, payment, settlement, rules).value.rules == later.rules
  {
    var later := Transactions.Run(env, config, history);
    var rules := Filter(Replay.OfSource(Payment), loaded) + Filter(Replay.OfSource(Settlement), loaded);
    Transactions.FrozenForever(env, config, history);
    assert Configuration.KeptVersion(config, later, v);
    forall r | r in rules
      ensures Transactions.HasRule(later, v, r)
    {
      Replay.ReadRulesFound(env.collation, config, v, loaded, r);
      Replay.FoundForever(env, config, v, r, history);
    }
    PersistableOnFrozen(later, v, payment, settlement, rules);
  }

  /** Nor is a run by files, under the version its import returned. */
  lemma ImportedRulesNeverRefused(env: Configuration.Env, config: Configuration.State, given: string, p: string, s: string,
      rules: seq<ConfigRule>, history: seq<Transactions.Transaction>, payment: string, settlement: string)
    requires Configuration.Valid(env, config) && Transactions.Import(env, config, given, p, s, rules).Some?
    requires forall r | r in rules :: r.source == Payment || r.source == Settlement
    requires var i := Transactions.Import(env, config, given, p, s, rules).value;
      i.version in config.versions ==> Imports.NoCollision(env, Configuration.VersionBytes(env, config, i.version),
        Stream.ConfigBytes(p, s, rules))
    ensures var i := Transactions.Import(env, config, given, p, s, rules).value;
      var later := Transactions.Run(env, i.state, history);
      && Transactions.StoreRun(later, i.version, payment, settlement, rules).Some?
      && Transactions.StoreRun(later, i.version, payment, settlement, rules).value.rules == later.rules
  {
    var i := Transactions.Import(env, config, given, p, s, rules).value;
    var later := Transactions.Run(env, i.state, history);
    forall r | r in rules
      ensures Transactions.HasRule(later, i.version, r)
    {
      Replay.ImportedRulesFound(env, config, given, p, s, rules, history, r);
    }
    ImportFrozen(env, config, given, p, s, rules, history);
    PersistableOnFrozen(later, i.version, payment, settlement, rules);
  }

  lemma ImportFrozen(env: Configuration.Env, config: Configuration.State, given: string, p: string, s: string,
      rules: seq<ConfigRule>, history: seq<Transactions.Transaction>)
    requires Configuration.Valid(env, config) && Transactions.Import(env, config, given, p, s, rules).Some?
    ensures var i := Transactions.Import(env, config, given, p, s, rules).value;
      Configuration.IsFrozen(Transactions.Run(env, i.state, history), i.version)
  {
    var i := Transactions.Import(env, config, given, p, s, rules).value;
    if i.version in config.versions {
      Replay.FoundHasHash(env, config, given, p, s, rules);
      Transactions.FrozenForever(env, config, history);
      assert Configuration.KeptVersion(config, Transactions.Run(env, config, history), i.version);
    } else {
      Replay.NewVersionKept(env, config, given, p, s, rules, history);
    }
  }
}
