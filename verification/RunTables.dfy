/** The derived tables of one run (migrations/001_init.sql, 002_audit_lifecycle.sql) and what Persist in
    internal/store/store.go writes into them. A row of source_rows is identified by (source, ordinal), the
    pair the database keeps unique within a run. */
module RunTables {
  import opened Text
  import opened Outcome
  import opened Domain
  import opened Sequences
  import opened MapRun
  import opened Grouping

  datatype RowId = RowId(source: Source, ordinal: int)

  datatype RuleKey = RuleKey(source: Source, originFile: string, originLine: nat)

  datatype RowMapping = RowMapping(
    row: RowId, rule: RuleKey, field: string, amount: int, target: Option<string>, decision: Decision, recordRef: string)

  datatype SummaryContribution = SummaryContribution(source: Source, field: string, amount: int)

  datatype Control = Control(settlementID: string, metadataRow: RowId, currency: string, headerTotal: int)

  datatype SummaryTotal = SummaryTotal(source: Source, field: string, amount: int, contributionCount: nat)

  datatype ReconStatus = Reconciled | UnreconciledPayment | UnreconciledSettlement

  datatype GroupRecord = GroupRecord(
    id: GroupId, paymentRows: nat, paymentAmount: int, settlementRows: nat, settlementAmount: int, status: ReconStatus)

  datatype Member = Member(group: nat, row: RowId)

  datatype Tables = Tables(
    sourceRows: seq<RawRow>,
    mappings: seq<RowMapping>,
    contributions: seq<SummaryContribution>,
    controls: seq<Control>,
    totals: seq<SummaryTotal>,
    groups: seq<GroupRecord>,
    members: seq<Member>,
    issues: seq<RunIssue>)

  function IdOfRow(r: RawRow): RowId {
    RowId(r.source, r.ordinal)
  }

  function KeyOfRule(r: ConfigRule): RuleKey {
    RuleKey(r.source, r.originFile, r.originLine)
  }

  // ----- row_mappings, and its join with source_rows

  function MappingOf(row: RawRow): Contribution -> RowMapping {
    (c: Contribution) =>
      RowMapping(IdOfRow(row), KeyOfRule(c.rule), c.field, c.amount, Nullable(c.target), c.decision, c.key)
  }

  function MappingsOf(rows: seq<MappedRow>): seq<RowMapping> {
    if rows == [] then [] else Map(MappingOf(rows[0].row), rows[0].contributions) + MappingsOf(rows[1..])
  }

  datatype Joined = Joined(mapping: RowMapping, row: RawRow)

  function SameRow(id: RowId): RawRow -> bool {
    (r: RawRow) => IdOfRow(r) == id
  }

  function JoinWith(mapping: RowMapping): RawRow -> Joined {
    (r: RawRow) => Joined(mapping, r)
  }

  /** row_mappings JOIN source_rows ON source_rows.id = row_mappings.source_row_id. */
  function JoinRows(mappings: seq<RowMapping>, rows: seq<RawRow>): seq<Joined> {
    if mappings == [] then []
    else Map(JoinWith(mappings[0]), Filter(SameRow(mappings[0].row), rows)) + JoinRows(mappings[1..], rows)
  }

  predicate Summarized(j: Joined) {
    j.row.scope == InScope && j.mapping.target.Some? && j.mapping.target.value != "" && j.mapping.amount != 0
  }

  function ContributionsOf(joined: seq<Joined>): seq<SummaryContribution> {
    if joined == [] then []
    else (if Summarized(joined[0])
          then [SummaryContribution(joined[0].row.source, joined[0].mapping.target.value, joined[0].mapping.amount)]
          else []) + ContributionsOf(joined[1..])
  }

  // ----- The other tables

  predicate ControlRow(r: RawRow, selected: string) {
    r.source == Settlement && r.kind == Metadata && r.settlementID == selected
  }

  function ControlRows(selected: string): RawRow -> bool {
    (r: RawRow) => ControlRow(r, selected)
  }

  function ControlOf(): RawRow -> Control {
    (r: RawRow) => Control(r.settlementID, IdOfRow(r), r.currency, r.reconAmount)
  }

  function StatusOf(g: GroupValue): ReconStatus {
    if g.payment.rows == [] then UnreconciledSettlement
    else if g.settlement.rows == [] then UnreconciledPayment
    else Reconciled
  }

  function RecordOfGroup(): GroupValue -> GroupRecord {
    (g: GroupValue) =>
      GroupRecord(g.id, |g.payment.rows|, g.payment.amount, |g.settlement.rows|, g.settlement.amount, StatusOf(g))
  }

  function MemberIn(group: nat): RawRow -> Member {
    (r: RawRow) => Member(group, IdOfRow(r))
  }

  function GroupMembers(group: nat, g: GroupValue): seq<Member> {
    Map(MemberIn(group), g.payment.rows) + Map(MemberIn(group), g.settlement.rows)
  }

  function MembersOf(groups: seq<GroupValue>): seq<Member> {
    if groups == [] then []
    else MembersOf(groups[..|groups| - 1]) + GroupMembers(|groups| - 1, groups[|groups| - 1])
  }

  predicate CountedIn(j: Joined, source: Source, field: string) {
    j.row.source == source && Summarized(j) && j.mapping.target == Some(field)
  }

  function Counted(source: Source, field: string): Joined -> bool {
    (j: Joined) => CountedIn(j, source, field)
  }

  function TotalFor(summary: Summary, joined: seq<Joined>, source: Source, field: string): SummaryTotal {
    SummaryTotal(source, field, SummaryAt(summary, field, source), |Filter(Counted(source, field), joined)|)
  }

  /** One total for each of these targets and source, in no particular order. */
  ghost predicate TotalsFor(totals: seq<SummaryTotal>, summary: Summary, joined: seq<Joined>, fields: set<string>) {
    && (forall i, j | 0 <= i < j < |totals| :: (totals[i].source, totals[i].field) != (totals[j].source, totals[j].field))
    && (forall x | x in totals ::
          (x.source == Payment || x.source == Settlement) && x.field in fields &&
          x == TotalFor(summary, joined, x.source, x.field))
    && (forall f, s | f in fields && (s == Payment || s == Settlement) :: TotalFor(summary, joined, s, f) in totals)
  }

  ghost predicate IsTotals(totals: seq<SummaryTotal>, summary: Summary, joined: seq<Joined>) {
    TotalsFor(totals, summary, joined, summary.Keys)
  }

  // ----- What the database accepts

  predicate UniqueRows(rows: seq<RawRow>) {
    forall i, j | 0 <= i < j < |rows| :: IdOfRow(rows[i]) != IdOfRow(rows[j])
  }

  predicate Located(rows: seq<RawRow>) {
    forall r | r in rows :: r.ordinal > 0 && r.lineStart > 0
  }

  /** UNIQUE(run_id, source_row_id, rule_id). */
  predicate UniqueMappings(mappings: seq<RowMapping>) {
    forall i, j | 0 <= i < j < |mappings| ::
      mappings[i].row != mappings[j].row || mappings[i].rule != mappings[j].rule
  }

  /** validate_mapping_lineage: the rule of a mapping is of its row's source. */
  predicate Lineage(mappings: seq<RowMapping>) {
    forall m | m in mappings :: m.rule.source == m.row.source
  }

  predicate RulesKnown(mappings: seq<RowMapping>, rules: seq<ConfigRule>) {
    forall m | m in mappings :: exists r :: r in rules && KeyOfRule(r) == m.rule
  }

  /** The constraints and checks one run's insertions must meet. */
  predicate Storable(rows: seq<MappedRow>, rules: seq<ConfigRule>, selected: string) {
    var raw := Map(RowOf(), rows);
    && UniqueRows(raw) && Located(raw)
    && RulesKnown(MappingsOf(rows), rules) && UniqueMappings(MappingsOf(rows)) && Lineage(MappingsOf(rows))
    && |Filter(ControlRows(selected), raw)| <= 1
    && forall r | r in Filter(ControlRows(selected), raw) :: r.hasRecon
  }

  /** The tables Persist commits for the rows of both sources, payments first. */
  ghost predicate IsStored(t: Tables, rows: seq<MappedRow>, groups: seq<GroupValue>, summary: Summary,
      issues: seq<RunIssue>, selected: string) {
    var raw := Map(RowOf(), rows);
    && t.sourceRows == raw
    && t.mappings == MappingsOf(rows)
    && t.contributions == ContributionsOf(JoinRows(MappingsOf(rows), raw))
    && t.controls == Map(ControlOf(), Filter(ControlRows(selected), raw))
    && IsTotals(t.totals, summary, JoinRows(MappingsOf(rows), raw))
    && t.groups == Map(RecordOfGroup(), groups)
    && t.members == MembersOf(groups)
    && t.issues == issues
  }
}
