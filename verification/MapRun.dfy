/** Engine.Map in internal/mapping/engine.go: mapping all rows of one source and totalling the in-scope
    contributions per summary bucket. */
module MapRun {
  import opened Text
  import opened Outcome
  import opened Domain
  import opened Money
  import opened Sequences
  import opened Engine
  import opened StrictRows

  /** A line of the issue list: a message of a mapped row, or the failure of a row (diagnostic mode only). */
  datatype RunIssue = RowIssue(issue: Issue) | FailedRow(source: Source, line: int, error: MapError)

  datatype MapOutput = MapOutput(rows: seq<MappedRow>, summary: Summary, issues: seq<RunIssue>)

  // ----- Checks made before any row

  function CheckTarget(rule: ConfigRule, target: string): Option<MapError> {
    if target != "" && target !in SUMMARY_FIELDS then Some(UnknownTarget(rule.originLine, target)) else None
  }

  function CheckRule(rule: ConfigRule): Option<MapError> {
    if rule.source.UnknownSource? then Some(UnsupportedRuleSource(rule.originLine))
    else if rule.source == Payment && TrimSpace(rule.amountField) == "" then Some(NoAmountField(rule.originLine))
    else if rule.source == Settlement && TrimSpace(rule.amountType) == "" then Some(NoAmountType(rule.originLine))
    else if CheckTarget(rule, rule.positiveTarget).Some? then CheckTarget(rule, rule.positiveTarget)
    else CheckTarget(rule, rule.negativeTarget)
  }

  function CheckRules(rules: seq<ConfigRule>): Option<MapError> {
    if rules == [] then None
    else if CheckRule(rules[0]).Some? then CheckRule(rules[0])
    else CheckRules(rules[1..])
  }

  // ----- The row loop

  function AddToSummary(summary: Summary, source: Source, c: Contribution): Result<Summary, MapError> {
    if !Routes(c) then Ok(summary)
    else
      match Add(SummaryAt(summary, c.target, source), c.amount)
      case Err(e) => Err(SummaryOverflow(e))
      case Ok(v) =>
        var inner: map<Source, int64> := if c.target in summary then summary[c.target] else map[];
        Ok(summary[c.target := inner[source := v]])
  }

  function AddAllToSummary(summary: Summary, source: Source, cs: seq<Contribution>): Result<Summary, MapError>
    decreases |cs|
  {
    if cs == [] then Ok(summary)
    else
      var s :- AddToSummary(summary, source, cs[0]);
      AddAllToSummary(s, source, cs[1..])
  }

  function AddIssues(issues: seq<RunIssue>, more: seq<Issue>): seq<RunIssue>
    decreases |more|
  {
    if more == [] then issues
    else AddIssues(if RowIssue(more[0]) in issues then issues else issues + [RowIssue(more[0])], more[1..])
  }

  type RowMapper = RawRow -> Attempt

  function MapperOf(rules: seq<ConfigRule>, mode: Mode): RowMapper {
    (row: RawRow) => MapRow(rules, mode, row)
  }

  /** What is kept of a row: in diagnostic mode a failed row keeps its partial contributions and its error. */
  function Recorded(a: Attempt): MappedRow {
    if a.error.Some? then a.m.(issues := a.m.issues + [RowFailed(a.error.value)]) else a.m
  }

  function RecordOf(mapper: RowMapper): RawRow -> MappedRow {
    (row: RawRow) => Recorded(mapper(row))
  }

  /** The effect of one row on the output of a run. */
  function MapStep(a: Attempt, mode: Mode, row: RawRow, acc: MapOutput): Result<MapOutput, MapError> {
    if a.error.Some? then
      if mode == Diagnostic then
        Ok(MapOutput(acc.rows + [Recorded(a)], acc.summary,
                     acc.issues + [FailedRow(row.source, row.lineStart, a.error.value)]))
      else Err(a.error.value)
    else
      var issues := AddIssues(acc.issues, a.m.issues);
      var summary :- if row.scope == InScope then AddAllToSummary(acc.summary, row.source, a.m.contributions)
                     else Ok(acc.summary);
      Ok(MapOutput(acc.rows + [a.m], summary, issues))
  }

  function MapFrom(mapper: RowMapper, mode: Mode, rows: seq<RawRow>, acc: MapOutput): Result<MapOutput, MapError> {
    if rows == [] then Ok(acc)
    else
      var next :- MapStep(mapper(rows[0]), mode, rows[0], acc);
      MapFrom(mapper, mode, rows[1..], next)
  }

  const NOTHING: MapOutput := MapOutput([], map[], [])

  function MapRows(rules: seq<ConfigRule>, mode: Mode, rows: seq<RawRow>): Result<MapOutput, MapError> {
    if mode.OtherMode? then Err(UnsupportedMode)
    else
      match CheckRules(rules)
      case Some(e) => Err(e)
      case None => MapFrom(MapperOf(rules, mode), mode, rows, NOTHING)
  }

  /** What a run returned; nothing when it failed. */
  function Output(rules: seq<ConfigRule>, mode: Mode, rows: seq<RawRow>): MapOutput {
    var r := MapRows(rules, mode, rows);
    if r.Ok? then r.value else NOTHING
  }

  // ----- Totals

  function ContributionTo(target: string): Contribution -> int {
    (c: Contribution) => if c.target == target then c.amount as int else 0
  }

  /** The money a mapped row sends to a bucket, counting partial contributions of failed rows. */
  function RowBucket(m: MappedRow, target: string): int {
    Sum(ContributionTo(target), m.contributions)
  }

  predicate Failed(m: MappedRow) {
    exists i :: i in m.issues && i.RowFailed?
  }

  /** What a mapped row adds to the summary: failed and out-of-scope rows add nothing. */
  function SummaryWeight(target: string, source: Source): MappedRow -> int {
    (m: MappedRow) => if m.row.scope == InScope && m.row.source == source && !Failed(m) then RowBucket(m, target) else 0
  }

  lemma {:induction false} AddAllToSummaryExact(summary: Summary, source: Source, cs: seq<Contribution>, t: string, s: Source)
    requires AddAllToSummary(summary, source, cs).Ok? && t != ""
    ensures SummaryAt(AddAllToSummary(summary, source, cs).value, t, s) ==
      SummaryAt(summary, t, s) + if s == source then Sum(ContributionTo(t), cs) else 0
    decreases |cs|
  {
    if cs != [] {
      AddAllToSummaryExact(AddToSummary(summary, source, cs[0]).value, source, cs[1..], t, s);
    }
  }

  /** A row mapper keeps the row it maps and does not label successes as failures. */
  ghost predicate SoundMapper(mapper: RowMapper) {
    forall row :: mapper(row).m.row == row && !Failed(mapper(row).m)
  }

  lemma MapperSound(rules: seq<ConfigRule>, mode: Mode)
    ensures SoundMapper(MapperOf(rules, mode))
  {
    forall row
      ensures MapperOf(rules, mode)(row).m.row == row && !Failed(MapperOf(rules, mode)(row).m)
    {
      OnlySelectorIssues(rules, mode, row);
    }
  }

  lemma MapStepSummary(a: Attempt, mode: Mode, row: RawRow, acc: MapOutput, t: string, s: Source)
    requires a.m.row == row && !Failed(a.m)
    requires MapStep(a, mode, row, acc).Ok? && t != ""
    ensures MapStep(a, mode, row, acc).value.rows == acc.rows + [Recorded(a)]
    ensures SummaryAt(MapStep(a, mode, row, acc).value.summary, t, s) ==
      SummaryAt(acc.summary, t, s) + SummaryWeight(t, s)(Recorded(a))
  {
    if a.error.Some? {
      assert RowFailed(a.error.value) in Recorded(a).issues;
    } else if row.scope == InScope {
      AddAllToSummaryExact(acc.summary, row.source, a.m.contributions, t, s);
    }
  }

  lemma RecordsStep(mapper: RowMapper, rows: seq<RawRow>)
    requires rows != []
    ensures Map(RecordOf(mapper), rows) == [Recorded(mapper(rows[0]))] + Map(RecordOf(mapper), rows[1..])
    ensures Map(RecordOf(mapper), rows)[1..] == Map(RecordOf(mapper), rows[1..])
  {
  }

  lemma {:induction false} MapFromRows(mapper: RowMapper, mode: Mode, rows: seq<RawRow>, acc: MapOutput)
    requires MapFrom(mapper, mode, rows, acc).Ok?
    ensures MapFrom(mapper, mode, rows, acc).value.rows == acc.rows + Map(RecordOf(mapper), rows)
    decreases |rows|
  {
    if rows != [] {
      var next := MapStep(mapper(rows[0]), mode, rows[0], acc).value;
      var record := Recorded(mapper(rows[0]));
      assert next.rows == acc.rows + [record];
      MapFromRows(mapper, mode, rows[1..], next);
      RecordsStep(mapper, rows);
      ConcatAssociative(acc.rows, [record], Map(RecordOf(mapper), rows[1..]));
    }
  }

  lemma {:induction false} MapFromSummary(mapper: RowMapper, mode: Mode, rows: seq<RawRow>, acc: MapOutput, t: string, s: Source)
    requires SoundMapper(mapper) && t != ""
    requires MapFrom(mapper, mode, rows, acc).Ok?
    ensures SummaryAt(MapFrom(mapper, mode, rows, acc).value.summary, t, s) ==
      SummaryAt(acc.summary, t, s) + Sum(SummaryWeight(t, s), Map(RecordOf(mapper), rows))
    decreases |rows|
  {
    if rows != [] {
      var a := mapper(rows[0]);
      assert a.m.row == rows[0] && !Failed(a.m);
      MapStepSummary(a, mode, rows[0], acc, t, s);
      MapFromSummary(mapper, mode, rows[1..], MapStep(a, mode, rows[0], acc).value, t, s);
      RecordsStep(mapper, rows);
    }
  }

  lemma {:induction false} MapFromStrict(mapper: RowMapper, rows: seq<RawRow>, acc: MapOutput)
    requires MapFrom(mapper, Strict, rows, acc).Ok?
    ensures forall r | r in rows :: mapper(r).error.None?
    ensures (forall r | r in rows :: mapper(r).m.issues == []) ==>
      MapFrom(mapper, Strict, rows, acc).value.issues == acc.issues
    decreases |rows|
  {
    if rows != [] {
      var next := MapStep(mapper(rows[0]), Strict, rows[0], acc).value;
      MapFromStrict(mapper, rows[1..], next);
      assert rows == [rows[0]] + rows[1..];
    }
  }

  lemma RecordOfSuccess(rules: seq<ConfigRule>, mode: Mode, row: RawRow)
    requires MapRow(rules, mode, row).error.None?
    ensures RecordOf(MapperOf(rules, mode))(row) == MapRow(rules, mode, row).m
  {
    assert MapperOf(rules, mode)(row) == MapRow(rules, mode, row);
  }

  /** A successful run keeps one record per row, in order. In strict mode no row failed and no issue was
      raised. Each summary bucket is the exact sum of what the rows that did not fail send to it in scope. */
  lemma MapRowsTotals(rules: seq<ConfigRule>, mode: Mode, rows: seq<RawRow>, t: string, s: Source)
    requires MapRows(rules, mode, rows).Ok? && t != ""
    ensures var out := Output(rules, mode, rows);
      && out.rows == Map(RecordOf(MapperOf(rules, mode)), rows)
      && SummaryAt(out.summary, t, s) == Sum(SummaryWeight(t, s), out.rows)
      && (mode == Strict ==>
            out.issues == [] && forall r | r in rows :: MapRow(rules, Strict, r).error.None?)
  {
    MapperSound(rules, mode);
    MapFromRows(MapperOf(rules, mode), mode, rows, NOTHING);
    MapFromSummary(MapperOf(rules, mode), mode, rows, NOTHING, t, s);
    if mode == Strict {
      MapFromStrict(MapperOf(rules, mode), rows, NOTHING);
      forall r | r in rows
        ensures MapperOf(rules, mode)(r).error.None? && MapperOf(rules, mode)(r).m.issues == []
      {
        if r.kind == Transaction {
          MappedRowShape(rules, Strict, r);
        }
      }
    }
  }

  // ----- The issue list

  /** No message of a mapped row is listed twice. */
  predicate FreshIssues(issues: seq<RunIssue>) {
    forall i, j | 0 <= i < j < |issues| && issues[i].RowIssue? && issues[j].RowIssue? :: issues[i] != issues[j]
  }

  /** Where a message occurs first, with |s| standing for "nowhere". */
  function FirstIndex(s: seq<Issue>, x: Issue): (k: nat)
    ensures k <= |s| && (k < |s| <==> x in s) && (k < |s| ==> s[k] == x && x !in s[..k])
  {
    if s == [] then 0
    else if s[0] == x then 0
    else
      assert s == [s[0]] + s[1..];
      var k := FirstIndex(s[1..], x);
      assert k < |s[1..]| ==> s[..k + 1] == [s[0]] + s[1..][..k];
      k + 1
  }

  /** The list grows by the messages it did not hold yet, each once. */
  lemma {:induction false} AddIssuesExact(issues: seq<RunIssue>, more: seq<Issue>)
    ensures var all := AddIssues(issues, more);
      && issues <= all && (FreshIssues(issues) ==> FreshIssues(all))
      && (forall x :: RowIssue(x) in all <==> RowIssue(x) in issues || x in more)
      && (forall k | |issues| <= k < |all| :: all[k].RowIssue? && all[k] !in issues)
    decreases |more|
  {
    if more != [] {
      assert more == [more[0]] + more[1..];
      var next := if RowIssue(more[0]) in issues then issues else issues + [RowIssue(more[0])];
      AddIssuesExact(next, more[1..]);
      var all := AddIssues(next, more[1..]);
      assert issues <= next <= all;
      assert |issues| < |next| ==> all[|issues|] == next[|issues|] == RowIssue(more[0]);
    }
  }

  /** They are added in the order of their first occurrence. */
  lemma {:induction false} AddIssuesOrder(issues: seq<RunIssue>, more: seq<Issue>)
    ensures var all := AddIssues(issues, more);
      && (forall k | |issues| <= k < |all| :: all[k].RowIssue? && all[k].issue in more)
      && (forall i, j | |issues| <= i < j < |all| :: FirstIndex(more, all[i].issue) < FirstIndex(more, all[j].issue))
    decreases |more|
  {
    if more != [] {
      var next := if RowIssue(more[0]) in issues then issues else issues + [RowIssue(more[0])];
      var all := AddIssues(next, more[1..]);
      AddIssuesExact(next, more[1..]);
      AddIssuesOrder(next, more[1..]);
      assert RowIssue(more[0]) in next && next <= all;
      forall k | |next| <= k < |all|
        ensures all[k].issue in more && FirstIndex(more, all[k].issue) == FirstIndex(more[1..], all[k].issue) + 1
      {
        assert all[k] !in next && all[k].issue != more[0];
      }
      assert |issues| < |next| ==> all[|issues|] == next[|issues|] == RowIssue(more[0]);
    }
  }

  /** A row that does not fail lists a message of its own. */
  predicate Reports(mapper: RowMapper, row: RawRow, x: Issue) {
    mapper(row).error.None? && x in mapper(row).m.issues
  }

  predicate SomeReports(mapper: RowMapper, rows: seq<RawRow>, x: Issue) {
    exists r :: r in rows && Reports(mapper, r, x)
  }

  lemma ReportsFirst(mapper: RowMapper, rows: seq<RawRow>, x: Issue)
    requires rows != []
    ensures SomeReports(mapper, rows, x) <==> Reports(mapper, rows[0], x) || SomeReports(mapper, rows[1..], x)
  {
    assert forall r :: r in rows <==> r == rows[0] || r in rows[1..];
  }

  lemma StepIssues(a: Attempt, mode: Mode, row: RawRow, acc: MapOutput)
    requires MapStep(a, mode, row, acc).Ok? && FreshIssues(acc.issues)
    ensures FreshIssues(MapStep(a, mode, row, acc).value.issues)
    ensures forall x :: RowIssue(x) in MapStep(a, mode, row, acc).value.issues <==>
      RowIssue(x) in acc.issues || (a.error.None? && x in a.m.issues)
  {
    AddIssuesExact(acc.issues, a.m.issues);
  }

  lemma {:induction false} MapFromIssues(mapper: RowMapper, mode: Mode, rows: seq<RawRow>, acc: MapOutput)
    requires MapFrom(mapper, mode, rows, acc).Ok? && FreshIssues(acc.issues)
    ensures FreshIssues(MapFrom(mapper, mode, rows, acc).value.issues)
    ensures forall x :: RowIssue(x) in MapFrom(mapper, mode, rows, acc).value.issues <==>
      RowIssue(x) in acc.issues || SomeReports(mapper, rows, x)
    decreases |rows|
  {
    if rows != [] {
      var next := MapStep(mapper(rows[0]), mode, rows[0], acc).value;
      StepIssues(mapper(rows[0]), mode, rows[0], acc);
      MapFromIssues(mapper, mode, rows[1..], next);
      forall x
        ensures SomeReports(mapper, rows, x) <==> Reports(mapper, rows[0], x) || SomeReports(mapper, rows[1..], x)
      {
        ReportsFirst(mapper, rows, x);
      }
    }
  }

  /** A run lists each message of its mapped rows exactly once, however many rows raise it, and no message of a
      row that failed. */
  lemma RunIssues(rules: seq<ConfigRule>, mode: Mode, rows: seq<RawRow>)
    requires MapRows(rules, mode, rows).Ok?
    ensures FreshIssues(Output(rules, mode, rows).issues)
    ensures forall x :: RowIssue(x) in Output(rules, mode, rows).issues <==>
      SomeReports(MapperOf(rules, mode), rows, x)
  {
    MapFromIssues(MapperOf(rules, mode), mode, rows, NOTHING);
  }

  // ----- Runs in which no row fails

  /** The run is accepted and maps every row without an error, in whichever mode. */
  predicate MapsAll(rules: seq<ConfigRule>, mode: Mode, rows: seq<RawRow>) {
    MapRows(rules, mode, rows).Ok? && forall r | r in rows :: MapRow(rules, mode, r).error.None?
  }

  /** The records of such a run are the mapped rows themselves. */
  lemma RecordAt(rules: seq<ConfigRule>, mode: Mode, rows: seq<RawRow>, i: nat)
    requires MapRows(rules, mode, rows).Ok? && i < |rows|
    ensures |Output(rules, mode, rows).rows| == |rows|
    ensures Output(rules, mode, rows).rows[i] == Recorded(MapRow(rules, mode, rows[i]))
    ensures Failed(Output(rules, mode, rows).rows[i]) <==> MapRow(rules, mode, rows[i]).error.Some?
  {
    MapRowsTotals(rules, mode, rows, "t", Payment);
    assert MapperOf(rules, mode)(rows[i]) == MapRow(rules, mode, rows[i]);
    OnlySelectorIssues(rules, mode, rows[i]);
    RecordedFails(MapRow(rules, mode, rows[i]));
  }

  lemma RecordedFails(a: Attempt)
    requires SelectorIssuesOnly(a.m.issues)
    ensures Failed(Recorded(a)) <==> a.error.Some?
  {
    if a.error.Some? {
      assert RowFailed(a.error.value) in Recorded(a).issues;
    }
  }

  /** Every successful strict run is such a run. A diagnostic run is one exactly when none of the records it
      returns is marked failed. */
  lemma MapsAllIff(rules: seq<ConfigRule>, mode: Mode, rows: seq<RawRow>)
    requires MapRows(rules, mode, rows).Ok?
    ensures mode == Strict ==> MapsAll(rules, mode, rows)
    ensures MapsAll(rules, mode, rows) <==> forall m | m in Output(rules, mode, rows).rows :: !Failed(m)
  {
    MapRowsTotals(rules, mode, rows, "t", Payment);
    var out := Output(rules, mode, rows).rows;
    forall i | 0 <= i < |rows|
      ensures Failed(out[i]) <==> MapRow(rules, mode, rows[i]).error.Some?
    {
      RecordAt(rules, mode, rows, i);
    }
    assert forall i | 0 <= i < |rows| :: rows[i] in rows && out[i] in out;
  }
}
