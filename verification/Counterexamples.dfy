/** Inputs on which a plainer statement about the pipeline fails. Every one is a run the program makes: rows it
    parses, rules it loads, and what it computes from them. */
module Counterexamples {
  import opened Text
  import opened Outcome
  import opened Domain
  import opened Money
  import opened Normalize
  import opened Sequences
  import opened Engine
  import opened Selection
  import opened StrictRows
  import opened MapRun
  import opened Grouping
  import opened Groups
  import opened Conservation
  import opened Classification
  import opened Gate
  import opened RunTables
  import opened Verify
  import opened StrictVerification
  import opened EndToEnd
  import opened DiagnosticVerification
  import opened Storability
  import Lifecycle = RunStore

  // ----- Rows and rules

  /** A rule of one source for type "X" and description "X" with a literal record reference. */
  function PaymentRule(line: nat, recordRef: string, target: string): ConfigRule {
    ConfigRule(Payment, "payments.csv", line, "X", "X", "total", "", "", recordRef, target, target)
  }

  const SETTLEMENT_RULE := ConfigRule(Settlement, "settlements.csv", 2, "X", "", "", "X", "X", "K", "", "")

  /** A released payment with any columns and this total, classified for settlement "A". */
  function PaymentRow(columns: map<string, string>, amount: int64, settlementID: string, transaction: string): RawRow {
    Classifier("A")(RawRow(Payment, Transaction, 1, 2, columns["total" := FormatCents(amount)], settlementID, "AUD",
      transaction, "X", "", "", "", "2024-01-01", "Released", amount, true, MetadataScope))
  }

  /** The header of a settlement, as its metadata row carries it. */
  function HeaderRow(ordinal: int, settlementID: string, total: int64): RawRow {
    Classifier("A")(RawRow(Settlement, Metadata, ordinal, ordinal + 1, map[], settlementID, "AUD",
      "", "", "", "", "", "", "", total, true, MetadataScope))
  }

  function SettlementRow(ordinal: int, settlementID: string, amount: int64): RawRow {
    Classifier("A")(RawRow(Settlement, Transaction, ordinal, ordinal + 1, map[], settlementID, "AUD",
      "X", "X", "X", "", "", "2024-01-01", "", amount, true, MetadataScope))
  }

  lemma LabelX()
    ensures Label("X") == "X" && TrimSpace("X") == "X"
  {
    assert Trimmed("X");
    TrimSpaceTrims("X");
    assert CollapseSpaces("", false) == "";
    assert CollapseSpaces("X", false) == "X";
    assert ToUpper("X") == "X";
  }

  lemma ExpandK(row: RawRow)
    ensures Expand("K", row) == Ok(["K"]) && JoinKey(["K"]) == "K"
  {
    assert Trimmed("K");
    TrimSpaceTrims("K");
    assert IndexOf("K", '+') == 1;
    assert Split("K", '+') == ["K"];
    assert ToLower("K")[0] == 'k';
    assert TokenText("K", row) == Ok("K");
    assert ExpandTokens([], row) == Ok([]);
    assert ExpandToken("K", row) == Ok("K");
    var tokens := ["K"];
    assert tokens[0] == "K" && tokens[1..] == [];
    assert ["K"] + [] == tokens;
  }

  /** All rules match the row specifically, for one field, by their exact description. */
  predicate AllBest(rules: seq<ConfigRule>, row: RawRow, field: string) {
    rules != [] && forall r | r in rules ::
      Matches(r, row) && Specific(r) && Exact(r, row) && FieldOf(r, row) == field
  }

  lemma AllChosen(rules: seq<ConfigRule>, row: RawRow, field: string)
    requires Label(row.transaction) != "" && AllBest(rules, row, field)
    ensures Chosen(rules, row, field) == rules && FieldNames(rules, row) == [field]
  {
    forall f
      ensures Chosen(rules, row, f) == if f == field then rules else []
    {
      ChosenIsBestMatch(rules, row, f);
      if f == field {
        FilterAll(BestIn(rules, row, f), rules);
      } else {
        FilterNone(BestIn(rules, row, f), rules);
      }
    }
    OnlyField(rules, row, field);
  }

  lemma OnlyField(rules: seq<ConfigRule>, row: RawRow, field: string)
    requires forall f :: Chosen(rules, row, f) != [] <==> f == field
    ensures FieldNames(rules, row) == [field]
  {
    forall f
      ensures f in FieldNames(rules, row) <==> f == field
    {
      FieldNamesExact(rules, row, f);
    }
    FieldNamesDistinct(rules, row);
    OnlyOne(FieldNames(rules, row), field);
  }

  lemma OnlyOne(s: seq<string>, x: string)
    requires forall y :: y in s <==> y == x
    requires forall i, j | 0 <= i < j < |s| :: s[i] != s[j]
    ensures s == [x]
  {
    assert x in s;
    FirstTwo(s, x);
  }

  // ----- What the rules contribute

  /** What a rule with the record reference "K" contributes to a field of the given amount. */
  function SoleOf(rule: ConfigRule, field: string, amount: int64): Contribution {
    var target := rule.positiveTarget;
    Contribution(rule, field, amount, target,
      if target == "" then NotSummarized else if amount == 0 then Zero else Routed, ["K"], "K")
  }

  lemma PrintedNotBlank(amount: int64)
    ensures FormatCents(amount) != "" && ParseCents(FormatCents(amount)) == Ok(amount)
  {
    FormatParseRoundTrip(amount);
    assert ParseCents("").Err?;
  }

  lemma PaymentContribution(rule: ConfigRule, columns: map<string, string>, amount: int64, settlementID: string, transaction: string)
    requires rule.recordRef == "K" && rule.positiveTarget == rule.negativeTarget
    ensures ContributionFor(PaymentRow(columns, amount, settlementID, transaction), "total", rule) == Ok(SoleOf(rule, "total", amount))
  {
    var row := PaymentRow(columns, amount, settlementID, transaction);
    PrintedNotBlank(amount);
    ExpandK(row);
    assert Lookup(row.canonical, "total") == FormatCents(amount);
    assert AmountFor(row, "total") == Ok(amount);
  }

  lemma SettlementContribution(ordinal: int, settlementID: string, amount: int64)
    ensures ContributionFor(SettlementRow(ordinal, settlementID, amount), "amount", SETTLEMENT_RULE) ==
      Ok(SoleOf(SETTLEMENT_RULE, "amount", amount))
  {
    ExpandK(SettlementRow(ordinal, settlementID, amount));
  }

  lemma SolePlan(rule: ConfigRule, row: RawRow, field: string, c: Contribution)
    requires Label(row.transaction) != "" && AllBest([rule], row, field)
    requires ContributionFor(row, field, rule) == Ok(c) && c.rule == rule
    ensures StrictPlan([rule], row, [c])
  {
    AllChosen([rule], row, field);
    assert ChosenFor([rule], row)(field) == [rule] && ContributorOf(row)(field, rule) == Ok(c);
    PlanOne(ChosenFor([rule], row), ContributorOf(row), field, c);
    OneRoutesOne(c);
  }

  lemma PlanOne(choose: Chooser, contribute: Contributor, field: string, c: Contribution)
    requires SoleContribution(choose, contribute, field, c)
    ensures Plan(choose, contribute, [field], [c])
  {
  }

  lemma OneRoutesOne(c: Contribution)
    ensures !RoutesTotalAndComponent([c])
  {
    assert forall x | x in [c] :: x == c;
  }

  lemma KeyOfSole(m: MappedRow, c: Contribution)
    requires OneKey(m) && m.contributions == [c] && c.keyParts == ["K"]
    ensures m.keyParts == ["K"] && m.key == "K"
  {
    assert c in m.contributions && KeyedBy(c, m.keyParts);
    assert JoinKey(["K"]) == "K";
  }

  /** A row with one best rule maps strictly to its one contribution. */
  lemma SoleMaps(rule: ConfigRule, row: RawRow, field: string, c: Contribution)
    requires row.kind == Transaction && Label(row.transaction) != "" && AllBest([rule], row, field)
    requires ContributionFor(row, field, rule) == Ok(c) && c.rule == rule && c.keyParts == ["K"] && c.key == "K"
    ensures MapRow([rule], Strict, row) == Attempt(MappedRow(row, [c], ["K"], "K", []), None)
  {
    SolePlan(rule, row, field, c);
    PlanMaps([rule], row, [c]);
    MappedRowShape([rule], Strict, row);
    KeyOfSole(MapRow([rule], Strict, row).m, c);
  }

  // ----- Runs in which nothing reaches the summary

  lemma {:induction false} QuietRun(mapper: RowMapper, mode: Mode, rows: seq<RawRow>, acc: MapOutput)
    requires forall r | r in rows :: if mapper(r).error.Some? then mode == Diagnostic else r.scope != InScope
    ensures MapFrom(mapper, mode, rows, acc).Ok? && MapFrom(mapper, mode, rows, acc).value.summary == acc.summary
    decreases |rows|
  {
    if rows != [] {
      assert rows == [rows[0]] + rows[1..];
      QuietRun(mapper, mode, rows[1..], MapStep(mapper(rows[0]), mode, rows[0], acc).value);
    }
  }

  /** A run whose rows are recorded as `out`, none of which is summarised. */
  predicate Quiet(mapper: RowMapper, mode: Mode, rows: seq<RawRow>, out: seq<MappedRow>) {
    |out| == |rows| && forall i | 0 <= i < |rows| :: QuietRow(mapper(rows[i]), mode, rows[i], out[i])
  }

  predicate QuietRow(a: Attempt, mode: Mode, row: RawRow, m: MappedRow) {
    m == Recorded(a) && if a.error.Some? then mode == Diagnostic else row.scope != InScope
  }

  lemma QuietFrom(mapper: RowMapper, mode: Mode, rows: seq<RawRow>, out: seq<MappedRow>)
    requires Quiet(mapper, mode, rows, out)
    ensures MapFrom(mapper, mode, rows, NOTHING).Ok?
    ensures var r := MapFrom(mapper, mode, rows, NOTHING).value; r.rows == out && r.summary == map[]
  {
    forall r | r in rows
      ensures if mapper(r).error.Some? then mode == Diagnostic else r.scope != InScope
    {
      var i :| 0 <= i < |rows| && rows[i] == r;
      assert QuietRow(mapper(rows[i]), mode, rows[i], out[i]);
    }
    QuietRun(mapper, mode, rows, NOTHING);
    MapFromRows(mapper, mode, rows, NOTHING);
    assert Map(RecordOf(mapper), rows) == out;
  }

  lemma QuietOutput(rules: seq<ConfigRule>, mode: Mode, rows: seq<RawRow>, out: seq<MappedRow>)
    requires CheckRules(rules).None? && !mode.OtherMode? && Quiet(MapperOf(rules, mode), mode, rows, out)
    ensures MapRows(rules, mode, rows).Ok?
    ensures Output(rules, mode, rows).rows == out && Output(rules, mode, rows).summary == map[]
  {
    QuietFrom(MapperOf(rules, mode), mode, rows, out);
  }

  lemma RowIsQuiet(rules: seq<ConfigRule>, mode: Mode, row: RawRow, a: Attempt)
    requires MapRow(rules, mode, row) == a && if a.error.Some? then mode == Diagnostic else row.scope != InScope
    ensures QuietRow(MapperOf(rules, mode)(row), mode, row, Recorded(a))
  {
  }

  lemma HeaderIsQuiet(rules: seq<ConfigRule>, mode: Mode, ordinal: int, settlementID: string, total: int64)
    ensures var row := HeaderRow(ordinal, settlementID, total); QuietRow(MapperOf(rules, mode)(row), mode, row, Blank(row))
  {
    RowIsQuiet(rules, mode, HeaderRow(ordinal, settlementID, total), Attempt(Blank(HeaderRow(ordinal, settlementID, total)), None));
  }

  /** The tables of a run with nothing in its summary. */
  function PlainTables(rows: seq<MappedRow>, groups: seq<GroupValue>, issues: seq<RunIssue>): Tables {
    var raw := Map(RowOf(), rows);
    Tables(raw, MappingsOf(rows), ContributionsOf(JoinRows(MappingsOf(rows), raw)),
      Map(ControlOf(), Filter(ControlRows("A"), raw)), [], Map(RecordOfGroup(), groups), MembersOf(groups), issues)
  }

  lemma PlainTablesStored(x: Inputs, groups: seq<GroupValue>)
    requires x.selected == "A" && Storable(AllRows(x), x.paymentRules + x.settlementRules, x.selected)
    ensures Stored(x, groups, map[], PlainTables(AllRows(x), groups, PaymentOutput(x).issues + SettlementOutput(x).issues))
  {
  }

  // ----- The gate skips what the verification counts

  lemma PaymentRuleBest(line: nat, recordRef: string, target: string, columns: map<string, string>, amount: int64, settlementID: string)
    ensures var row := PaymentRow(columns, amount, settlementID, "X");
      Label(row.transaction) == "X" && AllBest([PaymentRule(line, recordRef, target)], row, "total")
  {
    LabelX();
    assert forall r | r in [PaymentRule(line, recordRef, target)] :: r == PaymentRule(line, recordRef, target);
  }

  lemma SettlementRuleBest(ordinal: int, settlementID: string, amount: int64)
    ensures var row := SettlementRow(ordinal, settlementID, amount);
      Label(row.transaction) == "X" && AllBest([SETTLEMENT_RULE], row, "amount")
  {
    LabelX();
    assert forall r | r in [SETTLEMENT_RULE] :: r == SETTLEMENT_RULE;
  }

  lemma OneRuleChecked(rule: ConfigRule)
    requires CheckRule(rule).None?
    ensures CheckRules([rule]).None?
  {
    assert [rule][0] == rule && [rule][1..] == [];
  }

  lemma RulesAccepted()
    ensures CheckRules([PaymentRule(2, "K", "")]).None? && CheckRules([SETTLEMENT_RULE]).None?
  {
    LabelX();
    assert Trimmed("total");
    TrimSpaceTrims("total");
    OneRuleChecked(PaymentRule(2, "K", ""));
    OneRuleChecked(SETTLEMENT_RULE);
  }

  /** A strict run for settlement "A" whose file also holds settlement "B": one payment of `a` and one
      settlement line of `b` with a common record key, routed nowhere. */
  function OtherSettlementInputs(columns: map<string, string>, a: int64, b: int64): Inputs {
    Inputs(Strict, [PaymentRule(2, "K", "")], [PaymentRow(columns, a, "B", "X")],
      [SETTLEMENT_RULE], OtherFile(b), "A")
  }

  function OtherPayment(columns: map<string, string>, a: int64): MappedRow {
    MappedRow(PaymentRow(columns, a, "B", "X"), [SoleOf(PaymentRule(2, "K", ""), "total", a)], ["K"], "K", [])
  }

  function OtherLine(b: int64): MappedRow {
    MappedRow(SettlementRow(3, "B", b), [SoleOf(SETTLEMENT_RULE, "amount", b)], ["K"], "K", [])
  }

  lemma OtherRowsMap(columns: map<string, string>, a: int64, b: int64)
    ensures MapRow([PaymentRule(2, "K", "")], Strict, PaymentRow(columns, a, "B", "X")) == Attempt(OtherPayment(columns, a), None)
    ensures MapRow([SETTLEMENT_RULE], Strict, SettlementRow(3, "B", b)) == Attempt(OtherLine(b), None)
  {
    PaymentRuleBest(2, "K", "", columns, a, "B");
    PaymentContribution(PaymentRule(2, "K", ""), columns, a, "B", "X");
    SoleMaps(PaymentRule(2, "K", ""), PaymentRow(columns, a, "B", "X"), "total", SoleOf(PaymentRule(2, "K", ""), "total", a));
    SettlementRuleBest(3, "B", b);
    SettlementContribution(3, "B", b);
    SoleMaps(SETTLEMENT_RULE, SettlementRow(3, "B", b), "amount", SoleOf(SETTLEMENT_RULE, "amount", b));
  }

  lemma OtherPaymentsQuiet(columns: map<string, string>, a: int64)
    ensures Quiet(MapperOf([PaymentRule(2, "K", "")], Strict), Strict, [PaymentRow(columns, a, "B", "X")], [OtherPayment(columns, a)])
  {
    OtherRowsMap(columns, a, 0);
    RowIsQuiet([PaymentRule(2, "K", "")], Strict, PaymentRow(columns, a, "B", "X"), Attempt(OtherPayment(columns, a), None));
  }

  lemma OtherPaymentsMap(columns: map<string, string>, a: int64)
    ensures var rules, rows := [PaymentRule(2, "K", "")], [PaymentRow(columns, a, "B", "X")];
      && MapRows(rules, Strict, rows).Ok?
      && Output(rules, Strict, rows).rows == [OtherPayment(columns, a)] && Output(rules, Strict, rows).summary == map[]
  {
    RulesAccepted();
    OtherPaymentsQuiet(columns, a);
    QuietOutput([PaymentRule(2, "K", "")], Strict, [PaymentRow(columns, a, "B", "X")], [OtherPayment(columns, a)]);
  }

  function OtherFile(b: int64): seq<RawRow> {
    [HeaderRow(1, "A", 0), HeaderRow(2, "B", b), SettlementRow(3, "B", b)]
  }

  function OtherRecords(b: int64): seq<MappedRow> {
    [Blank(HeaderRow(1, "A", 0)), Blank(HeaderRow(2, "B", b)), OtherLine(b)]
  }

  lemma OtherLineQuiet(b: int64)
    ensures QuietRow(MapperOf([SETTLEMENT_RULE], Strict)(SettlementRow(3, "B", b)), Strict, SettlementRow(3, "B", b), OtherLine(b))
  {
    OtherRowsMap(map[], 0, b);
    RowIsQuiet([SETTLEMENT_RULE], Strict, SettlementRow(3, "B", b), Attempt(OtherLine(b), None));
  }

  lemma OtherLinesQuiet(b: int64)
    ensures Quiet(MapperOf([SETTLEMENT_RULE], Strict), Strict, OtherFile(b), OtherRecords(b))
  {
    HeaderIsQuiet([SETTLEMENT_RULE], Strict, 1, "A", 0);
    HeaderIsQuiet([SETTLEMENT_RULE], Strict, 2, "B", b);
    OtherLineQuiet(b);
    QuietThree(MapperOf([SETTLEMENT_RULE], Strict), Strict, OtherFile(b), OtherRecords(b));
  }

  lemma OtherLinesMap(b: int64)
    ensures MapRows([SETTLEMENT_RULE], Strict, OtherFile(b)).Ok?
    ensures Output([SETTLEMENT_RULE], Strict, OtherFile(b)).rows == OtherRecords(b)
    ensures Output([SETTLEMENT_RULE], Strict, OtherFile(b)).summary == map[]
  {
    RulesAccepted();
    OtherLinesQuiet(b);
    QuietOutput([SETTLEMENT_RULE], Strict, OtherFile(b), OtherRecords(b));
  }

  lemma QuietThree(mapper: RowMapper, mode: Mode, rows: seq<RawRow>, out: seq<MappedRow>)
    requires |rows| == |out| == 3 && QuietRow(mapper(rows[0]), mode, rows[0], out[0])
    requires QuietRow(mapper(rows[1]), mode, rows[1], out[1]) && QuietRow(mapper(rows[2]), mode, rows[2], out[2])
    ensures Quiet(mapper, mode, rows, out)
  {
  }

  lemma OtherSettlementMaps(columns: map<string, string>, a: int64, b: int64)
    ensures var x := OtherSettlementInputs(columns, a, b);
      && Maps(x) && PaymentOutput(x).rows == [OtherPayment(columns, a)] && SettlementOutput(x).rows == OtherRecords(b)
      && PaymentOutput(x).summary == map[] && SettlementOutput(x).summary == map[]
  {
    OtherPaymentsMap(columns, a);
    OtherLinesMap(b);
  }

  lemma OtherSettlementSourced(columns: map<string, string>, a: int64, b: int64)
    ensures WellSourced(OtherSettlementInputs(columns, a, b))
  {
  }

  function OtherGroup(columns: map<string, string>, a: int64, b: int64): GroupValue {
    GroupValue(GroupId("K", "B", "AUD", OtherSettlement), ["K"],
      Side([PaymentRow(columns, a, "B", "X")], a, map[]), Side([SettlementRow(3, "B", b)], b, map[]))
  }

  /** One side of a group with a single row that routes nothing. */
  lemma SingleSide(m: MappedRow, id: GroupId)
    requires InGroup(id)(m) && forall c | c in m.contributions :: c.target == ""
    ensures ReportsSide(Side([m.row], m.row.reconAmount, map[]), [m])
  {
    forall t | t != ""
      ensures Sum(BucketWeight(t), [m]) == 0
    {
      SumZero(ContributionTo(t), m.contributions);
      assert BucketWeight(t)(m) == 0;
      assert [m][1..] == [];
    }
    forall x, t | x in [m]
      ensures !RoutesTo(x, t)
    {
      assert x == m;
    }
    assert Map(RowOf(), [m]) == [m.row];
    assert AmountWeight()(m) == m.row.reconAmount as int;
    assert [m][1..] == [];
  }

  lemma OtherSides(columns: map<string, string>, a: int64, b: int64)
    ensures var g := OtherGroup(columns, a, b);
      && Members([OtherPayment(columns, a)], g.id) == [OtherPayment(columns, a)]
      && Members(OtherRecords(b), g.id) == [OtherLine(b)]
      && ReportsGroup(g, [OtherPayment(columns, a)], OtherRecords(b))
  {
    var id := OtherGroup(columns, a, b).id;
    SingleSide(OtherPayment(columns, a), id);
    SingleSide(OtherLine(b), id);
    FilterAll(InGroup(id), [OtherPayment(columns, a)]);
    var out := OtherRecords(b);
    assert out == [out[0], out[1]] + [out[2]];
    FilterConcat(InGroup(id), [out[0], out[1]], [out[2]]);
    FilterNone(InGroup(id), [out[0], out[1]]);
    FilterAll(InGroup(id), [out[2]]);
    assert OtherPayment(columns, a) in Members([OtherPayment(columns, a)], id);
  }

  lemma OtherGrouping(columns: map<string, string>, a: int64, b: int64)
    ensures IsGrouping([OtherPayment(columns, a)], OtherRecords(b), [OtherGroup(columns, a, b)])
  {
    var g := OtherGroup(columns, a, b);
    OtherSides(columns, a, b);
    forall m | m in [OtherPayment(columns, a)] + OtherRecords(b) && m.row.kind != Metadata
      ensures g in [g] && g.id == IdOf(m)
    {
      assert m == OtherPayment(columns, a) || m == OtherLine(b);
    }
  }

  lemma OtherComputed(columns: map<string, string>, a: int64, b: int64)
    ensures Computed(OtherSettlementInputs(columns, a, b), [OtherGroup(columns, a, b)], map[])
  {
    OtherSettlementSourced(columns, a, b);
    OtherSettlementMaps(columns, a, b);
    OtherGrouping(columns, a, b);
  }

  /** The rows have their own places and the selected header a total. */
  predicate PlacedRows(x: Inputs) {
    && UniqueRows(x.payments + x.settlements) && Located(x.payments + x.settlements)
    && forall r | r in Filter(MetadataOf(x.selected), x.settlements) :: r.hasRecon
  }

  lemma PlacesSuffice(x: Inputs)
    requires WellSourced(x) && Maps(x) && HeaderPasses(x) && PlacedRows(x) && RowsUnique(AllRows(x))
    ensures Storable(AllRows(x), x.paymentRules + x.settlementRules, x.selected)
  {
    var controls := Filter(MetadataOf(x.selected), x.settlements);
    assert controls[0] in controls;
    HeaderLeavesPlaces(x);
    StorableIff(x);
  }

  lemma OtherHeader(b: int64)
    ensures Filter(MetadataOf("A"), OtherFile(b)) == [HeaderRow(1, "A", 0)] && Sum(ActivityWeight(), OtherFile(b)) == 0
  {
    var rows := OtherFile(b);
    assert rows == [rows[0]] + [rows[1], rows[2]];
    FilterConcat(MetadataOf("A"), [rows[0]], [rows[1], rows[2]]);
    FilterAll(MetadataOf("A"), [rows[0]]);
    FilterNone(MetadataOf("A"), [rows[1], rows[2]]);
    SumZero(ActivityWeight(), rows);
  }

  lemma OtherControls(columns: map<string, string>, a: int64, b: int64)
    ensures var x := OtherSettlementInputs(columns, a, b);
      HeaderPasses(x) && GatePasses(map[], [OtherGroup(columns, a, b)])
  {
    OtherHeader(b);
  }

  lemma OtherPlaces(columns: map<string, string>, a: int64, b: int64)
    ensures var x := OtherSettlementInputs(columns, a, b); PlacedRows(x)
  {
    OtherHeader(b);
  }

  lemma OtherUnique(columns: map<string, string>, a: int64, b: int64)
    ensures RowsUnique([OtherPayment(columns, a)] + OtherRecords(b))
  {
    forall m | m in [OtherPayment(columns, a)] + OtherRecords(b)
      ensures UniqueMappings(Map(MappingOf(m.row), m.contributions))
    {
      assert |m.contributions| <= 1;
    }
  }

  lemma OtherStorable(columns: map<string, string>, a: int64, b: int64)
    ensures var x := OtherSettlementInputs(columns, a, b);
      Storable(AllRows(x), x.paymentRules + x.settlementRules, x.selected)
  {
    OtherComputed(columns, a, b);
    OtherSettlementMaps(columns, a, b);
    OtherControls(columns, a, b);
    OtherPlaces(columns, a, b);
    OtherUnique(columns, a, b);
    PlacesSuffice(OtherSettlementInputs(columns, a, b));
  }

  /** The gate skips groups of other settlements and the verification does not, so a gated, stored and reported
      strict run verifies or not as the amounts of settlement "B" happen to agree. */
  lemma GateSkipsOtherSettlements(columns: map<string, string>, a: int64, b: int64) returns (groups: seq<GroupValue>, t: Tables)
    ensures var x := OtherSettlementInputs(columns, a, b);
      && Computed(x, groups, map[]) && HeaderPasses(x) && GatePasses(map[], groups) && Stored(x, groups, map[], t)
      && (VerifyRun(ReportedStrict(x.selected), t, |x.payments| + |x.settlements|).Ok? <==> a == b)
  {
    var x := OtherSettlementInputs(columns, a, b);
    groups := [OtherGroup(columns, a, b)];
    t := PlainTables(AllRows(x), groups, PaymentOutput(x).issues + SettlementOutput(x).issues);
    OtherStorable(columns, a, b);
    PlainTablesStored(x, groups);
    OtherComputed(columns, a, b);
    OtherControls(columns, a, b);
    VerdictOfOne(x, groups[0], map[], t);
  }

  /** The verdict on a gated strict run with a single group, which is out of scope. */
  lemma VerdictOfOne(x: Inputs, g: GroupValue, merged: Summary, t: Tables)
    requires x.mode == Strict && Computed(x, [g], merged) && Stored(x, [g], merged, t)
    requires HeaderPasses(x) && GatePasses(merged, [g])
    requires TwoSided(g) && g.id.scope != InScope
    ensures VerifyRun(ReportedStrict(x.selected), t, |x.payments| + |x.settlements|).Ok? <==>
      g.payment.amount == g.settlement.amount
  {
    StrictRunVerifies(x, [g], merged, t);
    VerdictOnAmounts(x, g, t);
  }

  lemma VerdictOnAmounts(x: Inputs, g: GroupValue, t: Tables)
    requires StrictVerdict(x, [g], t) && TwoSided(g) && g.id.scope != InScope
    ensures VerifyRun(ReportedStrict(x.selected), t, |x.payments| + |x.settlements|).Ok? <==>
      g.payment.amount == g.settlement.amount
  {
    assert forall h | h in [g] :: h == g;
    assert g in [g];
  }

  // ----- A row without a type is chosen for twice

  const CATCH_ALL := ConfigRule(Payment, "payments.csv", 2, "", "X", "total", "", "", "K", "", "")

  lemma CatchAllTwice(columns: map<string, string>, amount: int64)
    ensures var row := PaymentRow(columns, amount, "B", "");
      && Filter(BestIn([CATCH_ALL], row, "total"), [CATCH_ALL]) == [CATCH_ALL]
      && Chosen([CATCH_ALL], row, "total") == [CATCH_ALL, CATCH_ALL]
      && FieldNames([CATCH_ALL], row) == ["total"]
      && Label(row.transaction) == ""
  {
    var row := PaymentRow(columns, amount, "B", "");
    LabelX();
    LabelEmpty("");
    assert forall r | r in [CATCH_ALL] :: r == CATCH_ALL;
    forall f
      ensures Chosen([CATCH_ALL], row, f) == if f == "total" then [CATCH_ALL] + [CATCH_ALL] else []
    {
      ChosenTwice([CATCH_ALL], row, f);
      if f == "total" {
        FilterAll(BestIn([CATCH_ALL], row, f), [CATCH_ALL]);
      } else {
        FilterNone(BestIn([CATCH_ALL], row, f), [CATCH_ALL]);
      }
    }
    ChosenTwice([CATCH_ALL], row, "total");
    FilterAll(BestIn([CATCH_ALL], row, "total"), [CATCH_ALL]);
    OnlyField([CATCH_ALL], row, "total");
  }

  lemma FieldTwice(contribute: Contributor, field: string, r: ConfigRule, c: Contribution, row: RawRow)
    requires contribute(field, r) == Ok(c) && c.key != ""
    ensures ApplyField(contribute, Diagnostic, field, [r, r], Blank(row)) ==
      Attempt(MappedRow(row, [c, c], c.keyParts, c.key, [DuplicateSelector(field, RuleLines([r, r]))]), None)
  {
    var m := Blank(row).(issues := [DuplicateSelector(field, RuleLines([r, r]))]);
    assert Blank(row).issues + [DuplicateSelector(field, RuleLines([r, r]))] == m.issues;
    var m1 := m.(contributions := [c], key := c.key, keyParts := c.keyParts);
    assert AddContribution(m, c) == Attempt(m1, None);
    assert AddContribution(m1, c) == Attempt(m1.(contributions := [c, c]), None);
    assert [r, r][1..] == [r] && [r][1..] == [];
    assert ApplyRules(contribute, field, [r], m1) == Attempt(m1.(contributions := [c, c]), None);
  }

  lemma OneField(choose: Chooser, contribute: Contributor, mode: Mode, field: string, m: MappedRow)
    ensures ApplyFields(choose, contribute, mode, [field], m) == ApplyField(contribute, mode, field, choose(field), m)
  {
    assert [field][1..] == [];
  }

  function UntypedRecord(columns: map<string, string>, amount: int64): MappedRow {
    var c := SoleOf(CATCH_ALL, "total", amount);
    MappedRow(PaymentRow(columns, amount, "B", ""), [c, c], ["K"], "K", [DuplicateSelector("total", RuleLines([CATCH_ALL, CATCH_ALL]))])
  }

  lemma UntypedFields(columns: map<string, string>, amount: int64)
    ensures MapFields([CATCH_ALL], Diagnostic, PaymentRow(columns, amount, "B", "")) == Attempt(UntypedRecord(columns, amount), None)
  {
    var row := PaymentRow(columns, amount, "B", "");
    var c := SoleOf(CATCH_ALL, "total", amount);
    CatchAllTwice(columns, amount);
    PaymentContribution(CATCH_ALL, columns, amount, "B", "");
    assert ChosenFor([CATCH_ALL], row)("total") == [CATCH_ALL, CATCH_ALL] && ContributorOf(row)("total", CATCH_ALL) == Ok(c);
    OneField(ChosenFor([CATCH_ALL], row), ContributorOf(row), Diagnostic, "total", Blank(row));
    FieldTwice(ContributorOf(row), "total", CATCH_ALL, c, row);
  }

  lemma UntypedFinish(columns: map<string, string>, amount: int64)
    ensures Finish(UntypedRecord(columns, amount)) == Attempt(UntypedRecord(columns, amount), None)
  {
    assert forall x | x in UntypedRecord(columns, amount).contributions :: !Routes(x);
  }

  lemma UntypedMaps(columns: map<string, string>, amount: int64)
    ensures MapRow([CATCH_ALL], Diagnostic, PaymentRow(columns, amount, "B", "")) == Attempt(UntypedRecord(columns, amount), None)
  {
    UntypedFields(columns, amount);
    UntypedFinish(columns, amount);
  }

  function UntypedInputs(columns: map<string, string>, amount: int64): Inputs {
    Inputs(Diagnostic, [CATCH_ALL], [PaymentRow(columns, amount, "B", "")], [SETTLEMENT_RULE], [HeaderRow(1, "A", 0)], "A")
  }

  lemma HeaderOnly(mode: Mode)
    requires !mode.OtherMode?
    ensures MapRows([SETTLEMENT_RULE], mode, [HeaderRow(1, "A", 0)]).Ok?
    ensures Output([SETTLEMENT_RULE], mode, [HeaderRow(1, "A", 0)]).rows == [Blank(HeaderRow(1, "A", 0))]
    ensures Output([SETTLEMENT_RULE], mode, [HeaderRow(1, "A", 0)]).summary == map[]
  {
    RulesAccepted();
    HeaderIsQuiet([SETTLEMENT_RULE], mode, 1, "A", 0);
    QuietOutput([SETTLEMENT_RULE], mode, [HeaderRow(1, "A", 0)], [Blank(HeaderRow(1, "A", 0))]);
  }

  lemma CatchAllAccepted()
    ensures CheckRules([CATCH_ALL]).None?
  {
    assert Trimmed("total");
    TrimSpaceTrims("total");
    OneRuleChecked(CATCH_ALL);
  }

  lemma UntypedRun(columns: map<string, string>, amount: int64)
    ensures WellSourced(UntypedInputs(columns, amount)) && Maps(UntypedInputs(columns, amount))
  {
    var row := PaymentRow(columns, amount, "B", "");
    UntypedMaps(columns, amount);
    CatchAllAccepted();
    RowIsQuiet([CATCH_ALL], Diagnostic, row, Attempt(UntypedRecord(columns, amount), None));
    QuietOutput([CATCH_ALL], Diagnostic, [row], [UntypedRecord(columns, amount)]);
    HeaderOnly(Diagnostic);
  }

  lemma UntypedRefused(columns: map<string, string>, amount: int64)
    ensures var x := UntypedInputs(columns, amount); !Storable(AllRows(x), x.paymentRules + x.settlementRules, x.selected)
  {
    var x := UntypedInputs(columns, amount);
    UntypedRun(columns, amount);
    CatchAllTwice(columns, amount);
    UntypedMaps(columns, amount);
    assert x.payments[0] in x.payments;
    UntypedNeverStored(x, x.payments[0]);
  }

  /** A payment without a type: the one rule that matches it is applied twice, so strict mode rejects the row, and
      in diagnostic mode the run maps and the database refuses it. */
  lemma UntypedPayment(columns: map<string, string>, amount: int64)
    ensures var x, row := UntypedInputs(columns, amount), PaymentRow(columns, amount, "B", "");
      && |MapRow([CATCH_ALL], Diagnostic, row).m.contributions| == 2
      && |Filter(BestIn([CATCH_ALL], row, "total"), [CATCH_ALL])| == 1
      && MapRow([CATCH_ALL], Strict, row).error.Some?
      && WellSourced(x) && Maps(x) && !Storable(AllRows(x), x.paymentRules + x.settlementRules, x.selected)
  {
    CatchAllTwice(columns, amount);
    UntypedMaps(columns, amount);
    EmptyTypeNeverStrict([CATCH_ALL], PaymentRow(columns, amount, "B", ""));
    UntypedRun(columns, amount);
    UntypedRefused(columns, amount);
  }

  // ----- A failed row is stored and not summarised

  const ROUTING := PaymentRule(2, "K", "sales_other")

  /** Its record reference needs an order, which the row below has not. */
  const NEEDS_ORDER := PaymentRule(3, "txn_ref", "sales_other")

  const BOTH_RULES := [ROUTING, NEEDS_ORDER]

  lemma BothBest(columns: map<string, string>, amount: int64)
    ensures var row := PaymentRow(columns, amount, "A", "X");
      Chosen(BOTH_RULES, row, "total") == BOTH_RULES && FieldNames(BOTH_RULES, row) == ["total"]
  {
    var row := PaymentRow(columns, amount, "A", "X");
    PaymentRuleBest(2, "K", "sales_other", columns, amount, "A");
    PaymentRuleBest(3, "txn_ref", "sales_other", columns, amount, "A");
    assert ROUTING in [ROUTING] && NEEDS_ORDER in [NEEDS_ORDER];
    AllChosen(BOTH_RULES, row, "total");
  }

  lemma ExpandOrder(row: RawRow)
    requires row.txnRef == ""
    ensures Expand("txn_ref", row) == Err(EmptyToken("txn_ref"))
  {
    assert Trimmed("txn_ref");
    TrimSpaceTrims("txn_ref");
    assert IndexOf("txn_ref", '+') == |"txn_ref"|;
    assert Split("txn_ref", '+') == ["txn_ref"];
    assert TokenText("txn_ref", row) == Err(EmptyToken("txn_ref"));
    assert ["txn_ref"][0] == "txn_ref";
    assert ExpandToken("txn_ref", row) == Err(EmptyToken("txn_ref"));
  }

  lemma OrderMissing(columns: map<string, string>, amount: int64)
    ensures ContributionFor(PaymentRow(columns, amount, "A", "X"), "total", NEEDS_ORDER) == Err(EmptyToken("txn_ref"))
  {
    PrintedNotBlank(amount);
    ExpandOrder(PaymentRow(columns, amount, "A", "X"));
    assert AmountFor(PaymentRow(columns, amount, "A", "X"), "total") == Ok(amount);
  }

  lemma SecondFails(contribute: Contributor, field: string, r: ConfigRule, r': ConfigRule, c: Contribution, e: MapError, row: RawRow)
    requires contribute(field, r) == Ok(c) && contribute(field, r') == Err(e) && c.key != ""
    ensures ApplyField(contribute, Diagnostic, field, [r, r'], Blank(row)) ==
      Attempt(MappedRow(row, [c], c.keyParts, c.key, [DuplicateSelector(field, RuleLines([r, r']))]), Some(e))
  {
    var m := Blank(row).(issues := [DuplicateSelector(field, RuleLines([r, r']))]);
    assert Blank(row).issues + [DuplicateSelector(field, RuleLines([r, r']))] == m.issues;
    var m1 := m.(contributions := [c], key := c.key, keyParts := c.keyParts);
    assert AddContribution(m, c) == Attempt(m1, None);
    assert [r, r'][1..] == [r'];
    assert ApplyRules(contribute, field, [r'], m1) == Attempt(m1, Some(e));
  }

  function Partial(columns: map<string, string>, amount: int64): MappedRow {
    MappedRow(PaymentRow(columns, amount, "A", "X"), [SoleOf(ROUTING, "total", amount)], ["K"], "K",
      [DuplicateSelector("total", RuleLines(BOTH_RULES))])
  }

  const NO_ORDER: MapError := EmptyToken("txn_ref")

  function FailedRecord(columns: map<string, string>, amount: int64): MappedRow {
    Recorded(Attempt(Partial(columns, amount), Some(NO_ORDER)))
  }

  lemma PartialMaps(columns: map<string, string>, amount: int64)
    ensures MapRow(BOTH_RULES, Diagnostic, PaymentRow(columns, amount, "A", "X")) == Attempt(Partial(columns, amount), Some(NO_ORDER))
  {
    PartialFields(columns, amount);
    assert Concluded(Attempt(Partial(columns, amount), Some(NO_ORDER))) == Attempt(Partial(columns, amount), Some(NO_ORDER));
  }

  lemma PartialFields(columns: map<string, string>, amount: int64)
    ensures MapFields(BOTH_RULES, Diagnostic, PaymentRow(columns, amount, "A", "X")) == Attempt(Partial(columns, amount), Some(NO_ORDER))
  {
    var row := PaymentRow(columns, amount, "A", "X");
    var c := SoleOf(ROUTING, "total", amount);
    BothBest(columns, amount);
    PaymentContribution(ROUTING, columns, amount, "A", "X");
    OrderMissing(columns, amount);
    assert ChosenFor(BOTH_RULES, row)("total") == [ROUTING, NEEDS_ORDER];
    assert ContributorOf(row)("total", ROUTING) == Ok(c) && ContributorOf(row)("total", NEEDS_ORDER) == Err(NO_ORDER);
    OneField(ChosenFor(BOTH_RULES, row), ContributorOf(row), Diagnostic, "total", Blank(row));
    SecondFails(ContributorOf(row), "total", ROUTING, NEEDS_ORDER, c, NO_ORDER, row);
  }

  /** A diagnostic run with one in-scope payment, which two rules match; the second cannot form its key. */
  function FailedInputs(columns: map<string, string>, amount: int64): Inputs {
    Inputs(Diagnostic, BOTH_RULES, [PaymentRow(columns, amount, "A", "X")], [SETTLEMENT_RULE], [HeaderRow(1, "A", 0)], "A")
  }

  lemma BothAccepted()
    ensures CheckRules(BOTH_RULES).None?
  {
    assert Trimmed("total");
    TrimSpaceTrims("total");
    OneRuleChecked(NEEDS_ORDER);
    assert BOTH_RULES[0] == ROUTING && BOTH_RULES[1..] == [NEEDS_ORDER];
    assert CheckRule(ROUTING).None?;
  }

  lemma FailedMaps(columns: map<string, string>, amount: int64)
    ensures var x := FailedInputs(columns, amount);
      && Maps(x) && PaymentOutput(x).rows == [FailedRecord(columns, amount)] && SettlementOutput(x).rows == [Blank(HeaderRow(1, "A", 0))]
      && PaymentOutput(x).summary == map[] && SettlementOutput(x).summary == map[]
  {
    var row := PaymentRow(columns, amount, "A", "X");
    FailedQuiet(columns, amount);
    BothAccepted();
    QuietOutput(BOTH_RULES, Diagnostic, [row], [FailedRecord(columns, amount)]);
    HeaderOnly(Diagnostic);
  }

  lemma FailedQuiet(columns: map<string, string>, amount: int64)
    ensures Quiet(MapperOf(BOTH_RULES, Diagnostic), Diagnostic, [PaymentRow(columns, amount, "A", "X")], [FailedRecord(columns, amount)])
  {
    PartialMaps(columns, amount);
    RowIsQuiet(BOTH_RULES, Diagnostic, PaymentRow(columns, amount, "A", "X"), Attempt(Partial(columns, amount), Some(NO_ORDER)));
  }

  lemma FailedSourced(columns: map<string, string>, amount: int64)
    ensures WellSourced(FailedInputs(columns, amount)) && PaymentRow(columns, amount, "A", "X").scope == InScope
  {
    assert "Released"[0] == 'R' && "Deferred"[0] == 'D' && LowerChar('R') != LowerChar('D');
    if EqualFold("Released", "Deferred") {
      FoldFirst("Released", "Deferred");
    }
  }

  function FailedGroup(columns: map<string, string>, amount: int64): GroupValue {
    GroupValue(GroupId("K", "A", "AUD", InScope), ["K"],
      Side([PaymentRow(columns, amount, "A", "X")], amount, map["sales_other" := amount]), EMPTY_SIDE)
  }

  lemma SumOne<T>(w: T -> int, x: T)
    ensures Sum(w, [x]) == w(x)
  {
    assert [x][1..] == [];
  }

  /** One side of a group with a single row that routes its amount to one target. */
  lemma RoutedSide(m: MappedRow, c: Contribution)
    requires m.contributions == [c] && Routes(c) && c.amount == m.row.reconAmount
    ensures ReportsSide(Side([m.row], m.row.reconAmount, map[c.target := c.amount]), [m])
    ensures RowBucket(m, c.target) == c.amount
  {
    forall t
      ensures Sum(BucketWeight(t), [m]) == RowBucket(m, t) == if t == c.target then c.amount as int else 0
    {
      SumOne(ContributionTo(t), c);
      SumOne(BucketWeight(t), m);
      assert ContributionTo(t)(c) == if c.target == t then c.amount as int else 0;
    }
    SumOne(AmountWeight(), m);
    assert m in [m] && c in m.contributions && RoutesTo(m, c.target);
    assert Map(RowOf(), [m]) == [m.row];
    assert AmountWeight()(m) == m.row.reconAmount as int;
  }

  lemma FailedRows(columns: map<string, string>, amount: int64)
    requires amount != 0
    ensures var g, m, h := FailedGroup(columns, amount), FailedRecord(columns, amount), Blank(HeaderRow(1, "A", 0));
      IsGrouping([m], [h], [g])
  {
    var g, m, h := FailedGroup(columns, amount), FailedRecord(columns, amount), Blank(HeaderRow(1, "A", 0));
    FailedSourced(columns, amount);
    RoutedSide(m, SoleOf(ROUTING, "total", amount));
    FilterAll(InGroup(g.id), [m]);
    FilterNone(InGroup(g.id), [h]);
    assert m in Members([m], g.id);
    assert ReportsGroup(g, [m], [h]);
    forall x | x in [m] + [h] && x.row.kind != Metadata
      ensures g in [g] && g.id == IdOf(x)
    {
      assert x == m;
    }
  }

  lemma FailedHeader(columns: map<string, string>, amount: int64)
    ensures HeaderPasses(FailedInputs(columns, amount))
    ensures Filter(MetadataOf("A"), [HeaderRow(1, "A", 0)]) == [HeaderRow(1, "A", 0)]
  {
    FilterAll(MetadataOf("A"), [HeaderRow(1, "A", 0)]);
    SumZero(ActivityWeight(), [HeaderRow(1, "A", 0)]);
  }

  lemma FailedPlaces(columns: map<string, string>, amount: int64)
    ensures PlacedRows(FailedInputs(columns, amount))
  {
    FailedHeader(columns, amount);
  }

  lemma FailedStorable(columns: map<string, string>, amount: int64)
    ensures var x := FailedInputs(columns, amount); Storable(AllRows(x), x.paymentRules + x.settlementRules, x.selected)
  {
    FailedSourced(columns, amount);
    FailedMaps(columns, amount);
    FailedHeader(columns, amount);
    FailedPlaces(columns, amount);
    FailedUnique(columns, amount);
    PlacesSuffice(FailedInputs(columns, amount));
  }

  lemma FailedUnique(columns: map<string, string>, amount: int64)
    ensures RowsUnique([FailedRecord(columns, amount)] + [Blank(HeaderRow(1, "A", 0))])
  {
    forall m | m in [FailedRecord(columns, amount)] + [Blank(HeaderRow(1, "A", 0))]
      ensures UniqueMappings(Map(MappingOf(m.row), m.contributions))
    {
      assert |m.contributions| <= 1;
    }
  }

  lemma FailedDoNotCancel(columns: map<string, string>, amount: int64)
    requires amount != 0
    ensures !FailuresCancel(FailedInputs(columns, amount))
  {
    var x, key := FailedInputs(columns, amount), SummaryKey(Payment, "sales_other");
    var m, h := FailedRecord(columns, amount), Blank(HeaderRow(1, "A", 0));
    FailedMaps(columns, amount);
    FailedSourced(columns, amount);
    FailedWeighs(m, h, key, SoleOf(ROUTING, "total", amount));
    assert AllRows(x) == [m, h];
    RecordedFails(Attempt(Partial(columns, amount), Some(NO_ORDER)));
  }

  lemma FailedWeighs(m: MappedRow, h: MappedRow, key: SummaryKey, c: Contribution)
    requires m.row.source == key.source && m.row.scope == InScope && h.row.scope != InScope
    requires m.contributions == [c] && Routes(c) && c.target == key.field && c.amount == m.row.reconAmount
    ensures Failed(m) ==> Sum(FailedAt(key), [m, h]) == c.amount
  {
    RoutedSide(m, c);
    SumOne(FailedAt(key), h);
    assert [m, h][1..] == [h];
    assert FailedAt(key)(h) == if h.row.source == key.source then FailedWeight(key.field)(h) else 0;
    assert FailedAt(key)(m) == FailedWeight(key.field)(m);
  }

  lemma FailedComputed(columns: map<string, string>, amount: int64)
    requires amount != 0
    ensures Computed(FailedInputs(columns, amount), [FailedGroup(columns, amount)], map[])
  {
    FailedSourced(columns, amount);
    FailedMaps(columns, amount);
    FailedRows(columns, amount);
  }

  /** A payment that fails after its first contribution: the run is stored, its groups agree, and it does not
      verify, because the contribution is stored and no total counts it. */
  lemma FailedRowUnverified(columns: map<string, string>, amount: int64) returns (groups: seq<GroupValue>, t: Tables)
    requires amount != 0
    ensures var x := FailedInputs(columns, amount);
      && Computed(x, groups, map[]) && HeaderPasses(x) && Stored(x, groups, map[], t)
      && (forall g | g in groups :: AmountsAgree(g))
      && VerifyRun(RunHeader(Diagnostic, Lifecycle.Reported, Lifecycle.DiagnosticStatus, x.selected), t,
           |x.payments| + |x.settlements|).Err?
  {
    var x := FailedInputs(columns, amount);
    groups := [FailedGroup(columns, amount)];
    t := PlainTables(AllRows(x), groups, PaymentOutput(x).issues + SettlementOutput(x).issues);
    FailedStorable(columns, amount);
    PlainTablesStored(x, groups);
    FailedComputed(columns, amount);
    FailedHeader(columns, amount);
    FailedDoNotCancel(columns, amount);
    NotVerified(x, groups, map[], t);
  }

  lemma NotVerified(x: Inputs, groups: seq<GroupValue>, merged: Summary, t: Tables)
    requires x.mode == Diagnostic && Computed(x, groups, merged) && Stored(x, groups, merged, t) && HeaderPasses(x)
    requires !FailuresCancel(x)
    ensures VerifyRun(RunHeader(Diagnostic, Lifecycle.Reported, Lifecycle.DiagnosticStatus, x.selected), t,
      |x.payments| + |x.settlements|).Err?
  {
    DiagnosticRunVerifies(x, groups, merged, t, Lifecycle.DiagnosticStatus);
  }
}
