/** internal/mapping/engine.go: what mapping one row computes, as functions of the rules and the row. */
module Engine {
  import opened Text
  import opened Outcome
  import opened Domain
  import opened Money
  import opened Normalize
  import opened Sequences

  /** The delimiter that joins the parts of a record key, the ASCII unit separator. */
  const UNIT_SEPARATOR: char := 31 as char

  const SUMMARY_FIELDS: set<string> := {
    "sales_product_charges", "sales_tax", "sales_shipping", "sales_amazon_fees",
    "sales_inventory_reimbursements", "sales_other", "refunded_expenses", "refunded_sales",
    "expenses_promotional_rebates", "expenses_fba_fees", "expenses_cost_of_advertising",
    "expenses_amazon_fees", "expenses_reversed_reimbursements", "expenses_other", "paid_to_amazon",
    "bank_account_transfer_round_off", "amazon_carried_forward", "beginning_balance",
    "current_reserve_amount", "total_adjustment_other_buyer_recharge_amt",
    "total_refund_expense_or_sales_amt"}

  // ----- Rule selection

  function Lookup(m: map<string, string>, key: string): string {
    if key in m then m[key] else ""
  }

  predicate DescriptionMatch(row: RawRow, selector: string) {
    var s := Label(selector);
    s == "ANY" ||
    s == if row.source == Payment && Label(row.transaction) == "TRANSFER"
         then TransferDescription(row.description)
         else Label(row.description)
  }

  predicate Matches(rule: ConfigRule, row: RawRow) {
    && rule.source == row.source
    && (Label(rule.transactionType) == "" || Label(rule.transactionType) == Label(row.transaction))
    && if row.source == Payment then
         rule.amountField != "" && DescriptionMatch(row, rule.description)
       else
         Label(rule.amountType) == Label(row.amountType) && DescriptionMatch(row, rule.amountDescription)
  }

  predicate Specific(rule: ConfigRule) {
    TrimSpace(rule.transactionType) != ""
  }

  /** The rule names a description instead of accepting any. */
  predicate Exact(rule: ConfigRule, row: RawRow) {
    || (row.source == Payment && Label(rule.description) != "ANY")
    || (row.source == Settlement && Label(rule.amountDescription) != "ANY")
  }

  function FieldOf(rule: ConfigRule, row: RawRow): string {
    if row.source == Settlement then "amount" else rule.amountField
  }

  function WithLabel(name: string): ConfigRule -> bool {
    (r: ConfigRule) => Label(r.transactionType) == name
  }

  function MatchingRow(row: RawRow): ConfigRule -> bool {
    (r: ConfigRule) => Matches(r, row)
  }

  function InField(row: RawRow, field: string): ConfigRule -> bool {
    (r: ConfigRule) => FieldOf(r, row) == field
  }

  function ExactIn(row: RawRow): ConfigRule -> bool {
    (r: ConfigRule) => Exact(r, row)
  }

  /** What the index yields for a row: the rules of its transaction type, then the catch-all rules. */
  function Candidates(rules: seq<ConfigRule>, row: RawRow): seq<ConfigRule> {
    Filter(WithLabel(Label(row.transaction)), rules) + Filter(WithLabel(""), rules)
  }

  function KeepSpecific(matched: seq<ConfigRule>): seq<ConfigRule> {
    if exists r :: r in matched && Specific(r) then Filter(Specific, matched) else matched
  }

  function Selected(rules: seq<ConfigRule>, row: RawRow): seq<ConfigRule> {
    KeepSpecific(Filter(MatchingRow(row), Candidates(rules, row)))
  }

  function KeepExact(inField: seq<ConfigRule>, row: RawRow): seq<ConfigRule> {
    if exists r :: r in inField && Exact(r, row) then Filter(ExactIn(row), inField) else inField
  }

  /** The rules the engine applies to one amount field of a row. */
  function Chosen(rules: seq<ConfigRule>, row: RawRow, field: string): seq<ConfigRule> {
    KeepExact(Filter(InField(row, field), Selected(rules, row)), row)
  }

  function Distinct(s: seq<string>): (r: seq<string>)
    ensures forall x :: x in r <==> x in s
    ensures forall i, j | 0 <= i < j < |r| :: r[i] != r[j]
  {
    if s == [] then []
    else
      var init := s[..|s| - 1];
      var last := s[|s| - 1];
      assert s == init + [last];
      if last in init then Distinct(init) else Distinct(init) + [last]
  }

  /** The amount fields with a selected rule, in the order sort.Strings gives. */
  function FieldNames(rules: seq<ConfigRule>, row: RawRow): seq<string> {
    Sort(Distinct(Map((r: ConfigRule) => FieldOf(r, row), Selected(rules, row))), Less)
  }

  // ----- Amounts and record keys

  function LiftMoney(r: Result<int64, MoneyError>): Result<int64, MapError> {
    match r
    case Ok(v) => Ok(v)
    case Err(e) => Err(BadAmount(e))
  }

  function AmountFor(row: RawRow, field: string): Result<int64, MapError> {
    if row.source == Settlement then
      if row.hasRecon then Ok(row.reconAmount) else Err(NoReconAmount)
    else
      var v := Lookup(row.canonical, if field == "fba_fees" then "fulfilment_by_amazon_fees" else field);
      if v != "" then LiftMoney(ParseCents(v))
      else if field == "marketplace_withheld_tax" then Ok(0)
      else Err(MissingAmount(field))
  }

  function RowFields(row: RawRow): map<string, string> {
    map["txn_ref" := row.txnRef, "sku" := row.sku, "settlement_id" := row.settlementID,
        "date" := row.keyDate, "shipment_id" := Lookup(row.canonical, "shipment_id"),
        "merchant_order_id" := Lookup(row.canonical, "merchant_order_id"),
        "description" := Label(row.description)]
  }

  function ToLower(s: string): string {
    Map(LowerChar, s)
  }

  predicate IsFieldToken(s: string) {
    && s != "" && ToLower(s) == s
    && forall i | 0 <= i < |s| :: 'a' <= s[i] <= 'z' || '0' <= s[i] <= '9' || s[i] == '_'
  }

  function TokenText(t: string, row: RawRow): Result<string, MapError> {
    if t in RowFields(row) then
      if RowFields(row)[t] == "" then Err(EmptyToken(t)) else Ok(RowFields(row)[t])
    else if t == "record_type" then
      if Label(row.transaction) == "" then Err(EmptyToken(t)) else Ok(Label(row.transaction))
    else if t == "" || IsFieldToken(t) then Err(UnknownToken(t))
    else Ok(t)
  }

  function ExpandToken(token: string, row: RawRow): (r: Result<string, MapError>)
    ensures r.Ok? ==> r.value != "" && UNIT_SEPARATOR !in r.value
  {
    var text :- TokenText(TrimSpace(token), row);
    if UNIT_SEPARATOR in text then Err(ReservedDelimiter) else Ok(text)
  }

  function ExpandTokens(tokens: seq<string>, row: RawRow): (r: Result<seq<string>, MapError>)
    ensures r.Ok? ==> |r.value| == |tokens|
    ensures r.Ok? ==> forall i | 0 <= i < |tokens| :: ExpandToken(tokens[i], row) == Ok(r.value[i])
  {
    if tokens == [] then Ok([])
    else
      var first :- ExpandToken(tokens[0], row);
      var rest :- ExpandTokens(tokens[1..], row);
      Ok([first] + rest)
  }

  function Expand(template: string, row: RawRow): (r: Result<seq<string>, MapError>)
    ensures r.Ok? ==> |r.value| > 0
    ensures r.Ok? ==> forall p | p in r.value :: p != "" && UNIT_SEPARATOR !in p
  {
    if TrimSpace(template) == "" then Err(EmptyRecordRef) else ExpandTokens(Split(template, '+'), row)
  }

  function JoinKey(parts: seq<string>): string {
    Join(parts, UNIT_SEPARATOR)
  }

  // ----- Contributions

  predicate OptionalMissing(row: RawRow, field: string) {
    field == "marketplace_withheld_tax" && Lookup(row.canonical, field) == ""
  }

  function ContributionFor(row: RawRow, field: string, rule: ConfigRule): Result<Contribution, MapError> {
    var amount :- AmountFor(row, field);
    var parts :- Expand(rule.recordRef, row);
    var target := if amount < 0 then rule.negativeTarget else rule.positiveTarget;
    if OptionalMissing(row, field) && (rule.positiveTarget != "" || rule.negativeTarget != "") then
      Err(OptionalAbsentRoutes(field))
    else
      var decision :=
        if OptionalMissing(row, field) then OptionalAbsent
        else if target == "" then NotSummarized
        else if amount == 0 then Zero
        else Routed;
      Ok(Contribution(rule, field, amount, target, decision, parts, JoinKey(parts)))
  }

  /** A mapped row together with the error that stopped it, if any: diagnostic runs keep both. */
  datatype Attempt = Attempt(m: MappedRow, error: Option<MapError>)

  function AddContribution(m: MappedRow, c: Contribution): Attempt {
    var m' := m.(contributions := m.contributions + [c]);
    if m.key == "" && c.key != "" then Attempt(m'.(key := c.key, keyParts := c.keyParts), None)
    else if c.key != "" && m.key != c.key then Attempt(m', Some(ConflictingKeys(m.key, c.key)))
    else Attempt(m', None)
  }

  /** The rules chosen for each field of a row, and what a rule contributes to a field of it. The loops of
      mapRow are written over these two functions. */
  type Chooser = string -> seq<ConfigRule>
  type Contributor = (string, ConfigRule) -> Result<Contribution, MapError>

  function ChosenFor(rules: seq<ConfigRule>, row: RawRow): Chooser {
    (field: string) => Chosen(rules, row, field)
  }

  function ContributorOf(row: RawRow): Contributor {
    (field: string, rule: ConfigRule) => ContributionFor(row, field, rule)
  }

  function ApplyRules(contribute: Contributor, field: string, chosen: seq<ConfigRule>, m: MappedRow): Attempt {
    if chosen == [] then Attempt(m, None)
    else
      match contribute(field, chosen[0])
      case Err(e) => Attempt(m, Some(e))
      case Ok(c) =>
        var a := AddContribution(m, c);
        if a.error.Some? then a else ApplyRules(contribute, field, chosen[1..], a.m)
  }

  function RuleLines(rules: seq<ConfigRule>): seq<nat> {
    Map((r: ConfigRule) => r.originLine, rules)
  }

  function ApplyField(contribute: Contributor, mode: Mode, field: string, chosen: seq<ConfigRule>, m: MappedRow): Attempt {
    if |chosen| > 1 && mode == Strict then Attempt(m, Some(AmbiguousRules(field, RuleLines(chosen))))
    else
      var m' := if |chosen| > 1 then m.(issues := m.issues + [DuplicateSelector(field, RuleLines(chosen))]) else m;
      ApplyRules(contribute, field, chosen, m')
  }

  function ApplyFields(choose: Chooser, contribute: Contributor, mode: Mode, fields: seq<string>, m: MappedRow): Attempt {
    if fields == [] then Attempt(m, None)
    else
      var a := ApplyField(contribute, mode, fields[0], choose(fields[0]), m);
      if a.error.Some? then a else ApplyFields(choose, contribute, mode, fields[1..], a.m)
  }

  /** A contribution that reaches a summary bucket with money in it. */
  predicate Routes(c: Contribution) {
    c.target != "" && c.amount != 0
  }

  predicate RoutesTotalAndComponent(contributions: seq<Contribution>) {
    && (exists c :: c in contributions && Routes(c) && c.field == "total")
    && (exists c :: c in contributions && Routes(c) && c.field != "total")
  }

  function Finish(m: MappedRow): Attempt {
    if m.row.source == Payment && RoutesTotalAndComponent(m.contributions) then Attempt(m, Some(TotalAndComponent))
    else if m.key == "" then Attempt(m, Some(NoRecordRef))
    else Attempt(m, None)
  }

  function Concluded(a: Attempt): Attempt {
    if a.error.Some? then a else Finish(a.m)
  }

  function Blank(row: RawRow): MappedRow {
    MappedRow(row, [], [], "", [])
  }

  function MapFields(rules: seq<ConfigRule>, mode: Mode, row: RawRow): Attempt {
    ApplyFields(ChosenFor(rules, row), ContributorOf(row), mode, FieldNames(rules, row), Blank(row))
  }

  function MapRow(rules: seq<ConfigRule>, mode: Mode, row: RawRow): Attempt {
    if row.kind == Metadata then Attempt(Blank(row), None)
    else Concluded(MapFields(rules, mode, row))
  }
}
