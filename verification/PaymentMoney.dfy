/** No payment money is multiplied: what a strictly mapped payment row routes is its total. */
module PaymentMoney {
  import opened Outcome
  import opened Domain
  import opened Money
  import opened Sequences
  import opened Engine
  import opened StrictRows
  import opened MapRun
  import opened Conservation
  import opened Gate
  import opened Report
  import opened Ingest

  /** The report column an amount field reads; the fee field has an alias. */
  function Column(field: string): string {
    if field == "fba_fees" then "fulfilment_by_amazon_fees" else field
  }

  /** A payment row as the parser reads it: its amount is its total. */
  predicate TotalRead(row: RawRow) {
    row.source == Payment && row.kind == Transaction && ParseCents(Lookup(row.canonical, "total")) == Ok(row.reconAmount)
  }

  /** The parser checked the components against the total: none of their columns is missing and they add up. */
  predicate ComponentsChecked(row: RawRow) {
    HasColumns(row.canonical, COMPONENTS) && ComponentsAddUp(row.canonical, row.reconAmount)
  }

  /** A routed contribution carries the amount its column holds. */
  predicate CarriesColumn(row: RawRow, c: Contribution) {
    Routes(c) ==> c.amount == AmountIn(ReaderOf(row.canonical))(Column(c.field))
  }

  lemma RoutedCarriesColumn(row: RawRow, c: Contribution)
    requires row.source == Payment && AmountFor(row, c.field) == Ok(c.amount)
    ensures CarriesColumn(row, c)
  {
  }

  lemma StrictPaymentRow(rules: seq<ConfigRule>, row: RawRow)
    requires row.source == Payment && row.kind == Transaction && MapRow(rules, Strict, row).error.None?
    ensures var cs := MapRow(rules, Strict, row).m.contributions;
      && DistinctFields(cs) && !RoutesTotalAndComponent(cs)
      && forall c | c in cs :: CarriesColumn(row, c)
  {
    var cs := MapRow(rules, Strict, row).m.contributions;
    MappedRowShape(rules, Strict, row);
    StrictFields(rules, row);
    forall c | c in cs
      ensures CarriesColumn(row, c)
    {
      ContributionOrigin(rules, Strict, row, c);
      RoutedCarriesColumn(row, c);
    }
  }

  // ----- Routing by the total

  predicate RoutesTotal(cs: seq<Contribution>) {
    exists c :: c in cs && Routes(c) && c.field == "total"
  }

  lemma {:induction false} TotalAlone(cs: seq<Contribution>, total: int)
    requires DistinctFields(cs)
    requires forall c | c in cs && Routes(c) :: c.field == "total" && c.amount == total
    ensures Sum(RoutedAmount(), cs) == if RoutesTotal(cs) then total else 0
  {
    if cs != [] {
      assert cs == [cs[0]] + cs[1..];
      TotalAlone(cs[1..], total);
      assert cs[0] in cs;
      if Routes(cs[0]) {
        forall c | c in cs[1..]
          ensures c.field != "total"
        {
          var i :| 0 <= i < |cs[1..]| && cs[1..][i] == c;
          assert cs[i + 1] == c;
        }
      }
    }
  }

  // ----- Routing by components

  /** Every non-zero component is routed by exactly one contribution, counting a field and its alias as one
      column, and nothing else is routed. */
  predicate RoutesComponentsOnce(row: RawRow, cs: seq<Contribution>) {
    && (forall c | c in cs && Routes(c) :: Column(c.field) in COMPONENTS)
    && (forall i, j | 0 <= i < j < |cs| && Routes(cs[i]) && Routes(cs[j]) :: Column(cs[i].field) != Column(cs[j].field))
    && (forall f | f in COMPONENTS && AmountIn(ReaderOf(row.canonical))(f) != 0 :: exists c :: c in cs && Routes(c) && Column(c.field) == f)
  }

  function RoutedIn(column: string): Contribution -> int {
    (c: Contribution) => if Routes(c) && Column(c.field) == column then c.amount as int else 0
  }

  function ColumnOf(c: Contribution): string -> int {
    (f: string) => RoutedIn(f)(c)
  }

  function ColumnsOf(cs: seq<Contribution>): string -> int {
    (f: string) => Sum(RoutedIn(f), cs)
  }

  lemma {:induction false} OneColumn(c: Contribution, fields: seq<string>)
    requires forall i, j | 0 <= i < j < |fields| :: fields[i] != fields[j]
    ensures Sum(ColumnOf(c), fields) == if Routes(c) && Column(c.field) in fields then c.amount else 0
  {
    if fields != [] {
      assert fields == [fields[0]] + fields[1..];
      OneColumn(c, fields[1..]);
      assert fields[0] !in fields[1..];
      assert RoutedIn(fields[0])(c) == if Routes(c) && Column(c.field) == fields[0] then c.amount as int else 0;
    }
  }

  /** Adding up what is routed column by column is adding up what is routed. */
  lemma {:induction false} ColumnsSpread(cs: seq<Contribution>, fields: seq<string>)
    requires forall i, j | 0 <= i < j < |fields| :: fields[i] != fields[j]
    requires forall c | c in cs && Routes(c) :: Column(c.field) in fields
    ensures Sum(ColumnsOf(cs), fields) == Sum(RoutedAmount(), cs)
  {
    if cs == [] {
      SumZero(ColumnsOf(cs), fields);
    } else {
      assert cs == [cs[0]] + cs[1..];
      ColumnsSpread(cs[1..], fields);
      OneColumn(cs[0], fields);
      SumAdd(ColumnsOf(cs), ColumnOf(cs[0]), ColumnsOf(cs[1..]), fields);
    }
  }

  lemma {:induction false} ColumnRoutedOnce(cs: seq<Contribution>, f: string, value: int)
    requires forall i, j | 0 <= i < j < |cs| && Routes(cs[i]) && Routes(cs[j]) :: Column(cs[i].field) != Column(cs[j].field)
    requires forall c | c in cs && Routes(c) && Column(c.field) == f :: c.amount == value
    ensures Sum(RoutedIn(f), cs) == if exists c :: c in cs && Routes(c) && Column(c.field) == f then value else 0
  {
    if cs != [] {
      assert cs == [cs[0]] + cs[1..];
      ColumnRoutedOnce(cs[1..], f, value);
      assert cs[0] in cs;
      if Routes(cs[0]) && Column(cs[0].field) == f {
        forall c | c in cs[1..] && Routes(c)
          ensures Column(c.field) != f
        {
          var i :| 0 <= i < |cs[1..]| && cs[1..][i] == c;
          assert cs[i + 1] == c;
        }
      }
    }
  }

  lemma ComponentsDistinct()
    ensures forall i, j | 0 <= i < j < |COMPONENTS| :: COMPONENTS[i] != COMPONENTS[j]
  {
  }

  lemma ComponentsRouted(row: RawRow, cs: seq<Contribution>)
    requires RoutesComponentsOnce(row, cs)
    requires forall c | c in cs :: CarriesColumn(row, c)
    ensures Sum(RoutedAmount(), cs) == Sum(AmountIn(ReaderOf(row.canonical)), COMPONENTS)
  {
    ComponentsDistinct();
    ColumnsSpread(cs, COMPONENTS);
    forall f | f in COMPONENTS
      ensures ColumnsOf(cs)(f) == AmountIn(ReaderOf(row.canonical))(f)
    {
      ColumnRoutedOnce(cs, f, AmountIn(ReaderOf(row.canonical))(f));
    }
    SumAgree(ColumnsOf(cs), AmountIn(ReaderOf(row.canonical)), COMPONENTS);
  }

  /** A row is routed whole: by its total, whatever columns its record has, or by each non-zero component once
      where the parser checked the components. */
  predicate RoutedWhole(row: RawRow, cs: seq<Contribution>) {
    RoutesTotal(cs) || (ComponentsChecked(row) && RoutesComponentsOnce(row, cs))
  }

  /** The routed contributions of a strictly mapped payment row that is routed whole sum to its total. */
  lemma RoutedIsTotal(rules: seq<ConfigRule>, row: RawRow)
    requires TotalRead(row) && MapRow(rules, Strict, row).error.None?
    requires RoutedWhole(row, MapRow(rules, Strict, row).m.contributions)
    ensures Sum(RoutedAmount(), MapRow(rules, Strict, row).m.contributions) == row.reconAmount
  {
    StrictPaymentRow(rules, row);
    RoutedWholeSum(row, MapRow(rules, Strict, row).m.contributions);
  }

  lemma RoutedWholeSum(row: RawRow, cs: seq<Contribution>)
    requires TotalRead(row) && RoutedWhole(row, cs)
    requires DistinctFields(cs) && !RoutesTotalAndComponent(cs)
    requires forall c | c in cs :: CarriesColumn(row, c)
    ensures Sum(RoutedAmount(), cs) == row.reconAmount
  {
    if RoutesTotal(cs) {
      forall c | c in cs && Routes(c)
        ensures c.field == "total" && c.amount == row.reconAmount
      {
        assert CarriesColumn(row, c);
      }
      TotalAlone(cs, row.reconAmount);
    } else {
      ComponentsRouted(row, cs);
    }
  }

  // ----- All rows

  /** Every in-scope transaction has its total read and is routed whole; nothing is asked of other rows. */
  predicate AllWhole(rules: seq<ConfigRule>, rows: seq<RawRow>) {
    forall r | r in rows && Active(r) :: TotalRead(r) && RoutedWhole(r, MapRow(rules, Strict, r).m.contributions)
  }

  lemma {:induction false} RecordsAgree(mapper: RowMapper, rows: seq<RawRow>)
    requires forall r | r in rows :: RoutedWeight()(RecordOf(mapper)(r)) == ActivityWeight()(r)
    ensures Sum(RoutedWeight(), Map(RecordOf(mapper), rows)) == Sum(ActivityWeight(), rows)
  {
    if rows != [] {
      assert rows == [rows[0]] + rows[1..];
      RecordsAgree(mapper, rows[1..]);
      RecordsStep(mapper, rows);
    }
  }

  lemma RowRoutesTotal(rules: seq<ConfigRule>, row: RawRow)
    requires MapRow(rules, Strict, row).error.None?
    requires Active(row) ==> TotalRead(row) && RoutedWhole(row, MapRow(rules, Strict, row).m.contributions)
    ensures RoutedWeight()(RecordOf(MapperOf(rules, Strict))(row)) == ActivityWeight()(row)
  {
    RecordShape(rules, Strict, row);
    RecordOfSuccess(rules, Strict, row);
    if Active(row) {
      RoutedIsTotal(rules, row);
    }
    WholeWeight(MapRow(rules, Strict, row).m, row);
  }

  lemma WholeWeight(m: MappedRow, row: RawRow)
    requires m.row == row && (row.kind == Metadata ==> m.contributions == [])
    requires Active(row) ==> Sum(RoutedAmount(), m.contributions) == row.reconAmount
    ensures RoutedWeight()(m) == ActivityWeight()(row)
  {
  }

  /** Over a strict run in which every in-scope payment row is routed whole, all payment buckets together hold
      exactly the in-scope payment totals: nothing is counted twice and nothing is lost. */
  lemma PaymentBucketsAreTotals(rules: seq<ConfigRule>, rows: seq<RawRow>)
    requires forall r | r in rows :: r.source == Payment
    requires MapRows(rules, Strict, rows).Ok? && AllWhole(rules, rows)
    ensures var out := Output(rules, Strict, rows);
      SetSum(BucketsOf(out.summary, Payment), out.summary.Keys) == Sum(ActivityWeight(), rows)
  {
    MapRowsTotals(rules, Strict, rows, "t", Payment);
    MapsAllIff(rules, Strict, rows);
    BucketsHoldRouted(rules, Strict, rows, Payment);
    forall r | r in rows {
      RowRoutesTotal(rules, r);
    }
    RecordsAgree(MapperOf(rules, Strict), rows);
  }
}
