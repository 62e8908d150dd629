/** The checks of internal/ingest/parser.go on parsed records: component totals and currency inheritance. */
module Ingest {
  import opened Outcome
  import opened Domain
  import opened Money
  import opened Sequences
  import opened Engine

  const COMPONENTS: seq<string> := [
    "product_sales", "shipping_credits", "gift_wrap_credits", "promotional_rebates", "sales_tax_collected",
    "low_value_goods", "selling_fees", "fulfilment_by_amazon_fees", "other_transaction_fees", "other"]

  datatype IngestError =
    | BadComponent(field: string, money: MoneyError)
    | ComponentTotal(money: MoneyError)
    | ComponentMismatch
    | DuplicateMetadata(settlementID: string)
    | MissingMetadata(settlementID: string)
    | CurrencyConflict(settlementID: string)

  predicate HasColumns(canonical: map<string, string>, fields: seq<string>) {
    forall f | f in fields :: f in canonical
  }

  /** How the amount of a column is read. */
  type AmountReader = string -> Result<int64, MoneyError>

  function ReaderOf(canonical: map<string, string>): AmountReader {
    (f: string) => ParseCents(Lookup(canonical, f))
  }

  /** Every column holds an amount. */
  predicate Readable(read: AmountReader, fields: seq<string>) {
    forall f | f in fields :: read(f).Ok?
  }

  function AmountIn(read: AmountReader): string -> int {
    (f: string) => if read(f).Ok? then read(f).value as int else 0
  }

  /** The columns are readable, their running total in order stays in 64 bits, and they add up to the total. */
  predicate AddUp(read: AmountReader, fields: seq<string>, total: int) {
    && Readable(read, fields)
    && (forall k | 0 <= k <= |fields| :: InInt64(Sum(AmountIn(read), fields[..k])))
    && Sum(AmountIn(read), fields) == total
  }

  predicate ComponentsAddUp(canonical: map<string, string>, total: int) {
    AddUp(ReaderOf(canonical), COMPONENTS, total)
  }

  method HasAllColumns(canonical: map<string, string>, fields: seq<string>) returns (all: bool)
    ensures all == HasColumns(canonical, fields)
  {
    for i := 0 to |fields|
      invariant forall j | 0 <= j < i :: fields[j] in canonical
    {
      if fields[i] !in canonical {
        assert fields[i] in fields;
        return false;
      }
    }
    return true;
  }

  method CheckSum(read: AmountReader, fields: seq<string>, total: int64) returns (error: Option<IngestError>)
    ensures error.None? <==> AddUp(read, fields, total)
  {
    var sum: int64 := 0;
    var w := AmountIn(read);
    for i := 0 to |fields|
      invariant sum == Sum(w, fields[..i])
      invariant forall j | 0 <= j < i :: read(fields[j]).Ok?
      invariant forall k | 0 <= k <= i :: InInt64(Sum(w, fields[..k]))
    {
      assert fields[..i + 1] == fields[..i] + [fields[i]];
      SumSnoc(w, fields[..i], fields[i]);
      var amount := read(fields[i]);
      if amount.Err? {
        assert fields[i] in fields;
        return Some(BadComponent(fields[i], amount.error));
      }
      assert w(fields[i]) == amount.value;
      var next := Add(sum, amount.value);
      if next.Err? {
        assert !InInt64(Sum(w, fields[..i + 1]));
        return Some(ComponentTotal(next.error));
      }
      sum := next.value;
    }
    assert fields[..|fields|] == fields;
    if sum != total {
      return Some(ComponentMismatch);
    }
    return None;
  }

  /** A record that lacks one of the component columns is not checked; otherwise it passes exactly when its
      components add up. */
  method ValidatePaymentComponents(canonical: map<string, string>, total: int64) returns (error: Option<IngestError>)
    ensures error.None? <==> !HasColumns(canonical, COMPONENTS) || ComponentsAddUp(canonical, total)
  {
    var all := HasAllColumns(canonical, COMPONENTS);
    if !all {
      return None;
    }
    error := CheckSum(ReaderOf(canonical), COMPONENTS, total);
  }

  // ----- Currency inheritance

  predicate MetadataFor(r: RawRow, settlementID: string) {
    r.kind == Metadata && r.settlementID == settlementID
  }

  /** No settlement has two metadata rows. */
  predicate UniqueMetadata(rows: seq<RawRow>) {
    forall i, j | 0 <= i < j < |rows| && rows[i].kind == Metadata && rows[j].kind == Metadata ::
      rows[i].settlementID != rows[j].settlementID
  }

  /** A transaction agrees with a metadata row of its settlement, or leaves its currency to it. */
  predicate CurrencyGiven(r: RawRow, rows: seq<RawRow>) {
    exists c :: c in rows && MetadataFor(c, r.settlementID) && (r.currency == "" || r.currency == c.currency)
  }

  predicate Inheritable(rows: seq<RawRow>) {
    UniqueMetadata(rows) && forall r | r in rows && r.kind == Transaction :: CurrencyGiven(r, rows)
  }

  /** `r'` is `r` with the currency of its settlement's metadata row. */
  predicate Inherits(r: RawRow, r': RawRow, rows: seq<RawRow>) {
    if r.kind == Transaction then
      r' == r.(currency := r'.currency) &&
      exists c :: c in rows && MetadataFor(c, r.settlementID) && r'.currency == c.currency
    else r' == r
  }

  ghost predicate ControlsOf(controls: map<string, RawRow>, rows: seq<RawRow>) {
    && (forall s | s in controls :: controls[s] in rows && MetadataFor(controls[s], s))
    && (forall r | r in rows && r.kind == Metadata :: r.settlementID in controls)
  }

  /** The first loop of the second pass: one control row per settlement. */
  method CollectControls(rows: seq<RawRow>) returns (r: Result<map<string, RawRow>, IngestError>)
    ensures r.Ok? <==> UniqueMetadata(rows)
    ensures r.Ok? ==> ControlsOf(r.value, rows)
  {
    var controls: map<string, RawRow> := map[];
    for i := 0 to |rows|
      invariant UniqueMetadata(rows[..i]) && ControlsOf(controls, rows[..i])
    {
      assert rows[..i + 1] == rows[..i] + [rows[i]];
      if rows[i].kind == Metadata {
        if rows[i].settlementID in controls {
          var j :| 0 <= j < i && rows[j] == controls[rows[i].settlementID];
          assert !UniqueMetadata(rows);
          return Err(DuplicateMetadata(rows[i].settlementID));
        }
        controls := controls[rows[i].settlementID := rows[i]];
      }
    }
    assert rows[..|rows|] == rows;
    return Ok(controls);
  }

  /** The second pass over parsed settlement rows, in place: it succeeds exactly when every settlement has at
      most one metadata row and every transaction has one that its own currency, if any, agrees with; then
      every transaction carries that row's currency and nothing else has changed. */
  method InheritCurrency(rows: array<RawRow>) returns (error: Option<IngestError>)
    modifies rows
    ensures error.None? <==> Inheritable(old(rows[..]))
    ensures error.None? ==> forall i | 0 <= i < rows.Length :: Inherits(old(rows[i]), rows[i], old(rows[..]))
  {
    ghost var before := rows[..];
    var collected := CollectControls(rows[..]);
    if collected.Err? {
      return Some(collected.error);
    }
    var controls := collected.value;
    for i := 0 to rows.Length
      invariant forall j | 0 <= j < i :: Inherits(before[j], rows[j], before)
      invariant forall j | 0 <= j < i && before[j].kind == Transaction :: CurrencyGiven(before[j], before)
      invariant forall j | i <= j < rows.Length :: rows[j] == before[j]
    {
      assert rows[i] == before[i] && before[i] in before;
      var row := InheritRow(rows[i], controls, before);
      if row.Err? {
        return Some(row.error);
      }
      rows[i] := row.value;
    }
    AllGiven(before);
    return None;
  }

  /** One row of the second pass. */
  method InheritRow(row: RawRow, controls: map<string, RawRow>, ghost rows: seq<RawRow>) returns (r: Result<RawRow, IngestError>)
    requires ControlsOf(controls, rows) && UniqueMetadata(rows) && row in rows
    ensures r.Ok? <==> (row.kind == Transaction ==> CurrencyGiven(row, rows))
    ensures r.Ok? ==> Inherits(row, r.value, rows)
  {
    if row.kind != Transaction {
      return Ok(row);
    }
    if row.settlementID !in controls {
      NoControl(rows, controls, row);
      return Err(MissingMetadata(row.settlementID));
    }
    var control := controls[row.settlementID];
    if row.currency != "" && row.currency != control.currency {
      OtherControl(rows, control, row);
      return Err(CurrencyConflict(row.settlementID));
    }
    return Ok(row.(currency := control.currency));
  }

  lemma AllGiven(rows: seq<RawRow>)
    requires UniqueMetadata(rows)
    requires forall j | 0 <= j < |rows| && rows[j].kind == Transaction :: CurrencyGiven(rows[j], rows)
    ensures Inheritable(rows)
  {
  }

  lemma NoControl(rows: seq<RawRow>, controls: map<string, RawRow>, row: RawRow)
    requires ControlsOf(controls, rows) && row.settlementID !in controls
    ensures !CurrencyGiven(row, rows)
  {
  }

  lemma OneControl(rows: seq<RawRow>, c: RawRow, d: RawRow, settlementID: string)
    requires UniqueMetadata(rows) && c in rows && d in rows
    requires MetadataFor(c, settlementID) && MetadataFor(d, settlementID)
    ensures c == d
  {
    var a :| 0 <= a < |rows| && rows[a] == c;
    var b :| 0 <= b < |rows| && rows[b] == d;
    assert a == b;
  }

  lemma OtherControl(rows: seq<RawRow>, control: RawRow, row: RawRow)
    requires UniqueMetadata(rows) && control in rows && MetadataFor(control, row.settlementID)
    requires row.currency != "" && row.currency != control.currency
    ensures !CurrencyGiven(row, rows)
  {
    forall c | c in rows && MetadataFor(c, row.settlementID)
      ensures c == control
    {
      OneControl(rows, c, control, row.settlementID);
    }
  }

  /** After a successful second pass all transactions of one settlement carry one currency. */
  lemma OneCurrencyPerSettlement(before: seq<RawRow>, after: seq<RawRow>, i: nat, j: nat)
    requires |before| == |after| && UniqueMetadata(before)
    requires forall k | 0 <= k < |before| :: Inherits(before[k], after[k], before)
    requires i < |before| && j < |before| && before[i].kind == Transaction && before[j].kind == Transaction
    requires before[i].settlementID == before[j].settlementID
    ensures after[i].currency == after[j].currency
  {
    assert Inherits(before[i], after[i], before) && Inherits(before[j], after[j], before);
    var c :| c in before && MetadataFor(c, before[i].settlementID) && after[i].currency == c.currency;
    var d :| d in before && MetadataFor(d, before[j].settlementID) && after[j].currency == d.currency;
    OneControl(before, c, d, before[i].settlementID);
  }
}
