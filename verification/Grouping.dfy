/** BuildGroups in internal/reconcile/reconcile.go, as functions of the table built so far. */
module Grouping {
  import opened Outcome
  import opened Domain
  import opened Money
  import opened Sequences
  import opened Encoding
  import opened Engine
  import opened MapRun

  datatype GroupId = GroupId(key: string, settlementID: string, currency: string, scope: Scope)

  function IdOf(m: MappedRow): GroupId {
    GroupId(m.key, m.row.settlementID, m.row.currency, m.row.scope)
  }

  /** The hash-map key of a group. */
  function IdentityKey(id: GroupId): string {
    Encode([id.key, id.settlementID, id.currency, ScopeText(id.scope)])
  }

  /** Distinct identities never share a hash-map key. */
  lemma IdentityKeyInjective(a: GroupId, b: GroupId)
    ensures IdentityKey(a) == IdentityKey(b) <==> a == b
  {
    if IdentityKey(a) == IdentityKey(b) {
      var x := [a.key, a.settlementID, a.currency, ScopeText(a.scope)];
      var y := [b.key, b.settlementID, b.currency, ScopeText(b.scope)];
      EncodeInjective(x, y);
      assert x[0] == y[0] && x[1] == y[1] && x[2] == y[2] && x[3] == y[3];
      ScopeTextInjective(a.scope, b.scope);
    }
  }

  /** One source's side of a group. */
  datatype Side = Side(rows: seq<RawRow>, amount: int64, buckets: Buckets)

  datatype GroupValue = GroupValue(id: GroupId, keyParts: seq<string>, payment: Side, settlement: Side)

  type Table = map<string, GroupValue>

  const EMPTY_SIDE: Side := Side([], 0, map[])

  function NewGroup(m: MappedRow): GroupValue {
    GroupValue(IdOf(m), m.keyParts, EMPTY_SIDE, EMPTY_SIDE)
  }

  function AddToBuckets(b: Buckets, cs: seq<Contribution>): Result<Buckets, MoneyError>
    decreases |cs|
  {
    if cs == [] then Ok(b)
    else if Routes(cs[0]) then
      var v :- Add(BucketAt(b, cs[0].target), cs[0].amount);
      AddToBuckets(b[cs[0].target := v], cs[1..])
    else AddToBuckets(b, cs[1..])
  }

  function AddToSide(side: Side, m: MappedRow): Result<Side, MoneyError> {
    var amount :- Add(side.amount, m.row.reconAmount);
    var buckets :- AddToBuckets(side.buckets, m.contributions);
    Ok(Side(side.rows + [m.row], amount, buckets))
  }

  function AddToGroup(g: GroupValue, m: MappedRow, payment: bool): Result<GroupValue, MoneyError> {
    if payment then
      var side :- AddToSide(g.payment, m);
      Ok(g.(payment := side))
    else
      var side :- AddToSide(g.settlement, m);
      Ok(g.(settlement := side))
  }

  function GroupFor(table: Table, m: MappedRow): GroupValue {
    if IdentityKey(IdOf(m)) in table then table[IdentityKey(IdOf(m))] else NewGroup(m)
  }

  function AddRow(table: Table, m: MappedRow, payment: bool): Result<Table, MoneyError> {
    if m.row.kind == Metadata then Ok(table)
    else
      var g :- AddToGroup(GroupFor(table, m), m, payment);
      Ok(table[IdentityKey(IdOf(m)) := g])
  }

  function AddRows(table: Table, rows: seq<MappedRow>, payment: bool): Result<Table, MoneyError>
    decreases |rows|
  {
    if rows == [] then Ok(table)
    else
      var t :- AddRow(table, rows[0], payment);
      AddRows(t, rows[1..], payment)
  }

  function JoinTable(payments: seq<MappedRow>, settlements: seq<MappedRow>): Result<Table, MoneyError> {
    var t :- AddRows(map[], payments, true);
    AddRows(t, settlements, false)
  }

  // ----- What the table holds

  function InGroup(id: GroupId): MappedRow -> bool {
    (m: MappedRow) => m.row.kind != Metadata && IdOf(m) == id
  }

  function Members(rows: seq<MappedRow>, id: GroupId): seq<MappedRow> {
    Filter(InGroup(id), rows)
  }

  function RowOf(): MappedRow -> RawRow {
    (m: MappedRow) => m.row
  }

  function AmountWeight(): MappedRow -> int {
    (m: MappedRow) => m.row.reconAmount as int
  }

  function BucketWeight(target: string): MappedRow -> int {
    (m: MappedRow) => RowBucket(m, target)
  }

  predicate RoutesTo(m: MappedRow, target: string) {
    exists c :: c in m.contributions && Routes(c) && c.target == target
  }

  /** A bucket map holds exactly the routed targets of some rows, each with its exact sum. */
  ghost predicate ExactBuckets(b: Buckets, members: seq<MappedRow>) {
    && (forall t :: t != "" ==> BucketAt(b, t) == Sum(BucketWeight(t), members))
    && (forall t :: t in b <==> exists m :: m in members && RoutesTo(m, t))
  }

  /** One side of a group holds its members in order, their exact total and their exact buckets. */
  ghost predicate ExactSide(side: Side, members: seq<MappedRow>) {
    && side.rows == Map(RowOf(), members)
    && side.amount == Sum(AmountWeight(), members)
    && ExactBuckets(side.buckets, members)
  }

  predicate Represents(rows: seq<MappedRow>, id: GroupId, keyParts: seq<string>) {
    exists m :: m in Members(rows, id) && m.keyParts == keyParts
  }

  ghost predicate ExactGroup(g: GroupValue, payments: seq<MappedRow>, settlements: seq<MappedRow>) {
    && ExactSide(g.payment, Members(payments, g.id))
    && ExactSide(g.settlement, Members(settlements, g.id))
    && (Represents(payments, g.id, g.keyParts) || Represents(settlements, g.id, g.keyParts))
  }

  ghost predicate ExactTable(table: Table, payments: seq<MappedRow>, settlements: seq<MappedRow>) {
    && (forall k | k in table :: k == IdentityKey(table[k].id) && ExactGroup(table[k], payments, settlements))
    && (forall m | m in payments + settlements && m.row.kind != Metadata :: IdentityKey(IdOf(m)) in table)
  }

  // ----- Adding one row keeps the table exact

  lemma {:induction false} AddToBucketsExact(b: Buckets, cs: seq<Contribution>, t: string)
    requires AddToBuckets(b, cs).Ok?
    ensures t != "" ==> BucketAt(AddToBuckets(b, cs).value, t) == BucketAt(b, t) + Sum(ContributionTo(t), cs)
    ensures t in AddToBuckets(b, cs).value <==> t in b || exists c :: c in cs && Routes(c) && c.target == t
    decreases |cs|
  {
    if cs != [] {
      var b' := if Routes(cs[0]) then b[cs[0].target := Add(BucketAt(b, cs[0].target), cs[0].amount).value] else b;
      AddToBucketsExact(b', cs[1..], t);
      assert cs == [cs[0]] + cs[1..];
    }
  }

  lemma RoutesToSnoc(members: seq<MappedRow>, m: MappedRow, t: string)
    ensures (exists x :: x in members + [m] && RoutesTo(x, t)) <==>
      (exists x :: x in members && RoutesTo(x, t)) || RoutesTo(m, t)
  {
    assert forall x :: x in members + [m] <==> x in members || x == m;
    assert m in members + [m];
    if x :| x in members && RoutesTo(x, t) {
      assert x in members + [m];
    }
  }

  lemma AddToSideExact(side: Side, members: seq<MappedRow>, m: MappedRow)
    requires ExactSide(side, members) && AddToSide(side, m).Ok?
    ensures ExactSide(AddToSide(side, m).value, members + [m])
  {
    var side' := AddToSide(side, m).value;
    SumSnoc(AmountWeight(), members, m);
    forall t
      ensures t != "" ==> BucketAt(side'.buckets, t) == Sum(BucketWeight(t), members + [m])
      ensures t in side'.buckets <==> exists x :: x in members + [m] && RoutesTo(x, t)
    {
      AddToBucketsExact(side.buckets, m.contributions, t);
      SumSnoc(BucketWeight(t), members, m);
      RoutesToSnoc(members, m, t);
    }
  }

  lemma MembersSnoc(rows: seq<MappedRow>, m: MappedRow, id: GroupId)
    ensures Members(rows + [m], id) ==
      Members(rows, id) + if m.row.kind != Metadata && IdOf(m) == id then [m] else []
  {
    FilterSnoc(InGroup(id), rows, m);
  }

  /** A group other than the row's own is untouched by it. */
  lemma OtherGroupExact(g: GroupValue, payments: seq<MappedRow>, settlements: seq<MappedRow>, m: MappedRow)
    requires ExactGroup(g, payments, settlements)
    requires m.row.kind == Metadata || IdOf(m) != g.id
    ensures ExactGroup(g, payments + [m], settlements) && ExactGroup(g, payments, settlements + [m])
  {
    MembersSnoc(payments, m, g.id);
    MembersSnoc(settlements, m, g.id);
    assert Members(payments, g.id) + [] == Members(payments, g.id);
    assert Members(settlements, g.id) + [] == Members(settlements, g.id);
  }

  lemma NewGroupMembers(table: Table, payments: seq<MappedRow>, settlements: seq<MappedRow>, m: MappedRow)
    requires ExactTable(table, payments, settlements) && m.row.kind != Metadata
    requires IdentityKey(IdOf(m)) !in table
    ensures Members(payments, IdOf(m)) == [] && Members(settlements, IdOf(m)) == []
  {
    forall x | x in payments + settlements
      ensures !InGroup(IdOf(m))(x)
    {
    }
    FilterNone(InGroup(IdOf(m)), payments);
    FilterNone(InGroup(IdOf(m)), settlements);
  }

  /** Before a row is added, the group it goes to is exact on both sides, new or not. */
  lemma GroupForExact(table: Table, payments: seq<MappedRow>, settlements: seq<MappedRow>, m: MappedRow)
    requires ExactTable(table, payments, settlements) && m.row.kind != Metadata
    ensures var g := GroupFor(table, m);
      && g.id == IdOf(m)
      && ExactSide(g.payment, Members(payments, g.id)) && ExactSide(g.settlement, Members(settlements, g.id))
      && (g == NewGroup(m) || Represents(payments, g.id, g.keyParts) || Represents(settlements, g.id, g.keyParts))
  {
    if IdentityKey(IdOf(m)) in table {
      IdentityKeyInjective(IdOf(m), table[IdentityKey(IdOf(m))].id);
    } else {
      NewGroupMembers(table, payments, settlements, m);
      assert Map(RowOf(), []) == [];
    }
  }

  lemma OwnGroupExact(table: Table, payments: seq<MappedRow>, settlements: seq<MappedRow>, m: MappedRow, payment: bool)
    requires ExactTable(table, payments, settlements) && m.row.kind != Metadata
    requires AddToGroup(GroupFor(table, m), m, payment).Ok?
    ensures var g := AddToGroup(GroupFor(table, m), m, payment).value;
      g.id == IdOf(m) &&
      if payment then ExactGroup(g, payments + [m], settlements) else ExactGroup(g, payments, settlements + [m])
  {
    var id := IdOf(m);
    var g := GroupFor(table, m);
    GroupForExact(table, payments, settlements, m);
    MembersSnoc(payments, m, id);
    MembersSnoc(settlements, m, id);
    if payment {
      AddToSideExact(g.payment, Members(payments, id), m);
      KeepsRepresentative(g, payments, settlements, m, payments + [m], settlements);
    } else {
      AddToSideExact(g.settlement, Members(settlements, id), m);
      KeepsRepresentative(g, payments, settlements, m, payments, settlements + [m]);
    }
  }

  lemma KeepsRepresentative(g: GroupValue, payments: seq<MappedRow>, settlements: seq<MappedRow>, m: MappedRow,
      payments': seq<MappedRow>, settlements': seq<MappedRow>)
    requires forall x | x in Members(payments, g.id) :: x in Members(payments', g.id)
    requires forall x | x in Members(settlements, g.id) :: x in Members(settlements', g.id)
    requires m in Members(payments', g.id) || m in Members(settlements', g.id)
    requires g == NewGroup(m) || Represents(payments, g.id, g.keyParts) || Represents(settlements, g.id, g.keyParts)
    ensures Represents(payments', g.id, g.keyParts) || Represents(settlements', g.id, g.keyParts)
  {
  }

  lemma AddRowExact(table: Table, payments: seq<MappedRow>, settlements: seq<MappedRow>, m: MappedRow, payment: bool)
    requires ExactTable(table, payments, settlements) && AddRow(table, m, payment).Ok?
    ensures
      if payment then ExactTable(AddRow(table, m, payment).value, payments + [m], settlements)
      else ExactTable(AddRow(table, m, payment).value, payments, settlements + [m])
  {
    var table' := AddRow(table, m, payment).value;
    var payments' := if payment then payments + [m] else payments;
    var settlements' := if payment then settlements else settlements + [m];
    if m.row.kind != Metadata {
      OwnGroupExact(table, payments, settlements, m, payment);
    }
    forall k | k in table'
      ensures k == IdentityKey(table'[k].id) && ExactGroup(table'[k], payments', settlements')
    {
      if m.row.kind == Metadata || k != IdentityKey(IdOf(m)) {
        IdentityKeyInjective(table[k].id, IdOf(m));
        OtherGroupExact(table[k], payments, settlements, m);
      }
    }
    assert forall x | x in payments' + settlements' :: x in payments + settlements || x == m;
  }

  lemma {:induction false} AddRowsExact(table: Table, payments: seq<MappedRow>, settlements: seq<MappedRow>, rows: seq<MappedRow>, payment: bool)
    requires ExactTable(table, payments, settlements) && AddRows(table, rows, payment).Ok?
    ensures
      if payment then ExactTable(AddRows(table, rows, payment).value, payments + rows, settlements)
      else ExactTable(AddRows(table, rows, payment).value, payments, settlements + rows)
    decreases |rows|
  {
    if rows == [] {
      assert payments + rows == payments && settlements + rows == settlements;
    } else {
      AddRowExact(table, payments, settlements, rows[0], payment);
      var t := AddRow(table, rows[0], payment).value;
      if payment {
        AddRowsExact(t, payments + [rows[0]], settlements, rows[1..], payment);
        assert payments + [rows[0]] + rows[1..] == payments + rows;
      } else {
        AddRowsExact(t, payments, settlements + [rows[0]], rows[1..], payment);
        assert settlements + [rows[0]] + rows[1..] == settlements + rows;
      }
    }
  }

  /** The joined table is exact: its groups are the classes of (key, settlement, currency, scope), and each
      holds exactly its rows, their sums and their buckets. */
  lemma JoinTableExact(payments: seq<MappedRow>, settlements: seq<MappedRow>)
    requires JoinTable(payments, settlements).Ok?
    ensures ExactTable(JoinTable(payments, settlements).value, payments, settlements)
  {
    AddRowsExact(map[], [], [], payments, true);
    assert [] + payments == payments && [] + settlements == settlements;
    var t := AddRows(map[], payments, true).value;
    AddRowsExact(t, payments, [], settlements, false);
  }

  /** The running bucket total after contribution `j`, on top of what the group already held. */
  predicate BucketFits(start: int, cs: seq<Contribution>, j: nat)
    requires j < |cs|
  {
    Routes(cs[j]) ==> InInt64(start + Sum(ContributionTo(cs[j].target), cs[..j + 1]))
  }

  /** Adding `m` after the rows `before` of its source keeps its group's amount and buckets in 64 bits,
      contribution by contribution. */
  predicate RowFits(before: seq<MappedRow>, m: MappedRow) {
    m.row.kind == Metadata ||
    (var members := Members(before, IdOf(m));
     && InInt64(Sum(AmountWeight(), members) + m.row.reconAmount)
     && forall j | 0 <= j < |m.contributions| ::
          BucketFits(Sum(BucketWeight(m.contributions[j].target), members), m.contributions, j))
  }

  predicate SideFits(rows: seq<MappedRow>) {
    forall i | 0 <= i < |rows| :: RowFits(rows[..i], rows[i])
  }

  predicate AllBucketsFit(b: Buckets, cs: seq<Contribution>) {
    forall j | 0 <= j < |cs| :: BucketFits(BucketAt(b, cs[j].target), cs, j)
  }

  lemma {:induction false} AddToBucketsOkIff(b: Buckets, cs: seq<Contribution>)
    ensures AddToBuckets(b, cs).Ok? <==> AllBucketsFit(b, cs)
    decreases |cs|
  {
    if cs != [] {
      var c, rest := cs[0], cs[1..];
      assert cs[..1] == [c];
      assert Sum(ContributionTo(c.target), cs[..1]) == c.amount;
      if !Routes(c) || InInt64(BucketAt(b, c.target) + c.amount) {
        var b' := if Routes(c) then b[c.target := BucketAt(b, c.target) + c.amount] else b;
        AddToBucketsOkIff(b', rest);
        forall j | 0 <= j < |rest|
          ensures BucketFits(BucketAt(b', rest[j].target), rest, j) == BucketFits(BucketAt(b, cs[j + 1].target), cs, j + 1)
        {
          assert cs[..j + 2][1..] == rest[..j + 1];
        }
        TailFits(b, b', cs);
      } else {
        assert !BucketFits(BucketAt(b, c.target), cs, 0);
      }
    }
  }

  lemma TailFits(b: Buckets, b': Buckets, cs: seq<Contribution>)
    requires cs != [] && BucketFits(BucketAt(b, cs[0].target), cs, 0)
    requires forall j | 0 <= j < |cs| - 1 ::
      BucketFits(BucketAt(b', cs[1..][j].target), cs[1..], j) == BucketFits(BucketAt(b, cs[j + 1].target), cs, j + 1)
    ensures AllBucketsFit(b, cs) <==> AllBucketsFit(b', cs[1..])
  {
    if AllBucketsFit(b, cs) {
      forall j | 0 <= j < |cs[1..]|
        ensures BucketFits(BucketAt(b', cs[1..][j].target), cs[1..], j)
      {
        assert BucketFits(BucketAt(b, cs[j + 1].target), cs, j + 1);
      }
    }
    if AllBucketsFit(b', cs[1..]) {
      forall j | 0 <= j < |cs|
        ensures BucketFits(BucketAt(b, cs[j].target), cs, j)
      {
        if j > 0 {
          assert BucketFits(BucketAt(b', cs[1..][j - 1].target), cs[1..], j - 1);
        }
      }
    }
  }

  lemma AddToSideOkIff(side: Side, rows: seq<MappedRow>, m: MappedRow)
    requires ExactSide(side, Members(rows, IdOf(m))) && m.row.kind != Metadata
    ensures AddToSide(side, m).Ok? <==> RowFits(rows, m)
  {
    AddToBucketsOkIff(side.buckets, m.contributions);
    forall j | 0 <= j < |m.contributions|
      ensures BucketFits(BucketAt(side.buckets, m.contributions[j].target), m.contributions, j) ==
        BucketFits(Sum(BucketWeight(m.contributions[j].target), Members(rows, IdOf(m))), m.contributions, j)
    {
    }
  }

  lemma AddRowOkIff(table: Table, payments: seq<MappedRow>, settlements: seq<MappedRow>, m: MappedRow, payment: bool)
    requires ExactTable(table, payments, settlements)
    ensures AddRow(table, m, payment).Ok? <==> RowFits(if payment then payments else settlements, m)
  {
    if m.row.kind != Metadata {
      GroupForExact(table, payments, settlements, m);
      var g := GroupFor(table, m);
      AddToSideOkIff(if payment then g.payment else g.settlement, if payment then payments else settlements, m);
    }
  }

  /** The rows from position `n` on fit, each after everything before it. */
  predicate FitsFrom(rows: seq<MappedRow>, n: nat) {
    forall i | n <= i < |rows| :: RowFits(rows[..i], rows[i])
  }

  lemma FitsFromStep(rows: seq<MappedRow>, n: nat)
    requires n < |rows|
    ensures FitsFrom(rows, n) <==> RowFits(rows[..n], rows[n]) && FitsFrom(rows, n + 1)
  {
  }

  /** The table is exact for the rows `own` of the side being added and the rows `others` of the other side. */
  ghost predicate ExactFor(table: Table, own: seq<MappedRow>, others: seq<MappedRow>, payment: bool) {
    if payment then ExactTable(table, own, others) else ExactTable(table, others, own)
  }

  lemma AddRowFor(table: Table, own: seq<MappedRow>, others: seq<MappedRow>, m: MappedRow, payment: bool)
    requires ExactFor(table, own, others, payment)
    ensures AddRow(table, m, payment).Ok? <==> RowFits(own, m)
    ensures AddRow(table, m, payment).Ok? ==> ExactFor(AddRow(table, m, payment).value, own + [m], others, payment)
  {
    if payment {
      AddRowOkIff(table, own, others, m, payment);
    } else {
      AddRowOkIff(table, others, own, m, payment);
    }
    if AddRow(table, m, payment).Ok? {
      if payment {
        AddRowExact(table, own, others, m, payment);
      } else {
        AddRowExact(table, others, own, m, payment);
      }
    }
  }

  lemma {:induction false} AddRowsOkIff(table: Table, others: seq<MappedRow>, rows: seq<MappedRow>, n: nat, payment: bool)
    requires n <= |rows|
    requires ExactFor(table, rows[..n], others, payment)
    ensures AddRows(table, rows[n..], payment).Ok? <==> FitsFrom(rows, n)
    decreases |rows| - n
  {
    if n < |rows| {
      var m := rows[n];
      assert rows[..n + 1] == rows[..n] + [m];
      assert rows[n..][0] == m && rows[n..][1..] == rows[n + 1..];
      AddRowFor(table, rows[..n], others, m, payment);
      FitsFromStep(rows, n);
      if AddRow(table, m, payment).Ok? {
        AddRowsOkIff(AddRow(table, m, payment).value, others, rows, n + 1, payment);
      }
    }
  }

  /** BuildGroups succeeds exactly when, in input order, every running group amount and every running group
      bucket of each source stays in 64 bits. */
  lemma JoinTableOkIff(payments: seq<MappedRow>, settlements: seq<MappedRow>)
    ensures JoinTable(payments, settlements).Ok? <==> SideFits(payments) && SideFits(settlements)
  {
    assert payments[..0] == [] && payments[0..] == payments;
    assert settlements[..0] == [] && settlements[0..] == settlements;
    AddRowsOkIff(map[], [], payments, 0, true);
    if AddRows(map[], payments, true).Ok? {
      AddRowsExact(map[], [], [], payments, true);
      assert [] + payments == payments;
      AddRowsOkIff(AddRows(map[], payments, true).value, payments, settlements, 0, false);
    }
  }
}
