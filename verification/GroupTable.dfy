/** BuildGroups in internal/reconcile/reconcile.go as it runs: a hash map of mutable groups, filled row by row
    and listed in whatever order the map yields. */
module GroupTable {
  import opened Text
  import opened Outcome
  import opened Domain
  import opened Money
  import opened Sequences
  import opened Grouping
  import opened Groups
  import opened GroupOrders

  class Group {
    const id: GroupId
    const keyParts: seq<string>
    var paymentRows: seq<RawRow>
    var paymentAmount: int64
    var paymentBuckets: Buckets
    var settlementRows: seq<RawRow>
    var settlementAmount: int64
    var settlementBuckets: Buckets

    constructor (id: GroupId, keyParts: seq<string>)
      ensures Value() == GroupValue(id, keyParts, EMPTY_SIDE, EMPTY_SIDE)
    {
      this.id, this.keyParts := id, keyParts;
      paymentRows, paymentAmount, paymentBuckets := [], 0, map[];
      settlementRows, settlementAmount, settlementBuckets := [], 0, map[];
    }

    function Value(): GroupValue
      reads this
    {
      GroupValue(id, keyParts, Side(paymentRows, paymentAmount, paymentBuckets),
        Side(settlementRows, settlementAmount, settlementBuckets))
    }

    method AddPayment(m: MappedRow) returns (error: Option<MoneyError>)
      modifies this
      ensures error.None? <==> AddToGroup(old(Value()), m, true).Ok?
      ensures error.None? ==> Value() == AddToGroup(old(Value()), m, true).value
    {
      paymentRows := paymentRows + [m.row];
      var amount := Add(paymentAmount, m.row.reconAmount);
      if amount.Err? {
        return Some(amount.error);
      }
      paymentAmount := amount.value;
      error, paymentBuckets := AddContributions(paymentBuckets, m.contributions);
    }

    method AddSettlement(m: MappedRow) returns (error: Option<MoneyError>)
      modifies this
      ensures error.None? <==> AddToGroup(old(Value()), m, false).Ok?
      ensures error.None? ==> Value() == AddToGroup(old(Value()), m, false).value
    {
      settlementRows := settlementRows + [m.row];
      var amount := Add(settlementAmount, m.row.reconAmount);
      if amount.Err? {
        return Some(amount.error);
      }
      settlementAmount := amount.value;
      error, settlementBuckets := AddContributions(settlementBuckets, m.contributions);
    }

    method AddMember(m: MappedRow, payment: bool) returns (error: Option<MoneyError>)
      modifies this
      ensures error.None? <==> AddToGroup(old(Value()), m, payment).Ok?
      ensures error.None? ==> Value() == AddToGroup(old(Value()), m, payment).value
    {
      if payment {
        error := AddPayment(m);
      } else {
        error := AddSettlement(m);
      }
    }

    /** Puts the rows of both sides in line order, in place. */
    method SortRows()
      modifies this
      ensures Finished(Value(), old(Value()))
    {
      LineOrder();
      SortSorts(paymentRows, LineLess);
      SortSorts(settlementRows, LineLess);
      paymentRows := Sort(paymentRows, LineLess);
      settlementRows := Sort(settlementRows, LineLess);
    }
  }

  /** The contribution loop of one side. */
  method AddContributions(buckets: Buckets, cs: seq<Contribution>) returns (error: Option<MoneyError>, b: Buckets)
    ensures error.None? <==> AddToBuckets(buckets, cs).Ok?
    ensures error.None? ==> b == AddToBuckets(buckets, cs).value
  {
    b := buckets;
    for i := 0 to |cs|
      invariant AddToBuckets(b, cs[i..]) == AddToBuckets(buckets, cs)
    {
      assert cs[i..][0] == cs[i] && cs[i..][1..] == cs[i + 1..];
      if cs[i].amount != 0 && cs[i].target != "" {
        var v := Add(BucketAt(b, cs[i].target), cs[i].amount);
        if v.Err? {
          return Some(v.error), b;
        }
        b := b[cs[i].target := v.value];
      }
    }
    return None, b;
  }

  lemma LineOrder()
    ensures StrictWeakOrder(LineLess)
  {
  }

  // ----- The order of the list

  lemma GroupLessTransitive(a: GroupValue, b: GroupValue, c: GroupValue)
    requires GroupLess(a, b) && GroupLess(b, c)
    ensures GroupLess(a, c)
  {
    if GroupRank(a) == GroupRank(b) == GroupRank(c) {
      if a.id.settlementID != b.id.settlementID && b.id.settlementID != c.id.settlementID {
        LessTransitive(a.id.settlementID, b.id.settlementID, c.id.settlementID);
        LessIrreflexive(a.id.settlementID);
      } else if a.id.settlementID == b.id.settlementID == c.id.settlementID {
        CurrencyTransitive(a, b, c);
      }
    }
  }

  lemma CurrencyTransitive(a: GroupValue, b: GroupValue, c: GroupValue)
    requires GroupRank(a) == GroupRank(b) == GroupRank(c) && a.id.settlementID == b.id.settlementID == c.id.settlementID
    requires GroupLess(a, b) && GroupLess(b, c)
    ensures GroupLess(a, c)
  {
    if a.id.currency != b.id.currency && b.id.currency != c.id.currency {
      LessTransitive(a.id.currency, b.id.currency, c.id.currency);
      LessIrreflexive(a.id.currency);
    } else if a.id.currency == b.id.currency == c.id.currency {
      ScopeTransitive(a, b, c);
    }
  }

  lemma ScopeTransitive(a: GroupValue, b: GroupValue, c: GroupValue)
    requires GroupRank(a) == GroupRank(b) == GroupRank(c) && a.id.settlementID == b.id.settlementID == c.id.settlementID
    requires a.id.currency == b.id.currency == c.id.currency
    requires GroupLess(a, b) && GroupLess(b, c)
    ensures GroupLess(a, c)
  {
    if a.id.scope != b.id.scope && b.id.scope != c.id.scope {
      LessTransitive(ScopeText(a.id.scope), ScopeText(b.id.scope), ScopeText(c.id.scope));
      LessIrreflexive(ScopeText(a.id.scope));
    } else if a.id.scope == b.id.scope == c.id.scope {
      LessTransitive(a.id.key, b.id.key, c.id.key);
    }
  }

  /** Groups the order does not tell apart are placed alike. */
  lemma GroupLessTotal(a: GroupValue, b: GroupValue)
    ensures GroupLess(a, b) || GroupLess(b, a) || (GroupRank(a) == GroupRank(b) && a.id == b.id)
  {
    LessTotal(a.id.settlementID, b.id.settlementID);
    LessTotal(a.id.currency, b.id.currency);
    LessTotal(ScopeText(a.id.scope), ScopeText(b.id.scope));
    LessTotal(a.id.key, b.id.key);
    if a.id.scope != b.id.scope && ScopeText(a.id.scope) == ScopeText(b.id.scope) {
      ScopeTextInjective(a.id.scope, b.id.scope);
    }
  }

  lemma GroupOrder()
    ensures StrictWeakOrder(GroupLess)
  {
    forall x
      ensures !GroupLess(x, x)
    {
      LessIrreflexive(x.id.key);
    }
    forall x, y, z | GroupLess(x, y) && GroupLess(y, z)
      ensures GroupLess(x, z)
    {
      GroupLessTransitive(x, y, z);
    }
    forall x, y, z | !GroupLess(x, y) && !GroupLess(y, z)
      ensures !GroupLess(x, z)
    {
      GroupLessTotal(x, y);
      if GroupLess(x, z) && GroupLess(y, x) {
        GroupLessTransitive(y, x, z);
      }
    }
  }

  // ----- The hash map

  lemma AddRowUpdates(table: Table, m: MappedRow, payment: bool)
    requires m.row.kind != Metadata
    ensures var g := AddToGroup(GroupFor(table, m), m, payment);
      && (AddRow(table, m, payment).Ok? <==> g.Ok?)
      && (g.Ok? ==> AddRow(table, m, payment).value == table[IdentityKey(IdOf(m)) := g.value])
  {
  }

  class GroupMap {
    var groups: map<string, Group>

    constructor ()
      ensures Valid() && Contents() == map[] && groups == map[]
    {
      groups := map[];
    }

    /** No two keys share a group object. */
    ghost predicate Valid()
      reads this
    {
      forall j, k | j in groups && k in groups && j != k :: groups[j] != groups[k]
    }

    ghost function Contents(): Table
      reads this, groups.Values
    {
      map k | k in groups :: groups[k].Value()
    }

    /** The group of a row, made when the map has none. */
    method FindOrMake(m: MappedRow) returns (g: Group)
      requires Valid()
      modifies this
      ensures Valid() && fresh(groups.Values - old(groups.Values))
      ensures IdentityKey(IdOf(m)) in groups && groups[IdentityKey(IdOf(m))] == g
      ensures Contents() == old(Contents())[IdentityKey(IdOf(m)) := GroupFor(old(Contents()), m)]
    {
      var key := IdentityKey(IdOf(m));
      if key !in groups {
        var made := new Group(IdOf(m), m.keyParts);
        groups := groups[key := made];
      }
      g := groups[key];
    }

    twostate lemma OneGroupChanged(key: string)
      requires Valid() && unchanged(this) && key in groups
      requires forall k | k in groups && k != key :: unchanged(groups[k])
      ensures Contents() == old(Contents())[key := groups[key].Value()]
    {
    }

    /** The closure add: finds or makes the group of a row and updates it in place. */
    method AddMapped(m: MappedRow, payment: bool) returns (error: Option<MoneyError>)
      requires Valid()
      modifies this, groups.Values
      ensures Valid() && fresh(groups.Values - old(groups.Values))
      ensures error.None? <==> AddRow(old(Contents()), m, payment).Ok?
      ensures error.None? ==> Contents() == AddRow(old(Contents()), m, payment).value
    {
      if m.row.kind == Metadata {
        return None;
      }
      var g := FindOrMake(m);
      assert g.Value() == GroupFor(old(Contents()), m) by {
        assert Contents()[IdentityKey(IdOf(m))] == g.Value();
      }
      AddRowUpdates(old(Contents()), m, payment);
      label Found:
      error := g.AddMember(m, payment);
      OneGroupChanged@Found(IdentityKey(IdOf(m)));
    }

    method AddAll(rows: seq<MappedRow>, payment: bool) returns (error: Option<MoneyError>)
      requires Valid()
      modifies this, groups.Values
      ensures Valid() && fresh(groups.Values - old(groups.Values))
      ensures error.None? <==> AddRows(old(Contents()), rows, payment).Ok?
      ensures error.None? ==> Contents() == AddRows(old(Contents()), rows, payment).value
    {
      for i := 0 to |rows|
        invariant Valid() && fresh(groups.Values - old(groups.Values))
        invariant AddRows(Contents(), rows[i..], payment) == AddRows(old(Contents()), rows, payment)
      {
        assert rows[i..][0] == rows[i] && rows[i..][1..] == rows[i + 1..];
        error := AddMapped(rows[i], payment);
        if error.Some? {
          return;
        }
      }
      return None;
    }

    /** Lists the groups in any order of the keys, sorting the rows of each in place. */
    method ListGroups() returns (out: seq<GroupValue>)
      requires Valid() && forall k | k in groups :: k == IdentityKey(groups[k].id)
      modifies groups.Values
      ensures Listed(out, old(Contents()), {})
    {
      out := [];
      ghost var table := Contents();
      var all := groups;
      var rest := all.Keys;
      while rest != {}
        invariant rest <= all.Keys
        invariant forall k | k in rest :: all[k].Value() == table[k]
        invariant Listed(out, table, rest)
      {
        var k :| k in rest;
        var g := all[k];
        g.SortRows();
        assert forall j | j in rest && j != k :: all[j].Value() == table[j];
        ListedSnoc(out, table, rest, k, g.Value());
        out := out + [g.Value()];
        rest := rest - {k};
      }
    }
  }

  /** `out` lists, finished, the groups of the table whose keys are not in `rest`, each once. */
  ghost predicate Listed(out: seq<GroupValue>, table: Table, rest: set<string>) {
    && DistinctIds(out)
    && (forall g | g in out ::
          IdentityKey(g.id) in table && IdentityKey(g.id) !in rest && Finished(g, table[IdentityKey(g.id)]))
    && (forall k | k in table && k !in rest :: exists g :: g in out && IdentityKey(g.id) == k)
  }

  lemma ListedSnoc(out: seq<GroupValue>, table: Table, rest: set<string>, k: string, v: GroupValue)
    requires Listed(out, table, rest) && k in rest && k in table
    requires Finished(v, table[k]) && IdentityKey(v.id) == k
    ensures Listed(out + [v], table, rest - {k})
  {
    var out' := out + [v];
    forall i, j | 0 <= i < j < |out'|
      ensures out'[i].id != out'[j].id
    {
      assert i < |out| ==> out[i] in out;
    }
    forall key | key in table && key !in rest - {k}
      ensures exists g :: g in out' && IdentityKey(g.id) == key
    {
      if key == k {
        assert v in out';
      } else {
        var g :| g in out && IdentityKey(g.id) == key;
        assert g in out';
      }
    }
  }

  /** Sorting the list for the report. */
  lemma SortedLists(out: seq<GroupValue>, table: Table)
    requires Listed(out, table, {})
    ensures Lists(Sort(out, GroupLess), table)
  {
    var sorted := Sort(out, GroupLess);
    GroupOrder();
    SortSorts(out, GroupLess);
    forall g
      ensures g in sorted <==> g in out
    {
      assert g in sorted <==> g in multiset(sorted);
      assert g in out <==> g in multiset(out);
    }
    SortedDistinct(out, sorted);
  }

  lemma SortedDistinct(a: seq<GroupValue>, b: seq<GroupValue>)
    requires DistinctIds(a) && multiset(a) == multiset(b)
    ensures DistinctIds(b)
  {
    forall i, j | 0 <= i < j < |b|
      ensures b[i].id != b[j].id
    {
      assert b[i] in multiset(a) && b[j] in multiset(a);
      var p :| 0 <= p < |a| && a[p] == b[i];
      var q :| 0 <= q < |a| && a[q] == b[j];
      CountedTwice(b, i, j);
      CountDistinct(a, b[i]);
    }
  }

  /** BuildGroups: it succeeds exactly when every running total fits in 64 bits, which holds in any order of the
      rows when each row fits at both extremes, and then it returns the full outer join, whatever order the map
      yields its groups in. */
  method BuildGroups(payments: seq<MappedRow>, settlements: seq<MappedRow>) returns (r: Result<seq<GroupValue>, MoneyError>)
    ensures r.Ok? <==> SideFits(payments) && SideFits(settlements)
    ensures AlwaysFits(payments) && AlwaysFits(settlements) ==> r.Ok?
    ensures r.Ok? ==> IsGrouping(payments, settlements, r.value)
  {
    EveryOrderFitsIff(payments);
    EveryOrderFitsIff(settlements);
    JoinTableOkIff(payments, settlements);
    var table := new GroupMap();
    var error := table.AddAll(payments, true);
    if error.Some? {
      return Err(error.value);
    }
    error := table.AddAll(settlements, false);
    if error.Some? {
      return Err(error.value);
    }
    ghost var joined := table.Contents();
    JoinTableExact(payments, settlements);
    forall k | k in table.groups
      ensures k == IdentityKey(table.groups[k].id)
    {
      assert joined[k] == table.groups[k].Value();
    }
    var out := table.ListGroups();
    SortedLists(out, joined);
    ListingIsGrouping(payments, settlements, Sort(out, GroupLess));
    return Ok(Sort(out, GroupLess));
  }
}
