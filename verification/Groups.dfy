/** The list BuildGroups returns: what it is for every pair of inputs, and that input order and map order
    do not show in it. */
module Groups {
  import opened Text
  import opened Domain
  import opened Sequences
  import opened Grouping

  function GroupRank(g: GroupValue): nat {
    if g.payment.rows != [] && g.settlement.rows != [] then 0
    else if g.payment.rows != [] then 1
    else 2
  }

  predicate GroupLess(a: GroupValue, b: GroupValue) {
    if GroupRank(a) != GroupRank(b) then GroupRank(a) < GroupRank(b)
    else if a.id.settlementID != b.id.settlementID then Less(a.id.settlementID, b.id.settlementID)
    else if a.id.currency != b.id.currency then Less(a.id.currency, b.id.currency)
    else if a.id.scope != b.id.scope then Less(ScopeText(a.id.scope), ScopeText(b.id.scope))
    else Less(a.id.key, b.id.key)
  }

  predicate LineLess(a: RawRow, b: RawRow) {
    a.lineStart < b.lineStart
  }

  /** `g` is the table entry `v` with the rows of each side put in line order. */
  ghost predicate Finished(g: GroupValue, v: GroupValue) {
    && g == v.(payment := v.payment.(rows := g.payment.rows), settlement := v.settlement.(rows := g.settlement.rows))
    && IsSortOf(g.payment.rows, v.payment.rows, LineLess)
    && IsSortOf(g.settlement.rows, v.settlement.rows, LineLess)
  }

  predicate DistinctIds(groups: seq<GroupValue>) {
    forall i, j | 0 <= i < j < |groups| :: groups[i].id != groups[j].id
  }

  /** `groups` lists the whole table, finished and in report order. */
  ghost predicate Lists(groups: seq<GroupValue>, table: Table) {
    && DistinctIds(groups) && SortedBy(groups, GroupLess)
    && (forall g | g in groups :: IdentityKey(g.id) in table && Finished(g, table[IdentityKey(g.id)]))
    && (forall k | k in table :: exists g :: g in groups && IdentityKey(g.id) == k)
  }

  /** The rows of one side, as the group reports them. */
  ghost predicate ReportsSide(side: Side, members: seq<MappedRow>) {
    && IsSortOf(side.rows, Map(RowOf(), members), LineLess)
    && side.amount == Sum(AmountWeight(), members)
    && ExactBuckets(side.buckets, members)
  }

  ghost predicate ReportsGroup(g: GroupValue, payments: seq<MappedRow>, settlements: seq<MappedRow>) {
    && ReportsSide(g.payment, Members(payments, g.id))
    && ReportsSide(g.settlement, Members(settlements, g.id))
    && (Represents(payments, g.id, g.keyParts) || Represents(settlements, g.id, g.keyParts))
  }

  /** The full outer join: one group for each class of (key, settlement, currency, scope) that has a row,
      holding exactly the rows of that class, in line order, with their exact sums; in report order. */
  ghost predicate IsGrouping(payments: seq<MappedRow>, settlements: seq<MappedRow>, groups: seq<GroupValue>) {
    && DistinctIds(groups) && SortedBy(groups, GroupLess)
    && (forall g | g in groups :: ReportsGroup(g, payments, settlements))
    && (forall m | m in payments + settlements && m.row.kind != Metadata :: exists g :: g in groups && g.id == IdOf(m))
  }

  lemma ListingIsGrouping(payments: seq<MappedRow>, settlements: seq<MappedRow>, groups: seq<GroupValue>)
    requires JoinTable(payments, settlements).Ok?
    requires Lists(groups, JoinTable(payments, settlements).value)
    ensures IsGrouping(payments, settlements, groups)
  {
    JoinTableExact(payments, settlements);
    var table := JoinTable(payments, settlements).value;
    forall g | g in groups
      ensures ReportsGroup(g, payments, settlements)
    {
      var v := table[IdentityKey(g.id)];
      assert ExactGroup(v, payments, settlements);
      assert Finished(g, v);
    }
    forall m | m in payments + settlements && m.row.kind != Metadata
      ensures exists g :: g in groups && g.id == IdOf(m)
    {
      var g :| g in groups && IdentityKey(g.id) == IdentityKey(IdOf(m));
      IdentityKeyInjective(g.id, IdOf(m));
    }
  }

  /** A row of either source is a member of a group on the side of its source. */
  predicate MemberOf(payments: seq<MappedRow>, settlements: seq<MappedRow>, m: MappedRow, id: GroupId) {
    m in Members(payments, id) || m in Members(settlements, id)
  }

  /** Every transaction row of either source is a member of exactly one group, on each side it occurs in. */
  lemma OneGroupPerRow(payments: seq<MappedRow>, settlements: seq<MappedRow>, groups: seq<GroupValue>, m: MappedRow)
    requires IsGrouping(payments, settlements, groups)
    requires m in payments + settlements && m.row.kind != Metadata
    ensures exists i | 0 <= i < |groups| :: (
      && (m in payments ==> m in Members(payments, groups[i].id))
      && (m in settlements ==> m in Members(settlements, groups[i].id))
      && forall j | 0 <= j < |groups| :: MemberOf(payments, settlements, m, groups[j].id) <==> i == j)
  {
    var g :| g in groups && g.id == IdOf(m);
    var i :| 0 <= i < |groups| && groups[i] == g;
    forall j | 0 <= j < |groups|
      ensures MemberOf(payments, settlements, m, groups[j].id) <==> i == j
    {
      assert MemberOf(payments, settlements, m, groups[j].id) <==> groups[j].id == groups[i].id;
    }
    assert (m in payments ==> m in Members(payments, groups[i].id)) && (m in settlements ==> m in Members(settlements, groups[i].id));
  }

  // ----- Independence of input order and map order

  /** Line numbers identify the transaction rows of one source. */
  predicate DistinctLines(rows: seq<MappedRow>) {
    forall m, n | m in rows && n in rows :: m.row.lineStart == n.row.lineStart ==> m.row == n.row
  }

  /** Equal keys come from equal key parts, as they do for all rows mapped without error. */
  predicate KeyGivesParts(rows: seq<MappedRow>) {
    forall m, n | m in rows && n in rows && m.row.kind != Metadata && n.row.kind != Metadata ::
      m.key == n.key ==> m.keyParts == n.keyParts
  }

  lemma SameSide(side: Side, members: seq<MappedRow>, side': Side, members': seq<MappedRow>)
    requires ReportsSide(side, members) && ReportsSide(side', members')
    requires multiset(members) == multiset(members') && DistinctLines(members)
    ensures side == side'
  {
    MapMultiset(RowOf(), members, members');
    forall x, y | x in side.rows && y in side.rows && !LineLess(x, y) && !LineLess(y, x)
      ensures x == y
    {
      assert x in multiset(side.rows) && y in multiset(side.rows);
      assert x in Map(RowOf(), members) && y in Map(RowOf(), members);
    }
    SortedUnique(side.rows, side'.rows, LineLess);
    SumPermutation(AmountWeight(), members, members');
    SameBuckets(side.buckets, members, side'.buckets, members');
  }

  lemma SameBuckets(b: Buckets, members: seq<MappedRow>, b': Buckets, members': seq<MappedRow>)
    requires ExactBuckets(b, members) && ExactBuckets(b', members')
    requires multiset(members) == multiset(members')
    ensures b == b'
  {
    assert forall m :: m in members <==> m in multiset(members);
    assert forall m :: m in members' <==> m in multiset(members');
    forall t
      ensures t in b <==> t in b'
      ensures t in b ==> b[t] == b'[t]
    {
      SumPermutation(BucketWeight(t), members, members');
      if t in b {
        var m :| m in members && RoutesTo(m, t);
        assert t != "";
        assert BucketAt(b, t) == BucketAt(b', t);
      }
    }
  }

  lemma MembersPermutation(rows: seq<MappedRow>, rows': seq<MappedRow>, id: GroupId)
    requires multiset(rows) == multiset(rows')
    ensures multiset(Members(rows, id)) == multiset(Members(rows', id))
  {
    FilterPermutation(InGroup(id), rows, rows');
  }

  lemma SameParts(payments: seq<MappedRow>, settlements: seq<MappedRow>, payments': seq<MappedRow>, settlements': seq<MappedRow>,
      id: GroupId, parts: seq<string>, parts': seq<string>)
    requires multiset(payments) == multiset(payments') && multiset(settlements) == multiset(settlements')
    requires KeyGivesParts(payments + settlements)
    requires Represents(payments, id, parts) || Represents(settlements, id, parts)
    requires Represents(payments', id, parts') || Represents(settlements', id, parts')
    ensures parts == parts'
  {
    assert forall m :: m in payments' ==> m in multiset(payments');
    assert forall m :: m in settlements' ==> m in multiset(settlements');
    var m :| m in payments + settlements && InGroup(id)(m) && m.keyParts == parts;
    var n :| n in payments + settlements && InGroup(id)(n) && n.keyParts == parts';
  }

  /** Two groups of one identity, reported for rearranged inputs, are equal. */
  lemma SameGroup(payments: seq<MappedRow>, settlements: seq<MappedRow>, g: GroupValue,
      payments': seq<MappedRow>, settlements': seq<MappedRow>, g': GroupValue)
    requires multiset(payments) == multiset(payments') && multiset(settlements) == multiset(settlements')
    requires DistinctLines(payments) && DistinctLines(settlements) && KeyGivesParts(payments + settlements)
    requires ReportsGroup(g, payments, settlements) && ReportsGroup(g', payments', settlements') && g.id == g'.id
    ensures g == g'
  {
    MembersPermutation(payments, payments', g.id);
    MembersPermutation(settlements, settlements', g.id);
    SameSide(g.payment, Members(payments, g.id), g'.payment, Members(payments', g.id));
    SameSide(g.settlement, Members(settlements, g.id), g'.settlement, Members(settlements', g.id));
    SameParts(payments, settlements, payments', settlements', g.id, g.keyParts, g'.keyParts);
  }

  lemma GroupInOther(payments: seq<MappedRow>, settlements: seq<MappedRow>, groups: seq<GroupValue>,
      payments': seq<MappedRow>, settlements': seq<MappedRow>, groups': seq<GroupValue>, g: GroupValue)
    requires multiset(payments) == multiset(payments') && multiset(settlements) == multiset(settlements')
    requires DistinctLines(payments) && DistinctLines(settlements) && KeyGivesParts(payments + settlements)
    requires IsGrouping(payments, settlements, groups) && IsGrouping(payments', settlements', groups')
    requires g in groups
    ensures g in groups'
  {
    var m :| m in payments + settlements && InGroup(g.id)(m);
    assert m in multiset(payments') || m in multiset(settlements');
    assert m in payments' + settlements';
    var g' :| g' in groups' && g'.id == IdOf(m);
    SameGroup(payments, settlements, g, payments', settlements', g');
  }

  lemma DistinctSameMembers(a: seq<GroupValue>, b: seq<GroupValue>)
    requires DistinctIds(a) && DistinctIds(b)
    requires forall g :: g in a <==> g in b
    ensures multiset(a) == multiset(b)
  {
    forall g
      ensures multiset(a)[g] == multiset(b)[g]
    {
      CountDistinct(a, g);
      CountDistinct(b, g);
    }
  }

  lemma GroupLessSeparates(groups: seq<GroupValue>)
    requires DistinctIds(groups)
    ensures Separates(groups, GroupLess)
  {
    forall a, b | a in groups && b in groups && !GroupLess(a, b) && !GroupLess(b, a)
      ensures a == b
    {
      LessTotal(a.id.settlementID, b.id.settlementID);
      LessTotal(a.id.currency, b.id.currency);
      LessTotal(ScopeText(a.id.scope), ScopeText(b.id.scope));
      LessTotal(a.id.key, b.id.key);
      if a.id.scope != b.id.scope && ScopeText(a.id.scope) == ScopeText(b.id.scope) {
        ScopeTextInjective(a.id.scope, b.id.scope);
      }
      assert a.id == b.id;
      var i :| 0 <= i < |groups| && groups[i] == a;
      var j :| 0 <= j < |groups| && groups[j] == b;
      assert i == j;
    }
  }

  lemma SameConditions(payments: seq<MappedRow>, settlements: seq<MappedRow>, payments': seq<MappedRow>, settlements': seq<MappedRow>)
    requires multiset(payments) == multiset(payments') && multiset(settlements) == multiset(settlements')
    requires DistinctLines(payments) && DistinctLines(settlements) && KeyGivesParts(payments + settlements)
    ensures DistinctLines(payments') && DistinctLines(settlements') && KeyGivesParts(payments' + settlements')
  {
    assert forall m :: m in payments' ==> m in multiset(payments');
    assert forall m :: m in settlements' ==> m in multiset(settlements');
  }

  /** BuildGroups is a function of the multisets of its rows: when line numbers identify rows and keys
      determine their parts, groupings of rearranged inputs are the same list, whatever the map order. */
  lemma GroupingUnique(payments: seq<MappedRow>, settlements: seq<MappedRow>, groups: seq<GroupValue>,
      payments': seq<MappedRow>, settlements': seq<MappedRow>, groups': seq<GroupValue>)
    requires multiset(payments) == multiset(payments') && multiset(settlements) == multiset(settlements')
    requires DistinctLines(payments) && DistinctLines(settlements) && KeyGivesParts(payments + settlements)
    requires IsGrouping(payments, settlements, groups) && IsGrouping(payments', settlements', groups')
    ensures groups == groups'
  {
    SameConditions(payments, settlements, payments', settlements');
    forall g
      ensures g in groups <==> g in groups'
    {
      if g in groups {
        GroupInOther(payments, settlements, groups, payments', settlements', groups', g);
      }
      if g in groups' {
        GroupInOther(payments', settlements', groups', payments, settlements, groups, g);
      }
    }
    DistinctSameMembers(groups, groups');
    GroupLessSeparates(groups);
    SortedUnique(groups, groups', GroupLess);
  }
}
