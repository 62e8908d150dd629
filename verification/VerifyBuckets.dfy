/** The relational recomputation of per-key buckets agrees with the groups. The recomputation joins stored
    mappings to stored rows and groups by record reference and target; the groups were built by identity,
    which is finer. A recomputed bucket is therefore the sum of one bucket over the in-scope groups of a
    key, and the two comparisons are equivalent when the scope has one settlement and one currency. */
module VerifyBuckets {
  import opened Text
  import opened Outcome
  import opened Domain
  import opened Sequences
  import opened Engine
  import opened MapRun
  import opened Grouping
  import opened Groups
  import opened Conservation
  import opened Gate
  import opened RunTables
  import opened Verify

  // ----- Joining the stored mappings back to their rows

  function PairOf(row: RawRow): Contribution -> Joined {
    (c: Contribution) => Joined(MappingOf(row)(c), row)
  }

  function PairsOf(rows: seq<MappedRow>): seq<Joined> {
    if rows == [] then [] else Map(PairOf(rows[0].row), rows[0].contributions) + PairsOf(rows[1..])
  }

  lemma {:induction false} RowFoundOnce(raw: seq<RawRow>, r: RawRow)
    requires UniqueRows(raw) && r in raw
    ensures Filter(SameRow(IdOfRow(r)), raw) == [r]
  {
    assert raw == [raw[0]] + raw[1..];
    if raw[0] == r {
      FilterNone(SameRow(IdOfRow(r)), raw[1..]);
    } else {
      RowFoundOnce(raw[1..], r);
      var k :| 0 <= k < |raw| && raw[k] == r;
      assert IdOfRow(raw[0]) != IdOfRow(raw[k]);
    }
  }

  lemma {:induction false} JoinConcat(a: seq<RowMapping>, b: seq<RowMapping>, raw: seq<RawRow>)
    ensures JoinRows(a + b, raw) == JoinRows(a, raw) + JoinRows(b, raw)
  {
    if a == [] {
      assert a + b == b;
    } else {
      JoinConcat(a[1..], b, raw);
      assert (a + b)[1..] == a[1..] + b;
      ConcatAssociative(Map(JoinWith(a[0]), Filter(SameRow(a[0].row), raw)), JoinRows(a[1..], raw), JoinRows(b, raw));
    }
  }

  lemma JoinOne(row: RawRow, c: Contribution)
    ensures Map(JoinWith(MappingOf(row)(c)), [row]) == [PairOf(row)(c)]
  {
  }

  lemma {:induction false} JoinRowMappings(row: RawRow, cs: seq<Contribution>, raw: seq<RawRow>)
    requires UniqueRows(raw) && row in raw
    ensures JoinRows(Map(MappingOf(row), cs), raw) == Map(PairOf(row), cs)
  {
    if cs != [] {
      JoinRowMappings(row, cs[1..], raw);
      JoinFirst(row, cs, raw);
    }
  }

  lemma JoinFirst(row: RawRow, cs: seq<Contribution>, raw: seq<RawRow>)
    requires UniqueRows(raw) && row in raw && cs != []
    ensures JoinRows(Map(MappingOf(row), cs), raw) == [PairOf(row)(cs[0])] + JoinRows(Map(MappingOf(row), cs[1..]), raw)
    ensures Map(PairOf(row), cs) == [PairOf(row)(cs[0])] + Map(PairOf(row), cs[1..])
  {
    RowFoundOnce(raw, row);
    MapTail(MappingOf(row), cs);
    MapTail(PairOf(row), cs);
    JoinOne(row, cs[0]);
  }

  /** The join finds, for each stored mapping, the one row it was written for. */
  lemma {:induction false} JoinIsPairs(rows: seq<MappedRow>, raw: seq<RawRow>)
    requires UniqueRows(raw) && forall m | m in rows :: m.row in raw
    ensures JoinRows(MappingsOf(rows), raw) == PairsOf(rows)
  {
    if rows != [] {
      assert rows[0] in rows;
      JoinRowMappings(rows[0].row, rows[0].contributions, raw);
      JoinConcat(Map(MappingOf(rows[0].row), rows[0].contributions), MappingsOf(rows[1..]), raw);
      JoinIsPairs(rows[1..], raw);
    }
  }

  lemma JoinStored(rows: seq<MappedRow>)
    requires UniqueRows(Map(RowOf(), rows))
    ensures JoinRows(MappingsOf(rows), Map(RowOf(), rows)) == PairsOf(rows)
  {
    forall m | m in rows
      ensures m.row in Map(RowOf(), rows)
    {
      var i :| 0 <= i < |rows| && rows[i] == m;
      assert Map(RowOf(), rows)[i] == m.row;
    }
    JoinIsPairs(rows, Map(RowOf(), rows));
  }

  // ----- Summing over the join is summing over the rows

  function Through(w: Joined -> int, row: RawRow): Contribution -> int {
    (c: Contribution) => w(PairOf(row)(c))
  }

  lemma {:induction false} SumPairRow(w: Joined -> int, row: RawRow, cs: seq<Contribution>)
    ensures Sum(w, Map(PairOf(row), cs)) == Sum(Through(w, row), cs)
  {
    if cs != [] {
      SumPairRow(w, row, cs[1..]);
      assert Map(PairOf(row), cs)[1..] == Map(PairOf(row), cs[1..]);
    }
  }

  lemma {:induction false} SumPairs(w: Joined -> int, v: MappedRow -> int, rows: seq<MappedRow>)
    requires forall m | m in rows :: v(m) == Sum(Through(w, m.row), m.contributions)
    ensures Sum(w, PairsOf(rows)) == Sum(v, rows)
  {
    if rows != [] {
      assert rows[0] in rows;
      SumPairRow(w, rows[0].row, rows[0].contributions);
      SumConcat(w, Map(PairOf(rows[0].row), rows[0].contributions), PairsOf(rows[1..]));
      SumPairs(w, v, rows[1..]);
    }
  }

  lemma {:induction false} PairMembers(rows: seq<MappedRow>, m: MappedRow, c: Contribution)
    requires m in rows && c in m.contributions
    ensures PairOf(m.row)(c) in PairsOf(rows)
  {
    if rows[0] == m {
      var i :| 0 <= i < |m.contributions| && m.contributions[i] == c;
      assert Map(PairOf(m.row), m.contributions)[i] == PairOf(m.row)(c);
    } else {
      assert rows == [rows[0]] + rows[1..];
      PairMembers(rows[1..], m, c);
    }
  }

  // ----- Rows as a run stores them

  /** A stored target reads back as itself: it is empty, or not blank. */
  predicate PlainTarget(t: string) {
    t == "" || TrimSpace(t) != ""
  }

  /** Nothing is contributed by metadata, and every target reads back as itself. */
  predicate PlainTargets(m: MappedRow) {
    && (m.row.kind == Metadata ==> m.contributions == [])
    && forall c | c in m.contributions :: PlainTarget(c.target)
  }

  predicate PlainRow(m: MappedRow) {
    PlainTargets(m) && forall c | c in m.contributions :: c.key == m.key
  }

  predicate PlainRows(rows: seq<MappedRow>, source: Source) {
    forall m | m in rows :: m.row.source == source && PlainRow(m)
  }

  /** The in-scope groups of one record reference. */
  function RefId(recordRef: string): GroupId -> bool {
    (id: GroupId) => id.scope == InScope && id.key == recordRef
  }

  function RefBucket(key: BucketKey, payment: bool): GroupValue -> int {
    (g: GroupValue) =>
      if RefId(key.recordRef)(g.id) then BucketAt((if payment then g.payment else g.settlement).buckets, key.target) as int
      else 0
  }

  lemma RefBucketAt(g: GroupValue, key: BucketKey, payment: bool)
    ensures RefBucket(key, payment)(g) ==
      if g.id.scope == InScope && g.id.key == key.recordRef
      then (if payment then BucketAt(g.payment.buckets, key.target) else BucketAt(g.settlement.buckets, key.target))
      else 0
  {
    assert RefId(key.recordRef)(g.id) <==> g.id.scope == InScope && g.id.key == key.recordRef;
  }

  function RefWeight(source: Source, key: BucketKey): MappedRow -> int {
    (m: MappedRow) =>
      if m.row.source == source && m.row.scope == InScope && m.key == key.recordRef then RowBucket(m, key.target) else 0
  }

  lemma BucketedPair(row: RawRow, c: Contribution, source: Source, key: BucketKey)
    requires PlainTarget(c.target) && key.target != ""
    ensures BucketedAmount(source, key)(PairOf(row)(c)) ==
      if row.source == source && row.scope == InScope && c.key == key.recordRef && c.target == key.target
      then c.amount as int else 0
  {
    StoredTarget(row, c);
  }

  lemma StoredTarget(row: RawRow, c: Contribution)
    requires PlainTarget(c.target)
    ensures PairOf(row)(c).row == row
    ensures PairOf(row)(c).mapping == MappingOf(row)(c)
    ensures MappingOf(row)(c).target == if c.target == "" then None else Some(c.target)
    ensures MappingOf(row)(c).recordRef == c.key && MappingOf(row)(c).amount == c.amount
  {
    assert MappingOf(row)(c).target == Nullable(c.target);
    assert TrimSpace("") == "";
  }

  lemma RefWeightRow(m: MappedRow, source: Source, key: BucketKey)
    requires PlainRow(m) && key.target != ""
    ensures RefWeight(source, key)(m) == Sum(Through(BucketedAmount(source, key), m.row), m.contributions)
  {
    forall c | c in m.contributions
      ensures Through(BucketedAmount(source, key), m.row)(c) ==
        if m.row.source == source && m.row.scope == InScope && m.key == key.recordRef then ContributionTo(key.target)(c) else 0
    {
      BucketedPair(m.row, c, source, key);
    }
    if m.row.source == source && m.row.scope == InScope && m.key == key.recordRef {
      SumAgree(ContributionTo(key.target), Through(BucketedAmount(source, key), m.row), m.contributions);
    } else {
      SumZero(Through(BucketedAmount(source, key), m.row), m.contributions);
    }
  }

  lemma RefWeightSide(rows: seq<MappedRow>, side: Source, source: Source, key: BucketKey)
    requires PlainRows(rows, side)
    ensures Sum(RefWeight(source, key), rows) ==
      if side == source then Sum(SelectedWeight(RefId(key.recordRef), BucketWeight(key.target)), rows) else 0
  {
    if side == source {
      SumAgree(RefWeight(source, key), SelectedWeight(RefId(key.recordRef), BucketWeight(key.target)), rows);
    } else {
      SumZero(RefWeight(source, key), rows);
    }
  }

  /** The recomputed bucket of a key is the sum of that bucket over the in-scope groups of the key. */
  lemma BucketSumIsGroups(payments: seq<MappedRow>, settlements: seq<MappedRow>, groups: seq<GroupValue>, key: BucketKey, payment: bool)
    requires PlainRows(payments, Payment) && PlainRows(settlements, Settlement)
    requires IsGrouping(payments, settlements, groups) && key.target != ""
    ensures BucketSum(PairsOf(payments + settlements), if payment then Payment else Settlement, key) ==
      Sum(RefBucket(key, payment), groups)
  {
    var source := if payment then Payment else Settlement;
    var rows := if payment then payments else settlements;
    forall m | m in payments + settlements
      ensures RefWeight(source, key)(m) == Sum(Through(BucketedAmount(source, key), m.row), m.contributions)
    {
      RefWeightRow(m, source, key);
    }
    SumPairs(BucketedAmount(source, key), RefWeight(source, key), payments + settlements);
    SumConcat(RefWeight(source, key), payments, settlements);
    RefWeightSide(payments, Payment, source, key);
    RefWeightSide(settlements, Settlement, source, key);
    RefSides(payments, settlements, groups, key, payment);
  }

  lemma RefSides(payments: seq<MappedRow>, settlements: seq<MappedRow>, groups: seq<GroupValue>, key: BucketKey, payment: bool)
    requires IsGrouping(payments, settlements, groups) && key.target != ""
    ensures Sum(SelectedWeight(RefId(key.recordRef), BucketWeight(key.target)), if payment then payments else settlements) ==
      Sum(RefBucket(key, payment), groups)
  {
    var rows := if payment then payments else settlements;
    assert forall m :: m in rows ==> m in payments + settlements;
    PartitionSum(groups, rows, RefId(key.recordRef), BucketWeight(key.target));
    SumAgree(RefBucket(key, payment), PartWeight(RefId(key.recordRef), BucketWeight(key.target), rows), groups);
  }

  predicate InScopeBucketsAgree(groups: seq<GroupValue>) {
    forall g | g in groups && g.id.scope == InScope :: BucketsAgree(g)
  }

  lemma KeyHasTarget(joined: seq<Joined>, source: Source, k: BucketKey)
    requires k in BucketKeys(joined, source)
    ensures k.target != ""
  {
  }

  lemma NothingDiffers(joined: seq<Joined>)
    requires forall k: BucketKey | k.target != "" :: BucketSum(joined, Payment, k) == BucketSum(joined, Settlement, k)
    ensures DifferingBuckets(joined) == {}
  {
    forall k
      ensures k !in DifferingBuckets(joined)
    {
      if k in BucketKeys(joined, Payment) {
        KeyHasTarget(joined, Payment, k);
      } else if k in BucketKeys(joined, Settlement) {
        KeyHasTarget(joined, Settlement, k);
      }
    }
  }

  /** Equal buckets in every in-scope group leave the recomputation nothing to differ on. */
  lemma AgreeingGroupsVerify(payments: seq<MappedRow>, settlements: seq<MappedRow>, groups: seq<GroupValue>)
    requires PlainRows(payments, Payment) && PlainRows(settlements, Settlement)
    requires IsGrouping(payments, settlements, groups) && InScopeBucketsAgree(groups)
    ensures DifferingBuckets(PairsOf(payments + settlements)) == {}
  {
    var joined := PairsOf(payments + settlements);
    forall k: BucketKey | k.target != ""
      ensures BucketSum(joined, Payment, k) == BucketSum(joined, Settlement, k)
    {
      BucketSumIsGroups(payments, settlements, groups, k, true);
      BucketSumIsGroups(payments, settlements, groups, k, false);
      AgreeingRefs(groups, k);
    }
    NothingDiffers(joined);
  }

  lemma AgreeingRefs(groups: seq<GroupValue>, k: BucketKey)
    requires InScopeBucketsAgree(groups)
    ensures Sum(RefBucket(k, true), groups) == Sum(RefBucket(k, false), groups)
  {
    forall g | g in groups
      ensures RefBucket(k, true)(g) == RefBucket(k, false)(g)
    {
      RefBucketAt(g, k, true);
      RefBucketAt(g, k, false);
      if g.id.scope == InScope {
        assert BucketsAgree(g);
        assert BucketAt(g.payment.buckets, k.target) == BucketAt(g.settlement.buckets, k.target);
      }
    }
    SumAgree(RefBucket(k, true), RefBucket(k, false), groups);
  }

  /** All in-scope groups belong to one settlement and one currency. */
  predicate OnePartition(groups: seq<GroupValue>, settlementID: string, currency: string) {
    forall g | g in groups && g.id.scope == InScope :: g.id.settlementID == settlementID && g.id.currency == currency
  }

  lemma OtherRefGroup(groups: seq<GroupValue>, settlementID: string, currency: string, g: GroupValue, h: GroupValue)
    requires OnePartition(groups, settlementID, currency)
    requires g in groups && g.id.scope == InScope && h in groups && h.id != g.id
    ensures !RefId(g.id.key)(h.id)
  {
    assert g.id == GroupId(g.id.key, settlementID, currency, InScope);
    assert h.id == GroupId(h.id.key, h.id.settlementID, h.id.currency, h.id.scope);
  }

  lemma SameIdSameGroup(groups: seq<GroupValue>, g: GroupValue, h: GroupValue)
    requires DistinctIds(groups) && g in groups && h in groups && g.id == h.id
    ensures g == h
  {
    var i :| 0 <= i < |groups| && groups[i] == g;
    var j :| 0 <= j < |groups| && groups[j] == h;
    assert i == j;
  }

  lemma OneRefGroup(groups: seq<GroupValue>, settlementID: string, currency: string, g: GroupValue, target: string, payment: bool)
    requires DistinctIds(groups) && OnePartition(groups, settlementID, currency)
    requires g in groups && g.id.scope == InScope
    ensures Sum(RefBucket(BucketKey(g.id.key, target), payment), groups) ==
      BucketAt((if payment then g.payment else g.settlement).buckets, target)
  {
    var key := BucketKey(g.id.key, target);
    var x := BucketAt((if payment then g.payment else g.settlement).buckets, target);
    forall h | h in groups
      ensures RefBucket(key, payment)(h) == OneGroup(g.id, x)(h)
    {
      RefBucketAt(h, key, payment);
      if h.id != g.id {
        OtherRefGroup(groups, settlementID, currency, g, h);
      } else {
        SameIdSameGroup(groups, g, h);
      }
    }
    SumAgree(RefBucket(key, payment), OneGroup(g.id, x), groups);
    OneGroupSum(groups, g.id, x);
  }

  lemma RoutedPairKey(joined: seq<Joined>, row: RawRow, c: Contribution)
    requires PairOf(row)(c) in joined && row.scope == InScope
    requires PlainTarget(c.target) && c.target != ""
    ensures BucketKey(c.key, c.target) in BucketKeys(joined, row.source)
  {
    StoredTarget(row, c);
    var j := PairOf(row)(c);
    assert Bucketed(j, row.source) && KeyOf(j) == BucketKey(c.key, c.target);
  }

  /** A bucket a group holds is a key of the recomputation. */
  lemma GroupBucketHasKey(payments: seq<MappedRow>, settlements: seq<MappedRow>, groups: seq<GroupValue>, g: GroupValue, t: string, payment: bool)
    requires PlainRows(payments, Payment) && PlainRows(settlements, Settlement)
    requires IsGrouping(payments, settlements, groups) && g in groups && g.id.scope == InScope
    requires t in (if payment then g.payment else g.settlement).buckets
    ensures t != ""
    ensures BucketKey(g.id.key, t) in BucketKeys(PairsOf(payments + settlements), if payment then Payment else Settlement)
  {
    var rows := if payment then payments else settlements;
    assert ReportsGroup(g, payments, settlements);
    var m :| m in Members(rows, g.id) && RoutesTo(m, t);
    var c :| c in m.contributions && Routes(c) && c.target == t;
    assert m in rows && m in payments + settlements && PlainRow(m);
    PairMembers(payments + settlements, m, c);
    RoutedPairKey(PairsOf(payments + settlements), m.row, c);
  }

  /** When one settlement and one currency make up the scope, the gate's per-group bucket check is not only
      sufficient but equivalent to a recomputation without bucket mismatches. */
  lemma BucketCheckEquivalent(payments: seq<MappedRow>, settlements: seq<MappedRow>, groups: seq<GroupValue>,
      settlementID: string, currency: string)
    requires PlainRows(payments, Payment) && PlainRows(settlements, Settlement)
    requires IsGrouping(payments, settlements, groups) && OnePartition(groups, settlementID, currency)
    ensures InScopeBucketsAgree(groups) <==> DifferingBuckets(PairsOf(payments + settlements)) == {}
  {
    if InScopeBucketsAgree(groups) {
      AgreeingGroupsVerify(payments, settlements, groups);
    }
    if DifferingBuckets(PairsOf(payments + settlements)) == {} {
      forall g | g in groups && g.id.scope == InScope
        ensures BucketsAgree(g)
      {
        NoDifferenceInGroup(payments, settlements, groups, settlementID, currency, g);
      }
    }
  }

  lemma NoDifferenceInGroup(payments: seq<MappedRow>, settlements: seq<MappedRow>, groups: seq<GroupValue>,
      settlementID: string, currency: string, g: GroupValue)
    requires PlainRows(payments, Payment) && PlainRows(settlements, Settlement)
    requires IsGrouping(payments, settlements, groups) && OnePartition(groups, settlementID, currency)
    requires DifferingBuckets(PairsOf(payments + settlements)) == {}
    requires g in groups && g.id.scope == InScope
    ensures BucketsAgree(g)
  {
    forall t | t in g.payment.buckets.Keys + g.settlement.buckets.Keys
      ensures BucketAt(g.payment.buckets, t) == BucketAt(g.settlement.buckets, t)
    {
      var k := BucketKey(g.id.key, t);
      GroupBucketHasKey(payments, settlements, groups, g, t, t in g.payment.buckets);
      KeySumsEqual(PairsOf(payments + settlements), k);
      BucketSumIsGroups(payments, settlements, groups, k, true);
      BucketSumIsGroups(payments, settlements, groups, k, false);
      OneRefGroup(groups, settlementID, currency, g, t, true);
      OneRefGroup(groups, settlementID, currency, g, t, false);
    }
  }

  lemma KeySumsEqual(joined: seq<Joined>, k: BucketKey)
    requires DifferingBuckets(joined) == {}
    requires k in BucketKeys(joined, Payment) || k in BucketKeys(joined, Settlement)
    ensures BucketSum(joined, Payment, k) == BucketSum(joined, Settlement, k)
  {
    assert k !in DifferingBuckets(joined);
  }
}
