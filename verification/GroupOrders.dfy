/** When the running totals of BuildGroups in internal/reconcile/reconcile.go fit in 64 bits for every order of
    the rows. */
module GroupOrders {
  import opened Domain
  import opened Money
  import opened Sequences
  import opened Folds
  import opened Engine
  import opened MapRun
  import opened Grouping

  /** The rows besides the one at `i`. */
  function Others(rows: seq<MappedRow>, i: nat): seq<MappedRow>
    requires i < |rows|
  {
    rows[..i] + rows[i + 1..]
  }

  /** A running total of `offset` on top of any part of these weights fits. */
  predicate EndsFit(w: MappedRow -> int, offset: int, others: seq<MappedRow>) {
    InInt64(Sum(Up(w), others) + offset) && InInt64(Sum(Down(w), others) + offset)
  }

  /** The other rows of the group of the row at `i`. */
  function GroupMates(rows: seq<MappedRow>, i: nat): seq<MappedRow>
    requires i < |rows|
  {
    Members(Others(rows, i), IdOf(rows[i]))
  }

  // ----- What comes before a row, over all orders

  lemma OthersRearranged(rows: seq<MappedRow>, i: nat, rows': seq<MappedRow>, k: nat)
    requires i < |rows| && k < |rows'| && rows'[k] == rows[i] && multiset(rows') == multiset(rows)
    ensures multiset(Others(rows', k)) == multiset(Others(rows, i))
  {
    assert rows == rows[..i] + [rows[i]] + rows[i + 1..];
    assert rows' == rows'[..k] + [rows'[k]] + rows'[k + 1..];
    assert multiset(Others(rows, i)) == multiset(rows) - multiset{rows[i]};
    assert multiset(Others(rows', k)) == multiset(rows') - multiset{rows[i]};
  }

  /** Before a row, its group has some part of its other rows. */
  lemma BeforeBetween(w: MappedRow -> int, rows: seq<MappedRow>, i: nat, rows': seq<MappedRow>, k: nat)
    requires i < |rows| && k < |rows'| && rows'[k] == rows[i] && multiset(rows') == multiset(rows)
    ensures Sum(Down(w), GroupMates(rows, i)) <= Sum(w, Members(rows'[..k], IdOf(rows[i]))) <= Sum(Up(w), GroupMates(rows, i))
  {
    var id := IdOf(rows[i]);
    OthersRearranged(rows, i, rows', k);
    FilterConcat(InGroup(id), rows'[..k], rows'[k + 1..]);
    PrefixBetween(w, Members(rows'[..k], id), Members(rows'[k + 1..], id));
    FilterPermutation(InGroup(id), Others(rows', k), Others(rows, i));
    SumPermutation(Up(w), Members(Others(rows', k), id), GroupMates(rows, i));
    SumPermutation(Down(w), Members(Others(rows', k), id), GroupMates(rows, i));
  }

  function Chosen(id: GroupId, pick: MappedRow -> bool, keep: bool): MappedRow -> bool {
    (m: MappedRow) => (InGroup(id)(m) && pick(m)) == keep
  }

  lemma PutBack(rows: seq<MappedRow>, i: nat, first: seq<MappedRow>, last: seq<MappedRow>)
    requires i < |rows| && multiset(first + last) == multiset(Others(rows, i))
    ensures multiset(first + [rows[i]] + last) == multiset(rows)
  {
    assert rows == rows[..i] + [rows[i]] + rows[i + 1..];
    assert multiset(rows) == multiset(Others(rows, i)) + multiset{rows[i]};
  }

  /** Some order puts exactly the picked rows of the group before the row. */
  lemma PickedFirst(w: MappedRow -> int, v: MappedRow -> int, pick: MappedRow -> bool, rows: seq<MappedRow>, i: nat)
      returns (rows': seq<MappedRow>, k: nat)
    requires i < |rows| && forall m :: v(m) == if pick(m) then w(m) else 0
    ensures multiset(rows') == multiset(rows) && k < |rows'| && rows'[k] == rows[i]
    ensures Sum(w, Members(rows'[..k], IdOf(rows[i]))) == Sum(v, GroupMates(rows, i))
  {
    var id, others := IdOf(rows[i]), Others(rows, i);
    var first, last := Filter(Chosen(id, pick, true), others), Filter(Chosen(id, pick, false), others);
    rows', k := first + [rows[i]] + last, |first|;
    PartsRearrange(Chosen(id, pick, true), Chosen(id, pick, false), others);
    PutBack(rows, i, first, last);
    assert rows'[..k] == first;
    FilterAll(InGroup(id), first);
    FilterFilter(pick, InGroup(id), Chosen(id, pick, true), others);
    SumOfPart(pick, w, v, GroupMates(rows, i));
  }

  /** The running total at a row fits in every order of the rows. */
  ghost predicate AlwaysReaches(w: MappedRow -> int, offset: int, rows: seq<MappedRow>, i: nat)
    requires i < |rows|
  {
    forall rows': seq<MappedRow>, k | multiset(rows') == multiset(rows) && 0 <= k < |rows'| && rows'[k] == rows[i] ::
      InInt64(Sum(w, Members(rows'[..k], IdOf(rows[i]))) + offset)
  }

  /** That is so exactly when it fits at both extremes: after all positive and after all negative weights of the
      other rows of the group. */
  lemma ReachesIff(w: MappedRow -> int, offset: int, rows: seq<MappedRow>, i: nat)
    requires i < |rows|
    ensures AlwaysReaches(w, offset, rows, i) <==> EndsFit(w, offset, GroupMates(rows, i))
  {
    if EndsFit(w, offset, GroupMates(rows, i)) {
      forall rows': seq<MappedRow>, k | multiset(rows') == multiset(rows) && 0 <= k < |rows'| && rows'[k] == rows[i]
        ensures InInt64(Sum(w, Members(rows'[..k], IdOf(rows[i]))) + offset)
      {
        BeforeBetween(w, rows, i, rows', k);
      }
    }
    if AlwaysReaches(w, offset, rows, i) {
      var up, k := PickedFirst(w, Up(w), (m: MappedRow) => w(m) > 0, rows, i);
      var down, l := PickedFirst(w, Down(w), (m: MappedRow) => w(m) < 0, rows, i);
      assert InInt64(Sum(w, Members(up[..k], IdOf(rows[i]))) + offset);
      assert InInt64(Sum(w, Members(down[..l], IdOf(rows[i]))) + offset);
    }
  }

  // ----- Every order of the rows of one source

  /** What contribution `j` and those before it in its row send to its bucket. */
  function OwnPart(m: MappedRow, j: nat): int
    requires j < |m.contributions|
  {
    Sum(ContributionTo(m.contributions[j].target), m.contributions[..j + 1])
  }

  /** At both extremes, the amount of the group and each bucket the row routes to fit when the row is added. */
  predicate RowAlwaysFits(rows: seq<MappedRow>, i: nat)
    requires i < |rows|
  {
    var m := rows[i];
    m.row.kind == Metadata ||
    (&& EndsFit(AmountWeight(), m.row.reconAmount as int, GroupMates(rows, i))
     && forall j | 0 <= j < |m.contributions| && Routes(m.contributions[j]) ::
          EndsFit(BucketWeight(m.contributions[j].target), OwnPart(m, j), GroupMates(rows, i)))
  }

  predicate AlwaysFits(rows: seq<MappedRow>) {
    forall i | 0 <= i < |rows| :: RowAlwaysFits(rows, i)
  }

  ghost predicate EveryOrderFits(rows: seq<MappedRow>) {
    forall rows': seq<MappedRow> | multiset(rows') == multiset(rows) :: SideFits(rows')
  }

  lemma AmountReaches(rows: seq<MappedRow>, i: nat)
    requires EveryOrderFits(rows) && i < |rows| && rows[i].row.kind != Metadata
    ensures AlwaysReaches(AmountWeight(), rows[i].row.reconAmount as int, rows, i)
  {
    forall rows': seq<MappedRow>, k | multiset(rows') == multiset(rows) && 0 <= k < |rows'| && rows'[k] == rows[i]
      ensures InInt64(Sum(AmountWeight(), Members(rows'[..k], IdOf(rows[i]))) + rows[i].row.reconAmount as int)
    {
      assert SideFits(rows') && RowFits(rows'[..k], rows'[k]);
    }
  }

  lemma BucketReaches(rows: seq<MappedRow>, i: nat, j: nat)
    requires EveryOrderFits(rows) && i < |rows| && rows[i].row.kind != Metadata
    requires j < |rows[i].contributions| && Routes(rows[i].contributions[j])
    ensures AlwaysReaches(BucketWeight(rows[i].contributions[j].target), OwnPart(rows[i], j), rows, i)
  {
    var m := rows[i];
    var w := BucketWeight(m.contributions[j].target);
    forall rows': seq<MappedRow>, k | multiset(rows') == multiset(rows) && 0 <= k < |rows'| && rows'[k] == rows[i]
      ensures InInt64(Sum(w, Members(rows'[..k], IdOf(rows[i]))) + OwnPart(m, j))
    {
      assert SideFits(rows') && RowFits(rows'[..k], rows'[k]);
      assert BucketFits(Sum(w, Members(rows'[..k], IdOf(m))), m.contributions, j);
    }
  }

  /** A row that fits at the extremes fits wherever it comes. */
  lemma FitsAnywhere(rows: seq<MappedRow>, i: nat, rows': seq<MappedRow>, k: nat)
    requires i < |rows| && RowAlwaysFits(rows, i)
    requires k < |rows'| && rows'[k] == rows[i] && multiset(rows') == multiset(rows)
    ensures RowFits(rows'[..k], rows'[k])
  {
    var m := rows[i];
    if m.row.kind != Metadata {
      BeforeBetween(AmountWeight(), rows, i, rows', k);
      forall j | 0 <= j < |m.contributions|
        ensures BucketFits(Sum(BucketWeight(m.contributions[j].target), Members(rows'[..k], IdOf(m))), m.contributions, j)
      {
        BeforeBetween(BucketWeight(m.contributions[j].target), rows, i, rows', k);
      }
    }
  }

  /** The rows of a source fit in every order exactly when each row fits at both extremes. */
  lemma EveryOrderFitsIff(rows: seq<MappedRow>)
    ensures EveryOrderFits(rows) <==> AlwaysFits(rows)
  {
    if AlwaysFits(rows) {
      forall rows': seq<MappedRow> | multiset(rows') == multiset(rows)
        ensures SideFits(rows')
      {
        forall k | 0 <= k < |rows'|
          ensures RowFits(rows'[..k], rows'[k])
        {
          assert rows'[k] in multiset(rows);
          var i :| 0 <= i < |rows| && rows[i] == rows'[k];
          FitsAnywhere(rows, i, rows', k);
        }
      }
    }
    if EveryOrderFits(rows) {
      forall i | 0 <= i < |rows|
        ensures RowAlwaysFits(rows, i)
      {
        if rows[i].row.kind != Metadata {
          AlwaysFitsAt(rows, i);
        }
      }
    }
  }

  lemma AlwaysFitsAt(rows: seq<MappedRow>, i: nat)
    requires EveryOrderFits(rows) && i < |rows| && rows[i].row.kind != Metadata
    ensures RowAlwaysFits(rows, i)
  {
    var m := rows[i];
    AmountReaches(rows, i);
    ReachesIff(AmountWeight(), m.row.reconAmount as int, rows, i);
    forall j | 0 <= j < |m.contributions| && Routes(m.contributions[j])
      ensures EndsFit(BucketWeight(m.contributions[j].target), OwnPart(m, j), GroupMates(rows, i))
    {
      BucketReaches(rows, i, j);
      ReachesIff(BucketWeight(m.contributions[j].target), OwnPart(m, j), rows, i);
    }
  }

  // ----- Every order of both sources

  ghost predicate EveryOrderJoins(payments: seq<MappedRow>, settlements: seq<MappedRow>) {
    forall p: seq<MappedRow>, s: seq<MappedRow> | multiset(p) == multiset(payments) && multiset(s) == multiset(settlements) ::
      JoinTable(p, s).Ok?
  }

  /** Grouping succeeds on every rearrangement of both files exactly when, in every group of each source, the
      amount and each bucket fit at both extremes of what may come before a row. */
  lemma EveryOrderJoinsIff(payments: seq<MappedRow>, settlements: seq<MappedRow>)
    ensures EveryOrderJoins(payments, settlements) <==> AlwaysFits(payments) && AlwaysFits(settlements)
  {
    EveryOrderFitsIff(payments);
    EveryOrderFitsIff(settlements);
    if AlwaysFits(payments) && AlwaysFits(settlements) {
      forall p: seq<MappedRow>, s: seq<MappedRow> | multiset(p) == multiset(payments) && multiset(s) == multiset(settlements)
        ensures JoinTable(p, s).Ok?
      {
        JoinTableOkIff(p, s);
      }
    }
    if EveryOrderJoins(payments, settlements) {
      forall p: seq<MappedRow> | multiset(p) == multiset(payments)
        ensures SideFits(p)
      {
        JoinTableOkIff(p, settlements);
      }
      forall s: seq<MappedRow> | multiset(s) == multiset(settlements)
        ensures SideFits(s)
      {
        JoinTableOkIff(payments, s);
      }
    }
  }

  // ----- A condition that does not look at single rows

  /** The money of one sign a row sends to a target. */
  function UpTo(target: string): MappedRow -> int {
    (m: MappedRow) => Sum(Up(ContributionTo(target)), m.contributions)
  }

  function DownTo(target: string): MappedRow -> int {
    (m: MappedRow) => Sum(Down(ContributionTo(target)), m.contributions)
  }

  /** In a group, the positive amounts alone, the negative amounts alone, and the positive and the negative
      contributions to each target alone, fit. */
  ghost predicate SignsFit(rows: seq<MappedRow>, id: GroupId) {
    && InInt64(Sum(Up(AmountWeight()), Members(rows, id))) && InInt64(Sum(Down(AmountWeight()), Members(rows, id)))
    && forall t :: InInt64(Sum(UpTo(t), Members(rows, id))) && InInt64(Sum(DownTo(t), Members(rows, id)))
  }

  lemma {:induction false} SumAtMost(v: MappedRow -> int, w: MappedRow -> int, rows: seq<MappedRow>)
    requires forall m | m in rows :: v(m) <= w(m)
    ensures Sum(v, rows) <= Sum(w, rows)
  {
    if rows != [] {
      SumAtMost(v, w, rows[1..]);
    }
  }

  /** A group is a row of it and its mates. */
  lemma WithMates(w: MappedRow -> int, rows: seq<MappedRow>, i: nat)
    requires i < |rows| && rows[i].row.kind != Metadata
    ensures Sum(w, Members(rows, IdOf(rows[i]))) == Sum(w, GroupMates(rows, i)) + w(rows[i])
  {
    var id := IdOf(rows[i]);
    assert rows == rows[..i] + [rows[i]] + rows[i + 1..];
    FilterConcat(InGroup(id), rows[..i] + [rows[i]], rows[i + 1..]);
    FilterSnoc(InGroup(id), rows[..i], rows[i]);
    FilterConcat(InGroup(id), rows[..i], rows[i + 1..]);
    SumConcat(w, Members(rows[..i], id) + [rows[i]], Members(rows[i + 1..], id));
    SumSnoc(w, Members(rows[..i], id), rows[i]);
    SumConcat(w, Members(rows[..i], id), Members(rows[i + 1..], id));
  }

  lemma AmountEndsFit(rows: seq<MappedRow>, i: nat)
    requires i < |rows| && rows[i].row.kind != Metadata && SignsFit(rows, IdOf(rows[i]))
    ensures EndsFit(AmountWeight(), rows[i].row.reconAmount as int, GroupMates(rows, i))
  {
    var w := AmountWeight();
    assert w(rows[i]) == rows[i].row.reconAmount as int;
    WithMates(Up(w), rows, i);
    WithMates(Down(w), rows, i);
    PartsBound(w, GroupMates(rows, i));
  }

  lemma BucketEndsFit(rows: seq<MappedRow>, i: nat, j: nat)
    requires i < |rows| && rows[i].row.kind != Metadata && SignsFit(rows, IdOf(rows[i]))
    requires j < |rows[i].contributions|
    ensures EndsFit(BucketWeight(rows[i].contributions[j].target), OwnPart(rows[i], j), GroupMates(rows, i))
  {
    var m, mates := rows[i], GroupMates(rows, i);
    var t := m.contributions[j].target;
    var w := BucketWeight(t);
    WithMates(UpTo(t), rows, i);
    WithMates(DownTo(t), rows, i);
    forall n | n in mates
      ensures DownTo(t)(n) <= Down(w)(n) && Up(w)(n) <= UpTo(t)(n)
    {
      PartsBound(ContributionTo(t), n.contributions);
    }
    SumAtMost(Up(w), UpTo(t), mates);
    SumAtMost(DownTo(t), Down(w), mates);
    PartsBound(w, mates);
    assert m.contributions == m.contributions[..j + 1] + m.contributions[j + 1..];
    PrefixBetween(ContributionTo(t), m.contributions[..j + 1], m.contributions[j + 1..]);
  }

  /** When in every group the two signs fit separately, so does every order of the rows. */
  lemma SignsSuffice(rows: seq<MappedRow>)
    requires forall i | 0 <= i < |rows| && rows[i].row.kind != Metadata :: SignsFit(rows, IdOf(rows[i]))
    ensures EveryOrderFits(rows)
  {
    forall i | 0 <= i < |rows| && rows[i].row.kind != Metadata
      ensures RowAlwaysFits(rows, i)
    {
      AmountEndsFit(rows, i);
      forall j | 0 <= j < |rows[i].contributions|
        ensures EndsFit(BucketWeight(rows[i].contributions[j].target), OwnPart(rows[i], j), GroupMates(rows, i))
      {
        BucketEndsFit(rows, i, j);
      }
    }
    EveryOrderFitsIff(rows);
  }
}
