/** Money is conserved between mapped rows, groups and summary buckets. */
module Conservation {
  import opened Domain
  import opened Sequences
  import opened Engine
  import opened StrictRows
  import opened MapRun
  import opened Grouping
  import opened Groups

  /** The weight of a group: what its members on one side weigh, if the identity is selected. */
  function PartWeight(sel: GroupId -> bool, w: MappedRow -> int, rows: seq<MappedRow>): GroupValue -> int {
    (g: GroupValue) => if sel(g.id) then Sum(w, Members(rows, g.id)) else 0
  }

  function SelectedWeight(sel: GroupId -> bool, w: MappedRow -> int): MappedRow -> int {
    (m: MappedRow) => if m.row.kind != Metadata && sel(IdOf(m)) then w(m) else 0
  }

  /** Weighs `x` for the group of one identity. */
  function OneGroup(id: GroupId, x: int): GroupValue -> int {
    (g: GroupValue) => if g.id == id then x else 0
  }

  lemma {:induction false} OneGroupSum(groups: seq<GroupValue>, id: GroupId, x: int)
    requires DistinctIds(groups)
    ensures Sum(OneGroup(id, x), groups) == if exists g :: g in groups && g.id == id then x else 0
  {
    if groups != [] {
      OneGroupSum(groups[1..], id, x);
      assert groups == [groups[0]] + groups[1..];
      if groups[0].id == id {
        assert groups[0] in groups;
        assert forall g :: g in groups[1..] ==> g.id != id;
      }
    }
  }

  predicate Covered(rows: seq<MappedRow>, groups: seq<GroupValue>) {
    forall m | m in rows && m.row.kind != Metadata :: exists g :: g in groups && g.id == IdOf(m)
  }

  lemma NoRowsNoWeight(sel: GroupId -> bool, w: MappedRow -> int, g: GroupValue)
    ensures PartWeight(sel, w, [])(g) == 0
  {
    assert PartWeight(sel, w, [])(g) == if sel(g.id) then Sum(w, Members([], g.id)) else 0;
    assert Members([], g.id) == [];
  }

  lemma PartStep(rows: seq<MappedRow>, sel: GroupId -> bool, w: MappedRow -> int, g: GroupValue)
    requires rows != []
    ensures PartWeight(sel, w, rows)(g) ==
      PartWeight(sel, w, rows[1..])(g) + OneGroup(IdOf(rows[0]), SelectedWeight(sel, w)(rows[0]))(g)
  {
    var m := rows[0];
    var x := SelectedWeight(sel, w)(m);
    HeadMember(rows, g.id, w);
    assert x == if m.row.kind != Metadata && sel(IdOf(m)) then w(m) else 0;
    assert OneGroup(IdOf(m), x)(g) == if g.id == IdOf(m) then x else 0;
    assert InGroup(g.id)(m) == (m.row.kind != Metadata && IdOf(m) == g.id);
    assert PartWeight(sel, w, rows)(g) == if sel(g.id) then Sum(w, Members(rows, g.id)) else 0;
    assert PartWeight(sel, w, rows[1..])(g) == if sel(g.id) then Sum(w, Members(rows[1..], g.id)) else 0;
  }

  /** Summing over the groups of a partition is summing over the rows. */
  lemma {:induction false} PartitionSum(groups: seq<GroupValue>, rows: seq<MappedRow>, sel: GroupId -> bool, w: MappedRow -> int)
    requires DistinctIds(groups) && Covered(rows, groups)
    ensures Sum(PartWeight(sel, w, rows), groups) == Sum(SelectedWeight(sel, w), rows)
    decreases |rows|
  {
    if rows == [] {
      forall g | g in groups
        ensures PartWeight(sel, w, rows)(g) == 0
      {
        NoRowsNoWeight(sel, w, g);
      }
      SumZero(PartWeight(sel, w, rows), groups);
    } else {
      var m, rest := rows[0], rows[1..];
      PartitionSum(groups, rest, sel, w);
      var x := SelectedWeight(sel, w)(m);
      OneGroupSum(groups, IdOf(m), x);
      forall g | g in groups
        ensures PartWeight(sel, w, rows)(g) == PartWeight(sel, w, rest)(g) + OneGroup(IdOf(m), x)(g)
      {
        PartStep(rows, sel, w, g);
      }
      SumAdd(PartWeight(sel, w, rows), PartWeight(sel, w, rest), OneGroup(IdOf(m), x), groups);
      assert m in rows;
      if m.row.kind == Metadata {
        assert x == 0;
      }
    }
  }

  lemma HeadMember(rows: seq<MappedRow>, id: GroupId, w: MappedRow -> int)
    requires rows != []
    ensures Sum(w, Members(rows, id)) == Sum(w, Members(rows[1..], id)) + if InGroup(id)(rows[0]) then w(rows[0]) else 0
  {
    if InGroup(id)(rows[0]) {
      assert Members(rows, id) == [rows[0]] + Members(rows[1..], id);
      assert Members(rows, id)[1..] == Members(rows[1..], id);
    }
  }

  function InScopeId(): GroupId -> bool {
    (id: GroupId) => id.scope == InScope
  }

  /** The bucket of one side of a group, if the group is in scope. */
  function GroupBucket(target: string, payment: bool): GroupValue -> int {
    (g: GroupValue) =>
      if g.id.scope == InScope then BucketAt((if payment then g.payment else g.settlement).buckets, target) as int else 0
  }

  function InScopeBucket(target: string): MappedRow -> int {
    SelectedWeight(InScopeId(), BucketWeight(target))
  }

  /** Over all in-scope groups, each bucket of each side sums to what the in-scope rows of that source send
      to it. */
  lemma GroupBucketsConserve(payments: seq<MappedRow>, settlements: seq<MappedRow>, groups: seq<GroupValue>, t: string, payment: bool)
    requires IsGrouping(payments, settlements, groups) && t != ""
    ensures Sum(GroupBucket(t, payment), groups) ==
      Sum(InScopeBucket(t), if payment then payments else settlements)
  {
    var rows := if payment then payments else settlements;
    assert forall m :: m in rows ==> m in payments + settlements;
    PartitionSum(groups, rows, InScopeId(), BucketWeight(t));
    SumAgree(GroupBucket(t, payment), PartWeight(InScopeId(), BucketWeight(t), rows), groups);
  }

  // ----- Groups against the summary

  /** The partial contributions of failed in-scope rows: kept by groups, left out of the summary. */
  function FailedWeight(target: string): MappedRow -> int {
    (m: MappedRow) => if m.row.scope == InScope && Failed(m) then RowBucket(m, target) else 0
  }

  predicate SingleSource(rows: seq<MappedRow>, source: Source) {
    forall m | m in rows :: m.row.source == source
  }

  predicate MetadataBlank(rows: seq<MappedRow>) {
    forall m | m in rows && m.row.kind == Metadata :: m.contributions == []
  }

  lemma ScopeSplits(rows: seq<MappedRow>, source: Source, t: string)
    requires SingleSource(rows, source) && MetadataBlank(rows)
    ensures Sum(InScopeBucket(t), rows) == Sum(SummaryWeight(t, source), rows) + Sum(FailedWeight(t), rows)
  {
    forall m | m in rows
      ensures InScopeBucket(t)(m) == SummaryWeight(t, source)(m) + FailedWeight(t)(m)
    {
      if m.row.kind == Metadata {
        assert RowBucket(m, t) == 0;
      }
    }
    SumAdd(InScopeBucket(t), SummaryWeight(t, source), FailedWeight(t), rows);
  }

  /** The rows a run of the engine returns: of the source of their inputs, with nothing contributed by
      metadata. */
  lemma MappedRowsShape(rules: seq<ConfigRule>, mode: Mode, rows: seq<RawRow>, source: Source)
    requires MapRows(rules, mode, rows).Ok?
    requires forall r | r in rows :: r.source == source
    ensures SingleSource(Output(rules, mode, rows).rows, source)
    ensures MetadataBlank(Output(rules, mode, rows).rows)
  {
    MapRowsTotals(rules, mode, rows, "t", source);
    forall r | r in rows {
      RecordShape(rules, mode, r);
    }
    RecordsShape(MapperOf(rules, mode), rows, source);
  }

  lemma RecordShape(rules: seq<ConfigRule>, mode: Mode, row: RawRow)
    ensures var m := RecordOf(MapperOf(rules, mode))(row);
      m.row == row && (row.kind == Metadata ==> m.contributions == [])
  {
    OnlySelectorIssues(rules, mode, row);
    assert MapperOf(rules, mode)(row) == MapRow(rules, mode, row);
  }

  lemma RecordsShape(mapper: RowMapper, rows: seq<RawRow>, source: Source)
    requires forall r | r in rows ::
      var m := RecordOf(mapper)(r);
      r.source == source && m.row == r && (r.kind == Metadata ==> m.contributions == [])
    ensures SingleSource(Map(RecordOf(mapper), rows), source) && MetadataBlank(Map(RecordOf(mapper), rows))
  {
    var out := Map(RecordOf(mapper), rows);
    forall m | m in out
      ensures m.row.source == source && (m.row.kind == Metadata ==> m.contributions == [])
    {
      var i :| 0 <= i < |out| && out[i] == m;
      assert rows[i] in rows;
    }
  }

  /** Conservation from rows through groups to the summary: for every target, the in-scope groups of a source
      hold the summary bucket plus the partial contributions of the rows that failed. */
  lemma GroupsMatchSummary(rules: seq<ConfigRule>, mode: Mode, rows: seq<RawRow>, others: seq<MappedRow>,
      groups: seq<GroupValue>, t: string, payment: bool)
    requires MapRows(rules, mode, rows).Ok? && t != ""
    requires forall r | r in rows :: r.source == (if payment then Payment else Settlement)
    requires var out := Output(rules, mode, rows).rows;
      if payment then IsGrouping(out, others, groups) else IsGrouping(others, out, groups)
    ensures var out := Output(rules, mode, rows);
      Sum(GroupBucket(t, payment), groups) ==
        SummaryAt(out.summary, t, if payment then Payment else Settlement) + Sum(FailedWeight(t), out.rows)
  {
    var source := if payment then Payment else Settlement;
    var out := Output(rules, mode, rows);
    MapRowsTotals(rules, mode, rows, t, source);
    MappedRowsShape(rules, mode, rows, source);
    if payment {
      GroupBucketsConserve(out.rows, others, groups, t, payment);
    } else {
      GroupBucketsConserve(others, out.rows, groups, t, payment);
    }
    ScopeSplits(out.rows, source, t);
  }

  /** No failed weight is left when no row fails, which a strict run guarantees. */
  lemma NoFailedWeight(rules: seq<ConfigRule>, mode: Mode, rows: seq<RawRow>, t: string)
    requires MapsAll(rules, mode, rows)
    ensures Sum(FailedWeight(t), Output(rules, mode, rows).rows) == 0
  {
    MapsAllIff(rules, mode, rows);
    SumZero(FailedWeight(t), Output(rules, mode, rows).rows);
  }
}
