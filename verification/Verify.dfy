/** VerifyRun in internal/store/verify.go: the recomputation of a run's controls from its tables alone. */
module Verify {
  import opened Outcome
  import opened Domain
  import opened Sequences
  import opened RunTables
  import Lifecycle = RunStore

  /** What the runs table says of the run. */
  datatype RunHeader = RunHeader(mode: Mode, stage: Lifecycle.Stage, status: Lifecycle.RunStatus, selected: string)

  datatype Verification = Verification(
    sourceRows: nat,
    transactionRows: nat,
    memberRows: nat,
    unmatchedRows: nat,
    issueRows: nat,
    amountMismatches: nat,
    bucketMismatches: nat,
    summaryMismatches: nat,
    headerMismatches: nat)

  datatype VerifyError =
    | DuplicateMembers(count: nat)
    | RowCount
    | NotReported
    | NotPassed
    | HasIssues
    | AmountsOrSummary
    | Buckets
    | Headers
    | MemberCount

  // ----- Per-key buckets

  datatype BucketKey = BucketKey(recordRef: string, target: string)

  predicate Bucketed(j: Joined, source: Source) {
    j.row.source == source && j.row.scope == InScope && j.mapping.target.Some? && j.mapping.target.value != ""
  }

  function KeyOf(j: Joined): BucketKey {
    BucketKey(j.mapping.recordRef, if j.mapping.target.Some? then j.mapping.target.value else "")
  }

  predicate BucketedAt(j: Joined, source: Source, key: BucketKey) {
    Bucketed(j, source) && KeyOf(j) == key
  }

  /** SUM(amount) ... GROUP BY record_ref, target, one source, in scope; zero for a missing group. */
  function BucketSum(joined: seq<Joined>, source: Source, key: BucketKey): int {
    Sum(BucketedAmount(source, key), joined)
  }

  function BucketedAmount(source: Source, key: BucketKey): Joined -> int {
    (j: Joined) => if BucketedAt(j, source, key) then j.mapping.amount else 0
  }

  function BucketKeys(joined: seq<Joined>, source: Source): set<BucketKey> {
    set j | j in joined && Bucketed(j, source) :: KeyOf(j)
  }

  function DifferingBuckets(joined: seq<Joined>): set<BucketKey> {
    set k | k in BucketKeys(joined, Payment) + BucketKeys(joined, Settlement)
      && BucketSum(joined, Payment, k) != BucketSum(joined, Settlement, k)
  }

  // ----- Summary totals

  datatype SummaryKey = SummaryKey(source: Source, field: string)

  function TotalAmount(key: SummaryKey): SummaryTotal -> int {
    (x: SummaryTotal) => if SummaryKey(x.source, x.field) == key then x.amount else 0
  }

  function ContributedAmount(key: SummaryKey): SummaryContribution -> int {
    (x: SummaryContribution) => if SummaryKey(x.source, x.field) == key then x.amount else 0
  }

  function TotalAt(totals: seq<SummaryTotal>, key: SummaryKey): int {
    Sum(TotalAmount(key), totals)
  }

  function ContributedAt(contributions: seq<SummaryContribution>, key: SummaryKey): int {
    Sum(ContributedAmount(key), contributions)
  }

  function DifferingTotals(t: Tables): set<SummaryKey> {
    set k | k in (set x | x in t.totals :: SummaryKey(x.source, x.field)) +
                 (set x | x in t.contributions :: SummaryKey(x.source, x.field))
      && TotalAt(t.totals, k) != ContributedAt(t.contributions, k)
  }

  // ----- Group amounts, header, membership

  predicate AmountDiffers(g: GroupRecord) {
    g.status == Reconciled && g.paymentAmount != g.settlementAmount
  }

  /** SUM(recon_amount) of the in-scope settlement transactions of one settlement; NULL amounts do not count. */
  function SettlementActivity(rows: seq<RawRow>, settlementID: string): int {
    Sum(ActivityAmount(settlementID), rows)
  }

  function ActivityAmount(settlementID: string): RawRow -> int {
    (r: RawRow) =>
      if r.source == Settlement && r.kind == Transaction && r.scope == InScope && r.settlementID == settlementID && r.hasRecon
      then r.reconAmount as int else 0
  }

  function ControlFor(settlementID: string): Control -> bool {
    (c: Control) => c.settlementID == settlementID
  }

  function HeaderDiffers(rows: seq<RawRow>): Control -> bool {
    (c: Control) => c.headerTotal != SettlementActivity(rows, c.settlementID)
  }

  /** The stored header differs from the recomputed activity, or there is not exactly one stored header. */
  function HeaderMismatchCount(t: Tables, selected: string): nat {
    var checks := Filter(ControlFor(selected), t.controls);
    |Filter(HeaderDiffers(t.sourceRows), checks)| + if |checks| == 1 then 0 else 1
  }

  function MemberIds(members: seq<Member>): seq<RowId> {
    Map((m: Member) => m.row, members)
  }

  function RepeatedMembers(members: seq<Member>): set<RowId> {
    set id | id in MemberIds(members) && multiset(MemberIds(members))[id] != 1
  }

  function IsTransaction(): RawRow -> bool {
    (r: RawRow) => r.kind == Transaction
  }

  function TransactionCount(rows: seq<RawRow>): nat {
    |Filter(IsTransaction(), rows)|
  }

  function Measure(t: Tables, selected: string): Verification {
    var transactions, members := TransactionCount(t.sourceRows), |t.members|;
    Verification(
      |t.sourceRows|, transactions, members, if transactions >= members then transactions - members else 0, |t.issues|,
      |Filter(AmountDiffers, t.groups)|, |DifferingBuckets(JoinRows(t.mappings, t.sourceRows))|,
      |DifferingTotals(t)|, HeaderMismatchCount(t, selected))
  }

  function VerifyRun(run: RunHeader, t: Tables, expectedRows: int): Result<Verification, VerifyError> {
    var v := Measure(t, run.selected);
    if RepeatedMembers(t.members) != {} then Err(DuplicateMembers(|RepeatedMembers(t.members)|))
    else if expectedRows > 0 && v.sourceRows != expectedRows then Err(RowCount)
    else if run.stage != Lifecycle.Reported then Err(NotReported)
    else if run.mode == Strict && run.status != Lifecycle.PassStatus then Err(NotPassed)
    else if run.mode == Strict && v.issueRows != 0 then Err(HasIssues)
    else if v.amountMismatches != 0 || v.summaryMismatches != 0 then Err(AmountsOrSummary)
    else if run.mode == Strict && v.bucketMismatches != 0 then Err(Buckets)
    else if v.headerMismatches != 0 then Err(Headers)
    else if v.memberRows != v.transactionRows then Err(MemberCount)
    else Ok(v)
  }
}
