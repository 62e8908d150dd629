/** internal/domain/types.go: the records that flow through the pipeline. Raw payloads, byte offsets,
    timestamps and event classes, which no computation here reads, are left out. */
module Domain {
  import opened Money

  datatype Source = Payment | Settlement | UnknownSource(name: string)

  datatype RowKind = Transaction | Metadata

  datatype Scope = InScope | Deferred | OtherSettlement | MetadataScope | Unsupported

  function ScopeText(s: Scope): string {
    match s
    case InScope => "IN_SCOPE"
    case Deferred => "DEFERRED"
    case OtherSettlement => "OTHER_SETTLEMENT"
    case MetadataScope => "METADATA"
    case Unsupported => "UNSUPPORTED"
  }

  lemma ScopeTextInjective(a: Scope, b: Scope)
    requires ScopeText(a) == ScopeText(b)
    ensures a == b
  {
    assert |ScopeText(InScope)| == 8 && |ScopeText(Deferred)| == 8 && |ScopeText(MetadataScope)| == 8;
    assert ScopeText(InScope)[0] == 'I' && ScopeText(Deferred)[0] == 'D' && ScopeText(MetadataScope)[0] == 'M';
  }

  datatype RawRow = RawRow(
    source: Source,
    kind: RowKind,
    ordinal: int,
    lineStart: int,
    canonical: map<string, string>,
    settlementID: string,
    currency: string,
    transaction: string,
    description: string,
    amountType: string,
    sku: string,
    txnRef: string,
    keyDate: string,
    status: string,
    reconAmount: int64,
    hasRecon: bool,
    scope: Scope)

  datatype ConfigRule = ConfigRule(
    source: Source,
    originFile: string,
    originLine: nat,
    transactionType: string,
    description: string,
    amountField: string,
    amountType: string,
    amountDescription: string,
    recordRef: string,
    positiveTarget: string,
    negativeTarget: string)

  datatype Decision = Routed | OptionalAbsent | Zero | NotSummarized

  datatype Contribution = Contribution(
    rule: ConfigRule,
    field: string,
    amount: int64,
    target: string,
    decision: Decision,
    keyParts: seq<string>,
    key: string)

  datatype Issue = DuplicateSelector(field: string, lines: seq<nat>) | RowFailed(error: MapError)

  datatype MappedRow = MappedRow(
    row: RawRow,
    contributions: seq<Contribution>,
    keyParts: seq<string>,
    key: string,
    issues: seq<Issue>)

  datatype MapError =
    | UnsupportedMode
    | UnsupportedRuleSource(line: nat)
    | NoAmountField(line: nat)
    | NoAmountType(line: nat)
    | UnknownTarget(line: nat, target: string)
    | AmbiguousRules(field: string, lines: seq<nat>)
    | NoReconAmount
    | MissingAmount(field: string)
    | BadAmount(money: MoneyError)
    | EmptyRecordRef
    | EmptyToken(token: string)
    | UnknownToken(token: string)
    | ReservedDelimiter
    | OptionalAbsentRoutes(field: string)
    | ConflictingKeys(first: string, second: string)
    | TotalAndComponent
    | NoRecordRef
    | SummaryOverflow(money: MoneyError)

  type Buckets = map<string, int64>

  /** summary.Buckets: target, then source. */
  type Summary = map<string, map<Source, int64>>

  function BucketAt(b: Buckets, target: string): int64 {
    if target in b then b[target] else 0
  }

  /** Go's double map lookup, where a missing entry reads as zero. */
  function SummaryAt(s: Summary, target: string, source: Source): int64 {
    if target in s && source in s[target] then s[target][source] else 0
  }

  datatype Mode = Diagnostic | Strict | OtherMode(name: string)
}
