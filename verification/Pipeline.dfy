/** A run of cmd/recon/main.go from parsed rows to committed tables, in either mode. */
module Pipeline {
  import opened Outcome
  import opened Domain
  import opened Money
  import opened Sequences
  import opened Grouping
  import opened GroupTable
  import opened Classification
  import opened Gate
  import opened RunTables
  import opened EngineLoops
  import opened EndToEnd
  import opened Persist
  import opened DiagnosticVerification
  import opened Storability
  import opened ConfigStream
  import opened ConfigStore
  import opened ConfigTransactions
  import opened ConfigDatabase
  import Lifecycle = RunStore

  datatype RunError =
    | MappingFailed(error: MapError)
    | GroupingFailed(overflow: MoneyError)
    | HeaderFailed(header: HeaderError)
    | PersistFailed(cause: PersistError)

  /** The configuration version a run uses and the digests of its two data files. */
  datatype RunConfig = RunConfig(version: int, payment: string, settlement: string)

  datatype Prepared = Prepared(groups: seq<GroupValue>, summary: Summary)

  datatype Committed = Committed(groups: seq<GroupValue>, summary: Summary, tables: Tables)

  predicate ActivityFits(settlements: seq<RawRow>) {
    forall k | 0 <= k <= |settlements| :: InInt64(Sum(ActivityWeight(), settlements[..k]))
  }

  /** Committed tables are those of the inputs, behind the controls of the mode; the rules of the run are stored
      under its version; and the independent verification, once the run is reported, gives the verdict of the
      mode. */
  ghost predicate CommitMeans(x: Inputs, rc: RunConfig, config: State, config': State, c: Committed) {
    && rc.version > 0
    && Computed(x, c.groups, c.summary) && EndToEnd.Stored(x, c.groups, c.summary, c.tables)
    && HeaderPasses(x) && (x.mode == Strict ==> GatePasses(c.summary, c.groups))
    && StoreRun(config, rc.version, rc.payment, rc.settlement, x.paymentRules + x.settlementRules) == Some(config')
    && if x.mode == Strict then StrictVerdict(x, c.groups, c.tables)
       else DiagnosticVerdict(x, c.groups, c.tables, Lifecycle.DiagnosticStatus)
  }

  /** A run that stops has a reason in its inputs or in the configuration. */
  ghost predicate StopMeans(x: Inputs, rc: RunConfig, config: State, e: RunError) {
    if e.PersistFailed? then exists groups, merged :: Computed(x, groups, merged) && Refused(x, rc, config, groups, merged)
    else Unprepared(x, e)
  }

  predicate Unprepared(x: Inputs, e: RunError)
    requires !e.PersistFailed?
  {
    match e
    case MappingFailed(_) => !Maps(x)
    case GroupingFailed(_) => Maps(x) && !(SideFits(PaymentOutput(x).rows) && SideFits(SettlementOutput(x).rows))
    case HeaderFailed(_) => !HeaderPasses(x) || !ActivityFits(x.settlements)
  }

  /** The last reason, a row that uses a rule twice, never stops a strict run under rules with different keys, by
      `StrictRunUnique`. */
  ghost predicate Refused(x: Inputs, rc: RunConfig, config: State, groups: seq<GroupValue>, merged: Summary) {
    || rc.version <= 0
    || (x.mode == Strict && !GatePasses(merged, groups))
    || StoreRun(config, rc.version, rc.payment, rc.settlement, x.paymentRules + x.settlementRules).None?
    || !RowsStorable(x.payments + x.settlements, x.selected)
    || !RowsUnique(AllRows(x))
  }

  /** The steps between classification and Persist: map both sources, join them, check the header, merge. */
  method Prepare(x: Inputs) returns (r: Result<Prepared, RunError>)
    requires WellSourced(x)
    ensures r.Ok? ==> Computed(x, r.value.groups, r.value.summary) && HeaderPasses(x)
    ensures r.Err? ==> !r.error.PersistFailed? && Unprepared(x, r.error)
  {
    var mappedPayments := MapAll(x.paymentRules, x.mode, x.payments);
    if mappedPayments.Err? {
      return Err(MappingFailed(mappedPayments.error));
    }
    var mappedSettlements := MapAll(x.settlementRules, x.mode, x.settlements);
    if mappedSettlements.Err? {
      return Err(MappingFailed(mappedSettlements.error));
    }
    var pe, se := mappedPayments.value, mappedSettlements.value;
    var built := BuildGroups(pe.rows, se.rows);
    if built.Err? {
      return Err(GroupingFailed(built.error));
    }
    var header := HeaderCheck(x.settlements, x.selected);
    if header.Err? {
      return Err(HeaderFailed(header.error));
    }
    var merged := MergeSummary(pe.summary, se.summary);
    return Ok(Prepared(built.value, merged));
  }

  /** The steps after classification. */
  method Reconcile(db: Database, x: Inputs, rc: RunConfig) returns (r: Result<Committed, RunError>)
    requires WellSourced(x) && db.Consistent()
    modifies db
    ensures db.Consistent() && FrozenKept(old(db.Tables()), db.Tables())
    ensures r.Ok? ==> CommitMeans(x, rc, old(db.Tables()), db.Tables(), r.value)
    ensures r.Err? ==> StopMeans(x, rc, old(db.Tables()), r.error) && db.Tables() == old(db.Tables())
  {
    var prepared := Prepare(x);
    if prepared.Err? {
      return Err(prepared.error);
    }
    r := CommitRun(db, x, rc, prepared.value.groups, prepared.value.summary);
  }

  /** Persist, and what its outcome means. */
  method CommitRun(db: Database, x: Inputs, rc: RunConfig, groups: seq<GroupValue>, merged: Summary)
      returns (r: Result<Committed, RunError>)
    requires Computed(x, groups, merged) && HeaderPasses(x) && db.Consistent()
    modifies db
    ensures db.Consistent() && FrozenKept(old(db.Tables()), db.Tables())
    ensures r.Ok? ==> CommitMeans(x, rc, old(db.Tables()), db.Tables(), r.value)
    ensures r.Err? ==> StopMeans(x, rc, old(db.Tables()), r.error) && db.Tables() == old(db.Tables())
  {
    ghost var config := db.Tables();
    var stored := Persist.PersistRun(db, rc.version, rc.payment, rc.settlement, x.mode, AllRows(x), groups, merged,
      x.paymentRules + x.settlementRules, PaymentOutput(x).issues + SettlementOutput(x).issues, x.selected);
    if stored.Err? {
      RefusedBecause(x, rc, config, groups, merged);
      return Err(PersistFailed(stored.error));
    }
    Verdicts(x, groups, merged, stored.value);
    return Ok(Committed(groups, merged, stored.value));
  }

  lemma RefusedBecause(x: Inputs, rc: RunConfig, config: State, groups: seq<GroupValue>, merged: Summary)
    requires Computed(x, groups, merged)
    requires !Persistable(config, rc.version, rc.payment, rc.settlement, x.mode, AllRows(x), groups, merged,
      x.paymentRules + x.settlementRules, x.selected)
    ensures Refused(x, rc, config, groups, merged)
  {
    StorableIff(x);
    RowsAreInputs(x);
    if UniqueRows(x.payments + x.settlements) {
      GroupingFits(PaymentOutput(x).rows, SettlementOutput(x).rows, groups);
    }
  }

  lemma Verdicts(x: Inputs, groups: seq<GroupValue>, merged: Summary, t: Tables)
    requires Computed(x, groups, merged) && EndToEnd.Stored(x, groups, merged, t)
    requires HeaderPasses(x) && (x.mode == Strict ==> GatePasses(merged, groups))
    ensures x.mode == Strict ==> StrictVerdict(x, groups, t)
    ensures x.mode != Strict ==> DiagnosticVerdict(x, groups, t, Lifecycle.DiagnosticStatus)
  {
    if x.mode == Strict {
      StrictRunVerifies(x, groups, merged, t);
    } else {
      DiagnosticRunVerifies(x, groups, merged, t, Lifecycle.DiagnosticStatus);
    }
  }

  /** A run: classify both sources in place, then map, join, check the header, merge, and persist. */
  method RunRecon(db: Database, mode: Mode, pr: seq<ConfigRule>, payments: array<RawRow>, sr: seq<ConfigRule>,
      settlements: array<RawRow>, selected: string, rc: RunConfig) returns (r: Result<Committed, RunError>)
    requires payments != settlements && db.Consistent()
    requires forall i | 0 <= i < payments.Length :: payments[i].source == Payment
    requires forall i | 0 <= i < settlements.Length :: settlements[i].source == Settlement
    modifies payments, settlements, db
    ensures payments[..] == Map(Classifier(selected), old(payments[..]))
    ensures settlements[..] == Map(Classifier(selected), old(settlements[..]))
    ensures db.Consistent() && FrozenKept(old(db.Tables()), db.Tables())
    ensures var x := Inputs(mode, pr, payments[..], sr, settlements[..], selected);
      && WellSourced(x)
      && (r.Ok? ==> CommitMeans(x, rc, old(db.Tables()), db.Tables(), r.value))
      && (r.Err? ==> StopMeans(x, rc, old(db.Tables()), r.error) && db.Tables() == old(db.Tables()))
  {
    Classify(payments, selected);
    Classify(settlements, selected);
    ClassifiedAll(old(payments[..]), selected, Payment);
    ClassifiedAll(old(settlements[..]), selected, Settlement);
    r := Reconcile(db, Inputs(mode, pr, payments[..], sr, settlements[..], selected), rc);
  }

  lemma ClassifiedAll(rows: seq<RawRow>, selected: string, s: Source)
    requires forall r | r in rows :: r.source == s
    ensures Classified(Map(Classifier(selected), rows), selected)
    ensures forall r | r in Map(Classifier(selected), rows) :: r.source == s
  {
    var out := Map(Classifier(selected), rows);
    forall r | r in out
      ensures r.scope == ScopeOf(r, selected) && r.source == s
    {
      var i :| 0 <= i < |out| && out[i] == r;
      assert rows[i] in rows;
    }
  }
}
