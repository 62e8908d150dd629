/** The operations that write configuration tables, as transactions over the guarded statements. */
module ConfigTransactions {
  import opened Text
  import opened Outcome
  import opened Domain
  import opened Sequences
  import opened ConfigStream
  import opened ConfigStore

  // EnsureFrozenConfig (internal/store/config.go), the rule lookup of Persist (internal/store/store.go), and
  // clone_config_version and apply_mapping_fixes (migrations/003_config_replay.sql).

  // ----- EnsureFrozenConfig

  ghost function FindByName(st: State, name: string): (found: Option<nat>)
    ensures found.Some? ==> found.value in st.versions && st.versions[found.value].name == name
    ensures found.None? ==> !NameTaken(st, name, None)
  {
    if exists v :: v in st.versions && st.versions[v].name == name then
      var v :| v in st.versions && st.versions[v].name == name;
      Some(v)
    else None
  }

  ghost function FindByHash(st: State, hash: string): (found: Option<nat>)
    ensures found.Some? ==> found.value in st.versions && st.versions[found.value].hash == Some(hash)
    ensures found.None? ==> !HashTaken(st, Some(hash), None)
  {
    if exists v :: v in st.versions && st.versions[v].hash == Some(hash) then
      var v :| v in st.versions && st.versions[v].hash == Some(hash);
      Some(v)
    else None
  }

  function ContentHash(env: Env, payment: string, settlement: string, rules: seq<ConfigRule>): string {
    env.digest(ConfigBytes(payment, settlement, rules))
  }

  /** An unnamed import is called after the first sixteen characters of its hash. */
  function ImportName(name: string, hash: string): string {
    if name != "" then name else "config-" + if |hash| < 16 then hash else hash[..16]
  }

  function RuleInsert(v: nat): ConfigRule -> Statement {
    (r: ConfigRule) => InsertRuleRow(Some(v), Stored(r))
  }

  function LinkInserts(v: nat, kind: FileKind, sha: string): seq<Statement> {
    [InsertFileRow(File(kind, sha)), InsertLinkRow(LinkId(v, kind), File(kind, sha))]
  }

  function ImportStatements(v: nat, name: string, hash: string, payment: string, settlement: string, rules: seq<ConfigRule>)
      : seq<Statement> {
    [InsertVersionRow(name, None)]
    + LinkInserts(v, PaymentConfig, payment) + LinkInserts(v, SettlementConfig, settlement)
    + Map(RuleInsert(v), rules)
    + [UpdateVersionRow(v, Version(name, None, true, Some(hash)))]
  }

  datatype Imported = Imported(state: State, version: nat)

  /** None is an error; the transaction is then rolled back. */
  ghost function Import(env: Env, st: State, given: string, payment: string, settlement: string, rules: seq<ConfigRule>)
      : Option<Imported> {
    if payment == "" || settlement == "" then None
    else
      var hash := ContentHash(env, payment, settlement, rules);
      var name := ImportName(given, hash);
      match FindByName(st, name)
      case Some(v) =>
        if st.versions[v].frozen && st.versions[v].hash == Some(hash) then Some(Imported(st, v)) else None
      case None =>
        match FindByHash(st, hash)
        case Some(v) => if st.versions[v].frozen then Some(Imported(st, v)) else None
        case None =>
          match ExecAll(env, st, ImportStatements(st.nextId, name, hash, payment, settlement, rules))
          case None => None
          case Some(st') => Some(Imported(st', st.nextId))
  }

  /** An import returns the version of the name, or else of the hash, or else makes one. */
  lemma ImportOfName(env: Env, st: State, given: string, payment: string, settlement: string, rules: seq<ConfigRule>, v: nat)
    requires payment != "" && settlement != ""
    requires var hash := ContentHash(env, payment, settlement, rules); FindByName(st, ImportName(given, hash)) == Some(v)
    ensures Import(env, st, given, payment, settlement, rules) ==
      if st.versions[v].frozen && st.versions[v].hash == Some(ContentHash(env, payment, settlement, rules))
      then Some(Imported(st, v)) else None
  {
  }

  lemma ImportOfHash(env: Env, st: State, given: string, payment: string, settlement: string, rules: seq<ConfigRule>, v: nat)
    requires payment != "" && settlement != ""
    requires var hash := ContentHash(env, payment, settlement, rules);
      FindByName(st, ImportName(given, hash)) == None && FindByHash(st, hash) == Some(v)
    ensures Import(env, st, given, payment, settlement, rules) == if st.versions[v].frozen then Some(Imported(st, v)) else None
  {
  }

  // ----- The rule rows of Persist

  predicate HasRule(st: State, v: nat, r: ConfigRule) {
    exists i :: 0 <= i < |st.rules| && SameKey(st.rules[i], Some(v), Stored(r))
  }

  /** Every rule is looked up under the run's version and inserted when missing. */
  function StoreRules(st: State, v: nat, rules: seq<ConfigRule>): Option<State>
    decreases |rules|
  {
    if rules == [] then Some(st)
    else if HasRule(st, v, rules[0]) then StoreRules(st, v, rules[1..])
    else
      match InsertRule(st, Some(v), Stored(rules[0]))
      case None => None
      case Some(next) => StoreRules(next, v, rules[1..])
  }

  function StoreRun(st: State, v: nat, payment: string, settlement: string, rules: seq<ConfigRule>): Option<State> {
    StoreRules(InsertFile(InsertFile(st, File(PaymentData, payment)), File(SettlementData, settlement)), v, rules)
  }

  // ----- clone_config_version

  function CopyRule(v: nat): StoredRule -> Statement {
    (r: StoredRule) => InsertRuleRow(Some(v), r)
  }

  function CopyLink(st: State, parent: nat, v: nat, kind: FileKind): seq<Statement> {
    if LinkId(parent, kind) in st.links then [InsertLinkRow(LinkId(v, kind), st.links[LinkId(parent, kind)])] else []
  }

  function CloneStatements(st: State, parent: nat, name: string): seq<Statement> {
    [InsertVersionRow(name, Some(parent))]
    + CopyLink(st, parent, st.nextId, PaymentConfig) + CopyLink(st, parent, st.nextId, SettlementConfig)
    + Map(CopyRule(st.nextId), RulesOf(st, parent))
  }

  function Clone(env: Env, st: State, parent: nat, name: string): Option<State> {
    if !IsFrozen(st, parent) then None
    else ExecAll(env, st, CloneStatements(st, parent, name))
  }

  // ----- apply_mapping_fixes

  function Delimited(r: StoredRule): string {
    Join(HashParts(Loaded(r)), '|')
  }

  /** The delimiter-joined text the procedure hashes itself; the freeze trigger replaces the result. */
  function LegacyHash(env: Env, st: State, v: nat): string {
    env.digest(Join(Map(Delimited, RulesOf(st, v)), '\n'))
  }

  function Guarded(env: Env, st: State, v: nat, d: Defect): Option<State> {
    if Hits(st, v, d) != Expected(d) then None
    else ExecAll(env, st,
      [if d == F01 then DeleteMatchingRows(v, d) else RetargetMatchingRows(v, d), RecordFixRow(v, d)])
  }

  function Freeze(env: Env, st: State, v: nat): Option<State>
    requires v in st.versions
  {
    UpdateVersion(env, st, v, st.versions[v].(frozen := true, hash := Some(LegacyHash(env, st, v))))
  }

  predicate Fixed(st: State, v: nat) {
    exists d: Defect :: FixRecord(v, d) in st.fixes
  }

  function ApplyFixes(env: Env, st: State, v: nat): Option<State> {
    if v !in st.versions || st.versions[v].frozen || Fixed(st, v) then None
    else
      match Guarded(env, st, v, F01)
      case None => None
      case Some(a) =>
        match Guarded(env, a, v, F02)
        case None => None
        case Some(b) =>
          match Guarded(env, b, v, F03)
          case None => None
          case Some(c) => if v in c.versions then Freeze(env, c, v) else None
  }

  // ----- Histories

  datatype Transaction =
    | Statements(statements: seq<Statement>)
    | ImportFiles(name: string, payment: string, settlement: string, rules: seq<ConfigRule>)
    | CloneVersion(parent: nat, name: string)
    | FixVersion(version: nat)
    | PersistRun(version: nat, payment: string, settlement: string, rules: seq<ConfigRule>)

  ghost function Commit(env: Env, st: State, t: Transaction): Option<State> {
    match t
    case Statements(statements) => ExecAll(env, st, statements)
    case ImportFiles(name, p, s, rules) =>
      (match Import(env, st, name, p, s, rules)
       case None => None
       case Some(imported) => Some(imported.state))
    case CloneVersion(parent, name) => Clone(env, st, parent, name)
    case FixVersion(v) => ApplyFixes(env, st, v)
    case PersistRun(v, p, s, rules) => StoreRun(st, v, p, s, rules)
  }

  /** A failed transaction leaves the state as it was. */
  ghost function After(env: Env, st: State, t: Transaction): State {
    match Commit(env, st, t)
    case None => st
    case Some(st') => st'
  }

  ghost function Run(env: Env, st: State, history: seq<Transaction>): State
    decreases |history|
  {
    if history == [] then st else Run(env, After(env, st, history[0]), history[1..])
  }

  lemma {:induction false} StoreRulesKeeps(env: Env, st: State, v: nat, rules: seq<ConfigRule>)
    requires Valid(env, st) && StoreRules(st, v, rules).Some?
    ensures Valid(env, StoreRules(st, v, rules).value) && FrozenKept(st, StoreRules(st, v, rules).value)
    decreases |rules|
  {
    if rules != [] {
      if HasRule(st, v, rules[0]) {
        StoreRulesKeeps(env, st, v, rules[1..]);
      } else {
        var next := InsertRule(st, Some(v), Stored(rules[0])).value;
        InsertRuleKeeps(env, st, Some(v), Stored(rules[0]));
        StoreRulesKeeps(env, next, v, rules[1..]);
        KeptTransitive(st, next, StoreRules(next, v, rules[1..]).value);
      }
    }
  }

  lemma StoreRunKeeps(env: Env, st: State, v: nat, payment: string, settlement: string, rules: seq<ConfigRule>)
    requires Valid(env, st) && StoreRun(st, v, payment, settlement, rules).Some?
    ensures var st' := StoreRun(st, v, payment, settlement, rules).value; Valid(env, st') && FrozenKept(st, st')
  {
    var a := InsertFile(st, File(PaymentData, payment));
    var b := InsertFile(a, File(SettlementData, settlement));
    InsertFileKeeps(env, st, File(PaymentData, payment));
    InsertFileKeeps(env, a, File(SettlementData, settlement));
    KeptTransitive(st, a, b);
    StoreRulesKeeps(env, b, v, rules);
    KeptTransitive(st, b, StoreRules(b, v, rules).value);
  }

  lemma GuardedKeeps(env: Env, st: State, v: nat, d: Defect)
    requires Valid(env, st) && Guarded(env, st, v, d).Some?
    ensures var st' := Guarded(env, st, v, d).value; Valid(env, st') && FrozenKept(st, st')
  {
    ExecAllKeeps(env, st,
      [if d == F01 then DeleteMatchingRows(v, d) else RetargetMatchingRows(v, d), RecordFixRow(v, d)]);
  }

  lemma ApplyFixesKeeps(env: Env, st: State, v: nat)
    requires Valid(env, st) && ApplyFixes(env, st, v).Some?
    ensures var st' := ApplyFixes(env, st, v).value; Valid(env, st') && FrozenKept(st, st')
  {
    var a := Guarded(env, st, v, F01).value;
    GuardedKeeps(env, st, v, F01);
    var b := Guarded(env, a, v, F02).value;
    GuardedKeeps(env, a, v, F02);
    var c := Guarded(env, b, v, F03).value;
    GuardedKeeps(env, b, v, F03);
    var row := c.versions[v].(frozen := true, hash := Some(LegacyHash(env, c, v)));
    UpdateVersionKeeps(env, c, v, row);
    KeptTransitive(st, a, b);
    KeptTransitive(st, b, c);
    KeptTransitive(st, c, ApplyFixes(env, st, v).value);
  }

  lemma ImportKeeps(env: Env, st: State, given: string, payment: string, settlement: string, rules: seq<ConfigRule>)
    requires Valid(env, st) && Import(env, st, given, payment, settlement, rules).Some?
    ensures var st' := Import(env, st, given, payment, settlement, rules).value.state; Valid(env, st') && FrozenKept(st, st')
  {
    var hash := ContentHash(env, payment, settlement, rules);
    var name := ImportName(given, hash);
    if FindByName(st, name).None? && FindByHash(st, hash).None? {
      ExecAllKeeps(env, st, ImportStatements(st.nextId, name, hash, payment, settlement, rules));
    }
  }

  lemma AfterKeeps(env: Env, st: State, t: Transaction)
    requires Valid(env, st)
    ensures Valid(env, After(env, st, t)) && FrozenKept(st, After(env, st, t))
  {
    if Commit(env, st, t).Some? {
      match t
      case Statements(statements) => ExecAllKeeps(env, st, statements);
      case ImportFiles(name, p, s, rules) => ImportKeeps(env, st, name, p, s, rules);
      case CloneVersion(parent, name) => ExecAllKeeps(env, st, CloneStatements(st, parent, name));
      case FixVersion(v) => ApplyFixesKeeps(env, st, v);
      case PersistRun(v, p, s, rules) => StoreRunKeeps(env, st, v, p, s, rules);
    }
  }

  /** Over every history of imports, clones, fixes, runs and single statements, a frozen version keeps its
      row, its file links and its rules, and the hash of every frozen version is the digest of its content. */
  lemma {:induction false} FrozenForever(env: Env, st: State, history: seq<Transaction>)
    requires Valid(env, st)
    ensures Valid(env, Run(env, st, history)) && FrozenKept(st, Run(env, st, history))
    decreases |history|
  {
    if history != [] {
      var next := After(env, st, history[0]);
      AfterKeeps(env, st, history[0]);
      FrozenForever(env, next, history[1..]);
      KeptTransitive(st, next, Run(env, next, history[1..]));
    }
  }

  const EMPTY := State(map[], {}, map[], [], {}, 0)

  lemma EmptyValid(env: Env)
    ensures Valid(env, EMPTY)
  {
  }

  /** So no reachable database has two frozen versions with the same stream. */
  lemma NoSharedStream(env: Env, history: seq<Transaction>, v: nat, w: nat)
    requires var st := Run(env, EMPTY, history);
      IsFrozen(st, v) && IsFrozen(st, w) && VersionBytes(env, st, v) == VersionBytes(env, st, w)
    ensures v == w
  {
    EmptyValid(env);
    FrozenForever(env, EMPTY, history);
  }
}
