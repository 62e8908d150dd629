/** The configuration tables and the triggers on them, in migrations 001, 002, 003, 007 and 010. */
module ConfigStore {
  import opened Outcome
  import opened Domain
  import opened Sequences
  import opened ConfigStream

  // Each statement is a guarded step from state to state; None is an error, which aborts its transaction.

  datatype FileKind = PaymentData | SettlementData | PaymentConfig | SettlementConfig

  /** A row of source_files, identified by the pair the table keeps unique. Rows are only ever added. */
  datatype File = File(kind: FileKind, sha: string)

  datatype Version = Version(name: string, parent: Option<nat>, frozen: bool, hash: Option<string>)

  datatype LinkId = LinkId(version: nat, kind: FileKind)

  datatype RuleRow = RuleRow(version: Option<nat>, rule: StoredRule)

  datatype Defect = F01 | F02 | F03

  datatype FixRecord = FixRecord(version: nat, defect: Defect)

  /** The tables config_versions, source_files, config_version_files, mapping_rules and config_fix_history;
      ids are drawn from `nextId` and never used again. */
  datatype State = State(
    versions: map<nat, Version>,
    files: set<File>,
    links: map<LinkId, File>,
    rules: seq<RuleRow>,
    fixes: set<FixRecord>,
    nextId: nat)

  /** What the database computes with: SHA-256 in hex, and the collation that orders text. */
  datatype Env = Env(digest: string -> string, collation: Order)

  const MAX_INTEGER := 0x7FFF_FFFF

  // ----- Reading one version

  function InVersion(v: nat): RuleRow -> bool {
    (r: RuleRow) => r.version == Some(v)
  }

  function RuleOf(): RuleRow -> StoredRule {
    (r: RuleRow) => r.rule
  }

  function RulesOf(st: State, v: nat): seq<StoredRule> {
    Map(RuleOf(), Filter(InVersion(v), st.rules))
  }

  function LinkedSha(st: State, v: nat, kind: FileKind): Option<string> {
    if LinkId(v, kind) in st.links then Some(st.links[LinkId(v, kind)].sha) else None
  }

  /** The text the hash trigger digests for a version. */
  function VersionBytes(env: Env, st: State, v: nat): string {
    DatabaseBytes(env.collation, LinkedSha(st, v, PaymentConfig), LinkedSha(st, v, SettlementConfig), RulesOf(st, v))
  }

  predicate IsFrozen(st: State, v: nat) {
    v in st.versions && st.versions[v].frozen
  }

  predicate FrozenParent(st: State, v: Option<nat>) {
    v.Some? && IsFrozen(st, v.value)
  }

  // ----- config_versions

  predicate NameTaken(st: State, name: string, except: Option<nat>) {
    exists v :: v in st.versions && except != Some(v) && st.versions[v].name == name
  }

  predicate HashTaken(st: State, hash: Option<string>, except: Option<nat>) {
    hash.Some? && exists v :: v in st.versions && except != Some(v) && st.versions[v].hash == hash
  }

  predicate Exists(st: State, v: Option<nat>) {
    v.Some? ==> v.value in st.versions
  }

  function InsertVersion(st: State, name: string, parent: Option<nat>): Option<State> {
    if NameTaken(st, name, None) || !Exists(st, parent) then None
    else Some(st.(versions := st.versions[st.nextId := Version(name, parent, false, None)], nextId := st.nextId + 1))
  }

  /** Two triggers fire before an update, in order of their names: the first puts the canonical hash on a row
      that is being frozen, the second rejects any change of a frozen row. */
  function CanonicalRow(env: Env, st: State, v: nat, new_: Version): Version
    requires v in st.versions
  {
    if !st.versions[v].frozen && new_.frozen then new_.(hash := Some(env.digest(VersionBytes(env, st, v)))) else new_
  }

  function UpdateVersion(env: Env, st: State, v: nat, new_: Version): Option<State> {
    if v !in st.versions then Some(st)
    else
      var row := CanonicalRow(env, st, v, new_);
      if st.versions[v].frozen then None
      else if NameTaken(st, row.name, Some(v)) || HashTaken(st, row.hash, Some(v)) || !Exists(st, row.parent) then None
      else if row.frozen && row.hash.None? then None
      else Some(st.(versions := st.versions[v := row]))
  }

  predicate Referenced(st: State, v: nat) {
    || (exists i :: 0 <= i < |st.rules| && st.rules[i].version == Some(v))
    || (exists w :: w in st.versions && w != v && st.versions[w].parent == Some(v))
  }

  /** Deleting cascades to file links and fix history; rules and child versions block it. */
  function DeleteVersion(st: State, v: nat): Option<State> {
    if v !in st.versions then Some(st)
    else if st.versions[v].frozen || Referenced(st, v) then None
    else Some(st.(
      versions := st.versions - {v},
      links := map l | l in st.links && l.version != v :: st.links[l],
      fixes := set f | f in st.fixes && f.version != v))
  }

  // ----- source_files and config_version_files

  function InsertFile(st: State, f: File): State {
    st.(files := st.files + {f})
  }

  predicate LinkAllowed(st: State, links: map<LinkId, File>, id: LinkId, file: File) {
    && (id.kind == PaymentConfig || id.kind == SettlementConfig)
    && id.version in st.versions && file in st.files && id !in links
    && forall l | l in links && l.version == id.version :: links[l] != file
  }

  function InsertLink(st: State, id: LinkId, file: File): Option<State> {
    if IsFrozen(st, id.version) || !LinkAllowed(st, st.links, id, file) then None
    else Some(st.(links := st.links[id := file]))
  }

  /** A link may be pointed at another file or moved to another version; both versions must be drafts. */
  function UpdateLink(st: State, id: LinkId, newId: LinkId, file: File): Option<State> {
    if id !in st.links then Some(st)
    else
      var others := st.links - {id};
      if IsFrozen(st, id.version) || IsFrozen(st, newId.version) || !LinkAllowed(st, others, newId, file) then None
      else Some(st.(links := others[newId := file]))
  }

  function DeleteLink(st: State, id: LinkId): Option<State> {
    if id !in st.links then Some(st)
    else if IsFrozen(st, id.version) then None
    else Some(st.(links := st.links - {id}))
  }

  // ----- mapping_rules

  predicate SameKey(r: RuleRow, version: Option<nat>, rule: StoredRule) {
    r.version == version && StoredKey(r.rule) == StoredKey(rule)
  }

  predicate KeyFree(rules: seq<RuleRow>, version: Option<nat>, rule: StoredRule) {
    forall i | 0 <= i < |rules| :: !SameKey(rules[i], version, rule)
  }

  /** CHECK, foreign key and unique index; the trigger has already run. */
  predicate RuleAllowed(st: State, others: seq<RuleRow>, version: Option<nat>, rule: StoredRule) {
    && KnownSource(rule.source) && rule.originLine <= MAX_INTEGER
    && Exists(st, version) && KeyFree(others, version, rule)
  }

  function InsertRule(st: State, version: Option<nat>, rule: StoredRule): Option<State> {
    if FrozenParent(st, version) || !RuleAllowed(st, st.rules, version, rule) then None
    else Some(st.(rules := st.rules + [RuleRow(version, rule)]))
  }

  function Without<T>(s: seq<T>, i: nat): seq<T>
    requires i < |s|
  {
    s[..i] + s[i + 1..]
  }

  /** A rule may be edited or moved to another version; both versions must be drafts. */
  function UpdateRule(st: State, i: nat, version: Option<nat>, rule: StoredRule): Option<State> {
    if i >= |st.rules| then Some(st)
    else if FrozenParent(st, st.rules[i].version) || FrozenParent(st, version) then None
    else if !RuleAllowed(st, Without(st.rules, i), version, rule) then None
    else Some(st.(rules := st.rules[i := RuleRow(version, rule)]))
  }

  function DeleteRule(st: State, i: nat): Option<State> {
    if i >= |st.rules| then Some(st)
    else if FrozenParent(st, st.rules[i].version) then None
    else Some(st.(rules := Without(st.rules, i)))
  }

  // ----- The statements of apply_mapping_fixes

  /** column LIKE '%pattern': an underscore in the pattern matches any character. */
  predicate LikeSuffix(s: string, pattern: string) {
    |pattern| <= |s| &&
    forall i | 0 <= i < |pattern| :: pattern[i] == '_' || s[|s| - |pattern| + i] == pattern[i]
  }

  const PAYMENT_FILE := "amazon_payment_configs_au_old.csv"
  const SETTLEMENT_FILE := "amazon_settlement_configs_au.csv"

  predicate Targets(r: StoredRule, target: string) {
    r.positiveTarget == Some(target) && r.negativeTarget == Some(target)
  }

  predicate OrderItem(r: StoredRule, line: nat, amountType: string, amountDescription: string, target: string) {
    && r.originLine == line && r.transactionType == "ORDER" && r.amountType == Some(amountType)
    && r.amountDescription == Some(amountDescription) && Targets(r, target)
  }

  /** The rows a defect's statement names, with the old values it guards. */
  predicate Matches(d: Defect, r: StoredRule) {
    match d
    case F01 =>
      && r.source == Payment && LikeSuffix(r.originFile, PAYMENT_FILE)
      && r.transactionType == "ORDER" && r.description == Some("any") && Targets(r, "sales_shipping")
      && ((r.originLine == 5 && r.amountField == Some("low_value_goods"))
          || (r.originLine == 72 && r.amountField == Some("sales_tax_collected")))
    case F02 =>
      && r.source == Settlement && LikeSuffix(r.originFile, SETTLEMENT_FILE)
      && (|| OrderItem(r, 61, "ITEMPRICE", "GIFTWRAPTAX", "sales_other")
          || OrderItem(r, 63, "ITEMPRICE", "SHIPPINGTAX", "sales_shipping")
          || OrderItem(r, 95, "PROMOTION", "TAXDISCOUNT", "sales_shipping")
          || OrderItem(r, 118, "ITEMWITHHELDTAX", "LOWVALUEGOODSTAX-SHIPPING", "sales_shipping"))
    case F03 =>
      && r.source == Payment && LikeSuffix(r.originFile, PAYMENT_FILE) && r.originLine == 14
      && r.transactionType == "REFUND" && r.description == Some("any") && r.amountField == Some("sales_tax_collected")
      && Coalesce(r.positiveTarget) == "" && Coalesce(r.negativeTarget) == ""
  }

  function Expected(d: Defect): nat {
    match d
    case F01 => 2
    case F02 => 4
    case F03 => 1
  }

  function NewTarget(d: Defect): string {
    if d == F02 then "sales_product_charges" else "refunded_expenses"
  }

  function Retarget(d: Defect, r: StoredRule): StoredRule {
    r.(positiveTarget := Some(NewTarget(d)), negativeTarget := Some(NewTarget(d)))
  }

  function Hit(v: nat, d: Defect): RuleRow -> bool {
    (r: RuleRow) => r.version == Some(v) && Matches(d, r.rule)
  }

  function Missed(v: nat, d: Defect): RuleRow -> bool {
    (r: RuleRow) => !Hit(v, d)(r)
  }

  function RetargetRow(v: nat, d: Defect): RuleRow -> RuleRow {
    (r: RuleRow) => if Hit(v, d)(r) then r.(rule := Retarget(d, r.rule)) else r
  }

  function Hits(st: State, v: nat, d: Defect): nat {
    |Filter(Hit(v, d), st.rules)|
  }

  function DeleteMatching(st: State, v: nat, d: Defect): Option<State> {
    if IsFrozen(st, v) && Hits(st, v, d) > 0 then None
    else Some(st.(rules := Filter(Missed(v, d), st.rules)))
  }

  function RetargetMatching(st: State, v: nat, d: Defect): Option<State> {
    if IsFrozen(st, v) && Hits(st, v, d) > 0 then None
    else Some(st.(rules := Map(RetargetRow(v, d), st.rules)))
  }

  function RecordFix(st: State, v: nat, d: Defect): Option<State> {
    if v !in st.versions || FixRecord(v, d) in st.fixes then None
    else Some(st.(fixes := st.fixes + {FixRecord(v, d)}))
  }

  // ----- All statements

  datatype Statement =
    | InsertVersionRow(name: string, parent: Option<nat>)
    | UpdateVersionRow(version: nat, row: Version)
    | DeleteVersionRow(version: nat)
    | InsertFileRow(file: File)
    | InsertLinkRow(link: LinkId, file: File)
    | UpdateLinkRow(link: LinkId, newLink: LinkId, file: File)
    | DeleteLinkRow(link: LinkId)
    | InsertRuleRow(owner: Option<nat>, rule: StoredRule)
    | UpdateRuleRow(index: nat, owner: Option<nat>, rule: StoredRule)
    | DeleteRuleRow(index: nat)
    | DeleteMatchingRows(version: nat, defect: Defect)
    | RetargetMatchingRows(version: nat, defect: Defect)
    | RecordFixRow(version: nat, defect: Defect)

  function Exec(env: Env, st: State, s: Statement): Option<State> {
    match s
    case InsertVersionRow(name, parent) => InsertVersion(st, name, parent)
    case UpdateVersionRow(v, row) => UpdateVersion(env, st, v, row)
    case DeleteVersionRow(v) => DeleteVersion(st, v)
    case InsertFileRow(file) => Some(InsertFile(st, file))
    case InsertLinkRow(link, file) => InsertLink(st, link, file)
    case UpdateLinkRow(link, newLink, file) => UpdateLink(st, link, newLink, file)
    case DeleteLinkRow(link) => DeleteLink(st, link)
    case InsertRuleRow(owner, rule) => InsertRule(st, owner, rule)
    case UpdateRuleRow(i, owner, rule) => UpdateRule(st, i, owner, rule)
    case DeleteRuleRow(i) => DeleteRule(st, i)
    case DeleteMatchingRows(v, d) => DeleteMatching(st, v, d)
    case RetargetMatchingRows(v, d) => RetargetMatching(st, v, d)
    case RecordFixRow(v, d) => RecordFix(st, v, d)
  }

  function ExecAll(env: Env, st: State, statements: seq<Statement>): Option<State>
    decreases |statements|
  {
    if statements == [] then Some(st)
    else
      match Exec(env, st, statements[0])
      case None => None
      case Some(next) => ExecAll(env, next, statements[1..])
  }

  // ----- What every statement keeps

  predicate ValidVersions(st: State) {
    && (forall v | v in st.versions :: v < st.nextId && Exists(st, st.versions[v].parent))
    && (forall v, w | v in st.versions && w in st.versions && v != w ::
          && st.versions[v].name != st.versions[w].name
          && (st.versions[v].hash.Some? ==> st.versions[v].hash != st.versions[w].hash))
  }

  predicate ValidLinks(st: State) {
    && (forall l | l in st.links ::
          l.version in st.versions && st.links[l] in st.files && (l.kind == PaymentConfig || l.kind == SettlementConfig))
    && (forall l, m | l in st.links && m in st.links && l.version == m.version && l != m :: st.links[l] != st.links[m])
  }

  predicate DistinctRows(rules: seq<RuleRow>) {
    forall i, j | 0 <= i < j < |rules| :: !SameKey(rules[i], rules[j].version, rules[j].rule)
  }

  predicate ValidRules(st: State) {
    && DistinctRows(st.rules)
    && (forall r | r in st.rules :: Exists(st, r.version) && KnownSource(r.rule.source) && r.rule.originLine <= MAX_INTEGER)
  }

  /** Every frozen version stores the digest of its present content. */
  ghost predicate HashesCurrent(env: Env, st: State) {
    forall v | IsFrozen(st, v) :: st.versions[v].hash == Some(env.digest(VersionBytes(env, st, v)))
  }

  ghost predicate Valid(env: Env, st: State) {
    ValidVersions(st) && ValidLinks(st) && ValidRules(st) && HashesCurrent(env, st)
  }

  predicate SameContent(st: State, st': State, v: nat) {
    && RulesOf(st', v) == RulesOf(st, v)
    && (forall kind :: LinkedSha(st', v, kind) == LinkedSha(st, v, kind))
  }

  /** The row, the file links and the rules of a frozen version are what they were. */
  predicate KeptVersion(st: State, st': State, v: nat) {
    v in st.versions && v in st'.versions && st'.versions[v] == st.versions[v] && SameContent(st, st', v)
  }

  ghost predicate FrozenKept(st: State, st': State) {
    forall v | IsFrozen(st, v) :: KeptVersion(st, st', v)
  }

  lemma SameContentSameBytes(env: Env, st: State, st': State, v: nat)
    requires SameContent(st, st', v)
    ensures VersionBytes(env, st', v) == VersionBytes(env, st, v)
  {
  }

  /** A step that freezes nothing and keeps what is frozen keeps the stored hashes current. */
  lemma HashesStayCurrent(env: Env, st: State, st': State)
    requires HashesCurrent(env, st) && FrozenKept(st, st')
    requires forall v | IsFrozen(st', v) :: IsFrozen(st, v)
    ensures HashesCurrent(env, st')
  {
    forall v | IsFrozen(st', v)
      ensures st'.versions[v].hash == Some(env.digest(VersionBytes(env, st', v)))
    {
      assert KeptVersion(st, st', v);
      SameContentSameBytes(env, st, st', v);
    }
  }

  // ----- Filtering a changed table

  lemma FilterSkips<T(!new)>(p: T -> bool, before: seq<T>, x: T, after: seq<T>)
    requires !p(x)
    ensures Filter(p, before + ([x] + after)) == Filter(p, before) + Filter(p, after)
  {
    FilterConcat(p, before, [x] + after);
    assert ([x] + after)[1..] == after;
  }

  lemma Around<T>(s: seq<T>, i: nat)
    requires i < |s|
    ensures s == s[..i] + ([s[i]] + s[i + 1..])
    ensures forall x :: s[i := x] == s[..i] + ([x] + s[i + 1..])
  {
  }

  lemma FilterAround<T(!new)>(p: T -> bool, s: seq<T>, i: nat)
    requires i < |s| && !p(s[i])
    ensures Filter(p, Without(s, i)) == Filter(p, s)
  {
    Around(s, i);
    FilterSkips(p, s[..i], s[i], s[i + 1..]);
    FilterConcat(p, s[..i], s[i + 1..]);
  }

  lemma FilterReplaced<T(!new)>(p: T -> bool, s: seq<T>, i: nat, x: T)
    requires i < |s| && !p(s[i]) && !p(x)
    ensures Filter(p, s[i := x]) == Filter(p, s)
  {
    Around(s, i);
    FilterSkips(p, s[..i], s[i], s[i + 1..]);
    FilterSkips(p, s[..i], x, s[i + 1..]);
  }

  lemma {:induction false} FilterOthers<T(!new)>(p: T -> bool, keep: T -> bool, s: seq<T>)
    requires forall x | x in s && p(x) :: keep(x)
    ensures Filter(p, Filter(keep, s)) == Filter(p, s)
  {
    if s != [] {
      FilterOthers(p, keep, s[1..]);
      assert ([s[0]] + Filter(keep, s[1..]))[1..] == Filter(keep, s[1..]);
    }
  }

  lemma {:induction false} FilterMapped<T(!new)>(p: T -> bool, f: T -> T, s: seq<T>)
    requires forall x | x in s :: if p(x) then f(x) == x else !p(f(x))
    ensures Filter(p, Map(f, s)) == Filter(p, s)
  {
    if s != [] {
      FilterMapped(p, f, s[1..]);
      assert Map(f, s)[1..] == Map(f, s[1..]);
    }
  }

  lemma SameRulesSame(st: State, st': State, v: nat)
    requires Filter(InVersion(v), st'.rules) == Filter(InVersion(v), st.rules)
    ensures RulesOf(st', v) == RulesOf(st, v)
  {
  }

  lemma SubsequenceDistinct(rules: seq<RuleRow>, i: nat)
    requires i < |rules| && DistinctRows(rules)
    ensures DistinctRows(Without(rules, i))
  {
    var s := Without(rules, i);
    forall a, b | 0 <= a < b < |s|
      ensures !SameKey(s[a], s[b].version, s[b].rule)
    {
      var a', b' := if a < i then a else a + 1, if b < i then b else b + 1;
      assert s[a] == rules[a'] && s[b] == rules[b'];
    }
  }

  lemma {:induction false} FilterDistinct(p: RuleRow -> bool, rules: seq<RuleRow>)
    requires DistinctRows(rules)
    ensures DistinctRows(Filter(p, rules))
  {
    if rules != [] {
      FilterDistinct(p, rules[1..]);
      var tail := Filter(p, rules[1..]);
      forall b | 0 <= b < |tail|
        ensures !SameKey(rules[0], tail[b].version, tail[b].rule)
      {
        assert tail[b] in rules[1..];
        var j :| 0 <= j < |rules[1..]| && rules[1..][j] == tail[b];
        assert rules[j + 1] == tail[b];
      }
    }
  }

  // ----- Statement by statement

  lemma RowAddedValid(st: State, row: Version)
    requires ValidVersions(st) && !NameTaken(st, row.name, None) && row.hash.None? && Exists(st, row.parent)
    ensures ValidVersions(st.(versions := st.versions[st.nextId := row], nextId := st.nextId + 1))
  {
    assert forall v | v in st.versions :: v < st.nextId && st.versions[v].name != row.name;
  }

  lemma VersionsKeep(env: Env, st: State, st': State)
    requires Valid(env, st) && ValidVersions(st')
    requires st' == st.(versions := st'.versions, nextId := st'.nextId)
    requires forall v | v in st.versions :: v in st'.versions && st'.versions[v] == st.versions[v]
    requires forall v | IsFrozen(st', v) :: v in st.versions
    ensures Valid(env, st') && FrozenKept(st, st')
  {
    forall v | IsFrozen(st, v)
      ensures KeptVersion(st, st', v)
    {
      SameRulesSame(st, st', v);
    }
    HashesStayCurrent(env, st, st');
    assert ValidLinks(st');
    assert ValidRules(st') by {
      assert forall v: Option<nat> :: Exists(st, v) ==> Exists(st', v);
    }
  }

  lemma InsertVersionKeeps(env: Env, st: State, name: string, parent: Option<nat>)
    requires Valid(env, st) && InsertVersion(st, name, parent).Some?
    ensures var st' := InsertVersion(st, name, parent).value; Valid(env, st') && FrozenKept(st, st')
  {
    RowAddedValid(st, Version(name, parent, false, None));
    assert st.nextId !in st.versions;
    VersionsKeep(env, st, InsertVersion(st, name, parent).value);
  }

  lemma RowReplacedValid(st: State, v: nat, row: Version)
    requires ValidVersions(st) && v in st.versions
    requires !NameTaken(st, row.name, Some(v)) && !HashTaken(st, row.hash, Some(v)) && Exists(st, row.parent)
    ensures ValidVersions(st.(versions := st.versions[v := row]))
  {
    assert forall w | w in st.versions && w != v ::
      st.versions[w].name != row.name && (row.hash.Some? ==> st.versions[w].hash != row.hash);
  }

  lemma RowReplacedCurrent(env: Env, st: State, v: nat, row: Version)
    requires HashesCurrent(env, st) && v in st.versions && !st.versions[v].frozen
    requires row.frozen ==> row.hash == Some(env.digest(VersionBytes(env, st, v)))
    ensures var st' := st.(versions := st.versions[v := row]); HashesCurrent(env, st') && FrozenKept(st, st')
  {
    var st' := st.(versions := st.versions[v := row]);
    forall w | IsFrozen(st', w)
      ensures st'.versions[w].hash == Some(env.digest(VersionBytes(env, st', w)))
    {
      OnlyVersionsDiffer(env, st, st', w);
      assert w != v ==> IsFrozen(st, w);
    }
    forall w | IsFrozen(st, w)
      ensures KeptVersion(st, st', w)
    {
      OnlyVersionsDiffer(env, st, st', w);
    }
  }

  lemma OnlyVersionsDiffer(env: Env, st: State, st': State, v: nat)
    requires st'.rules == st.rules && st'.links == st.links
    ensures SameContent(st, st', v) && VersionBytes(env, st', v) == VersionBytes(env, st, v)
  {
    SameContentSameBytes(env, st, st', v);
  }

  lemma UpdateVersionKeeps(env: Env, st: State, v: nat, row: Version)
    requires Valid(env, st) && UpdateVersion(env, st, v, row).Some?
    ensures var st' := UpdateVersion(env, st, v, row).value; Valid(env, st') && FrozenKept(st, st')
  {
    if v in st.versions {
      var canonical := CanonicalRow(env, st, v, row);
      RowReplacedValid(st, v, canonical);
      RowReplacedCurrent(env, st, v, canonical);
    }
  }

  lemma UnreferencedValid(st: State, st': State, v: nat)
    requires ValidRules(st) && !Referenced(st, v)
    requires st'.versions == st.versions - {v} && st'.rules == st.rules
    ensures ValidRules(st')
  {
    forall r | r in st.rules
      ensures Exists(st', r.version)
    {
      var i :| 0 <= i < |st.rules| && st.rules[i] == r;
      assert st.rules[i].version != Some(v);
    }
  }

  lemma FewerVersionsValid(st: State, st': State, v: nat)
    requires ValidVersions(st) && ValidLinks(st) && !Referenced(st, v)
    requires st'.versions == st.versions - {v} && st'.nextId == st.nextId && st'.files == st.files
    requires st'.links == map l | l in st.links && l.version != v :: st.links[l]
    ensures ValidVersions(st') && ValidLinks(st')
  {
    assert forall w | w in st.versions && w != v :: st.versions[w].parent != Some(v);
  }

  lemma DeleteVersionKeeps(env: Env, st: State, v: nat)
    requires Valid(env, st) && DeleteVersion(st, v).Some?
    ensures var st' := DeleteVersion(st, v).value; Valid(env, st') && FrozenKept(st, st')
  {
    var st' := DeleteVersion(st, v).value;
    if v in st.versions {
      FewerVersionsValid(st, st', v);
      UnreferencedValid(st, st', v);
      forall w | IsFrozen(st, w)
        ensures KeptVersion(st, st', w)
      {
        SameRulesSame(st, st', w);
      }
      HashesStayCurrent(env, st, st');
    }
  }

  lemma LinksKeep(env: Env, st: State, st': State)
    requires Valid(env, st) && ValidLinks(st')
    requires st' == st.(links := st'.links, files := st'.files)
    requires forall l: LinkId | IsFrozen(st, l.version) :: (l in st.links <==> l in st'.links) && (l in st.links ==> st'.links[l] == st.links[l])
    ensures Valid(env, st') && FrozenKept(st, st')
  {
    forall v | IsFrozen(st, v)
      ensures KeptVersion(st, st', v)
    {
      forall kind
        ensures LinkedSha(st', v, kind) == LinkedSha(st, v, kind)
      {
        assert IsFrozen(st, LinkId(v, kind).version);
      }
    }
    HashesStayCurrent(env, st, st');
  }

  lemma RulesKeep(env: Env, st: State, rules: seq<RuleRow>)
    requires Valid(env, st) && ValidRules(st.(rules := rules))
    requires forall v | IsFrozen(st, v) :: Filter(InVersion(v), rules) == Filter(InVersion(v), st.rules)
    ensures Valid(env, st.(rules := rules)) && FrozenKept(st, st.(rules := rules))
  {
    var st' := st.(rules := rules);
    forall v | IsFrozen(st, v)
      ensures KeptVersion(st, st', v)
    {
      SameRulesSame(st, st', v);
    }
    HashesStayCurrent(env, st, st');
  }

  lemma InsertRuleKeeps(env: Env, st: State, version: Option<nat>, rule: StoredRule)
    requires Valid(env, st) && InsertRule(st, version, rule).Some?
    ensures var st' := InsertRule(st, version, rule).value; Valid(env, st') && FrozenKept(st, st')
  {
    var row := RuleRow(version, rule);
    forall v | IsFrozen(st, v)
      ensures Filter(InVersion(v), st.rules + [row]) == Filter(InVersion(v), st.rules)
    {
      FilterSnoc(InVersion(v), st.rules, row);
    }
    RulesKeep(env, st, st.rules + [row]);
  }

  lemma ReplacedValid(st: State, i: nat, row: RuleRow)
    requires ValidRules(st) && i < |st.rules| && RuleAllowed(st, Without(st.rules, i), row.version, row.rule)
    ensures ValidRules(st.(rules := st.rules[i := row]))
  {
    var others := Without(st.rules, i);
    forall j | 0 <= j < |st.rules| && j != i
      ensures !SameKey(st.rules[j], row.version, row.rule) && st.rules[j] in st.rules
    {
      assert st.rules[j] == others[if j < i then j else j - 1];
    }
  }

  lemma UpdateRuleKeeps(env: Env, st: State, i: nat, version: Option<nat>, rule: StoredRule)
    requires Valid(env, st) && UpdateRule(st, i, version, rule).Some?
    ensures var st' := UpdateRule(st, i, version, rule).value; Valid(env, st') && FrozenKept(st, st')
  {
    var row := RuleRow(version, rule);
    if i < |st.rules| {
      forall v | IsFrozen(st, v)
        ensures Filter(InVersion(v), st.rules[i := row]) == Filter(InVersion(v), st.rules)
      {
        FilterReplaced(InVersion(v), st.rules, i, row);
      }
      ReplacedValid(st, i, row);
      RulesKeep(env, st, st.rules[i := row]);
    }
  }

  lemma WithoutValid(st: State, i: nat)
    requires ValidRules(st) && i < |st.rules|
    ensures ValidRules(st.(rules := Without(st.rules, i)))
  {
    SubsequenceDistinct(st.rules, i);
    assert forall r | r in Without(st.rules, i) :: r in st.rules;
  }

  lemma DeleteRuleKeeps(env: Env, st: State, i: nat)
    requires Valid(env, st) && DeleteRule(st, i).Some?
    ensures var st' := DeleteRule(st, i).value; Valid(env, st') && FrozenKept(st, st')
  {
    if i < |st.rules| {
      forall v | IsFrozen(st, v)
        ensures Filter(InVersion(v), Without(st.rules, i)) == Filter(InVersion(v), st.rules)
      {
        FilterAround(InVersion(v), st.rules, i);
      }
      WithoutValid(st, i);
      RulesKeep(env, st, Without(st.rules, i));
    }
  }

  /** A statement that only hits rows of version `v`, and none when `v` is frozen, does not touch a frozen
      version. */
  lemma HitsElsewhere(st: State, v: nat, d: Defect, w: nat, r: RuleRow)
    requires IsFrozen(st, w) && (IsFrozen(st, v) ==> Hits(st, v, d) == 0)
    requires r in st.rules && InVersion(w)(r)
    ensures !Hit(v, d)(r)
  {
    if w == v {
      NoHits(st, v, d);
    }
  }

  lemma DeletedElsewhere(st: State, v: nat, d: Defect, w: nat)
    requires IsFrozen(st, w) && (IsFrozen(st, v) ==> Hits(st, v, d) == 0)
    ensures Filter(InVersion(w), Filter(Missed(v, d), st.rules)) == Filter(InVersion(w), st.rules)
  {
    forall r | r in st.rules && InVersion(w)(r)
      ensures Missed(v, d)(r)
    {
      HitsElsewhere(st, v, d, w, r);
    }
    FilterOthers(InVersion(w), Missed(v, d), st.rules);
  }

  lemma RetargetedElsewhere(st: State, v: nat, d: Defect, w: nat)
    requires IsFrozen(st, w) && (IsFrozen(st, v) ==> Hits(st, v, d) == 0)
    ensures Filter(InVersion(w), Map(RetargetRow(v, d), st.rules)) == Filter(InVersion(w), st.rules)
  {
    forall r | r in st.rules
      ensures if InVersion(w)(r) then RetargetRow(v, d)(r) == r else !InVersion(w)(RetargetRow(v, d)(r))
    {
      if InVersion(w)(r) {
        HitsElsewhere(st, v, d, w, r);
      }
      RetargetKeepsKey(v, d, r);
    }
    FilterMapped(InVersion(w), RetargetRow(v, d), st.rules);
  }

  lemma RetargetKeepsKey(v: nat, d: Defect, r: RuleRow)
    ensures RetargetRow(v, d)(r).version == r.version && StoredKey(RetargetRow(v, d)(r).rule) == StoredKey(r.rule)
    ensures RetargetRow(v, d)(r).rule.source == r.rule.source
    ensures RetargetRow(v, d)(r).rule.originLine == r.rule.originLine
  {
    assert RetargetRow(v, d)(r) == if Hit(v, d)(r) then r.(rule := Retarget(d, r.rule)) else r;
  }

  lemma DeleteMatchingKeeps(env: Env, st: State, v: nat, d: Defect)
    requires Valid(env, st) && DeleteMatching(st, v, d).Some?
    ensures var st' := DeleteMatching(st, v, d).value; Valid(env, st') && FrozenKept(st, st')
  {
    forall w | IsFrozen(st, w)
      ensures Filter(InVersion(w), Filter(Missed(v, d), st.rules)) == Filter(InVersion(w), st.rules)
    {
      DeletedElsewhere(st, v, d, w);
    }
    FilterDistinct(Missed(v, d), st.rules);
    RulesKeep(env, st, Filter(Missed(v, d), st.rules));
  }

  lemma NoHits(st: State, v: nat, d: Defect)
    requires Hits(st, v, d) == 0
    ensures forall r | r in st.rules :: !Hit(v, d)(r)
  {
    forall r | r in st.rules
      ensures !Hit(v, d)(r)
    {
      assert r !in Filter(Hit(v, d), st.rules);
    }
  }

  lemma RetargetMatchingKeeps(env: Env, st: State, v: nat, d: Defect)
    requires Valid(env, st) && RetargetMatching(st, v, d).Some?
    ensures var st' := RetargetMatching(st, v, d).value; Valid(env, st') && FrozenKept(st, st')
  {
    forall w | IsFrozen(st, w)
      ensures Filter(InVersion(w), Map(RetargetRow(v, d), st.rules)) == Filter(InVersion(w), st.rules)
    {
      RetargetedElsewhere(st, v, d, w);
    }
    RetargetValid(st, v, d);
    RulesKeep(env, st, Map(RetargetRow(v, d), st.rules));
  }

  lemma SameKeysValid(st: State, rules: seq<RuleRow>)
    requires ValidRules(st) && |rules| == |st.rules|
    requires forall i | 0 <= i < |rules| ::
      && rules[i].version == st.rules[i].version && StoredKey(rules[i].rule) == StoredKey(st.rules[i].rule)
      && rules[i].rule.source == st.rules[i].rule.source && rules[i].rule.originLine == st.rules[i].rule.originLine
    ensures ValidRules(st.(rules := rules))
  {
    forall i, j | 0 <= i < j < |rules|
      ensures !SameKey(rules[i], rules[j].version, rules[j].rule)
    {
      assert !SameKey(st.rules[i], st.rules[j].version, st.rules[j].rule);
    }
    assert forall i | 0 <= i < |rules| :: st.rules[i] in st.rules;
  }

  lemma RetargetValid(st: State, v: nat, d: Defect)
    requires ValidRules(st)
    ensures ValidRules(st.(rules := Map(RetargetRow(v, d), st.rules)))
  {
    forall i | 0 <= i < |st.rules|
    {
      RetargetKeepsKey(v, d, st.rules[i]);
    }
    SameKeysValid(st, Map(RetargetRow(v, d), st.rules));
  }

  lemma InsertFileKeeps(env: Env, st: State, file: File)
    requires Valid(env, st)
    ensures Valid(env, InsertFile(st, file)) && FrozenKept(st, InsertFile(st, file))
  {
    LinksKeep(env, st, InsertFile(st, file));
  }

  lemma LinkAddedValid(st: State, links: map<LinkId, File>, id: LinkId, file: File)
    requires ValidLinks(st.(links := links)) && LinkAllowed(st, links, id, file)
    ensures ValidLinks(st.(links := links[id := file]))
  {
  }

  lemma FewerLinksValid(st: State, id: LinkId)
    requires ValidLinks(st)
    ensures ValidLinks(st.(links := st.links - {id}))
  {
  }

  lemma InsertLinkKeeps(env: Env, st: State, link: LinkId, file: File)
    requires Valid(env, st) && InsertLink(st, link, file).Some?
    ensures var st' := InsertLink(st, link, file).value; Valid(env, st') && FrozenKept(st, st')
  {
    LinkAddedValid(st, st.links, link, file);
    LinksKeep(env, st, st.(links := st.links[link := file]));
  }

  lemma UpdateLinkKeeps(env: Env, st: State, link: LinkId, newLink: LinkId, file: File)
    requires Valid(env, st) && UpdateLink(st, link, newLink, file).Some?
    ensures var st' := UpdateLink(st, link, newLink, file).value; Valid(env, st') && FrozenKept(st, st')
  {
    var others := st.links - {link};
    FewerLinksValid(st, link);
    if link in st.links {
      LinkAddedValid(st, others, newLink, file);
      LinksKeep(env, st, st.(links := others[newLink := file]));
    } else {
      LinksKeep(env, st, st);
    }
  }

  lemma DeleteLinkKeeps(env: Env, st: State, link: LinkId)
    requires Valid(env, st) && DeleteLink(st, link).Some?
    ensures var st' := DeleteLink(st, link).value; Valid(env, st') && FrozenKept(st, st')
  {
    LinksKeep(env, st, DeleteLink(st, link).value);
  }

  lemma RecordFixKeeps(env: Env, st: State, v: nat, d: Defect)
    requires Valid(env, st) && RecordFix(st, v, d).Some?
    ensures var st' := RecordFix(st, v, d).value; Valid(env, st') && FrozenKept(st, st')
  {
    LinksKeep(env, st, st);
    HashesStayCurrent(env, st, RecordFix(st, v, d).value);
  }

  /** No statement, whatever its arguments, touches what belongs to a frozen version, and every statement
      keeps the tables valid. */
  lemma ExecKeeps(env: Env, st: State, s: Statement)
    requires Valid(env, st) && Exec(env, st, s).Some?
    ensures Valid(env, Exec(env, st, s).value) && FrozenKept(st, Exec(env, st, s).value)
  {
    match s
    case InsertVersionRow(name, parent) => InsertVersionKeeps(env, st, name, parent);
    case UpdateVersionRow(v, row) => UpdateVersionKeeps(env, st, v, row);
    case DeleteVersionRow(v) => DeleteVersionKeeps(env, st, v);
    case InsertFileRow(file) => InsertFileKeeps(env, st, file);
    case InsertLinkRow(link, file) => InsertLinkKeeps(env, st, link, file);
    case UpdateLinkRow(link, newLink, file) => UpdateLinkKeeps(env, st, link, newLink, file);
    case DeleteLinkRow(link) => DeleteLinkKeeps(env, st, link);
    case InsertRuleRow(owner, rule) => InsertRuleKeeps(env, st, owner, rule);
    case UpdateRuleRow(i, owner, rule) => UpdateRuleKeeps(env, st, i, owner, rule);
    case DeleteRuleRow(i) => DeleteRuleKeeps(env, st, i);
    case DeleteMatchingRows(v, d) => DeleteMatchingKeeps(env, st, v, d);
    case RetargetMatchingRows(v, d) => RetargetMatchingKeeps(env, st, v, d);
    case RecordFixRow(v, d) => RecordFixKeeps(env, st, v, d);
  }

  lemma KeptTransitive(st: State, st': State, st'': State)
    requires FrozenKept(st, st') && FrozenKept(st', st'')
    ensures FrozenKept(st, st'')
  {
    forall v | IsFrozen(st, v)
      ensures KeptVersion(st, st'', v)
    {
      assert KeptVersion(st, st', v);
      assert KeptVersion(st', st'', v);
    }
  }

  lemma {:induction false} ExecAllKeeps(env: Env, st: State, statements: seq<Statement>)
    requires Valid(env, st) && ExecAll(env, st, statements).Some?
    ensures Valid(env, ExecAll(env, st, statements).value) && FrozenKept(st, ExecAll(env, st, statements).value)
    decreases |statements|
  {
    if statements != [] {
      var next := Exec(env, st, statements[0]).value;
      ExecKeeps(env, st, statements[0]);
      ExecAllKeeps(env, next, statements[1..]);
      KeptTransitive(st, next, ExecAll(env, next, statements[1..]).value);
    }
  }
}
