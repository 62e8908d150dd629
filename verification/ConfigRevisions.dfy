/** Clones of a frozen version, and the guarded corrections applied to them
    (migrations/003_config_replay.sql). */
module ConfigRevisions {
  import opened Outcome
  import opened Domain
  import opened Sequences
  import opened ConfigStream
  import opened ConfigStore
  import opened ConfigTransactions
  import opened ConfigImports

  // ----- clone_config_version

  function CopiedRow(v: nat): StoredRule -> RuleRow {
    (r: StoredRule) => RuleRow(Some(v), r)
  }

  predicate DistinctStored(rules: seq<StoredRule>) {
    forall i, j | 0 <= i < j < |rules| :: StoredKey(rules[i]) != StoredKey(rules[j])
  }

  predicate Insertable(st: State, v: nat, rules: seq<StoredRule>) {
    && v in st.versions && !st.versions[v].frozen && DistinctStored(rules)
    && (forall r | r in rules :: KnownSource(r.source) && r.originLine <= MAX_INTEGER && KeyFree(st.rules, Some(v), r))
  }

  lemma RestInsertable(st: State, v: nat, rules: seq<StoredRule>)
    requires Insertable(st, v, rules) && rules != []
    ensures Insertable(st.(rules := st.rules + [RuleRow(Some(v), rules[0])]), v, rules[1..])
  {
    forall r | r in rules[1..]
      ensures r in rules && KeyFree(st.rules + [RuleRow(Some(v), rules[0])], Some(v), r)
    {
      var i :| 0 <= i < |rules[1..]| && rules[1..][i] == r;
      assert rules[i + 1] == r;
      assert StoredKey(rules[0]) != StoredKey(rules[i + 1]);
    }
  }

  lemma {:induction false} CopyRulesAppend(env: Env, st: State, v: nat, rules: seq<StoredRule>)
    requires Insertable(st, v, rules)
    ensures ExecAll(env, st, Map(CopyRule(v), rules)) == Some(st.(rules := st.rules + Map(CopiedRow(v), rules)))
    decreases |rules|
  {
    var statements := Map(CopyRule(v), rules);
    if rules == [] {
      assert st.rules + Map(CopiedRow(v), rules) == st.rules;
    } else {
      assert statements[0] == InsertRuleRow(Some(v), rules[0]);
      assert statements[1..] == Map(CopyRule(v), rules[1..]);
      var row := RuleRow(Some(v), rules[0]);
      RestInsertable(st, v, rules);
      CopyRulesAppend(env, st.(rules := st.rules + [row]), v, rules[1..]);
      MapTail(CopiedRow(v), rules);
      ConcatAssociative(st.rules, [row], Map(CopiedRow(v), rules[1..]));
    }
  }

  lemma RulesOfDistinct(st: State, v: nat)
    requires ValidRules(st)
    ensures DistinctStored(RulesOf(st, v))
  {
    FilterDistinct(InVersion(v), st.rules);
    var rows := Filter(InVersion(v), st.rules);
    forall i, j | 0 <= i < j < |rows|
      ensures StoredKey(rows[i].rule) != StoredKey(rows[j].rule)
    {
      assert rows[i] in rows && rows[j] in rows;
      assert !SameKey(rows[i], rows[j].version, rows[j].rule);
    }
  }

  lemma RulesOfMembers(st: State, v: nat, r: StoredRule)
    requires r in RulesOf(st, v)
    ensures RuleRow(Some(v), r) in st.rules
  {
    var rows := Filter(InVersion(v), st.rules);
    var i :| 0 <= i < |rows| && RulesOf(st, v)[i] == r;
    assert rows[i] in rows;
    assert rows[i] == RuleRow(Some(v), r);
  }

  function CopiedLink(st: State, parent: nat, v: nat, kind: FileKind): map<LinkId, File> {
    if LinkId(parent, kind) in st.links then map[LinkId(v, kind) := st.links[LinkId(parent, kind)]] else map[]
  }

  /** The state a clone leads to: a draft child with the parent's links and rules. */
  function Cloned(st: State, parent: nat, name: string): State {
    var v := st.nextId;
    st.(versions := st.versions[v := Version(name, Some(parent), false, None)],
        links := st.links + CopiedLink(st, parent, v, PaymentConfig) + CopiedLink(st, parent, v, SettlementConfig),
        rules := st.rules + Map(CopiedRow(v), RulesOf(st, parent)),
        nextId := v + 1)
  }

  lemma CopyLinkCopies(env: Env, st: State, base: State, parent: nat, v: nat, kind: FileKind)
    requires v in base.versions && !base.versions[v].frozen && (kind == PaymentConfig || kind == SettlementConfig)
    requires LinkId(v, kind) !in base.links && base.files == st.files
    requires LinkId(parent, kind) in st.links ==>
      && st.links[LinkId(parent, kind)] in st.files
      && forall l | l in base.links && l.version == v :: base.links[l] != st.links[LinkId(parent, kind)]
    ensures ExecAll(env, base, CopyLink(st, parent, v, kind)) ==
      Some(base.(links := base.links + CopiedLink(st, parent, v, kind)))
  {
    if LinkId(parent, kind) in st.links {
      ExecOne(env, base, CopyLink(st, parent, v, kind)[0]);
      var file := st.links[LinkId(parent, kind)];
      assert base.links[LinkId(v, kind) := file] == base.links + CopiedLink(st, parent, v, kind);
    } else {
      assert base.links + CopiedLink(st, parent, v, kind) == base.links;
    }
  }

  lemma ParentLinks(st: State, parent: nat)
    requires ValidLinks(st)
    ensures forall kind | LinkId(parent, kind) in st.links :: st.links[LinkId(parent, kind)] in st.files
    ensures LinkId(parent, PaymentConfig) in st.links && LinkId(parent, SettlementConfig) in st.links ==>
      st.links[LinkId(parent, PaymentConfig)] != st.links[LinkId(parent, SettlementConfig)]
  {
  }

  lemma NewVersionInsertable(st: State, base: State, parent: nat, v: nat)
    requires ValidRules(st) && v !in st.versions && base.rules == st.rules
    requires v in base.versions && !base.versions[v].frozen
    ensures Insertable(base, v, RulesOf(st, parent))
  {
    RulesOfDistinct(st, parent);
    forall r | r in RulesOf(st, parent)
      ensures KnownSource(r.source) && r.originLine <= MAX_INTEGER && KeyFree(base.rules, Some(v), r)
    {
      RulesOfMembers(st, parent, r);
      assert forall i | 0 <= i < |st.rules| :: st.rules[i] in st.rules && st.rules[i].version != Some(v);
    }
  }

  function CopiedLinks(st: State, parent: nat, v: nat): map<LinkId, File> {
    st.links + CopiedLink(st, parent, v, PaymentConfig) + CopiedLink(st, parent, v, SettlementConfig)
  }

  /** The draft child before anything is copied into it. */
  function Draft(st: State, parent: nat, name: string): State {
    st.(versions := st.versions[st.nextId := Version(name, Some(parent), false, None)], nextId := st.nextId + 1)
  }

  lemma LinksCopied(env: Env, st: State, parent: nat, name: string)
    requires Valid(env, st)
    ensures ExecAll(env, Draft(st, parent, name),
        CopyLink(st, parent, st.nextId, PaymentConfig) + CopyLink(st, parent, st.nextId, SettlementConfig))
      == Some(Draft(st, parent, name).(links := CopiedLinks(st, parent, st.nextId)))
  {
    var v, a := st.nextId, Draft(st, parent, name);
    var b := a.(links := a.links + CopiedLink(st, parent, v, PaymentConfig));
    ExecConcat(env, a, CopyLink(st, parent, v, PaymentConfig), CopyLink(st, parent, v, SettlementConfig));
    ParentLinks(st, parent);
    assert forall l | l in st.links :: l.version != v;
    CopyLinkCopies(env, st, a, parent, v, PaymentConfig);
    CopyLinkCopies(env, st, b, parent, v, SettlementConfig);
  }

  lemma DraftFilled(env: Env, st: State, parent: nat, name: string)
    requires Valid(env, st)
    ensures ExecAll(env, Draft(st, parent, name).(links := CopiedLinks(st, parent, st.nextId)),
        Map(CopyRule(st.nextId), RulesOf(st, parent))) == Some(Cloned(st, parent, name))
  {
    var c := Draft(st, parent, name).(links := CopiedLinks(st, parent, st.nextId));
    NewVersionInsertable(st, c, parent, st.nextId);
    CopyRulesAppend(env, c, st.nextId, RulesOf(st, parent));
  }

  lemma ExecThree(env: Env, st: State, first: Statement, a: seq<Statement>, b: seq<Statement>)
    ensures ExecAll(env, st, [first] + a + b) ==
      match Exec(env, st, first)
      case None => None
      case Some(x) => match ExecAll(env, x, a) case None => None case Some(y) => ExecAll(env, y, b)
  {
    ExecConcat(env, st, [first] + a, b);
    ExecConcat(env, st, [first], a);
    ExecOne(env, st, first);
  }

  /** Cloning succeeds exactly when the parent is frozen and the name is free, and then the child holds what
      the parent holds. */
  lemma CloneIff(env: Env, st: State, parent: nat, name: string)
    requires Valid(env, st)
    ensures Clone(env, st, parent, name) ==
      if IsFrozen(st, parent) && !NameTaken(st, name, None) then Some(Cloned(st, parent, name)) else None
  {
    CloneRuns(env, st, parent, name);
    if IsFrozen(st, parent) && !NameTaken(st, name, None) {
      DraftInserted(st, parent, name);
      LinksCopied(env, st, parent, name);
      DraftFilled(env, st, parent, name);
    }
  }

  lemma DraftInserted(st: State, parent: nat, name: string)
    requires IsFrozen(st, parent) && !NameTaken(st, name, None)
    ensures InsertVersion(st, name, Some(parent)) == Some(Draft(st, parent, name))
  {
  }

  /** The statements of a clone: the draft, then the links, then the rules. */
  lemma CloneRuns(env: Env, st: State, parent: nat, name: string)
    ensures ExecAll(env, st, CloneStatements(st, parent, name)) ==
      match InsertVersion(st, name, Some(parent))
      case None => None
      case Some(draft) =>
        match ExecAll(env, draft,
          CopyLink(st, parent, st.nextId, PaymentConfig) + CopyLink(st, parent, st.nextId, SettlementConfig))
        case None => None
        case Some(linked) => ExecAll(env, linked, Map(CopyRule(st.nextId), RulesOf(st, parent)))
  {
    var pay, settle := CopyLink(st, parent, st.nextId, PaymentConfig), CopyLink(st, parent, st.nextId, SettlementConfig);
    var first := InsertVersionRow(name, Some(parent));
    ConcatAssociative([first], pay, settle);
    ExecThree(env, st, first, pay + settle, Map(CopyRule(st.nextId), RulesOf(st, parent)));
  }

  lemma ClonedRules(st: State, parent: nat, name: string)
    requires ValidRules(st) && st.nextId !in st.versions
    ensures RulesOf(Cloned(st, parent, name), st.nextId) == RulesOf(st, parent)
  {
    var v := st.nextId;
    NewRowsOnly(st.rules, v, Map(CopiedRow(v), RulesOf(st, parent)));
    assert Map(RuleOf(), Map(CopiedRow(v), RulesOf(st, parent))) == RulesOf(st, parent);
  }

  lemma ClonedLinks(st: State, parent: nat, name: string, kind: FileKind)
    requires ValidLinks(st) && st.nextId !in st.versions
    requires kind == PaymentConfig || kind == SettlementConfig
    ensures LinkedSha(Cloned(st, parent, name), st.nextId, kind) == LinkedSha(st, parent, kind)
  {
    assert LinkId(st.nextId, kind) !in st.links;
  }

  lemma ClonedContent(env: Env, st: State, parent: nat, name: string)
    requires Valid(env, st)
    ensures VersionBytes(env, Cloned(st, parent, name), st.nextId) == VersionBytes(env, st, parent)
  {
    ClonedRules(st, parent, name);
    ClonedLinks(st, parent, name, PaymentConfig);
    ClonedLinks(st, parent, name, SettlementConfig);
  }

  /** A clone cannot be frozen before it differs from its parent: the database would store the hash the
      parent already has. */
  lemma UnchangedCloneCannotFreeze(env: Env, st: State, parent: nat, name: string, row: Version)
    requires Valid(env, st) && Clone(env, st, parent, name).Some? && row.frozen
    ensures UpdateVersion(env, Clone(env, st, parent, name).value, st.nextId, row).None?
  {
    CloneIff(env, st, parent, name);
    ClonedContent(env, st, parent, name);
    var st' := Cloned(st, parent, name);
    assert st'.versions[parent] == st.versions[parent];
    assert HashTaken(st', Some(env.digest(VersionBytes(env, st', st.nextId))), Some(st.nextId));
  }

  // ----- apply_mapping_fixes

  /** The three defects name different rules. */
  lemma DefectsDisjoint(d: Defect, e: Defect, r: StoredRule)
    requires Matches(d, r) && Matches(e, r)
    ensures d == e
  {
    DefectOrigin(d, r);
    DefectOrigin(e, r);
  }

  /** What tells the defects apart survives a retargeting. */
  lemma DefectOrigin(d: Defect, r: StoredRule)
    ensures Matches(d, r) ==> r.source == if d == F02 then Settlement else Payment
    ensures Matches(d, r) ==> r.transactionType == if d == F03 then "REFUND" else "ORDER"
    ensures "REFUND" != "ORDER"
  {
    assert "REFUND"[0] != "ORDER"[0];
  }

  lemma OtherDefectUntouched(v: nat, d: Defect, e: Defect, r: RuleRow)
    requires d != e
    ensures if Hit(v, e)(r) then RetargetRow(v, d)(r) == r else !Hit(v, e)(RetargetRow(v, d)(r))
  {
    assert RetargetRow(v, d)(r) == if Hit(v, d)(r) then r.(rule := Retarget(d, r.rule)) else r;
    DefectOrigin(d, r.rule);
    DefectOrigin(e, r.rule);
    DefectOrigin(e, Retarget(d, r.rule));
  }

  function RowsAfter(rows: seq<RuleRow>, v: nat, d: Defect): seq<RuleRow> {
    if d == F01 then Filter(Missed(v, d), rows) else Map(RetargetRow(v, d), rows)
  }

  lemma GuardedIff(env: Env, st: State, v: nat, d: Defect)
    requires v in st.versions && !st.versions[v].frozen && FixRecord(v, d) !in st.fixes
    ensures Guarded(env, st, v, d) ==
      if Hits(st, v, d) == Expected(d)
      then Some(st.(rules := RowsAfter(st.rules, v, d), fixes := st.fixes + {FixRecord(v, d)}))
      else None
  {
    var change := if d == F01 then DeleteMatchingRows(v, d) else RetargetMatchingRows(v, d);
    assert [change, RecordFixRow(v, d)] == [change] + [RecordFixRow(v, d)];
    ExecConcat(env, st, [change], [RecordFixRow(v, d)]);
    ExecOne(env, st, change);
    ExecOne(env, st.(rules := RowsAfter(st.rules, v, d)), RecordFixRow(v, d));
  }

  /** A correction of one defect does not change which rows another one hits. */
  lemma HitsElsewhereKept(rows: seq<RuleRow>, v: nat, d: Defect, e: Defect)
    requires d != e
    ensures Filter(Hit(v, e), RowsAfter(rows, v, d)) == Filter(Hit(v, e), rows)
  {
    forall r | r in rows
      ensures if Hit(v, e)(r) then RetargetRow(v, d)(r) == r else !Hit(v, e)(RetargetRow(v, d)(r))
      ensures Hit(v, e)(r) ==> Missed(v, d)(r)
    {
      OtherDefectUntouched(v, d, e, r);
      if Hit(v, e)(r) && Hit(v, d)(r) {
        DefectsDisjoint(d, e, r.rule);
      }
    }
    if d == F01 {
      FilterOthers(Hit(v, e), Missed(v, d), rows);
    } else {
      FilterMapped(Hit(v, e), RetargetRow(v, d), rows);
    }
  }

  function CorrectedRows(rows: seq<RuleRow>, v: nat): seq<RuleRow> {
    RowsAfter(RowsAfter(RowsAfter(rows, v, F01), v, F02), v, F03)
  }

  /** The corrected draft, just before it is frozen. */
  function Corrected(st: State, v: nat): State {
    st.(rules := CorrectedRows(st.rules, v), fixes := st.fixes + {FixRecord(v, F01), FixRecord(v, F02), FixRecord(v, F03)})
  }

  predicate Correctable(st: State, v: nat) {
    && v in st.versions && !st.versions[v].frozen && !Fixed(st, v)
    && Hits(st, v, F01) == 2 && Hits(st, v, F02) == 4 && Hits(st, v, F03) == 1
  }

  lemma FixesGuarded(env: Env, st: State, v: nat)
    ensures ApplyFixes(env, st, v) == if Correctable(st, v) then Freeze(env, Corrected(st, v), v) else None
  {
    if v in st.versions && !st.versions[v].frozen && !Fixed(st, v) {
      var rows1 := RowsAfter(st.rules, v, F01);
      var rows2 := RowsAfter(rows1, v, F02);
      var a := st.(rules := rows1, fixes := st.fixes + {FixRecord(v, F01)});
      var b := a.(rules := rows2, fixes := a.fixes + {FixRecord(v, F02)});
      GuardedIff(env, st, v, F01);
      GuardedIff(env, a, v, F02);
      GuardedIff(env, b, v, F03);
      HitsElsewhereKept(st.rules, v, F01, F02);
      HitsElsewhereKept(st.rules, v, F01, F03);
      HitsElsewhereKept(rows1, v, F02, F03);
      assert b.fixes + {FixRecord(v, F03)} == Corrected(st, v).fixes;
    }
  }

  /** What becomes of one rule of the corrected version. */
  function CorrectRule(r: StoredRule): StoredRule {
    if Matches(F02, r) then Retarget(F02, r) else if Matches(F03, r) then Retarget(F03, r) else r
  }

  function Survives(): StoredRule -> bool {
    (r: StoredRule) => !Matches(F01, r)
  }

  function CorrectRules(rules: seq<StoredRule>): seq<StoredRule> {
    Map(CorrectRule, Filter(Survives(), rules))
  }

  lemma RetargetRowIs(v: nat, d: Defect, r: RuleRow)
    ensures RetargetRow(v, d)(r) ==
      if r.version == Some(v) && Matches(d, r.rule) then RuleRow(r.version, Retarget(d, r.rule)) else r
  {
    assert RetargetRow(v, d)(r) == if Hit(v, d)(r) then r.(rule := Retarget(d, r.rule)) else r;
  }

  lemma CorrectedOnce(v: nat, r: RuleRow)
    ensures RetargetRow(v, F03)(RetargetRow(v, F02)(r)) == if r.version == Some(v) then RuleRow(Some(v), CorrectRule(r.rule)) else r
  {
    var x := RetargetRow(v, F02)(r);
    OtherDefectUntouched(v, F02, F03, r);
    RetargetRowIs(v, F02, r);
    RetargetRowIs(v, F03, x);
    if Matches(F02, r.rule) && Matches(F03, r.rule) {
      DefectsDisjoint(F02, F03, r.rule);
    }
    assert Hit(v, F03)(r) == (r.version == Some(v) && Matches(F03, r.rule));
    assert Hit(v, F03)(x) == (x.version == Some(v) && Matches(F03, x.rule));
  }

  /** The rules of one version in a list of rows. */
  function RulesIn(rows: seq<RuleRow>, v: nat): seq<StoredRule> {
    Map(RuleOf(), Filter(InVersion(v), rows))
  }

  lemma RulesInHead(r: RuleRow, rows: seq<RuleRow>, v: nat)
    ensures RulesIn([r] + rows, v) == (if r.version == Some(v) then [r.rule] else []) + RulesIn(rows, v)
  {
    assert ([r] + rows)[1..] == rows;
  }

  lemma CorrectRulesHead(r: StoredRule, rules: seq<StoredRule>)
    ensures CorrectRules([r] + rules) == (if Matches(F01, r) then [] else [CorrectRule(r)]) + CorrectRules(rules)
  {
    assert ([r] + rules)[1..] == rules;
    assert Survives()(r) == !Matches(F01, r);
  }

  /** The rules of the corrected version: the two faulty ones gone, the others in order with the five targets
      replaced. */
  lemma {:induction false} CorrectedRulesOf(rows: seq<RuleRow>, v: nat)
    ensures RulesIn(CorrectedRows(rows, v), v) == CorrectRules(RulesIn(rows, v))
  {
    if rows != [] {
      CorrectedRulesOf(rows[1..], v);
      CorrectedHead(rows, v);
      CorrectedOnce(v, rows[0]);
      assert rows == [rows[0]] + rows[1..];
      RulesInHead(rows[0], rows[1..], v);
      RulesInHead(RetargetRow(v, F03)(RetargetRow(v, F02)(rows[0])), CorrectedRows(rows[1..], v), v);
      CorrectRulesHead(rows[0].rule, RulesIn(rows[1..], v));
    }
  }

  lemma CorrectedHead(rows: seq<RuleRow>, v: nat)
    requires rows != []
    ensures CorrectedRows(rows, v) ==
      (if rows[0].version == Some(v) && Matches(F01, rows[0].rule) then []
       else [RetargetRow(v, F03)(RetargetRow(v, F02)(rows[0]))]) + CorrectedRows(rows[1..], v)
  {
    var head, tail := rows[0], Filter(Missed(v, F01), rows[1..]);
    var kept := Filter(Missed(v, F01), rows);
    assert Missed(v, F01)(head) == !Hit(v, F01)(head);
    if Missed(v, F01)(head) {
      assert kept == [head] + tail;
      assert Map(RetargetRow(v, F02), kept) == [RetargetRow(v, F02)(head)] + Map(RetargetRow(v, F02), tail);
    }
  }

  lemma OtherVersionUntouched(rows: seq<RuleRow>, v: nat, w: nat, d: Defect)
    requires v != w
    ensures Filter(InVersion(w), RowsAfter(rows, v, d)) == Filter(InVersion(w), rows)
  {
    if d == F01 {
      forall r | r in rows && InVersion(w)(r)
        ensures Missed(v, d)(r)
      {
        assert Missed(v, d)(r) == !Hit(v, d)(r);
      }
      FilterOthers(InVersion(w), Missed(v, d), rows);
    } else {
      forall r | r in rows
        ensures if InVersion(w)(r) then RetargetRow(v, d)(r) == r else !InVersion(w)(RetargetRow(v, d)(r))
      {
        RetargetRowIs(v, d, r);
      }
      FilterMapped(InVersion(w), RetargetRow(v, d), rows);
    }
  }

  /** Nothing of any other version changes. */
  lemma OthersUncorrected(st: State, v: nat, w: nat)
    requires v != w
    ensures RulesOf(Corrected(st, v), w) == RulesOf(st, w)
  {
    var rows1 := RowsAfter(st.rules, v, F01);
    var rows2 := RowsAfter(rows1, v, F02);
    OtherVersionUntouched(st.rules, v, w, F01);
    OtherVersionUntouched(rows1, v, w, F02);
    OtherVersionUntouched(rows2, v, w, F03);
  }

  lemma FreezeIff(env: Env, st: State, v: nat)
    requires ValidVersions(st) && v in st.versions && !st.versions[v].frozen
    ensures
      var hash := Some(env.digest(VersionBytes(env, st, v)));
      Freeze(env, st, v) ==
        if HashTaken(st, hash, Some(v)) then None
        else Some(st.(versions := st.versions[v := st.versions[v].(frozen := true, hash := hash)]))
  {
    assert !NameTaken(st, st.versions[v].name, Some(v));
  }

  /** The procedure succeeds exactly on a draft without recorded fixes whose rules hit the three guards two,
      four and one times, and whose corrected content no other version has. Then the draft's rules are the
      corrected ones, no other version's rules change, and the version is frozen under the canonical digest of
      its corrected content. Otherwise nothing happens. */
  lemma FixesExact(env: Env, st: State, v: nat)
    requires Valid(env, st)
    ensures
      var fixed := Corrected(st, v);
      var hash := Some(env.digest(VersionBytes(env, fixed, v)));
      ApplyFixes(env, st, v) ==
        if Correctable(st, v) && !HashTaken(st, hash, Some(v))
        then Some(fixed.(versions := st.versions[v := st.versions[v].(frozen := true, hash := hash)]))
        else None
    ensures RulesOf(Corrected(st, v), v) == CorrectRules(RulesOf(st, v))
    ensures forall w | w != v :: RulesOf(Corrected(st, v), w) == RulesOf(st, w)
  {
    FixesGuarded(env, st, v);
    if Correctable(st, v) {
      FreezeIff(env, Corrected(st, v), v);
    }
    CorrectedRulesOf(st.rules, v);
    forall w | w != v
      ensures RulesOf(Corrected(st, v), w) == RulesOf(st, w)
    {
      OthersUncorrected(st, v, w);
    }
  }

  /** A second application fails, whatever happened in between. */
  lemma FixesOnlyOnce(env: Env, st: State, v: nat, history: seq<Transaction>)
    requires Valid(env, st) && ApplyFixes(env, st, v).Some?
    ensures ApplyFixes(env, Run(env, ApplyFixes(env, st, v).value, history), v).None?
  {
    FixesExact(env, st, v);
    var fixed := ApplyFixes(env, st, v).value;
    ApplyFixesKeeps(env, st, v);
    FrozenForever(env, fixed, history);
    assert KeptVersion(fixed, Run(env, fixed, history), v);
  }
}
