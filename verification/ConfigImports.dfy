/** What an import stores, and when importing the same content again returns the same version. */
module ConfigImports {
  import opened Outcome
  import opened Domain
  import opened Sequences
  import opened ConfigStream
  import opened ConfigStore
  import opened ConfigTransactions
  import opened ConfigLoad

  lemma {:induction false} ExecConcat(env: Env, st: State, a: seq<Statement>, b: seq<Statement>)
    ensures ExecAll(env, st, a + b) ==
      match ExecAll(env, st, a) case None => None case Some(mid) => ExecAll(env, mid, b)
    decreases |a|
  {
    if a == [] {
      assert a + b == b;
    } else {
      assert (a + b)[1..] == a[1..] + b;
      if Exec(env, st, a[0]).Some? {
        ExecConcat(env, Exec(env, st, a[0]).value, a[1..], b);
      }
    }
  }

  /** Running more statements after a batch that may have failed. */
  function Then(env: Env, r: Option<State>, statements: seq<Statement>): Option<State> {
    match r
    case None => None
    case Some(st) => ExecAll(env, st, statements)
  }

  lemma ExecOne(env: Env, st: State, s: Statement)
    ensures ExecAll(env, st, [s]) == Exec(env, st, s)
  {
    assert [s][1..] == [];
  }

  function StoredRow(v: nat): ConfigRule -> RuleRow {
    (r: ConfigRule) => RuleRow(Some(v), Stored(r))
  }

  /** A batch of rule inserts that succeeds appends exactly the stored rules, in order. */
  lemma {:induction false} RuleInsertsAppend(env: Env, st: State, v: nat, rules: seq<ConfigRule>)
    requires ExecAll(env, st, Map(RuleInsert(v), rules)).Some?
    ensures ExecAll(env, st, Map(RuleInsert(v), rules)).value == st.(rules := st.rules + Map(StoredRow(v), rules))
    decreases |rules|
  {
    var statements := Map(RuleInsert(v), rules);
    if rules == [] {
      assert st.rules + Map(StoredRow(v), rules) == st.rules;
    } else {
      assert statements[0] == InsertRuleRow(Some(v), Stored(rules[0]));
      assert statements[1..] == Map(RuleInsert(v), rules[1..]);
      var next := Exec(env, st, statements[0]).value;
      RuleInsertsAppend(env, next, v, rules[1..]);
      RowsInOrder(st.rules, v, rules);
    }
  }

  lemma RowsInOrder(rows: seq<RuleRow>, v: nat, rules: seq<ConfigRule>)
    requires rules != []
    ensures (rows + [RuleRow(Some(v), Stored(rules[0]))]) + Map(StoredRow(v), rules[1..]) == rows + Map(StoredRow(v), rules)
  {
    MapTail(StoredRow(v), rules);
    ConcatAssociative(rows, [RuleRow(Some(v), Stored(rules[0]))], Map(StoredRow(v), rules[1..]));
  }

  /** The version before its rules are inserted: a draft with its two files linked. */
  function Linked(st: State, v: nat, name: string, payment: string, settlement: string): State {
    var p, s := File(PaymentConfig, payment), File(SettlementConfig, settlement);
    st.(versions := st.versions[v := Version(name, None, false, None)],
        files := st.files + {p} + {s},
        links := st.links[LinkId(v, PaymentConfig) := p][LinkId(v, SettlementConfig) := s],
        nextId := v + 1)
  }

  lemma LinkInsertsLink(env: Env, st: State, v: nat, kind: FileKind, sha: string)
    requires ExecAll(env, st, LinkInserts(v, kind, sha)).Some?
    ensures ExecAll(env, st, LinkInserts(v, kind, sha)).value ==
      st.(files := st.files + {File(kind, sha)}, links := st.links[LinkId(v, kind) := File(kind, sha)])
  {
    var inserts := LinkInserts(v, kind, sha);
    assert inserts == [inserts[0]] + [inserts[1]];
    ExecConcat(env, st, [inserts[0]], [inserts[1]]);
    ExecOne(env, st, inserts[0]);
    ExecOne(env, Exec(env, st, inserts[0]).value, inserts[1]);
  }

  /** An import is a draft, its two files, its rules and the freeze, one after the other. */
  lemma ImportChain(env: Env, st: State, v: nat, name: string, hash: string, payment: string, settlement: string, rules: seq<ConfigRule>)
    ensures ExecAll(env, st, ImportStatements(v, name, hash, payment, settlement, rules)) ==
      Then(env, Then(env, Then(env, Then(env, ExecAll(env, st, [InsertVersionRow(name, None)]),
        LinkInserts(v, PaymentConfig, payment)), LinkInserts(v, SettlementConfig, settlement)), Map(RuleInsert(v), rules)),
        [UpdateVersionRow(v, Version(name, None, true, Some(hash)))])
  {
    var first := [InsertVersionRow(name, None)];
    var pay, settle := LinkInserts(v, PaymentConfig, payment), LinkInserts(v, SettlementConfig, settlement);
    var fill := Map(RuleInsert(v), rules);
    ExecConcat(env, st, first + pay + settle + fill, [UpdateVersionRow(v, Version(name, None, true, Some(hash)))]);
    ExecConcat(env, st, first + pay + settle, fill);
    ExecConcat(env, st, first + pay, settle);
    ExecConcat(env, st, first, pay);
  }

  /** The state after each part of a successful fresh import. */
  lemma ImportSteps(env: Env, st: State, name: string, hash: string, payment: string, settlement: string, rules: seq<ConfigRule>)
    requires ExecAll(env, st, ImportStatements(st.nextId, name, hash, payment, settlement, rules)).Some?
    ensures
      var v := st.nextId;
      var linked := Linked(st, v, name, payment, settlement);
      var filled := linked.(rules := st.rules + Map(StoredRow(v), rules));
      && ExecAll(env, linked, Map(RuleInsert(v), rules)) == Some(filled)
      && UpdateVersion(env, filled, v, Version(name, None, true, Some(hash))) ==
           ExecAll(env, st, ImportStatements(v, name, hash, payment, settlement, rules))
  {
    var v := st.nextId;
    var first := [InsertVersionRow(name, None)];
    var pay, settle := LinkInserts(v, PaymentConfig, payment), LinkInserts(v, SettlementConfig, settlement);
    var fill := Map(RuleInsert(v), rules);
    var last := [UpdateVersionRow(v, Version(name, None, true, Some(hash)))];
    ImportChain(env, st, v, name, hash, payment, settlement, rules);
    ExecOne(env, st, first[0]);
    var a := Exec(env, st, first[0]).value;
    LinkInsertsLink(env, a, v, PaymentConfig, payment);
    var b := ExecAll(env, a, pay).value;
    LinkInsertsLink(env, b, v, SettlementConfig, settlement);
    var c := ExecAll(env, b, settle).value;
    assert c == Linked(st, v, name, payment, settlement);
    RuleInsertsAppend(env, c, v, rules);
    ExecOne(env, ExecAll(env, c, fill).value, last[0]);
  }

  lemma NewVersionRules(st: State, st': State, v: nat, rules: seq<ConfigRule>)
    requires ValidRules(st) && v !in st.versions
    requires st'.rules == st.rules + Map(StoredRow(v), rules)
    ensures RulesOf(st', v) == Map(Stored, rules)
  {
    NewRowsOnly(st.rules, v, Map(StoredRow(v), rules));
    MapMap(RuleOf(), StoredRow(v), Stored, rules);
  }

  /** Rows added for a version that had none are all of its rows. */
  lemma NewRowsOnly(rows: seq<RuleRow>, v: nat, added: seq<RuleRow>)
    requires forall r | r in rows :: r.version != Some(v)
    requires forall r | r in added :: r.version == Some(v)
    ensures Filter(InVersion(v), rows + added) == added
  {
    FilterConcat(InVersion(v), rows, added);
    FilterNone(InVersion(v), rows);
    FilterAll(InVersion(v), added);
  }

  lemma DistinctRowsDistinctKeys(rows: seq<RuleRow>, v: nat, rules: seq<ConfigRule>)
    requires DistinctRows(rows + Map(StoredRow(v), rules))
    ensures DistinctKeys(rules)
  {
    var all := rows + Map(StoredRow(v), rules);
    forall i, j | 0 <= i < j < |rules|
      ensures KeyOf(rules[i]) != KeyOf(rules[j])
    {
      assert !SameKey(all[|rows| + i], all[|rows| + j].version, all[|rows| + j].rule);
    }
  }

  predicate HoldsContent(st: State, v: nat, payment: string, settlement: string, rules: seq<ConfigRule>) {
    && LinkedSha(st, v, PaymentConfig) == Some(payment) && LinkedSha(st, v, SettlementConfig) == Some(settlement)
    && RulesOf(st, v) == Map(Stored, rules)
    && DistinctKeys(rules) && (forall r | r in rules :: KnownSource(r.source))
  }

  /** What the database holds after an import that made a new version. */
  predicate Holds(env: Env, st: State, v: nat, name: string, payment: string, settlement: string, rules: seq<ConfigRule>) {
    && IsFrozen(st, v) && st.versions[v].name == name
    && st.versions[v].hash == Some(env.digest(DatabaseBytes(env.collation, Some(payment), Some(settlement), Map(Stored, rules))))
    && HoldsContent(st, v, payment, settlement, rules)
  }

  lemma StoredSourcesKnown(st: State, st': State, v: nat, rules: seq<ConfigRule>)
    requires ValidRules(st') && st'.rules == st.rules + Map(StoredRow(v), rules)
    ensures forall r | r in rules :: KnownSource(r.source)
  {
    forall r | r in rules
      ensures KnownSource(r.source)
    {
      var i :| 0 <= i < |rules| && rules[i] == r;
      assert st'.rules[|st.rules| + i] == RuleRow(Some(v), Stored(r));
      assert st'.rules[|st.rules| + i] in st'.rules;
    }
  }

  lemma LinkedFiles(st: State, v: nat, payment: string, settlement: string)
    requires LinkId(v, PaymentConfig) in st.links && st.links[LinkId(v, PaymentConfig)] == File(PaymentConfig, payment)
    requires LinkId(v, SettlementConfig) in st.links && st.links[LinkId(v, SettlementConfig)] == File(SettlementConfig, settlement)
    ensures LinkedSha(st, v, PaymentConfig) == Some(payment) && LinkedSha(st, v, SettlementConfig) == Some(settlement)
  {
  }

  /** Freezing stores the canonical digest, whatever hash the statement gives. */
  lemma FreezeStores(env: Env, st: State, v: nat, row: Version)
    requires v in st.versions && !st.versions[v].frozen && row.frozen && UpdateVersion(env, st, v, row).Some?
    ensures UpdateVersion(env, st, v, row).value ==
      st.(versions := st.versions[v := row.(hash := Some(env.digest(VersionBytes(env, st, v))))])
  {
  }

  lemma FilledContent(st: State, filled: State, name: string, payment: string, settlement: string, rules: seq<ConfigRule>)
    requires ValidRules(st) && st.nextId !in st.versions && ValidRules(filled)
    requires filled == Linked(st, st.nextId, name, payment, settlement).(rules := st.rules + Map(StoredRow(st.nextId), rules))
    ensures HoldsContent(filled, st.nextId, payment, settlement, rules)
  {
    NewVersionRules(st, filled, st.nextId, rules);
    DistinctRowsDistinctKeys(st.rules, st.nextId, rules);
    StoredSourcesKnown(st, filled, st.nextId, rules);
    LinkedFiles(filled, st.nextId, payment, settlement);
  }

  /** The freeze at the end of a successful import. */
  lemma FilledHolds(env: Env, filled: State, v: nat, name: string, hash: string, payment: string, settlement: string,
      rules: seq<ConfigRule>)
    requires HoldsContent(filled, v, payment, settlement, rules)
    requires v in filled.versions && !filled.versions[v].frozen
    requires UpdateVersion(env, filled, v, Version(name, None, true, Some(hash))).Some?
    ensures Holds(env, UpdateVersion(env, filled, v, Version(name, None, true, Some(hash))).value, v, name,
      payment, settlement, rules)
  {
    FreezeStores(env, filled, v, Version(name, None, true, Some(hash)));
    SameRulesSame(filled, UpdateVersion(env, filled, v, Version(name, None, true, Some(hash))).value, v);
  }

  /** A new version holds exactly the imported files and rules under the digest of the SQL stream, whatever
      hash the import computed. */
  lemma ImportStores(env: Env, st: State, given: string, payment: string, settlement: string, rules: seq<ConfigRule>)
    requires Valid(env, st)
    requires Import(env, st, given, payment, settlement, rules).Some?
    requires Import(env, st, given, payment, settlement, rules).value.version !in st.versions
    ensures var imported := Import(env, st, given, payment, settlement, rules).value;
      Holds(env, imported.state, imported.version,
        ImportName(given, ContentHash(env, payment, settlement, rules)), payment, settlement, rules)
  {
    var hash := ContentHash(env, payment, settlement, rules);
    var name := ImportName(given, hash);
    ImportSteps(env, st, name, hash, payment, settlement, rules);
    ImportKeeps(env, st, given, payment, settlement, rules);
    var filled := Linked(st, st.nextId, name, payment, settlement).(rules := st.rules + Map(StoredRow(st.nextId), rules));
    FilledContent(st, filled, name, payment, settlement, rules);
    FilledHolds(env, filled, st.nextId, name, hash, payment, settlement, rules);
  }

  lemma FoundByName(env: Env, st: State, v: nat)
    requires Valid(env, st) && v in st.versions
    ensures FindByName(st, st.versions[v].name) == Some(v)
  {
    assert NameTaken(st, st.versions[v].name, None);
  }

  /** Importing the same content under the same name, after any history, returns the same version and changes
      nothing exactly when the hash computed in Go is the hash stored by the database; otherwise it is an
      error. */
  lemma ReimportByHash(env: Env, st: State, given: string, payment: string, settlement: string, rules: seq<ConfigRule>,
      history: seq<Transaction>)
    requires Valid(env, st)
    requires Import(env, st, given, payment, settlement, rules).Some?
    requires Import(env, st, given, payment, settlement, rules).value.version !in st.versions
    ensures
      var imported := Import(env, st, given, payment, settlement, rules).value;
      var later := Run(env, imported.state, history);
      Import(env, later, given, payment, settlement, rules) ==
        if ContentHash(env, payment, settlement, rules)
           == env.digest(DatabaseBytes(env.collation, Some(payment), Some(settlement), Map(Stored, rules)))
        then Some(Imported(later, imported.version)) else None
  {
    var imported := Import(env, st, given, payment, settlement, rules).value;
    ImportStores(env, st, given, payment, settlement, rules);
    ImportKeeps(env, st, given, payment, settlement, rules);
    FrozenForever(env, imported.state, history);
    var later := Run(env, imported.state, history);
    assert KeptVersion(imported.state, later, imported.version);
    FoundByName(env, later, imported.version);
  }

  /** No two different texts among these have the same digest. */
  predicate NoCollision(env: Env, a: string, b: string) {
    env.digest(a) == env.digest(b) ==> a == b
  }

  /** Hence, barring a collision, re-importing returns the frozen version exactly when no optional field of a
      rule is blank but not empty. */
  lemma ReimportIff(env: Env, st: State, given: string, payment: string, settlement: string, rules: seq<ConfigRule>,
      history: seq<Transaction>)
    requires Valid(env, st) && Collation(env.collation) && OneFilePerSource(rules)
    requires Import(env, st, given, payment, settlement, rules).Some?
    requires Import(env, st, given, payment, settlement, rules).value.version !in st.versions
    requires NoCollision(env, ConfigBytes(payment, settlement, rules),
      DatabaseBytes(env.collation, Some(payment), Some(settlement), Map(Stored, rules)))
    ensures
      var imported := Import(env, st, given, payment, settlement, rules).value;
      var later := Run(env, imported.state, history);
      var again := Import(env, later, given, payment, settlement, rules);
      if forall r | r in rules :: !HasBlankField(r) then again == Some(Imported(later, imported.version)) else again == None
  {
    ImportStores(env, st, given, payment, settlement, rules);
    ReimportByHash(env, st, given, payment, settlement, rules, history);
    StreamsAgree(payment, settlement, rules, Map(Stored, rules), env.collation);
  }

  /** What the program imports is loaded from two files, and then re-importing always returns the frozen version:
      both forms hash the same bytes, so no collision is involved. */
  lemma ReimportLoaded(env: Env, st: State, given: string, payment: string, settlement: string,
      pp: string, ph: seq<string>, ps: seq<Record>, sp: string, sh: seq<string>, ss: seq<Record>, history: seq<Transaction>)
    requires Valid(env, st) && Collation(env.collation) && DistinctLines(ps) && DistinctLines(ss)
    requires var rules := LoadedRules(pp, ph, ps, sp, sh, ss);
      && Import(env, st, given, payment, settlement, rules).Some?
      && Import(env, st, given, payment, settlement, rules).value.version !in st.versions
    ensures
      var rules := LoadedRules(pp, ph, ps, sp, sh, ss);
      var imported := Import(env, st, given, payment, settlement, rules).value;
      var later := Run(env, imported.state, history);
      Import(env, later, given, payment, settlement, rules) == Some(Imported(later, imported.version))
  {
    var rules := LoadedRules(pp, ph, ps, sp, sh, ss);
    LoadedShape(pp, ph, ps, sp, sh, ss);
    StreamsAgree(payment, settlement, rules, Map(Stored, rules), env.collation);
    ReimportIff(env, st, given, payment, settlement, rules, history);
  }

  // ----- Persist on a frozen version

  /** A run on a frozen version can store its rules exactly when all of them are there already, and then it
      adds none. */
  lemma {:induction false} StoreRulesOnFrozen(st: State, v: nat, rules: seq<ConfigRule>)
    requires IsFrozen(st, v)
    ensures StoreRules(st, v, rules) == if forall r | r in rules :: HasRule(st, v, r) then Some(st) else None
    decreases |rules|
  {
    if rules != [] {
      StoreRulesOnFrozen(st, v, rules[1..]);
      assert forall r :: r in rules <==> r == rules[0] || r in rules[1..];
    }
  }

  lemma InsertRuleFound(st: State, v: nat, r: ConfigRule)
    requires InsertRule(st, Some(v), Stored(r)).Some?
    ensures HasRule(InsertRule(st, Some(v), Stored(r)).value, v, r)
    ensures forall x | HasRule(st, v, x) :: HasRule(InsertRule(st, Some(v), Stored(r)).value, v, x)
  {
    var st' := InsertRule(st, Some(v), Stored(r)).value;
    assert SameKey(st'.rules[|st.rules|], Some(v), Stored(r));
    forall x | HasRule(st, v, x)
      ensures HasRule(st', v, x)
    {
      var i :| 0 <= i < |st.rules| && SameKey(st.rules[i], Some(v), Stored(x));
      assert st'.rules[i] == st.rules[i];
    }
  }

  /** Once a run has stored its rules, each of them is found under the run's version, and none was lost. */
  lemma {:induction false} StoredRulesFound(st: State, v: nat, rules: seq<ConfigRule>)
    requires StoreRules(st, v, rules).Some?
    ensures forall r | r in rules :: HasRule(StoreRules(st, v, rules).value, v, r)
    ensures forall x | HasRule(st, v, x) :: HasRule(StoreRules(st, v, rules).value, v, x)
    decreases |rules|
  {
    if rules != [] {
      assert forall r :: r in rules <==> r == rules[0] || r in rules[1..];
      if HasRule(st, v, rules[0]) {
        StoredRulesFound(st, v, rules[1..]);
      } else {
        InsertRuleFound(st, v, rules[0]);
        StoredRulesFound(InsertRule(st, Some(v), Stored(rules[0])).value, v, rules[1..]);
      }
    }
  }
}
